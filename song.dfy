/** The `Song` record (Models/Song.swift): its computed properties and its JSON form. */
module SongModel {
  import opened Wrappers
  import opened Text
  import opened Json

  datatype Song = Song(
    id: int,
    title: string,
    artist: string,
    album: Option<string>,
    duration: Option<int>,
    filePath: Option<string>,
    albumCoverPath: Option<string>,
    source: Option<string>,
    trackId: Option<string>,
    addedAt: Option<string>,
    isLocal: Option<bool>,
    playlistTrackId: Option<int>)

  /** The server used when no `serverURL` has been saved in the user defaults. */
  const DefaultServerURL: string := "https://stream.noxamusic.com"

  /** `UserDefaults.standard.string(forKey: "serverURL") ?? DefaultServerURL`. */
  function ServerBase(saved: Option<string>): string {
    saved.GetOr(DefaultServerURL)
  }

  /**
   * `Song.durationString`: `0:00` without a duration, otherwise minutes, a
   * colon and the seconds in two digits, which read back to the duration.
   */
  function DurationString(s: Song): (r: string)
    ensures s.duration.None? ==> r == "0:00"
    ensures s.duration.Some? && s.duration.value >= 0 ==>
      |r| >= 4 && r[|r| - 3] == ':' && r[..|r| - 3] == NatToString(s.duration.value / 60)
      && ParseClock(r) == Some(s.duration.value)
  {
    match s.duration
    case None => "0:00"
    case Some(d) =>
      if d >= 0 then ClockRoundTrip(d); Clock(d) else Clock(d)
  }

  /** `Song.stringId`: the decimal rendering of the id, which reads back to it. */
  function StringId(s: Song): (r: string)
    ensures ParseInt(r) == Some(s.id)
  {
    IntToStringRoundTrip(s.id);
    IntToString(s.id)
  }

  predicate IsAbsolute(path: string) {
    StartsWith(path, "http://") || StartsWith(path, "https://")
  }

  /** `Song.albumArtURL`: an absolute URL for the cover path, if there is one. */
  function AlbumArtURL(s: Song, saved: Option<string>): (r: Option<string>)
    ensures r.None? <==> s.albumCoverPath.None? || s.albumCoverPath.value == ""
    ensures r.Some? && IsAbsolute(s.albumCoverPath.value) ==> r.value == s.albumCoverPath.value
    ensures r.Some? && !IsAbsolute(s.albumCoverPath.value) ==>
      var path := s.albumCoverPath.value;
      r.value == ServerBase(saved) + "/" + (if StartsWith(path, "/") then path[1..] else path)
  {
    match s.albumCoverPath
    case None => None
    case Some(path) =>
      if path == [] then None
      else if IsAbsolute(path) then Some(path)
      else
        var clean := if StartsWith(path, "/") then path[1..] else path;
        Some(ServerBase(saved) + "/" + clean)
  }

  lemma StartsWithAppend(a: string, b: string, p: string)
    requires StartsWith(a, p)
    ensures StartsWith(a + b, p)
  {
    assert (a + b)[..|p|] == a[..|p|];
  }

  /**
   * Normalising is idempotent when the server address is itself absolute: a
   * song whose cover path is the URL produced for another song maps to that
   * same URL.
   */
  lemma AlbumArtURLIdempotent(s: Song, saved: Option<string>)
    requires IsAbsolute(ServerBase(saved))
    requires AlbumArtURL(s, saved).Some?
    ensures AlbumArtURL(s.(albumCoverPath := AlbumArtURL(s, saved)), saved) == AlbumArtURL(s, saved)
  {
    var path := s.albumCoverPath.value;
    if !IsAbsolute(path) {
      var base := ServerBase(saved);
      var rest := "/" + (if StartsWith(path, "/") then path[1..] else path);
      if StartsWith(base, "http://") {
        StartsWithAppend(base, rest, "http://");
      } else {
        StartsWithAppend(base, rest, "https://");
      }
      assert base + "/" + (if StartsWith(path, "/") then path[1..] else path) == base + rest;
    }
  }

  /** The synthesized `Decodable` initialiser: required id, title and artist; every other key optional. */
  function DecodeSong(j: Json): (r: Result<Song>)
    ensures r.Ok? ==> j.JObject? && "id" in j.fields && j.fields["id"] == JInt(r.value.id)
    ensures j.JObject? && "id" !in j.fields ==> r == Err(KeyNotFound("id"))
  {
    if !j.JObject? then Err(NotAnObject)
    else
      var o := j.fields;
      var id :- DecodeInt(o, "id");
      var title :- DecodeString(o, "title");
      var artist :- DecodeString(o, "artist");
      var album :- DecodeStringIfPresent(o, "album");
      var duration :- DecodeIntIfPresent(o, "duration");
      var filePath :- DecodeStringIfPresent(o, "file_path");
      var cover :- DecodeStringIfPresent(o, "album_cover");
      var source :- DecodeStringIfPresent(o, "source");
      var trackId :- DecodeStringIfPresent(o, "track_id");
      var addedAt :- DecodeStringIfPresent(o, "added_at");
      var isLocal :- DecodeBoolIfPresent(o, "isLocal");
      var playlistTrackId :- DecodeIntIfPresent(o, "playlist_track_id");
      Ok(Song(id, title, artist, album, duration, filePath, cover, source, trackId, addedAt, isLocal, playlistTrackId))
  }

  /** The keys of `Song.CodingKeys`. */
  const SongKeys: set<string> := {"id", "title", "artist", "album", "duration", "file_path",
    "album_cover", "source", "track_id", "added_at", "isLocal", "playlist_track_id"}

  /** What the synthesized encoder writes under `key`, or nothing for an absent optional. */
  function SongField(s: Song, key: string): Option<Json> {
    if key == "id" then Some(JInt(s.id))
    else if key == "title" then Some(JString(s.title))
    else if key == "artist" then Some(JString(s.artist))
    else if key == "album" then StringValue(s.album)
    else if key == "duration" then IntValue(s.duration)
    else if key == "file_path" then StringValue(s.filePath)
    else if key == "album_cover" then StringValue(s.albumCoverPath)
    else if key == "source" then StringValue(s.source)
    else if key == "track_id" then StringValue(s.trackId)
    else if key == "added_at" then StringValue(s.addedAt)
    else if key == "isLocal" then BoolValue(s.isLocal)
    else if key == "playlist_track_id" then IntValue(s.playlistTrackId)
    else None
  }

  /** The synthesized `Encodable` conformance: every field under its key, absent optionals left out. */
  function EncodeSong(s: Song): (j: Json)
    ensures j.JObject? && "id" in j.fields && j.fields.Keys <= SongKeys
  {
    JObject(map k | k in SongKeys && SongField(s, k).Some? :: SongField(s, k).value)
  }

  /** Decoding what the encoder writes gives back the same song. */
  lemma SongRoundTrip(s: Song)
    ensures DecodeSong(EncodeSong(s)) == Ok(s)
  {
    var o := EncodeSong(s).fields;
    assert o["id"] == JInt(s.id) && o["title"] == JString(s.title) && o["artist"] == JString(s.artist);
    StringIfPresentRoundTrip(o, "album", s.album);
    IntIfPresentRoundTrip(o, "duration", s.duration);
    StringIfPresentRoundTrip(o, "file_path", s.filePath);
    StringIfPresentRoundTrip(o, "album_cover", s.albumCoverPath);
    StringIfPresentRoundTrip(o, "source", s.source);
    StringIfPresentRoundTrip(o, "track_id", s.trackId);
    StringIfPresentRoundTrip(o, "added_at", s.addedAt);
    BoolIfPresentRoundTrip(o, "isLocal", s.isLocal);
    IntIfPresentRoundTrip(o, "playlist_track_id", s.playlistTrackId);
  }
}
