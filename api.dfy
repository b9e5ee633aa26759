/**
 * The value-level parts of the API client (Services/APIService.swift):
 * remote search tracks and their tolerant decoding, the search response's
 * array fallbacks, the stream URL, and the playlist-link patch applied to
 * a playlist's track listing.
 */
module RemoteModel {
  import opened Wrappers
  import opened Text
  import opened Json
  import opened SongModel
  import opened PlaylistModel

  datatype RemoteTrack = RemoteTrack(
    id: string,
    title: string,
    artistName: string,
    albumTitle: Option<string>,
    duration: Option<int>,
    image: Option<string>,
    preview: Option<string>,
    source: Option<string>,
    kind: Option<string>)

  /**
   * `RemoteTrack.subtitle`: the artist, else the album, else the source
   * (passed through `capitalized`, which is left abstract), else empty.
   */
  function Subtitle(t: RemoteTrack, capitalized: string -> string): (r: string)
    ensures t.artistName != "" ==> r == t.artistName
    ensures t.artistName == "" && t.albumTitle.Some? && t.albumTitle.value != "" ==> r == t.albumTitle.value
    ensures t.artistName == "" && (t.albumTitle.None? || t.albumTitle.value == "") ==>
      r == (if t.source.Some? && t.source.value != "" then capitalized(t.source.value) else "")
  {
    if t.artistName != "" then t.artistName
    else if t.albumTitle.Some? && t.albumTitle.value != "" then t.albumTitle.value
    else if t.source.Some? && t.source.value != "" then capitalized(t.source.value)
    else ""
  }

  /** `RemoteTrack.durationString`: empty unless the duration is positive, then `m:ss`. */
  function RemoteDurationString(t: RemoteTrack): (r: string)
    ensures r == "" <==> t.duration.None? || t.duration.value <= 0
    ensures t.duration.Some? && t.duration.value > 0 ==>
      |r| >= 4 && r[..|r| - 3] == NatToString(t.duration.value / 60) && ParseClock(r) == Some(t.duration.value)
  {
    match t.duration
    case Some(d) =>
      if d > 0 then ClockRoundTrip(d); Clock(d) else ""
    case None => ""
  }

  /** A `RemoteArtist` payload decodes when it is an object with a string `name` and, if any, a string `id`. */
  function DecodeArtistName(j: Json): (r: Option<string>)
    ensures r.Some? <==>
      && j.JObject?
      && (Absent(j.fields, "id") || j.fields["id"].JString?)
      && "name" in j.fields && j.fields["name"].JString?
    ensures r.Some? ==> j.fields["name"] == JString(r.value)
  {
    if j.JObject? && DecodeStringIfPresent(j.fields, "id").Ok? then TryString(j.fields, "name") else None
  }

  /** A `RemoteAlbum` payload decodes from any object; its title is `title`, else `name`, else absent. */
  function DecodeAlbumTitle(j: Json): (r: Option<Option<string>>)
    ensures r.Some? <==> j.JObject?
    ensures r.Some? && r.value.Some? ==>
      if "title" in j.fields && j.fields["title"].JString? then j.fields["title"] == JString(r.value.value)
      else "name" in j.fields && j.fields["name"] == JString(r.value.value)
    ensures r.Some? && r.value.None? ==>
      ("title" !in j.fields || !j.fields["title"].JString?) && ("name" !in j.fields || !j.fields["name"].JString?)
  {
    if j.JObject? then Some(TryString(j.fields, "title").OrElse(TryString(j.fields, "name"))) else None
  }

  /**
   * `RemoteTrack.init(from:)`. Every field has a chain of fallbacks; the
   * generated identifier used when neither a string nor an integer id is
   * present is a parameter.
   */
  function DecodeRemoteTrack(j: Json, generatedId: string): (r: Result<RemoteTrack>)
    ensures r.Ok? <==> j.JObject?
    ensures r.Ok? ==>
      var o := j.fields;
      var t := r.value;
      && t.id == (if TryString(o, "id").Some? then TryString(o, "id").value
                  else if TryInt(o, "id").Some? then IntToString(TryInt(o, "id").value)
                  else generatedId)
      && t.title == TryString(o, "title").OrElse(TryString(o, "name")).GetOr("Unknown Title")
      && t.duration == (if TryInt(o, "duration").Some? then TryInt(o, "duration")
                        else if TryInt(o, "duration_ms").Some? then Some(TDiv(TryInt(o, "duration_ms").value, 1000))
                        else None)
      && t.artistName == (if "artist" in o && DecodeArtistName(o["artist"]).Some? then DecodeArtistName(o["artist"]).value
                          else TryString(o, "artist").OrElse(TryString(o, "artist_name")).GetOr(""))
      && t.albumTitle == (if "album" in o && o["album"].JObject? then DecodeAlbumTitle(o["album"]).value
                          else TryString(o, "album").OrElse(TryString(o, "album_name")))
      && t.image == TryString(o, "image").OrElse(TryString(o, "picture")).OrElse(TryString(o, "cover"))
      && t.preview == TryString(o, "preview")
      && t.source == TryString(o, "source")
      && t.kind == TryString(o, "type")
  {
    if !j.JObject? then Err(NotAnObject)
    else
      var o := j.fields;
      var id :=
        if TryString(o, "id").Some? then TryString(o, "id").value
        else if TryInt(o, "id").Some? then IntToString(TryInt(o, "id").value)
        else generatedId;
      var title := TryString(o, "title").OrElse(TryString(o, "name")).GetOr("Unknown Title");
      var artistObject := if "artist" in o then DecodeArtistName(o["artist"]) else None;
      var artist := artistObject.OrElse(TryString(o, "artist")).OrElse(TryString(o, "artist_name")).GetOr("");
      var albumObject := if "album" in o then DecodeAlbumTitle(o["album"]) else None;
      var album :=
        if albumObject.Some? then albumObject.value
        else TryString(o, "album").OrElse(TryString(o, "album_name"));
      var duration :=
        if TryInt(o, "duration").Some? then TryInt(o, "duration")
        else if TryInt(o, "duration_ms").Some? then Some(TDiv(TryInt(o, "duration_ms").value, 1000))
        else None;
      var image := TryString(o, "image").OrElse(TryString(o, "picture")).OrElse(TryString(o, "cover"));
      Ok(RemoteTrack(id, title, artist, album, duration, image,
                     TryString(o, "preview"), TryString(o, "source"), TryString(o, "type")))
  }

  const RemoteTrackKeys: set<string> :=
    {"id", "title", "artist_name", "album_name", "duration", "image", "preview", "source", "type"}

  /** What `RemoteTrack.encode(to:)` writes under `key`: the artist under `artist_name`, the album under `album_name`. */
  function RemoteTrackField(t: RemoteTrack, key: string): Option<Json> {
    if key == "id" then Some(JString(t.id))
    else if key == "title" then Some(JString(t.title))
    else if key == "artist_name" then Some(JString(t.artistName))
    else if key == "album_name" then StringValue(t.albumTitle)
    else if key == "duration" then IntValue(t.duration)
    else if key == "image" then StringValue(t.image)
    else if key == "preview" then StringValue(t.preview)
    else if key == "source" then StringValue(t.source)
    else if key == "type" then StringValue(t.kind)
    else None
  }

  /** `RemoteTrack.encode(to:)`. */
  function EncodeRemoteTrack(t: RemoteTrack): (j: Json)
    ensures j.JObject? && "artist" !in j.fields && "album" !in j.fields
  {
    JObject(map k | k in RemoteTrackKeys && RemoteTrackField(t, k).Some? :: RemoteTrackField(t, k).value)
  }

  /**
   * Decoding the encoder's output reproduces every field: the id is
   * written as a string, and the artist and album come back through their
   * last fallback keys.
   */
  lemma RemoteTrackRoundTrip(t: RemoteTrack, generatedId: string)
    ensures DecodeRemoteTrack(EncodeRemoteTrack(t), generatedId) == Ok(t)
  {
  }

  /** An artist object wins over the other artist keys; an album object wins even when it has no title. */
  lemma ObjectFallbacks(name: string, alt: string)
    ensures
      var o := map["artist" := JObject(map["name" := JString(name)]), "artist_name" := JString(alt),
                   "album" := JObject(map[]), "album_name" := JString(alt), "duration_ms" := JInt(-1500)];
      var t := DecodeRemoteTrack(JObject(o), "generated").value;
      t.artistName == name && t.albumTitle == None && t.duration == Some(-1) && t.id == "generated"
      && t.title == "Unknown Title"
  {
  }

  datatype RemoteSearchResponse = RemoteSearchResponse(
    success: Option<bool>,
    data: Option<seq<RemoteTrack>>,
    items: Option<seq<RemoteTrack>>,
    results: Option<seq<RemoteTrack>>,
    tracks: Option<seq<RemoteTrack>>)

  /** `RemoteSearchResponse.resolvedTracks`: the first array present, in key order `data`, `items`, `results`, `tracks`. */
  function ResolvedTracks(resp: RemoteSearchResponse): (r: seq<RemoteTrack>)
    ensures resp.data.Some? ==> r == resp.data.value
    ensures resp.data.None? && resp.items.Some? ==> r == resp.items.value
    ensures resp.data.None? && resp.items.None? && resp.results.Some? ==> r == resp.results.value
    ensures resp.data.None? && resp.items.None? && resp.results.None? ==> r == resp.tracks.GetOr([])
  {
    resp.data.OrElse(resp.items).OrElse(resp.results).OrElse(resp.tracks).GetOr([])
  }

  const StreamPath: string := "/api/library/stream/"

  /** `APIService.getStreamURL(for:)`: the library stream endpoint for the song's id. */
  function GetStreamURL(baseURL: string, song: Song): (url: string)
    ensures StartsWith(url, baseURL + StreamPath)
    ensures ParseInt(url[|baseURL + StreamPath|..]) == Some(song.id)
  {
    var url := baseURL + StreamPath + IntToString(song.id);
    assert url[..|baseURL + StreamPath|] == baseURL + StreamPath;
    assert url[|baseURL + StreamPath|..] == IntToString(song.id);
    IntToStringRoundTrip(song.id);
    url
  }

  /** The song a playlist listing yields for one entry: its own link id, else the entry's. */
  function LinkedSong(item: PlaylistTrackItem): Song {
    var song := item.song;
    if song.playlistTrackId.None? then song.(playlistTrackId := item.playlistTrackId) else song
  }

  /**
   * The `map` in `fetchPlaylistSongs`: one song per entry, in order, each
   * keeping its own link id when it has one.
   */
  function PatchPlaylistSongs(items: seq<PlaylistTrackItem>): (songs: seq<Song>)
    ensures |songs| == |items|
    ensures forall i :: 0 <= i < |items| ==>
      && songs[i].(playlistTrackId := items[i].song.playlistTrackId) == items[i].song
      && songs[i].playlistTrackId == items[i].song.playlistTrackId.OrElse(items[i].playlistTrackId)
  {
    seq(|items|, i requires 0 <= i < |items| => LinkedSong(items[i]))
  }

  /** An entry that was a bare song already carries its link, so the patch leaves that song as decoded. */
  lemma PatchKeepsDirectSongs(j: Json)
    requires DecodeSong(j).Ok?
    ensures PatchPlaylistSongs([DecodeTrackItem(j).value]) == [DecodeSong(j).value]
  {
  }
}
