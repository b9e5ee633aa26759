/** Playlists and playlist-track payloads (Models/Playlist.swift). */
module PlaylistModel {
  import opened Wrappers
  import opened Json
  import opened SongModel

  datatype Playlist = Playlist(
    id: int,
    name: string,
    description: Option<string>,
    coverURL: Option<string>,
    trackCount: int,
    createdAt: Option<string>,
    userId: Option<int>)

  /** `Playlist.songCount`, an alias of the server's track count. */
  function SongCount(p: Playlist): (n: int)
    ensures n == p.trackCount
  {
    p.trackCount
  }

  /** One entry of a playlist's track listing: the song and its link to the playlist. */
  datatype PlaylistTrackItem = PlaylistTrackItem(
    playlistTrackId: Option<int>,
    position: Option<int>,
    song: Song)

  /**
   * `PlaylistTrackItem.init(from:)`. The payload is first read as a bare
   * song; failing that, as a wrapper whose song sits under `song`, else
   * under `track`, else is the wrapper itself. A `song` or `track` value
   * that is present but not a song makes the whole decoding fail.
   */
  function DecodeTrackItem(j: Json): (r: Result<PlaylistTrackItem>)
    ensures DecodeSong(j).Ok? ==>
      r == Ok(PlaylistTrackItem(DecodeSong(j).value.playlistTrackId, None, DecodeSong(j).value))
    ensures DecodeSong(j).Err? && r.Ok? ==>
      && j.JObject?
      && DecodeIntIfPresent(j.fields, "playlist_track_id") == Ok(r.value.playlistTrackId)
      && DecodeIntIfPresent(j.fields, "position") == Ok(r.value.position)
      && (|| (!Absent(j.fields, "song") && DecodeSong(j.fields["song"]) == Ok(r.value.song))
          || (Absent(j.fields, "song") && !Absent(j.fields, "track")
              && DecodeSong(j.fields["track"]) == Ok(r.value.song)))
    ensures DecodeSong(j).Err? ==>
      (r.Ok? <==>
        && j.JObject?
        && DecodeIntIfPresent(j.fields, "playlist_track_id").Ok?
        && DecodeIntIfPresent(j.fields, "position").Ok?
        && (|| (!Absent(j.fields, "song") && DecodeSong(j.fields["song"]).Ok?)
            || (Absent(j.fields, "song") && !Absent(j.fields, "track") && DecodeSong(j.fields["track"]).Ok?)))
  {
    match DecodeSong(j)
    case Ok(direct) => Ok(PlaylistTrackItem(direct.playlistTrackId, None, direct))
    case Err(_) =>
      if !j.JObject? then Err(NotAnObject)
      else
        var o := j.fields;
        var linkId :- DecodeIntIfPresent(o, "playlist_track_id");
        var position :- DecodeIntIfPresent(o, "position");
        if !Absent(o, "song") then
          var nested :- DecodeSong(o["song"]);
          Ok(PlaylistTrackItem(linkId, position, nested))
        else if !Absent(o, "track") then
          var nested :- DecodeSong(o["track"]);
          Ok(PlaylistTrackItem(linkId, position, nested))
        else
          // `Song(from: decoder)` again: it fails exactly as the first attempt did
          DecodeSong(j).PropagateFailure()
  }

  /** `PlaylistTrackItem.encode(to:)`: the link fields when present and the song under `song`. */
  function EncodeTrackItem(item: PlaylistTrackItem): (j: Json)
    ensures j.JObject? && "song" in j.fields && "id" !in j.fields
  {
    var o := map["song" := EncodeSong(item.song)];
    var o := if item.playlistTrackId.Some? then o["playlist_track_id" := JInt(item.playlistTrackId.value)] else o;
    JObject(if item.position.Some? then o["position" := JInt(item.position.value)] else o)
  }

  /**
   * The wrapper the encoder writes has no `id`, so it is not mistaken for a
   * bare song, and decoding it gives back the song and both link fields.
   */
  lemma TrackItemRoundTrip(item: PlaylistTrackItem)
    ensures DecodeTrackItem(EncodeTrackItem(item)) == Ok(item)
  {
    var j := EncodeTrackItem(item);
    assert DecodeSong(j) == Err(KeyNotFound("id"));
    SongRoundTrip(item.song);
  }

  /** Without a `song` key, the song is read from `track`. */
  lemma TrackKeyFallback(s: Song)
    ensures DecodeTrackItem(JObject(map["track" := EncodeSong(s)])) == Ok(PlaylistTrackItem(None, None, s))
  {
    SongRoundTrip(s);
  }

  /** A `song` key takes precedence over a `track` key. */
  lemma SongKeyWins(a: Song, b: Song)
    ensures
      var o := map["song" := EncodeSong(a), "track" := EncodeSong(b)];
      DecodeTrackItem(JObject(o)) == Ok(PlaylistTrackItem(None, None, a))
  {
    SongRoundTrip(a);
    SongRoundTrip(b);
  }
}
