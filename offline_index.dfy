/**
 * The offline cache index (Services/OfflineManager.swift) as values: the
 * cached playlist and track records, the maps that index them, and the
 * effect of each index update as a function of the maps before it. The
 * class `OfflineManager` in offline_manager.dfy applies these updates in
 * place.
 */
module OfflineIndex {
  import opened Wrappers
  import opened SongModel
  import opened PlaylistModel

  /** A playlist saved for offline use: a snapshot, its ordered song ids, and cached artwork. */
  datatype OfflinePlaylist = OfflinePlaylist(
    playlist: Playlist,
    songIds: seq<int>,
    downloadedAt: int,
    artworkURL: Option<string>)

  /** A downloaded song: a snapshot, its file name, the playlists that hold it, and cached artwork. */
  datatype OfflineTrack = OfflineTrack(
    song: Song,
    localFileName: string,
    playlistIds: set<int>,
    artworkURL: Option<string>,
    downloadedAt: int)

  function PlaylistKey(e: OfflinePlaylist): int {
    e.playlist.id
  }

  function TrackKey(t: OfflineTrack): int {
    t.song.id
  }

  /** `OfflinePlaylist.displayPlaylist`: the snapshot with cached artwork and the cached track count. */
  function DisplayPlaylist(e: OfflinePlaylist): (p: Playlist)
    ensures p.id == e.playlist.id && p.name == e.playlist.name && p.description == e.playlist.description
    ensures SongCount(p) == |e.songIds|
    ensures p.coverURL == (if e.artworkURL.Some? then e.artworkURL else e.playlist.coverURL)
  {
    e.playlist.(coverURL := e.artworkURL.OrElse(e.playlist.coverURL), trackCount := |e.songIds|)
  }

  predicate NoDuplicates(s: seq<int>) {
    forall i, j :: 0 <= i < j < |s| ==> s[i] != s[j]
  }

  /** Every map entry is filed under its own id, as `Dictionary(uniqueKeysWithValues:)` and every update keep it. */
  ghost predicate KeyedById(playlists: map<int, OfflinePlaylist>, tracks: map<int, OfflineTrack>) {
    && (forall k :: k in playlists ==> playlists[k].playlist.id == k)
    && (forall k :: k in tracks ==> tracks[k].song.id == k)
  }

  /**
   * The cross-links the index updates maintain: song ids are listed at most
   * once per playlist, and every playlist a track names exists and lists
   * the track. (A playlist may list an id with no track: `attach` can run
   * after the track was removed, and `songs(forPlaylist:)` skips such ids.)
   */
  ghost predicate Linked(playlists: map<int, OfflinePlaylist>, tracks: map<int, OfflineTrack>) {
    && (forall p :: p in playlists ==> NoDuplicates(playlists[p].songIds))
    && (forall s, p :: s in tracks && p in tracks[s].playlistIds ==> p in playlists && s in playlists[p].songIds)
  }

  // ---------------------------------------------------------------- lookups

  /** The songs of the cached tracks among `ids`, in the order of `ids`; ids without a track are skipped. */
  function CachedSongs(ids: seq<int>, tracks: map<int, OfflineTrack>): (songs: seq<Song>)
    ensures |songs| <= |ids|
  {
    if ids == [] then []
    else
      var rest := CachedSongs(ids[1..], tracks);
      if ids[0] in tracks then [tracks[ids[0]].song] + rest else rest
  }

  /** Every listed song is the song of a cached id. */
  lemma {:induction false} CachedSongsSound(ids: seq<int>, tracks: map<int, OfflineTrack>, i: int)
    requires 0 <= i < |CachedSongs(ids, tracks)|
    ensures exists j :: 0 <= j < |ids| && ids[j] in tracks && CachedSongs(ids, tracks)[i] == tracks[ids[j]].song
  {
    var songs := CachedSongs(ids, tracks);
    if ids[0] in tracks && i == 0 {
      assert songs[0] == tracks[ids[0]].song;
    } else {
      var i' := if ids[0] in tracks then i - 1 else i;
      CachedSongsSound(ids[1..], tracks, i');
      var j :| 0 <= j < |ids[1..]| && ids[1..][j] in tracks && CachedSongs(ids[1..], tracks)[i'] == tracks[ids[1..][j]].song;
      assert ids[j + 1] == ids[1..][j];
    }
  }

  /** Listing the songs of two runs of ids one after the other is listing each run in turn. */
  lemma {:induction false} CachedSongsAppend(a: seq<int>, b: seq<int>, tracks: map<int, OfflineTrack>)
    ensures CachedSongs(a + b, tracks) == CachedSongs(a, tracks) + CachedSongs(b, tracks)
  {
    if a != [] {
      assert (a + b)[1..] == a[1..] + b;
      CachedSongsAppend(a[1..], b, tracks);
    } else {
      assert a + b == b;
    }
  }

  /** Every cached id contributes its song. */
  lemma {:induction false} CachedSongsComplete(ids: seq<int>, tracks: map<int, OfflineTrack>, k: int)
    requires k in ids && k in tracks
    ensures tracks[k].song in CachedSongs(ids, tracks)
  {
    if ids[0] != k {
      CachedSongsComplete(ids[1..], tracks, k);
    }
  }

  /** When every id is cached nothing is skipped: the i-th song is the i-th id's. */
  lemma {:induction false} CachedSongsAllPresent(ids: seq<int>, tracks: map<int, OfflineTrack>)
    requires forall i :: 0 <= i < |ids| ==> ids[i] in tracks
    ensures |CachedSongs(ids, tracks)| == |ids|
    ensures forall i :: 0 <= i < |ids| ==> CachedSongs(ids, tracks)[i] == tracks[ids[i]].song
  {
    if ids != [] {
      CachedSongsAllPresent(ids[1..], tracks);
      assert ids[0] in tracks;
    }
  }

  // ---------------------------------------------------------------- attach and store

  /** The entry `attach` and `store` start from: the cached one, or a fresh empty one. */
  function EntryFor(playlists: map<int, OfflinePlaylist>, p: Playlist, now: int): OfflinePlaylist {
    if p.id in playlists then playlists[p.id] else OfflinePlaylist(p, [], now, None)
  }

  /**
   * Links a song into a playlist entry: artwork is filled in only while the
   * entry has none, and the id is appended only if it is not listed yet.
   */
  function LinkEntry(entry: OfflinePlaylist, songId: int, art: Option<string>): (e: OfflinePlaylist)
    ensures e.playlist == entry.playlist && e.downloadedAt == entry.downloadedAt
    ensures e.artworkURL == (if entry.artworkURL.Some? then entry.artworkURL else art)
    ensures songId in e.songIds
    ensures songId in entry.songIds ==> e.songIds == entry.songIds
    ensures songId !in entry.songIds ==> e.songIds == entry.songIds + [songId]
    ensures NoDuplicates(entry.songIds) ==> NoDuplicates(e.songIds)
  {
    var withArt := if entry.artworkURL.None? then entry.(artworkURL := art) else entry;
    if songId in withArt.songIds then withArt else withArt.(songIds := withArt.songIds + [songId])
  }

  /** Adds a playlist to an existing track's memberships; no track is created. */
  function AddMembership(tracks: map<int, OfflineTrack>, songId: int, pid: int): (r: map<int, OfflineTrack>)
    ensures r.Keys == tracks.Keys
    ensures songId in tracks ==> r[songId] == tracks[songId].(playlistIds := tracks[songId].playlistIds + {pid})
    ensures forall k :: k in tracks && k != songId ==> r[k] == tracks[k]
  {
    if songId in tracks then
      tracks[songId := tracks[songId].(playlistIds := tracks[songId].playlistIds + {pid})]
    else tracks
  }

  /**
   * The track record `store` writes: the new song snapshot and file name,
   * the playlist added to its memberships, and the artwork taken from the
   * fetched file, else the track's existing artwork, else the song's cover.
   */
  function StoredTrack(existing: Option<OfflineTrack>, song: Song, fileName: string, pid: Option<int>,
                       fetched: Option<string>, cover: Option<string>, now: int): (t: OfflineTrack)
    ensures t.song == song && t.localFileName == fileName
    ensures pid.Some? ==> pid.value in t.playlistIds
    ensures existing.Some? ==>
      && t.playlistIds == existing.value.playlistIds + (if pid.Some? then {pid.value} else {})
      && t.artworkURL == fetched.OrElse(existing.value.artworkURL).OrElse(cover)
      && t.downloadedAt == existing.value.downloadedAt
    ensures existing.None? ==>
      && t.playlistIds == (if pid.Some? then {pid.value} else {})
      && t.artworkURL == fetched.OrElse(cover)
      && t.downloadedAt == now
  {
    var base := existing.GetOr(OfflineTrack(song, fileName, {}, None, now));
    var pids := if pid.Some? then base.playlistIds + {pid.value} else base.playlistIds;
    var artwork := if fetched.Some? then fetched else if base.artworkURL.None? then cover else base.artworkURL;
    OfflineTrack(song, fileName, pids, artwork, base.downloadedAt)
  }

  /** Linking an existing track into a playlist keeps the index keyed and linked. */
  lemma AttachKeepsLinks(playlists: map<int, OfflinePlaylist>, tracks: map<int, OfflineTrack>,
                         songId: int, p: Playlist, art: Option<string>, now: int)
    requires KeyedById(playlists, tracks)
    ensures
      var playlists' := playlists[p.id := LinkEntry(EntryFor(playlists, p, now), songId, art)];
      var tracks' := AddMembership(tracks, songId, p.id);
      KeyedById(playlists', tracks') && (Linked(playlists, tracks) ==> Linked(playlists', tracks'))
  {
  }

  /** Storing a track, with or without a playlist, keeps the index keyed and linked. */
  lemma StoreKeepsLinks(playlists: map<int, OfflinePlaylist>, tracks: map<int, OfflineTrack>,
                        song: Song, fileName: string, p: Option<Playlist>, fetched: Option<string>,
                        cover: Option<string>, entryArt: Option<string>, now: int)
    requires KeyedById(playlists, tracks)
    ensures
      var existing := if song.id in tracks then Some(tracks[song.id]) else None;
      var pid := if p.Some? then Some(p.value.id) else None;
      var tracks' := tracks[song.id := StoredTrack(existing, song, fileName, pid, fetched, cover, now)];
      var playlists' :=
        if p.Some? then playlists[p.value.id := LinkEntry(EntryFor(playlists, p.value, now), song.id, entryArt)]
        else playlists;
      KeyedById(playlists', tracks') && (Linked(playlists, tracks) ==> Linked(playlists', tracks'))
  {
  }

  // ---------------------------------------------------------------- removal

  /** Whether dropping playlist `pid` from the track leaves it in no playlist. */
  predicate OrphanedBy(t: OfflineTrack, pid: int) {
    t.playlistIds - {pid} == {}
  }

  /**
   * The tracks after playlist `pid`, listing `ids`, is removed: every
   * listed track loses the playlist and is dropped when it has none left;
   * unlisted tracks are untouched.
   */
  function DetachPlaylist(tracks: map<int, OfflineTrack>, ids: seq<int>, pid: int): (r: map<int, OfflineTrack>)
    ensures forall s :: s in r <==> s in tracks && !(s in ids && OrphanedBy(tracks[s], pid))
    ensures forall s :: s in r && s !in ids ==> r[s] == tracks[s]
    ensures forall s :: s in r && s in ids ==> r[s] == tracks[s].(playlistIds := tracks[s].playlistIds - {pid})
  {
    map s | s in tracks && !(s in ids && OrphanedBy(tracks[s], pid)) ::
      if s in ids then tracks[s].(playlistIds := tracks[s].playlistIds - {pid}) else tracks[s]
  }

  /** The file names of the tracks `DetachPlaylist` drops. */
  function OrphanFiles(tracks: map<int, OfflineTrack>, ids: seq<int>, pid: int): set<string> {
    set s | s in tracks && s in ids && OrphanedBy(tracks[s], pid) :: tracks[s].localFileName
  }

  /** The artwork locations of the tracks `DetachPlaylist` drops. */
  function OrphanArtwork(tracks: map<int, OfflineTrack>, ids: seq<int>, pid: int): set<string> {
    set s | s in tracks && s in ids && OrphanedBy(tracks[s], pid) && tracks[s].artworkURL.Some?
      :: tracks[s].artworkURL.value
  }

  lemma ConsNoDuplicates(x: int, r: seq<int>)
    requires x !in r && NoDuplicates(r)
    ensures NoDuplicates([x] + r)
  {
    forall i, j | 0 <= i < j < |[x] + r| ensures ([x] + r)[i] != ([x] + r)[j] {
      assert ([x] + r)[j] == r[j - 1];
      if i > 0 { assert ([x] + r)[i] == r[i - 1]; }
    }
  }

  lemma TailNoDuplicates(ids: seq<int>)
    requires ids != [] && NoDuplicates(ids)
    ensures ids[0] !in ids[1..] && NoDuplicates(ids[1..])
  {
    forall i, j | 0 <= i < j < |ids[1..]| ensures ids[1..][i] != ids[1..][j] {
      assert ids[1..][i] == ids[i + 1] && ids[1..][j] == ids[j + 1];
    }
  }

  /** `songIds.removeAll { $0 == x }`. */
  function Without(ids: seq<int>, x: int): (r: seq<int>)
    ensures forall y :: y in r <==> y in ids && y != x
    ensures |r| <= |ids|
    ensures x !in ids ==> r == ids
    ensures NoDuplicates(ids) ==> NoDuplicates(r)
  {
    if ids == [] then []
    else
      var rest := Without(ids[1..], x);
      assert forall y :: y in ids <==> y == ids[0] || y in ids[1..];
      if ids[0] == x then rest
      else
        assert NoDuplicates(ids) ==> NoDuplicates([ids[0]] + rest) by {
          if NoDuplicates(ids) {
            TailNoDuplicates(ids);
            ConsNoDuplicates(ids[0], rest);
          }
        }
        assert x !in ids ==> [ids[0]] + rest == ids by {
          if x !in ids { assert ids == [ids[0]] + ids[1..]; }
        }
        [ids[0]] + rest
  }

  /**
   * The playlists after song `sid`, a member of playlists `pids`, is
   * removed: each of those playlists loses the song and is dropped when it
   * becomes empty; other playlists are untouched.
   */
  function DetachSong(playlists: map<int, OfflinePlaylist>, pids: set<int>, sid: int): (r: map<int, OfflinePlaylist>)
    ensures forall q :: q in r <==> q in playlists && !(q in pids && Without(playlists[q].songIds, sid) == [])
    ensures forall q :: q in r && q !in pids ==> r[q] == playlists[q]
    ensures forall q :: q in r && q in pids ==> r[q] == playlists[q].(songIds := Without(playlists[q].songIds, sid))
  {
    map q | q in playlists && !(q in pids && Without(playlists[q].songIds, sid) == []) ::
      if q in pids then playlists[q].(songIds := Without(playlists[q].songIds, sid)) else playlists[q]
  }

  /** A turn of `removePlaylist`'s loop for an id with no track left: nothing changes. */
  lemma DetachSkip(tracks: map<int, OfflineTrack>, ids: seq<int>, s: int, pid: int)
    requires s !in DetachPlaylist(tracks, ids, pid)
    ensures DetachPlaylist(tracks, ids + [s], pid) == DetachPlaylist(tracks, ids, pid)
    ensures OrphanFiles(tracks, ids + [s], pid) == OrphanFiles(tracks, ids, pid)
    ensures OrphanArtwork(tracks, ids + [s], pid) == OrphanArtwork(tracks, ids, pid)
  {
    assert forall x :: x in ids + [s] <==> x in ids || x == s;
  }

  /** A turn of `removePlaylist`'s loop that leaves the track in no playlist: it is dropped, file and artwork. */
  lemma DetachDrop(tracks: map<int, OfflineTrack>, ids: seq<int>, s: int, pid: int)
    requires s in DetachPlaylist(tracks, ids, pid) && OrphanedBy(DetachPlaylist(tracks, ids, pid)[s], pid)
    ensures
      var cur := DetachPlaylist(tracks, ids, pid);
      && DetachPlaylist(tracks, ids + [s], pid) == cur - {s}
      && OrphanFiles(tracks, ids + [s], pid) == OrphanFiles(tracks, ids, pid) + {cur[s].localFileName}
      && OrphanArtwork(tracks, ids + [s], pid) ==
         OrphanArtwork(tracks, ids, pid) + (if cur[s].artworkURL.Some? then {cur[s].artworkURL.value} else {})
  {
    assert forall x :: x in ids + [s] <==> x in ids || x == s;
  }

  /** A turn of `removePlaylist`'s loop that leaves the track in other playlists: it only loses this one. */
  lemma DetachKeep(tracks: map<int, OfflineTrack>, ids: seq<int>, s: int, pid: int)
    requires s in DetachPlaylist(tracks, ids, pid) && !OrphanedBy(DetachPlaylist(tracks, ids, pid)[s], pid)
    ensures
      var cur := DetachPlaylist(tracks, ids, pid);
      && DetachPlaylist(tracks, ids + [s], pid) == cur[s := cur[s].(playlistIds := cur[s].playlistIds - {pid})]
      && OrphanFiles(tracks, ids + [s], pid) == OrphanFiles(tracks, ids, pid)
      && OrphanArtwork(tracks, ids + [s], pid) == OrphanArtwork(tracks, ids, pid)
  {
    assert forall x :: x in ids + [s] <==> x in ids || x == s;
    var cur := DetachPlaylist(tracks, ids, pid);
    var next := DetachPlaylist(tracks, ids + [s], pid);
    var expected := cur[s := cur[s].(playlistIds := cur[s].playlistIds - {pid})];
    assert forall k :: k in next <==> k in expected;
    assert forall k :: k in next ==> next[k] == expected[k];
  }

  /** What one turn of `removePlaylist`'s loop does to the tracks. */
  function DetachOne(tracks: map<int, OfflineTrack>, s: int, pid: int): map<int, OfflineTrack> {
    if s !in tracks then tracks
    else if OrphanedBy(tracks[s], pid) then tracks - {s}
    else tracks[s := tracks[s].(playlistIds := tracks[s].playlistIds - {pid})]
  }

  /** The file one turn of `removePlaylist`'s loop deletes, if any. */
  function DroppedFile(tracks: map<int, OfflineTrack>, s: int, pid: int): set<string> {
    if s in tracks && OrphanedBy(tracks[s], pid) then {tracks[s].localFileName} else {}
  }

  /** The artwork one turn of `removePlaylist`'s loop deletes, if any. */
  function DroppedArtwork(tracks: map<int, OfflineTrack>, s: int, pid: int): set<string> {
    if s in tracks && OrphanedBy(tracks[s], pid) && tracks[s].artworkURL.Some? then {tracks[s].artworkURL.value} else {}
  }

  /** Detaching one more listed id is one more turn of the loop. */
  lemma DetachPlaylistStep(tracks: map<int, OfflineTrack>, ids: seq<int>, s: int, pid: int)
    ensures
      var cur := DetachPlaylist(tracks, ids, pid);
      && DetachPlaylist(tracks, ids + [s], pid) == DetachOne(cur, s, pid)
      && OrphanFiles(tracks, ids + [s], pid) == OrphanFiles(tracks, ids, pid) + DroppedFile(cur, s, pid)
      && OrphanArtwork(tracks, ids + [s], pid) == OrphanArtwork(tracks, ids, pid) + DroppedArtwork(cur, s, pid)
  {
    var cur := DetachPlaylist(tracks, ids, pid);
    if s !in cur {
      DetachSkip(tracks, ids, s, pid);
    } else if OrphanedBy(cur[s], pid) {
      DetachDrop(tracks, ids, s, pid);
    } else {
      DetachKeep(tracks, ids, s, pid);
    }
  }

  /** What one turn of `removeSong`'s loop does to the playlists. */
  function DetachSongOne(playlists: map<int, OfflinePlaylist>, q: int, sid: int): map<int, OfflinePlaylist> {
    if q !in playlists then playlists
    else if Without(playlists[q].songIds, sid) == [] then playlists - {q}
    else playlists[q := playlists[q].(songIds := Without(playlists[q].songIds, sid))]
  }

  /** Detaching the song from one more of its playlists is one more turn of the loop. */
  lemma DetachSongStep(playlists: map<int, OfflinePlaylist>, done: set<int>, q: int, sid: int)
    requires q !in done
    ensures DetachSong(playlists, done + {q}, sid) == DetachSongOne(DetachSong(playlists, done, sid), q, sid)
  {
    var cur := DetachSong(playlists, done, sid);
    var next := DetachSong(playlists, done + {q}, sid);
    var expected := DetachSongOne(cur, q, sid);
    assert forall k :: k in next <==> k in expected;
    assert forall k :: k in next ==> next[k] == expected[k];
  }

  /** Removing a playlist keeps the index keyed and linked. */
  lemma RemovePlaylistKeepsLinks(playlists: map<int, OfflinePlaylist>, tracks: map<int, OfflineTrack>, pid: int)
    requires KeyedById(playlists, tracks)
    requires pid in playlists
    ensures KeyedById(playlists - {pid}, DetachPlaylist(tracks, playlists[pid].songIds, pid))
    ensures Linked(playlists, tracks) ==> Linked(playlists - {pid}, DetachPlaylist(tracks, playlists[pid].songIds, pid))
  {
    if !Linked(playlists, tracks) {
      return;
    }
    var ids := playlists[pid].songIds;
    var tracks' := DetachPlaylist(tracks, ids, pid);
    forall s, q | s in tracks' && q in tracks'[s].playlistIds
      ensures q in playlists - {pid} && s in (playlists - {pid})[q].songIds
    {
      if s !in ids {
        assert q in tracks[s].playlistIds;
        assert q != pid;
      }
    }
  }

  /** Removing a song keeps the index keyed and linked. */
  lemma RemoveSongKeepsLinks(playlists: map<int, OfflinePlaylist>, tracks: map<int, OfflineTrack>, sid: int)
    requires KeyedById(playlists, tracks)
    requires sid in tracks
    ensures KeyedById(DetachSong(playlists, tracks[sid].playlistIds, sid), tracks - {sid})
    ensures Linked(playlists, tracks) ==> Linked(DetachSong(playlists, tracks[sid].playlistIds, sid), tracks - {sid})
  {
    if !Linked(playlists, tracks) {
      return;
    }
    var pids := tracks[sid].playlistIds;
    var playlists' := DetachSong(playlists, pids, sid);
    forall s, q | s in tracks - {sid} && q in tracks[s].playlistIds
      ensures q in playlists' && s in playlists'[q].songIds
    {
      assert s in playlists[q].songIds;
      assert s in Without(playlists[q].songIds, sid);
    }
  }

  /**
   * A song kept in two playlists survives the removal of one of them; only
   * the removal of its last playlist deletes it.
   */
  lemma DetachIsPerPlaylist(playlists: map<int, OfflinePlaylist>, tracks: map<int, OfflineTrack>,
                            s: int, p1: int, p2: int)
    requires Linked(playlists, tracks)
    requires s in tracks && tracks[s].playlistIds == {p1, p2} && p1 != p2
    ensures
      var tracks1 := DetachPlaylist(tracks, playlists[p1].songIds, p1);
      && s in tracks1 && tracks1[s].playlistIds == {p2}
      && s !in DetachPlaylist(tracks1, playlists[p2].songIds, p2)
  {
    var tracks1 := DetachPlaylist(tracks, playlists[p1].songIds, p1);
    assert p2 in tracks[s].playlistIds - {p1};
    assert tracks1[s].playlistIds == {p2};
  }

  // ---------------------------------------------------------------- persistence

  predicate DistinctKeys<T>(list: seq<T>, key: T -> int) {
    forall i, j :: 0 <= i < j < |list| ==> key(list[i]) != key(list[j])
  }

  /**
   * `Dictionary(uniqueKeysWithValues: list.map { ($0.id, $0) })`, as
   * `loadCache` rebuilds the index; duplicate ids would trap.
   */
  function Index<T>(list: seq<T>, key: T -> int): (m: map<int, T>)
    requires DistinctKeys(list, key)
    ensures forall k :: k in m <==> exists i :: 0 <= i < |list| && key(list[i]) == k
    ensures forall i :: 0 <= i < |list| ==> key(list[i]) in m && m[key(list[i])] == list[i]
  {
    if list == [] then map[]
    else
      var last := list[|list| - 1];
      var m := Index(list[..|list| - 1], key);
      m[key(last) := last]
  }

  /** `order` lists the keys of a map, each once: the order `Array(m.values)` happens to use. */
  ghost predicate Enumerates(order: seq<int>, keys: set<int>) {
    && NoDuplicates(order)
    && (forall i :: 0 <= i < |order| ==> order[i] in keys)
    && (forall k :: k in keys ==> k in order)
  }

  /** `Array(m.values)`, in the key order `order`, as `persistCache` writes the index. */
  function Snapshot<T>(m: map<int, T>, order: seq<int>): (list: seq<T>)
    requires forall i :: 0 <= i < |order| ==> order[i] in m
    ensures |list| == |order|
    ensures forall i :: 0 <= i < |order| ==> list[i] == m[order[i]]
  {
    seq(|order|, i requires 0 <= i < |order| => m[order[i]])
  }

  /**
   * Whatever order the values are written in, loading what `persistCache`
   * wrote rebuilds the same map, and never meets duplicate ids.
   */
  lemma SnapshotRoundTrip<T>(m: map<int, T>, order: seq<int>, key: T -> int)
    requires forall k :: k in m ==> key(m[k]) == k
    requires Enumerates(order, m.Keys)
    ensures DistinctKeys(Snapshot(m, order), key)
    ensures Index(Snapshot(m, order), key) == m
  {
    var list := Snapshot(m, order);
    assert forall i :: 0 <= i < |list| ==> key(list[i]) == order[i];
    var loaded := Index(list, key);
    forall k | k in m ensures k in loaded && loaded[k] == m[k] {
      var i :| 0 <= i < |order| && order[i] == k;
      assert key(list[i]) == k;
    }
  }

  /** The persisted index reloads with its keys filed under their own ids. */
  lemma ReloadKeepsKeys(playlists: map<int, OfflinePlaylist>, tracks: map<int, OfflineTrack>,
                        playlistOrder: seq<int>, trackOrder: seq<int>)
    requires KeyedById(playlists, tracks)
    requires Enumerates(playlistOrder, playlists.Keys) && Enumerates(trackOrder, tracks.Keys)
    ensures DistinctKeys(Snapshot(playlists, playlistOrder), PlaylistKey)
    ensures DistinctKeys(Snapshot(tracks, trackOrder), TrackKey)
    ensures Index(Snapshot(playlists, playlistOrder), PlaylistKey) == playlists
    ensures Index(Snapshot(tracks, trackOrder), TrackKey) == tracks
  {
    SnapshotRoundTrip(playlists, playlistOrder, PlaylistKey);
    SnapshotRoundTrip(tracks, trackOrder, TrackKey);
  }
}
