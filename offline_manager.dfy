/**
 * `OfflineManager` (Services/OfflineManager.swift): the offline cache index
 * updated in place. Every `DispatchQueue.main.async` block is one method,
 * run atomically; a background download is split into the step that starts
 * it and the step that applies its outcome, which is a parameter. Deleting
 * files and writing the metadata file are recorded in ghost fields.
 */
module Offline {
  import opened Wrappers
  import opened SongModel
  import opened PlaylistModel
  import opened OfflineIndex

  /** What the background download of one song delivered: nothing, or a file and, perhaps, fetched artwork. */
  datatype Fetch = Failed | Saved(fileName: string, artwork: Option<string>)

  const ReadyMessage: string := "Offline download ready"

  function FailureMessage(song: Song): string {
    "Failed to download " + song.title
  }

  /**
   * The pending artwork fetches after `ensureArtwork(for: song)`: the song
   * is added when it has a cover URL and no fetch for it is pending.
   */
  function ScheduleArtwork(pending: set<int>, song: Song, serverURL: Option<string>): (r: set<int>)
    ensures song.id in pending || AlbumArtURL(song, serverURL).None? ==> r == pending
    ensures song.id !in pending && AlbumArtURL(song, serverURL).Some? ==> r == pending + {song.id}
  {
    var art := AlbumArtURL(song, serverURL);
    if song.id !in pending && art.Some? && art.GetOr("") != "" then pending + {song.id} else pending
  }

  /** The cached artwork of a song's track, if it is downloaded and has some. */
  function TrackArtwork(tracks: map<int, OfflineTrack>, song: Song): Option<string> {
    if song.id in tracks then tracks[song.id].artworkURL else None
  }

  /** `Double(completed) / Double(total)`. */
  function Fraction(completed: nat, total: nat): real
    requires total > 0
  {
    completed as real / total as real
  }

  /** `min(value, 1.0)`: a progress fraction never shows more than complete. */
  function Capped(value: real): (r: real)
    ensures r <= 1.0 && r <= value
    ensures value <= 1.0 ==> r == value
    ensures value >= 1.0 ==> r == 1.0
  {
    if value < 1.0 then value else 1.0
  }

  /** The ids of a list of songs. */
  function Ids(songs: seq<Song>): set<int> {
    if songs == [] then {} else {songs[0].id} + Ids(songs[1..])
  }

  lemma {:induction false} IdsHas(songs: seq<Song>, i: int)
    requires 0 <= i < |songs|
    ensures songs[i].id in Ids(songs)
  {
    if i > 0 {
      IdsHas(songs[1..], i - 1);
      assert songs[1..][i - 1] == songs[i];
    }
  }

  /** The ids fetched successfully among the first `n` songs. */
  ghost function SavedIds(songs: seq<Song>, fetches: seq<Fetch>, n: int): set<int>
    requires 0 <= n <= |songs| == |fetches|
  {
    if n == 0 then {}
    else SavedIds(songs, fetches, n - 1) + (if fetches[n - 1].Saved? then {songs[n - 1].id} else {})
  }

  /**
   * Whether `performDownload` counts song `i`: it was cached before the
   * download, or this or an earlier turn fetched the same id.
   */
  ghost predicate Done(cached: set<int>, songs: seq<Song>, fetches: seq<Fetch>, i: int)
    requires 0 <= i < |songs| == |fetches|
  {
    songs[i].id in cached + SavedIds(songs, fetches, i + 1)
  }

  /** The number of songs among the first `n` that `performDownload` counts as completed. */
  ghost function CountDone(cached: set<int>, songs: seq<Song>, fetches: seq<Fetch>, n: int): (c: nat)
    requires 0 <= n <= |songs| == |fetches|
    ensures c <= n
  {
    if n == 0 then 0
    else CountDone(cached, songs, fetches, n - 1) + (if Done(cached, songs, fetches, n - 1) then 1 else 0)
  }

  /** Only when every song is cached or fetched does the count reach the total. */
  lemma {:induction false} CountDoneAll(cached: set<int>, songs: seq<Song>, fetches: seq<Fetch>, n: int)
    requires 0 <= n <= |songs| == |fetches|
    ensures CountDone(cached, songs, fetches, n) == n <==> forall i :: 0 <= i < n ==> Done(cached, songs, fetches, i)
  {
    if n > 0 {
      CountDoneAll(cached, songs, fetches, n - 1);
    }
  }

  /** When no song was cached and every fetch failed, nothing counts. */
  lemma {:induction false} CountDoneNone(cached: set<int>, songs: seq<Song>, fetches: seq<Fetch>, n: int)
    requires 0 <= n <= |songs| == |fetches|
    requires forall i :: 0 <= i < n ==> songs[i].id !in cached && fetches[i].Failed?
    ensures SavedIds(songs, fetches, n) == {} && CountDone(cached, songs, fetches, n) == 0
  {
    if n > 0 {
      CountDoneNone(cached, songs, fetches, n - 1);
    }
  }

  /** Setting and then dropping key `k` leaves the other entries as they were. */
  lemma UpdateThenRemove<K, V>(m: map<K, V>, k: K, v: V)
    ensures m[k := v] - {k} == m - {k}
  {
    assert (m[k := v] - {k}).Keys == (m - {k}).Keys;
  }

  /** Song `k` is downloaded and linked both ways with playlist `pid`. */
  ghost predicate LinkedIn(playlists: map<int, OfflinePlaylist>, tracks: map<int, OfflineTrack>, k: int, pid: int) {
    k in tracks && pid in tracks[k].playlistIds && pid in playlists && k in playlists[pid].songIds
  }

  /**
   * How one turn of `performDownload` may change the index: a counted song
   * ends up linked with the playlist, no link to the playlist is lost, and
   * nothing but that song's track and that playlist's entry changes.
   */
  ghost predicate DownloadStep(playlists0: map<int, OfflinePlaylist>, tracks0: map<int, OfflineTrack>,
                               playlists1: map<int, OfflinePlaylist>, tracks1: map<int, OfflineTrack>,
                               songId: int, pid: int, counted: bool)
  {
    && (counted ==> LinkedIn(playlists1, tracks1, songId, pid))
    && (forall k :: LinkedIn(playlists0, tracks0, k, pid) ==> LinkedIn(playlists1, tracks1, k, pid))
    && tracks1.Keys == tracks0.Keys + (if counted then {songId} else {})
    && (forall k :: k in tracks0 && k != songId ==> tracks1[k] == tracks0[k])
    && (forall q :: q != pid ==> (q in playlists1 <==> q in playlists0))
    && (forall q :: q in playlists1 && q != pid ==> playlists1[q] == playlists0[q])
  }

  /**
   * The index after `performDownload` has handled the first `n` songs:
   * the fetched ids were added, tracks of other songs are as they were,
   * every counted song is linked with the playlist, and other playlists are
   * untouched.
   */
  ghost predicate DownloadedPrefix(playlists0: map<int, OfflinePlaylist>, tracks0: map<int, OfflineTrack>,
                                   playlists: map<int, OfflinePlaylist>, tracks: map<int, OfflineTrack>,
                                   songs: seq<Song>, fetches: seq<Fetch>, pid: int, n: int)
    requires 0 <= n <= |songs| == |fetches|
  {
    && tracks.Keys == tracks0.Keys + SavedIds(songs, fetches, n)
    && (forall k :: k in tracks0 && k !in Ids(songs) ==> tracks[k] == tracks0[k])
    && (forall j :: 0 <= j < n && Done(tracks0.Keys, songs, fetches, j) ==> LinkedIn(playlists, tracks, songs[j].id, pid))
    && (forall q :: q != pid ==> (q in playlists <==> q in playlists0))
    && (forall q :: q in playlists && q != pid ==> playlists[q] == playlists0[q])
  }

  /** One more turn extends the handled prefix, and counts exactly when song `n` is `Done`. */
  lemma DownloadedPrefixStep(playlists0: map<int, OfflinePlaylist>, tracks0: map<int, OfflineTrack>,
                             playlists: map<int, OfflinePlaylist>, tracks: map<int, OfflineTrack>,
                             playlists1: map<int, OfflinePlaylist>, tracks1: map<int, OfflineTrack>,
                             songs: seq<Song>, fetches: seq<Fetch>, pid: int, n: int, counted: bool)
    requires 0 <= n < |songs| == |fetches|
    requires DownloadedPrefix(playlists0, tracks0, playlists, tracks, songs, fetches, pid, n)
    requires DownloadStep(playlists, tracks, playlists1, tracks1, songs[n].id, pid, counted)
    requires counted <==> songs[n].id in tracks || fetches[n].Saved?
    ensures counted <==> Done(tracks0.Keys, songs, fetches, n)
    ensures DownloadedPrefix(playlists0, tracks0, playlists1, tracks1, songs, fetches, pid, n + 1)
  {
    IdsHas(songs, n);
    forall j | 0 <= j < n + 1 && Done(tracks0.Keys, songs, fetches, j)
      ensures LinkedIn(playlists1, tracks1, songs[j].id, pid)
    {
      if j < n {
        assert Done(tracks0.Keys, songs, fetches, j);
        assert LinkedIn(playlists, tracks, songs[j].id, pid);
      }
    }
  }

  /** A track that has gained membership of playlist `pid`. */
  function Joined(t: OfflineTrack, pid: int): (r: OfflineTrack)
    ensures r.song == t.song && r.localFileName == t.localFileName && r.artworkURL == t.artworkURL
    ensures r.downloadedAt == t.downloadedAt && r.playlistIds == t.playlistIds + {pid}
  {
    t.(playlistIds := t.playlistIds + {pid})
  }

  /**
   * Song `j` is the first of its id that `performDownload` stores: it was
   * not cached before and no earlier song with its id was fetched.
   */
  ghost predicate FirstSaved(cached: set<int>, songs: seq<Song>, fetches: seq<Fetch>, j: int)
    requires 0 <= j < |songs| == |fetches|
  {
    songs[j].id !in cached && fetches[j].Saved? && songs[j].id !in SavedIds(songs, fetches, j)
  }

  /** What one turn of `performDownload` writes into the song's own track. */
  ghost predicate TrackStep(tracks0: map<int, OfflineTrack>, tracks1: map<int, OfflineTrack>,
                            song: Song, fetch: Fetch, pid: int, serverURL: Option<string>, now: int)
  {
    && (song.id in tracks0 ==> song.id in tracks1 && tracks1[song.id] == Joined(tracks0[song.id], pid))
    && (song.id !in tracks0 && fetch.Saved? ==>
          song.id in tracks1
          && tracks1[song.id] == StoredTrack(None, song, fetch.fileName, Some(pid), fetch.artwork,
                                             AlbumArtURL(song, serverURL), now))
  }

  /**
   * The tracks after `performDownload` has handled the first `n` songs: a
   * track cached before has at most gained the playlist, and has gained it
   * once its song came up; the first stored copy of a fetched song is the
   * track `store` wrote, with that fetch's file name and artwork.
   */
  ghost predicate StoredPrefix(tracks0: map<int, OfflineTrack>, tracks: map<int, OfflineTrack>,
                               songs: seq<Song>, fetches: seq<Fetch>, pid: int,
                               serverURL: Option<string>, now: int, n: int)
    requires 0 <= n <= |songs| == |fetches|
  {
    && (forall k :: k in tracks0 ==> k in tracks && (tracks[k] == tracks0[k] || tracks[k] == Joined(tracks0[k], pid)))
    && (forall j :: 0 <= j < n && songs[j].id in tracks0 ==>
          songs[j].id in tracks && tracks[songs[j].id] == Joined(tracks0[songs[j].id], pid))
    && (forall j :: 0 <= j < n && FirstSaved(tracks0.Keys, songs, fetches, j) ==>
          songs[j].id in tracks
          && tracks[songs[j].id] == StoredTrack(None, songs[j], fetches[j].fileName, Some(pid), fetches[j].artwork,
                                                AlbumArtURL(songs[j], serverURL), now))
  }

  /** One more turn extends `StoredPrefix`: joining twice is joining once, and a stored track already has the playlist. */
  lemma StoredPrefixStep(tracks0: map<int, OfflineTrack>, tracks: map<int, OfflineTrack>, tracks1: map<int, OfflineTrack>,
                         songs: seq<Song>, fetches: seq<Fetch>, pid: int, serverURL: Option<string>, now: int, n: int)
    requires 0 <= n < |songs| == |fetches|
    requires tracks.Keys == tracks0.Keys + SavedIds(songs, fetches, n)
    requires StoredPrefix(tracks0, tracks, songs, fetches, pid, serverURL, now, n)
    requires TrackStep(tracks, tracks1, songs[n], fetches[n], pid, serverURL, now)
    requires forall k :: k in tracks && k != songs[n].id ==> k in tracks1 && tracks1[k] == tracks[k]
    ensures StoredPrefix(tracks0, tracks1, songs, fetches, pid, serverURL, now, n + 1)
  {
    var id := songs[n].id;
    forall k | k in tracks0
      ensures k in tracks1 && (tracks1[k] == tracks0[k] || tracks1[k] == Joined(tracks0[k], pid))
    {
      if k == id {
        JoinedTwice(tracks0[k], pid);
      }
    }
    forall j | 0 <= j < n + 1 && songs[j].id in tracks0
      ensures songs[j].id in tracks1 && tracks1[songs[j].id] == Joined(tracks0[songs[j].id], pid)
    {
      if songs[j].id == id {
        JoinedTwice(tracks0[id], pid);
      }
    }
    forall j | 0 <= j < n + 1 && FirstSaved(tracks0.Keys, songs, fetches, j)
      ensures songs[j].id in tracks1
      ensures tracks1[songs[j].id] == StoredTrack(None, songs[j], fetches[j].fileName, Some(pid), fetches[j].artwork,
                                                  AlbumArtURL(songs[j], serverURL), now)
    {
      if j < n && songs[j].id == id {
        JoinedStored(songs[j], fetches[j].fileName, pid, fetches[j].artwork, AlbumArtURL(songs[j], serverURL), now);
      }
    }
  }

  /** The parts of the manager's state one turn of `performDownload` may change, bar the progress and message. */
  datatype IndexState = IndexState(
    playlists: map<int, OfflinePlaylist>,
    tracks: map<int, OfflineTrack>,
    savedPlaylists: map<int, OfflinePlaylist>,
    savedTracks: map<int, OfflineTrack>,
    pending: set<int>)

  /**
   * The state after `performDownload` has handled the first `n` songs from
   * `start`, having counted `completed` of them: the index is a
   * `DownloadedPrefix` and a `StoredPrefix` of the songs, it is persisted
   * once anything was counted and untouched until then, and only the
   * songs' artwork may have been scheduled.
   */
  ghost predicate Handled(start: IndexState, st: IndexState, songs: seq<Song>, fetches: seq<Fetch>, pid: int,
                          serverURL: Option<string>, now: int, n: int, completed: nat)
    requires 0 <= n <= |songs| == |fetches|
  {
    && completed == CountDone(start.tracks.Keys, songs, fetches, n)
    && DownloadedPrefix(start.playlists, start.tracks, st.playlists, st.tracks, songs, fetches, pid, n)
    && StoredPrefix(start.tracks, st.tracks, songs, fetches, pid, serverURL, now, n)
    && (completed > 0 ==> st.savedPlaylists == st.playlists && st.savedTracks == st.tracks)
    && (completed == 0 ==>
          && st.playlists == start.playlists && st.tracks == start.tracks
          && st.savedPlaylists == start.savedPlaylists && st.savedTracks == start.savedTracks)
    && start.pending <= st.pending <= start.pending + Ids(songs)
  }

  /** One turn of `performDownload` takes `Handled` from `n` songs to `n + 1`. */
  lemma HandledStep(start: IndexState, st0: IndexState, st1: IndexState, songs: seq<Song>, fetches: seq<Fetch>,
                    pid: int, serverURL: Option<string>, now: int, n: int, completed: nat, counted: bool)
    requires 0 <= n < |songs| == |fetches|
    requires Handled(start, st0, songs, fetches, pid, serverURL, now, n, completed)
    requires DownloadStep(st0.playlists, st0.tracks, st1.playlists, st1.tracks, songs[n].id, pid, counted)
    requires TrackStep(st0.tracks, st1.tracks, songs[n], fetches[n], pid, serverURL, now)
    requires counted <==> songs[n].id in st0.tracks || fetches[n].Saved?
    requires counted ==> st1.savedPlaylists == st1.playlists && st1.savedTracks == st1.tracks
    requires !counted ==>
      && st1.playlists == st0.playlists && st1.tracks == st0.tracks
      && st1.savedPlaylists == st0.savedPlaylists && st1.savedTracks == st0.savedTracks
    requires st0.pending <= st1.pending <= st0.pending + {songs[n].id}
    ensures Handled(start, st1, songs, fetches, pid, serverURL, now, n + 1, completed + if counted then 1 else 0)
  {
    DownloadedPrefixStep(start.playlists, start.tracks, st0.playlists, st0.tracks, st1.playlists, st1.tracks,
                         songs, fetches, pid, n, counted);
    StoredPrefixStep(start.tracks, st0.tracks, st1.tracks, songs, fetches, pid, serverURL, now, n);
    IdsHas(songs, n);
  }

  lemma JoinedTwice(t: OfflineTrack, pid: int)
    ensures Joined(t, pid) == Joined(Joined(t, pid), pid)
  {
    assert Joined(t, pid).playlistIds + {pid} == Joined(t, pid).playlistIds;
  }

  lemma JoinedStored(song: Song, fileName: string, pid: int, fetched: Option<string>, cover: Option<string>, now: int)
    ensures var t := StoredTrack(None, song, fileName, Some(pid), fetched, cover, now); Joined(t, pid) == t
  {
    var t := StoredTrack(None, song, fileName, Some(pid), fetched, cover, now);
    assert t.playlistIds + {pid} == t.playlistIds;
  }

  class OfflineManager {
    var playlists: map<int, OfflinePlaylist>
    var tracks: map<int, OfflineTrack>
    var downloadProgress: map<int, real>
    var activeDownloads: set<int>
    var songDownloads: set<int>
    var statusMessage: Option<string>
    var pendingArtworkFetches: set<int>
    /** The saved server URL relative cover paths are resolved against. */
    const serverURL: Option<string>
    /** The index as the metadata file last recorded it. */
    ghost var savedPlaylists: map<int, OfflinePlaylist>
    ghost var savedTracks: map<int, OfflineTrack>
    /** Audio file names and artwork locations deleted so far. */
    ghost var deletedFiles: set<string>
    ghost var deletedArtwork: set<string>

    ghost predicate Valid()
      reads this
    {
      KeyedById(playlists, tracks)
    }

    /** The cross-links every update keeps (a loaded metadata file need not have them). */
    ghost predicate Linked()
      reads this
    {
      OfflineIndex.Linked(playlists, tracks)
    }

    /** Song `k` is downloaded and linked both ways with playlist `pid`. */
    ghost function State(): IndexState
      reads this
    {
      IndexState(playlists, tracks, savedPlaylists, savedTracks, pendingArtworkFetches)
    }

    ghost predicate LinkedTo(k: int, pid: int)
      reads this
    {
      LinkedIn(playlists, tracks, k, pid)
    }

    /**
     * `init()` and `loadCache()`: `cache` is the decoded metadata file, or
     * nothing when it is missing or does not decode. Duplicate ids in it
     * would trap in `Dictionary(uniqueKeysWithValues:)`.
     */
    constructor(cache: Option<(seq<OfflinePlaylist>, seq<OfflineTrack>)>, serverURL: Option<string>)
      requires cache.Some? ==> DistinctKeys(cache.value.0, PlaylistKey) && DistinctKeys(cache.value.1, TrackKey)
      ensures Valid()
      ensures cache.None? ==> playlists == map[] && tracks == map[]
      ensures cache.Some? ==>
        playlists == Index(cache.value.0, PlaylistKey) && tracks == Index(cache.value.1, TrackKey)
      ensures downloadProgress == map[] && activeDownloads == {} && songDownloads == {}
      ensures pendingArtworkFetches == {} && statusMessage == None && this.serverURL == serverURL
      ensures deletedFiles == {} && deletedArtwork == {}
      ensures savedPlaylists == playlists && savedTracks == tracks
    {
      if cache.Some? {
        playlists := Index(cache.value.0, PlaylistKey);
        tracks := Index(cache.value.1, TrackKey);
      } else {
        playlists := map[];
        tracks := map[];
      }
      downloadProgress := map[];
      activeDownloads := {};
      songDownloads := {};
      statusMessage := None;
      pendingArtworkFetches := {};
      this.serverURL := serverURL;
      savedPlaylists := playlists;
      savedTracks := tracks;
      deletedFiles := {};
      deletedArtwork := {};
    }

    // ------------------------------------------------------------ accessors

    /** `isSongDownloaded(_:)`. */
    function IsSongDownloaded(song: Song): (r: bool)
      reads this
      ensures r <==> song.id in tracks
    {
      song.id in tracks
    }

    /** `localURL(for:)`: the cached file's name inside the downloads directory, for a downloaded song only. */
    function LocalFileName(song: Song): (name: Option<string>)
      reads this
      ensures name.Some? <==> IsSongDownloaded(song)
      ensures name.Some? ==> name.value == tracks[song.id].localFileName
    {
      if song.id in tracks then Some(tracks[song.id].localFileName) else None
    }

    /** `isPlaylistDownloaded(_:)`. */
    function IsPlaylistDownloaded(playlistId: int): (r: bool)
      reads this
      ensures r <==> playlistId in playlists
    {
      playlistId in playlists
    }

    /** `isPlaylistDownloading(_:)`. */
    function IsPlaylistDownloading(playlistId: int): (r: bool)
      reads this
      ensures r <==> playlistId in activeDownloads
    {
      playlistId in activeDownloads
    }

    /** `isSongDownloading(_:)`. */
    function IsSongDownloading(song: Song): (r: bool)
      reads this
      ensures r <==> song.id in songDownloads
    {
      song.id in songDownloads
    }

    /** `songs(forPlaylist:)`: the cached songs of a playlist in its order; nothing for an unknown playlist. */
    function SongsForPlaylist(playlistId: int): (songs: seq<Song>)
      reads this
      ensures playlistId !in playlists ==> songs == []
      ensures playlistId in playlists ==> |songs| <= |playlists[playlistId].songIds|
    {
      if playlistId in playlists then CachedSongs(playlists[playlistId].songIds, tracks) else []
    }

    /** `playlistArtworkURL(_:)`: the artwork recorded for a downloaded playlist, if any. */
    function PlaylistArtworkURL(playlistId: int): (url: Option<string>)
      reads this
      ensures url.Some? <==> playlistId in playlists && playlists[playlistId].artworkURL.Some?
      ensures url.Some? ==> url == playlists[playlistId].artworkURL
    {
      if playlistId in playlists then playlists[playlistId].artworkURL else None
    }

    /**
     * `downloadedPlaylists`: every downloaded playlist once, in the order
     * `order` in which the dictionary happens to list its keys.
     */
    function DownloadedPlaylists(order: seq<int>): (list: seq<OfflinePlaylist>)
      reads this
      requires Enumerates(order, playlists.Keys)
      ensures |list| == |order|
      ensures forall k :: k in playlists ==> playlists[k] in list
      ensures forall e :: e in list ==> e in playlists.Values
    {
      var list := Snapshot(playlists, order);
      assert forall k :: k in playlists ==> playlists[k] in list by {
        forall k | k in playlists ensures playlists[k] in list {
          var i :| 0 <= i < |order| && order[i] == k;
          assert list[i] == playlists[k];
        }
      }
      list
    }

    /** `allDownloadedSongs`: the song of every downloaded track once, in the dictionary's order `order`. */
    function AllDownloadedSongs(order: seq<int>): (songs: seq<Song>)
      reads this
      requires Enumerates(order, tracks.Keys)
      ensures |songs| == |order|
      ensures forall k :: k in tracks ==> tracks[k].song in songs
      ensures forall s :: s in songs ==> exists k :: k in tracks && tracks[k].song == s
    {
      var index := tracks;
      var songs := seq(|order|, i requires 0 <= i < |order| => index[order[i]].song);
      assert forall k :: k in tracks ==> tracks[k].song in songs by {
        forall k | k in tracks ensures tracks[k].song in songs {
          var i :| 0 <= i < |order| && order[i] == k;
          assert songs[i] == tracks[k].song;
        }
      }
      songs
    }

    // ------------------------------------------------------------ artwork

    /** The `MainActor.run` step of `persistCache()`; encoding and writing are taken to succeed. */
    method PersistCache()
      modifies this`savedPlaylists, this`savedTracks
      ensures savedPlaylists == playlists && savedTracks == tracks
    {
      savedPlaylists := playlists;
      savedTracks := tracks;
    }

    /** `ensureArtwork(for:)`: schedules at most one artwork fetch per song. */
    method EnsureArtwork(song: Song)
      modifies this`pendingArtworkFetches
      ensures pendingArtworkFetches == ScheduleArtwork(old(pendingArtworkFetches), song, serverURL)
    {
      var art := AlbumArtURL(song, serverURL);
      if song.id !in pendingArtworkFetches && art.Some? && art.GetOr("") != "" {
        pendingArtworkFetches := pendingArtworkFetches + {song.id};
      }
    }

    /**
     * `artworkURL(for:)`: the cached artwork of the song's track; a
     * downloaded song without any gets a fetch scheduled.
     */
    method ArtworkURL(song: Song) returns (url: Option<string>)
      modifies this`pendingArtworkFetches
      ensures url == TrackArtwork(tracks, song)
      ensures url.None? && song.id in tracks ==>
        pendingArtworkFetches == ScheduleArtwork(old(pendingArtworkFetches), song, serverURL)
      ensures url.Some? || song.id !in tracks ==> pendingArtworkFetches == old(pendingArtworkFetches)
    {
      url := TrackArtwork(tracks, song);
      if url.None? && song.id in tracks {
        EnsureArtwork(song);
      }
    }

    /** The main-actor step that ends `ensureArtwork`'s fetch, `path` being what it fetched. */
    method ArtworkFetched(song: Song, path: Option<string>)
      requires Valid()
      modifies this`pendingArtworkFetches, this`tracks, this`savedPlaylists, this`savedTracks
      ensures Valid() && (old(Linked()) ==> Linked())
      ensures pendingArtworkFetches == old(pendingArtworkFetches) - {song.id}
      ensures path.Some? && song.id in old(tracks) ==>
        && tracks == old(tracks)[song.id := old(tracks)[song.id].(artworkURL := path)]
        && savedPlaylists == playlists && savedTracks == tracks
      ensures path.None? || song.id !in old(tracks) ==>
        tracks == old(tracks) && savedPlaylists == old(savedPlaylists) && savedTracks == old(savedTracks)
    {
      pendingArtworkFetches := pendingArtworkFetches - {song.id};
      if path.Some? && song.id in tracks {
        tracks := tracks[song.id := tracks[song.id].(artworkURL := path)];
        PersistCache();
      }
    }

    // ------------------------------------------------------------ index updates

    /**
     * `attach(song:to:)`: links an already downloaded song into a playlist.
     * The playlist entry is created or extended; the track, if any, gains
     * the playlist; no track is created.
     */
    method Attach(song: Song, playlist: Option<Playlist>, now: int)
      requires Valid()
      modifies this`playlists, this`tracks, this`pendingArtworkFetches, this`savedPlaylists, this`savedTracks
      ensures Valid() && (old(Linked()) ==> Linked())
      ensures playlist.None? ==> playlists == old(playlists) && tracks == old(tracks)
      ensures playlist.Some? ==>
        var p := playlist.value;
        var art := TrackArtwork(old(tracks), song).OrElse(p.coverURL).OrElse(AlbumArtURL(song, serverURL));
        && playlists == old(playlists)[p.id := LinkEntry(EntryFor(old(playlists), p, now), song.id, art)]
        && tracks == AddMembership(old(tracks), song.id, p.id)
      ensures
        if playlist.Some? && EntryFor(old(playlists), playlist.value, now).artworkURL.None?
           && song.id in old(tracks) && old(tracks)[song.id].artworkURL.None?
        then pendingArtworkFetches == ScheduleArtwork(old(pendingArtworkFetches), song, serverURL)
        else pendingArtworkFetches == old(pendingArtworkFetches)
      ensures savedPlaylists == playlists && savedTracks == tracks
    {
      if playlist.Some? {
        var p := playlist.value;
        var entry := EntryFor(playlists, p, now);
        var art := entry.artworkURL;
        if entry.artworkURL.None? {
          var trackArt := ArtworkURL(song);
          art := trackArt.OrElse(p.coverURL).OrElse(AlbumArtURL(song, serverURL));
        }
        AttachKeepsLinks(playlists, tracks, song.id, p, art, now);
        playlists := playlists[p.id := LinkEntry(entry, song.id, art)];
        tracks := AddMembership(tracks, song.id, p.id);
      }
      PersistCache();
    }

    /**
     * `store(song:playlist:fileURL:artworkURL:)`: records a downloaded file
     * for the song, creating or updating its track, and links it into the
     * playlist when one is given.
     */
    method Store(song: Song, playlist: Option<Playlist>, fileName: string, fetched: Option<string>, now: int)
      requires Valid()
      modifies this`playlists, this`tracks, this`savedPlaylists, this`savedTracks
      ensures Valid() && (old(Linked()) ==> Linked())
      ensures
        var existing := if song.id in old(tracks) then Some(old(tracks)[song.id]) else None;
        var pid := if playlist.Some? then Some(playlist.value.id) else None;
        tracks == old(tracks)[song.id := StoredTrack(existing, song, fileName, pid, fetched, AlbumArtURL(song, serverURL), now)]
      ensures playlist.None? ==> playlists == old(playlists)
      ensures playlist.Some? ==>
        var p := playlist.value;
        var art := tracks[song.id].artworkURL.OrElse(p.coverURL).OrElse(AlbumArtURL(song, serverURL));
        playlists == old(playlists)[p.id := LinkEntry(EntryFor(old(playlists), p, now), song.id, art)]
      ensures savedPlaylists == playlists && savedTracks == tracks
    {
      var existing := if song.id in tracks then Some(tracks[song.id]) else None;
      var pid := if playlist.Some? then Some(playlist.value.id) else None;
      var cover := AlbumArtURL(song, serverURL);
      var track := StoredTrack(existing, song, fileName, pid, fetched, cover, now);
      var entryArt := track.artworkURL.OrElse(if playlist.Some? then playlist.value.coverURL else None).OrElse(cover);
      StoreKeepsLinks(playlists, tracks, song, fileName, playlist, fetched, cover, entryArt, now);
      tracks := tracks[song.id := track];
      if playlist.Some? {
        var p := playlist.value;
        playlists := playlists[p.id := LinkEntry(EntryFor(playlists, p, now), song.id, entryArt)];
      }
      PersistCache();
    }

    /** One turn of `removePlaylist`'s loop: the listed track loses the playlist, and goes when it has none left. */
    method DetachTrack(songId: int, pid: int)
      modifies this`tracks, this`deletedFiles, this`deletedArtwork
      ensures tracks == DetachOne(old(tracks), songId, pid)
      ensures deletedFiles == old(deletedFiles) + DroppedFile(old(tracks), songId, pid)
      ensures deletedArtwork == old(deletedArtwork) + DroppedArtwork(old(tracks), songId, pid)
    {
      if songId in tracks {
        var track := tracks[songId].(playlistIds := tracks[songId].playlistIds - {pid});
        if track.playlistIds == {} {
          tracks := tracks - {songId};
          deletedFiles := deletedFiles + {track.localFileName};
          if track.artworkURL.Some? {
            deletedArtwork := deletedArtwork + {track.artworkURL.value};
          }
        } else {
          tracks := tracks[songId := track];
        }
      }
    }

    /** The loop of `removePlaylist`: every listed track loses the playlist. */
    method DetachAll(ids: seq<int>, pid: int)
      modifies this`tracks, this`deletedFiles, this`deletedArtwork
      ensures tracks == DetachPlaylist(old(tracks), ids, pid)
      ensures deletedFiles == old(deletedFiles) + OrphanFiles(old(tracks), ids, pid)
      ensures deletedArtwork == old(deletedArtwork) + OrphanArtwork(old(tracks), ids, pid)
    {
      ghost var tracks0 := tracks;
      var i := 0;
      assert DetachPlaylist(tracks0, ids[..0], pid) == tracks0;
      while i < |ids|
        invariant 0 <= i <= |ids|
        invariant tracks == DetachPlaylist(tracks0, ids[..i], pid)
        invariant deletedFiles == old(deletedFiles) + OrphanFiles(tracks0, ids[..i], pid)
        invariant deletedArtwork == old(deletedArtwork) + OrphanArtwork(tracks0, ids[..i], pid)
      {
        var songId := ids[i];
        assert ids[..i + 1] == ids[..i] + [songId];
        DetachPlaylistStep(tracks0, ids[..i], songId, pid);
        DetachTrack(songId, pid);
        i := i + 1;
      }
      assert ids[..i] == ids;
    }

    /**
     * `removePlaylist(_:)`: drops the playlist, takes it out of every track
     * it lists, and deletes each track (file and artwork) that is left in no
     * playlist; nothing happens for a playlist that is not cached.
     */
    method RemovePlaylist(playlist: Playlist)
      requires Valid()
      modifies this`playlists, this`tracks, this`downloadProgress, this`activeDownloads
      modifies this`deletedFiles, this`deletedArtwork, this`savedPlaylists, this`savedTracks
      ensures Valid() && (old(Linked()) ==> Linked())
      ensures playlist.id !in old(playlists) ==>
        && playlists == old(playlists) && tracks == old(tracks)
        && downloadProgress == old(downloadProgress) && activeDownloads == old(activeDownloads)
        && deletedFiles == old(deletedFiles) && deletedArtwork == old(deletedArtwork)
        && savedPlaylists == old(savedPlaylists) && savedTracks == old(savedTracks)
      ensures playlist.id in old(playlists) ==>
        var ids := old(playlists)[playlist.id].songIds;
        && playlists == old(playlists) - {playlist.id}
        && tracks == DetachPlaylist(old(tracks), ids, playlist.id)
        && deletedFiles == old(deletedFiles) + OrphanFiles(old(tracks), ids, playlist.id)
        && deletedArtwork == old(deletedArtwork) + OrphanArtwork(old(tracks), ids, playlist.id)
        && downloadProgress == old(downloadProgress) - {playlist.id}
        && activeDownloads == old(activeDownloads) - {playlist.id}
        && savedPlaylists == playlists && savedTracks == tracks
    {
      if playlist.id !in playlists {
        return;
      }
      var pid := playlist.id;
      var ids := playlists[pid].songIds;
      RemovePlaylistKeepsLinks(playlists, tracks, pid);
      playlists := playlists - {pid};
      DetachAll(ids, pid);
      downloadProgress := downloadProgress - {pid};
      activeDownloads := activeDownloads - {pid};
      PersistCache();
    }

    /** One turn of `removeSong`'s loop: the playlist loses the song, and goes when left empty. */
    method DetachFromPlaylist(q: int, sid: int)
      modifies this`playlists
      ensures playlists == DetachSongOne(old(playlists), q, sid)
    {
      if q in playlists {
        var entry := playlists[q].(songIds := Without(playlists[q].songIds, sid));
        if entry.songIds == [] {
          playlists := playlists - {q};
        } else {
          playlists := playlists[q := entry];
        }
      }
    }

    /** The loop of `removeSong`: each of the track's playlists, in any order, loses the song. */
    method DetachFromPlaylists(pids: set<int>, sid: int)
      modifies this`playlists
      ensures playlists == DetachSong(old(playlists), pids, sid)
    {
      ghost var playlists0 := playlists;
      var remaining := pids;
      assert DetachSong(playlists0, pids - remaining, sid) == playlists0;
      while remaining != {}
        invariant remaining <= pids
        invariant playlists == DetachSong(playlists0, pids - remaining, sid)
        decreases remaining
      {
        var q := Pick(remaining);
        DetachSongStep(playlists0, pids - remaining, q, sid);
        DetachFromPlaylist(q, sid);
        assert pids - (remaining - {q}) == (pids - remaining) + {q};
        remaining := remaining - {q};
      }
      assert pids - remaining == pids;
    }

    /**
     * `removeSong(_:)`: drops the song's track and file, takes the song out
     * of every playlist the track names, and drops each playlist left
     * empty; nothing happens for a song that is not cached.
     */
    method RemoveSong(song: Song)
      requires Valid()
      modifies this`playlists, this`tracks, this`deletedFiles, this`deletedArtwork
      modifies this`savedPlaylists, this`savedTracks
      ensures Valid() && (old(Linked()) ==> Linked())
      ensures song.id !in old(tracks) ==>
        && playlists == old(playlists) && tracks == old(tracks)
        && deletedFiles == old(deletedFiles) && deletedArtwork == old(deletedArtwork)
        && savedPlaylists == old(savedPlaylists) && savedTracks == old(savedTracks)
      ensures song.id in old(tracks) ==>
        var track := old(tracks)[song.id];
        && playlists == DetachSong(old(playlists), track.playlistIds, song.id)
        && tracks == old(tracks) - {song.id}
        && deletedFiles == old(deletedFiles) + {track.localFileName}
        && deletedArtwork == old(deletedArtwork) + (if track.artworkURL.Some? then {track.artworkURL.value} else {})
        && savedPlaylists == playlists && savedTracks == tracks
    {
      if song.id !in tracks {
        return;
      }
      var track := tracks[song.id];
      RemoveSongKeepsLinks(playlists, tracks, song.id);
      DetachFromPlaylists(track.playlistIds, song.id);
      tracks := tracks - {song.id};
      deletedFiles := deletedFiles + {track.localFileName};
      if track.artworkURL.Some? {
        deletedArtwork := deletedArtwork + {track.artworkURL.value};
      }
      PersistCache();
    }

    // ------------------------------------------------------------ downloads

    /**
     * The main-thread part of `downloadSong(_:playlist:apiService:)`:
     * nothing while the song is downloading, only `attach` when it is
     * already downloaded, otherwise the song is marked as downloading and
     * the caller runs the background fetch, finished by `FinishSongDownload`.
     */
    method DownloadSong(song: Song, playlist: Option<Playlist>, now: int)
      requires Valid()
      modifies this`playlists, this`tracks, this`pendingArtworkFetches, this`savedPlaylists, this`savedTracks
      modifies this`songDownloads
      ensures Valid() && (old(Linked()) ==> Linked())
      ensures song.id in old(songDownloads) ==>
        && playlists == old(playlists) && tracks == old(tracks) && songDownloads == old(songDownloads)
        && pendingArtworkFetches == old(pendingArtworkFetches)
      ensures song.id !in old(songDownloads) && song.id in old(tracks) ==>
        && songDownloads == old(songDownloads)
        && tracks == (if playlist.Some? then AddMembership(old(tracks), song.id, playlist.value.id) else old(tracks))
        && (playlist.None? ==> playlists == old(playlists))
        && (playlist.Some? ==>
              var p := playlist.value;
              var art := TrackArtwork(old(tracks), song).OrElse(p.coverURL).OrElse(AlbumArtURL(song, serverURL));
              playlists == old(playlists)[p.id := LinkEntry(EntryFor(old(playlists), p, now), song.id, art)])
        && (if playlist.Some? && EntryFor(old(playlists), playlist.value, now).artworkURL.None?
               && old(tracks)[song.id].artworkURL.None?
            then pendingArtworkFetches == ScheduleArtwork(old(pendingArtworkFetches), song, serverURL)
            else pendingArtworkFetches == old(pendingArtworkFetches))
      ensures song.id !in old(songDownloads) && song.id !in old(tracks) ==>
        && songDownloads == old(songDownloads) + {song.id}
        && playlists == old(playlists) && tracks == old(tracks)
        && pendingArtworkFetches == old(pendingArtworkFetches)
    {
      if song.id in songDownloads {
        return;
      }
      if song.id in tracks {
        Attach(song, playlist, now);
        return;
      }
      songDownloads := songDownloads + {song.id};
    }

    /** The steps that end `downloadSong`'s background task, given what the download delivered. */
    method FinishSongDownload(song: Song, playlist: Option<Playlist>, fetch: Fetch, now: int)
      requires Valid()
      modifies this`playlists, this`tracks, this`savedPlaylists, this`savedTracks
      modifies this`songDownloads, this`statusMessage
      ensures Valid() && (old(Linked()) ==> Linked())
      ensures songDownloads == old(songDownloads) - {song.id}
      ensures fetch.Failed? ==>
        playlists == old(playlists) && tracks == old(tracks) && statusMessage == Some(FailureMessage(song))
      ensures fetch.Saved? ==>
        && statusMessage == old(statusMessage)
        && song.id in tracks && tracks[song.id].localFileName == fetch.fileName
        && tracks.Keys == old(tracks).Keys + {song.id}
        && (var existing := if song.id in old(tracks) then Some(old(tracks)[song.id]) else None;
            var pid := if playlist.Some? then Some(playlist.value.id) else None;
            tracks == old(tracks)[song.id := StoredTrack(existing, song, fetch.fileName, pid, fetch.artwork,
                                                         AlbumArtURL(song, serverURL), now)])
        && (playlist.None? ==> playlists == old(playlists))
        && (playlist.Some? ==>
              var p := playlist.value;
              var art := tracks[song.id].artworkURL.OrElse(p.coverURL).OrElse(AlbumArtURL(song, serverURL));
              playlists == old(playlists)[p.id := LinkEntry(EntryFor(old(playlists), p, now), song.id, art)])
        && (playlist.Some? ==>
              playlist.value.id in tracks[song.id].playlistIds
              && playlist.value.id in playlists && song.id in playlists[playlist.value.id].songIds)
    {
      match fetch {
        case Failed =>
          statusMessage := Some(FailureMessage(song));
        case Saved(fileName, artwork) =>
          Store(song, playlist, fileName, artwork, now);
      }
      songDownloads := songDownloads - {song.id};
    }

    /**
     * The main-thread part of `downloadPlaylist(playlist:songs:apiService:)`:
     * an empty song list or a playlist already downloading is ignored;
     * otherwise the playlist is marked as downloading at progress 0 and the
     * caller runs `PerformDownload`.
     */
    method DownloadPlaylist(playlist: Playlist, songs: seq<Song>)
      modifies this`activeDownloads, this`downloadProgress
      ensures songs == [] || playlist.id in old(activeDownloads) ==>
        activeDownloads == old(activeDownloads) && downloadProgress == old(downloadProgress)
      ensures songs != [] && playlist.id !in old(activeDownloads) ==>
        activeDownloads == old(activeDownloads) + {playlist.id}
        && downloadProgress == old(downloadProgress)[playlist.id := 0.0]
    {
      if songs == [] || playlist.id in activeDownloads {
        return;
      }
      activeDownloads := activeDownloads + {playlist.id};
      downloadProgress := downloadProgress[playlist.id := 0.0];
    }

    /** `updateProgress(_:for:)`: the fraction is capped at 1. */
    method UpdateProgress(value: real, playlistId: int)
      modifies this`downloadProgress
      ensures downloadProgress == old(downloadProgress)[playlistId := Capped(value)]
    {
      downloadProgress := downloadProgress[playlistId := if value < 1.0 then value else 1.0];
    }

    /** `finalizeDownload(for:)`. */
    method FinalizeDownload(playlistId: int)
      modifies this`activeDownloads, this`downloadProgress, this`statusMessage
      ensures activeDownloads == old(activeDownloads) - {playlistId}
      ensures downloadProgress == old(downloadProgress) - {playlistId}
      ensures statusMessage == Some(ReadyMessage)
    {
      activeDownloads := activeDownloads - {playlistId};
      downloadProgress := downloadProgress - {playlistId};
      statusMessage := Some(ReadyMessage);
    }

    /**
     * One turn of `performDownload`'s loop, `completed` songs into `total`: a
     * cached song is attached, a fetched one stored, a failed one skipped;
     * `counted` says whether the song counts as completed, and then the
     * playlist's progress moves to the new fraction, while a failed fetch
     * posts its failure message. Only this song's track and this playlist's
     * entry change, and neither loses a link.
     */
    method DownloadOne(playlist: Playlist, song: Song, fetch: Fetch, completed: nat, total: nat, now: int)
      returns (counted: bool)
      requires Valid() && total > 0
      modifies this`playlists, this`tracks, this`pendingArtworkFetches, this`savedPlaylists, this`savedTracks
      modifies this`downloadProgress, this`statusMessage
      ensures Valid() && (old(Linked()) ==> Linked())
      ensures counted <==> song.id in old(tracks) || fetch.Saved?
      ensures !counted ==> playlists == old(playlists) && tracks == old(tracks)
      ensures DownloadStep(old(playlists), old(tracks), playlists, tracks, song.id, playlist.id, counted)
      ensures downloadProgress - {playlist.id} == old(downloadProgress) - {playlist.id}
      ensures counted ==> playlist.id in downloadProgress && downloadProgress[playlist.id] == Capped(Fraction(completed + 1, total))
      ensures !counted ==> downloadProgress == old(downloadProgress)
      ensures statusMessage == if counted then old(statusMessage) else Some(FailureMessage(song))
      ensures TrackStep(old(tracks), tracks, song, fetch, playlist.id, serverURL, now)
      ensures song.id in old(tracks) ==>
        var art := TrackArtwork(old(tracks), song).OrElse(playlist.coverURL).OrElse(AlbumArtURL(song, serverURL));
        && tracks == AddMembership(old(tracks), song.id, playlist.id)
        && playlists == old(playlists)[playlist.id := LinkEntry(EntryFor(old(playlists), playlist, now), song.id, art)]
        && pendingArtworkFetches ==
             if EntryFor(old(playlists), playlist, now).artworkURL.None? && old(tracks)[song.id].artworkURL.None?
             then ScheduleArtwork(old(pendingArtworkFetches), song, serverURL)
             else old(pendingArtworkFetches)
      ensures song.id !in old(tracks) && fetch.Saved? ==>
        && tracks == old(tracks)[song.id := StoredTrack(None, song, fetch.fileName, Some(playlist.id), fetch.artwork,
                                                        AlbumArtURL(song, serverURL), now)]
        && (var art := tracks[song.id].artworkURL.OrElse(playlist.coverURL).OrElse(AlbumArtURL(song, serverURL));
            playlists == old(playlists)[playlist.id := LinkEntry(EntryFor(old(playlists), playlist, now), song.id, art)])
      ensures song.id !in old(tracks) ==> pendingArtworkFetches == old(pendingArtworkFetches)
      ensures old(pendingArtworkFetches) <= pendingArtworkFetches <= old(pendingArtworkFetches) + {song.id}
      ensures counted ==> savedPlaylists == playlists && savedTracks == tracks
      ensures !counted ==> savedPlaylists == old(savedPlaylists) && savedTracks == old(savedTracks)
    {
      counted := false;
      if song.id in tracks {
        Attach(song, Some(playlist), now);
        counted := true;
      } else if fetch.Saved? {
        Store(song, Some(playlist), fetch.fileName, fetch.artwork, now);
        counted := true;
      }
      if !counted {
        statusMessage := Some(FailureMessage(song));
      }
      if counted {
        UpdateThenRemove(downloadProgress, playlist.id, Capped(Fraction(completed + 1, total)));
        UpdateProgress(Fraction(completed + 1, total), playlist.id);
      }
    }

    /** The loop of `performDownload`, with the progress it reports after each completed song. */
    method DownloadAll(playlist: Playlist, songs: seq<Song>, fetches: seq<Fetch>, now: int)
      returns (completed: nat)
      requires Valid() && |fetches| == |songs|
      modifies this`playlists, this`tracks, this`pendingArtworkFetches, this`savedPlaylists, this`savedTracks
      modifies this`downloadProgress, this`statusMessage
      ensures Valid() && (old(Linked()) ==> Linked())
      ensures downloadProgress - {playlist.id} == old(downloadProgress) - {playlist.id}
      ensures Handled(old(State()), State(), songs, fetches, playlist.id, serverURL, now, |songs|, completed)
    {
      ghost var start, startProgress := State(), downloadProgress;
      ghost var wasLinked := Linked();
      completed := 0;
      var i := 0;
      while i < |songs|
        invariant 0 <= i <= |songs|
        invariant Valid() && (wasLinked ==> Linked())
        invariant downloadProgress - {playlist.id} == startProgress - {playlist.id}
        invariant Handled(start, State(), songs, fetches, playlist.id, serverURL, now, i, completed)
      {
        ghost var st0 := State();
        var counted := DownloadOne(playlist, songs[i], fetches[i], completed, |songs|, now);
        HandledStep(start, st0, State(), songs, fetches, playlist.id, serverURL, now, i, completed, counted);
        if counted {
          completed := completed + 1;
        }
        i := i + 1;
      }
    }

    /**
     * `performDownload(playlist:songs:apiService:)`, with `fetches[i]` what
     * downloading `songs[i]` would deliver. Failed songs are skipped and
     * the loop goes on; the playlist always ends up no longer downloading.
     */
    method PerformDownload(playlist: Playlist, songs: seq<Song>, fetches: seq<Fetch>, now: int)
      returns (completed: nat)
      requires Valid() && |fetches| == |songs|
      modifies this`playlists, this`tracks, this`pendingArtworkFetches, this`savedPlaylists, this`savedTracks
      modifies this`downloadProgress, this`activeDownloads, this`statusMessage
      ensures Valid() && (old(Linked()) ==> Linked())
      ensures completed == CountDone(old(tracks).Keys, songs, fetches, |songs|) && completed <= |songs|
      ensures tracks.Keys == old(tracks).Keys + SavedIds(songs, fetches, |songs|)
      ensures forall k :: k in old(tracks) && k !in Ids(songs) ==> tracks[k] == old(tracks)[k]
      ensures forall i :: 0 <= i < |songs| && Done(old(tracks).Keys, songs, fetches, i) ==>
        && songs[i].id in tracks && playlist.id in tracks[songs[i].id].playlistIds
        && playlist.id in playlists && songs[i].id in playlists[playlist.id].songIds
      ensures forall q :: q != playlist.id ==> (q in playlists <==> q in old(playlists))
      ensures forall q :: q in playlists && q != playlist.id ==> playlists[q] == old(playlists)[q]
      ensures forall i :: 0 <= i < |songs| && songs[i].id in old(tracks) ==>
        songs[i].id in tracks && tracks[songs[i].id] == Joined(old(tracks)[songs[i].id], playlist.id)
      ensures forall i :: 0 <= i < |songs| && FirstSaved(old(tracks).Keys, songs, fetches, i) ==>
        && songs[i].id in tracks
        && tracks[songs[i].id] == StoredTrack(None, songs[i], fetches[i].fileName, Some(playlist.id), fetches[i].artwork,
                                              AlbumArtURL(songs[i], serverURL), now)
      ensures completed > 0 ==> savedPlaylists == playlists && savedTracks == tracks
      ensures completed == 0 ==>
        && playlists == old(playlists) && tracks == old(tracks)
        && savedPlaylists == old(savedPlaylists) && savedTracks == old(savedTracks)
      ensures old(pendingArtworkFetches) <= pendingArtworkFetches <= old(pendingArtworkFetches) + Ids(songs)
      ensures activeDownloads == old(activeDownloads) - {playlist.id}
      ensures downloadProgress == old(downloadProgress) - {playlist.id}
      ensures statusMessage == Some(ReadyMessage)
    {
      completed := DownloadAll(playlist, songs, fetches, now);
      FinalizeDownload(playlist.id);
    }
  }
}
