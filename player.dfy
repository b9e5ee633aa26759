/**
 * The playback queue of Services/AudioPlayerManager.swift: the queue, the
 * cursor into it, the song being played, the playlist it came from, the
 * play/pause flag, and the most-recently-played history. The AVPlayer
 * itself is not modelled; a ghost log records which songs were handed to
 * it and which positions it was asked to seek to.
 */
module Player {
  import opened Wrappers
  import opened Text
  import opened SongModel
  import opened PlaylistModel
  import opened RemoteModel

  /** `maxRecentlyPlayed`. */
  const MaxRecentlyPlayed: nat := 25

  /** `loadRecommendations(count:)`'s default. */
  const RecommendationCount: nat := 10

  /** No song id occurs twice. */
  ghost predicate UniqueIds(songs: seq<Song>) {
    forall i, j :: 0 <= i < j < |songs| ==> songs[i].id != songs[j].id
  }

  /** The songs of `songs` whose id is not `id`, in their order. */
  function Others(songs: seq<Song>, id: int): (r: seq<Song>)
    ensures |r| <= |songs|
    ensures forall k :: 0 <= k < |r| ==> r[k].id != id && r[k] in songs
  {
    if songs == [] then []
    else (if songs[0].id == id then [] else [songs[0]]) + Others(songs[1..], id)
  }

  lemma {:induction false} OthersUnique(songs: seq<Song>, id: int)
    requires UniqueIds(songs)
    ensures UniqueIds(Others(songs, id))
  {
    if songs != [] {
      OthersUnique(songs[1..], id);
      var rest := Others(songs[1..], id);
      forall k | 0 <= k < |rest|
        ensures rest[k].id != songs[0].id
      {
        var m :| 0 <= m < |songs[1..]| && songs[1..][m] == rest[k];
        assert songs[m + 1] == rest[k];
      }
    }
  }

  /** Without a second entry for `song.id`, dropping its first entry is the same as filtering it out. */
  lemma {:induction false} RemoveFirstIsOthers(songs: seq<Song>, i: nat)
    requires i < |songs| && UniqueIds(songs)
    requires forall k :: 0 <= k < i ==> songs[k].id != songs[i].id
    ensures songs[..i] + songs[i + 1..] == Others(songs, songs[i].id)
  {
    var id := songs[i].id;
    if i == 0 {
      OthersNone(songs[1..], id);
      assert songs[..0] + songs[1..] == songs[1..];
    } else {
      assert songs[1..][i - 1] == songs[i];
      forall k | 0 <= k < |songs[1..]| && k != i - 1
        ensures songs[1..][k].id != songs[1..][i - 1].id
      {
        assert songs[1..][k] == songs[k + 1];
      }
      assert UniqueIds(songs[1..]) by {
        forall a, b | 0 <= a < b < |songs[1..]|
          ensures songs[1..][a].id != songs[1..][b].id
        {
          assert songs[1..][a] == songs[a + 1] && songs[1..][b] == songs[b + 1];
        }
      }
      RemoveFirstIsOthers(songs[1..], i - 1);
      assert songs[..i] + songs[i + 1..] == [songs[0]] + (songs[1..][..i - 1] + songs[1..][i..]);
    }
  }

  lemma {:induction false} OthersNone(songs: seq<Song>, id: int)
    requires forall k :: 0 <= k < |songs| ==> songs[k].id != id
    ensures Others(songs, id) == songs
  {
    if songs != [] {
      OthersNone(songs[1..], id);
      assert [songs[0]] + songs[1..] == songs;
    }
  }

  /** The first `MaxRecentlyPlayed` entries. */
  function Truncated(songs: seq<Song>): (r: seq<Song>)
    ensures |r| <= MaxRecentlyPlayed
    ensures |songs| <= MaxRecentlyPlayed ==> r == songs
    ensures |songs| > MaxRecentlyPlayed ==> r == songs[..MaxRecentlyPlayed]
  {
    if |songs| > MaxRecentlyPlayed then songs[..MaxRecentlyPlayed] else songs
  }

  /**
   * The history after playing `song`: `song` first, then the other entries
   * in their old order without any entry of the same id, at most
   * `MaxRecentlyPlayed` in all.
   */
  function Recorded(recent: seq<Song>, song: Song): seq<Song> {
    Truncated([song] + Others(recent, song.id))
  }

  /** The played song leads the history, which stays short and free of repeated ids. */
  lemma RecordedShape(recent: seq<Song>, song: Song)
    requires UniqueIds(recent)
    ensures |Recorded(recent, song)| >= 1 && Recorded(recent, song)[0] == song
    ensures |Recorded(recent, song)| <= MaxRecentlyPlayed
    ensures UniqueIds(Recorded(recent, song))
    ensures forall s :: s in Recorded(recent, song) ==> s == song || (s in recent && s.id != song.id)
  {
    OthersUnique(recent, song.id);
    var full := [song] + Others(recent, song.id);
    assert UniqueIds(full) by {
      forall a, b | 0 <= a < b < |full|
        ensures full[a].id != full[b].id
      {
        if a == 0 {
          assert full[b] == Others(recent, song.id)[b - 1];
        } else {
          assert full[a] == Others(recent, song.id)[a - 1] && full[b] == Others(recent, song.id)[b - 1];
        }
      }
    }
    forall s | s in Recorded(recent, song)
      ensures s == song || (s in recent && s.id != song.id)
    {
      var k :| 0 <= k < |Recorded(recent, song)| && Recorded(recent, song)[k] == s;
      if k > 0 {
        assert s == Others(recent, song.id)[k - 1];
      }
    }
  }

  /** Playing the song that is already first leaves the history as it was. */
  lemma RecordedAgain(recent: seq<Song>, song: Song)
    requires UniqueIds(recent) && |recent| <= MaxRecentlyPlayed
    requires recent != [] && recent[0] == song
    ensures Recorded(recent, song) == recent
  {
    forall k | 0 <= k < |recent[1..]|
      ensures recent[1..][k].id != song.id
    {
      assert recent[1..][k] == recent[k + 1];
    }
    OthersNone(recent[1..], song.id);
    assert recent == [recent[0]] + recent[1..];
  }

  /** `remove(at: i)`: the queue without its `i`-th song, the rest in order. */
  function RemoveAt(songs: seq<Song>, i: int): (r: seq<Song>)
    requires 0 <= i < |songs|
    ensures |r| == |songs| - 1
    ensures multiset(r) + multiset{songs[i]} == multiset(songs)
    ensures forall k :: 0 <= k < i ==> r[k] == songs[k]
    ensures forall k :: i <= k < |r| ==> r[k] == songs[k + 1]
  {
    assert songs == songs[..i] + [songs[i]] + songs[i + 1..];
    songs[..i] + songs[i + 1..]
  }

  /** `firstIndex(where: { $0.id == id })`. */
  function FirstIndexOfId(songs: seq<Song>, id: int): (r: Option<nat>)
    ensures r.Some? ==>
      r.value < |songs| && songs[r.value].id == id && forall k :: 0 <= k < r.value ==> songs[k].id != id
    ensures r.None? ==> forall k :: 0 <= k < |songs| ==> songs[k].id != id
  {
    if songs == [] then None
    else if songs[0].id == id then Some(0)
    else match FirstIndexOfId(songs[1..], id)
      case None => None
      case Some(i) => Some(i + 1)
  }

  /**
   * `streamURL(for:)`: the downloaded file if there is one, else the API
   * service's stream endpoint, else the same endpoint on the saved (or
   * default) server. The model's URL construction never fails.
   */
  function StreamURL(song: Song, offlineFile: Option<string>, apiBase: Option<string>, saved: Option<string>)
    : (url: string)
    ensures offlineFile.Some? ==> url == offlineFile.value
    ensures offlineFile.None? ==> url == GetStreamURL(apiBase.GetOr(ServerBase(saved)), song)
    ensures offlineFile.None? ==>
      var base := apiBase.GetOr(ServerBase(saved)) + StreamPath;
      StartsWith(url, base) && ParseInt(url[|base|..]) == Some(song.id)
  {
    if offlineFile.Some? then offlineFile.value
    else if apiBase.Some? then GetStreamURL(apiBase.value, song)
    else ServerBase(saved) + "/api/library/stream/" + IntToString(song.id)
  }

  class AudioPlayerManager {
    var currentSong: Option<Song>
    var isPlaying: bool
    var currentTime: real
    var duration: real
    var queue: seq<Song>
    var currentIndex: int
    var currentPlaylist: Option<Playlist>
    var recentlyPlayed: seq<Song>
    var libraryCache: seq<Song>
    var isLoadingRecommendations: bool
    /** The songs handed to the player, in order. */
    ghost var started: seq<Song>
    /** The positions the player was asked to seek to, in order. */
    ghost var seeks: seq<real>

    /**
     * The cursor points into a non-empty queue at the current song, and is 0
     * with no current song when the queue is empty; the history is short
     * and has no repeated id.
     */
    ghost predicate Valid()
      reads this
    {
      && (queue == [] ==> currentSong == None && currentIndex == 0)
      && (queue != [] ==> 0 <= currentIndex < |queue| && currentSong == Some(queue[currentIndex]))
      && UniqueIds(recentlyPlayed) && |recentlyPlayed| <= MaxRecentlyPlayed
    }

    constructor ()
      ensures Valid()
      ensures queue == [] && currentSong == None && currentIndex == 0 && currentPlaylist == None
      ensures !isPlaying && recentlyPlayed == [] && libraryCache == [] && !isLoadingRecommendations
      ensures started == [] && seeks == []
    {
      currentSong := None;
      isPlaying := false;
      currentTime := 0.0;
      duration := 0.0;
      queue := [];
      currentIndex := 0;
      currentPlaylist := None;
      recentlyPlayed := [];
      libraryCache := [];
      isLoadingRecommendations := false;
      started := [];
      seeks := [];
    }

    /** `play()`: resumes the player. */
    method Resume()
      modifies this`isPlaying
      ensures isPlaying
    {
      isPlaying := true;
    }

    /** `pause()`. */
    method Pause()
      modifies this`isPlaying
      ensures !isPlaying
    {
      isPlaying := false;
    }

    /** `seek(to:)`. */
    method Seek(time: real)
      modifies this`seeks
      ensures seeks == old(seeks) + [time]
    {
      seeks := seeks + [time];
    }

    /**
     * `recordPlay(_:)`: the first entry with the song's id is removed, the
     * song is put in front, and the list is cut to `MaxRecentlyPlayed`.
     * With no repeated id beforehand this is `Recorded`.
     */
    method RecordPlay(song: Song)
      modifies this`recentlyPlayed
      ensures UniqueIds(old(recentlyPlayed)) ==> recentlyPlayed == Recorded(old(recentlyPlayed), song)
      ensures 1 <= |recentlyPlayed| <= MaxRecentlyPlayed && recentlyPlayed[0] == song
    {
      var existing := FirstIndexOfId(recentlyPlayed, song.id);
      if existing.Some? {
        var i := existing.value;
        if UniqueIds(recentlyPlayed) {
          RemoveFirstIsOthers(recentlyPlayed, i);
        }
        recentlyPlayed := recentlyPlayed[..i] + recentlyPlayed[i + 1..];
      } else if UniqueIds(recentlyPlayed) {
        OthersNone(recentlyPlayed, song.id);
      }
      recentlyPlayed := [song] + recentlyPlayed;
      if |recentlyPlayed| > MaxRecentlyPlayed {
        recentlyPlayed := recentlyPlayed[..MaxRecentlyPlayed];
      }
    }

    /**
     * `playCurrentSong()`: with a current song, records it in the history,
     * resets the clock and hands it to the player, which starts playing.
     */
    method PlayCurrentSong()
      requires UniqueIds(recentlyPlayed) && |recentlyPlayed| <= MaxRecentlyPlayed
      modifies this`recentlyPlayed, this`currentTime, this`duration, this`isPlaying, this`started
      ensures UniqueIds(recentlyPlayed) && |recentlyPlayed| <= MaxRecentlyPlayed
      ensures currentSong.None? ==>
        && recentlyPlayed == old(recentlyPlayed) && started == old(started) && isPlaying == old(isPlaying)
        && currentTime == old(currentTime) && duration == old(duration)
      ensures currentSong.Some? ==>
        && recentlyPlayed == Recorded(old(recentlyPlayed), currentSong.value)
        && started == old(started) + [currentSong.value]
        && currentTime == 0.0 && duration == 0.0 && isPlaying
    {
      if currentSong.None? {
        return;
      }
      var song := currentSong.value;
      RecordPlay(song);
      RecordedShape(old(recentlyPlayed), song);
      currentTime := 0.0;
      duration := 0.0;
      started := started + [song];
      isPlaying := true;
    }

    /** `play(song:)`: the queue becomes just this song, which starts playing. */
    method PlaySong(song: Song)
      requires Valid()
      modifies this
      ensures Valid()
      ensures queue == [song] && currentIndex == 0 && currentSong == Some(song) && currentPlaylist == None
      ensures isPlaying && started == old(started) + [song] && recentlyPlayed == Recorded(old(recentlyPlayed), song)
      ensures currentTime == 0.0 && duration == 0.0
      ensures seeks == old(seeks) && libraryCache == old(libraryCache)
      ensures isLoadingRecommendations == old(isLoadingRecommendations)
    {
      currentSong := Some(song);
      queue := [song];
      currentIndex := 0;
      currentPlaylist := None;
      PlayCurrentSong();
    }

    /** `playQueue(songs:startAt:playlist:)`; `songs[startAt]` must exist. */
    method PlayQueue(songs: seq<Song>, startAt: int, playlist: Option<Playlist>)
      requires Valid()
      requires 0 <= startAt < |songs|
      modifies this
      ensures Valid()
      ensures queue == songs && currentIndex == startAt && currentSong == Some(songs[startAt])
      ensures currentPlaylist == playlist
      ensures isPlaying && started == old(started) + [songs[startAt]]
      ensures recentlyPlayed == Recorded(old(recentlyPlayed), songs[startAt])
      ensures currentTime == 0.0 && duration == 0.0
      ensures seeks == old(seeks) && libraryCache == old(libraryCache)
      ensures isLoadingRecommendations == old(isLoadingRecommendations)
    {
      queue := songs;
      currentIndex := startAt;
      currentSong := Some(songs[startAt]);
      currentPlaylist := playlist;
      PlayCurrentSong();
    }

    /**
     * `handleQueueCompletion()`, up to the request: unless recommendations
     * are already loading, marks them as loading; `requested` says whether
     * the caller goes on to compute them.
     */
    method HandleQueueCompletion() returns (requested: bool)
      modifies this`isLoadingRecommendations
      ensures requested <==> !old(isLoadingRecommendations)
      ensures isLoadingRecommendations
    {
      if isLoadingRecommendations {
        return false;
      }
      isLoadingRecommendations := true;
      requested := true;
    }

    /**
     * `nextTrack()`: on an empty queue playback stops with no current song;
     * before the last song the cursor moves on and the next song plays; at
     * the last song the queue is left as it is and recommendations are
     * requested.
     */
    method NextTrack() returns (requested: bool)
      requires Valid()
      modifies this
      ensures Valid()
      ensures queue == old(queue) && currentPlaylist == old(currentPlaylist) && seeks == old(seeks)
      ensures libraryCache == old(libraryCache)
      ensures old(queue) == [] ==>
        && !isPlaying && currentSong == None && currentIndex == 0 && !requested && started == old(started)
        && recentlyPlayed == old(recentlyPlayed) && isLoadingRecommendations == old(isLoadingRecommendations)
        && currentTime == old(currentTime) && duration == old(duration)
      ensures old(queue) != [] && old(currentIndex) < |old(queue)| - 1 ==>
        && currentIndex == old(currentIndex) + 1 && currentSong == Some(queue[currentIndex])
        && isPlaying && started == old(started) + [queue[currentIndex]] && !requested
        && recentlyPlayed == Recorded(old(recentlyPlayed), queue[currentIndex])
        && currentTime == 0.0 && duration == 0.0
        && isLoadingRecommendations == old(isLoadingRecommendations)
      ensures old(queue) != [] && old(currentIndex) == |old(queue)| - 1 ==>
        && currentIndex == old(currentIndex) && currentSong == old(currentSong)
        && isPlaying == old(isPlaying) && started == old(started)
        && recentlyPlayed == old(recentlyPlayed) && currentTime == old(currentTime) && duration == old(duration)
        && (requested <==> !old(isLoadingRecommendations)) && isLoadingRecommendations
    {
      requested := false;
      if queue == [] {
        Pause();
        currentSong := None;
        currentIndex := 0;
        return;
      }
      if currentIndex < |queue| - 1 {
        currentIndex := currentIndex + 1;
        currentSong := Some(queue[currentIndex]);
        PlayCurrentSong();
      } else {
        requested := HandleQueueCompletion();
      }
    }

    /**
     * `previousTrack()`: more than 3 seconds into a song, or at the start of
     * the queue, the song restarts; otherwise the cursor moves back and the
     * previous song plays.
     */
    method PreviousTrack()
      requires Valid()
      modifies this
      ensures Valid()
      ensures queue == old(queue) && currentPlaylist == old(currentPlaylist)
      ensures libraryCache == old(libraryCache) && isLoadingRecommendations == old(isLoadingRecommendations)
      ensures old(currentTime) > 3.0 || old(currentIndex) == 0 ==>
        && currentIndex == old(currentIndex) && currentSong == old(currentSong)
        && seeks == old(seeks) + [0.0] && started == old(started) && isPlaying == old(isPlaying)
        && recentlyPlayed == old(recentlyPlayed) && currentTime == old(currentTime) && duration == old(duration)
      ensures old(currentTime) <= 3.0 && old(currentIndex) > 0 ==>
        && currentIndex == old(currentIndex) - 1 && currentSong == Some(queue[currentIndex])
        && isPlaying && started == old(started) + [queue[currentIndex]] && seeks == old(seeks)
        && recentlyPlayed == Recorded(old(recentlyPlayed), queue[currentIndex])
        && currentTime == 0.0 && duration == 0.0
    {
      if currentTime > 3.0 {
        Seek(0.0);
      } else if currentIndex > 0 {
        currentIndex := currentIndex - 1;
        currentSong := Some(queue[currentIndex]);
        PlayCurrentSong();
      } else {
        Seek(0.0);
      }
    }

    /**
     * `removeCurrentSongFromQueue()`: the song at the cursor leaves the
     * queue. An emptied queue stops playback and clears the current song
     * and playlist; otherwise the cursor stays (or moves to the new last
     * song) and that song plays. An empty queue is left alone.
     */
    method RemoveCurrentSongFromQueue()
      requires Valid()
      modifies this
      ensures Valid()
      ensures seeks == old(seeks) && libraryCache == old(libraryCache)
      ensures isLoadingRecommendations == old(isLoadingRecommendations)
      ensures old(queue) == [] ==>
        && queue == [] && currentSong == old(currentSong) && currentIndex == old(currentIndex)
        && currentPlaylist == old(currentPlaylist) && isPlaying == old(isPlaying) && started == old(started)
        && recentlyPlayed == old(recentlyPlayed) && currentTime == old(currentTime) && duration == old(duration)
      ensures old(queue) != [] ==> queue == RemoveAt(old(queue), old(currentIndex))
      ensures old(queue) != [] && queue == [] ==>
        && currentSong == None && currentIndex == 0 && currentPlaylist == None && !isPlaying
        && currentTime == 0.0 && duration == 0.0 && started == old(started)
        && recentlyPlayed == old(recentlyPlayed)
      ensures old(queue) != [] && queue != [] ==>
        && currentIndex == (if old(currentIndex) < |queue| then old(currentIndex) else |queue| - 1)
        && currentSong == Some(queue[currentIndex]) && currentPlaylist == old(currentPlaylist)
        && isPlaying && started == old(started) + [queue[currentIndex]]
        && recentlyPlayed == Recorded(old(recentlyPlayed), queue[currentIndex])
        && currentTime == 0.0 && duration == 0.0
    {
      if queue == [] {
        return;
      }
      queue := RemoveAt(queue, currentIndex);
      if queue == [] {
        Pause();
        currentSong := None;
        currentIndex := 0;
        duration := 0.0;
        currentTime := 0.0;
        currentPlaylist := None;
        return;
      }
      if currentIndex >= |queue| {
        currentIndex := if |queue| - 1 > 0 then |queue| - 1 else 0;
      }
      currentSong := Some(queue[currentIndex]);
      PlayCurrentSong();
    }

    /**
     * The library `loadRecommendations` ranks: the cached library if it has
     * songs; else, without an API service, the downloaded songs; else what
     * fetching the library delivered (`fetched`, which is then cached), or
     * the downloaded songs when the fetch failed.
     */
    method LoadLibrary(hasAPIService: bool, fetched: Option<seq<Song>>, offlineSongs: seq<Song>)
      returns (library: seq<Song>)
      modifies this`libraryCache
      ensures old(libraryCache) != [] ==> library == old(libraryCache) && libraryCache == old(libraryCache)
      ensures old(libraryCache) == [] && !hasAPIService ==> library == offlineSongs && libraryCache == []
      ensures old(libraryCache) == [] && hasAPIService ==>
        library == fetched.GetOr(offlineSongs) && libraryCache == fetched.GetOr([])
    {
      if libraryCache != [] {
        return libraryCache;
      }
      if !hasAPIService {
        return offlineSongs;
      }
      match fetched {
        case Some(songs) =>
          libraryCache := songs;
          library := songs;
        case None =>
          library := offlineSongs;
      }
    }

    /**
     * The completion of `handleQueueCompletion`: loading is over; no
     * recommendations pause playback; if the cursor has meanwhile moved off
     * the last song nothing else happens; otherwise the recommendations are
     * appended and the first of them plays, outside any playlist.
     */
    method RecommendationsArrived(recommendations: seq<Song>)
      requires Valid()
      modifies this
      ensures Valid()
      ensures !isLoadingRecommendations
      ensures seeks == old(seeks) && libraryCache == old(libraryCache)
      ensures recommendations == [] ==>
        && queue == old(queue) && currentIndex == old(currentIndex) && !isPlaying && started == old(started)
        && currentSong == old(currentSong) && currentPlaylist == old(currentPlaylist)
        && recentlyPlayed == old(recentlyPlayed) && currentTime == old(currentTime) && duration == old(duration)
      ensures recommendations != [] && old(currentIndex) < |old(queue)| - 1 ==>
        && queue == old(queue) && currentIndex == old(currentIndex) && isPlaying == old(isPlaying)
        && started == old(started) && currentSong == old(currentSong) && currentPlaylist == old(currentPlaylist)
        && recentlyPlayed == old(recentlyPlayed) && currentTime == old(currentTime) && duration == old(duration)
      ensures recommendations != [] && old(currentIndex) >= |old(queue)| - 1 ==>
        && queue == old(queue) + recommendations && currentIndex == |old(queue)|
        && currentSong == Some(recommendations[0]) && currentPlaylist == None
        && isPlaying && started == old(started) + [recommendations[0]]
        && recentlyPlayed == Recorded(old(recentlyPlayed), recommendations[0])
        && currentTime == 0.0 && duration == 0.0
    {
      isLoadingRecommendations := false;
      if recommendations == [] {
        Pause();
        return;
      }
      if !(currentIndex >= |queue| - 1) {
        return;
      }
      var nextIndex := |queue|;
      queue := queue + recommendations;
      currentIndex := nextIndex;
      currentPlaylist := None;
      currentSong := Some(queue[currentIndex]);
      PlayCurrentSong();
    }
  }
}
