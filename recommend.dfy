/**
 * `computeRecommendations(from:count:queueSnapshot:recentSnapshot:)` in
 * Services/AudioPlayerManager.swift: library songs not already queued are
 * scored by how well their artist and album match the queue and the
 * recently played songs, perturbed by a random amount in [0, 5), sorted by
 * score, highest first, and cut to `count`.
 *
 * The random perturbation of the i-th library song is `noise[i]`.
 */
module Recommend {
  import opened Text
  import opened SongModel

  /** A library song and its score. */
  datatype Scored = Scored(song: Song, score: real)

  /** The sets the scores are computed against, all taken from the snapshots. */
  datatype Context = Context(
    queueIds: set<int>,
    queueArtists: set<string>,
    queueAlbums: set<string>,
    recentArtists: set<string>)

  /** Artist names and album titles are compared lowercased. */
  function ArtistKey(s: Song): string {
    Lower(s.artist)
  }

  /** The queue's ids, artists and albums and the recently played artists. */
  function MakeContext(queue: seq<Song>, recent: seq<Song>): (ctx: Context)
    ensures forall id :: id in ctx.queueIds <==> exists i :: 0 <= i < |queue| && queue[i].id == id
    ensures forall a :: a in ctx.queueArtists <==> exists i :: 0 <= i < |queue| && ArtistKey(queue[i]) == a
    ensures forall a :: a in ctx.queueAlbums <==>
      exists i :: 0 <= i < |queue| && queue[i].album.Some? && Lower(queue[i].album.value) == a
    ensures forall a :: a in ctx.recentArtists <==> exists i :: 0 <= i < |recent| && ArtistKey(recent[i]) == a
  {
    Context(
      set s | s in queue :: s.id,
      set s | s in queue :: ArtistKey(s),
      set s | s in queue && s.album.Some? :: Lower(s.album.value),
      set s | s in recent :: ArtistKey(s))
  }

  /** `allArtists`: the artists of the queue and of the recently played songs. */
  function AllArtists(ctx: Context): (r: set<string>)
    ensures ctx.queueArtists <= r && ctx.recentArtists <= r
  {
    ctx.queueArtists + ctx.recentArtists
  }

  predicate AlbumMatches(ctx: Context, s: Song) {
    s.album.Some? && Lower(s.album.value) in ctx.queueAlbums
  }

  /** A song by an artist already in the queue. */
  predicate ByQueueArtist(ctx: Context, s: Song) {
    ArtistKey(s) in ctx.queueArtists
  }

  /** A song whose artist and album match nothing in the queue or the recent history. */
  predicate Unmatched(ctx: Context, s: Song) {
    ArtistKey(s) !in AllArtists(ctx) && !AlbumMatches(ctx, s)
  }

  /**
   * The score of one song: 10 for a known artist, 15 more for an artist in
   * the queue, 8 for an album in the queue, plus the perturbation. A song
   * by a queue artist therefore scores at least 25, an unmatched one less
   * than 5.
   */
  function Score(ctx: Context, s: Song, noise: real): (r: real)
    ensures 0.0 <= noise && ByQueueArtist(ctx, s) ==> r >= 25.0
    ensures noise < 5.0 && Unmatched(ctx, s) ==> r < 5.0
    ensures Unmatched(ctx, s) ==> r == noise
  {
    (if ArtistKey(s) in AllArtists(ctx) then 10.0 else 0.0)
    + (if ArtistKey(s) in ctx.queueArtists then 15.0 else 0.0)
    + (if AlbumMatches(ctx, s) then 8.0 else 0.0)
    + noise
  }

  /**
   * The `scored` array before sorting: every library song not in the queue,
   * in library order, with its score.
   */
  function Candidates(library: seq<Song>, ctx: Context, noise: seq<real>): (c: seq<Scored>)
    requires |noise| == |library|
    ensures |c| <= |library|
  {
    if library == [] then []
    else
      var n := |library| - 1;
      var rest := Candidates(library[..n], ctx, noise[..n]);
      if library[n].id in ctx.queueIds then rest
      else rest + [Scored(library[n], Score(ctx, library[n], noise[n]))]
  }

  /** Every candidate is a library song outside the queue, scored with its own perturbation. */
  lemma {:induction false} CandidatesSound(library: seq<Song>, ctx: Context, noise: seq<real>, k: int)
    requires |noise| == |library|
    requires 0 <= k < |Candidates(library, ctx, noise)|
    ensures exists i :: (0 <= i < |library| && library[i] == Candidates(library, ctx, noise)[k].song
      && library[i].id !in ctx.queueIds
      && Candidates(library, ctx, noise)[k].score == Score(ctx, library[i], noise[i]))
  {
    var n := |library| - 1;
    var rest := Candidates(library[..n], ctx, noise[..n]);
    if k < |rest| {
      CandidatesSound(library[..n], ctx, noise[..n], k);
      var i :| 0 <= i < n && library[..n][i] == rest[k].song && library[..n][i].id !in ctx.queueIds
        && rest[k].score == Score(ctx, library[..n][i], noise[..n][i]);
      assert library[i] == library[..n][i] && noise[i] == noise[..n][i];
    } else {
      assert library[n] == Candidates(library, ctx, noise)[k].song;
    }
  }

  /** Every library song outside the queue is a candidate, with its score. */
  lemma {:induction false} CandidatesComplete(library: seq<Song>, ctx: Context, noise: seq<real>, i: int)
    requires |noise| == |library|
    requires 0 <= i < |library| && library[i].id !in ctx.queueIds
    ensures Scored(library[i], Score(ctx, library[i], noise[i])) in Candidates(library, ctx, noise)
  {
    var n := |library| - 1;
    if i < n {
      CandidatesComplete(library[..n], ctx, noise[..n], i);
      assert library[..n][i] == library[i] && noise[..n][i] == noise[i];
    }
  }

  /** Scores never increase along `s`. */
  ghost predicate Descending(s: seq<Scored>) {
    forall i, j :: 0 <= i < j < |s| ==> s[i].score >= s[j].score
  }

  /** Inserts `x` before the first element scoring less than it; equal scores keep their order. */
  function Insert(x: Scored, s: seq<Scored>): (r: seq<Scored>)
    ensures multiset(r) == multiset(s) + multiset{x}
    ensures |r| == |s| + 1
  {
    if s == [] then [x]
    else if x.score >= s[0].score then [x] + s
    else
      assert s == [s[0]] + s[1..];
      [s[0]] + Insert(x, s[1..])
  }

  lemma {:induction false} InsertDescending(x: Scored, s: seq<Scored>)
    requires Descending(s)
    ensures Descending(Insert(x, s))
  {
    if s != [] && x.score < s[0].score {
      InsertDescending(x, s[1..]);
      var r := Insert(x, s[1..]);
      forall k | 0 <= k < |r|
        ensures s[0].score >= r[k].score
      {
        assert r[k] in multiset(r);
        assert r[k] in multiset(s[1..]) + multiset{x};
        if r[k] != x {
          assert r[k] in s[1..];
        }
      }
    }
  }

  /**
   * `scored.sort { $0.1 > $1.1 }`: the candidates ordered by score, highest
   * first. Swift's sort does not promise an order among equal scores; this
   * one keeps the earlier candidate first.
   */
  function SortByScore(s: seq<Scored>): (r: seq<Scored>)
    ensures multiset(r) == multiset(s)
    ensures |r| == |s|
  {
    if s == [] then []
    else
      assert s == [s[0]] + s[1..];
      Insert(s[0], SortByScore(s[1..]))
  }

  /** The sorted list is ordered by score. */
  lemma {:induction false} SortByScoreDescending(s: seq<Scored>)
    ensures Descending(SortByScore(s))
  {
    if s != [] {
      SortByScoreDescending(s[1..]);
      InsertDescending(s[0], SortByScore(s[1..]));
    }
  }

  /** The candidates of a library, ranked. */
  function Ranked(library: seq<Song>, queue: seq<Song>, recent: seq<Song>, noise: seq<real>): seq<Scored>
    requires |noise| == |library|
  {
    SortByScore(Candidates(library, MakeContext(queue, recent), noise))
  }

  /** The songs of the first `count` ranked candidates. */
  function Recommendations(library: seq<Song>, count: nat, queue: seq<Song>, recent: seq<Song>, noise: seq<real>)
    : (r: seq<Song>)
    requires |noise| == |library|
    ensures |r| <= count
  {
    var ranked := Ranked(library, queue, recent, noise);
    var n := if count < |ranked| then count else |ranked|;
    seq(n, k requires 0 <= k < n => ranked[k].song)
  }

  predicate NoiseInRange(noise: seq<real>) {
    forall i :: 0 <= i < |noise| ==> 0.0 <= noise[i] < 5.0
  }

  /** A ranked candidate is a library song outside the queue, with the score of its own perturbation. */
  lemma RankedFrom(library: seq<Song>, queue: seq<Song>, recent: seq<Song>, noise: seq<real>, k: int)
    returns (i: int)
    requires |noise| == |library|
    requires 0 <= k < |Ranked(library, queue, recent, noise)|
    ensures 0 <= i < |library| && Ranked(library, queue, recent, noise)[k].song == library[i]
    ensures library[i].id !in MakeContext(queue, recent).queueIds
    ensures Ranked(library, queue, recent, noise)[k].score == Score(MakeContext(queue, recent), library[i], noise[i])
  {
    var ctx := MakeContext(queue, recent);
    var c := Candidates(library, ctx, noise);
    var x := Ranked(library, queue, recent, noise)[k];
    assert x in multiset(c);
    var j :| 0 <= j < |c| && c[j] == x;
    CandidatesSound(library, ctx, noise, j);
    i :| 0 <= i < |library| && library[i] == c[j].song && library[i].id !in ctx.queueIds
      && c[j].score == Score(ctx, library[i], noise[i]);
  }

  /** Ranked candidates are library songs outside the queue. */
  lemma RankedSound(library: seq<Song>, queue: seq<Song>, recent: seq<Song>, noise: seq<real>, k: int)
    requires |noise| == |library|
    requires 0 <= k < |Ranked(library, queue, recent, noise)|
    ensures Ranked(library, queue, recent, noise)[k].song in library
    ensures forall q :: q in queue ==> q.id != Ranked(library, queue, recent, noise)[k].song.id
  {
    var i := RankedFrom(library, queue, recent, noise, k);
  }

  /**
   * The ordering the scores fix: with perturbations in [0, 5), a song by a
   * queue artist ranks before every song that matches nothing.
   */
  lemma QueueArtistsFirst(library: seq<Song>, queue: seq<Song>, recent: seq<Song>, noise: seq<real>, i: int, j: int)
    requires |noise| == |library| && NoiseInRange(noise)
    requires 0 <= i < |Ranked(library, queue, recent, noise)| && 0 <= j < |Ranked(library, queue, recent, noise)|
    requires Unmatched(MakeContext(queue, recent), Ranked(library, queue, recent, noise)[i].song)
    requires ByQueueArtist(MakeContext(queue, recent), Ranked(library, queue, recent, noise)[j].song)
    ensures j < i
  {
    var ranked := Ranked(library, queue, recent, noise);
    SortByScoreDescending(Candidates(library, MakeContext(queue, recent), noise));
    var a := RankedFrom(library, queue, recent, noise, i);
    var b := RankedFrom(library, queue, recent, noise, j);
    assert ranked[i].score < 5.0 && 25.0 <= ranked[j].score;
  }

  /**
   * The scoring loop of `computeRecommendations`: queued songs are skipped,
   * every other song is appended with its score.
   */
  method ScoreLibrary(library: seq<Song>, ctx: Context, noise: seq<real>) returns (scored: seq<Scored>)
    requires |noise| == |library|
    ensures scored == Candidates(library, ctx, noise)
  {
    scored := [];
    for i := 0 to |library|
      invariant scored == Candidates(library[..i], ctx, noise[..i])
    {
      assert library[..i + 1][..i] == library[..i] && noise[..i + 1][..i] == noise[..i];
      var track := library[i];
      if track.id in ctx.queueIds {
        continue;
      }
      var score := 0.0;
      var artist := ArtistKey(track);
      if artist in ctx.queueArtists + ctx.recentArtists {
        score := score + 10.0;
      }
      if artist in ctx.queueArtists {
        score := score + 15.0;
      }
      if track.album.Some? && Lower(track.album.value) in ctx.queueAlbums {
        score := score + 8.0;
      }
      score := score + noise[i];
      scored := scored + [Scored(track, score)];
    }
    assert library[..|library|] == library && noise[..|noise|] == noise;
  }

  /**
   * `computeRecommendations`: at most `count` library songs, none of them
   * queued, the best scored first; nothing for an empty library.
   */
  method ComputeRecommendations(library: seq<Song>, count: nat, queue: seq<Song>, recent: seq<Song>, noise: seq<real>)
    returns (r: seq<Song>)
    requires |noise| == |library|
    ensures r == Recommendations(library, count, queue, recent, noise)
    ensures |r| <= count
    ensures forall k :: 0 <= k < |r| ==> r[k] in library && forall q :: q in queue ==> q.id != r[k].id
    ensures forall k :: 0 <= k < |r| ==> r[k] == Ranked(library, queue, recent, noise)[k].song
    ensures library == [] ==> r == []
  {
    if library == [] {
      return [];
    }
    var ctx := MakeContext(queue, recent);
    var scored := ScoreLibrary(library, ctx, noise);
    if scored == [] {
      return [];
    }
    var ranked := SortByScore(scored);
    var n := if count < |ranked| then count else |ranked|;
    r := seq(n, k requires 0 <= k < n => ranked[k].song);
    forall k | 0 <= k < |r|
      ensures r[k] in library && forall q :: q in queue ==> q.id != r[k].id
    {
      RankedSound(library, queue, recent, noise, k);
    }
  }
}
