/**
 * The play queue shared by the player's two playback slices: the track ids
 * of a playlist, `shuffled` (a play order given as indices into the tracks)
 * and `current`. `shuffleArray` is random; its result is a parameter that
 * must be a rearrangement of its input.
 */
module Queues {
  import opened Wrappers
  import opened JsArray

  datatype Queue = Queue(current: int, tracks: seq<string>, shuffled: seq<int>, playlistId: string)

  /** `Array.from(Array(n).keys())`: the indices 0 .. n-1. */
  function Range(n: nat): (r: seq<int>)
    ensures |r| == n
    ensures forall i :: 0 <= i < n ==> r[i] == i
  {
    seq(n, i => i)
  }

  /** `order` is a possible result of `shuffleArray(xs)`. */
  predicate ShuffleOf(order: seq<int>, xs: seq<int>)
  {
    multiset(order) == multiset(xs)
  }

  /** The indices `startQueue` hands to `shuffleArray`: all of them but the chosen one. */
  function StartRest(n: nat, trackIndex: int): seq<int>
  {
    Splice(Range(n), trackIndex, 1, [])
  }

  /** `startQueue`: the chosen track first, then the shuffled rest; `current` is the chosen index. */
  function StartQueue(tracks: seq<string>, trackId: string, playlistId: string, order: seq<int>): Queue
  {
    var trackIndex := IndexOf(tracks, trackId);
    Queue(trackIndex, tracks, [trackIndex] + order, playlistId)
  }

  /**
   * When the track is in the list, the play order is a permutation of all
   * indices with the chosen one first, and `current` names the track.
   */
  lemma StartQueuePermutation(tracks: seq<string>, trackId: string, playlistId: string, order: seq<int>)
    requires trackId in tracks
    requires ShuffleOf(order, StartRest(|tracks|, IndexOf(tracks, trackId)))
    ensures var q := StartQueue(tracks, trackId, playlistId, order);
      && multiset(q.shuffled) == multiset(Range(|tracks|))
      && q.shuffled[0] == q.current
      && 0 <= q.current < |tracks| && q.tracks[q.current] == trackId
      && q.tracks == tracks && q.playlistId == playlistId
  {
    var k := IndexOf(tracks, trackId);
    StartRestMultiset(|tracks|, k);
  }

  /** Putting the chosen index back in front of the rest gives every index once. */
  lemma StartRestMultiset(n: nat, k: int)
    requires 0 <= k < n
    ensures multiset([k] + StartRest(n, k)) == multiset(Range(n))
  {
    var r := Range(n);
    assert StartRest(n, k) == r[..k] + r[k + 1..];
    assert r == r[..k] + [k] + r[k + 1..];
    calc {
      multiset([k] + StartRest(n, k));
      multiset([k]) + multiset(r[..k]) + multiset(r[k + 1..]);
      multiset(r[..k] + [k] + r[k + 1..]);
    }
  }

  /**
   * When the track is not in the list, `indexOf` gives -1, `splice(-1, 1)`
   * drops the last index, and -1 is put first: the queue has no current track
   * and the last track is left out of the play order.
   */
  lemma StartQueueUnknownTrack(tracks: seq<string>, trackId: string, playlistId: string, order: seq<int>)
    requires trackId !in tracks && |tracks| > 0
    requires ShuffleOf(order, StartRest(|tracks|, IndexOf(tracks, trackId)))
    ensures var q := StartQueue(tracks, trackId, playlistId, order);
      && q.current == -1 && q.shuffled[0] == -1
      && multiset(q.shuffled) == multiset(Range(|tracks| - 1)) + multiset{-1}
  {
    var n := |tracks|;
    assert StartRest(n, -1) == Range(n)[..n - 1];
    assert Range(n)[..n - 1] == Range(n - 1);
  }

  /** `updateQueue`: set `current` when there is a queue. */
  function UpdateQueue(q: Option<Queue>, current: int): (r: Option<Queue>)
    ensures r.None? <==> q.None?
    ensures r.Some? ==> r.value == q.value.(current := current)
  {
    match q
    case None => None
    case Some(queue) => Some(queue.(current := current))
  }

  /** The play order without the entry `index`, which `shuffleArray` then rearranges. */
  function ShuffleRest(shuffled: seq<int>, index: int): seq<int>
  {
    Splice(shuffled, IndexOf(shuffled, index), 1, [])
  }

  /** Put `index` first and the shuffled rest of the play order after it. */
  function Reshuffle(shuffled: seq<int>, index: int, order: seq<int>): seq<int>
  {
    [index] + order
  }

  /** Reshuffling keeps the play order a permutation and puts the given index first. */
  lemma ReshufflePermutes(shuffled: seq<int>, index: int, order: seq<int>)
    requires index in shuffled
    requires ShuffleOf(order, ShuffleRest(shuffled, index))
    ensures multiset(Reshuffle(shuffled, index, order)) == multiset(shuffled)
    ensures Reshuffle(shuffled, index, order)[0] == index
  {
    var k := IndexOf(shuffled, index);
    assert ShuffleRest(shuffled, index) == shuffled[..k] + shuffled[k + 1..];
    assert shuffled == shuffled[..k] + [index] + shuffled[k + 1..];
  }

  /**
   * `moveQueueIfNeeded` applied to a queue: reorder the tracks and follow the
   * current track to its new index (-1 when `current` named no track).
   */
  function MoveQueue(q: Queue, active: string, over: string): Queue
  {
    var tracks := Move(q.tracks, active, over);
    var current := if 0 <= q.current < |q.tracks| then IndexOf(tracks, q.tracks[q.current]) else -1;
    q.(tracks := tracks, current := current)
  }

  /**
   * With both ids in the queue, moving gives a permutation of the tracks,
   * `active` lands at `over`'s old index, and `current` still names the
   * same track.
   */
  lemma MoveQueueKeepsCurrent(q: Queue, active: string, over: string)
    requires active in q.tracks && over in q.tracks
    requires 0 <= q.current < |q.tracks|
    ensures var r := MoveQueue(q, active, over);
      && multiset(r.tracks) == multiset(q.tracks)
      && r.tracks[IndexOf(q.tracks, over)] == active
      && 0 <= r.current < |r.tracks| && r.tracks[r.current] == q.tracks[q.current]
      && r.shuffled == q.shuffled && r.playlistId == q.playlistId
  {
    MovePermutes(q.tracks, active, over);
    var tracks := Move(q.tracks, active, over);
    assert q.tracks[q.current] in multiset(tracks);
  }

  /** The play order with every index raised by one (`shuffled.map(index => index + 1)`). */
  function Bump(s: seq<int>): (r: seq<int>)
    ensures |r| == |s|
    ensures forall k :: 0 <= k < |s| ==> r[k] == s[k] + 1
  {
    seq(|s|, k requires 0 <= k < |s| => s[k] + 1)
  }

  lemma BumpCounts(s: seq<int>)
    ensures forall x :: multiset(Bump(s))[x] == multiset(s)[x - 1]
  {
    forall x
      ensures multiset(Bump(s))[x] == multiset(s)[x - 1]
    {
      BumpCountAt(s, x);
    }
  }

  /** Each index `x` occurs in the raised order as often as `x - 1` did before. */
  lemma {:induction false} BumpCountAt(s: seq<int>, x: int)
    ensures multiset(Bump(s))[x] == multiset(s)[x - 1]
  {
    if |s| > 0 {
      var b := Bump(s);
      BumpCountAt(s[1..], x);
      assert b[1..] == Bump(s[1..]);
      HeadCount(b, x);
      HeadCount(s, x - 1);
    }
  }

  /** The count of `x` in a non-empty list: one for the head if it is `x`, plus its count in the tail. */
  lemma HeadCount(s: seq<int>, x: int)
    requires |s| > 0
    ensures multiset(s)[x] == (if s[0] == x then 1 else 0) + multiset(s[1..])[x]
  {
    assert s == [s[0]] + s[1..];
  }

  /** `addTrackToQueueIfNeeded` applied to a queue: the track goes first and every index moves up one. */
  function AddTrack(q: Queue, trackId: string): Queue
  {
    q.(tracks := [trackId] + q.tracks, shuffled := [0] + Bump(q.shuffled), current := q.current + 1)
  }

  /** Raising every index by one keeps two rearrangements of each other rearrangements. */
  lemma BumpSameCounts(a: seq<int>, b: seq<int>)
    requires multiset(a) == multiset(b)
    ensures multiset(Bump(a)) == multiset(Bump(b))
  {
    BumpCounts(a);
    BumpCounts(b);
    forall x ensures multiset(Bump(a))[x] == multiset(Bump(b))[x] {
      assert multiset(a)[x - 1] == multiset(b)[x - 1];
    }
  }

  lemma BumpRange(n: nat)
    ensures Range(n + 1) == [0] + Bump(Range(n))
  {
    var r := [0] + Bump(Range(n));
    assert forall i :: 0 <= i < n + 1 ==> r[i] == i;
  }

  /** Adding a track keeps the play order a permutation of all indices. */
  lemma AddTrackPermutes(q: Queue, trackId: string)
    requires multiset(q.shuffled) == multiset(Range(|q.tracks|))
    ensures multiset(AddTrack(q, trackId).shuffled) == multiset(Range(|q.tracks| + 1))
  {
    var n := |q.tracks|;
    BumpSameCounts(q.shuffled, Range(n));
    BumpRange(n);
  }

  /**
   * Adding a track plays the new track first, keeps the order of the old
   * tracks after it, and `current` still names the same track.
   */
  lemma AddTrackKeepsOrder(q: Queue, trackId: string)
    ensures var r := AddTrack(q, trackId);
      && r.tracks[r.shuffled[0]] == trackId
      && (forall k :: 0 <= k < |q.shuffled| && 0 <= q.shuffled[k] < |q.tracks| ==>
            0 <= r.shuffled[k + 1] < |r.tracks| && r.tracks[r.shuffled[k + 1]] == q.tracks[q.shuffled[k]])
      && (0 <= q.current < |q.tracks| ==> r.tracks[r.current] == q.tracks[q.current])
  {
    var r := AddTrack(q, trackId);
    forall k | 0 <= k < |q.shuffled| && 0 <= q.shuffled[k] < |q.tracks|
      ensures 0 <= r.shuffled[k + 1] < |r.tracks| && r.tracks[r.shuffled[k + 1]] == q.tracks[q.shuffled[k]]
    {
      assert r.shuffled[k + 1] == q.shuffled[k] + 1;
    }
  }
}
