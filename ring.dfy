/**
 * The ring buffers of the audio capture path
 * (`src/audioCapture/SharedBuffer.worklet.js`, `StreamSync.worker.js` and
 * `PCMStream.worklet.js`), as values: a buffer's contents are a sequence
 * and a position in it an index. A writer puts items at consecutive
 * positions from its index and wraps to 0 at the end; a reader takes them
 * back in the same order.
 */
module Ring {
  import opened Modular

  /** How many steps after position `p` position `i` comes, going round a ring of `len`. */
  function Offset(i: int, p: int, len: int): (d: int)
    requires 0 <= i < len && 0 <= p < len
    ensures 0 <= d < len
  {
    if i >= p then i - p else i - p + len
  }

  /** The position `d` steps after `p` is `(p + d) % len`, and `Offset` counts those steps back. */
  lemma OffsetOfStep(p: int, d: int, len: int)
    requires 0 <= p < len && 0 <= d < len
    ensures 0 <= (p + d) % len < len
    ensures Offset((p + d) % len, p, len) == d
  {
    if p + d < len {
      ShiftMod(p + d, len);
    } else {
      ShiftMod(p + d - len, len);
    }
  }

  /**
   * `r` is `buf` after writing `input` round the ring from `p`: every
   * position fewer than `|input|` steps after `p` holds the matching item,
   * every other position is as it was.
   */
  ghost predicate RingWritten<T>(r: seq<T>, buf: seq<T>, p: int, input: seq<T>)
    requires 0 <= p < |buf| && |r| == |buf|
  {
    forall i :: 0 <= i < |buf| ==>
      r[i] == (if Offset(i, p, |buf|) < |input| then input[Offset(i, p, |buf|)] else buf[i])
  }

  /** Two buffers written the same way are the same buffer. */
  lemma RingWrittenUnique<T>(r1: seq<T>, r2: seq<T>, buf: seq<T>, p: int, input: seq<T>)
    requires 0 <= p < |buf| && |r1| == |buf| && |r2| == |buf|
    requires RingWritten(r1, buf, p, input) && RingWritten(r2, buf, p, input)
    ensures r1 == r2
  {
  }

  /**
   * A bulk write that does not run past the end goes in place; one that
   * does is cut in two, the first part filling the buffer up to its end
   * and the rest going at the start.
   */
  function RingWrite<T>(buf: seq<T>, p: int, input: seq<T>): (r: seq<T>)
    requires 0 <= p < |buf| && |input| <= |buf|
    ensures |r| == |buf|
  {
    if p + |input| < |buf| then buf[..p] + input + buf[p + |input|..]
    else
      var split := |buf| - p;
      input[split..] + buf[|input| - split..p] + input[..split]
  }

  /** The two-part bulk write is a ring write. */
  lemma RingWriteWrites<T>(buf: seq<T>, p: int, input: seq<T>)
    requires 0 <= p < |buf| && |input| <= |buf|
    ensures RingWritten(RingWrite(buf, p, input), buf, p, input)
  {
    var r := RingWrite(buf, p, input);
    var len, n := |buf|, |input|;
    if p + n < len {
      forall i | 0 <= i < len
        ensures r[i] == (if Offset(i, p, len) < n then input[Offset(i, p, len)] else buf[i])
      {
        if i < p {
          assert r[i] == buf[i];
        } else if i < p + n {
          assert r[i] == input[i - p];
        } else {
          assert r[i] == buf[i];
        }
      }
    } else {
      var split := len - p;
      var s := n - split;
      forall i | 0 <= i < len
        ensures r[i] == (if Offset(i, p, len) < n then input[Offset(i, p, len)] else buf[i])
      {
        if i < s {
          assert r[i] == input[split..][i];
        } else if i < p {
          assert r[i] == buf[|input| - split..p][i - s];
        } else {
          assert r[i] == input[..split][i - p];
        }
      }
    }
  }

  /** The `n` items read round the ring from `p`. */
  function RingRead<T>(buf: seq<T>, p: int, n: nat): (r: seq<T>)
    requires 0 <= p < |buf|
    ensures |r| == n
    ensures forall k :: 0 <= k < n ==> r[k] == buf[(p + k) % |buf|]
  {
    if n == 0 then [] else RingRead(buf, p, n - 1) + [buf[(p + n - 1) % |buf|]]
  }

  /** Reading back from where a write started gives exactly what was written. */
  lemma ReadAfterWrite<T>(buf: seq<T>, p: int, input: seq<T>)
    requires 0 <= p < |buf| && |input| <= |buf|
    ensures RingRead(RingWrite(buf, p, input), p, |input|) == input
  {
    var w := RingWrite(buf, p, input);
    RingWriteWrites(buf, p, input);
    forall k | 0 <= k < |input|
      ensures RingRead(w, p, |input|)[k] == input[k]
    {
      OffsetOfStep(p, k, |buf|);
    }
  }

  /** Items stored one at a time, the pointer moving on by one and wrapping after each. */
  function RingStore<T>(buf: seq<T>, p: int, items: seq<T>): (r: seq<T>)
    requires 0 <= p < |buf|
    ensures |r| == |buf|
  {
    if |items| == 0 then buf
    else RingStore(buf, p, items[..|items| - 1])[(p + |items| - 1) % |buf| := items[|items| - 1]]
  }

  /** Storing one more item writes it `|items|` steps after `p` and leaves the rest as it was. */
  lemma StoreStep<T>(buf: seq<T>, p: int, items: seq<T>, x: T)
    requires 0 <= p < |buf|
    ensures RingStore(buf, p, items + [x]) == RingStore(buf, p, items)[(p + |items|) % |buf| := x]
  {
    assert (items + [x])[..|items|] == items;
  }

  /** The buffer always holds the latest `|buf|` items stored, each `k` steps after `p`. */
  lemma {:induction false} StoreKeepsLatest<T>(buf: seq<T>, p: int, items: seq<T>)
    requires 0 <= p < |buf|
    ensures forall k :: 0 <= k < |items| && |items| - k <= |buf| ==>
      RingStore(buf, p, items)[(p + k) % |buf|] == items[k]
  {
    var n := |items|;
    if n > 0 {
      var front := items[..n - 1];
      StoreKeepsLatest(buf, p, front);
      forall k | 0 <= k < n && n - k <= |buf|
        ensures RingStore(buf, p, items)[(p + k) % |buf|] == items[k]
      {
        if k < n - 1 {
          DistinctMod(p + k, p + n - 1, |buf|);
          assert front[k] == items[k];
        }
      }
    }
  }

  /** Fewer items than the buffer holds leave every position the store did not reach as it was. */
  lemma {:induction false} StoreLeavesRest<T>(buf: seq<T>, p: int, items: seq<T>)
    requires 0 <= p < |buf| && |items| <= |buf|
    ensures forall i :: 0 <= i < |buf| && Offset(i, p, |buf|) >= |items| ==> RingStore(buf, p, items)[i] == buf[i]
  {
    var n := |items|;
    if n > 0 {
      StoreLeavesRest(buf, p, items[..n - 1]);
      OffsetOfStep(p, n - 1, |buf|);
    }
  }

  /** Storing no more items than the buffer holds, one at a time, is the same as one ring write. */
  lemma StoreIsRingWrite<T>(buf: seq<T>, p: int, items: seq<T>)
    requires 0 <= p < |buf| && |items| <= |buf|
    ensures RingStore(buf, p, items) == RingWrite(buf, p, items)
  {
    var r := RingStore(buf, p, items);
    var len := |buf|;
    StoreKeepsLatest(buf, p, items);
    StoreLeavesRest(buf, p, items);
    forall i | 0 <= i < len
      ensures r[i] == (if Offset(i, p, len) < |items| then items[Offset(i, p, len)] else buf[i])
    {
      var d := Offset(i, p, len);
      if d < |items| {
        OffsetOfStep(p, d, len);
        assert (p + d) % len == i by {
          ShiftMod(i, len);
        }
      }
    }
    RingWriteWrites(buf, p, items);
    RingWrittenUnique(r, RingWrite(buf, p, items), buf, p, items);
  }
}
