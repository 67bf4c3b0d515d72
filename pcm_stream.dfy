/**
 * The stereo capture worklet (`src/audioCapture/PCMStream.worklet.js`):
 * each render quantum's two channels are interleaved, turned into 16-bit
 * samples and stored one at a time in a shared ring, and the sender is
 * woken every time the ring pointer comes back round to 0.
 *
 * The float-to-16-bit conversion (`floatTo16BitPCM`) is floating point and
 * is the parameter `convert`; `Atomics.notify` is counted.
 */
module PcmStream {
  import opened Wrappers
  import opened Ring

  /** The samples of two channels, alternating left and right. */
  function Interleaving(left: seq<real>, right: seq<real>): (r: seq<real>)
    requires |left| == |right|
    ensures |r| == |left| + |right|
    ensures forall i :: 0 <= i < |left| ==> r[2 * i] == left[i] && r[2 * i + 1] == right[i]
  {
    if |left| == 0 then []
    else
      var n := |left| - 1;
      var front := Interleaving(left[..n], right[..n]);
      assert forall i :: 0 <= i < n ==> left[..n][i] == left[i] && right[..n][i] == right[i];
      front + [left[n], right[n]]
  }

  /** The left channel back out of an interleaving: its even positions. */
  function Evens(s: seq<real>): (r: seq<real>)
    ensures |r| == |s| / 2
  {
    if |s| < 2 then [] else Evens(s[..|s| - 2]) + [s[|s| - 2]]
  }

  /** The right channel back out of an interleaving: its odd positions. */
  function Odds(s: seq<real>): (r: seq<real>)
    ensures |r| == |s| / 2
  {
    if |s| < 2 then [] else Odds(s[..|s| - 2]) + [s[|s| - 1]]
  }

  /** Interleaving loses nothing: the two channels come back out in order. */
  lemma {:induction false} DeinterleaveRoundTrip(left: seq<real>, right: seq<real>)
    requires |left| == |right|
    ensures Evens(Interleaving(left, right)) == left
    ensures Odds(Interleaving(left, right)) == right
  {
    var n := |left|;
    if n > 0 {
      var s := Interleaving(left, right);
      assert s[..|s| - 2] == Interleaving(left[..n - 1], right[..n - 1]);
      assert s[|s| - 2] == left[n - 1] && s[|s| - 1] == right[n - 1];
      assert Evens(s) == Evens(s[..|s| - 2]) + [s[|s| - 2]];
      assert Odds(s) == Odds(s[..|s| - 2]) + [s[|s| - 1]];
      DeinterleaveRoundTrip(left[..n - 1], right[..n - 1]);
      assert left == left[..n - 1] + [left[n - 1]];
      assert right == right[..n - 1] + [right[n - 1]];
    }
  }

  class PcmStreamProcessor {
    var buffer: array<int>
    var pointer: int
    var initialized: bool

    /** The pointer is always a position of the ring, and 0 until the port message. */
    predicate Valid()
      reads this
    {
      && 0 <= pointer
      && (initialized ==> buffer.Length > 0 && pointer < buffer.Length)
      && (!initialized ==> pointer == 0)
    }

    /** The ring stays unset until the port message. */
    constructor ()
      ensures Valid() && !initialized && pointer == 0
    {
      pointer := 0;
      initialized := false;
      buffer := new int[0];
    }

    /** The port message: take the shared ring. */
    method OnMessage(sharedBuffer: array<int>)
      requires Valid() && !initialized && sharedBuffer.Length > 0
      modifies this
      ensures Valid() && initialized && buffer == sharedBuffer && pointer == old(pointer)
    {
      buffer := sharedBuffer;
      initialized := true;
    }

    /** `interleave`: left and right samples alternate in a new array. */
    method Interleave(left: seq<real>, right: seq<real>) returns (result: array<real>)
      requires |left| == |right|
      ensures result[..] == Interleaving(left, right)
    {
      var length := |left| + |right|;
      result := new real[length];
      var index := 0;
      var inputIndex := 0;
      while index < length
        invariant index == 2 * inputIndex && inputIndex <= |left|
        invariant forall i :: 0 <= i < inputIndex ==> result[2 * i] == left[i] && result[2 * i + 1] == right[i]
      {
        result[index] := left[inputIndex];
        index := index + 1;
        result[index] := right[inputIndex];
        index := index + 1;
        inputIndex := inputIndex + 1;
      }
      assert inputIndex == |left|;
      var spec := Interleaving(left, right);
      forall k | 0 <= k < length
        ensures result[k] == spec[k]
      {
        var h := k / 2;
        assert 0 <= h < |left|;
        assert result[2 * h] == left[h] && result[2 * h + 1] == right[h];
        assert spec[2 * h] == left[h] && spec[2 * h + 1] == right[h];
        if k % 2 == 0 {
          assert k == 2 * h;
        } else {
          assert k == 2 * h + 1;
        }
      }
    }

    /**
     * `bufferPCM`: each sample goes at the pointer, which then moves on by
     * one and wraps to 0 at the end of the ring; every wrap wakes the
     * sender once.
     */
    method BufferPcm(pcm: seq<int>) returns (notifications: nat)
      requires Valid() && initialized
      modifies this, buffer
      ensures Valid() && initialized && buffer == old(buffer)
      ensures buffer[..] == RingStore(old(buffer[..]), old(pointer), pcm)
      ensures pointer == (old(pointer) + |pcm|) % buffer.Length
      ensures notifications == (old(pointer) + |pcm|) / buffer.Length
    {
      var start := pointer;
      var len := buffer.Length;
      notifications := 0;
      for i := 0 to |pcm|
        invariant buffer == old(buffer) && initialized
        invariant 0 <= pointer < len
        invariant start + i == notifications * len + pointer
        invariant buffer[..] == RingStore(old(buffer[..]), start, pcm[..i])
      {
        Modular.DivModUnique(start + i, len, notifications, pointer);
        ghost var before := buffer[..];
        buffer[pointer] := pcm[i];
        assert buffer[..] == before[pointer := pcm[i]];
        assert pcm[..i + 1] == pcm[..i] + [pcm[i]];
        StoreStep(old(buffer[..]), start, pcm[..i], pcm[i]);
        if pointer + 1 < len {
          Modular.ShiftMod(pointer + 1, len);
        } else {
          Modular.ShiftMod(0, len);
        }
        pointer := (pointer + 1) % len;
        if pointer == 0 {
          notifications := notifications + 1;
        }
      }
      Modular.DivModUnique(start + |pcm|, len, notifications, pointer);
      assert pcm[..|pcm|] == pcm;
    }

    /**
     * `process`: before the port message nothing is stored; a stereo input
     * is interleaved, converted and stored; any other input is dropped.
     */
    method Process(input: Option<seq<seq<real>>>, convert: real -> int) returns (notifications: nat)
      requires Valid()
      requires initialized && input.Some? && |input.value| == 2 ==> |input.value[0]| == |input.value[1]|
      modifies this, buffer
      ensures Valid() && initialized == old(initialized) && buffer == old(buffer)
      ensures !initialized || input.None? || |input.value| != 2 ==>
        notifications == 0 && pointer == old(pointer) && buffer[..] == old(buffer[..])
      ensures initialized && input.Some? && |input.value| == 2 ==>
        var samples := Interleaving(input.value[0], input.value[1]);
        var pcm := seq(|samples|, i requires 0 <= i < |samples| => convert(samples[i]));
        && buffer[..] == RingStore(old(buffer[..]), old(pointer), pcm)
        && pointer == (old(pointer) + |pcm|) % buffer.Length
        && notifications == (old(pointer) + |pcm|) / buffer.Length
    {
      notifications := 0;
      if !initialized {
        return;
      }
      if input.Some? && |input.value| == 2 {
        var interleaved := Interleave(input.value[0], input.value[1]);
        var samples := interleaved[..];
        var pcm := seq(|samples|, i requires 0 <= i < |samples| => convert(samples[i]));
        notifications := BufferPcm(pcm);
      }
    }
  }
}
