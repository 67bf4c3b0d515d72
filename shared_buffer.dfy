/**
 * The capture worklet that copies each render quantum into shared
 * multichannel ring buffers (`src/audioCapture/SharedBuffer.worklet.js`)
 * and wakes the sender worker when a kernel's worth of frames is waiting.
 *
 * The shared `Int32Array` of states is an array of six integers indexed by
 * the constants below; the per-channel `Float32Array` rings are the rows
 * of one two-dimensional array, channel by position. Samples are reals.
 */
module SharedBuffer {
  import opened Wrappers
  import opened Ring

  // Slots of the shared states array.
  const REQUEST_SEND := 0
  const FRAMES_AVAILABLE := 1
  const READ_INDEX := 2
  const WRITE_INDEX := 3
  const BUFFER_LENGTH := 4
  const KERNEL_LENGTH := 5
  const STATE_SLOTS := 6

  /** Where the write index ends up after `n` frames written from `w`: the length of the wrapped part when the write wraps. */
  function NextWriteIndex(w: int, n: int, len: int): (r: int)
    requires 0 <= w < len && 0 <= n <= len
    ensures 0 <= r < len
    ensures r == (w + n) % len
  {
    if w + n < len then
      Modular.ShiftMod(w + n, len);
      w + n
    else
      Modular.ShiftMod(w + n - len, len);
      w + n - len
  }

  /** Every channel of an input carries the same number of frames. */
  predicate SameLength(input: seq<seq<real>>)
  {
    forall c :: 0 <= c < |input| ==> |input[c]| == |input[0]|
  }

  class SharedBufferProcessor {
    var initialized: bool
    var states: array<int>
    var buffers: array2<real>
    var bufferLength: int
    var kernelLength: int

    /** Once the port message has arrived, the rings match the states and the write index is inside them. */
    predicate Valid()
      reads this, states
    {
      initialized ==>
        && states.Length == STATE_SLOTS
        && buffers.Length0 >= 1
        && bufferLength > 0 && buffers.Length1 == bufferLength
        && 0 <= states[WRITE_INDEX] < bufferLength
    }

    /** Channel `c`'s ring. */
    ghost function Row(c: int): (r: seq<real>)
      requires 0 <= c < buffers.Length0
      reads this, buffers
      ensures |r| == buffers.Length1
      ensures forall j :: 0 <= j < buffers.Length1 ==> r[j] == buffers[c, j]
    {
      var b := buffers;
      seq(b.Length1, j requires 0 <= j < b.Length1 reads b => b[c, j])
    }

    /** The states and rings stay unset until the port message. */
    constructor ()
      ensures !initialized && Valid()
    {
      initialized := false;
      states := new int[0];
      buffers := new real[0, 0];
      bufferLength, kernelLength := 0, 0;
    }

    /** The port message: take the shared states and rings, and read the ring and kernel lengths once. */
    method OnMessage(sharedStates: array<int>, sharedBuffers: array2<real>)
      requires sharedStates.Length == STATE_SLOTS && sharedBuffers.Length0 >= 1
      requires sharedStates[BUFFER_LENGTH] > 0 && sharedBuffers.Length1 == sharedStates[BUFFER_LENGTH]
      requires 0 <= sharedStates[WRITE_INDEX] < sharedStates[BUFFER_LENGTH]
      modifies this
      ensures initialized && Valid()
      ensures states == sharedStates && buffers == sharedBuffers
      ensures bufferLength == states[BUFFER_LENGTH] && kernelLength == states[KERNEL_LENGTH]
    {
      states := sharedStates;
      buffers := sharedBuffers;
      bufferLength := states[BUFFER_LENGTH];
      kernelLength := states[KERNEL_LENGTH];
      initialized := true;
    }

    /** `TypedArray.set`: copy `src` into channel `c` from position `offset`. */
    method SetRow(c: int, src: seq<real>, offset: int)
      requires 0 <= c < buffers.Length0 && 0 <= offset && offset + |src| <= buffers.Length1
      modifies buffers
      ensures forall j :: 0 <= j < buffers.Length1 ==>
        buffers[c, j] == if offset <= j < offset + |src| then src[j - offset] else old(buffers[c, j])
      ensures forall c', j :: 0 <= c' < buffers.Length0 && c' != c && 0 <= j < buffers.Length1 ==>
        buffers[c', j] == old(buffers[c', j])
    {
      for k := 0 to |src|
        invariant forall j :: 0 <= j < buffers.Length1 ==>
          buffers[c, j] == if offset <= j < offset + k then src[j - offset] else old(buffers[c, j])
        invariant forall c', j :: 0 <= c' < buffers.Length0 && c' != c && 0 <= j < buffers.Length1 ==>
          buffers[c', j] == old(buffers[c', j])
      {
        buffers[c, offset + k] := src[k];
      }
    }

    /** The branch of `writeInput` that fits: one `set` at the write index. */
    method SetChannelWhole(c: int, src: seq<real>, writeIndex: int)
      requires 0 <= c < buffers.Length0 && 0 <= writeIndex && writeIndex + |src| < buffers.Length1
      modifies buffers
      ensures forall j :: 0 <= j < buffers.Length1 ==>
        buffers[c, j] == if Offset(j, writeIndex, buffers.Length1) < |src| then src[Offset(j, writeIndex, buffers.Length1)]
          else old(buffers[c, j])
      ensures forall c', j :: 0 <= c' < buffers.Length0 && c' != c && 0 <= j < buffers.Length1 ==>
        buffers[c', j] == old(buffers[c', j])
    {
      SetRow(c, src, writeIndex);
    }

    /**
     * The branch of `writeInput` that wraps: the first `splitIndex` frames
     * go up to the end of the ring, the rest (returned) at its start.
     */
    method SetChannelSplit(c: int, src: seq<real>, writeIndex: int, splitIndex: int) returns (secondHalf: seq<real>)
      requires 0 <= c < buffers.Length0 && 0 <= writeIndex < buffers.Length1
      requires splitIndex == buffers.Length1 - writeIndex && splitIndex <= |src| <= buffers.Length1
      modifies buffers
      ensures secondHalf == src[splitIndex..]
      ensures forall j :: 0 <= j < buffers.Length1 ==>
        buffers[c, j] == if Offset(j, writeIndex, buffers.Length1) < |src| then src[Offset(j, writeIndex, buffers.Length1)]
          else old(buffers[c, j])
      ensures forall c', j :: 0 <= c' < buffers.Length0 && c' != c && 0 <= j < buffers.Length1 ==>
        buffers[c', j] == old(buffers[c', j])
    {
      var firstHalf := src[..splitIndex];
      secondHalf := src[splitIndex..];
      SetRow(c, firstHalf, writeIndex);
      SetRow(c, secondHalf, 0);
    }

    /**
     * `writeInput`: every channel is written round its ring from the
     * write index, in one piece when it fits before the end, else in two;
     * the write index moves on round the ring and the frame count grows.
     */
    method WriteInput(input: seq<seq<real>>)
      requires initialized && Valid()
      requires |input| == buffers.Length0 && SameLength(input) && |input[0]| <= bufferLength
      modifies states, buffers
      ensures Valid()
      ensures forall c :: 0 <= c < buffers.Length0 ==>
        Row(c) == RingWrite(old(Row(c)), old(states[WRITE_INDEX]), input[c])
      ensures states[WRITE_INDEX] == (old(states[WRITE_INDEX]) + |input[0]|) % bufferLength
      ensures states[FRAMES_AVAILABLE] == old(states[FRAMES_AVAILABLE]) + |input[0]|
      ensures forall k :: 0 <= k < STATE_SLOTS && k != WRITE_INDEX && k != FRAMES_AVAILABLE ==>
        states[k] == old(states[k])
    {
      var writeIndex := states[WRITE_INDEX];
      var n := |input[0]|;
      var len := bufferLength;
      if writeIndex + n < len {
        for c := 0 to |input|
          invariant forall c', j :: 0 <= c' < buffers.Length0 && 0 <= j < len ==>
            buffers[c', j] == if c' < c && Offset(j, writeIndex, len) < n then input[c'][Offset(j, writeIndex, len)]
              else old(buffers[c', j])
          invariant states[..] == old(states[..])
        {
          SetChannelWhole(c, input[c], writeIndex);
        }
        states[WRITE_INDEX] := writeIndex + n;
      } else {
        var splitIndex := len - writeIndex;
        for c := 0 to |input|
          invariant forall c', j :: 0 <= c' < buffers.Length0 && 0 <= j < len ==>
            buffers[c', j] == if c' < c && Offset(j, writeIndex, len) < n then input[c'][Offset(j, writeIndex, len)]
              else old(buffers[c', j])
          invariant c > 0 ==> states[WRITE_INDEX] == n - splitIndex
          invariant forall k :: 0 <= k < STATE_SLOTS && k != WRITE_INDEX ==> states[k] == old(states[k])
        {
          var secondHalf := SetChannelSplit(c, input[c], writeIndex, splitIndex);
          states[WRITE_INDEX] := |secondHalf|;
        }
      }
      states[FRAMES_AVAILABLE] := states[FRAMES_AVAILABLE] + n;
      Modular.ShiftMod(NextWriteIndex(writeIndex, n, len), len);
      forall c | 0 <= c < buffers.Length0
        ensures Row(c) == RingWrite(old(Row(c)), writeIndex, input[c])
      {
        RingWriteWrites(old(Row(c)), writeIndex, input[c]);
        RingWrittenUnique(Row(c), RingWrite(old(Row(c)), writeIndex, input[c]), old(Row(c)), writeIndex, input[c]);
      }
    }

    /**
     * `process`: nothing happens before the port message; an input with
     * as many channels as there are rings is written (any other is
     * dropped); the worker is woken whenever at least a kernel's worth of
     * frames is available.
     */
    method Process(input: Option<seq<seq<real>>>) returns (notify: bool)
      requires Valid()
      requires initialized && input.Some? && |input.value| == buffers.Length0 ==>
        SameLength(input.value) && |input.value[0]| <= bufferLength
      modifies states, buffers
      ensures Valid()
      ensures !initialized ==> !notify && states[..] == old(states[..])
      ensures !initialized || input.None? || |input.value| != buffers.Length0 ==>
        states[..] == old(states[..]) && forall c, j :: 0 <= c < buffers.Length0 && 0 <= j < buffers.Length1 ==>
          buffers[c, j] == old(buffers[c, j])
      ensures initialized && input.Some? && |input.value| == buffers.Length0 ==>
        && (forall c :: 0 <= c < buffers.Length0 ==>
             Row(c) == RingWrite(old(Row(c)), old(states[WRITE_INDEX]), input.value[c]))
        && states[WRITE_INDEX] == (old(states[WRITE_INDEX]) + |input.value[0]|) % bufferLength
        && states[FRAMES_AVAILABLE] == old(states[FRAMES_AVAILABLE]) + |input.value[0]|
      ensures initialized ==> (notify <==> states[FRAMES_AVAILABLE] >= kernelLength)
    {
      if !initialized {
        return false;
      }
      if input.Some? && |input.value| == buffers.Length0 {
        WriteInput(input.value);
      }
      notify := states[FRAMES_AVAILABLE] >= kernelLength;
    }
  }
}
