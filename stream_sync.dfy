/**
 * The sender worker (`src/audioCapture/StreamSync.worker.js`): each time
 * the capture worklet wakes it, it reads one kernel of samples round the
 * shared 16-bit ring from the read index, marks them processed and posts
 * them on. Waiting on the shared flag and posting the message are the
 * worker's I/O: a call of `OnSendRequest` is one wake-up, and the array it
 * returns is the message.
 */
module StreamSync {
  import opened Ring
  import opened SharedBuffer

  class StreamSyncWorker {
    var states: array<int>
    var buffer: array<int>
    var bufferLength: int
    var kernelLength: int

    /** The shared states and ring are distinct, and the read index lies inside the ring. */
    predicate Valid()
      reads this, states
    {
      && states.Length == STATE_SLOTS && states != buffer
      && bufferLength > 0 && buffer.Length == bufferLength && kernelLength >= 0
      && 0 <= states[READ_INDEX] < bufferLength
    }

    /** `onmessage`: take the shared states and ring and read the two lengths. */
    constructor (sharedStates: array<int>, sharedBuffer: array<int>)
      requires sharedStates.Length == STATE_SLOTS && sharedStates != sharedBuffer
      requires sharedStates[BUFFER_LENGTH] > 0 && sharedBuffer.Length == sharedStates[BUFFER_LENGTH]
      requires sharedStates[KERNEL_LENGTH] >= 0
      requires 0 <= sharedStates[READ_INDEX] < sharedStates[BUFFER_LENGTH]
      ensures Valid()
      ensures states == sharedStates && buffer == sharedBuffer
      ensures bufferLength == states[BUFFER_LENGTH] && kernelLength == states[KERNEL_LENGTH]
    {
      states := sharedStates;
      bufferLength := sharedStates[BUFFER_LENGTH];
      kernelLength := sharedStates[KERNEL_LENGTH];
      buffer := sharedBuffer;
    }

    /**
     * One pass of `waitOnSendRequest`'s loop: copy `kernelLength` samples
     * round the ring from the read index, store the index where the read
     * stopped, take the kernel off the frame count and clear the request flag.
     */
    method OnSendRequest() returns (data: array<int>)
      requires Valid()
      modifies states
      ensures Valid()
      ensures data[..] == RingRead(buffer[..], old(states[READ_INDEX]), kernelLength)
      ensures states[READ_INDEX] == (old(states[READ_INDEX]) + kernelLength) % bufferLength
      ensures states[FRAMES_AVAILABLE] == old(states[FRAMES_AVAILABLE]) - kernelLength
      ensures states[REQUEST_SEND] == 0
      ensures forall k :: 0 <= k < STATE_SLOTS && k != READ_INDEX && k != FRAMES_AVAILABLE && k != REQUEST_SEND ==>
        states[k] == old(states[k])
    {
      var start := states[READ_INDEX];
      var readIndex := start;
      data := new int[kernelLength];
      for i := 0 to kernelLength
        invariant readIndex == (start + i) % bufferLength
        invariant forall k :: 0 <= k < i ==> data[k] == buffer[(start + k) % bufferLength]
        invariant states[..] == old(states[..])
      {
        data[i] := buffer[readIndex];
        Modular.StepMod(start + i, bufferLength);
        readIndex := readIndex + 1;
        if readIndex == bufferLength {
          readIndex := 0;
        }
      }
      states[READ_INDEX] := readIndex;
      states[FRAMES_AVAILABLE] := states[FRAMES_AVAILABLE] - kernelLength;
      states[REQUEST_SEND] := 0;
    }
  }
}
