/**
 * The local stream dispatcher (`src/main/LocalDispatcher.ts`), a cut-down
 * discord.js `StreamDispatcher`: it counts the 20 ms frames written, keeps
 * RTP-style sequence and timestamp counters, and pauses and resumes by
 * re-piping its sources while it accounts for the time spent paused.
 *
 * Clock readings (`Date.now()`) are the parameter `now`; the FFmpeg
 * output, the timer and the piped streams are left to their callers,
 * except which of the Opus and silence sources is piped in.
 */
module LocalDispatcher {
  import opened Wrappers
  import Modular

  const FRAME_LENGTH := 20
  const CHANNELS := 2
  /** Timestamp ticks per frame: 48000 / 100 per channel. */
  const TIMESTAMP_INC := (48000 / 100) * CHANNELS
  const SEQUENCE_LIMIT := 0x1_0000
  const TIMESTAMP_LIMIT := 0x1_0000_0000
  /** Frames until the timestamp counter starts again from 0. */
  const TIMESTAMP_PERIOD := 4473925

  /** The sequence number after a frame: one more, back to 0 at 2^16. */
  function NextSequence(s: nat): (r: nat)
    ensures s < SEQUENCE_LIMIT ==> r == (s + 1) % SEQUENCE_LIMIT
  {
    if s + 1 >= SEQUENCE_LIMIT then 0 else s + 1
  }

  /** The timestamp after a frame: 960 ticks more, or 0 once that reaches 2^32. */
  function NextTimestamp(t: nat): (r: nat)
    ensures r < TIMESTAMP_LIMIT
    ensures t % TIMESTAMP_INC == 0 ==> r % TIMESTAMP_INC == 0
  {
    if t + TIMESTAMP_INC >= TIMESTAMP_LIMIT then 0
    else
      Modular.DivModUnique(t + TIMESTAMP_INC, TIMESTAMP_INC, t / TIMESTAMP_INC + 1, t % TIMESTAMP_INC);
      t + TIMESTAMP_INC
  }

  /** The sequence number after `n` frames from a fresh dispatcher. */
  function SequenceAfter(n: nat): nat
  {
    if n == 0 then 0 else NextSequence(SequenceAfter(n - 1))
  }

  /** The timestamp after `n` frames from a fresh dispatcher. */
  function TimestampAfter(n: nat): nat
  {
    if n == 0 then 0 else NextTimestamp(TimestampAfter(n - 1))
  }

  /** After `n` frames the sequence number is `n` modulo 2^16: the reset at 2^16 is a wrap. */
  lemma {:induction false} SequenceAfterFrames(n: nat)
    ensures SequenceAfter(n) == n % SEQUENCE_LIMIT
  {
    if n == 0 {
    } else {
      SequenceAfterFrames(n - 1);
      SequenceStep(n - 1);
    }
  }

  /** One frame on from `x` frames: the sequence number goes from `x` to `x + 1`, modulo 2^16. */
  lemma SequenceStep(x: nat)
    ensures NextSequence(x % SEQUENCE_LIMIT) == (x + 1) % SEQUENCE_LIMIT
  {
    Modular.StepMod(x, SEQUENCE_LIMIT);
  }

  /**
   * After `n` frames the timestamp is 960 times `n` modulo 4473925 frames:
   * the counter starts again from 0 after its largest multiple of 960
   * below 2^32, which is not the same as wrapping modulo 2^32.
   */
  lemma {:induction false} TimestampAfterFrames(n: nat)
    ensures TimestampAfter(n) == TIMESTAMP_INC * (n % TIMESTAMP_PERIOD)
  {
    if n > 0 {
      TimestampAfterFrames(n - 1);
      TimestampFrameStep(n - 1);
    }
  }

  /** One frame on from `x` frames: the timestamp goes from 960 times `x` to 960 times `x + 1`, modulo the period. */
  lemma TimestampFrameStep(x: nat)
    ensures NextTimestamp(TIMESTAMP_INC * (x % TIMESTAMP_PERIOD)) == TIMESTAMP_INC * ((x + 1) % TIMESTAMP_PERIOD)
  {
    Modular.StepMod(x, TIMESTAMP_PERIOD);
    TimestampStep(x % TIMESTAMP_PERIOD);
  }

  /** One frame on from the `m`-th multiple of 960 in a period. */
  lemma TimestampStep(m: nat)
    requires m < TIMESTAMP_PERIOD
    ensures m + 1 < TIMESTAMP_PERIOD ==> NextTimestamp(TIMESTAMP_INC * m) == TIMESTAMP_INC * (m + 1)
    ensures m + 1 == TIMESTAMP_PERIOD ==> NextTimestamp(TIMESTAMP_INC * m) == 0
  {
    var t := TIMESTAMP_INC * m;
    assert t + TIMESTAMP_INC == TIMESTAMP_INC * (m + 1);
  }

  /** At the reset the timestamp goes to 0 where a 32-bit wrap would give 704. */
  lemma TimestampResetIsNotWrap()
    ensures var last := TIMESTAMP_INC * (TIMESTAMP_PERIOD - 1);
      && last < TIMESTAMP_LIMIT
      && NextTimestamp(last) == 0
      && (last + TIMESTAMP_INC) % TIMESTAMP_LIMIT == 704
  {
  }

  class Dispatcher {
    const hasOpus: bool
    const hasSilence: bool
    const hasBroadcast: bool
    var opusPiped: bool
    var silencePiped: bool
    var pausedSince: Option<int>
    var startTime: int
    var pausedTime: int
    var silentPausedTime: int
    var silence: bool
    var count: nat
    var sequence: nat
    var timestamp: nat

    /** The counters stay in range and silence plays only while paused. */
    predicate Valid()
      reads this
    {
      && sequence < SEQUENCE_LIMIT
      && timestamp < TIMESTAMP_LIMIT && timestamp % TIMESTAMP_INC == 0
      && (silence ==> Paused())
      && silencePiped == silence
    }

    /** `paused`: `pausedSince` is set (and, being a clock reading, not 0). */
    predicate Paused()
      reads this
    {
      pausedSince.Some? && pausedSince.value != 0
    }

    /** `pausedTime`: time paused so far, counting the pause under way up to `now`. */
    function PausedTime(now: int): int
      reads this
    {
      silentPausedTime + pausedTime + (if Paused() then now - pausedSince.value else 0)
    }

    /** `streamTime`: milliseconds of audio written, one frame length per frame. */
    function StreamTime(): int
      reads this
    {
      count * FRAME_LENGTH
    }

    /** A frame's write callback is released only when playing or playing silence. */
    predicate ReleasesWrites()
      reads this
    {
      !Paused() || silence
    }

    /** A new dispatcher: not paused, nothing written, counters at 0; `opusPipedIn` says whether the caller has piped Opus in. */
    constructor (opus: bool, silenceSource: bool, broadcast: bool, opusPipedIn: bool)
      ensures Valid() && !Paused() && StreamTime() == 0 && sequence == 0 && timestamp == 0
      ensures hasOpus == opus && hasSilence == silenceSource && hasBroadcast == broadcast
      ensures opusPiped == opusPipedIn && !silencePiped
      ensures startTime == 0 && PausedTime(0) == 0
    {
      hasOpus, hasSilence, hasBroadcast := opus, silenceSource, broadcast;
      opusPiped, silencePiped := opusPipedIn, false;
      pausedSince := None;
      startTime, pausedTime, silentPausedTime := 0, 0, 0;
      silence := false;
      count, sequence, timestamp := 0, 0, 0;
    }

    /**
     * `pause`: a no-op when already paused; otherwise unpipe Opus, pipe
     * silence in if asked (which throws without a silence source, Opus
     * already unpiped), and note when the pause began.
     */
    method Pause(playSilence: bool, now: int) returns (o: Outcome<string>)
      requires Valid() && now > 0
      modifies this
      ensures Valid()
      ensures old(Paused()) ==>
        && o.Pass? && pausedSince == old(pausedSince) && opusPiped == old(opusPiped)
        && silence == old(silence) && silencePiped == old(silencePiped)
      ensures !old(Paused()) && playSilence && !hasSilence ==>
        o.Fail? && !Paused() && !silence && opusPiped == (old(opusPiped) && !hasOpus)
      ensures !old(Paused()) && (!playSilence || hasSilence) ==>
        && o.Pass? && Paused() && pausedSince == Some(now)
        && silence == playSilence && opusPiped == (old(opusPiped) && !hasOpus)
        && (ReleasesWrites() <==> playSilence)
      ensures PausedTime(now) == old(PausedTime(now))
      ensures count == old(count) && sequence == old(sequence) && timestamp == old(timestamp)
      ensures startTime == old(startTime) && pausedTime == old(pausedTime) && silentPausedTime == old(silentPausedTime)
    {
      if Paused() {
        return Pass;
      }
      if hasOpus {
        opusPiped := false;
      }
      if playSilence {
        if !hasSilence {
          return Fail("streams.silence is undefined");
        }
        silencePiped := true;
        silence := true;
      }
      pausedSince := Some(now);
      o := Pass;
    }

    /**
     * `resume`: a no-op when not paused; otherwise unpipe silence (which
     * throws without a silence source, before any change), pipe Opus back
     * in, and add the pause to the silent or the plain paused time.
     */
    method Resume(now: int) returns (o: Outcome<string>)
      requires Valid()
      modifies this
      ensures Valid()
      ensures !old(Paused()) || !hasSilence ==>
        && (o.Pass? <==> !old(Paused()))
        && pausedSince == old(pausedSince) && opusPiped == old(opusPiped) && silence == old(silence)
        && pausedTime == old(pausedTime) && silentPausedTime == old(silentPausedTime)
      ensures old(Paused()) && hasSilence ==>
        && o.Pass? && pausedSince.None? && !silence && !silencePiped
        && opusPiped == (old(opusPiped) || hasOpus)
        && (old(silence) ==> silentPausedTime == old(silentPausedTime) + now - old(pausedSince.value)
                             && pausedTime == old(pausedTime))
        && (!old(silence) ==> pausedTime == old(pausedTime) + now - old(pausedSince.value)
                              && silentPausedTime == old(silentPausedTime))
      ensures PausedTime(now) == old(PausedTime(now))
      ensures count == old(count) && sequence == old(sequence) && timestamp == old(timestamp)
      ensures startTime == old(startTime)
    {
      if !Paused() {
        return Pass;
      }
      if !hasSilence {
        return Fail("streams.silence is undefined");
      }
      silencePiped := false;
      if hasOpus {
        opusPiped := true;
      }
      if silence {
        silentPausedTime := silentPausedTime + now - pausedSince.value;
        silence := false;
      } else {
        pausedTime := pausedTime + now - pausedSince.value;
      }
      pausedSince := None;
      o := Pass;
    }

    /**
     * `_step`: without a broadcast, schedule the write callback for when
     * the playing time reaches the end of this frame; then count the frame
     * and move the sequence number and timestamp on.
     */
    method Step(now: int) returns (delay: Option<int>)
      requires Valid()
      modifies this
      ensures Valid()
      ensures StreamTime() == old(StreamTime()) + FRAME_LENGTH
      ensures hasBroadcast <==> delay.None?
      ensures delay.Some? ==> (now - startTime - pausedTime) + delay.value == StreamTime()
      ensures sequence == (old(sequence) + 1) % SEQUENCE_LIMIT
      ensures timestamp == NextTimestamp(old(timestamp))
      ensures pausedSince == old(pausedSince) && silence == old(silence) && opusPiped == old(opusPiped)
      ensures silencePiped == old(silencePiped)
      ensures startTime == old(startTime) && pausedTime == old(pausedTime) && silentPausedTime == old(silentPausedTime)
    {
      delay := None;
      if !hasBroadcast {
        delay := Some(FRAME_LENGTH + count * FRAME_LENGTH - (now - startTime - pausedTime));
      }
      sequence := sequence + 1;
      timestamp := timestamp + TIMESTAMP_INC;
      if sequence >= SEQUENCE_LIMIT {
        sequence := 0;
      }
      if timestamp >= TIMESTAMP_LIMIT {
        timestamp := 0;
      }
      assert sequence == NextSequence(old(sequence));
      assert timestamp == NextTimestamp(old(timestamp));
      count := count + 1;
    }

    /** `_write`: the first write starts the clock; every write is one frame. */
    method Write(now: int) returns (started: bool, delay: Option<int>)
      requires Valid()
      modifies this
      ensures Valid()
      ensures started <==> old(startTime) == 0
      ensures startTime == if started then now else old(startTime)
      ensures StreamTime() == old(StreamTime()) + FRAME_LENGTH
      ensures sequence == (old(sequence) + 1) % SEQUENCE_LIMIT && timestamp == NextTimestamp(old(timestamp))
      ensures hasBroadcast <==> delay.None?
      ensures delay.Some? ==> (now - startTime - pausedTime) + delay.value == StreamTime()
      ensures pausedSince == old(pausedSince) && silence == old(silence) && opusPiped == old(opusPiped)
      ensures silencePiped == old(silencePiped)
      ensures pausedTime == old(pausedTime) && silentPausedTime == old(silentPausedTime)
    {
      started := startTime == 0;
      if started {
        startTime := now;
      }
      delay := Step(now);
    }
  }
}
