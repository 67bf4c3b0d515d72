/**
 * Ingress re-sequencing: the loop that reads RTP packets from a remote track,
 * drops those with an empty payload and forwards the rest with a fresh
 * 16-bit sequence number (disgo `StartStream`, severus `receiver::runner`).
 *
 * The track is a sequence of read results. A read error ends the loop (in
 * disgo by a panic, in severus by returning); in severus the notifier ends
 * it too. The random start of the severus counter is a parameter.
 */
module Ingress {

  /** An unsigned 16-bit integer (Go `uint16`, Rust `u16`). */
  type U16 = x: int | 0 <= x < 0x1_0000

  /** `x + 1` on 16 bits: Go's `++` on a `uint16` and Rust's `wrapping_add(1)`. */
  function WrappingInc(x: U16): (r: U16)
    ensures x < 0xFFFF ==> r == x + 1
    ensures x == 0xFFFF ==> r == 0
  {
    (x + 1) % 0x1_0000
  }

  /** The fields of an RTP packet the relay reads or rewrites. */
  datatype Packet = Packet(payload: seq<bv8>, sequenceNumber: U16, timestamp: nat)

  /** One result of `ReadRTP` / the `select!` in the runner. */
  datatype Read =
    | Received(packet: Packet)  // a packet was read
    | ReadError                 // the read failed
    | Notified                  // the runner's notifier fired (severus only)

  /** The packets read before the loop ends. */
  function UntilStop(track: seq<Read>): (ps: seq<Packet>)
    ensures |ps| <= |track|
  {
    if |track| == 0 || !track[0].Received? then []
    else [track[0].packet] + UntilStop(track[1..])
  }

  /** The packets with a non-empty payload, in order. */
  function NonEmpty(ps: seq<Packet>): (r: seq<Packet>)
    ensures |r| <= |ps|
    ensures forall p :: p in r ==> p in ps && |p.payload| > 0
  {
    if |ps| == 0 then []
    else if |ps[0].payload| > 0 then [ps[0]] + NonEmpty(ps[1..])
    else NonEmpty(ps[1..])
  }

  /** What the loop forwards from `track` when its counter starts at `counter`. */
  function Forward(track: seq<Read>, counter: U16): seq<Packet>
  {
    if |track| == 0 || !track[0].Received? then []
    else
      var p := track[0].packet;
      if |p.payload| == 0 then Forward(track[1..], counter)
      else [p.(sequenceNumber := counter)] + Forward(track[1..], WrappingInc(counter))
  }

  /** The packets `ps`, the k-th renumbered `counter + k` modulo 2^16. */
  function Numbered(ps: seq<Packet>, counter: U16): (r: seq<Packet>)
    ensures |r| == |ps|
  {
    if |ps| == 0 then []
    else [ps[0].(sequenceNumber := counter)] + Numbered(ps[1..], WrappingInc(counter))
  }

  lemma {:induction false} NumberedAt(ps: seq<Packet>, counter: U16)
    ensures forall k :: 0 <= k < |ps| ==>
      Numbered(ps, counter)[k] == ps[k].(sequenceNumber := (counter + k) % 0x1_0000)
  {
    if |ps| > 0 {
      var next := WrappingInc(counter);
      NumberedAt(ps[1..], next);
      forall k | 1 <= k < |ps|
        ensures Numbered(ps, counter)[k] == ps[k].(sequenceNumber := (counter + k) % 0x1_0000)
      {
        CounterShift(counter, k);
        assert Numbered(ps, counter)[k] == Numbered(ps[1..], next)[k - 1];
      }
    }
  }

  lemma CounterShift(counter: U16, k: nat)
    requires k >= 1
    ensures (WrappingInc(counter) + (k - 1)) % 0x1_0000 == (counter + k) % 0x1_0000
  {
  }

  /**
   * The forwarded packets are the non-empty packets read before the loop
   * ended, in order, renumbered from `counter` on.
   */
  lemma {:induction false} ForwardIsNumbered(track: seq<Read>, counter: U16)
    ensures Forward(track, counter) == Numbered(NonEmpty(UntilStop(track)), counter)
    decreases |track|
  {
    if |track| > 0 && track[0].Received? {
      var p := track[0].packet;
      assert UntilStop(track) == [p] + UntilStop(track[1..]);
      if |p.payload| == 0 {
        ForwardIsNumbered(track[1..], counter);
      } else {
        ForwardIsNumbered(track[1..], WrappingInc(counter));
        assert NonEmpty(UntilStop(track))[1..] == NonEmpty(UntilStop(track[1..]));
      }
    }
  }

  /**
   * The forwarded packets keep payload and timestamp and the k-th carries
   * number `counter + k` modulo 2^16.
   */
  lemma ForwardResequences(track: seq<Read>, counter: U16)
    ensures var kept := NonEmpty(UntilStop(track));
      && |Forward(track, counter)| == |kept|
      && forall k :: 0 <= k < |kept| ==>
           Forward(track, counter)[k] == kept[k].(sequenceNumber := (counter + k) % 0x1_0000)
  {
    ForwardIsNumbered(track, counter);
    NumberedAt(NonEmpty(UntilStop(track)), counter);
  }

  /** Consecutive forwarded packets carry numbers that differ by exactly one modulo 2^16. */
  lemma ForwardConsecutive(track: seq<Read>, counter: U16)
    ensures var out := Forward(track, counter);
      forall k :: 0 <= k < |out| - 1 ==> out[k + 1].sequenceNumber == WrappingInc(out[k].sequenceNumber)
  {
    ForwardResequences(track, counter);
    var out := Forward(track, counter);
    forall k | 0 <= k < |out| - 1
      ensures out[k + 1].sequenceNumber == WrappingInc(out[k].sequenceNumber)
    {
      assert out[k].sequenceNumber == (counter + k) % 0x1_0000;
      assert out[k + 1].sequenceNumber == (counter + (k + 1)) % 0x1_0000;
      NextNumber(counter, k);
    }
  }

  lemma NextNumber(counter: U16, k: nat)
    ensures (counter + (k + 1)) % 0x1_0000 == WrappingInc((counter + k) % 0x1_0000)
  {
    var a := (counter + k) % 0x1_0000;
    assert counter + k == (counter + k) / 0x1_0000 * 0x1_0000 + a;
  }

  /** A packet with an empty payload is not forwarded and does not use up a number. */
  lemma EmptyPayloadSkipped(p: Packet, rest: seq<Read>, counter: U16)
    requires |p.payload| == 0
    ensures Forward([Received(p)] + rest, counter) == Forward(rest, counter)
  {
    assert ([Received(p)] + rest)[1..] == rest;
  }

  /** A read error or a notification ends the loop: nothing after it is forwarded. */
  lemma StopEndsForwarding(r: Read, rest: seq<Read>, counter: U16)
    requires !r.Received?
    ensures Forward([r] + rest, counter) == []
  {
  }

  /**
   * The read loop: forward every non-empty packet with the current counter,
   * then advance the counter. Returns the forwarded packets and the counter
   * the loop ended with.
   */
  method Resequence(track: seq<Read>, start: U16) returns (out: seq<Packet>, next: U16)
    ensures out == Forward(track, start)
    ensures next == (start + |out|) % 0x1_0000
  {
    out := [];
    next := start;
    var i := 0;
    while i < |track|
      invariant 0 <= i <= |track|
      invariant out + Forward(track[i..], next) == Forward(track, start)
      invariant next == (start + |out|) % 0x1_0000
    {
      assert track[i..][1..] == track[i + 1..];
      if !track[i].Received? {
        assert Forward(track[i..], next) == [];
        assert out == Forward(track, start);
        return;
      }
      var packet := track[i].packet;
      if |packet.payload| > 0 {
        out := out + [packet.(sequenceNumber := next)];
        next := WrappingInc(next);
      }
      i := i + 1;
    }
    assert track[i..] == [];
    assert out + [] == out;
  }

  /** disgo `StartStream`: the counter is a zero-initialised `uint16`. */
  method StartStream(track: seq<Read>) returns (out: seq<Packet>)
    ensures out == Forward(track, 0)
    ensures |out| > 0 ==> out[0].sequenceNumber == 0
  {
    var next;
    out, next := Resequence(track, 0);
    ForwardResequences(track, 0);
  }

  /** The capacity the severus bus is created with. */
  const BusCapacity: nat := 10

  /** severus `OpusEvents`: the bus the runner broadcasts re-sequenced packets on. */
  class OpusEvents {
    const capacity: nat
    var broadcast: seq<Packet>

    constructor ()
      ensures capacity == BusCapacity && broadcast == []
    {
      capacity := BusCapacity;
      broadcast := [];
    }

    /** `notify`: broadcast one packet. */
    method Notify(p: Packet)
      modifies this
      ensures broadcast == old(broadcast) + [p]
    {
      broadcast := broadcast + [p];
    }
  }

  /**
   * severus `runner`: re-sequence from a random start and broadcast each
   * forwarded packet on the bus, until a read error or a notification.
   */
  method Runner(events: OpusEvents, track: seq<Read>, start: U16)
    modifies events
    ensures events.broadcast == old(events.broadcast) + Forward(track, start)
  {
    var counter := start;
    var i := 0;
    ghost var sent := [];
    while i < |track|
      invariant 0 <= i <= |track|
      invariant events.broadcast == old(events.broadcast) + sent
      invariant sent + Forward(track[i..], counter) == Forward(track, start)
    {
      assert track[i..][1..] == track[i + 1..];
      if !track[i].Received? {
        assert sent == Forward(track, start);
        return;
      }
      var packet := track[i].packet;
      if |packet.payload| > 0 {
        packet := packet.(sequenceNumber := counter);
        events.Notify(packet);
        sent := sent + [packet];
        counter := WrappingInc(counter);
      }
      i := i + 1;
    }
    assert track[i..] == [];
    assert sent + [] == sent;
  }
}
