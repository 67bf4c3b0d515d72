/**
 * The local MP3 broadcaster (`src/main/broadcast/LocalBroadcast.ts`, and its
 * older copy `src/main/LocalBroadcast.ts`): HTTP listeners are added and
 * removed, and every encoded chunk is written to each current listener.
 * A listener stream is named by a number; what a chunk write does is kept
 * as a log of (listener, chunk) pairs. The HTTP server and the FFmpeg
 * transcoder are not part of this model.
 *
 * `remove` as written calls `splice(index)` without a delete count, which
 * drops the listener AND every listener after it; `RemoveAsWritten` models
 * that and `DisconnectDropsLaterListeners` exhibits it. The broadcaster
 * below uses `RemoveListener`, which drops only the listener (`splice(index, 1)`).
 */
module LocalBroadcast {
  import opened JsArray
  import opened Bytes

  type Listener = nat
  type Chunk = seq<Byte>

  /** `remove` as written: truncate the list at the listener's index. */
  function RemoveAsWritten(ls: seq<Listener>, l: Listener): (r: seq<Listener>)
    ensures l !in ls ==> r == ls
    ensures l in ls ==> r == ls[..IndexOf(ls, l)] && l !in r
  {
    var index := IndexOf(ls, l);
    if index >= 0 then SpliceToEnd(ls, index) else ls
  }

  /**
   * With two listeners, the first one disconnecting also cuts off the
   * second, which still has an open connection but gets no more chunks.
   */
  lemma DisconnectDropsLaterListeners(a: Listener, b: Listener)
    requires a != b
    ensures RemoveAsWritten([a, b], a) == []
    ensures b in [a, b] && b !in RemoveAsWritten([a, b], a)
  {
    assert IndexOf([a, b], a) == 0;
  }

  /** `remove` as intended: drop the first occurrence of the listener only. */
  function RemoveListener(ls: seq<Listener>, l: Listener): (r: seq<Listener>)
    ensures l !in ls ==> r == ls
    ensures l in ls ==> |r| == |ls| - 1 && multiset(r) == multiset(ls) - multiset{l}
    ensures forall x :: x != l ==> (x in r <==> x in ls)
  {
    var index := IndexOf(ls, l);
    if index >= 0 then
      assert ls == ls[..index] + [l] + ls[index + 1..];
      Splice(ls, index, 1, [])
    else ls
  }

  /** The listeners before and after the removed one keep their order. */
  lemma RemoveKeepsOrder(ls: seq<Listener>, l: Listener)
    requires l in ls
    ensures var i := IndexOf(ls, l);
      RemoveListener(ls, l) == ls[..i] + ls[i + 1..]
  {
    var i := IndexOf(ls, l);
    SpliceOutAt(ls, i);
  }

  /** Removing a listener right after adding it gives back the list. */
  lemma RemoveUndoesAdd(ls: seq<Listener>, l: Listener)
    requires l !in ls
    ensures RemoveListener(ls + [l], l) == ls
  {
    assert IndexOf(ls + [l], l) == |ls|;
    assert (ls + [l])[..|ls|] == ls;
  }

  /** The writes one chunk causes: one per current listener, in list order. */
  function FanOut(ls: seq<Listener>, chunk: Chunk): (ws: seq<(Listener, Chunk)>)
    ensures |ws| == |ls|
    ensures forall i :: 0 <= i < |ls| ==> ws[i] == (ls[i], chunk)
  {
    if |ls| == 0 then [] else [(ls[0], chunk)] + FanOut(ls[1..], chunk)
  }

  class LocalBroadcaster {
    var listeners: seq<Listener>
    var writes: seq<(Listener, Chunk)>

    constructor ()
      ensures listeners == [] && writes == []
    {
      listeners, writes := [], [];
    }

    /** `add`: append the listener. */
    method Add(l: Listener)
      modifies this
      ensures listeners == old(listeners) + [l]
      ensures writes == old(writes)
    {
      listeners := listeners + [l];
    }

    /** `remove`, corrected: only the disconnected listener leaves; an unknown one changes nothing. */
    method Remove(l: Listener)
      modifies this
      ensures listeners == RemoveListener(old(listeners), l)
      ensures writes == old(writes)
    {
      var index := IndexOf(listeners, l);
      if index >= 0 {
        listeners := Splice(listeners, index, 1, []);
      }
    }

    /** The `data` handler of `play`: write the chunk to every current listener in order. */
    method OnData(chunk: Chunk)
      modifies this
      ensures writes == old(writes) + FanOut(listeners, chunk)
      ensures listeners == old(listeners)
    {
      var i := 0;
      while i < |listeners|
        invariant 0 <= i <= |listeners|
        invariant listeners == old(listeners)
        invariant writes == old(writes) + FanOut(listeners, chunk)[..i]
      {
        writes := writes + [(listeners[i], chunk)];
        i := i + 1;
      }
    }
  }
}
