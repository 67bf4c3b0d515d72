/**
 * The renderer's playback slice (`src/renderer/features/playback/playbackSlice.ts`):
 * a queue of item ids, an optional shuffled copy of it, the index of the
 * current item in whichever of the two is active, and a playback state.
 * `getCurrentItem` and `getNextItem` are pure reads of that state.
 */
module RendererPlayback {
  import opened Wrappers
  import opened JsArray

  datatype PlaybackStateType = Unknown | Paused | Loading | Playing

  /** JavaScript's `%`: the remainder takes the sign of the dividend. */
  function JsRem(a: int, n: int): (r: int)
    requires n > 0
    ensures a >= 0 ==> r == a % n
    ensures -n < r < n
    ensures a < 0 ==> r <= 0
  {
    if a >= 0 then a % n else -((-a) % n)
  }

  /** `items[index]`: `undefined` outside the list. */
  function ItemAt(items: seq<string>, index: int): (r: Option<string>)
    ensures r.Some? <==> 0 <= index < |items|
    ensures r.Some? ==> r.value == items[index]
  {
    if 0 <= index < |items| then Some(items[index]) else None
  }

  /** `getCurrentItem`: the active list read at `current`. */
  function CurrentItem(queue: seq<string>, shuffledQueue: seq<string>, shuffle: bool, current: int): (r: Option<string>)
    ensures r.Some? <==> 0 <= current < |if shuffle then shuffledQueue else queue|
    ensures r.Some? ==> r.value == (if shuffle then shuffledQueue else queue)[current]
  {
    ItemAt(if shuffle then shuffledQueue else queue, current)
  }

  /**
   * `getNextItem`: with `loop` the index after `current` wraps around the
   * active list (an empty list has no next item, `x % 0` being NaN);
   * without it there is no next item after the last.
   */
  function NextItem(queue: seq<string>, shuffledQueue: seq<string>, shuffle: bool, loop: bool, current: int): (r: Option<string>)
    ensures var items := if shuffle then shuffledQueue else queue;
      && (|items| == 0 ==> r.None?)
      && (loop && |items| > 0 && current >= -1 ==> r == Some(items[(current + 1) % |items|]))
      && (!loop ==> (r.Some? <==> 0 <= current + 1 < |items|))
      && (!loop && r.Some? ==> r.value == items[current + 1])
  {
    var items := if shuffle then shuffledQueue else queue;
    var next := current + 1;
    if loop then
      if |items| == 0 then None else ItemAt(items, JsRem(next, |items|))
    else if next < |items| then ItemAt(items, next)
    else None
  }

  /**
   * The next item is what becomes the current item once `current` moves on
   * by one (wrapping with `loop`): `getNextItem` agrees with `getCurrentItem`.
   */
  lemma NextIsCurrentAfterAdvance(queue: seq<string>, shuffledQueue: seq<string>, shuffle: bool, loop: bool, current: int)
    requires current >= -1
    ensures var n := |if shuffle then shuffledQueue else queue|;
      && (loop && n > 0 ==>
            NextItem(queue, shuffledQueue, shuffle, loop, current)
            == CurrentItem(queue, shuffledQueue, shuffle, (current + 1) % n))
      && (!loop ==>
            NextItem(queue, shuffledQueue, shuffle, loop, current)
            == CurrentItem(queue, shuffledQueue, shuffle, current + 1))
  {
  }

  /** With `loop`, a non-empty list always has a next item, even from the last one. */
  lemma LoopAlwaysHasNext(queue: seq<string>, shuffledQueue: seq<string>, shuffle: bool, current: int)
    requires current >= -1 && |if shuffle then shuffledQueue else queue| > 0
    ensures NextItem(queue, shuffledQueue, shuffle, true, current).Some?
    ensures current + 1 == |if shuffle then shuffledQueue else queue| ==>
      NextItem(queue, shuffledQueue, shuffle, true, current) == Some((if shuffle then shuffledQueue else queue)[0])
  {
  }

  class PlaybackSlice {
    var queue: seq<string>
    var shuffledQueue: seq<string>
    var shuffle: bool
    var loop: bool
    var current: int
    var state: PlaybackStateType

    /** `initialState`: nothing current, looping. */
    constructor ()
      ensures queue == [] && shuffledQueue == [] && !shuffle && loop
      ensures current == -1 && state == Unknown
    {
      queue, shuffledQueue, shuffle, loop := [], [], false, true;
      current, state := -1, Unknown;
    }

    /** The list `current` indexes into. */
    function Active(): seq<string>
      reads this
    {
      if shuffle then shuffledQueue else queue
    }

    /**
     * `queue`: replace the queue; with shuffle on, the shuffled copy is
     * `order`, the result of `shuffle` on a copy of the items.
     */
    method Queue(items: seq<string>, order: seq<string>)
      requires shuffle ==> multiset(order) == multiset(items)
      modifies this
      ensures queue == items
      ensures shuffle ==> shuffledQueue == order && multiset(shuffledQueue) == multiset(queue)
      ensures !shuffle ==> shuffledQueue == old(shuffledQueue)
      ensures shuffle == old(shuffle) && loop == old(loop) && current == old(current) && state == old(state)
    {
      queue := items;
      if shuffle {
        shuffledQueue := order;
      }
    }

    /** `load`: point `current` at the item in the active list; start loading only when it is there. */
    method Load(id: string)
      modifies this
      ensures current == IndexOf(old(Active()), id)
      ensures id in Active() ==> CurrentItem(queue, shuffledQueue, shuffle, current) == Some(id) && state == Loading
      ensures id !in Active() ==> current == -1 && state == old(state)
      ensures queue == old(queue) && shuffledQueue == old(shuffledQueue) && shuffle == old(shuffle) && loop == old(loop)
    {
      if shuffle {
        current := IndexOf(shuffledQueue, id);
      } else {
        current := IndexOf(queue, id);
      }
      if current >= 0 {
        state := Loading;
      }
    }

    method Play()
      modifies this
      ensures state == Playing
      ensures queue == old(queue) && shuffledQueue == old(shuffledQueue) && shuffle == old(shuffle)
      ensures loop == old(loop) && current == old(current)
    {
      state := Playing;
    }

    method Pause()
      modifies this
      ensures state == Paused
      ensures queue == old(queue) && shuffledQueue == old(shuffledQueue) && shuffle == old(shuffle)
      ensures loop == old(loop) && current == old(current)
    {
      state := Paused;
    }

    /** `stop`: nothing is current any more. */
    method Stop()
      modifies this
      ensures current == -1 && state == Unknown
      ensures CurrentItem(queue, shuffledQueue, shuffle, current).None?
      ensures queue == old(queue) && shuffledQueue == old(shuffledQueue) && shuffle == old(shuffle) && loop == old(loop)
    {
      current := -1;
      state := Unknown;
    }
  }
}
