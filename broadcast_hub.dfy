/**
 * The fan-out hub of the Go relays (`broadcastServer` in disgo and drongo).
 * One serve loop owns the listener slice and takes one event at a time from
 * its `select`: a new listener, a listener to remove, a value from the
 * source, the source closing, or the context being cancelled. When the loop
 * returns, a deferred function closes every listener still registered.
 *
 * Goroutines and blocking channel operations are not modelled; each event
 * the select picks is one step. A send to a listener is recorded in the
 * `sent` log as a (channel, value) pair, and a `close` in the `closed` log.
 */
module BroadcastHub {
  import opened JsArray

  /** A Go channel value: nil, or the channel made by the n-th `make`. */
  datatype Chan = Nil | Chan(id: nat)

  /** The event the serve loop's `select` takes in one iteration. */
  datatype Event<T> =
    | Add                                // `Subscribe` made a channel and sent it on addListener
    | Remove(ch: Chan)                   // `CancelSubscription(ch)` sent ch on removeListener
    | Value(val: T)                      // the source produced a value and every send completed
    | SourceClosed                       // the source channel was closed
    | Done                               // ctx.Done() was chosen by the outer select
    | DoneDuringSend(val: T, sent: nat)  // ctx.Done() won while sending val, after `sent` sends

  /** The hub's state: the listener slice, the send and close logs, and whether serve still runs. */
  datatype Hub<T> = Hub(listeners: seq<Chan>, sent: seq<(Chan, T)>, closed: seq<Chan>, running: bool, nextId: nat)

  ghost predicate Distinct<X>(s: seq<X>)
  {
    forall i, j :: 0 <= i < j < |s| ==> s[i] != s[j]
  }

  /**
   * The hub's invariant: listeners are non-nil, made by `make` and distinct;
   * no channel is closed twice; while the loop runs, a registered listener
   * has not been closed.
   */
  ghost predicate Valid<T>(h: Hub<T>)
  {
    && Nil !in h.listeners
    && Distinct(h.listeners)
    && Distinct(h.closed)
    && (h.running ==> forall c :: c in h.listeners ==> c !in h.closed)
    && (forall c :: c in h.listeners ==> c.id < h.nextId)
    && (forall c :: c in h.closed ==> c != Nil && c.id < h.nextId)
  }

  function Initial<T>(): (h: Hub<T>)
    ensures Valid(h) && h.running && h.listeners == []
  {
    Hub([], [], [], true, 0)
  }

  /** The non-nil listeners, in slice order: those the loop sends to and closes. */
  function Live(ls: seq<Chan>): seq<Chan>
  {
    Without(ls, Nil)
  }

  /** The sends of one source value: one per non-nil listener, in slice order. */
  function Deliveries<T>(ls: seq<Chan>, val: T): seq<(Chan, T)>
  {
    if |ls| == 0 then []
    else (if ls[0] != Nil then [(ls[0], val)] else []) + Deliveries(ls[1..], val)
  }

  /** Swap-with-last removal of the first occurrence of ch; the slice is unchanged if ch is absent. */
  function SwapRemove(ls: seq<Chan>, ch: Chan): (r: seq<Chan>)
    ensures ch !in ls ==> r == ls
    ensures ch in ls ==> |r| == |ls| - 1
  {
    var i := IndexOf(ls, ch);
    if i < 0 then ls else SwapOut(ls, i)
  }

  /** The slice with the last element moved into slot `i` and the last slot cut off. */
  function SwapOut<X>(ls: seq<X>, i: nat): (r: seq<X>)
    requires i < |ls|
    ensures |r| == |ls| - 1
    ensures forall j :: 0 <= j < |r| ==> r[j] == if j == i then ls[|ls| - 1] else ls[j]
  {
    if i == |ls| - 1 then ls[..i] else ls[..i] + [ls[|ls| - 1]] + ls[i + 1..|ls| - 1]
  }

  /** The deferred function: close every non-nil listener that is still registered. */
  function Stop<T>(h: Hub<T>): Hub<T>
  {
    h.(running := false, closed := h.closed + Live(h.listeners))
  }

  /** One iteration of the serve loop. */
  function Step<T>(h: Hub<T>, e: Event<T>): Hub<T>
  {
    if !h.running then h
    else match e
      case Add => h.(listeners := h.listeners + [Chan(h.nextId)], nextId := h.nextId + 1)
      case Remove(ch) =>
        if ch in h.listeners then h.(listeners := SwapRemove(h.listeners, ch), closed := h.closed + [ch])
        else h
      case Value(val) => h.(sent := h.sent + Deliveries(h.listeners, val))
      case SourceClosed => Stop(h)
      case Done => Stop(h)
      case DoneDuringSend(val, k) =>
        var d := Deliveries(h.listeners, val);
        Stop(h.(sent := h.sent + d[..if k < |d| then k else |d|]))
  }

  /** The serve loop over a sequence of events. */
  function Run<T>(h: Hub<T>, events: seq<Event<T>>): Hub<T>
    decreases |events|
  {
    if |events| == 0 then h else Run(Step(h, events[0]), events[1..])
  }

  /** The values a channel has received, in the order they were sent. */
  function ReceivedBy<T>(log: seq<(Chan, T)>, ch: Chan): seq<T>
  {
    if |log| == 0 then []
    else (if log[0].0 == ch then [log[0].1] else []) + ReceivedBy(log[1..], ch)
  }

  lemma {:induction false} ReceivedByAppend<T>(a: seq<(Chan, T)>, b: seq<(Chan, T)>, ch: Chan)
    ensures ReceivedBy(a + b, ch) == ReceivedBy(a, ch) + ReceivedBy(b, ch)
  {
    if |a| == 0 {
      assert a + b == b;
    } else {
      var ab := a + b;
      assert ab[0] == a[0];
      assert ab[1..] == a[1..] + b;
      ReceivedByAppend(a[1..], b, ch);
      var head := if a[0].0 == ch then [a[0].1] else [];
      assert ReceivedBy(ab, ch) == head + ReceivedBy(ab[1..], ch);
      assert ReceivedBy(a, ch) == head + ReceivedBy(a[1..], ch);
    }
  }

  /** A value is sent once to each non-nil listener, in the order of the slice. */
  lemma {:induction false} DeliveriesInOrder<T>(ls: seq<Chan>, val: T)
    ensures |Deliveries(ls, val)| == |Live(ls)|
    ensures forall i :: 0 <= i < |Live(ls)| ==> Deliveries(ls, val)[i] == (Live(ls)[i], val)
  {
    if |ls| > 0 {
      DeliveriesInOrder(ls[1..], val);
      var d, live := Deliveries(ls[1..], val), Live(ls[1..]);
      if ls[0] != Nil {
        assert Deliveries(ls, val) == [(ls[0], val)] + d;
        assert Live(ls) == [ls[0]] + live;
      } else {
        assert Deliveries(ls, val) == d;
        assert Live(ls) == live;
      }
    }
  }

  /**
   * A registered listener receives the value exactly once, after everything
   * it received before; a channel that is not registered receives nothing.
   */
  lemma {:induction false} DeliveriesReachEachOnce<T>(ls: seq<Chan>, val: T, ch: Chan)
    requires ch != Nil && Distinct(ls)
    ensures ch in ls ==> ReceivedBy(Deliveries(ls, val), ch) == [val]
    ensures ch !in ls ==> ReceivedBy(Deliveries(ls, val), ch) == []
  {
    if |ls| > 0 {
      var head := if ls[0] != Nil then [(ls[0], val)] else [];
      ReceivedByAppend(head, Deliveries(ls[1..], val), ch);
      assert ls == [ls[0]] + ls[1..];
      DeliveriesReachEachOnce(ls[1..], val, ch);
    }
  }

  /** A sequence is duplicate-free exactly when no value occurs in it twice. */
  lemma {:induction false} DistinctCounts<X>(s: seq<X>)
    ensures Distinct(s) <==> forall x :: multiset(s)[x] <= 1
  {
    if |s| > 0 {
      var t := s[1..];
      DistinctCounts(t);
      assert s == [s[0]] + t;
      if Distinct(s) {
        assert s[0] !in t;
        assert Distinct(t) by {
          forall i, j | 0 <= i < j < |t| ensures t[i] != t[j] {
            assert s[i + 1] != s[j + 1];
          }
        }
      }
      if forall x :: multiset(s)[x] <= 1 {
        assert forall x :: multiset(t)[x] <= multiset(s)[x];
        assert multiset(t)[s[0]] == 0;
        forall i, j | 0 <= i < j < |s| ensures s[i] != s[j] {
          if i == 0 {
            assert s[j] in t;
          } else {
            assert t[i - 1] != t[j - 1];
          }
        }
      }
    }
  }

  /** Swap-with-last removal drops exactly ch: the other listeners stay, possibly reordered. */
  lemma SwapRemoveDropsOnly(ls: seq<Chan>, ch: Chan)
    requires ch in ls && Distinct(ls)
    ensures multiset(SwapRemove(ls, ch)) == multiset(ls) - multiset{ch}
    ensures Distinct(SwapRemove(ls, ch))
    ensures ch !in SwapRemove(ls, ch)
    ensures forall c :: c in SwapRemove(ls, ch) <==> c in ls && c != ch
  {
    var r := SwapRemove(ls, ch);
    SwapRemoveCounts(ls, ch);
    DistinctCounts(ls);
    DistinctCounts(r);
    assert multiset(ls)[ch] == 1;
    forall c ensures c in r <==> c in ls && c != ch {
      assert multiset(r)[c] == if c == ch then 0 else multiset(ls)[c];
    }
  }

  lemma SwapRemoveCounts(ls: seq<Chan>, ch: Chan)
    requires ch in ls
    ensures multiset(SwapRemove(ls, ch)) == multiset(ls) - multiset{ch}
  {
    SwapOutCounts(ls, IndexOf(ls, ch));
  }

  /** Overwriting slot `i` with the last element and then cutting the last one off is `SwapOut` at `i`. */
  lemma SwapInPlace<X>(ls: seq<X>, i: nat)
    requires i < |ls|
    ensures ls[i := ls[|ls| - 1]][..|ls| - 1] == SwapOut(ls, i)
  {
  }

  /** Swapping out slot `i` keeps every element but the one that was there. */
  lemma SwapOutCounts<X>(ls: seq<X>, i: nat)
    requires i < |ls|
    ensures multiset(SwapOut(ls, i)) == multiset(ls) - multiset{ls[i]}
  {
    var a, x, last := ls[..i], ls[i], ls[|ls| - 1];
    if i == |ls| - 1 {
      assert ls == a + [x];
    } else {
      var b := ls[i + 1..|ls| - 1];
      assert ls == a + [x] + b + [last];
      SwapParts(a, x, b, last);
    }
  }

  lemma SwapParts<X>(a: seq<X>, x: X, b: seq<X>, last: X)
    ensures multiset(a + [last] + b) == multiset(a + [x] + b + [last]) - multiset{x}
  {
    assert multiset(a + [x] + b + [last]) == multiset(a) + multiset{x} + multiset(b) + multiset{last};
    assert multiset(a + [last] + b) == multiset(a) + multiset{last} + multiset(b);
  }

  /** The live listeners are the non-nil ones, each once. */
  lemma LiveProperties(ls: seq<Chan>)
    requires Distinct(ls)
    ensures Distinct(Live(ls))
    ensures forall c :: c in Live(ls) <==> c in ls && c != Nil
  {
    WithoutCounts(ls, Nil);
    DistinctCounts(ls);
    DistinctCounts(Live(ls));
    forall c ensures c in Live(ls) <==> c in ls && c != Nil {
      assert multiset(Live(ls))[c] == if c == Nil then 0 else multiset(ls)[c];
    }
  }

  lemma DistinctAppend<X>(a: seq<X>, b: seq<X>)
    requires Distinct(a) && Distinct(b)
    requires forall x :: x in a ==> x !in b
    ensures Distinct(a + b)
  {
    forall i, j | 0 <= i < j < |a + b| ensures (a + b)[i] != (a + b)[j] {
      if j >= |a| && i < |a| {
        assert (a + b)[i] in a && (a + b)[j] in b;
      }
    }
  }

  /**
   * Every step keeps the invariant; in particular no channel is ever closed
   * twice, and a removed channel is closed once and leaves the slice.
   */
  lemma StepKeepsValid<T>(h: Hub<T>, e: Event<T>)
    requires Valid(h)
    ensures Valid(Step(h, e))
  {
    if h.running {
      match e
      case Add =>
        var c := Chan(h.nextId);
        assert c !in h.listeners && c !in h.closed;
        DistinctAppend(h.listeners, [c]);
      case Remove(ch) =>
        if ch in h.listeners {
          SwapRemoveDropsOnly(h.listeners, ch);
          DistinctAppend(h.closed, [ch]);
        }
      case Value(_) =>
      case SourceClosed => StopKeepsValid(h);
      case Done => StopKeepsValid(h);
      case DoneDuringSend(val, k) =>
        var d := Deliveries(h.listeners, val);
        StopKeepsValid(h.(sent := h.sent + d[..if k < |d| then k else |d|]));
    }
  }

  lemma StopKeepsValid<T>(h: Hub<T>)
    requires Valid(h) && h.running
    ensures Valid(Stop(h)) && !Stop(h).running
  {
    LiveProperties(h.listeners);
    DistinctAppend(h.closed, Live(h.listeners));
  }

  /**
   * Removing a registered channel moves the last listener into its slot,
   * shrinks the slice by one and closes that channel once; an unknown
   * channel changes nothing and closes nothing.
   */
  lemma RemoveSwapsLast<T>(h: Hub<T>, ch: Chan)
    requires Valid(h) && h.running
    ensures var h' := Step(h, Remove(ch));
      if ch in h.listeners then
        var i := IndexOf(h.listeners, ch);
        && |h'.listeners| == |h.listeners| - 1
        && (i < |h'.listeners| ==> h'.listeners[i] == h.listeners[|h.listeners| - 1])
        && (forall j :: 0 <= j < |h'.listeners| && j != i ==> h'.listeners[j] == h.listeners[j])
        && h'.closed == h.closed + [ch] && ch !in h.closed
        && (forall c :: c in h'.listeners <==> c in h.listeners && c != ch)
      else h' == h
  {
    if ch in h.listeners {
      var h' := Step(h, Remove(ch));
      assert h'.listeners == SwapRemove(h.listeners, ch) && h'.closed == h.closed + [ch];
      SwapRemoveDropsOnly(h.listeners, ch);
      SwapRemoveAt(h.listeners, ch);
    }
  }

  /** Position by position: the removed slot holds the old last element, the others are unchanged. */
  lemma SwapRemoveAt(ls: seq<Chan>, ch: Chan)
    requires ch in ls
    ensures SwapRemove(ls, ch) == SwapOut(ls, IndexOf(ls, ch))
    ensures var i, r := IndexOf(ls, ch), SwapRemove(ls, ch);
      forall j :: 0 <= j < |r| ==> r[j] == if j == i then ls[|ls| - 1] else ls[j]
  {
  }

  /**
   * When the loop stops, every non-nil listener still registered is closed,
   * and each channel appears in the close log exactly once.
   */
  lemma StopClosesEach<T>(h: Hub<T>)
    requires Valid(h) && h.running
    ensures forall c :: c in h.listeners && c != Nil ==> c in Stop(h).closed
    ensures forall i, j :: 0 <= i < j < |Stop(h).closed| ==> Stop(h).closed[i] != Stop(h).closed[j]
    ensures !Stop(h).running
  {
    StopKeepsValid(h);
    LiveProperties(h.listeners);
  }

  /** Once the serve loop has returned, no later event changes anything. */
  lemma {:induction false} StoppedStaysStopped<T>(h: Hub<T>, events: seq<Event<T>>)
    requires !h.running
    ensures Run(h, events) == h
    decreases |events|
  {
    if |events| > 0 {
      StoppedStaysStopped(Step(h, events[0]), events[1..]);
    }
  }

  /** A step only appends to the send log. */
  lemma StepExtendsSent<T>(h: Hub<T>, e: Event<T>)
    ensures h.sent <= Step(h, e).sent
  {
  }

  /**
   * Per-subscription order: whatever a channel has received is a prefix of
   * what it has received after any further events.
   */
  lemma {:induction false} ReceivedOnlyGrows<T>(h: Hub<T>, events: seq<Event<T>>, ch: Chan)
    ensures ReceivedBy(h.sent, ch) <= ReceivedBy(Run(h, events).sent, ch)
    decreases |events|
  {
    if |events| > 0 {
      var h' := Step(h, events[0]);
      StepExtendsSent(h, events[0]);
      var d := h'.sent[|h.sent|..];
      assert h'.sent == h.sent + d;
      ReceivedByAppend(h.sent, d, ch);
      ReceivedOnlyGrows(h', events[1..], ch);
    }
  }

  /**
   * A value from the source reaches each registered listener exactly once, at
   * the end of what it had received; other channels receive nothing.
   */
  lemma ValueReachesListeners<T>(h: Hub<T>, val: T, ch: Chan)
    requires Valid(h) && h.running && ch != Nil
    ensures ch in h.listeners ==> ReceivedBy(Step(h, Value(val)).sent, ch) == ReceivedBy(h.sent, ch) + [val]
    ensures ch !in h.listeners ==> ReceivedBy(Step(h, Value(val)).sent, ch) == ReceivedBy(h.sent, ch)
  {
    ReceivedByAppend(h.sent, Deliveries(h.listeners, val), ch);
    DeliveriesReachEachOnce(h.listeners, val, ch);
  }

  /**
   * The serve loop as a class: the fields are the loop's local state and the
   * two logs; each method performs one event and is proved against Step.
   */
  class BroadcastServer<T> {
    var listeners: seq<Chan>
    var sent: seq<(Chan, T)>
    var closed: seq<Chan>
    var running: bool
    var nextId: nat

    function State(): Hub<T>
      reads this
    {
      Hub(listeners, sent, closed, running, nextId)
    }

    /** `NewBroadcastServer`: an empty listener slice and a running loop. */
    constructor ()
      ensures State() == Initial()
    {
      listeners, sent, closed, running, nextId := [], [], [], true, 0;
    }

    /** `Subscribe` together with the loop's `append`: a fresh channel joins the end of the slice. */
    method Subscribe() returns (ch: Chan)
      requires Valid(State())
      modifies this
      ensures State() == Step(old(State()), Add)
      ensures Valid(State())
      ensures old(running) ==> ch == Chan(old(nextId)) && listeners == old(listeners) + [ch]
    {
      StepKeepsValid(State(), Add);
      ch := Chan(nextId);
      if running {
        listeners := listeners + [ch];
        nextId := nextId + 1;
      }
    }

    /** The loop's removeListener case: find the channel, swap in the last listener, shrink, close. */
    method CancelSubscription(target: Chan)
      requires Valid(State())
      modifies this
      ensures State() == Step(old(State()), Remove(target))
      ensures Valid(State())
    {
      StepKeepsValid(State(), Remove(target));
      if !running {
        return;
      }
      var i := 0;
      while i < |listeners|
        invariant 0 <= i <= |listeners|
        invariant forall j :: 0 <= j < i ==> listeners[j] != target
      {
        if listeners[i] == target {
          assert IndexOf(listeners, target) == i;
          SwapOutAndClose(i);
          return;
        }
        i := i + 1;
      }
      assert target !in listeners;
    }

    /** The found case of the removeListener loop: move the last listener into slot `i`, shrink, close the channel. */
    method SwapOutAndClose(i: nat)
      requires i < |listeners|
      modifies this
      ensures listeners == SwapOut(old(listeners), i) && closed == old(closed) + [old(listeners)[i]]
      ensures sent == old(sent) && running == old(running) && nextId == old(nextId)
    {
      ghost var ls := listeners;
      var target := listeners[i];
      listeners := listeners[i := listeners[|listeners| - 1]];
      listeners := listeners[..|listeners| - 1];
      SwapInPlace(ls, i);
      closed := closed + [target];
    }

    /** The loop's source case: send the value to every non-nil listener, in slice order. */
    method Deliver(val: T)
      requires Valid(State())
      modifies this
      ensures State() == Step(old(State()), Value(val))
      ensures Valid(State())
    {
      StepKeepsValid(State(), Value(val));
      if !running {
        return;
      }
      var i := 0;
      while i < |listeners|
        invariant 0 <= i <= |listeners|
        invariant listeners == old(listeners) && closed == old(closed) && nextId == old(nextId) && running
        invariant sent == old(sent) + Deliveries(listeners[..i], val)
      {
        DeliveriesSnoc(listeners[..i], listeners[i], val);
        assert listeners[..i + 1] == listeners[..i] + [listeners[i]];
        if listeners[i] != Nil {
          sent := sent + [(listeners[i], val)];
        }
        i := i + 1;
      }
      assert listeners[..i] == listeners;
    }

    /** The deferred function run when serve returns: close every non-nil listener. */
    method Shutdown()
      requires Valid(State()) && running
      modifies this
      ensures State() == Stop(old(State()))
      ensures Valid(State())
    {
      StopKeepsValid(State());
      var i := 0;
      while i < |listeners|
        invariant 0 <= i <= |listeners|
        invariant listeners == old(listeners) && sent == old(sent) && nextId == old(nextId)
        invariant closed == old(closed) + Live(listeners[..i])
      {
        LivePrefixStep(listeners, i);
        if listeners[i] != Nil {
          closed := closed + [listeners[i]];
        }
        i := i + 1;
      }
      assert listeners[..i] == listeners;
      running := false;
    }

    /** The whole serve loop over the events its select takes, in order. */
    method Serve(events: seq<Event<T>>)
      requires Valid(State())
      modifies this
      ensures State() == Run(old(State()), events)
      ensures Valid(State())
    {
      var k := 0;
      while k < |events|
        invariant 0 <= k <= |events|
        decreases |events| - k
        invariant Valid(State())
        invariant Run(old(State()), events) == Run(State(), events[k..])
      {
        assert events[k..][1..] == events[k + 1..];
        if !running {
          StoppedStaysStopped(State(), events[k..]);
          return;
        }
        match events[k] {
          case Add =>
            var _ := Subscribe();
          case Remove(ch) =>
            CancelSubscription(ch);
          case Value(val) =>
            Deliver(val);
          case SourceClosed =>
            Shutdown();
          case Done =>
            Shutdown();
          case DoneDuringSend(val, n) =>
            DeliverSome(val, n);
            Shutdown();
        }
        k := k + 1;
      }
    }

    /** The sends of a value that completed before ctx.Done() won the inner select. */
    method DeliverSome(val: T, n: nat)
      requires Valid(State()) && running
      modifies this
      ensures var d := Deliveries(old(listeners), val);
              State() == old(State()).(sent := old(sent) + d[..if n < |d| then n else |d|])
      ensures Valid(State()) && running
    {
      var i := 0;
      var count := 0;
      ghost var d := Deliveries(listeners, val);
      DeliveriesPrefix(listeners, val);
      while i < |listeners| && count < n
        invariant 0 <= i <= |listeners|
        invariant listeners == old(listeners) && closed == old(closed) && nextId == old(nextId) && running
        invariant count == |Deliveries(listeners[..i], val)| <= n
        invariant sent == old(sent) + Deliveries(listeners[..i], val)
        invariant Deliveries(listeners[..i], val) <= d
      {
        DeliveriesPrefixStep(listeners, i, val);
        DeliveriesPrefixAt(listeners, i + 1, val);
        if listeners[i] != Nil {
          sent := sent + [(listeners[i], val)];
          count := count + 1;
        }
        i := i + 1;
      }
      if i == |listeners| {
        assert listeners[..i] == listeners;
      } else {
        assert Deliveries(listeners[..i], val) == d[..n];
      }
    }
  }

  /** One more slot of the slice adds one send when its listener is not nil. */
  lemma DeliveriesPrefixStep<T>(ls: seq<Chan>, i: nat, val: T)
    requires i < |ls|
    ensures Deliveries(ls[..i + 1], val) == Deliveries(ls[..i], val) + (if ls[i] != Nil then [(ls[i], val)] else [])
  {
    DeliveriesSnoc(ls[..i], ls[i], val);
    assert ls[..i + 1] == ls[..i] + [ls[i]];
  }

  lemma DeliveriesSnoc<T>(ls: seq<Chan>, c: Chan, val: T)
    ensures Deliveries(ls + [c], val) == Deliveries(ls, val) + (if c != Nil then [(c, val)] else [])
  {
    DeliveriesAppend(ls, [c], val);
    assert Deliveries([c], val) == (if c != Nil then [(c, val)] else []) + Deliveries([c][1..], val);
  }

  /** One more slot of the slice adds its listener to the live ones when it is not nil. */
  lemma LivePrefixStep(ls: seq<Chan>, i: nat)
    requires i < |ls|
    ensures Live(ls[..i + 1]) == Live(ls[..i]) + (if ls[i] != Nil then [ls[i]] else [])
  {
    LiveSnoc(ls[..i], ls[i]);
    assert ls[..i + 1] == ls[..i] + [ls[i]];
  }

  lemma LiveSnoc(ls: seq<Chan>, c: Chan)
    ensures Live(ls + [c]) == Live(ls) + (if c != Nil then [c] else [])
  {
    WithoutAppend(ls, [c], Nil);
  }

  lemma {:induction false} DeliveriesPrefix<T>(ls: seq<Chan>, val: T)
    ensures forall i :: 0 <= i <= |ls| ==> Deliveries(ls[..i], val) <= Deliveries(ls, val)
  {
    forall i | 0 <= i <= |ls| ensures Deliveries(ls[..i], val) <= Deliveries(ls, val) {
      DeliveriesPrefixAt(ls, i, val);
    }
  }

  lemma {:induction false} DeliveriesPrefixAt<T>(ls: seq<Chan>, i: nat, val: T)
    requires i <= |ls|
    ensures Deliveries(ls[..i], val) <= Deliveries(ls, val)
    ensures i < |ls| && ls[i] != Nil ==> Deliveries(ls[..i + 1], val) <= Deliveries(ls, val)
  {
    DeliveriesAppend(ls[..i], ls[i..], val);
    assert ls == ls[..i] + ls[i..];
    if i < |ls| {
      DeliveriesAppend(ls[..i + 1], ls[i + 1..], val);
      assert ls == ls[..i + 1] + ls[i + 1..];
    }
  }

  lemma {:induction false} DeliveriesAppend<T>(a: seq<Chan>, b: seq<Chan>, val: T)
    ensures Deliveries(a + b, val) == Deliveries(a, val) + Deliveries(b, val)
  {
    if |a| == 0 {
      assert a + b == b;
    } else {
      var head := if a[0] != Nil then [(a[0], val)] else [];
      assert (a + b)[0] == a[0] && (a + b)[1..] == a[1..] + b;
      assert Deliveries(a + b, val) == head + Deliveries(a[1..] + b, val);
      DeliveriesAppend(a[1..], b, val);
      assert Deliveries(a, val) == head + Deliveries(a[1..], val);
    }
  }
}
