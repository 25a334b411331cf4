/**
 * `createEventBus`: a map from event names to insertion-ordered sets of
 * handlers. Handlers are opaque functions, named here by identities; what
 * a handler does when it runs is given by a `Reaction`: the subscriptions
 * it adds or removes on the same bus, and whether it then throws.
 */
module EventBus {
  import opened Wrappers

  type Event = string
  type Handler = nat

  datatype BusOp = Subscribe(event: Event, handler: Handler) | Unsubscribe(event: Event, handler: Handler)

  datatype Reaction = Reaction(ops: seq<BusOp>, throws: bool)

  /** The wrapper installed by `once`: it removes itself from its event, then calls the handler. */
  datatype OnceTarget = OnceTarget(event: Event, handler: Handler)

  predicate NoRepeats(s: seq<Handler>) {
    forall i, j :: 0 <= i < j < |s| ==> s[i] != s[j]
  }

  /** `Set.prototype.add`: a handler already present keeps its place. */
  function Add(s: seq<Handler>, h: Handler): (r: seq<Handler>)
    ensures forall x :: x in r <==> x in s || x == h
    ensures NoRepeats(s) ==> NoRepeats(r)
  {
    if h in s then s else s + [h]
  }

  /** `Set.prototype.delete`. */
  function Remove(s: seq<Handler>, h: Handler): (r: seq<Handler>)
    ensures forall x :: x in r <==> x in s && x != h
    ensures NoRepeats(s) ==> NoRepeats(r)
  {
    if s == [] then []
    else if s[0] == h then Remove(s[1..], h)
    else
      NoRepeatsTail(s);
      [s[0]] + Remove(s[1..], h)
  }

  lemma NoRepeatsTail(s: seq<Handler>)
    requires s != []
    ensures NoRepeats(s) ==> NoRepeats(s[1..]) && s[0] !in s[1..]
  {
  }

  /** Every event's handlers are free of repetitions, as in a Set. */
  predicate SetLike(ls: map<Event, seq<Handler>>) {
    forall e :: e in ls ==> NoRepeats(ls[e])
  }

  lemma {:induction false} ApplyOpsSetLike(ls: map<Event, seq<Handler>>, ops: seq<BusOp>)
    requires SetLike(ls)
    ensures SetLike(ApplyOps(ls, ops))
    decreases |ops|
  {
    if ops != [] {
      var next := match ops[0]
        case Subscribe(e, h) => AddListener(ls, e, h)
        case Unsubscribe(e, h) => RemoveListener(ls, e, h);
      ApplyOpsSetLike(next, ops[1..]);
    }
  }

  function Subscribed(ls: map<Event, seq<Handler>>, e: Event): seq<Handler> {
    if e in ls then ls[e] else []
  }

  function AddListener(ls: map<Event, seq<Handler>>, e: Event, h: Handler): map<Event, seq<Handler>> {
    ls[e := Add(Subscribed(ls, e), h)]
  }

  /** `listeners.get(event)?.delete(fn)`: an unknown event stays unknown. */
  function RemoveListener(ls: map<Event, seq<Handler>>, e: Event, h: Handler): map<Event, seq<Handler>> {
    if e in ls then ls[e := Remove(ls[e], h)] else ls
  }

  function ApplyOps(ls: map<Event, seq<Handler>>, ops: seq<BusOp>): map<Event, seq<Handler>>
    decreases |ops|
  {
    if ops == [] then ls
    else
      var next := match ops[0]
        case Subscribe(e, h) => AddListener(ls, e, h)
        case Unsubscribe(e, h) => RemoveListener(ls, e, h);
      ApplyOps(next, ops[1..])
  }

  /** The function a subscription finally calls. */
  function Callee(wraps: map<Handler, OnceTarget>, h: Handler): Handler {
    if h in wraps then wraps[h].handler else h
  }

  /** The effect on the subscriptions of running one subscribed function. */
  function Invoke(ls: map<Event, seq<Handler>>, wraps: map<Handler, OnceTarget>, h: Handler, react: Handler -> Reaction): map<Event, seq<Handler>> {
    if h in wraps then ApplyOps(RemoveListener(ls, wraps[h].event, h), react(wraps[h].handler).ops)
    else ApplyOps(ls, react(h).ops)
  }

  /** The subscriptions after running the functions of a snapshot in order. */
  function InvokeAll(ls: map<Event, seq<Handler>>, wraps: map<Handler, OnceTarget>, hs: seq<Handler>, react: Handler -> Reaction): map<Event, seq<Handler>>
    decreases |hs|
  {
    if hs == [] then ls else Invoke(InvokeAll(ls, wraps, hs[..|hs| - 1], react), wraps, hs[|hs| - 1], react)
  }

  function Callees(wraps: map<Handler, OnceTarget>, hs: seq<Handler>): (r: seq<Handler>)
    ensures |r| == |hs|
    ensures forall i :: 0 <= i < |hs| ==> r[i] == Callee(wraps, hs[i])
  {
    if hs == [] then [] else Callees(wraps, hs[..|hs| - 1]) + [Callee(wraps, hs[|hs| - 1])]
  }

  /** One more function of the snapshot: its effect follows those before it, and its callee is reached last. */
  lemma InvokeAllSnoc(ls: map<Event, seq<Handler>>, wraps: map<Handler, OnceTarget>, hs: seq<Handler>, i: nat, react: Handler -> Reaction)
    requires i < |hs|
    ensures InvokeAll(ls, wraps, hs[..i + 1], react) == Invoke(InvokeAll(ls, wraps, hs[..i], react), wraps, hs[i], react)
    ensures Callees(wraps, hs[..i + 1]) == Callees(wraps, hs[..i]) + [Callee(wraps, hs[i])]
  {
    var p := hs[..i + 1];
    assert p[..|p| - 1] == hs[..i] && p[|p| - 1] == hs[i];
  }

  /** Subscribing the same function twice leaves a single subscription. */
  lemma SubscribeTwice(ls: map<Event, seq<Handler>>, e: Event, h: Handler)
    ensures AddListener(AddListener(ls, e, h), e, h) == AddListener(ls, e, h)
    ensures h in Subscribed(AddListener(ls, e, h), e)
  {
  }

  /** After an unsubscribe the function is no longer reached by the event. */
  lemma UnsubscribeRemoves(ls: map<Event, seq<Handler>>, e: Event, h: Handler)
    ensures h !in Subscribed(RemoveListener(ls, e, h), e)
    ensures forall x :: x != h && x in Subscribed(ls, e) ==> x in Subscribed(RemoveListener(ls, e, h), e)
  {
  }

  /** Operations that never subscribe h to e keep h away from e. */
  lemma {:induction false} ApplyOpsKeepsOut(ls: map<Event, seq<Handler>>, ops: seq<BusOp>, e: Event, h: Handler)
    requires h !in Subscribed(ls, e)
    requires Subscribe(e, h) !in ops
    ensures h !in Subscribed(ApplyOps(ls, ops), e)
    decreases |ops|
  {
    if ops != [] {
      var next := match ops[0]
        case Subscribe(e', h') => AddListener(ls, e', h')
        case Unsubscribe(e', h') => RemoveListener(ls, e', h');
      assert ops == [ops[0]] + ops[1..];
      ApplyOpsKeepsOut(next, ops[1..], e, h);
    }
  }

  /**
   * A `once` wrapper that fired during an emit is unsubscribed afterwards,
   * unless some handler explicitly subscribed it again: its handler runs at
   * most once per subscription.
   */
  lemma {:induction false} OnceFiresOnce(ls: map<Event, seq<Handler>>, wraps: map<Handler, OnceTarget>, hs: seq<Handler>, react: Handler -> Reaction, w: Handler)
    requires w in wraps && w in hs
    requires forall x :: Subscribe(wraps[w].event, w) !in react(x).ops
    ensures w !in Subscribed(InvokeAll(ls, wraps, hs, react), wraps[w].event)
    decreases |hs|
  {
    var e := wraps[w].event;
    var init := hs[..|hs| - 1];
    var last := hs[|hs| - 1];
    var before := InvokeAll(ls, wraps, init, react);
    if last == w {
      ApplyOpsKeepsOut(RemoveListener(before, e, w), react(wraps[w].handler).ops, e, w);
    } else {
      assert w in init by {
        var k :| 0 <= k < |hs| && hs[k] == w;
        assert init[k] == w;
      }
      OnceFiresOnce(ls, wraps, init, react, w);
      if last in wraps {
        ApplyOpsKeepsOut(RemoveListener(before, wraps[last].event, last), react(wraps[last].handler).ops, e, w);
      } else {
        ApplyOpsKeepsOut(before, react(last).ops, e, w);
      }
    }
  }

  class Bus {
    var listeners: map<Event, seq<Handler>>
    var wraps: map<Handler, OnceTarget>

    predicate Valid()
      reads this
    {
      SetLike(listeners)
    }

    constructor ()
      ensures Valid() && listeners == map[] && wraps == map[]
    {
      listeners := map[];
      wraps := map[];
    }

    /** `on(event, fn)`; the unsubscribe function it returns is `Off(event, fn)`. */
    method On(e: Event, h: Handler)
      requires Valid()
      modifies this
      ensures Valid()
      ensures listeners == AddListener(old(listeners), e, h) && wraps == old(wraps)
    {
      if e !in listeners {
        listeners := listeners[e := []];
      }
      listeners := listeners[e := Add(listeners[e], h)];
    }

    /**
     * `off(event, fn)` of app/main_00.js and app/main.js, and the function
     * returned by `on`: None for an event never subscribed to (`undefined`),
     * otherwise whether the handler was subscribed.
     */
    method Off(e: Event, h: Handler) returns (r: Option<bool>)
      requires Valid()
      modifies this
      ensures Valid()
      ensures listeners == RemoveListener(old(listeners), e, h) && wraps == old(wraps)
      ensures e !in old(listeners) <==> r.None?
      ensures r.Some? ==> (r.value <==> h in old(listeners)[e])
      ensures e in listeners ==> h !in listeners[e]
    {
      if e in listeners {
        r := Some(h in listeners[e]);
        listeners := listeners[e := Remove(listeners[e], h)];
      } else {
        r := None;
      }
    }

    /**
     * `off(event, handler)` of app/main_01.js: false for an unknown event;
     * without a handler the whole event is dropped and the answer is true;
     * with one, whether it was subscribed.
     */
    method OffEvent(e: Event, h: Option<Handler>) returns (r: bool)
      requires Valid()
      modifies this
      ensures Valid() && wraps == old(wraps)
      ensures e !in old(listeners) ==> !r && listeners == old(listeners)
      ensures e in old(listeners) && h.None? ==> r && listeners == map k | k in old(listeners) && k != e :: old(listeners)[k]
      ensures e in old(listeners) && h.Some? ==> (r <==> h.value in old(listeners)[e]) && listeners == RemoveListener(old(listeners), e, h.value)
    {
      if e !in listeners {
        r := false;
      } else if h.None? {
        listeners := map k | k in listeners && k != e :: listeners[k];
        r := true;
      } else {
        r := h.value in listeners[e];
        listeners := listeners[e := Remove(listeners[e], h.value)];
      }
    }

    /** `once(event, handler)`: subscribes a fresh wrapper that unsubscribes itself before calling handler. */
    method Once(e: Event, h: Handler, wrapper: Handler)
      requires Valid()
      requires wrapper !in wraps && wrapper !in Subscribed(listeners, e)
      modifies this
      ensures Valid()
      ensures listeners == AddListener(old(listeners), e, wrapper)
      ensures wraps == old(wraps)[wrapper := OnceTarget(e, h)]
    {
      wraps := wraps[wrapper := OnceTarget(e, h)];
      On(e, wrapper);
    }

    /**
     * `emit(event, payload)`: every function subscribed when the emit began
     * is called once, in subscription order, whatever the called handlers
     * subscribe, unsubscribe or throw; `invoked` lists the handlers reached.
     */
    method Emit(e: Event, react: Handler -> Reaction) returns (invoked: seq<Handler>)
      requires Valid()
      modifies this
      ensures Valid() && wraps == old(wraps)
      ensures invoked == Callees(wraps, Subscribed(old(listeners), e))
      ensures listeners == InvokeAll(old(listeners), wraps, Subscribed(old(listeners), e), react)
    {
      var snapshot := Subscribed(listeners, e);
      invoked := [];
      var i := 0;
      while i < |snapshot|
        invariant 0 <= i <= |snapshot|
        invariant Valid() && wraps == old(wraps)
        invariant invoked == Callees(wraps, snapshot[..i])
        invariant listeners == InvokeAll(old(listeners), wraps, snapshot[..i], react)
      {
        var h := snapshot[i];
        InvokeAllSnoc(old(listeners), wraps, snapshot, i, react);
        ghost var before := listeners;
        if h in wraps {
          var target := wraps[h];
          var _ := Off(target.event, h);
          ApplyOpsSetLike(listeners, react(target.handler).ops);
          listeners := ApplyOps(listeners, react(target.handler).ops);
          invoked := invoked + [target.handler];
        } else {
          ApplyOpsSetLike(listeners, react(h).ops);
          listeners := ApplyOps(listeners, react(h).ops);
          invoked := invoked + [h];
        }
        assert listeners == Invoke(before, wraps, h, react);
        i := i + 1;
      }
      assert snapshot[..|snapshot|] == snapshot;
    }
  }
}
