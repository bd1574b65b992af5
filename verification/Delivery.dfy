/**
 `connection::async_msg_callback`: what happens to a message nats.c delivers.

 nats.c hands the message over; a null message signals a timeout and runs nothing. Otherwise the
 handler gets the message by value: it may keep it, and it may throw. Whatever it does, the message
 is destroyed exactly once, by the callback or by whoever kept it, and no exception escapes.
 */
module Delivery {
  import opened Common
  import opened Handles
  import M = Messages
  import R = Registry
  import T = RegistryTheorems

  /** What a handler does with the message it is given. */
  datatype Behaviour = Behaviour(keeps: bool, throws: bool)

  datatype Call = Call(handler: int, msg: Handle)

  /** `calls` are the handler invocations so far, `kept` the messages handlers moved out. */
  datatype Log = Log(calls: seq<Call>, kept: seq<Handle>, heap: Heap)

  /** One delivery as a whole. Calling an empty std::function throws without running anything. */
  function Delivered(g: Log, handler: R.Handler, msg: Option<Handle>, b: Behaviour): Log {
    if msg.None? then g
    else if handler.None? then g.(heap := Drop(g.heap, msg))
    else Log(g.calls + [Call(handler.value, msg.value)],
             if b.keeps then g.kept + [msg.value] else g.kept,
             if b.keeps then g.heap else Drop(g.heap, msg))
  }

  class Dispatcher {
    var calls: seq<Call>
    var kept: seq<Handle>
    const nats: M.Nats

    constructor (nats: M.Nats)
      ensures calls == [] && kept == [] && this.nats == nats
    {
      calls, kept, this.nats := [], [], nats;
    }

    function Recorded(): Log
      reads this, nats
    {
      Log(calls, kept, nats.heap)
    }

    /** The user's handler: it owns `parameter` while it runs and reports whether it threw. */
    method Invoke(handler: R.Handler, parameter: M.Message, b: Behaviour) returns (threw: bool)
      requires parameter.msg.Some?
      modifies this, parameter
      ensures threw == (handler.None? || b.throws)
      ensures handler.None? ==> calls == old(calls) && kept == old(kept) && parameter.msg == old(parameter.msg)
      ensures handler.Some? ==>
                && calls == old(calls) + [Call(handler.value, old(parameter.msg.value))]
                && (if b.keeps then kept == old(kept) + [old(parameter.msg.value)] && parameter.msg == None
                    else kept == old(kept) && parameter.msg == old(parameter.msg))
    {
      if handler.None? {
        return true;
      }
      calls := calls + [Call(handler.value, parameter.msg.value)];
      if b.keeps {
        var taken := parameter.Release();
        kept := kept + [taken.value];
      }
      return b.throws;
    }

    /** The callback: the null guard, the by-value parameter, and the catch-all that drops whatever
        the handler threw after the parameter has been destroyed. */
    method AsyncMsgCallback(msg: Option<Handle>, handler: R.Handler, b: Behaviour)
      requires msg.Some? ==> msg.value in nats.heap.live
      modifies this, nats
      ensures Recorded() == Delivered(old(Recorded()), handler, msg, b)
      ensures msg.None? ==> calls == old(calls) && kept == old(kept) && nats.heap == old(nats.heap)
      ensures msg.Some? && handler.Some? ==> calls == old(calls) + [Call(handler.value, msg.value)]
      ensures msg.Some? && handler.None? ==> calls == old(calls)
      ensures msg.Some? && handler.Some? && b.keeps ==>
                kept == old(kept) + [msg.value] && nats.heap == old(nats.heap)
      ensures msg.Some? && (handler.None? || !b.keeps) ==>
                && kept == old(kept)
                && nats.heap.live == old(nats.heap.live) - {msg.value} && nats.heap.destroyed == old(nats.heap.destroyed) + [msg.value]
    {
      if msg.None? {
        return;
      }
      var parameter := new M.Message(msg);
      var threw := Invoke(handler, parameter, b);
      parameter.Destruct(nats);
      if threw {
        // reported on stderr and ignored
      }
    }
  }

  /** A sequence of deliveries to one closure. */
  function DeliveredAll(g: Log, handler: R.Handler, msgs: seq<Option<Handle>>, bs: seq<Behaviour>): Log
    requires |bs| == |msgs|
    decreases |msgs|
  {
    if msgs == [] then g else DeliveredAll(Delivered(g, handler, msgs[0], bs[0]), handler, msgs[1..], bs[1..])
  }

  function CallsFor(handler: R.Handler, hs: seq<Handle>): seq<Call> {
    if handler.None? then [] else seq(|hs|, i requires 0 <= i < |hs| => Call(handler.value, hs[i]))
  }

  /** Delivery accounting: over any sequence of deliveries every message that is not null reaches the
      handler once, in order, and ends up destroyed or kept, never both and never twice; nulls invoke
      nothing and nothing else is destroyed. */
  lemma {:induction false} Accounting(g: Log, handler: R.Handler, msgs: seq<Option<Handle>>, bs: seq<Behaviour>)
    requires |bs| == |msgs| && Distinct(g.heap, msgs)
    ensures
      var t := DeliveredAll(g, handler, msgs, bs);
      && t.calls == g.calls + CallsFor(handler, Somes(msgs))
      && multiset(t.heap.destroyed) + multiset(t.kept) == multiset(g.heap.destroyed) + multiset(g.kept) + multiset(Somes(msgs))
      && (forall h :: h in t.heap.live ==> h in g.heap.live)
      && (forall h :: h in g.heap.live && Some(h) !in msgs ==> h in t.heap.live)
  {
    CallsMade(g, handler, msgs, bs);
    DestroyedOrKept(g, handler, msgs, bs);
    LiveShrinks(g, handler, msgs, bs);
  }

  lemma {:induction false} CallsMade(g: Log, handler: R.Handler, msgs: seq<Option<Handle>>, bs: seq<Behaviour>)
    requires |bs| == |msgs|
    ensures DeliveredAll(g, handler, msgs, bs).calls == g.calls + CallsFor(handler, Somes(msgs))
    decreases |msgs|
  {
    if msgs != [] {
      CallsMade(Delivered(g, handler, msgs[0], bs[0]), handler, msgs[1..], bs[1..]);
      if msgs[0].Some? {
        assert handler.Some? ==>
                 CallsFor(handler, [msgs[0].value] + Somes(msgs[1..])) == [Call(handler.value, msgs[0].value)] + CallsFor(handler, Somes(msgs[1..]));
      } else {
        assert [] + Somes(msgs[1..]) == Somes(msgs[1..]);
      }
    }
  }

  lemma {:induction false} DestroyedOrKept(g: Log, handler: R.Handler, msgs: seq<Option<Handle>>, bs: seq<Behaviour>)
    requires |bs| == |msgs|
    ensures
      var t := DeliveredAll(g, handler, msgs, bs);
      multiset(t.heap.destroyed) + multiset(t.kept) == multiset(g.heap.destroyed) + multiset(g.kept) + multiset(Somes(msgs))
    decreases |msgs|
  {
    if msgs != [] {
      DestroyedOrKept(Delivered(g, handler, msgs[0], bs[0]), handler, msgs[1..], bs[1..]);
      if msgs[0].Some? {
        assert multiset([msgs[0].value] + Somes(msgs[1..])) == multiset{msgs[0].value} + multiset(Somes(msgs[1..]));
      } else {
        assert [] + Somes(msgs[1..]) == Somes(msgs[1..]);
      }
    }
  }

  lemma {:induction false} LiveShrinks(g: Log, handler: R.Handler, msgs: seq<Option<Handle>>, bs: seq<Behaviour>)
    requires |bs| == |msgs|
    ensures
      var t := DeliveredAll(g, handler, msgs, bs);
      && (forall h :: h in t.heap.live ==> h in g.heap.live)
      && (forall h :: h in g.heap.live && Some(h) !in msgs ==> h in t.heap.live)
    decreases |msgs|
  {
    if msgs != [] {
      assert msgs == [msgs[0]] + msgs[1..];
      LiveShrinks(Delivered(g, handler, msgs[0], bs[0]), handler, msgs[1..], bs[1..]);
    }
  }

  /** The messages handlers moved out are live, each owned once. */
  ghost predicate KeptOk(g: Log) {
    && (forall i :: 0 <= i < |g.kept| ==> g.kept[i] in g.heap.live)
    && (forall i, j :: 0 <= i < j < |g.kept| ==> g.kept[i] != g.kept[j])
  }

  lemma {:induction false} DeliveriesKeepKept(g: Log, handler: R.Handler, msgs: seq<Option<Handle>>, bs: seq<Behaviour>)
    requires |bs| == |msgs| && Distinct(g.heap, msgs)
    requires KeptOk(g) && forall i :: 0 <= i < |g.kept| ==> Some(g.kept[i]) !in msgs
    ensures KeptOk(DeliveredAll(g, handler, msgs, bs))
    decreases |msgs|
  {
    if msgs != [] {
      var m := Delivered(g, handler, msgs[0], bs[0]);
      assert forall i :: 0 <= i < |msgs| - 1 ==> msgs[1..][i] == msgs[i + 1];
      assert msgs[0] in msgs;
      DeliveriesKeepKept(m, handler, msgs[1..], bs[1..]);
    }
  }

  /** What becomes of message `h`: the owner it was moved out to has it, and it is live. */
  predicate Survives(t: Log, h: Handle) { h in t.kept && h in t.heap.live && h !in t.heap.destroyed }

  /** Or it has been destroyed, and nobody has it. */
  predicate Perished(t: Log, h: Handle) { h in t.heap.destroyed && h !in t.kept && h !in t.heap.live }

  /** Deliveries of other messages leave a message as it is. */
  lemma {:induction false} OthersStay(g: Log, handler: R.Handler, msgs: seq<Option<Handle>>, bs: seq<Behaviour>, h: Handle)
    requires |bs| == |msgs| && Some(h) !in msgs
    ensures
      var t := DeliveredAll(g, handler, msgs, bs);
      && (h in t.kept <==> h in g.kept) && (h in t.heap.live <==> h in g.heap.live)
      && (h in t.heap.destroyed <==> h in g.heap.destroyed)
    decreases |msgs|
  {
    if msgs != [] {
      assert msgs == [msgs[0]] + msgs[1..];
      OthersStay(Delivered(g, handler, msgs[0], bs[0]), handler, msgs[1..], bs[1..], h);
    }
  }

  /** Message by message: the `i`-th survives, with the owner it was moved out to, iff there is a
      handler and it moved the message out; otherwise it has been destroyed. */
  lemma {:induction false} SurvivesIffKept(g: Log, handler: R.Handler, msgs: seq<Option<Handle>>, bs: seq<Behaviour>, i: nat)
    requires |bs| == |msgs| && Distinct(g.heap, msgs) && i < |msgs| && msgs[i].Some?
    requires msgs[i].value !in g.kept && msgs[i].value !in g.heap.destroyed
    ensures
      var t := DeliveredAll(g, handler, msgs, bs);
      if handler.Some? && bs[i].keeps then Survives(t, msgs[i].value) else Perished(t, msgs[i].value)
    decreases |msgs|
  {
    var m := Delivered(g, handler, msgs[0], bs[0]);
    assert forall k :: 0 <= k < |msgs| - 1 ==> msgs[1..][k] == msgs[k + 1];
    if i == 0 {
      assert msgs[0] !in msgs[1..];
      OthersStay(m, handler, msgs[1..], bs[1..], msgs[0].value);
    } else {
      assert msgs[0] != msgs[i];
      SurvivesIffKept(m, handler, msgs[1..], bs[1..], i - 1);
    }
  }

  /** The `j`-th message that is not null is the `j`-th call the handler gets. */
  lemma {:induction false} CallsInOrder(g: Log, handler: int, msgs: seq<Option<Handle>>, bs: seq<Behaviour>)
    requires |bs| == |msgs| && Distinct(g.heap, msgs)
    ensures
      var t := DeliveredAll(g, Some(handler), msgs, bs);
      && |t.calls| == |g.calls| + |Somes(msgs)| && g.calls <= t.calls
      && forall j :: 0 <= j < |Somes(msgs)| ==> t.calls[|g.calls| + j] == Call(handler, Somes(msgs)[j])
  {
    Accounting(g, Some(handler), msgs, bs);
  }

  function Wrapped(hs: seq<Handle>): seq<Option<Handle>> { seq(|hs|, i requires 0 <= i < |hs| => Some(hs[i])) }

  lemma {:induction false} SomesWrapped(hs: seq<Handle>)
    ensures Somes(Wrapped(hs)) == hs
  {
    if hs != [] {
      assert Wrapped(hs)[1..] == Wrapped(hs[1..]);
      SomesWrapped(hs[1..]);
    }
  }

  /** Once those who kept messages have dropped them too, exactly the messages delivered have been
      destroyed in addition, each once. */
  lemma {:induction false} EverythingDestroyedOnce(g: Log, handler: R.Handler, msgs: seq<Option<Handle>>, bs: seq<Behaviour>)
    requires |bs| == |msgs| && Distinct(g.heap, msgs) && g.kept == []
    ensures
      var t := DeliveredAll(g, handler, msgs, bs);
      var end := DropAll(t.heap, Wrapped(t.kept));
      && multiset(end.destroyed) == multiset(g.heap.destroyed) + multiset(Somes(msgs))
      && (forall h :: multiset(end.destroyed)[h] == multiset(g.heap.destroyed)[h] + if Some(h) in msgs then 1 else 0)
      && (forall h :: Some(h) in msgs ==> h !in end.live)
  {
    var t := DeliveredAll(g, handler, msgs, bs);
    Accounting(g, handler, msgs, bs);
    DeliveriesKeepKept(g, handler, msgs, bs);
    SomesWrapped(t.kept);
    DropAllOnce(t.heap, Wrapped(t.kept));
    DropAllOnce(g.heap, msgs);
    SomesIn(msgs);
    DeliveredAreGone(g, handler, msgs, bs);
    assert multiset(t.heap.destroyed + t.kept) == multiset(t.heap.destroyed) + multiset(t.kept);
  }

  /** A delivered message is live afterwards only if it was kept. */
  lemma {:induction false} DeliveredAreGone(g: Log, handler: R.Handler, msgs: seq<Option<Handle>>, bs: seq<Behaviour>)
    requires |bs| == |msgs| && Distinct(g.heap, msgs)
    ensures
      var t := DeliveredAll(g, handler, msgs, bs);
      && g.kept <= t.kept
      && (forall h :: Some(h) in msgs && h in t.heap.live ==> Some(h) in Wrapped(t.kept))
    decreases |msgs|
  {
    if msgs != [] {
      var m := Delivered(g, handler, msgs[0], bs[0]);
      assert forall i :: 0 <= i < |msgs| - 1 ==> msgs[1..][i] == msgs[i + 1];
      assert msgs == [msgs[0]] + msgs[1..];
      DeliveredAreGone(m, handler, msgs[1..], bs[1..]);
      Accounting(m, handler, msgs[1..], bs[1..]);
      var t := DeliveredAll(g, handler, msgs, bs);
      if msgs[0].Some? && handler.Some? && bs[0].keeps {
        assert Wrapped(t.kept)[|g.kept|] == msgs[0];
      }
    }
  }

  /** In a disciplined run of the callback registry, the closure `c` found at the address nats.c has
      for subscription `n` is the one registered with `n`, so all deliveries go to its handler. */
  lemma {:induction false} DeliveriesReachRegisteredHandler(
      steps: seq<R.Step>, n: R.SubId, c: R.Closure, g: Log, msgs: seq<Option<Handle>>, bs: seq<Behaviour>)
    requires R.Runs(R.INIT, steps) && T.DisciplinedRun(R.INIT, steps)
    requires n in R.EndOf(R.INIT, steps).subs && R.EndOf(R.INIT, steps).subs[n].Some?
    requires T.Lives(R.EndOf(R.INIT, steps), R.EndOf(R.INIT, steps).subs[n].value.key, c)
    requires |bs| == |msgs| && Distinct(g.heap, msgs)
    ensures DeliveredAll(g, c.handler, msgs, bs).calls
         == g.calls + CallsFor(R.EndOf(R.INIT, steps).subs[n].value.closure.handler, Somes(msgs))
  {
    T.DeliveryReachesItsHandler(steps, n, c);
    Accounting(g, c.handler, msgs, bs);
  }
}
