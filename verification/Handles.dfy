/**
 Native handles with one owner: messages, pull and push consumers, JetStream contexts, key-value
 entries and watchers.

 A program creates, moves, assigns, releases, publishes, requests and destroys; whatever a native
 call returns, each native object has one owner at a time, is destroyed exactly once and is not
 touched afterwards. Publish and request calls never take the message they are given.
 */
module Handles {
  import opened Common

  type Handle = int
  type Slot = int

  /** What nats.c has allocated, and the order in which it was told to destroy. */
  datatype Heap = Heap(live: set<Handle>, destroyed: seq<Handle>)

  /** natsXxx_Destroy; a null pointer is ignored. */
  function Drop(n: Heap, h: Option<Handle>): Heap {
    if h.None? then n else Heap(n.live - {h.value}, n.destroyed + [h.value])
  }

  /** `objs` are the wrapper objects of a program and the handle each holds; `loose` are raw pointers
      the program took out with `release()`; `faults` counts native calls on a handle not live. */
  datatype State = State(objs: map<Slot, Option<Handle>>, loose: set<Handle>, heap: Heap, next: Handle, faults: nat)

  const INIT := State(map[], {}, Heap({}, []), 0, 0)

  datatype Step =
    | Create(x: Slot, outcome: Status)             // message::create, js_PullSubscribe, kvStore_Get, ...
    | Adopt(x: Slot, h: Handle)                    // message{raw}
    | MoveConstruct(dst: Slot, src: Slot)
    | MoveAssign(dst: Slot, src: Slot)             // also onto itself
    | Release(x: Slot)
    | Use(x: Slot)                                 // a null-guarded accessor
    | Publish(x: Slot, outcome: Status)            // publish(std::move(x)), js.publish_msg(std::move(x))
    | PublishUnready(x: Slot)                      // publish_msg on a context that is not initialized
    | Request(x: Slot, reply: Slot, outcome: Status)
    | Destroy(x: Slot)

  predicate Enabled(s: State, st: Step) {
    match st
    case Create(x, _) => x !in s.objs
    case Adopt(x, h) => x !in s.objs && h in s.loose
    case MoveConstruct(dst, src) => dst !in s.objs && src in s.objs
    case MoveAssign(dst, src) => dst in s.objs && src in s.objs
    case Release(x) => x in s.objs
    case Use(x) => x in s.objs
    case Publish(x, _) => x in s.objs
    case PublishUnready(x) => x in s.objs
    case Request(x, reply, _) => x in s.objs && reply !in s.objs
    case Destroy(x) => x in s.objs
  }

  /** A native call reads or destroys what `h` points to. */
  function Touch(s: State, h: Option<Handle>): State {
    s.(faults := if h.Some? && h.value !in s.heap.live then s.faults + 1 else s.faults)
  }

  function DestroyNative(s: State, h: Option<Handle>): State {
    Touch(s, h).(heap := Drop(s.heap, h))
  }

  function Allocate(s: State, x: Slot): State {
    s.(objs := s.objs[x := Some(s.next)], heap := s.heap.(live := s.heap.live + {s.next}), next := s.next + 1)
  }

  function SetObj(s: State, x: Slot, h: Option<Handle>): State { s.(objs := s.objs[x := h]) }

  /** The by-value parameter takes the handle from `x`, gives it up to a raw pointer, the native call
      reads it, and the wrapper destroys it, whatever the call returned. */
  function Consume(s: State, x: Slot): State
    requires x in s.objs
  {
    var raw := s.objs[x];
    DestroyNative(Touch(SetObj(s, x, None), raw), raw)
  }

  function Apply(s: State, st: Step): State
    requires Enabled(s, st)
  {
    match st
    case Create(x, outcome) => if outcome.Ok? then Allocate(s, x) else s
    case Adopt(x, h) => SetObj(s, x, Some(h)).(loose := s.loose - {h})
    case MoveConstruct(dst, src) => SetObj(SetObj(s, src, None), dst, s.objs[src])
    case MoveAssign(dst, src) =>
      if dst == src then s
      else DestroyNative(SetObj(SetObj(s, src, None), dst, s.objs[src]), s.objs[dst])
    case Release(x) =>
      SetObj(s, x, None).(loose := if s.objs[x].Some? then s.loose + {s.objs[x].value} else s.loose)
    case Use(x) => Touch(s, s.objs[x])
    case Publish(x, _) => Consume(s, x)
    case PublishUnready(x) => DestroyNative(SetObj(s, x, None), s.objs[x])
    case Request(x, reply, outcome) => if outcome.Ok? then Allocate(Consume(s, x), reply) else Consume(s, x)
    case Destroy(x) => DestroyNative(s.(objs := s.objs - {x}), s.objs[x])
  }

  // ---------------------------------------------------------------- the invariant

  /** Each live handle has exactly one owner: one object, or the program itself. */
  ghost predicate Owned(s: State) {
    && (forall x :: x in s.objs && s.objs[x].Some? ==> s.objs[x].value in s.heap.live && s.objs[x].value !in s.loose)
    && (forall x, y :: x in s.objs && y in s.objs && s.objs[x].Some? && s.objs[x] == s.objs[y] ==> x == y)
    && s.loose <= s.heap.live
    && (forall h :: h in s.heap.live && h !in s.loose ==> exists x :: x in s.objs && s.objs[x] == Some(h))
  }

  /** Every handle ever created is live or destroyed, not both, and destroyed at most once. */
  ghost predicate Accounted(s: State) {
    && (forall h :: h in s.heap.live || h in s.heap.destroyed <==> 0 <= h < s.next)
    && (forall h :: h in s.heap.live ==> h !in s.heap.destroyed)
    && (forall i, j :: 0 <= i < j < |s.heap.destroyed| ==> s.heap.destroyed[i] != s.heap.destroyed[j])
    && s.faults == 0 && 0 <= s.next
  }

  ghost predicate Inv(s: State) { Owned(s) && Accounted(s) }

  lemma {:induction false} AccountedKept(s: State, st: Step)
    requires Inv(s) && Enabled(s, st)
    ensures Accounted(Apply(s, st))
  {
  }

  /** The object that owns each live handle afterwards. */
  lemma {:induction false} OwnedKept(s: State, st: Step)
    requires Inv(s) && Enabled(s, st)
    ensures Owned(Apply(s, st))
  {
    var t := Apply(s, st);
    forall h | h in t.heap.live && h !in t.loose ensures exists x :: x in t.objs && t.objs[x] == Some(h) {
      if h == s.next {
        assert t.objs[if st.Create? then st.x else st.reply] == Some(h);
      } else if st.Adopt? && h == st.h {
        assert t.objs[st.x] == Some(h);
      } else {
        var x :| x in s.objs && s.objs[x] == Some(h);
        var y := if (st.MoveConstruct? || st.MoveAssign?) && x == st.src then st.dst else x;
        assert y in t.objs && t.objs[y] == Some(h);
      }
    }
  }

  ghost predicate Runs(s: State, steps: seq<Step>)
    decreases |steps|
  {
    steps == [] || (Enabled(s, steps[0]) && Runs(Apply(s, steps[0]), steps[1..]))
  }

  ghost function EndOf(s: State, steps: seq<Step>): State
    requires Runs(s, steps)
    decreases |steps|
  {
    if steps == [] then s else EndOf(Apply(s, steps[0]), steps[1..])
  }

  lemma {:induction false} RunsKeepInv(s: State, steps: seq<Step>)
    requires Inv(s) && Runs(s, steps)
    ensures Inv(EndOf(s, steps))
    decreases |steps|
  {
    if steps != [] {
      AccountedKept(s, steps[0]);
      OwnedKept(s, steps[0]);
      RunsKeepInv(Apply(s, steps[0]), steps[1..]);
    }
  }

  /** Conservation over every program: no native call ever touches a handle that is gone, no handle
      is destroyed twice, and once all objects are destroyed exactly the raw pointers the program
      kept are left: every other handle ever created has been destroyed. */
  lemma {:induction false} Conservation(steps: seq<Step>)
    requires Runs(INIT, steps)
    ensures
      var s := EndOf(INIT, steps);
      && s.faults == 0
      && (forall i, j :: 0 <= i < j < |s.heap.destroyed| ==> s.heap.destroyed[i] != s.heap.destroyed[j])
      && (s.objs == map[] ==> s.heap.live == s.loose && forall h :: 0 <= h < s.next && h !in s.loose ==> h in s.heap.destroyed)
  {
    RunsKeepInv(INIT, steps);
    var s := EndOf(INIT, steps);
    if s.objs == map[] {
      assert forall x :: x !in s.objs;
      assert forall h :: h in s.heap.live ==> h in s.loose;
    }
  }

  // ---------------------------------------------------------------- lists

  /** natsMsgList_Destroy and the destructor of a vector: every entry not taken is destroyed, in order. */
  function DropAll(n: Heap, hs: seq<Option<Handle>>): Heap
    decreases |hs|
  {
    if hs == [] then n else DropAll(Drop(n, hs[0]), hs[1..])
  }

  /** Entries of a native list: live handles, none twice; nulls are allowed. */
  ghost predicate Distinct(n: Heap, hs: seq<Option<Handle>>) {
    && (forall i :: 0 <= i < |hs| && hs[i].Some? ==> hs[i].value in n.live)
    && (forall i, j :: 0 <= i < j < |hs| && hs[i].Some? ==> hs[i] != hs[j])
  }

  function Somes(hs: seq<Option<Handle>>): seq<Handle> {
    if hs == [] then [] else (if hs[0].Some? then [hs[0].value] else []) + Somes(hs[1..])
  }

  /** Dropping a list destroys each entry exactly once, in list order, and nothing else. */
  lemma {:induction false} DropAllOnce(n: Heap, hs: seq<Option<Handle>>)
    requires Distinct(n, hs)
    ensures DropAll(n, hs).destroyed == n.destroyed + Somes(hs)
    ensures forall h :: h in DropAll(n, hs).live <==> h in n.live && Some(h) !in hs
    ensures forall h :: Some(h) in hs ==> multiset(Somes(hs))[h] == 1
    decreases |hs|
  {
    if hs != [] {
      var m := Drop(n, hs[0]);
      assert forall i :: 0 <= i < |hs| - 1 ==> hs[1..][i] == hs[i + 1];
      DropAllOnce(m, hs[1..]);
      assert hs == [hs[0]] + hs[1..];
      SomesIn(hs[1..]);
      if hs[0].Some? {
        assert hs[0] !in hs[1..];
        assert multiset([hs[0].value] + Somes(hs[1..])) == multiset{hs[0].value} + multiset(Somes(hs[1..]));
      } else {
        assert [] + Somes(hs[1..]) == Somes(hs[1..]);
      }
    }
  }

  lemma {:induction false} SomesIn(hs: seq<Option<Handle>>)
    ensures forall h :: h in Somes(hs) <==> Some(h) in hs
    decreases |hs|
  {
    if hs != [] {
      SomesIn(hs[1..]);
      assert hs == [hs[0]] + hs[1..];
    }
  }

  /** The handles of a list, nulls left out, in order. */
  lemma {:induction false} SomesAppend(a: seq<Option<Handle>>, b: seq<Option<Handle>>)
    ensures Somes(a + b) == Somes(a) + Somes(b)
    ensures forall h :: Somes([Some(h)]) == [h]
    ensures Somes([None]) == []
    decreases |a|
  {
    var empty: seq<Option<Handle>> := [None];
    assert empty[1..] == [];
    forall h ensures Somes([Some(h)]) == [h] { assert [Some(h)][1..] == []; }
    if a == [] {
      assert a + b == b;
    } else {
      SomesAppend(a[1..], b);
      assert (a + b)[1..] == a[1..] + b;
    }
  }

  // ---------------------------------------------------------------- what each step leaves

  /** The handle object `x` holds. */
  function At(s: State, x: Slot): Option<Handle> { if x in s.objs then s.objs[x] else None }

  /** Objects other than `xs` are as before. */
  ghost predicate OthersSame(s: State, t: State, xs: set<Slot>) {
    forall x :: x !in xs ==> (x in t.objs <==> x in s.objs) && At(t, x) == At(s, x)
  }

  /** Exactly `h`, if it is a handle, has been destroyed. */
  predicate Destroyed(n: Heap, m: Heap, h: Option<Handle>) {
    m.destroyed == n.destroyed + (if h.Some? then [h.value] else [])
    && m.live == n.live - (if h.Some? then {h.value} else {})
  }

  lemma {:induction false} MovesLeave(s: State, dst: Slot, src: Slot)
    requires dst != src && src in s.objs
    ensures
      dst !in s.objs ==>
        var t := Apply(s, MoveConstruct(dst, src));
        && dst in t.objs && At(t, dst) == At(s, src) && src in t.objs && At(t, src) == None
        && OthersSame(s, t, {dst, src}) && t.heap == s.heap && t.loose == s.loose
    ensures
      dst in s.objs ==>
        var t := Apply(s, MoveAssign(dst, src));
        && dst in t.objs && At(t, dst) == At(s, src) && src in t.objs && At(t, src) == None
        && OthersSame(s, t, {dst, src}) && Destroyed(s.heap, t.heap, At(s, dst)) && t.loose == s.loose
    ensures Apply(s, MoveAssign(src, src)) == s
  {
  }

  /** Publishing empties the object and destroys its message, whatever is returned; so it does on a
      context that is not initialized; a request does too, and its reply is new. */
  lemma {:induction false} ConsumingLeaves(s: State, x: Slot, reply: Slot, outcome: Status)
    requires x in s.objs && reply !in s.objs
    ensures
      forall st :: st == Publish(x, outcome) || st == PublishUnready(x) ==>
        var t := Apply(s, st);
        && x in t.objs && At(t, x) == None && OthersSame(s, t, {x}) && Destroyed(s.heap, t.heap, At(s, x)) && t.loose == s.loose
    ensures
      var t := Apply(s, Request(x, reply, outcome));
      && x in t.objs && At(t, x) == None && OthersSame(s, t, {x, reply}) && t.loose == s.loose
      && t.heap.destroyed == s.heap.destroyed + (if At(s, x).Some? then [At(s, x).value] else [])
      && (outcome.Failed? ==> reply !in t.objs && Destroyed(s.heap, t.heap, At(s, x)))
      && (outcome.Ok? ==> reply in t.objs && At(t, reply) == Some(s.next) && s.next in t.heap.live && t.next == s.next + 1)
  {
  }

  /** Creating, adopting, releasing and destroying. */
  lemma {:induction false} OwningLeaves(s: State, x: Slot, y: Slot, h: Handle, outcome: Status)
    requires x in s.objs && y !in s.objs
    ensures
      var t := Apply(s, Create(y, outcome));
      if outcome.Failed? then t == s
      else At(t, y) == Some(s.next) && t.heap.live == s.heap.live + {s.next} && t.next == s.next + 1 && OthersSame(s, t, {y})
    ensures
      h in s.loose ==>
        var t := Apply(s, Adopt(y, h));
        At(t, y) == Some(h) && t.loose == s.loose - {h} && t.heap == s.heap && OthersSame(s, t, {y})
    ensures
      var t := Apply(s, Release(x));
      && x in t.objs && At(t, x) == None && t.heap == s.heap && OthersSame(s, t, {x})
      && t.loose == s.loose + (if At(s, x).Some? then {At(s, x).value} else {})
    ensures
      var t := Apply(s, Destroy(x));
      x !in t.objs && OthersSame(s, t, {x}) && Destroyed(s.heap, t.heap, At(s, x)) && t.loose == s.loose
    ensures Apply(s, Use(x)).objs == s.objs && Apply(s, Use(x)).heap == s.heap
  {
  }
}
