/**
 Whole API calls as runs of the registry machine: the statements each call executes, in order, and
 what the process looks like once it returns when no other call interleaves.
 */
module RegistryCalls {
  import opened Common
  import opened Registry

  /** The three statements of a call that closes object `o`: destroy, release, clear. */
  function CloseSteps(o: ObjId): seq<Step> { [Advance(o), Advance(o), Advance(o)] }

  lemma {:induction false} CloseRuns(s: State, o: ObjId)
    requires o in s.objs && s.objs[o].phase.Closing? && !s.objs[o].phase.after.TakeFrom?
    ensures Runs(s, CloseSteps(o))
    ensures EndOf(s, CloseSteps(o)) == ClearRelease(RunRelease(CloseNative(s, o), o), o)
    ensures Events(s, CloseSteps(o)) == Destroying(s.objs[o].sub) + Erasing(s.objs[o].release)
  {
    var s1 := CloseNative(s, o);
    var s2 := RunRelease(s1, o);
    RunCons(s2, Advance(o), []);
    RunCons(s1, Advance(o), [Advance(o)] + []);
    RunCons(s, Advance(o), [Advance(o)] + ([Advance(o)] + []));
    assert [Advance(o)] + ([Advance(o)] + ([Advance(o)] + [])) == CloseSteps(o);
  }

  /** Maps after the release due on an object, if any, has run. */
  function Released(s: State, o: ObjId): map<RegId, map<Addr, Closure>>
    requires o in s.objs
  {
    var l := s.objs[o].release;
    if l.Some? then Erase(s.regs, l.value.reg, l.value.key) else s.regs
  }

  /** A whole successful `unsubscribe()`, or a whole destructor when `die`. */
  lemma {:induction false} CloseCall(s: State, o: ObjId, die: bool) returns (steps: seq<Step>, t: State)
    requires IdleObj(s, o) && (!die ==> s.objs[o].sub.Some?)
    ensures steps == [if die then Destroy(o) else Unsubscribe(o, true)] + CloseSteps(o)
    ensures Runs(s, steps) && EndOf(s, steps) == t
    ensures t.subs == Without(s.subs, s.objs[o].sub) && t.regs == Released(s, o)
    ensures t.objs == if die then s.objs - {o} else s.objs[o := Obj(None, None, Idle)]
    ensures t.conns == s.conns && t.calls == s.calls
    ensures Events(s, steps) == Destroying(s.objs[o].sub) + Erasing(s.objs[o].release)
  {
    var begin := if die then Destroy(o) else Unsubscribe(o, true);
    var s1 := Apply(s, begin);
    CloseRuns(s1, o);
    RunCons(s, begin, CloseSteps(o));
    steps := [begin] + CloseSteps(o);
    t := ClearRelease(RunRelease(CloseNative(s1, o), o), o);
    assert t.objs == if die then s.objs - {o} else s.objs[o := Obj(None, None, Idle)];
  }

  /** Addresses are reused: once the last subscription object of a closure has closed, the allocator
      may return its address again. */
  lemma {:induction false} AddressIsFreeAgain(s: State, o: ObjId, die: bool) returns (steps: seq<Step>, t: State)
    requires Inv(s) && IdleObj(s, o) && (!die ==> s.objs[o].sub.Some?)
    requires s.objs[o].release.Some? && s.objs[o].release.value.reg in s.regs
    ensures Runs(s, steps) && EndOf(s, steps) == t && Occupied(s, s.objs[o].release.value.key) && !Occupied(t, s.objs[o].release.value.key)
  {
    var l := s.objs[o].release.value;
    steps, t := CloseCall(s, o, die);
    assert Entry(s, l);
    forall r | r in t.regs ensures l.key !in t.regs[r] {
      assert l.key in s.regs[l.reg];
    }
    forall id | id in s.calls ensures s.calls[id].link.key != l.key {
      assert !s.calls[id].progress.MadeToken? ==> Entry(s, s.calls[id].link);
    }
  }

  /** `unsubscribe()` without a handle, or refused by nats.c, changes nothing; a subscription object
      made from a synchronous native subscription, or from nothing, has no release to run. */
  lemma {:induction false} QuietCalls(s: State, o: ObjId, p: ObjId, n: Option<SubId>)
    requires IdleObj(s, o)
    ensures Apply(s, Unsubscribe(o, false)) == s
    ensures s.objs[o].sub.None? ==> Apply(s, Unsubscribe(o, true)) == s
    ensures
      p !in s.objs && (n.Some? ==> n.value !in s.subs) ==>
        var t := Apply(s, NewSubscription(p, n));
        && t.objs == s.objs[p := Obj(n, None, Idle)] && t.subs == (if n.Some? then s.subs[n.value := None] else s.subs)
        && t.regs == s.regs && t.conns == s.conns && t.calls == s.calls
  {
  }

  /** A whole move construction. */
  lemma {:induction false} MoveConstructCall(s: State, dst: ObjId, src: ObjId) returns (steps: seq<Step>, t: State)
    requires dst !in s.objs && IdleObj(s, src)
    ensures steps == [MoveConstruct(dst, src), Advance(dst)]
    ensures Runs(s, steps) && EndOf(s, steps) == t && Events(s, steps) == []
    ensures t.subs == s.subs && t.regs == s.regs
    ensures t.objs == s.objs[src := Obj(None, None, Idle)][dst := s.objs[src]]
  {
    var s1 := StartMoveConstruct(s, dst, src);
    t := TakeRelease(s1, dst);
    RunCons(s1, Advance(dst), []);
    RunCons(s, MoveConstruct(dst, src), [Advance(dst)] + []);
    steps := [MoveConstruct(dst, src), Advance(dst)];
    assert steps == [MoveConstruct(dst, src)] + ([Advance(dst)] + []);
  }

  /** A whole move assignment between two objects. */
  lemma {:induction false} MoveAssignCall(s: State, dst: ObjId, src: ObjId) returns (steps: seq<Step>, t: State)
    requires IdleObj(s, dst) && IdleObj(s, src) && dst != src
    ensures steps == [MoveAssign(dst, src), Advance(dst), Advance(dst), Advance(dst), Advance(dst)]
    ensures Runs(s, steps) && EndOf(s, steps) == t
    ensures t.subs == Without(s.subs, s.objs[dst].sub) && t.regs == Released(s, dst)
    ensures t.objs == s.objs[src := Obj(None, None, Idle)][dst := s.objs[src]]
    ensures Events(s, steps) == Erasing(s.objs[dst].release) + Destroying(s.objs[dst].sub)
  {
    var s1 := StartMoveAssign(s, dst, src);
    var s3 := AssignReleases(s1, dst, src);
    t := AssignTakes(s3, dst, src);
    RunAppend(s1, [Advance(dst), Advance(dst)], [Advance(dst), Advance(dst)]);
    EventsAppend(s1, [Advance(dst), Advance(dst)], [Advance(dst), Advance(dst)]);
    RunCons(s, MoveAssign(dst, src), [Advance(dst), Advance(dst)] + [Advance(dst), Advance(dst)]);
    steps := [MoveAssign(dst, src), Advance(dst), Advance(dst), Advance(dst), Advance(dst)];
    assert steps == [MoveAssign(dst, src)] + ([Advance(dst), Advance(dst)] + [Advance(dst), Advance(dst)]);
  }

  lemma {:induction false} AssignReleases(s: State, dst: ObjId, src: ObjId) returns (t: State)
    requires dst in s.objs && src in s.objs && dst != src && s.objs[dst].phase == Releasing(TakeFrom(src))
    ensures Runs(s, [Advance(dst), Advance(dst)]) && EndOf(s, [Advance(dst), Advance(dst)]) == t
    ensures t.subs == s.subs && t.regs == Released(s, dst)
    ensures t.objs == s.objs[dst := Obj(s.objs[dst].sub, None, Adopting(src))]
    ensures Events(s, [Advance(dst), Advance(dst)]) == Erasing(s.objs[dst].release)
  {
    var m := RunRelease(s, dst);
    t := ClearRelease(m, dst);
    AdvanceTwice(s, dst, m, t);
  }

  lemma {:induction false} AssignTakes(s: State, dst: ObjId, src: ObjId) returns (t: State)
    requires dst in s.objs && src in s.objs && dst != src && s.objs[dst].phase == Adopting(src)
    ensures Runs(s, [Advance(dst), Advance(dst)]) && EndOf(s, [Advance(dst), Advance(dst)]) == t
    ensures t.subs == Without(s.subs, s.objs[dst].sub) && t.regs == s.regs
    ensures t.objs == s.objs[src := Obj(None, None, Idle)][dst := s.objs[src].(phase := Idle)]
    ensures Events(s, [Advance(dst), Advance(dst)]) == Destroying(s.objs[dst].sub)
  {
    var m := Adopt(s, dst);
    t := TakeRelease(m, dst);
    AdvanceTwice(s, dst, m, t);
  }

  lemma {:induction false} AdvanceTwice(s: State, o: ObjId, t: State, u: State)
    requires Enabled(s, Advance(o)) && t == Advanced(s, o)
    requires Enabled(t, Advance(o)) && u == Advanced(t, o)
    ensures Runs(s, [Advance(o), Advance(o)]) && EndOf(s, [Advance(o), Advance(o)]) == u
    ensures Events(s, [Advance(o), Advance(o)]) == Emits(s, Advance(o)) + Emits(t, Advance(o))
  {
    RunCons(t, Advance(o), []);
    RunCons(s, Advance(o), [Advance(o)] + []);
    assert [Advance(o)] + ([Advance(o)] + []) == [Advance(o), Advance(o)];
  }

  /** A whole registration: `ok` is whether nats.c accepts the subscription. */
  lemma {:induction false} RegisterCall(s: State, c: ConnId, a: Addr, handler: Handler, n: SubId, o: ObjId, ok: bool)
    returns (steps: seq<Step>, t: State)
    requires c in s.conns && s.conns[c].Some? && s.conns[c].value in s.regs && !Occupied(s, a) && s.nextId !in s.calls
    requires n !in s.subs && o !in s.objs
    ensures steps == [StartRegister(c, a, handler), Insert(s.nextId), NativeSubscribe(s.nextId, n, ok),
                      if ok then Construct(s.nextId, o) else Rollback(s.nextId)]
    ensures Runs(s, steps) && EndOf(s, steps) == t
    ensures
      var r := s.conns[c].value;
      var l := Link(r, a, Closure(s.nextId, handler));
      && t.conns == s.conns
      && (ok ==> t.subs == s.subs[n := Some(l)] && t.regs == s.regs[r := s.regs[r][a := l.closure]]
                 && t.objs == s.objs[o := Obj(Some(n), Some(l), Idle)])
      && (!ok ==> t.subs == s.subs && t.regs == s.regs && t.objs == s.objs)
      && Events(s, steps) == [TokenInserted(l)] + if ok then [NativelySubscribed(n, l)] else [NativelyRefused(l), TokenErased(l)]
  {
    var id := s.nextId;
    var s2 := Inserting(s, c, a, handler);
    var rest: seq<Step>;
    if ok { rest, t := Accepts(s2, id, n, o); } else { rest, t := Refuses(s2, id, n); }
    if !ok {
      var r := s.conns[c].value;
      assert s.regs[r][a := Closure(id, handler)] - {a} == s.regs[r];
      assert t.regs == s.regs;
    }
    InsertFirst(s, c, a, handler, rest);
    steps := [StartRegister(c, a, handler), Insert(id)] + rest;
  }

  /** The token is made and in the map. */
  function Inserting(s: State, c: ConnId, a: Addr, handler: Handler): State
    requires c in s.conns && s.conns[c].Some?
  {
    var r := s.conns[c].value;
    var l := Link(r, a, Closure(s.nextId, handler));
    s.(calls := s.calls[s.nextId := Call(c, l, Inserted)], nextId := s.nextId + 1,
       regs := if r in s.regs then s.regs[r := s.regs[r][a := l.closure]] else s.regs)
  }

  lemma {:induction false} InsertFirst(s: State, c: ConnId, a: Addr, handler: Handler, rest: seq<Step>)
    requires c in s.conns && s.conns[c].Some? && !Occupied(s, a) && Runs(Inserting(s, c, a, handler), rest)
    ensures
      var steps := [StartRegister(c, a, handler), Insert(s.nextId)] + rest;
      var t := Inserting(s, c, a, handler);
      && Runs(s, steps) && EndOf(s, steps) == EndOf(t, rest)
      && Events(s, steps) == [TokenInserted(t.calls[s.nextId].link)] + Events(t, rest)
  {
    var id := s.nextId;
    var s1 := Apply(s, StartRegister(c, a, handler));
    assert InsertToken(s1, id) == Inserting(s, c, a, handler);
    RunCons(s1, Insert(id), rest);
    RunCons(s, StartRegister(c, a, handler), [Insert(id)] + rest);
    assert [StartRegister(c, a, handler)] + ([Insert(id)] + rest) == [StartRegister(c, a, handler), Insert(id)] + rest;
  }

  lemma {:induction false} Accepts(s: State, id: Id, n: SubId, o: ObjId) returns (steps: seq<Step>, t: State)
    requires InProgress(s, id, Inserted) && n !in s.subs && o !in s.objs
    ensures steps == [NativeSubscribe(id, n, true), Construct(id, o)]
    ensures Runs(s, steps) && EndOf(s, steps) == t
    ensures t.conns == s.conns && t.subs == s.subs[n := Some(s.calls[id].link)] && t.regs == s.regs
    ensures t.objs == s.objs[o := Obj(Some(n), Some(s.calls[id].link), Idle)]
    ensures Events(s, steps) == [NativelySubscribed(n, s.calls[id].link)]
  {
    var m := SubscribeNatively(s, id, n, true);
    t := ReturnSubscription(m, id, o);
    RunCons(m, Construct(id, o), []);
    RunCons(s, NativeSubscribe(id, n, true), [Construct(id, o)] + []);
    steps := [NativeSubscribe(id, n, true)] + ([Construct(id, o)] + []);
  }

  lemma {:induction false} Refuses(s: State, id: Id, n: SubId) returns (steps: seq<Step>, t: State)
    requires InProgress(s, id, Inserted) && n !in s.subs
    ensures steps == [NativeSubscribe(id, n, false), Rollback(id)]
    ensures Runs(s, steps) && EndOf(s, steps) == t
    ensures t.conns == s.conns && t.subs == s.subs && t.objs == s.objs && t.regs == Erase(s.regs, s.calls[id].link.reg, s.calls[id].link.key)
    ensures Events(s, steps) == [NativelyRefused(s.calls[id].link), TokenErased(s.calls[id].link)]
  {
    var m := SubscribeNatively(s, id, n, false);
    t := RollBack(m, id);
    RunCons(m, Rollback(id), []);
    RunCons(s, NativeSubscribe(id, n, false), [Rollback(id)] + []);
    steps := [NativeSubscribe(id, n, false)] + ([Rollback(id)] + []);
  }
}
