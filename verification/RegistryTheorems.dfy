/**
 What the callback registry guarantees over whole runs, and exactly when it does not.
 */
module RegistryTheorems {
  import opened Common
  import opened Registry
  import opened RegistryInvariant

  // ---------------------------------------------------------------- runs

  lemma {:induction false} RunsKeepInv(s: State, steps: seq<Step>)
    requires Inv(s) && Runs(s, steps)
    ensures Inv(EndOf(s, steps))
    decreases |steps|
  {
    if steps != [] {
      StepKeepsInv(s, steps[0]);
      RunsKeepInv(Apply(s, steps[0]), steps[1..]);
    }
  }

  // ---------------------------------------------------------------- delivery

  /** A registry about to be dropped still backs a native subscription. */
  predicate Backing(s: State, c: ConnId) {
    c in s.conns && s.conns[c].Some? &&
    exists n :: n in s.subs && s.subs[n].Some? && s.subs[n].value.reg == s.conns[c].value
  }

  predicate ReleaseHazard(s: State, o: ObjId) {
    o in s.objs && s.objs[o].phase.Releasing? && s.objs[o].sub.Some? && s.objs[o].release.Some?
  }

  /** The two situations in which a statement frees a closure nats.c can still reach: running the
      release of an object that still holds its native subscription, and dropping a registry that
      still backs one. */
  predicate Hazard(s: State, st: Step) {
    match st
    case Advance(o) => ReleaseHazard(s, o)
    case DropConnection(c) => Backing(s, c)
    case AssignConnection(dst, src) => dst != src && Backing(s, dst)
    case _ => false
  }

  /** The closure behind a live native subscription is due for release by whoever holds the handle,
      by the object the handle was just moved away from, or not at all because it was released. */
  lemma {:induction false} WhoReleases(s: State, n: SubId)
    requires Inv(s) && n in s.subs && s.subs[n].Some?
    ensures
      var l := s.subs[n].value;
      var id := l.closure.id;
      || (s.holder[n].InCall? && s.holder[n].id == id && id in s.calls && s.calls[id].progress == Subscribed(n) && s.calls[id].link == l)
      || (s.holder[n].InObj? && id in s.released)
      || (s.holder[n].InObj? && id in s.claim && id !in s.calls && id !in s.released
          && var o := s.holder[n].o;
             o in s.objs && s.objs[o].sub == Some(n)
             && (s.claim[id] == o || s.objs[o].phase == TakingRelease(s.claim[id])))
  {
    match s.holder[n]
    case InCall(id) =>
    case InObj(o) =>
      assert PhaseOk(s, o);
      match s.objs[o].phase
      case TakingRelease(src) => assert PhaseOk(s, src);
      case Lent(dst) => assert PhaseOk(s, dst);
      case _ =>
  }

  /** Erasing the entry of link `l` leaves a safe state safe when no native subscription uses it. */
  lemma {:induction false} EraseKeepsOthers(s: State, l: Link, n: SubId)
    requires DeliverySafe(s) && Inv(s) && n in s.subs && s.subs[n].Some? && s.subs[n].value != l
    requires l.reg in s.regs ==> Entry(s, l)
    ensures Entry(s.(regs := Erase(s.regs, l.reg, l.key)), s.subs[n].value)
  {
    assert Entry(s, s.subs[n].value);
  }

  lemma {:induction false} ReleaseIsSafeIff(s: State, o: ObjId)
    requires Inv(s) && DeliverySafe(s) && Enabled(s, Advance(o)) && s.objs[o].phase.Releasing?
    ensures DeliverySafe(RunRelease(s, o)) <==> !(s.objs[o].sub.Some? && s.objs[o].release.Some?)
  {
    var t := RunRelease(s, o);
    assert PhaseOk(s, o);
    if s.objs[o].release.Some? {
      var l := s.objs[o].release.value;
      if s.objs[o].sub.Some? {
        var n := s.objs[o].sub.value;
        assert s.subs[n] == Some(l) && n in t.subs;
        assert Entry(s, l) && !Entry(t, l);
      } else {
        forall n | n in t.subs && t.subs[n].Some? ensures Entry(t, t.subs[n].value) {
          WhoReleases(s, n);
          assert s.claim[l.closure.id] == o && l.closure.id !in s.calls;
          if s.subs[n].value == l { assert false; }
          EraseKeepsOthers(s, l, n);
        }
      }
    }
  }

  lemma {:induction false} RollbackIsSafe(s: State, id: Id)
    requires Inv(s) && DeliverySafe(s) && Enabled(s, Rollback(id))
    ensures DeliverySafe(RollBack(s, id))
  {
    var l := s.calls[id].link;
    forall n | n in s.subs && s.subs[n].Some? ensures Entry(RollBack(s, id), s.subs[n].value) {
      WhoReleases(s, n);
      EraseKeepsOthers(s, l, n);
    }
  }

  lemma {:induction false} DropIsSafeIff(s: State, c: ConnId)
    requires Inv(s) && DeliverySafe(s) && c in s.conns
    ensures (forall n :: n in s.subs && s.subs[n].Some? ==>
               Entry(s.(regs := Without(s.regs, s.conns[c])), s.subs[n].value)) <==> !Backing(s, c)
  {
  }

  /** Exactly the hazards endanger a delivery: from a state where every closure nats.c may
      dereference is in the map, a statement leads to such a state again iff it is not a hazard. */
  lemma {:induction false} DeliverySafeIff(s: State, st: Step)
    requires Inv(s) && DeliverySafe(s) && Enabled(s, st)
    ensures DeliverySafe(Apply(s, st)) <==> !Hazard(s, st)
  {
    if st.Advance? {
      AdvanceSafeIff(s, st.o);
    } else if st.DropConnection? || st.AssignConnection? {
      DroppingSafeIff(s, st);
    } else if st.Insert? || st.NativeSubscribe? || st.Rollback? || st.Construct? {
      RegistrationIsSafe(s, st);
    } else {
      FramedIsSafe(s, st);
    }
  }

  lemma {:induction false} DroppingSafeIff(s: State, st: Step)
    requires Inv(s) && DeliverySafe(s) && Enabled(s, st) && (st.DropConnection? || st.AssignConnection?)
    ensures DeliverySafe(Apply(s, st)) <==> !Hazard(s, st)
  {
    if st.DropConnection? {
      DropIsSafeIff(s, st.c);
    } else if st.dst != st.src {
      DropIsSafeIff(s, st.dst);
    }
  }

  lemma {:induction false} RegistrationIsSafe(s: State, st: Step)
    requires Inv(s) && DeliverySafe(s) && Enabled(s, st)
    requires st.Insert? || st.NativeSubscribe? || st.Rollback? || st.Construct?
    ensures DeliverySafe(Apply(s, st))
  {
    match st
    case Rollback(id) => RollbackIsSafe(s, id);
    case Insert(id) => InsertIsSafe(s, id);
    case NativeSubscribe(id, n, ok) => assert DeliverySafe(SubscribeNatively(s, id, n, ok));
    case Construct(id, o) => assert DeliverySafe(ReturnSubscription(s, id, o));
  }

  lemma {:induction false} InsertIsSafe(s: State, id: Id)
    requires Inv(s) && DeliverySafe(s) && InProgress(s, id, MadeToken)
    ensures DeliverySafe(InsertToken(s, id))
  {
  }

  /** Steps that touch neither the maps that exist nor native asynchronous subscriptions. */
  lemma {:induction false} FramedIsSafe(s: State, st: Step)
    requires DeliverySafe(s) && Inv(s) && Enabled(s, st)
    requires st.NewConnection? || st.MoveConnection? || st.NewSubscription? || st.StartRegister? || st.Unsubscribe? || st.Destroy?
             || st.MoveConstruct? || st.MoveAssign?
    ensures DeliverySafe(Apply(s, st))
  {
    forall n | n in Apply(s, st).subs && Apply(s, st).subs[n].Some? ensures Entry(Apply(s, st), Apply(s, st).subs[n].value) {
      assert Entry(s, s.subs[n].value);
    }
  }

  lemma {:induction false} AdvanceSafeIff(s: State, o: ObjId)
    requires Inv(s) && DeliverySafe(s) && Enabled(s, Advance(o))
    ensures DeliverySafe(Advanced(s, o)) <==> !Hazard(s, Advance(o))
  {
    match s.objs[o].phase
    case Closing(_) => assert DeliverySafe(CloseNative(s, o));
    case Releasing(_) => ReleaseIsSafeIff(s, o);
    case Clearing(_) => assert DeliverySafe(ClearRelease(s, o));
    case Adopting(_) => assert DeliverySafe(Adopt(s, o));
    case TakingRelease(_) => assert DeliverySafe(TakeRelease(s, o));
  }

  ghost predicate HazardFree(s: State, steps: seq<Step>)
    requires Runs(s, steps)
    decreases |steps|
  {
    steps == [] || (!Hazard(s, steps[0]) && HazardFree(Apply(s, steps[0]), steps[1..]))
  }

  /** Over every hazard-free interleaving of registration, rollback, unsubscription, destruction
      and moves, every closure nats.c may dereference is in the map: insertion precedes the native
      subscription, and the native subscription is destroyed before the release. */
  lemma {:induction false} HazardFreeRunsAreSafe(s: State, steps: seq<Step>)
    requires Inv(s) && DeliverySafe(s) && Runs(s, steps) && HazardFree(s, steps)
    ensures Inv(EndOf(s, steps)) && DeliverySafe(EndOf(s, steps))
    decreases |steps|
  {
    if steps != [] {
      StepKeepsInv(s, steps[0]);
      DeliverySafeIff(s, steps[0]);
      HazardFreeRunsAreSafe(Apply(s, steps[0]), steps[1..]);
    }
  }

  // ---------------------------------------------------------------- which closures are in their map

  /** In every state of every run, hazards included: the closure of a native subscription is in its
      map iff its block is there and its release lambda has not run. */
  lemma {:induction false} EntryIff(s: State, n: SubId)
    requires Inv(s) && n in s.subs && s.subs[n].Some?
    ensures
      var l := s.subs[n].value;
      Entry(s, l) <==> l.reg in s.regs && l.closure.id !in s.released
  {
    var l := s.subs[n].value;
    var id := l.closure.id;
    WhoReleases(s, n);
    if Entry(s, l) {
      assert Owned(s, l);
    } else if l.reg in s.regs && id !in s.released {
      if s.holder[n].InObj? { DueLink(s, n); }
    }
  }

  /** The release lambda that is due for the closure of a native subscription is the one registered
      with it. */
  lemma {:induction false} DueLink(s: State, n: SubId)
    requires Inv(s) && n in s.subs && s.subs[n].Some? && n in s.holder && s.holder[n].InObj?
    requires s.subs[n].value.closure.id in s.claim
    ensures s.objs[s.claim[s.subs[n].value.closure.id]].release == s.subs[n]
  {
    WhoReleases(s, n);
    var o := s.holder[n].o;
    assert PhaseOk(s, o);
  }

  /** Object `o` is being assigned to: its callback is released, the native subscription it held is
      still there. */
  predicate Replacing(s: State, o: ObjId, n: SubId) {
    o in s.objs && s.objs[o].sub == Some(n) &&
    match s.objs[o].phase
    case Clearing(after) => after.TakeFrom?
    case Adopting(_) => true
    case _ => false
  }

  /** The release lambda of a native subscription that still exists has run only in the middle of a
      move assignment onto the object that holds it. */
  lemma {:induction false} ReleasedIff(s: State, n: SubId)
    requires Inv(s) && n in s.subs && s.subs[n].Some?
    ensures s.subs[n].value.closure.id in s.released <==> exists o :: Replacing(s, o, n)
  {
    WhoReleases(s, n);
    if o :| Replacing(s, o, n) { assert PhaseOk(s, o); }
    if s.subs[n].value.closure.id in s.released {
      var o := s.holder[n].o;
      assert PhaseOk(s, o);
      assert Replacing(s, o, n);
    }
  }

  // ---------------------------------------------------------------- what a caller can check

  /** A caller moves only onto objects without an asynchronous subscription. */
  predicate CarefulMove(s: State, st: Step) {
    st.MoveAssign? ==>
      st.dst == st.src || st.dst !in s.objs || s.objs[st.dst].sub.None? || s.objs[st.dst].release.None?
  }

  /** What a caller checks before a call: it moves with care, and drops a connection only when none of
      its asynchronous subscriptions is left. */
  predicate Disciplined(s: State, st: Step) {
    && CarefulMove(s, st)
    && match st
       case DropConnection(c) => !Backing(s, c)
       case AssignConnection(dst, src) => dst == src || !Backing(s, dst)
       case _ => true
  }

  /** No release is about to run on an object that still holds its native subscription. */
  ghost predicate NoWindow(s: State) {
    forall o :: o in s.objs && s.objs[o].phase.Releasing? ==> s.objs[o].sub.None? || s.objs[o].release.None?
  }

  ghost predicate DisciplinedRun(s: State, steps: seq<Step>)
    requires Runs(s, steps)
    decreases |steps|
  {
    steps == [] || (Disciplined(s, steps[0]) && DisciplinedRun(Apply(s, steps[0]), steps[1..]))
  }

  lemma {:induction false} CarefulKeepsNoWindow(s: State, st: Step)
    requires NoWindow(s) && Enabled(s, st) && CarefulMove(s, st)
    ensures (st.Advance? ==> !ReleaseHazard(s, st.o)) && NoWindow(Apply(s, st))
  {
    match st
    case Advance(o) => AdvanceKeepsNoWindow(s, o);
    case _ =>
  }

  lemma {:induction false} AdvanceKeepsNoWindow(s: State, o: ObjId)
    requires NoWindow(s) && Enabled(s, Advance(o))
    ensures !Hazard(s, Advance(o)) && NoWindow(Advanced(s, o))
  {
    match s.objs[o].phase
    case Closing(_) => assert NoWindow(CloseNative(s, o));
    case Releasing(_) => assert NoWindow(RunRelease(s, o));
    case Clearing(_) => assert NoWindow(ClearRelease(s, o));
    case Adopting(_) => assert NoWindow(Adopt(s, o));
    case TakingRelease(_) => assert NoWindow(TakeRelease(s, o));
  }

  lemma {:induction false} DisciplinedRunsAreSafe(steps: seq<Step>)
    requires Runs(INIT, steps) && DisciplinedRun(INIT, steps)
    ensures DeliverySafe(EndOf(INIT, steps))
  {
    DisciplinedRunsAreHazardFree(INIT, steps);
    HazardFreeRunsAreSafe(INIT, steps);
  }

  lemma {:induction false} DisciplinedRunsAreHazardFree(s: State, steps: seq<Step>)
    requires Inv(s) && NoWindow(s) && Runs(s, steps) && DisciplinedRun(s, steps)
    ensures HazardFree(s, steps)
    decreases |steps|
  {
    if steps != [] {
      StepKeepsInv(s, steps[0]);
      CarefulKeepsNoWindow(s, steps[0]);
      DisciplinedRunsAreHazardFree(Apply(s, steps[0]), steps[1..]);
    }
  }

  /** Every closure nats.c may dereference is in its map in every state of the run. */
  ghost predicate AlwaysSafe(s: State, steps: seq<Step>)
    requires Runs(s, steps)
    decreases |steps|
  {
    DeliverySafe(s) && (steps == [] || AlwaysSafe(Apply(s, steps[0]), steps[1..]))
  }

  lemma {:induction false} HazardFreeIsAlwaysSafe(s: State, steps: seq<Step>)
    requires Inv(s) && DeliverySafe(s) && Runs(s, steps) && HazardFree(s, steps)
    ensures AlwaysSafe(s, steps)
    decreases |steps|
  {
    if steps != [] {
      StepKeepsInv(s, steps[0]);
      DeliverySafeIff(s, steps[0]);
      HazardFreeIsAlwaysSafe(Apply(s, steps[0]), steps[1..]);
    }
  }

  /** An object whose release is next stays as it is until it takes that step itself. */
  lemma {:induction false} ReleasingStays(s: State, st: Step, o: ObjId)
    requires Held(s) && Enabled(s, st) && st != Advance(o) && o in s.objs && s.objs[o].phase.Releasing?
    ensures o in Apply(s, st).objs && Apply(s, st).objs[o] == s.objs[o]
  {
    if st.Advance? { AdvanceElsewhere(s, st.o, o); }
  }

  lemma {:induction false} AdvanceElsewhere(s: State, p: ObjId, o: ObjId)
    requires Held(s) && Enabled(s, Advance(p)) && p != o && o in s.objs && s.objs[o].phase.Releasing?
    ensures o in Advanced(s, p).objs && Advanced(s, p).objs[o] == s.objs[o]
  {
    assert PhaseOk(s, p);
    match s.objs[p].phase
    case Closing(_) => assert CloseNative(s, p).objs[o] == s.objs[o];
    case Releasing(_) => assert RunRelease(s, p).objs[o] == s.objs[o];
    case Clearing(_) => assert ClearRelease(s, p).objs[o] == s.objs[o];
    case Adopting(_) => assert Adopt(s, p).objs[o] == s.objs[o];
    case TakingRelease(_) => assert TakeRelease(s, p).objs[o] == s.objs[o];
  }

  /** Once the release of an object that still holds its native subscription is next, no run in which
      all calls return avoids it. */
  lemma {:induction false} PendingReleaseDangles(s: State, steps: seq<Step>, o: ObjId)
    requires Inv(s) && Runs(s, steps) && Quiescent(EndOf(s, steps)) && ReleaseHazard(s, o)
    ensures !AlwaysSafe(s, steps)
    decreases |steps|
  {
    if steps != [] && DeliverySafe(s) {
      StepKeepsInv(s, steps[0]);
      if steps[0] == Advance(o) {
        ReleaseIsSafeIff(s, o);
      } else {
        ReleasingStays(s, steps[0], o);
        PendingReleaseDangles(Apply(s, steps[0]), steps[1..], o);
      }
    }
  }

  lemma {:induction false} AlwaysSafeIsDisciplined(s: State, steps: seq<Step>)
    requires Inv(s) && Runs(s, steps) && Quiescent(EndOf(s, steps)) && AlwaysSafe(s, steps)
    ensures DisciplinedRun(s, steps)
    decreases |steps|
  {
    if steps != [] {
      StepKeepsInv(s, steps[0]);
      DeliverySafeIff(s, steps[0]);
      AlwaysSafeIsDisciplined(Apply(s, steps[0]), steps[1..]);
      if !CarefulMove(s, steps[0]) { PendingReleaseDangles(Apply(s, steps[0]), steps[1..], steps[0].dst); }
    }
  }

  /** Over every run in which all calls return: every closure nats.c may dereference is in its map in
      every state iff no asynchronous subscription was move-assigned to and no connection dropped
      before its asynchronous subscriptions. */
  lemma {:induction false} AlwaysSafeIffDisciplined(steps: seq<Step>)
    requires Runs(INIT, steps) && Quiescent(EndOf(INIT, steps))
    ensures AlwaysSafe(INIT, steps) <==> DisciplinedRun(INIT, steps)
  {
    if AlwaysSafe(INIT, steps) { AlwaysSafeIsDisciplined(INIT, steps); }
    if DisciplinedRun(INIT, steps) {
      DisciplinedRunsAreHazardFree(INIT, steps);
      HazardFreeIsAlwaysSafe(INIT, steps);
    }
  }

  /** Move assignment itself opens the window: started on an idle, safe pair of objects, its first
      statement leaves nats.c with a dangling closure iff the target holds an asynchronous
      subscription. */
  lemma {:induction false} MoveAssignWindowIff(s: State, dst: ObjId, src: ObjId)
    requires Inv(s) && DeliverySafe(s) && Enabled(s, MoveAssign(dst, src)) && dst != src
    ensures Runs(s, [MoveAssign(dst, src), Advance(dst)])
    ensures DeliverySafe(EndOf(s, [MoveAssign(dst, src), Advance(dst)])) <==> !(s.objs[dst].sub.Some? && s.objs[dst].release.Some?)
  {
    var m := MoveAssign(dst, src);
    var t := Apply(s, m);
    StepKeepsInv(s, m);
    assert DeliverySafe(t);
    assert Enabled(t, Advance(dst));
    var steps := [m, Advance(dst)];
    assert steps[1..] == [Advance(dst)] && [Advance(dst)][1..] == [];
    assert Runs(Apply(t, Advance(dst)), []);
    assert Runs(t, [Advance(dst)]) && Runs(s, steps);
    assert EndOf(s, steps) == EndOf(t, [Advance(dst)]) == Apply(t, Advance(dst)) == RunRelease(t, dst);
    ReleaseIsSafeIff(t, dst);
  }

  // ---------------------------------------------------------------- connection objects

  /** The callback block of connection object `c`; none when it does not exist or was moved from. */
  function BlockAt(s: State, c: ConnId): Option<RegId> { if c in s.conns then s.conns[c] else None }

  ghost predicate OtherConnsSame(s: State, t: State, cs: set<ConnId>) {
    forall c :: c !in cs ==> (c in t.conns <==> c in s.conns) && BlockAt(t, c) == BlockAt(s, c)
  }

  /** A new connection has a new, empty block; a destroyed one takes its block along. */
  lemma {:induction false} LifeOfConnection(s: State, c: ConnId)
    ensures
      c !in s.conns ==>
        var t := Apply(s, NewConnection(c));
        && BlockAt(t, c) == Some(s.nextReg) && t.regs == s.regs[s.nextReg := map[]] && OtherConnsSame(s, t, {c})
        && t.subs == s.subs && t.objs == s.objs && t.calls == s.calls
    ensures
      c in s.conns && Unused(s, c) ==>
        var t := Apply(s, DropConnection(c));
        && c !in t.conns && OtherConnsSame(s, t, {c})
        && (forall r :: r in t.regs <==> r in s.regs && BlockAt(s, c) != Some(r))
        && (forall r :: r in t.regs ==> t.regs[r] == s.regs[r])
        && t.subs == s.subs && t.objs == s.objs && t.calls == s.calls
  {
  }

  /** A moved connection takes its block along with every entry; the block of an assigned-to
      connection goes; onto itself nothing happens. */
  lemma {:induction false} MovesOfConnection(s: State, dst: ConnId, src: ConnId)
    requires src in s.conns && Unused(s, src)
    ensures
      dst !in s.conns ==>
        var t := Apply(s, MoveConnection(dst, src));
        && dst in t.conns && BlockAt(t, dst) == BlockAt(s, src) && src in t.conns && BlockAt(t, src) == None
        && OtherConnsSame(s, t, {dst, src}) && t.regs == s.regs
        && t.subs == s.subs && t.objs == s.objs && t.calls == s.calls
    ensures
      dst in s.conns && Unused(s, dst) ==>
        var t := Apply(s, AssignConnection(dst, src));
        if dst == src then t == s
        else
          && dst in t.conns && BlockAt(t, dst) == BlockAt(s, src) && src in t.conns && BlockAt(t, src) == None
          && OtherConnsSame(s, t, {dst, src})
          && (forall r :: r in t.regs <==> r in s.regs && BlockAt(s, dst) != Some(r))
          && (forall r :: r in t.regs ==> t.regs[r] == s.regs[r])
          && t.subs == s.subs && t.objs == s.objs && t.calls == s.calls
  {
  }

  // ---------------------------------------------------------------- releases

  /** No stale erase: when a release lambda runs, it never ran for this closure before; with the
      registry alive it removes exactly its own entry, although the address may have been used by
      earlier closures; with the registry gone it touches nothing. */
  lemma {:induction false} ReleaseErasesOnlyItsOwn(s: State, o: ObjId)
    requires Inv(s) && Enabled(s, Advance(o)) && s.objs[o].phase.Releasing? && s.objs[o].release.Some?
    ensures
      var l := s.objs[o].release.value;
      var t := Apply(s, Advance(o));
      && l.closure.id !in s.released && l.closure.id in t.released
      && (l.reg !in s.regs ==> t.regs == s.regs)
      && (l.reg in s.regs ==>
            && Entry(s, l)
            && t.regs.Keys == s.regs.Keys
            && (forall r, a :: r in s.regs ==> (a in t.regs[r] <==> a in s.regs[r] && Link(r, a, s.regs[r][a]) != l))
            && (forall r, a :: r in s.regs && a in t.regs[r] ==> t.regs[r][a] == s.regs[r][a]))
  {
    var l := s.objs[o].release.value;
    assert s.claim[l.closure.id] == o;
    if l.reg in s.regs {
      assert Entry(s, l);
    }
  }

  /** How often the release lambda made for closure `id` runs along `steps`. */
  ghost function ReleaseRuns(s: State, steps: seq<Step>, id: Id): nat
    requires Runs(s, steps)
    decreases |steps|
  {
    if steps == [] then 0
    else ReleaseRuns(Apply(s, steps[0]), steps[1..], id) + if RunsRelease(s, steps[0], id) then 1 else 0
  }

  predicate RunsRelease(s: State, st: Step, id: Id) {
    st.Advance? && st.o in s.objs && s.objs[st.o].phase.Releasing?
    && s.objs[st.o].release.Some? && s.objs[st.o].release.value.closure.id == id
  }

  /** Over every run, hazards included, each release lambda runs at most once. */
  lemma {:induction false} ReleaseRunsAtMostOnce(s: State, steps: seq<Step>, id: Id)
    requires Inv(s) && Runs(s, steps)
    ensures ReleaseRuns(s, steps, id) <= 1
    ensures id in s.released ==> ReleaseRuns(s, steps, id) == 0
    decreases |steps|
  {
    if steps != [] {
      StepKeepsInv(s, steps[0]);
      ReleaseRunsAtMostOnce(Apply(s, steps[0]), steps[1..], id);
      ReleasedGrows(s, steps[0]);
      if RunsRelease(s, steps[0], id) {
        ReleaseErasesOnlyItsOwn(s, steps[0].o);
      }
    }
  }

  lemma {:induction false} ReleasedGrows(s: State, st: Step)
    requires Enabled(s, st)
    ensures s.released <= Apply(s, st).released
  {
    match st
    case Advance(o) => AdvanceReleasedGrows(s, o);
    case _ =>
  }

  lemma {:induction false} AdvanceReleasedGrows(s: State, o: ObjId)
    requires Enabled(s, Advance(o))
    ensures s.released <= Advanced(s, o).released
  {
    match s.objs[o].phase
    case Releasing(_) => assert s.released <= RunRelease(s, o).released;
    case _ =>
  }

  // ---------------------------------------------------------------- agreement

  /** Closure `c` lives at address `a`: a map of a live registry or a local token holds it there. */
  ghost predicate Lives(s: State, a: Addr, c: Closure) {
    || (exists r :: r in s.regs && a in s.regs[r] && s.regs[r][a] == c)
    || (exists id :: id in s.calls && s.calls[id].link.key == a && s.calls[id].link.closure == c)
  }

  lemma {:induction false} OneClosurePerAddress(s: State, a: Addr, c: Closure, d: Closure)
    requires Inv(s) && Lives(s, a, c) && Lives(s, a, d)
    ensures c == d
  {
    if exists id :: id in s.calls && s.calls[id].link.key == a {
      var id :| id in s.calls && s.calls[id].link.key == a;
      forall r | r in s.regs && a in s.regs[r] ensures s.regs[r][a] == s.calls[id].link.closure {
        assert Entry(s, s.calls[id].link);
      }
    }
  }

  /** In a disciplined run a delivery on a native subscription finds, at the raw address nats.c
      kept, the very closure that was registered with it, although addresses are reused. */
  lemma {:induction false} DeliveryReachesItsHandler(steps: seq<Step>, n: SubId, c: Closure)
    requires Runs(INIT, steps) && DisciplinedRun(INIT, steps)
    requires n in EndOf(INIT, steps).subs && EndOf(INIT, steps).subs[n].Some?
    ensures
      var l := EndOf(INIT, steps).subs[n].value;
      Lives(EndOf(INIT, steps), l.key, c) <==> c == l.closure
  {
    var s := EndOf(INIT, steps);
    DisciplinedRunsAreSafe(steps);
    RunsKeepInv(INIT, steps);
    var l := s.subs[n].value;
    assert Entry(s, l);
    assert Lives(s, l.key, l.closure);
    if Lives(s, l.key, c) { OneClosurePerAddress(s, l.key, c, l.closure); }
  }

  /** No call is in flight. */
  ghost predicate Quiescent(s: State) {
    s.calls == map[] && forall o :: o in s.objs ==> s.objs[o].phase.Idle?
  }

  /** The registry holds exactly the closures of the asynchronous native subscriptions still owned,
      and each native subscription is owned by exactly one object. */
  ghost predicate Agreement(s: State) {
    && (forall r, a :: r in s.regs && a in s.regs[r] ==>
          exists n :: n in s.subs && s.subs[n] == Some(Link(r, a, s.regs[r][a])))
    && (forall n :: n in s.subs && s.subs[n].Some? && s.subs[n].value.reg in s.regs ==> Entry(s, s.subs[n].value))
    && (forall n :: n in s.subs ==> n in s.holder && s.holder[n].InObj? && Owns(s, s.holder[n].o, n))
    && (forall n, o :: n in s.subs && Owns(s, o, n) ==> n in s.holder && s.holder[n] == InObj(o))
    && (forall n, m :: n in s.subs && m in s.subs && s.subs[n].Some? && s.subs[n] == s.subs[m] ==> n == m)
  }

  predicate Owns(s: State, o: ObjId, n: SubId) { o in s.objs && s.objs[o].sub == Some(n) }

  lemma {:induction false} QuiescentAgreement(s: State)
    requires Inv(s) && Quiescent(s)
    ensures Agreement(s)
  {
    forall r, a | r in s.regs && a in s.regs[r]
      ensures exists n :: n in s.subs && s.subs[n] == Some(Link(r, a, s.regs[r][a]))
    {
      var l := Link(r, a, s.regs[r][a]);
      assert Owned(s, l);
      var o := s.claim[l.closure.id];
      assert PhaseOk(s, o);
      var n := s.objs[o].sub.value;
      assert n in s.subs && s.subs[n] == Some(l);
    }
    forall n | n in s.subs ensures s.holder[n].InObj? && Owns(s, s.holder[n].o, n)
      && PhaseOk(s, s.holder[n].o) && s.objs[s.holder[n].o].release == s.subs[n]
    {
    }
    forall n, m | n in s.subs && m in s.subs && s.subs[n].Some? && s.subs[n] == s.subs[m] ensures n == m {
      var o, p := s.holder[n].o, s.holder[m].o;
      assert s.objs[o].release == s.objs[p].release == s.subs[n];
      assert o == p;
    }
  }

  /** Registry agreement over every run from the empty process, hazards included, whenever no call
      is in flight: no closure leaks, and none that is still needed is missing. */
  lemma {:induction false} RegistryAgreement(steps: seq<Step>)
    requires Runs(INIT, steps) && Quiescent(EndOf(INIT, steps))
    ensures Agreement(EndOf(INIT, steps))
    ensures EndOf(INIT, steps).objs == map[] ==> Drained(EndOf(INIT, steps))
  {
    RunsKeepInv(INIT, steps);
    QuiescentAgreement(EndOf(INIT, steps));
    if EndOf(INIT, steps).objs == map[] { AgreementDrains(EndOf(INIT, steps)); }
  }

  /** No native subscription is left and no registry keeps a closure. */
  ghost predicate Drained(s: State) {
    s.subs == map[] && forall r :: r in s.regs ==> s.regs[r] == map[]
  }

  lemma {:induction false} AgreementDrains(s: State)
    requires Agreement(s) && s.objs == map[]
    ensures Drained(s)
  {
    forall n ensures n !in s.subs {
      assert n in s.subs ==> Owns(s, s.holder[n].o, n);
    }
    assert s.subs.Keys == {};
    forall r | r in s.regs ensures s.regs[r] == map[] {
      forall a ensures a !in s.regs[r] {
        if a in s.regs[r] { assert false; }
      }
      assert s.regs[r].Keys == {};
    }
  }

  // ---------------------------------------------------------------- the hazards are real

  const LINK := Link(0, 4096, Closure(0, Some(7)))

  /** One asynchronous subscription, object 0, on connection 0; object 1 is default-constructed. */
  const SUBSCRIBED :=
    State(map[0 := Some(0)], map[0 := map[4096 := Closure(0, Some(7))]], map[1 := Some(LINK)],
          map[0 := Obj(Some(1), Some(LINK), Idle), 1 := Obj(None, None, Idle)], map[], 1, 1, map[0 := 0], map[1 := InObj(0)], {})

  /** One connection object. */
  const REGISTRY := State(map[0 := Some(0)], map[0 := map[]], map[], map[], map[], 1, 0, map[], map[], {})

  /** The statements of a registration on it, up to the subscription object it returns. */
  const TOKEN_MADE := REGISTRY.(calls := map[0 := Call(0, LINK, MadeToken)], nextId := 1)
  const INSERTED :=
    State(map[0 := Some(0)], map[0 := map[4096 := Closure(0, Some(7))]], map[], map[],
          map[0 := Call(0, LINK, Inserted)], 1, 1, map[], map[], {})
  const ACCEPTED := INSERTED.(subs := map[1 := Some(LINK)], holder := map[1 := InCall(0)], calls := map[0 := Call(0, LINK, Subscribed(1))])
  const RETURNED := SUBSCRIBED.(objs := map[0 := Obj(Some(1), Some(LINK), Idle)])

  lemma {:induction false} RegistrationStates()
    ensures Enabled(REGISTRY, StartRegister(0, 4096, Some(7))) && Apply(REGISTRY, StartRegister(0, 4096, Some(7))) == TOKEN_MADE
    ensures Enabled(TOKEN_MADE, Insert(0)) && Apply(TOKEN_MADE, Insert(0)) == INSERTED
  {
  }

  lemma {:induction false} AcceptedStates()
    ensures Enabled(INSERTED, NativeSubscribe(0, 1, true)) && Apply(INSERTED, NativeSubscribe(0, 1, true)) == ACCEPTED
    ensures Enabled(ACCEPTED, Construct(0, 0)) && Apply(ACCEPTED, Construct(0, 0)) == RETURNED
  {
    assert ACCEPTED.calls - {0} == map[];
  }

  const OPEN := [NewConnection(0), StartRegister(0, 4096, Some(7)), Insert(0)]

  const SUBSCRIBE := [NativeSubscribe(0, 1, true), Construct(0, 0), NewSubscription(1, None)]

  /** As `RunCons`, without the events. */
  lemma {:induction false} Precede(s: State, st: Step, rest: seq<Step>)
    requires Enabled(s, st) && Runs(Apply(s, st), rest)
    ensures Runs(s, [st] + rest) && EndOf(s, [st] + rest) == EndOf(Apply(s, st), rest)
  {
    RunCons(s, st, rest);
  }

  lemma {:induction false} OpenRuns(rest: seq<Step>)
    requires Runs(INSERTED, rest)
    ensures Runs(INIT, OPEN + rest) && EndOf(INIT, OPEN + rest) == EndOf(INSERTED, rest)
  {
    RegistrationStates();
    assert Apply(INIT, NewConnection(0)) == REGISTRY;
    Precede(TOKEN_MADE, Insert(0), rest);
    Precede(REGISTRY, StartRegister(0, 4096, Some(7)), [Insert(0)] + rest);
    Precede(INIT, NewConnection(0), [StartRegister(0, 4096, Some(7))] + ([Insert(0)] + rest));
    assert OPEN + rest == [NewConnection(0)] + ([StartRegister(0, 4096, Some(7))] + ([Insert(0)] + rest));
  }

  lemma {:induction false} SubscribeRuns(rest: seq<Step>)
    requires Runs(SUBSCRIBED, rest)
    ensures Runs(INSERTED, SUBSCRIBE + rest) && EndOf(INSERTED, SUBSCRIBE + rest) == EndOf(SUBSCRIBED, rest)
  {
    AcceptedStates();
    assert Apply(RETURNED, NewSubscription(1, None)) == SUBSCRIBED;
    Precede(RETURNED, NewSubscription(1, None), rest);
    Precede(ACCEPTED, Construct(0, 0), [NewSubscription(1, None)] + rest);
    Precede(INSERTED, NativeSubscribe(0, 1, true), [Construct(0, 0)] + ([NewSubscription(1, None)] + rest));
    assert SUBSCRIBE + rest == [NativeSubscribe(0, 1, true)] + ([Construct(0, 0)] + ([NewSubscription(1, None)] + rest));
  }

  lemma {:induction false} SubscribedReached()
    ensures Inv(SUBSCRIBED) && DeliverySafe(SUBSCRIBED)
  {
    SubscribeRuns([]);
    OpenRuns(SUBSCRIBE + []);
    RunsKeepInv(INIT, OPEN + (SUBSCRIBE + []));
  }

  /** `sub = natscpp::subscription{};` on a live asynchronous subscription leaves nats.c with a
      dangling closure. */
  lemma {:induction false} AssigningOverLiveSubscriptionDangles()
    ensures
      var steps := OPEN + (SUBSCRIBE + [MoveAssign(0, 1), Advance(0)]);
      Runs(INIT, steps) && !DeliverySafe(EndOf(INIT, steps))
  {
    SubscribedReached();
    MoveAssignWindowIff(SUBSCRIBED, 0, 1);
    SubscribeRuns([MoveAssign(0, 1), Advance(0)]);
    OpenRuns(SUBSCRIBE + [MoveAssign(0, 1), Advance(0)]);
  }

  /** So does destroying the connection object before its subscription. */
  lemma {:induction false} DroppingConnectionFirstDangles()
    ensures
      var steps := OPEN + (SUBSCRIBE + [DropConnection(0)]);
      Runs(INIT, steps) && !DeliverySafe(EndOf(INIT, steps))
  {
    SubscribedReached();
    assert 1 in SUBSCRIBED.subs && Backing(SUBSCRIBED, 0);
    DeliverySafeIff(SUBSCRIBED, DropConnection(0));
    RunCons(SUBSCRIBED, DropConnection(0), []);
    assert [DropConnection(0)] + [] == [DropConnection(0)];
    SubscribeRuns([DropConnection(0)]);
    OpenRuns(SUBSCRIBE + [DropConnection(0)]);
  }
}
