/**
 Every statement of every call keeps the registry invariant.

 A step touches the registry side (maps, registrations, pending releases), the handle side (native
 subscriptions, objects, phases), or both. Two frame lemmas settle the side a step leaves alone.
 */
module RegistryInvariant {
  import opened Common
  import opened Registry

  /** Every release lambda that is due in `s` is due in `t`, on the same object. */
  ghost predicate DueStays(s: State, t: State) {
    forall o {:trigger s.objs[o]} :: o in s.objs && s.objs[o].release.Some? && !s.objs[o].phase.Clearing? ==>
      o in t.objs && t.objs[o].release == s.objs[o].release && !t.objs[o].phase.Clearing?
  }

  lemma {:induction false} RegisteredFrame(s: State, t: State)
    requires Registered(s)
    requires t.conns == s.conns && t.regs == s.regs && t.calls == s.calls && t.claim == s.claim && t.released == s.released
    requires t.nextReg == s.nextReg && t.nextId == s.nextId
    requires forall o {:trigger t.objs[o]} :: o in t.objs && t.objs[o].release.Some? ==> o in s.objs && s.objs[o].release == t.objs[o].release
    requires DueStays(s, t) && DueStays(t, s)
    ensures Registered(t)
  {
    forall id | id in s.claim
      ensures s.claim[id] in t.objs && t.objs[s.claim[id]].release == s.objs[s.claim[id]].release
      ensures !t.objs[s.claim[id]].phase.Clearing?
    {
      var o := s.claim[id];
      assert o in s.objs && s.objs[o].release.Some? && !s.objs[o].phase.Clearing?;
    }
    forall r, a | r in t.regs && a in t.regs[r] ensures Owned(t, Link(r, a, t.regs[r][a])) {
      assert Owned(s, Link(r, a, s.regs[r][a]));
    }
  }

  lemma {:induction false} HeldFrame(s: State, t: State)
    requires Held(s)
    requires t.subs == s.subs && t.holder == s.holder && t.objs == s.objs && s.released <= t.released
    requires forall id :: id in s.calls && s.calls[id].progress.Subscribed? ==> id in t.calls && t.calls[id] == s.calls[id]
    requires forall id :: id in t.calls && t.calls[id].progress.Subscribed? ==> id in s.calls && t.calls[id] == s.calls[id]
    ensures Held(t)
  {
  }

  lemma {:induction false} NewConnectionKeepsAddresses(s: State, c: ConnId)
    requires Addressed(s)
    requires Enabled(s, NewConnection(c))
    ensures Addressed(Apply(s, NewConnection(c)))
  {
  }

  lemma {:induction false} NewConnectionKeepsEntries(s: State, c: ConnId)
    requires Registered(s)
    requires Enabled(s, NewConnection(c))
    ensures CallsOk(Apply(s, NewConnection(c))) && EntriesOk(Apply(s, NewConnection(c))) && ReleasesOk(Apply(s, NewConnection(c)))
  {
  }

  lemma {:induction false} MoveConnectionKeepsAddresses(s: State, dst: ConnId, src: ConnId)
    requires Addressed(s)
    requires Enabled(s, MoveConnection(dst, src))
    ensures Addressed(Apply(s, MoveConnection(dst, src)))
  {
  }

  lemma {:induction false} MoveConnectionKeepsEntries(s: State, dst: ConnId, src: ConnId)
    requires Registered(s)
    requires Enabled(s, MoveConnection(dst, src))
    ensures CallsOk(Apply(s, MoveConnection(dst, src))) && EntriesOk(Apply(s, MoveConnection(dst, src))) && ReleasesOk(Apply(s, MoveConnection(dst, src)))
  {
  }

  lemma {:induction false} AssignConnectionKeepsAddresses(s: State, dst: ConnId, src: ConnId)
    requires Addressed(s)
    requires Enabled(s, AssignConnection(dst, src))
    ensures Addressed(Apply(s, AssignConnection(dst, src)))
  {
    if dst != src {
      var t := Apply(s, AssignConnection(dst, src));
      assert forall r :: r in t.regs ==> r in s.regs && t.regs[r] == s.regs[r];
      assert forall c :: c in t.conns && t.conns[c].Some? ==> c != src && t.conns[c] == s.conns[if c == dst then src else c];
    }
  }

  lemma {:induction false} AssignConnectionKeepsEntries(s: State, dst: ConnId, src: ConnId)
    requires Registered(s)
    requires Enabled(s, AssignConnection(dst, src))
    ensures CallsOk(Apply(s, AssignConnection(dst, src))) && EntriesOk(Apply(s, AssignConnection(dst, src)))
  {
  }

  lemma {:induction false} AssignConnectionKeepsReleases(s: State, dst: ConnId, src: ConnId)
    requires Registered(s)
    requires Enabled(s, AssignConnection(dst, src))
    ensures ReleasesOk(Apply(s, AssignConnection(dst, src)))
  {
  }

  lemma {:induction false} DropConnectionKeepsAddresses(s: State, c: ConnId)
    requires Addressed(s)
    requires Enabled(s, DropConnection(c))
    ensures Addressed(Apply(s, DropConnection(c)))
  {
  }

  lemma {:induction false} DropConnectionKeepsEntries(s: State, c: ConnId)
    requires Registered(s)
    requires Enabled(s, DropConnection(c))
    ensures CallsOk(Apply(s, DropConnection(c))) && EntriesOk(Apply(s, DropConnection(c))) && ReleasesOk(Apply(s, DropConnection(c)))
  {
  }

  lemma {:induction false} StartRegisterKeepsAddresses(s: State, c: ConnId, a: Addr, h: Handler)
    requires Addressed(s) && CallsOk(s)
    requires Enabled(s, StartRegister(c, a, h))
    ensures Addressed(Apply(s, StartRegister(c, a, h)))
  {
  }

  lemma {:induction false} StartRegisterKeepsEntries(s: State, c: ConnId, a: Addr, h: Handler)
    requires Registered(s)
    requires Enabled(s, StartRegister(c, a, h))
    ensures CallsOk(Apply(s, StartRegister(c, a, h))) && EntriesOk(Apply(s, StartRegister(c, a, h))) && ReleasesOk(Apply(s, StartRegister(c, a, h)))
  {
  }

  lemma {:induction false} InsertKeepsAddresses(s: State, id: Id)
    requires Addressed(s) && CallsOk(s)
    requires InProgress(s, id, MadeToken)
    ensures Addressed(InsertToken(s, id))
  {
  }

  lemma {:induction false} InsertKeepsEntries(s: State, id: Id)
    requires Registered(s)
    requires InProgress(s, id, MadeToken)
    ensures CallsOk(InsertToken(s, id)) && EntriesOk(InsertToken(s, id)) && ReleasesOk(InsertToken(s, id))
  {
  }

  lemma {:induction false} NativeSubscribeKeepsAddresses(s: State, id: Id, n: SubId, ok: bool)
    requires Addressed(s) && CallsOk(s)
    requires InProgress(s, id, Inserted) && n !in s.subs
    ensures Addressed(SubscribeNatively(s, id, n, ok))
  {
  }

  lemma {:induction false} NativeSubscribeKeepsEntries(s: State, id: Id, n: SubId, ok: bool)
    requires Registered(s)
    requires InProgress(s, id, Inserted) && n !in s.subs
    ensures CallsOk(SubscribeNatively(s, id, n, ok)) && EntriesOk(SubscribeNatively(s, id, n, ok)) && ReleasesOk(SubscribeNatively(s, id, n, ok))
  {
  }

  lemma {:induction false} RollbackKeepsAddresses(s: State, id: Id)
    requires Addressed(s) && CallsOk(s)
    requires InProgress(s, id, Refused)
    ensures Addressed(RollBack(s, id))
  {
  }

  lemma {:induction false} RollbackKeepsEntries(s: State, id: Id)
    requires Registered(s)
    requires InProgress(s, id, Refused)
    ensures CallsOk(RollBack(s, id)) && EntriesOk(RollBack(s, id)) && ReleasesOk(RollBack(s, id))
  {
  }

  lemma {:induction false} ConstructKeepsAddresses(s: State, id: Id, o: ObjId)
    requires Addressed(s) && CallsOk(s)
    requires id in s.calls && s.calls[id].progress.Subscribed? && o !in s.objs
    ensures Addressed(ReturnSubscription(s, id, o))
  {
  }

  lemma {:induction false} ConstructKeepsEntries(s: State, id: Id, o: ObjId)
    requires Registered(s)
    requires id in s.calls && s.calls[id].progress.Subscribed? && o !in s.objs
    ensures CallsOk(ReturnSubscription(s, id, o)) && EntriesOk(ReturnSubscription(s, id, o)) && ReleasesOk(ReturnSubscription(s, id, o))
  {
  }

  lemma {:induction false} RunReleaseKeepsAddresses(s: State, o: ObjId)
    requires Addressed(s) && ReleasesOk(s) && CallsOk(s)
    requires o in s.objs && s.objs[o].phase.Releasing? && PhaseOk(s, o)
    ensures Addressed(RunRelease(s, o))
  {
  }

  lemma {:induction false} RunReleaseKeepsEntries(s: State, o: ObjId)
    requires Registered(s)
    requires o in s.objs && s.objs[o].phase.Releasing? && PhaseOk(s, o)
    ensures CallsOk(RunRelease(s, o)) && EntriesOk(RunRelease(s, o))
  {
  }

  lemma {:induction false} RunReleaseKeepsReleases(s: State, o: ObjId)
    requires Registered(s)
    requires o in s.objs && s.objs[o].phase.Releasing? && PhaseOk(s, o)
    ensures ReleasesOk(RunRelease(s, o))
  {
  }

  lemma {:induction false} ClearReleaseKeepsAddresses(s: State, o: ObjId)
    requires Addressed(s)
    requires o in s.objs && s.objs[o].phase.Clearing? && PhaseOk(s, o)
    ensures Addressed(ClearRelease(s, o))
  {
  }

  lemma {:induction false} ClearReleaseKeepsEntries(s: State, o: ObjId)
    requires Registered(s)
    requires o in s.objs && s.objs[o].phase.Clearing? && PhaseOk(s, o)
    ensures CallsOk(ClearRelease(s, o)) && EntriesOk(ClearRelease(s, o)) && ReleasesOk(ClearRelease(s, o))
  {
  }

  lemma {:induction false} TakeReleaseKeepsAddresses(s: State, o: ObjId)
    requires Addressed(s) && ReleasesOk(s)
    requires o in s.objs && s.objs[o].phase.TakingRelease? && PhaseOk(s, o)
    ensures Addressed(TakeRelease(s, o))
  {
  }

  lemma {:induction false} TakeReleaseKeepsEntries(s: State, o: ObjId)
    requires Registered(s)
    requires o in s.objs && s.objs[o].phase.TakingRelease? && PhaseOk(s, o)
    ensures CallsOk(TakeRelease(s, o)) && EntriesOk(TakeRelease(s, o)) && ReleasesOk(TakeRelease(s, o))
  {
  }

  lemma {:induction false} NewSubscriptionKeepsRegistered(s: State, o: ObjId, n: Option<SubId>)
    requires Registered(s)
    requires Enabled(s, NewSubscription(o, n))
    ensures Registered(Apply(s, NewSubscription(o, n)))
  {
    RegisteredFrame(s, Apply(s, NewSubscription(o, n)));
  }

  lemma {:induction false} UnsubscribeKeepsRegistered(s: State, o: ObjId, ok: bool)
    requires Registered(s)
    requires Enabled(s, Unsubscribe(o, ok))
    ensures Registered(Apply(s, Unsubscribe(o, ok)))
  {
    RegisteredFrame(s, Apply(s, Unsubscribe(o, ok)));
  }

  lemma {:induction false} DestroyKeepsRegistered(s: State, o: ObjId)
    requires Registered(s)
    requires Enabled(s, Destroy(o))
    ensures Registered(Apply(s, Destroy(o)))
  {
    RegisteredFrame(s, Apply(s, Destroy(o)));
  }

  lemma {:induction false} MoveConstructKeepsRegistered(s: State, dst: ObjId, src: ObjId)
    requires Registered(s)
    requires dst !in s.objs && IdleObj(s, src)
    ensures Registered(StartMoveConstruct(s, dst, src))
  {
    RegisteredFrame(s, StartMoveConstruct(s, dst, src));
  }

  lemma {:induction false} MoveAssignKeepsRegistered(s: State, dst: ObjId, src: ObjId)
    requires Registered(s)
    requires IdleObj(s, dst) && IdleObj(s, src) && dst != src
    ensures Registered(StartMoveAssign(s, dst, src))
  {
    RegisteredFrame(s, StartMoveAssign(s, dst, src));
  }

  lemma {:induction false} CloseNativeKeepsRegistered(s: State, o: ObjId)
    requires Registered(s)
    requires o in s.objs && s.objs[o].phase.Closing? && PhaseOk(s, o)
    ensures Registered(CloseNative(s, o))
  {
    RegisteredFrame(s, CloseNative(s, o));
  }

  lemma {:induction false} AdoptKeepsRegistered(s: State, o: ObjId)
    requires Registered(s)
    requires o in s.objs && s.objs[o].phase.Adopting? && PhaseOk(s, o)
    ensures Registered(Adopt(s, o))
  {
    RegisteredFrame(s, Adopt(s, o));
  }

  lemma {:induction false} NewSubscriptionKeepsHandles(s: State, o: ObjId, n: Option<SubId>)
    requires HandlesOk(s) && PhasesOk(s)
    requires Enabled(s, NewSubscription(o, n))
    ensures Held(Apply(s, NewSubscription(o, n)))
  {
  }

  lemma {:induction false} NativeSubscribeKeepsHandles(s: State, id: Id, n: SubId, ok: bool)
    requires HandlesOk(s) && PhasesOk(s)
    requires InProgress(s, id, Inserted) && n !in s.subs
    ensures Held(SubscribeNatively(s, id, n, ok))
  {
  }

  lemma {:induction false} ConstructKeepsHandles(s: State, id: Id, o: ObjId)
    requires HandlesOk(s) && PhasesOk(s)
    requires id in s.calls && s.calls[id].progress.Subscribed? && o !in s.objs
    ensures Held(ReturnSubscription(s, id, o))
  {
  }

  lemma {:induction false} UnsubscribeKeepsHandles(s: State, o: ObjId, ok: bool)
    requires HandlesOk(s) && PhasesOk(s)
    requires Enabled(s, Unsubscribe(o, ok))
    ensures Held(Apply(s, Unsubscribe(o, ok)))
  {
  }

  lemma {:induction false} DestroyKeepsHandles(s: State, o: ObjId)
    requires HandlesOk(s) && PhasesOk(s)
    requires Enabled(s, Destroy(o))
    ensures Held(Apply(s, Destroy(o)))
  {
  }

  lemma {:induction false} MoveConstructKeepsHandles(s: State, dst: ObjId, src: ObjId)
    requires HandlesOk(s) && PhasesOk(s)
    requires dst !in s.objs && IdleObj(s, src)
    ensures HandlesOk(StartMoveConstruct(s, dst, src))
  {
  }

  lemma {:induction false} MoveConstructKeepsPhases(s: State, dst: ObjId, src: ObjId)
    requires HandlesOk(s) && PhasesOk(s)
    requires dst !in s.objs && IdleObj(s, src)
    ensures PhasesOk(StartMoveConstruct(s, dst, src))
  {
  }

  lemma {:induction false} MoveAssignKeepsHandles(s: State, dst: ObjId, src: ObjId)
    requires HandlesOk(s) && PhasesOk(s)
    requires IdleObj(s, dst) && IdleObj(s, src) && dst != src
    ensures HandlesOk(StartMoveAssign(s, dst, src))
  {
  }

  lemma {:induction false} MoveAssignKeepsPhases(s: State, dst: ObjId, src: ObjId)
    requires HandlesOk(s) && PhasesOk(s)
    requires IdleObj(s, dst) && IdleObj(s, src) && dst != src
    ensures PhasesOk(StartMoveAssign(s, dst, src))
  {
  }

  lemma {:induction false} CloseNativeKeepsHandles(s: State, o: ObjId)
    requires HandlesOk(s) && PhasesOk(s)
    requires o in s.objs && s.objs[o].phase.Closing? && PhaseOk(s, o)
    ensures Held(CloseNative(s, o))
  {
  }

  lemma {:induction false} RunReleaseKeepsHandles(s: State, o: ObjId)
    requires HandlesOk(s) && PhasesOk(s)
    requires o in s.objs && s.objs[o].phase.Releasing? && PhaseOk(s, o)
    ensures Held(RunRelease(s, o))
  {
  }

  lemma {:induction false} ClearReleaseKeepsHandles(s: State, o: ObjId)
    requires HandlesOk(s) && PhasesOk(s)
    requires o in s.objs && s.objs[o].phase.Clearing? && PhaseOk(s, o)
    ensures Held(ClearRelease(s, o))
  {
  }

  lemma {:induction false} AdoptKeepsHandles(s: State, o: ObjId)
    requires HandlesOk(s) && PhasesOk(s)
    requires o in s.objs && s.objs[o].phase.Adopting? && PhaseOk(s, o)
    ensures HandlesOk(Adopt(s, o))
  {
  }

  lemma {:induction false} AdoptKeepsPhases(s: State, o: ObjId)
    requires HandlesOk(s) && PhasesOk(s)
    requires o in s.objs && s.objs[o].phase.Adopting? && PhaseOk(s, o)
    ensures PhasesOk(Adopt(s, o))
  {
  }

  lemma {:induction false} TakeReleaseKeepsHandles(s: State, o: ObjId)
    requires HandlesOk(s) && PhasesOk(s)
    requires o in s.objs && s.objs[o].phase.TakingRelease? && PhaseOk(s, o)
    ensures Held(TakeRelease(s, o))
  {
  }

  lemma NewConnectionKeepsInv(s: State, c: ConnId)
    requires Inv(s) && Enabled(s, NewConnection(c))
    ensures Inv(Apply(s, NewConnection(c)))
  {
    HeldFrame(s, Apply(s, NewConnection(c)));
    NewConnectionKeepsAddresses(s, c);
    NewConnectionKeepsEntries(s, c);
  }

  lemma MoveConnectionKeepsInv(s: State, dst: ConnId, src: ConnId)
    requires Inv(s) && Enabled(s, MoveConnection(dst, src))
    ensures Inv(Apply(s, MoveConnection(dst, src)))
  {
    HeldFrame(s, Apply(s, MoveConnection(dst, src)));
    MoveConnectionKeepsAddresses(s, dst, src);
    MoveConnectionKeepsEntries(s, dst, src);
  }

  lemma AssignConnectionKeepsInv(s: State, dst: ConnId, src: ConnId)
    requires Inv(s) && Enabled(s, AssignConnection(dst, src))
    ensures Inv(Apply(s, AssignConnection(dst, src)))
  {
    HeldFrame(s, Apply(s, AssignConnection(dst, src)));
    AssignConnectionKeepsAddresses(s, dst, src);
    AssignConnectionKeepsEntries(s, dst, src);
    AssignConnectionKeepsReleases(s, dst, src);
  }

  lemma DropConnectionKeepsInv(s: State, c: ConnId)
    requires Inv(s) && Enabled(s, DropConnection(c))
    ensures Inv(Apply(s, DropConnection(c)))
  {
    HeldFrame(s, Apply(s, DropConnection(c)));
    DropConnectionKeepsAddresses(s, c);
    DropConnectionKeepsEntries(s, c);
  }

  lemma ConnectionStepKeepsInv(s: State, st: Step)
    requires Inv(s) && Enabled(s, st)
    requires st.NewConnection? || st.MoveConnection? || st.AssignConnection? || st.DropConnection?
    ensures Inv(Apply(s, st))
  {
    match st
    case NewConnection(c) => NewConnectionKeepsInv(s, c);
    case MoveConnection(dst, src) => MoveConnectionKeepsInv(s, dst, src);
    case AssignConnection(dst, src) => AssignConnectionKeepsInv(s, dst, src);
    case DropConnection(c) => DropConnectionKeepsInv(s, c);
  }

  lemma StartRegisterKeepsInv(s: State, c: ConnId, a: Addr, h: Handler)
    requires Inv(s) && Enabled(s, StartRegister(c, a, h))
    ensures Inv(Apply(s, StartRegister(c, a, h)))
  {
    HeldFrame(s, Apply(s, StartRegister(c, a, h)));
    StartRegisterKeepsAddresses(s, c, a, h);
    StartRegisterKeepsEntries(s, c, a, h);
  }

  lemma InsertKeepsInv(s: State, id: Id)
    requires Inv(s) && InProgress(s, id, MadeToken)
    ensures Inv(InsertToken(s, id))
  {
    HeldFrame(s, InsertToken(s, id));
    InsertKeepsAddresses(s, id);
    InsertKeepsEntries(s, id);
  }

  lemma RollbackKeepsInv(s: State, id: Id)
    requires Inv(s) && InProgress(s, id, Refused)
    ensures Inv(RollBack(s, id))
  {
    HeldFrame(s, RollBack(s, id));
    RollbackKeepsAddresses(s, id);
    RollbackKeepsEntries(s, id);
  }

  lemma RegistrationStepKeepsInv(s: State, st: Step)
    requires Inv(s) && Enabled(s, st)
    requires st.StartRegister? || st.Insert? || st.NativeSubscribe? || st.Rollback? || st.Construct?
    ensures Inv(Apply(s, st))
  {
    match st
    case StartRegister(c, a, h) => StartRegisterKeepsInv(s, c, a, h);
    case Insert(id) => InsertKeepsInv(s, id);
    case Rollback(id) => RollbackKeepsInv(s, id);
    case NativeSubscribe(id, n, ok) =>
      NativeSubscribeKeepsAddresses(s, id, n, ok);
      NativeSubscribeKeepsEntries(s, id, n, ok);
      NativeSubscribeKeepsHandles(s, id, n, ok);
    case Construct(id, o) =>
      ConstructKeepsAddresses(s, id, o);
      ConstructKeepsEntries(s, id, o);
      ConstructKeepsHandles(s, id, o);
  }

  lemma CallStepKeepsInv(s: State, st: Step)
    requires Inv(s) && Enabled(s, st)
    requires st.NewSubscription? || st.Unsubscribe? || st.Destroy? || st.MoveConstruct? || st.MoveAssign?
    ensures Inv(Apply(s, st))
  {
    match st
    case NewSubscription(o, n) =>
      NewSubscriptionKeepsRegistered(s, o, n);
      NewSubscriptionKeepsHandles(s, o, n);
    case Unsubscribe(o, ok) =>
      UnsubscribeKeepsRegistered(s, o, ok);
      UnsubscribeKeepsHandles(s, o, ok);
    case Destroy(o) =>
      DestroyKeepsRegistered(s, o);
      DestroyKeepsHandles(s, o);
    case MoveConstruct(dst, src) =>
      MoveConstructKeepsRegistered(s, dst, src);
      MoveConstructKeepsHandles(s, dst, src);
      MoveConstructKeepsPhases(s, dst, src);
    case MoveAssign(dst, src) =>
      if dst != src {
        MoveAssignKeepsRegistered(s, dst, src);
        MoveAssignKeepsHandles(s, dst, src);
        MoveAssignKeepsPhases(s, dst, src);
      }
  }

  lemma AdvanceKeepsInv(s: State, o: ObjId)
    requires Inv(s) && Enabled(s, Advance(o))
    ensures Inv(Advanced(s, o))
  {
    assert PhaseOk(s, o);
    match s.objs[o].phase
    case Closing(_) =>
      CloseNativeKeepsRegistered(s, o);
      CloseNativeKeepsHandles(s, o);
    case Releasing(_) =>
      RunReleaseKeepsAddresses(s, o);
      RunReleaseKeepsEntries(s, o);
      RunReleaseKeepsReleases(s, o);
      RunReleaseKeepsHandles(s, o);
    case Clearing(_) =>
      ClearReleaseKeepsAddresses(s, o);
      ClearReleaseKeepsEntries(s, o);
      ClearReleaseKeepsHandles(s, o);
    case Adopting(_) =>
      AdoptKeepsRegistered(s, o);
      AdoptKeepsHandles(s, o);
      AdoptKeepsPhases(s, o);
    case TakingRelease(_) =>
      TakeReleaseKeepsAddresses(s, o);
      TakeReleaseKeepsEntries(s, o);
      TakeReleaseKeepsHandles(s, o);
  }

  lemma StepKeepsInv(s: State, st: Step)
    requires Inv(s) && Enabled(s, st)
    ensures Inv(Apply(s, st))
  {
    match st
    case NewConnection(_) => ConnectionStepKeepsInv(s, st);
    case MoveConnection(_, _) => ConnectionStepKeepsInv(s, st);
    case AssignConnection(_, _) => ConnectionStepKeepsInv(s, st);
    case DropConnection(_) => ConnectionStepKeepsInv(s, st);
    case StartRegister(_, _, _) => RegistrationStepKeepsInv(s, st);
    case Insert(_) => RegistrationStepKeepsInv(s, st);
    case NativeSubscribe(_, _, _) => RegistrationStepKeepsInv(s, st);
    case Rollback(_) => RegistrationStepKeepsInv(s, st);
    case Construct(_, _) => RegistrationStepKeepsInv(s, st);
    case Advance(o) => AdvanceKeepsInv(s, o);
    case _ => CallStepKeepsInv(s, st);
  }
}
