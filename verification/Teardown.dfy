/**
 How long a destroyed connection endangers its subscriptions.

 `Registry` knows callback blocks and native subscriptions but no native connection; `Sharing` knows
 who keeps a native connection alive. Here the two machines run side by side on the same connection
 objects: the members of a connection go in the order `callback_handlers_`, `callback_state_`,
 `conn_` when it is destroyed, and are taken in the order `conn_`, `callback_state_`,
 `callback_handlers_` when it is move-assigned. A native subscription delivers only until
 natsConnection_Destroy of its native connection has returned.
 */
module Teardown {
  import opened Common
  import R = Registry
  import RI = RegistryInvariant
  import T = RegistryTheorems
  import S = Sharing

  /** `home` is the native connection each native subscription was made on. */
  datatype World = World(reg: R.State, own: S.State, home: map<R.SubId, S.Native>)

  const INIT := World(R.INIT, S.INIT, map[])

  datatype Step =
    | Subscribing(r: R.Step)                        // registrations and subscription objects
    | Connecting(o: S.Step)                         // connect, requests and the deleter
    | Construct(c: R.ConnId)
    | Move(dst: R.ConnId, src: R.ConnId)
    | StartAssign(dst: R.ConnId, src: R.ConnId)     // conn_ = std::move(other.conn_)
    | FinishAssign(dst: R.ConnId)                   // callback_state_, callback_handlers_
    | StartDestroy(c: R.ConnId)                     // ~callback_handlers_, ~callback_state_
    | FinishDestroy(c: R.ConnId)                    // ~conn_

  predicate OnConnection(r: R.Step) {
    r.NewConnection? || r.MoveConnection? || r.AssignConnection? || r.DropConnection?
  }

  predicate OfConnect(o: S.Step) {
    || o.BuildHandlers? || o.FailConnect? || o.Open? || o.Install? || o.StoreHandlers?
    || o.StartRequest? || o.FinishRequest? || o.FinishClose?
  }

  /** The connection object an accepted native subscription is made through holds a native connection. */
  predicate Connected(w: World, r: R.Step) {
    r.NativeSubscribe? && r.ok && r.id in w.reg.calls ==> S.InConn(w.reg.calls[r.id].conn) in w.own.holds
  }

  ghost predicate Enabled(w: World, st: Step) {
    match st
    case Subscribing(r) =>
      R.Enabled(w.reg, r) && !OnConnection(r) && Connected(w, r) && (r.StartRegister? ==> S.InPhase(w.own, r.c, S.Ready))
    case Connecting(o) => S.Enabled(w.own, o) && OfConnect(o) && (o.BuildHandlers? ==> R.Unused(w.reg, o.c))
    case Construct(c) => R.Enabled(w.reg, R.NewConnection(c)) && S.Enabled(w.own, S.NewConnection(c))
    case Move(dst, src) => R.Enabled(w.reg, R.MoveConnection(dst, src)) && S.Enabled(w.own, S.MoveConstruct(dst, src))
    case StartAssign(dst, src) => S.Enabled(w.own, S.MoveAssign(dst, src)) && R.Unused(w.reg, dst) && R.Unused(w.reg, src)
    case FinishAssign(dst) =>
      S.Enabled(w.own, S.TakeHandlers(dst)) && R.Enabled(w.reg, R.AssignConnection(dst, w.own.conns[dst].src))
    case StartDestroy(c) => R.Enabled(w.reg, R.DropConnection(c)) && S.Enabled(w.own, S.Destroy(c))
    case FinishDestroy(c) => S.Enabled(w.own, S.DropConn(c))
  }

  ghost function Apply(w: World, st: Step): World
    requires Enabled(w, st)
  {
    match st
    case Subscribing(r) =>
      w.(reg := R.Apply(w.reg, r),
         home := if r.NativeSubscribe? && r.ok then w.home[r.n := w.own.holds[S.InConn(w.reg.calls[r.id].conn)]] else w.home)
    case Connecting(o) => w.(own := S.Apply(w.own, o))
    case Construct(c) => w.(reg := R.Apply(w.reg, R.NewConnection(c)), own := S.Apply(w.own, S.NewConnection(c)))
    case Move(dst, src) =>
      w.(reg := R.Apply(w.reg, R.MoveConnection(dst, src)), own := S.Apply(w.own, S.MoveConstruct(dst, src)))
    case StartAssign(dst, src) => w.(own := S.Apply(w.own, S.MoveAssign(dst, src)))
    case FinishAssign(dst) =>
      w.(reg := R.Apply(w.reg, R.AssignConnection(dst, w.own.conns[dst].src)), own := S.Apply(w.own, S.TakeHandlers(dst)))
    case StartDestroy(c) => w.(reg := R.Apply(w.reg, R.DropConnection(c)), own := S.Apply(w.own, S.Destroy(c)))
    case FinishDestroy(c) => w.(own := S.Apply(w.own, S.DropConn(c)))
  }

  // ---------------------------------------------------------------- the invariant

  predicate Async(w: World, n: R.SubId) { n in w.reg.subs && w.reg.subs[n].Some? }

  function BlockOf(w: World, n: R.SubId): R.RegId
    requires Async(w, n)
  {
    w.reg.subs[n].value.reg
  }

  predicate HeldBy(own: S.State, c: R.ConnId, h: S.Native) { S.InConn(c) in own.holds && own.holds[S.InConn(c)] == h }

  /** Both machines see the same connection objects, and no registration runs on one being moved. */
  ghost predicate ObjectsOk(w: World) {
    && (forall c :: c in w.reg.conns <==> c in w.own.conns && !w.own.conns[c].Dying?)
    && (forall id :: id in w.reg.calls ==>
          var c := w.reg.calls[id].conn;
          c in w.own.conns ==> !w.own.conns[c].Taking? && !w.own.conns[c].Lent?)
  }

  /** At most one connection object holds a native connection; a moved-from one holds none. */
  ghost predicate HoldersOk(own: S.State) {
    && (forall c, d, h :: HeldBy(own, c, h) && HeldBy(own, d, h) ==> c == d)
    && (forall c :: c in own.conns && own.conns[c].Lent? ==> S.InConn(c) !in own.holds)
    && (forall c :: c in own.conns && own.conns[c].Taking? ==>
          var src := own.conns[c].src;
          src != c && src in own.conns && own.conns[src].Lent?)
    && (forall c, d :: c in own.conns && d in own.conns && own.conns[c].Taking? && own.conns[c] == own.conns[d] ==> c == d)
  }

  ghost predicate HomesOk(w: World) {
    forall n :: Async(w, n) ==> HomeOk(w, n)
  }

  predicate HomeOk(w: World, n: R.SubId)
    requires Async(w, n)
  {
    && BlockOf(w, n) < w.reg.nextReg
    && n in w.home && w.home[n] < w.own.nextNative
    && (w.home[n] in w.own.uses ==> !w.own.uses[w.home[n]].Raw?)
  }

  /** The connection object that holds the native connection of `n` has the block of `n` too, has yet
      to take it, or has just dropped it. */
  predicate Together(w: World, n: R.SubId, c: R.ConnId)
    requires Async(w, n)
  {
    c in w.own.conns &&
    match w.own.conns[c]
    case Dying => BlockOf(w, n) !in w.reg.regs
    case Taking(src) => src in w.reg.conns && w.reg.conns[src] == Some(BlockOf(w, n))
    case _ => c in w.reg.conns && w.reg.conns[c] == Some(BlockOf(w, n))
  }

  ghost predicate TogetherOk(w: World) {
    forall n, c :: Async(w, n) && n in w.home && HeldBy(w.own, c, w.home[n]) ==> Together(w, n, c)
  }

  /** What the two machines agree on. */
  ghost predicate Joint(w: World) {
    ObjectsOk(w) && HoldersOk(w.own) && HomesOk(w) && TogetherOk(w)
  }

  ghost predicate Inv(w: World) { R.Inv(w.reg) && S.Inv(w.own) && Joint(w) }

  // ---------------------------------------------------------------- steps of the registry

  /** What the other machine may rely on: blocks and connection objects are untouched, a registration
      appears only on `starting`, and an asynchronous subscription only as `added`. */
  ghost predicate Framed(s: R.State, t: R.State, starting: Option<R.ConnId>, added: Option<R.SubId>) {
    && t.conns == s.conns && t.regs.Keys == s.regs.Keys && t.nextReg == s.nextReg
    && (forall id :: id in t.calls ==> (id in s.calls && t.calls[id].conn == s.calls[id].conn) || Some(t.calls[id].conn) == starting)
    && (forall n :: n in t.subs && t.subs[n].Some? ==> (n in s.subs && s.subs[n] == t.subs[n]) || Some(n) == added)
  }

  lemma {:induction false} AdvanceFrame(s: R.State, o: R.ObjId)
    requires R.Enabled(s, R.Advance(o))
    ensures Framed(s, R.Advanced(s, o), None, None)
  {
    match s.objs[o].phase
    case Closing(_) => assert Framed(s, R.CloseNative(s, o), None, None);
    case Releasing(_) => assert R.RunRelease(s, o).regs.Keys == s.regs.Keys;
    case Clearing(_) => assert Framed(s, R.ClearRelease(s, o), None, None);
    case Adopting(_) => assert Framed(s, R.Adopt(s, o), None, None);
    case TakingRelease(_) => assert Framed(s, R.TakeRelease(s, o), None, None);
  }

  function Starting(r: R.Step): Option<R.ConnId> { if r.StartRegister? then Some(r.c) else None }

  function Added(r: R.Step): Option<R.SubId> { if r.NativeSubscribe? && r.ok then Some(r.n) else None }

  lemma {:induction false} RegistrationFrame(s: R.State, r: R.Step)
    requires R.Enabled(s, r) && R.CallsOk(s)
    requires r.StartRegister? || r.Insert? || r.NativeSubscribe? || r.Rollback? || r.Construct?
    ensures Framed(s, R.Apply(s, r), Starting(r), Added(r))
  {
    match r
    case StartRegister(_, _, _) =>
    case Insert(id) => assert R.InsertToken(s, id).regs.Keys == s.regs.Keys;
    case NativeSubscribe(id, n, ok) => assert Framed(s, R.SubscribeNatively(s, id, n, ok), None, Added(r));
    case Rollback(id) => assert R.RollBack(s, id).regs.Keys == s.regs.Keys;
    case Construct(id, o) => assert Framed(s, R.ReturnSubscription(s, id, o), None, None);
  }

  lemma {:induction false} SubscribingFrame(s: R.State, r: R.Step)
    requires R.Enabled(s, r) && R.CallsOk(s) && !OnConnection(r)
    ensures Framed(s, R.Apply(s, r), Starting(r), Added(r))
  {
    if r.Advance? {
      AdvanceFrame(s, r.o);
    } else if r.StartRegister? || r.Insert? || r.NativeSubscribe? || r.Rollback? || r.Construct? {
      RegistrationFrame(s, r);
    } else {
      ObjectFrame(s, r);
    }
  }

  lemma {:induction false} ObjectFrame(s: R.State, r: R.Step)
    requires R.Enabled(s, r)
    requires r.NewSubscription? || r.Unsubscribe? || r.Destroy? || r.MoveConstruct? || r.MoveAssign?
    ensures Framed(s, R.Apply(s, r), None, None)
  {
  }

  lemma {:induction false} FramedKeepsJoint(w: World, reg: R.State, starting: Option<R.ConnId>)
    requires Joint(w) && Framed(w.reg, reg, starting, None)
    requires starting.Some? ==> S.InPhase(w.own, starting.value, S.Ready)
    ensures Joint(w.(reg := reg))
  {
    var t := w.(reg := reg);
    forall n | Async(t, n) ensures HomeOk(t, n) { assert Async(w, n) && HomeOk(w, n); }
    forall n, c | Async(t, n) && n in t.home && HeldBy(t.own, c, t.home[n]) ensures Together(t, n, c) {
      assert Async(w, n) && HeldBy(w.own, c, w.home[n]) && Together(w, n, c);
    }
  }

  /** A native subscription is added on the native connection its connection object holds. */
  lemma {:induction false} AddedKeepsJoint(w: World, reg: R.State, n: R.SubId, c: R.ConnId)
    requires Joint(w) && Framed(w.reg, reg, None, Some(n)) && S.HoldsOk(w.own) && S.PinsOk(w.own)
    requires n in reg.subs && reg.subs[n].Some? && reg.subs[n].value.reg < w.reg.nextReg
    requires c in w.reg.conns && w.reg.conns[c] == Some(reg.subs[n].value.reg) && S.InConn(c) in w.own.holds
    requires c in w.own.conns ==> !w.own.conns[c].Taking? && !w.own.conns[c].Lent?
    ensures Joint(w.(reg := reg, home := w.home[n := w.own.holds[S.InConn(c)]]))
  {
    var h := w.own.holds[S.InConn(c)];
    var t := w.(reg := reg, home := w.home[n := h]);
    assert h in w.own.uses && HeldBy(w.own, c, h);
    assert !w.own.uses[h].Raw? by { S.TallyPositive(w.own.holds, S.InConn(c)); }
    forall m | Async(t, m) ensures HomeOk(t, m) {
      if m != n { assert Async(w, m) && HomeOk(w, m); }
    }
    forall m, d | Async(t, m) && m in t.home && HeldBy(t.own, d, t.home[m]) ensures Together(t, m, d) {
      if m == n {
        assert HeldBy(w.own, d, h) && d == c;
      } else {
        assert Async(w, m) && HeldBy(w.own, d, w.home[m]) && Together(w, m, d);
      }
    }
  }

  // ---------------------------------------------------------------- steps of the owners

  /** Not being moved or destroyed. */
  predicate Plain(p: S.Phase) { !p.Dying? && !p.Taking? && !p.Lent? }

  /** Native connections go away or are new; opening calls may be in flight. */
  ghost predicate UsesShrink(s: S.State, t: S.State) {
    && s.nextNative <= t.nextNative
    && (forall h :: h in t.uses && h < s.nextNative ==> h in s.uses && (t.uses[h].Raw? ==> s.uses[h].Raw?))
  }

  /** What connecting, requests and the deleter do: a connection object comes to hold a native
      connection that nobody held before. */
  ghost predicate Connects(s: S.State, t: S.State) {
    && UsesShrink(s, t)
    && t.conns.Keys == s.conns.Keys
    && (forall c :: c in s.conns ==> t.conns[c] == s.conns[c] || (Plain(s.conns[c]) && Plain(t.conns[c])))
    && (forall c, h :: HeldBy(t, c, h) ==> HeldBy(s, c, h) || (h in s.uses && s.uses[h].Raw? && c in t.conns && Plain(t.conns[c])))
    && (forall c, d, h :: HeldBy(t, c, h) && HeldBy(t, d, h) && !HeldBy(s, c, h) ==> c == d)
  }

  lemma {:induction false} ConnectFrame(s: S.State, o: S.Step)
    requires S.Enabled(s, o) && (o.BuildHandlers? || o.FailConnect? || o.Open? || o.StoreHandlers?)
    ensures Connects(s, S.Apply(s, o))
  {
    var t := S.Apply(s, o);
    assert t.holds == s.holds;
    assert forall c, h :: HeldBy(t, c, h) ==> HeldBy(s, c, h);
  }

  lemma {:induction false} RequestFrame(s: S.State, o: S.Step)
    requires S.Enabled(s, o) && (o.StartRequest? || o.FinishRequest? || o.FinishClose?)
    ensures Connects(s, S.Apply(s, o))
  {
    var t := S.Apply(s, o);
    assert t.conns == s.conns;
    assert forall c, h :: HeldBy(t, c, h) ==> HeldBy(s, c, h);
  }

  lemma {:induction false} InstallFrame(s: S.State, c: R.ConnId)
    requires S.Inv(s) && S.Enabled(s, S.Install(c))
    ensures Connects(s, S.Reset(s, c))
  {
    var h := s.conns[c].h;
    assert s.uses[h].Raw?;
    forall d | HeldBy(s, d, h) ensures false { S.TallyPositive(s.holds, S.InConn(d)); }
  }

  lemma {:induction false} ConnectsKeepsJoint(w: World, own: S.State)
    requires Joint(w) && Connects(w.own, own)
    ensures Joint(w.(own := own))
  {
    var t := w.(own := own);
    forall c, d, h | HeldBy(own, c, h) && HeldBy(own, d, h) ensures c == d {
      assert HeldBy(w.own, c, h) && HeldBy(w.own, d, h) ==> c == d;
    }
    assert forall c :: S.InConn(c) in own.holds ==> HeldBy(own, c, own.holds[S.InConn(c)]);
    forall n | Async(t, n) ensures HomeOk(t, n) { assert Async(w, n) && HomeOk(w, n); }
    forall n, c | Async(t, n) && n in t.home && HeldBy(own, c, t.home[n]) ensures Together(t, n, c) {
      assert Async(w, n) && HomeOk(w, n);
      assert HeldBy(w.own, c, w.home[n]) && Together(w, n, c);
    }
  }

  // ---------------------------------------------------------------- steps of both

  lemma {:induction false} JointFrom(w: World, t: World)
    requires Joint(w) && ObjectsOk(t) && HoldersOk(t.own) && UsesShrink(w.own, t.own)
    requires t.reg.subs == w.reg.subs && t.home == w.home && w.reg.nextReg <= t.reg.nextReg
    requires forall n, c :: Async(w, n) && n in w.home && HeldBy(t.own, c, w.home[n]) ==> Together(t, n, c)
    ensures Joint(t)
  {
    forall n | Async(t, n) ensures HomeOk(t, n) { assert Async(w, n) && HomeOk(w, n); }
    forall n, c | Async(t, n) && n in t.home && HeldBy(t.own, c, t.home[n]) ensures Together(t, n, c) {
      assert Async(w, n) && HeldBy(t.own, c, w.home[n]);
    }
  }

  /** The phase of one connection object changes. */
  lemma {:induction false} PhaseKeepsHolders(s: S.State, t: S.State)
    requires HoldersOk(s) && t.holds == s.holds
    requires forall c :: c in t.conns ==> (c in s.conns && t.conns[c] == s.conns[c]) || (!t.conns[c].Taking? && !t.conns[c].Lent?)
    requires forall c :: c in s.conns && s.conns[c].Lent? && (c !in t.conns || !t.conns[c].Lent?) ==>
               forall d :: d in t.conns && t.conns[d].Taking? ==> t.conns[d].src != c
    ensures HoldersOk(t)
  {
    forall d, e, h | HeldBy(t, d, h) && HeldBy(t, e, h) ensures d == e { assert HeldBy(s, d, h) && HeldBy(s, e, h); }
  }

  lemma {:induction false} ConstructKeepsJoint(w: World, c: R.ConnId)
    requires Joint(w) && S.PlacesOk(w.own) && Enabled(w, Construct(c))
    ensures Joint(Apply(w, Construct(c)))
  {
    var t := Apply(w, Construct(c));
    PhaseKeepsHolders(w.own, t.own);
    forall n, d | Async(w, n) && n in w.home && HeldBy(t.own, d, w.home[n]) ensures Together(t, n, d) {
      assert HomeOk(w, n) && HeldBy(w.own, d, w.home[n]) && Together(w, n, d);
    }
    JointFrom(w, t);
  }

  /** After `dst` took what `src` held, `dst` holds it and `src` nothing. */
  ghost predicate Hands(s: S.State, t: S.State, dst: R.ConnId, src: R.ConnId) {
    && UsesShrink(s, t)
    && (forall c, h :: HeldBy(t, c, h) ==> if c == dst then HeldBy(s, src, h) else c != src && HeldBy(s, c, h))
  }

  lemma {:induction false} HandsKeepHolders(s: S.State, t: S.State, dst: R.ConnId, src: R.ConnId)
    requires HoldersOk(s) && Hands(s, t, dst, src) && dst != src
    requires src in s.conns && Plain(s.conns[src]) && (dst in s.conns ==> Plain(s.conns[dst]))
    requires t.conns == s.conns[dst := S.Ready] || t.conns == s.conns[src := S.Lent][dst := S.Taking(src)]
    ensures HoldersOk(t)
  {
    forall c, d, h | HeldBy(t, c, h) && HeldBy(t, d, h) ensures c == d {
      var x, y := if c == dst then src else c, if d == dst then src else d;
      assert HeldBy(s, x, h) && HeldBy(s, y, h);
    }
    assert forall c :: S.InConn(c) in t.holds ==> HeldBy(t, c, t.holds[S.InConn(c)]);
    assert forall c :: S.InConn(c) in s.holds ==> HeldBy(s, c, s.holds[S.InConn(c)]);
  }

  lemma {:induction false} MoveHands(s: S.State, dst: R.ConnId, src: R.ConnId)
    requires S.Enabled(s, S.MoveConstruct(dst, src)) && S.PlacesOk(s)
    ensures Hands(s, S.Apply(s, S.MoveConstruct(dst, src)), dst, src)
    ensures S.Apply(s, S.MoveConstruct(dst, src)).conns == s.conns[dst := S.Ready]
  {
    assert S.InConn(dst) !in s.holds;
  }

  lemma {:induction false} MoveKeepsJoint(w: World, dst: R.ConnId, src: R.ConnId)
    requires Joint(w) && S.PlacesOk(w.own) && Enabled(w, Move(dst, src))
    ensures Joint(Apply(w, Move(dst, src)))
  {
    var t := Apply(w, Move(dst, src));
    MoveHands(w.own, dst, src);
    HandsKeepHolders(w.own, t.own, dst, src);
    forall n, c | Async(w, n) && n in w.home && HeldBy(t.own, c, w.home[n]) ensures Together(t, n, c) {
      MoveTogether(w, t, dst, src, n, c);
    }
    JointFrom(w, t);
  }

  lemma {:induction false} MoveTogether(w: World, t: World, dst: R.ConnId, src: R.ConnId, n: R.SubId, c: R.ConnId)
    requires ObjectsOk(w) && HoldersOk(w.own) && TogetherOk(w) && Hands(w.own, t.own, dst, src) && Async(w, n)
    requires n in w.home && HeldBy(t.own, c, w.home[n])
    requires S.InPhase(w.own, src, S.Ready) && dst !in w.own.conns
    requires t.own.conns == w.own.conns[dst := S.Ready] && t.reg.subs == w.reg.subs && t.reg.regs == w.reg.regs
    requires src in w.reg.conns && t.reg.conns == w.reg.conns[dst := w.reg.conns[src]][src := None]
    ensures Together(t, n, c)
  {
    var d := if c == dst then src else c;
    assert HeldBy(w.own, d, w.home[n]) && Together(w, n, d);
  }

  lemma {:induction false} AssignHands(s: S.State, dst: R.ConnId, src: R.ConnId)
    requires S.HoldsOk(s) && S.Enabled(s, S.MoveAssign(dst, src)) && dst != src
    ensures Hands(s, S.Apply(s, S.MoveAssign(dst, src)), dst, src)
  {
    S.MoveAssignFrame(s, dst, src);
  }

  lemma {:induction false} StartAssignKeepsJoint(w: World, dst: R.ConnId, src: R.ConnId)
    requires Joint(w) && S.HoldsOk(w.own) && Enabled(w, StartAssign(dst, src)) && dst != src
    ensures Joint(Apply(w, StartAssign(dst, src)))
  {
    var t := Apply(w, StartAssign(dst, src));
    AssignHands(w.own, dst, src);
    S.MoveAssignFrame(w.own, dst, src);
    HandsKeepHolders(w.own, t.own, dst, src);
    forall n, c | Async(w, n) && n in w.home && HeldBy(t.own, c, w.home[n]) ensures Together(t, n, c) {
      AssignTogether(w, t, dst, src, n, c);
    }
    JointFrom(w, t);
  }

  lemma {:induction false} AssignTogether(w: World, t: World, dst: R.ConnId, src: R.ConnId, n: R.SubId, c: R.ConnId)
    requires TogetherOk(w) && Hands(w.own, t.own, dst, src) && Async(w, n)
    requires n in w.home && HeldBy(t.own, c, w.home[n]) && dst != src
    requires S.InPhase(w.own, src, S.Ready) && S.InPhase(w.own, dst, S.Ready)
    requires t.own.conns == w.own.conns[src := S.Lent][dst := S.Taking(src)] && t.reg == w.reg
    ensures Together(t, n, c)
  {
    var d := if c == dst then src else c;
    assert HeldBy(w.own, d, w.home[n]) && Together(w, n, d);
  }

  lemma {:induction false} FinishAssignKeepsJoint(w: World, dst: R.ConnId)
    requires Joint(w) && R.ConnsOk(w.reg) && Enabled(w, FinishAssign(dst))
    ensures Joint(Apply(w, FinishAssign(dst)))
  {
    var t := Apply(w, FinishAssign(dst));
    var src := w.own.conns[dst].src;
    assert t.own.holds == w.own.holds && t.own.conns == w.own.conns[src := S.Ready][dst := S.Ready];
    PhaseKeepsHolders(w.own, t.own);
    forall n, c | Async(w, n) && n in w.home && HeldBy(t.own, c, w.home[n]) ensures Together(t, n, c) {
      FinishTogether(w, t, dst, src, n, c);
    }
    JointFrom(w, t);
  }

  lemma {:induction false} FinishTogether(w: World, t: World, dst: R.ConnId, src: R.ConnId, n: R.SubId, c: R.ConnId)
    requires HoldersOk(w.own) && TogetherOk(w) && R.ConnsOk(w.reg) && Async(w, n)
    requires n in w.home && t.own.holds == w.own.holds && HeldBy(w.own, c, w.home[n]) && dst != src
    requires dst in w.own.conns && w.own.conns[dst] == S.Taking(src)
    requires t.own.conns == w.own.conns[src := S.Ready][dst := S.Ready] && t.reg.subs == w.reg.subs
    requires src in w.reg.conns && dst in w.reg.conns && t.reg.conns == w.reg.conns[dst := w.reg.conns[src]][src := None]
    requires t.reg.regs == R.Without(w.reg.regs, w.reg.conns[dst])
    ensures Together(t, n, c)
  {
    assert Together(w, n, c);
    assert c != src;
  }

  lemma {:induction false} StartDestroyKeepsJoint(w: World, c: R.ConnId)
    requires Joint(w) && R.ConnsOk(w.reg) && Enabled(w, StartDestroy(c))
    ensures Joint(Apply(w, StartDestroy(c)))
  {
    var t := Apply(w, StartDestroy(c));
    assert t.own.holds == w.own.holds && t.own.conns == w.own.conns[c := S.Dying];
    PhaseKeepsHolders(w.own, t.own);
    forall n, d | Async(w, n) && n in w.home && HeldBy(t.own, d, w.home[n]) ensures Together(t, n, d) {
      assert HeldBy(w.own, d, w.home[n]) && Together(w, n, d);
    }
    JointFrom(w, t);
  }

  lemma {:induction false} FinishDestroyKeepsJoint(w: World, c: R.ConnId)
    requires Joint(w) && S.HoldsOk(w.own) && Enabled(w, FinishDestroy(c))
    ensures Joint(Apply(w, FinishDestroy(c)))
  {
    var t := Apply(w, FinishDestroy(c));
    assert t.own.conns == w.own.conns - {c} && t.own.holds == w.own.holds - {S.InConn(c)};
    forall d, e, h | HeldBy(t.own, d, h) && HeldBy(t.own, e, h) ensures d == e { assert HeldBy(w.own, d, h) && HeldBy(w.own, e, h); }
    forall n, d | Async(w, n) && n in w.home && HeldBy(t.own, d, w.home[n]) ensures Together(t, n, d) {
      assert HeldBy(w.own, d, w.home[n]) && Together(w, n, d);
    }
    JointFrom(w, t);
  }

  // ---------------------------------------------------------------- every step

  lemma {:induction false} SubscribingKeepsJoint(w: World, r: R.Step)
    requires Inv(w) && Enabled(w, Subscribing(r))
    ensures Joint(Apply(w, Subscribing(r)))
  {
    SubscribingFrame(w.reg, r);
    if r.NativeSubscribe? && r.ok {
      var call := w.reg.calls[r.id];
      assert call.conn in w.reg.conns && w.reg.conns[call.conn] == Some(call.link.reg);
      AddedKeepsJoint(w, R.Apply(w.reg, r), r.n, call.conn);
    } else {
      FramedKeepsJoint(w, R.Apply(w.reg, r), Starting(r));
    }
  }

  lemma {:induction false} ConnectingKeepsJoint(w: World, o: S.Step)
    requires Inv(w) && Enabled(w, Connecting(o))
    ensures Joint(Apply(w, Connecting(o)))
  {
    if o.Install? {
      InstallFrame(w.own, o.c);
    } else if o.StartRequest? || o.FinishRequest? || o.FinishClose? {
      RequestFrame(w.own, o);
    } else {
      ConnectFrame(w.own, o);
    }
    ConnectsKeepsJoint(w, S.Apply(w.own, o));
  }

  lemma {:induction false} StepKeepsJoint(w: World, st: Step)
    requires Inv(w) && Enabled(w, st)
    ensures Joint(Apply(w, st))
  {
    if st.Subscribing? {
      SubscribingKeepsJoint(w, st.r);
    } else if st.Connecting? {
      ConnectingKeepsJoint(w, st.o);
    } else if st.StartDestroy? {
      StartDestroyKeepsJoint(w, st.c);
    } else if st.FinishDestroy? {
      FinishDestroyKeepsJoint(w, st.c);
    } else {
      ObjectStepKeepsJoint(w, st);
    }
  }

  lemma {:induction false} ObjectStepKeepsJoint(w: World, st: Step)
    requires Inv(w) && Enabled(w, st) && (st.Construct? || st.Move? || st.StartAssign? || st.FinishAssign?)
    ensures Joint(Apply(w, st))
  {
    if st.Construct? {
      ConstructKeepsJoint(w, st.c);
    } else if st.Move? {
      MoveKeepsJoint(w, st.dst, st.src);
    } else {
      AssignStepKeepsJoint(w, st);
    }
  }

  lemma {:induction false} AssignStepKeepsJoint(w: World, st: Step)
    requires Inv(w) && Enabled(w, st) && (st.StartAssign? || st.FinishAssign?)
    ensures Joint(Apply(w, st))
  {
    if st.FinishAssign? {
      FinishAssignKeepsJoint(w, st.dst);
    } else if st.dst != st.src {
      StartAssignKeepsJoint(w, st.dst, st.src);
    } else {
      SelfAssign(w, st.dst);
    }
  }

  lemma {:induction false} SelfAssign(w: World, c: R.ConnId)
    requires Enabled(w, StartAssign(c, c))
    ensures Apply(w, StartAssign(c, c)) == w
  {
  }

  /** The step of the registry in a step of both, and that of the owners. */
  ghost function RegStep(w: World, st: Step): Option<R.Step>
    requires Enabled(w, st)
  {
    match st
    case Subscribing(r) => Some(r)
    case Construct(c) => Some(R.NewConnection(c))
    case Move(dst, src) => Some(R.MoveConnection(dst, src))
    case FinishAssign(dst) => Some(R.AssignConnection(dst, w.own.conns[dst].src))
    case StartDestroy(c) => Some(R.DropConnection(c))
    case _ => None
  }

  function OwnStep(st: Step): Option<S.Step> {
    match st
    case Subscribing(_) => None
    case Connecting(o) => Some(o)
    case Construct(c) => Some(S.NewConnection(c))
    case Move(dst, src) => Some(S.MoveConstruct(dst, src))
    case StartAssign(dst, src) => Some(S.MoveAssign(dst, src))
    case FinishAssign(dst) => Some(S.TakeHandlers(dst))
    case StartDestroy(c) => Some(S.Destroy(c))
    case FinishDestroy(c) => Some(S.DropConn(c))
  }

  lemma {:induction false} StepKeepsInv(w: World, st: Step)
    requires Inv(w) && Enabled(w, st)
    ensures Inv(Apply(w, st))
  {
    StepKeepsJoint(w, st);
    if RegStep(w, st).Some? { RI.StepKeepsInv(w.reg, RegStep(w, st).value); }
    if OwnStep(st).Some? { S.StepKeepsInv(w.own, OwnStep(st).value); }
  }

  ghost predicate Runs(w: World, steps: seq<Step>)
    decreases |steps|
  {
    steps == [] || (Enabled(w, steps[0]) && Runs(Apply(w, steps[0]), steps[1..]))
  }

  ghost function EndOf(w: World, steps: seq<Step>): World
    requires Runs(w, steps)
    decreases |steps|
  {
    if steps == [] then w else EndOf(Apply(w, steps[0]), steps[1..])
  }

  lemma {:induction false} RunsKeepInv(w: World, steps: seq<Step>)
    requires Inv(w) && Runs(w, steps)
    ensures Inv(EndOf(w, steps))
    decreases |steps|
  {
    if steps != [] {
      StepKeepsInv(w, steps[0]);
      RunsKeepInv(Apply(w, steps[0]), steps[1..]);
    }
  }

  // ---------------------------------------------------------------- the window

  /** nats.c may still deliver for `n`, and the closure it would call is gone. */
  predicate Exposed(w: World, n: R.SubId) {
    Async(w, n) && n in w.home && w.home[n] in w.own.uses && !R.Entry(w.reg, w.reg.subs[n].value)
  }

  /** A request in flight, a connection object in the middle of its destructor, or the deleter itself
      keeps native connection `h` from being gone. */
  ghost predicate Lingers(own: S.State, h: S.Native) {
    || (exists t :: S.InTask(t) in own.holds && own.holds[S.InTask(t)] == h)
    || (exists c :: HeldBy(own, c, h) && c in own.conns && own.conns[c].Dying?)
    || (h in own.uses && own.uses[h].Closing?)
  }

  lemma {:induction false} LingeringInUse(own: S.State, h: S.Native)
    requires S.HoldsOk(own) && Lingers(own, h)
    ensures h in own.uses
  {
  }

  lemma {:induction false} LostLingers(w: World, n: R.SubId)
    requires S.HoldsOk(w.own) && R.ConnsOk(w.reg) && HomesOk(w) && TogetherOk(w)
    requires Async(w, n) && BlockOf(w, n) !in w.reg.regs && n in w.home && w.home[n] in w.own.uses
    ensures Lingers(w.own, w.home[n])
  {
    var h := w.home[n];
    assert HomeOk(w, n);
    if w.own.uses[h].Held? {
      if forall x :: x in w.own.holds ==> w.own.holds[x] != h { S.TallyZero(w.own.holds, h); }
      var x :| x in w.own.holds && w.own.holds[x] == h;
      match x
      case InTask(t) =>
      case InConn(c) => assert HeldBy(w.own, c, h) && Together(w, n, c);
    }
  }

  /** The subscription object that holds `n` is being assigned to: the callback is released and `n`
      not yet destroyed. */
  ghost predicate Replaced(w: World, n: R.SubId) {
    n in w.home && w.home[n] in w.own.uses && exists o :: T.Replacing(w.reg, o, n)
  }

  lemma {:induction false} ExposedIff(w: World, n: R.SubId)
    requires Inv(w) && Async(w, n)
    ensures n in w.home
    ensures Exposed(w, n) <==> (BlockOf(w, n) !in w.reg.regs && Lingers(w.own, w.home[n])) || Replaced(w, n)
  {
    assert HomeOk(w, n);
    T.EntryIff(w.reg, n);
    T.ReleasedIff(w.reg, n);
    if w.home[n] in w.own.uses {
      if BlockOf(w, n) !in w.reg.regs { LostLingers(w, n); }
    } else if Lingers(w.own, w.home[n]) {
      LingeringInUse(w.own, w.home[n]);
    }
  }

  ghost predicate Reachable(w: World) {
    exists steps :: Runs(INIT, steps) && EndOf(INIT, steps) == w
  }

  lemma {:induction false} InitInv(w: World)
    requires w == INIT
    ensures Inv(w)
  {
    InitRegistry(w.reg);
    InitOwners(w.own);
  }

  lemma {:induction false} InitRegistry(s: R.State)
    requires s == R.INIT
    ensures R.Inv(s)
  {
  }

  lemma {:induction false} InitOwners(s: S.State)
    requires s == S.INIT
    ensures S.Inv(s)
  {
  }

  lemma {:induction false} ReachableInv(w: World)
    requires Reachable(w)
    ensures Inv(w)
  {
    var steps :| Runs(INIT, steps) && EndOf(INIT, steps) == w;
    InitInv(INIT);
    RunsKeepInv(INIT, steps);
  }

  /** Over every run: a delivery for `n` is endangered exactly while the block of `n` is gone and its
      native connection lingers, or in the middle of a move assignment onto the object that holds `n`. */
  lemma {:induction false} WindowIff(w: World, n: R.SubId)
    requires Reachable(w) && Async(w, n)
    ensures n in w.home
    ensures Exposed(w, n) <==> (BlockOf(w, n) !in w.reg.regs && Lingers(w.own, w.home[n])) || Replaced(w, n)
  {
    ReachableInv(w);
    ExposedIff(w, n);
  }

  /** Whatever ran in between: once the block of `n` is gone, and neither a destructor half-way nor the
      deleter has its native connection, a delivery for `n` is endangered iff a request holds it. */
  lemma {:induction false} SettledWindow(w: World, n: R.SubId)
    requires Reachable(w) && Async(w, n) && BlockOf(w, n) !in w.reg.regs
    requires n in w.home ==> DeleterIdle(w.own, w.home[n])
    requires n in w.home ==> forall c :: HeldBy(w.own, c, w.home[n]) && c in w.own.conns ==> !w.own.conns[c].Dying?
    ensures n in w.home
    ensures Exposed(w, n) <==> exists k :: S.InTask(k) in w.own.holds && w.own.holds[S.InTask(k)] == w.home[n]
  {
    ReachableInv(w);
    ExposedIff(w, n);
    if Replaced(w, n) { LostLingers(w, n); }
  }

  // ---------------------------------------------------------------- the whole destructor

  /** No deleter of native connection `h` is running. */
  predicate DeleterIdle(own: S.State, h: S.Native) { h in own.uses ==> !own.uses[h].Closing? }

  lemma {:induction false} BlockDropped(w: World, c: R.ConnId, t: World)
    requires Enabled(w, StartDestroy(c)) && t == Apply(w, StartDestroy(c))
    ensures Enabled(t, FinishDestroy(c)) && c in w.reg.conns && t.home == w.home
    ensures t.reg.subs == w.reg.subs && t.reg.regs == R.Without(w.reg.regs, w.reg.conns[c])
    ensures t.own.holds == w.own.holds && t.own.conns == w.own.conns[c := S.Dying] && t.own.uses == w.own.uses
  {
  }

  lemma {:induction false} HoldDropped(w: World, c: R.ConnId, t: World)
    requires Enabled(w, FinishDestroy(c)) && t == Apply(w, FinishDestroy(c))
    ensures t.reg == w.reg && t.home == w.home
    ensures t.own.holds == w.own.holds - {S.InConn(c)} && t.own.conns == w.own.conns - {c}
    ensures forall h :: h in t.own.uses && !HeldBy(w.own, c, h) ==> h in w.own.uses && t.own.uses[h] == w.own.uses[h]
  {
  }

  lemma {:induction false} DeleterDone(w: World, h: S.Native, t: World)
    requires Enabled(w, Connecting(S.FinishClose(h))) && t == Apply(w, Connecting(S.FinishClose(h)))
    ensures t.reg == w.reg && t.home == w.home && t.own.holds == w.own.holds && t.own.conns == w.own.conns
    ensures t.own.uses == w.own.uses - {h}
  {
  }

  lemma {:induction false} RunCons(w: World, st: Step, rest: seq<Step>)
    requires Enabled(w, st) && Runs(Apply(w, st), rest)
    ensures Runs(w, [st] + rest) && EndOf(w, [st] + rest) == EndOf(Apply(w, st), rest)
  {
    assert ([st] + rest)[1..] == rest;
  }

  /** The destructor of connection object `c`, with the deleter if `c` was the last holder. Other
      native connections may be in any state. */
  lemma {:induction false} DestructorRun(w: World, c: R.ConnId, g: S.Native) returns (steps: seq<Step>, t: World)
    requires c in w.reg.conns && Enabled(w, StartDestroy(c)) && DeleterIdle(w.own, g)
    ensures Runs(w, steps) && EndOf(w, steps) == t
    ensures t.reg.subs == w.reg.subs && t.reg.regs == R.Without(w.reg.regs, w.reg.conns[c]) && t.home == w.home
    ensures t.own.holds == w.own.holds - {S.InConn(c)} && t.own.conns == w.own.conns - {c} && DeleterIdle(t.own, g)
  {
    var s1 := Apply(w, StartDestroy(c));
    BlockDropped(w, c, s1);
    var s2 := Apply(s1, FinishDestroy(c));
    HoldDropped(s1, c, s2);
    var rest: seq<Step> := [];
    t := s2;
    if h :| HeldBy(w.own, c, h) && h in s2.own.uses && s2.own.uses[h].Closing? {
      rest := [Connecting(S.FinishClose(h))] + [];
      t := Apply(s2, Connecting(S.FinishClose(h)));
      DeleterDone(s2, h, t);
      RunCons(s2, Connecting(S.FinishClose(h)), []);
    }
    RunCons(s1, FinishDestroy(c), rest);
    RunCons(w, StartDestroy(c), [FinishDestroy(c)] + rest);
    steps := [StartDestroy(c)] + ([FinishDestroy(c)] + rest);
  }

  /** A connection destroyed before its asynchronous subscriptions: once the destructor has returned,
      a delivery for one of them is endangered exactly as long as a request holds its native
      connection; if none does, the native connection is gone and nothing is delivered any more. */
  lemma {:induction false} DestructorWindow(w: World, c: R.ConnId, n: R.SubId) returns (steps: seq<Step>, t: World)
    requires c in w.reg.conns && Async(w, n) && w.reg.conns[c] == Some(BlockOf(w, n))
    requires Inv(w) && Enabled(w, StartDestroy(c)) && (n in w.home ==> DeleterIdle(w.own, w.home[n]))
    ensures Runs(w, steps) && EndOf(w, steps) == t && t.own.conns == w.own.conns - {c} && Async(t, n) && n in w.home
    ensures Exposed(t, n) <==> exists k :: S.InTask(k) in w.own.holds && w.own.holds[S.InTask(k)] == w.home[n]
  {
    assert HomeOk(w, n);
    steps, t := DestructorRun(w, c, w.home[n]);
    RunsKeepInv(w, steps);
    ExposedIff(t, n);
    if Replaced(t, n) { LostLingers(t, n); }
    NoneDying(w, n, c, t);
  }

  /** After the destructor only requests keep the native connection of `n` from being gone. */
  lemma {:induction false} NoneDying(w: World, n: R.SubId, c: R.ConnId, t: World)
    requires c in w.reg.conns && Async(w, n) && w.reg.conns[c] == Some(BlockOf(w, n)) && n in w.home
    requires TogetherOk(w) && R.ConnsOk(w.reg) && DeleterIdle(t.own, w.home[n])
    requires t.own.holds == w.own.holds - {S.InConn(c)} && t.own.conns == w.own.conns - {c}
    ensures Lingers(t.own, w.home[n]) <==> exists k :: S.InTask(k) in w.own.holds && w.own.holds[S.InTask(k)] == w.home[n]
  {
    var h := w.home[n];
    forall d | HeldBy(t.own, d, h) && d in t.own.conns ensures !t.own.conns[d].Dying? {
      assert HeldBy(w.own, d, h) && Together(w, n, d);
    }
    assert forall k :: S.InTask(k) in t.own.holds <==> S.InTask(k) in w.own.holds;
  }

  // ---------------------------------------------------------------- the window is real

  lemma {:induction false} RunSnoc(w: World, steps: seq<Step>, st: Step)
    requires Runs(w, steps) && Enabled(EndOf(w, steps), st)
    ensures Runs(w, steps + [st]) && EndOf(w, steps + [st]) == Apply(EndOf(w, steps), st)
    decreases |steps|
  {
    if steps == [] {
      RunCons(w, st, []);
      assert steps + [st] == [st] + [];
    } else {
      RunSnoc(Apply(w, steps[0]), steps[1..], st);
      assert steps + [st] == [steps[0]] + (steps[1..] + [st]);
      RunCons(w, steps[0], steps[1..] + [st]);
    }
  }

  lemma {:induction false} ReachesNext(w: World, st: Step, t: World)
    requires Reachable(w) && Enabled(w, st) && t == Apply(w, st)
    ensures Reachable(t)
  {
    var steps :| Runs(INIT, steps) && EndOf(INIT, steps) == w;
    RunSnoc(INIT, steps, st);
  }

  lemma {:induction false} ReachesEnd(w: World, steps: seq<Step>)
    requires Reachable(w) && Runs(w, steps)
    ensures Reachable(EndOf(w, steps))
    decreases |steps|
  {
    if steps != [] {
      ReachesNext(w, steps[0], Apply(w, steps[0]));
      ReachesEnd(Apply(w, steps[0]), steps[1..]);
    }
  }

  lemma {:induction false} ReachesConnecting(w: World, o: S.Step, own: S.State)
    requires Reachable(w) && S.Enabled(w.own, o) && OfConnect(o) && (o.BuildHandlers? ==> R.Unused(w.reg, o.c))
    requires own == S.Apply(w.own, o)
    ensures Reachable(w.(own := own))
  {
    ReachesNext(w, Connecting(o), w.(own := own));
  }

  lemma {:induction false} ReachesSubscribing(w: World, r: R.Step, reg: R.State)
    requires Reachable(w) && R.Enabled(w.reg, r) && !OnConnection(r) && !r.NativeSubscribe?
    requires r.StartRegister? ==> S.InPhase(w.own, r.c, S.Ready)
    requires reg == R.Apply(w.reg, r)
    ensures Reachable(w.(reg := reg))
  {
    ReachesNext(w, Subscribing(r), w.(reg := reg));
  }

  /** Connection object 0 before, during and after its first connect. */
  const MADE := S.INIT.(conns := map[0 := S.Ready])
  const BUILT := MADE.(conns := map[0 := S.Built], owns := map[S.Local(0) := 0], counts := map[0 := 1], nextBlock := 1)
  const OPENED := BUILT.(conns := map[0 := S.Opened(0)], uses := map[0 := S.Raw(0)], closure := map[0 := 0], nextNative := 1)
  const INSTALLED :=
    OPENED.(conns := map[0 := S.Installed], holds := map[S.InConn(0) := 0], uses := map[0 := S.Held(1)],
            owns := map[S.Local(0) := 0, S.Deleter(0) := 0], counts := map[0 := 2])
  const CONNECTED := INSTALLED.(conns := map[0 := S.Ready], owns := map[S.Member(0) := 0, S.Deleter(0) := 0])

  /** A request is in flight on it. */
  const REQUESTING := CONNECTED.(holds := map[S.InConn(0) := 0, S.InTask(5) := 0], uses := map[0 := S.Held(2)])

  lemma {:induction false} OpenSteps()
    ensures S.Enabled(MADE, S.BuildHandlers(0)) && S.Apply(MADE, S.BuildHandlers(0)) == BUILT
    ensures S.Enabled(BUILT, S.Open(0)) && S.Apply(BUILT, S.Open(0)) == OPENED
  {
  }

  lemma {:induction false} InstallSteps()
    ensures S.Enabled(OPENED, S.Install(0)) && S.Apply(OPENED, S.Install(0)) == INSTALLED
  {
    var captured := S.AddOwn(OPENED, S.Deleter(0), 0);
    assert S.DropHold(captured, S.InConn(0)) == captured;
    assert S.Reset(OPENED, 0) == INSTALLED;
  }

  lemma {:induction false} StoreSteps()
    ensures S.Enabled(INSTALLED, S.StoreHandlers(0)) && S.Apply(INSTALLED, S.StoreHandlers(0)) == CONNECTED
  {
    assert S.DropOwn(INSTALLED, S.Member(0)) == INSTALLED;
    assert S.Moved(INSTALLED.owns, S.Member(0), S.Local(0)) == CONNECTED.owns;
  }

  lemma {:induction false} RequestSteps()
    ensures S.Enabled(CONNECTED, S.StartRequest(5, 0)) && S.Apply(CONNECTED, S.StartRequest(5, 0)) == REQUESTING
  {
  }

  lemma {:induction false} ConnectReaches(w: World)
    requires w.reg == T.REGISTRY && w.own == REQUESTING && w.home == map[]
    ensures Reachable(w)
  {
    assert EndOf(INIT, []) == INIT;
    var made := World(T.REGISTRY, MADE, map[]);
    assert Apply(INIT, Construct(0)) == made;
    ReachesNext(INIT, Construct(0), made);
    OpenSteps();
    InstallSteps();
    StoreSteps();
    RequestSteps();
    ReachesConnecting(made, S.BuildHandlers(0), BUILT);
    ReachesConnecting(made.(own := BUILT), S.Open(0), OPENED);
    ReachesConnecting(made.(own := OPENED), S.Install(0), INSTALLED);
    ReachesConnecting(made.(own := INSTALLED), S.StoreHandlers(0), CONNECTED);
    ReachesConnecting(made.(own := CONNECTED), S.StartRequest(5, 0), REQUESTING);
    assert w == made.(own := CONNECTED).(own := REQUESTING);
  }

  /** An asynchronous subscription has been made on it, while the request is in flight. */
  const SUBSCRIBED := World(T.RETURNED, REQUESTING, map[1 := 0])

  lemma {:induction false} SubscribedReached()
    ensures Reachable(SUBSCRIBED)
  {
    var w := World(T.REGISTRY, REQUESTING, map[]);
    ConnectReaches(w);
    T.RegistrationStates();
    T.AcceptedStates();
    ReachesSubscribing(w, R.StartRegister(0, 4096, Some(7)), T.TOKEN_MADE);
    ReachesSubscribing(w.(reg := T.TOKEN_MADE), R.Insert(0), T.INSERTED);
    var v := World(T.INSERTED, REQUESTING, map[]);
    assert v == w.(reg := T.TOKEN_MADE).(reg := T.INSERTED);
    var u := World(T.ACCEPTED, REQUESTING, map[1 := 0]);
    AcceptReaches(v, u);
    ReachesSubscribing(u, R.Construct(0, 0), T.RETURNED);
    assert SUBSCRIBED == u.(reg := T.RETURNED);
  }

  lemma {:induction false} AcceptReaches(v: World, u: World)
    requires Reachable(v) && v.reg == T.INSERTED && v.own == REQUESTING && v.home == map[]
    requires u.reg == T.ACCEPTED && u.own == REQUESTING && u.home == map[1 := 0]
    ensures Reachable(u)
  {
    T.AcceptedStates();
    assert v.reg.calls[0].conn == 0;
    ReachesNext(v, Subscribing(R.NativeSubscribe(0, 1, true)), u);
  }

  /** From any world that can be reached, destroying the connection object of an asynchronous
      subscription while a request holds its native connection leads to an endangered delivery. */
  lemma {:induction false} WindowOpens(w: World, c: R.ConnId, n: R.SubId, k: S.TaskId)
    requires Reachable(w) && c in w.reg.conns && Async(w, n) && w.reg.conns[c] == Some(BlockOf(w, n)) && n in w.home
    requires Enabled(w, StartDestroy(c)) && DeleterIdle(w.own, w.home[n])
    requires S.InTask(k) in w.own.holds && w.own.holds[S.InTask(k)] == w.home[n]
    ensures exists t :: Reachable(t) && t.own.conns == w.own.conns - {c} && Exposed(t, n)
  {
    ReachableInv(w);
    var steps, t := DestructorWindow(w, c, n);
    ReachesEnd(w, steps);
  }

  lemma {:induction false} CanDestroy(w: World)
    requires w == SUBSCRIBED
    ensures Enabled(w, StartDestroy(0)) && DeleterIdle(w.own, 0) && w.own.conns - {0} == map[]
  {
  }

  /** A connection object is connected, subscribed to and destroyed while a request is in flight: its
      native connection lives on, and may deliver to a closure that is gone. */
  lemma {:induction false} RequestKeepsWindowOpen()
    ensures exists t :: Reachable(t) && t.own.conns == map[] && Exposed(t, 1)
  {
    var w := SUBSCRIBED;
    SubscribedReached();
    CanDestroy(w);
    WindowOpens(w, 0, 1, 5);
  }
}
