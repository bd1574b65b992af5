/**
 Who keeps a native connection, and the handler block its callbacks read, alive.

 `connection::conn_` is a shared_ptr whose deleter captures a shared_ptr to the handler block; tasks
 started by `request_async` copy `conn_`; connecting again, moving and destroying connection objects
 drop and pass references. The model keeps the reference counts explicitly: `uses` and `counts` are
 what the control blocks store, `holds` and `owns` say where the references are. Native connections
 and handler blocks carry serial numbers. All calls of all threads interleave at statement
 granularity, and nats.c may run a handler callback of any native connection between two steps, up
 to the return of natsConnection_Destroy.
 */
module Sharing {
  import opened Common

  type ConnId = int
  type TaskId = int
  type Native = int
  type Block = int

  /** Places that hold a reference to a native connection. */
  datatype Slot = InConn(c: ConnId) | InTask(t: TaskId)

  /** Places that hold a reference to a handler block. */
  datatype Owner =
    | Member(c: ConnId)       // connection::callback_handlers_
    | Local(c: ConnId)        // the variable `handlers` of connect() in flight on c
    | Deleter(h: Native)      // captured by the deleter of h's control block

  datatype Phase =
    | Ready
    | Built                   // connect(): handler block made, options being set
    | Opened(h: Native)       // natsConnection_Connect succeeded, conn_ not reset yet
    | Installed               // conn_ reset, callback_handlers_ not assigned yet
    | Taking(src: ConnId)     // move assignment: conn_ taken, callback_handlers_ not yet
    | Lent                    // being moved from
    | Dying                   // destructor: callback_handlers_ gone, conn_ not yet

  /** The control block of a native connection: not made yet, counting, or running its deleter. */
  datatype Use = Raw(opener: ConnId) | Held(count: int) | Closing

  datatype State = State(
    conns: map<ConnId, Phase>,
    holds: map<Slot, Native>,
    owns: map<Owner, Block>,
    uses: map<Native, Use>,           // native connections not destroyed yet
    counts: map<Block, int>,          // handler blocks not freed yet
    closure: map<Native, Block>,      // what nats.c passes to the handler callbacks
    nextNative: Native,
    nextBlock: Block,
    destroyed: seq<Native>)           // history: natsConnection_Destroy calls that returned

  const INIT := State(map[], map[], map[], map[], map[], map[], 0, 0, [])

  datatype Step =
    | NewConnection(c: ConnId)
    | BuildHandlers(c: ConnId)
    | FailConnect(c: ConnId)
    | Open(c: ConnId)
    | Install(c: ConnId)
    | StoreHandlers(c: ConnId)
    | MoveConstruct(dst: ConnId, src: ConnId)
    | MoveAssign(dst: ConnId, src: ConnId)
    | TakeHandlers(dst: ConnId)
    | Destroy(c: ConnId)
    | DropConn(c: ConnId)
    | StartRequest(t: TaskId, c: ConnId)
    | FinishRequest(t: TaskId)
    | FinishClose(h: Native)

  // ---------------------------------------------------------------- reference operations

  /** A place that held nothing copies a reference. */
  function AddHold(s: State, x: Slot, h: Native): State
    requires h in s.uses && s.uses[h].Held?
  {
    s.(holds := s.holds[x := h], uses := s.uses[h := Held(s.uses[h].count + 1)])
  }

  /** The count of `h` goes down; at zero the deleter starts. */
  function Dec(uses: map<Native, Use>, h: Native): map<Native, Use> {
    if h in uses && uses[h].Held? then uses[h := if uses[h].count == 1 then Closing else Held(uses[h].count - 1)] else uses
  }

  /** A shared_ptr to a native connection is reset. */
  function DropHold(s: State, x: Slot): State {
    s.(holds := s.holds - {x}, uses := if x in s.holds then Dec(s.uses, s.holds[x]) else s.uses)
  }

  /** A shared_ptr is moved; the count does not change. */
  function Moved<K, V>(m: map<K, V>, dst: K, src: K): map<K, V> {
    if src in m then (m - {src})[dst := m[src]] else m
  }

  function MoveHold(s: State, dst: Slot, src: Slot): State { s.(holds := Moved(s.holds, dst, src)) }

  function AddOwn(s: State, x: Owner, b: Block): State
    requires b in s.counts
  {
    s.(owns := s.owns[x := b], counts := s.counts[b := s.counts[b] + 1])
  }

  /** The count of `b` goes down; at zero the block is freed. */
  function Unref(counts: map<Block, int>, b: Block): map<Block, int> {
    if b !in counts then counts else if counts[b] == 1 then counts - {b} else counts[b := counts[b] - 1]
  }

  /** A shared_ptr to a handler block is reset. */
  function DropOwn(s: State, x: Owner): State {
    s.(owns := s.owns - {x}, counts := if x in s.owns then Unref(s.counts, s.owns[x]) else s.counts)
  }

  function MoveOwn(s: State, dst: Owner, src: Owner): State { s.(owns := Moved(s.owns, dst, src)) }

  function SetPhase(s: State, c: ConnId, p: Phase): State { s.(conns := s.conns[c := p]) }

  // ---------------------------------------------------------------- transitions

  predicate InPhase(s: State, c: ConnId, p: Phase) { c in s.conns && s.conns[c] == p }

  predicate Enabled(s: State, st: Step) {
    match st
    case NewConnection(c) => c !in s.conns
    case BuildHandlers(c) => InPhase(s, c, Ready)
    case FailConnect(c) => InPhase(s, c, Built)
    case Open(c) => InPhase(s, c, Built) && Local(c) in s.owns
    case Install(c) => c in s.conns && s.conns[c].Opened? && s.conns[c].h in s.closure && s.closure[s.conns[c].h] in s.counts
    case StoreHandlers(c) => InPhase(s, c, Installed)
    case MoveConstruct(dst, src) => dst !in s.conns && InPhase(s, src, Ready)
    case MoveAssign(dst, src) => InPhase(s, dst, Ready) && InPhase(s, src, Ready)
    case TakeHandlers(dst) => dst in s.conns && s.conns[dst].Taking? && InPhase(s, s.conns[dst].src, Lent)
    case Destroy(c) => InPhase(s, c, Ready)
    case DropConn(c) => InPhase(s, c, Dying)
    case StartRequest(t, c) => InTask(t) !in s.holds && InPhase(s, c, Ready)
    case FinishRequest(t) => InTask(t) in s.holds
    case FinishClose(h) => h in s.uses && s.uses[h].Closing?
  }

  /** `conn_.reset(raw, [h = handlers](natsConnection* p) {...})`: the new control block and the
      deleter's reference first, then the old reference goes. */
  function Reset(s: State, c: ConnId): State
    requires Enabled(s, Install(c))
  {
    var h := s.conns[c].h;
    var captured := AddOwn(s, Deleter(h), s.closure[h]);
    var dropped := DropHold(captured, InConn(c));
    dropped.(holds := dropped.holds[InConn(c) := h], uses := dropped.uses[h := Held(1)], conns := dropped.conns[c := Installed])
  }

  function Apply(s: State, st: Step): State
    requires Enabled(s, st)
  {
    match st
    case NewConnection(c) => SetPhase(s, c, Ready)
    case BuildHandlers(c) =>
      SetPhase(s, c, Built).(owns := s.owns[Local(c) := s.nextBlock], counts := s.counts[s.nextBlock := 1], nextBlock := s.nextBlock + 1)
    case FailConnect(c) => SetPhase(DropOwn(s, Local(c)), c, Ready)
    case Open(c) =>
      SetPhase(s, c, Opened(s.nextNative)).(uses := s.uses[s.nextNative := Raw(c)],
                                            closure := s.closure[s.nextNative := s.owns[Local(c)]],
                                            nextNative := s.nextNative + 1)
    case Install(c) => Reset(s, c)
    case StoreHandlers(c) => SetPhase(MoveOwn(DropOwn(s, Member(c)), Member(c), Local(c)), c, Ready)
    case MoveConstruct(dst, src) => SetPhase(MoveOwn(MoveHold(s, InConn(dst), InConn(src)), Member(dst), Member(src)), dst, Ready)
    case MoveAssign(dst, src) =>
      if dst == src then s
      else SetPhase(SetPhase(MoveHold(DropHold(s, InConn(dst)), InConn(dst), InConn(src)), src, Lent), dst, Taking(src))
    case TakeHandlers(dst) =>
      var src := s.conns[dst].src;
      SetPhase(SetPhase(MoveOwn(DropOwn(s, Member(dst)), Member(dst), Member(src)), src, Ready), dst, Ready)
    case Destroy(c) => SetPhase(DropOwn(s, Member(c)), c, Dying)
    case DropConn(c) => var t := DropHold(s, InConn(c)); t.(conns := t.conns - {c})
    case StartRequest(t, c) =>
      if InConn(c) in s.holds && s.holds[InConn(c)] in s.uses && s.uses[s.holds[InConn(c)]].Held?
      then AddHold(s, InTask(t), s.holds[InConn(c)]) else s
    case FinishRequest(t) => DropHold(s, InTask(t))
    case FinishClose(h) =>
      DropOwn(s.(uses := s.uses - {h}, destroyed := s.destroyed + [h]), Deleter(h))
  }

  // ---------------------------------------------------------------- counting references

  function Keys<K, V(==)>(m: map<K, V>, v: V): set<K> { set x | x in m && m[x] == v }

  function Tally<K, V(==)>(m: map<K, V>, v: V): nat { |Keys(m, v)| }

  lemma {:induction false} TallyAdd<K, V>(m: map<K, V>, x: K, v: V, w: V)
    requires x !in m
    ensures Tally(m[x := v], w) == Tally(m, w) + if v == w then 1 else 0
  {
    if v == w {
      assert Keys(m[x := v], w) == Keys(m, w) + {x};
    } else {
      assert Keys(m[x := v], w) == Keys(m, w);
    }
  }

  lemma {:induction false} TallyRemove<K, V>(m: map<K, V>, x: K, w: V)
    requires x in m
    ensures Tally(m - {x}, w) == Tally(m, w) - if m[x] == w then 1 else 0
  {
    TallyAdd(m - {x}, x, m[x], w);
    assert (m - {x})[x := m[x]] == m;
  }

  lemma {:induction false} TallyPositive<K, V>(m: map<K, V>, x: K)
    requires x in m
    ensures Tally(m, m[x]) >= 1
  {
    TallyRemove(m, x, m[x]);
  }

  lemma {:induction false} TallyZero<K, V>(m: map<K, V>, v: V)
    requires forall x :: x in m ==> m[x] != v
    ensures Tally(m, v) == 0
  {
    assert Keys(m, v) == {};
  }

  // ---------------------------------------------------------------- the invariant

  /** The control block of `h` counts exactly the references to it. */
  ghost predicate HoldsOk(s: State) {
    && (forall x :: x in s.holds ==> s.holds[x] in s.uses)
    && (forall h :: h in s.uses ==>
          match s.uses[h]
          case Held(n) => n == Tally(s.holds, h) && n > 0
          case _ => Tally(s.holds, h) == 0)
  }

  ghost predicate OwnsOk(s: State) {
    && (forall x :: x in s.owns ==> s.owns[x] in s.counts)
    && (forall b :: b in s.counts ==> s.counts[b] == Tally(s.owns, b) && s.counts[b] > 0)
  }

  /** Connection objects, running calls and tasks are the only places that hold references. */
  ghost predicate PlacesOk(s: State) {
    && (forall c :: InConn(c) in s.holds ==> c in s.conns)
    && (forall c :: Member(c) in s.owns ==> c in s.conns)
    && (forall c :: Local(c) in s.owns <==> c in s.conns && (s.conns[c].Built? || s.conns[c].Opened? || s.conns[c].Installed?))
    && (forall c :: c in s.conns && s.conns[c].Dying? ==> Member(c) !in s.owns)
  }

  /** The block of a native connection is pinned by the opening call until the control block exists,
      and by the deleter from then on. */
  ghost predicate PinsOk(s: State) {
    && 0 <= s.nextNative
    && (forall h :: Deleter(h) in s.owns <==> h in s.uses && !s.uses[h].Raw?)
    && (forall h :: h in s.uses ==> h in s.closure && 0 <= h < s.nextNative)
    && (forall h :: h in s.uses && !s.uses[h].Raw? ==> s.owns[Deleter(h)] == s.closure[h])
    && (forall h :: h in s.uses && s.uses[h].Raw? ==>
          var c := s.uses[h].opener;
          c in s.conns && s.conns[c] == Opened(h) && Local(c) in s.owns && s.owns[Local(c)] == s.closure[h])
    && (forall c :: c in s.conns && s.conns[c].Opened? ==> s.conns[c].h in s.uses && s.uses[s.conns[c].h] == Raw(c))
  }

  /** Serial numbers are used up in order, and a native connection is destroyed at most once. */
  ghost predicate SerialsOk(s: State) {
    && (forall h :: h in s.uses || h in s.destroyed <==> 0 <= h < s.nextNative)
    && (forall h :: h in s.uses ==> h !in s.destroyed)
    && (forall i, j :: 0 <= i < j < |s.destroyed| ==> s.destroyed[i] != s.destroyed[j])
    && (forall b :: b in s.counts ==> b < s.nextBlock)
  }

  ghost predicate Inv(s: State) { HoldsOk(s) && OwnsOk(s) && PlacesOk(s) && PinsOk(s) && SerialsOk(s) }

  // ---------------------------------------------------------------- reference operations keep the counts

  lemma {:induction false} AddHoldKeeps(s: State, x: Slot, h: Native)
    requires HoldsOk(s) && x !in s.holds && h in s.uses && s.uses[h].Held?
    ensures HoldsOk(AddHold(s, x, h))
  {
    forall k | k in s.uses ensures Tally(s.holds[x := h], k) == Tally(s.holds, k) + if k == h then 1 else 0 {
      TallyAdd(s.holds, x, h, k);
    }
  }

  /** The last reference, and no other, starts the deleter. */
  lemma {:induction false} DropHoldKeeps(s: State, x: Slot)
    requires HoldsOk(s)
    ensures HoldsOk(DropHold(s, x))
    ensures x !in DropHold(s, x).holds && DropHold(s, x).holds == s.holds - {x}
    ensures x in s.holds ==>
              (DropHold(s, x).uses[s.holds[x]].Closing? <==> forall y :: y in s.holds && s.holds[y] == s.holds[x] ==> y == x)
  {
    if x in s.holds {
      var h := s.holds[x];
      TallyPositive(s.holds, x);
      var t := DropHold(s, x);
      forall k | k in s.uses ensures Tally(t.holds, k) == Tally(s.holds, k) - if k == h then 1 else 0 {
        TallyRemove(s.holds, x, k);
      }
      if y :| y in s.holds && s.holds[y] == h && y != x {
        TallyPositive(t.holds, y);
      } else {
        TallyZero(t.holds, h);
      }
    } else {
      assert s.holds - {x} == s.holds;
    }
  }

  lemma {:induction false} MoveHoldKeeps(s: State, dst: Slot, src: Slot)
    requires HoldsOk(s) && dst !in s.holds
    ensures HoldsOk(MoveHold(s, dst, src))
  {
    if src in s.holds {
      var h := s.holds[src];
      forall k | k in s.uses ensures Tally((s.holds - {src})[dst := h], k) == Tally(s.holds, k) {
        TallyRemove(s.holds, src, k);
        TallyAdd(s.holds - {src}, dst, h, k);
      }
    }
  }

  lemma {:induction false} AddOwnKeeps(s: State, x: Owner, b: Block)
    requires OwnsOk(s) && x !in s.owns && b in s.counts
    ensures OwnsOk(AddOwn(s, x, b))
  {
    forall k | k in s.counts ensures Tally(s.owns[x := b], k) == Tally(s.owns, k) + if k == b then 1 else 0 {
      TallyAdd(s.owns, x, b, k);
    }
  }

  lemma {:induction false} DropOwnKeeps(s: State, x: Owner)
    requires OwnsOk(s)
    ensures OwnsOk(DropOwn(s, x))
    ensures DropOwn(s, x).owns == s.owns - {x} && DropOwn(s, x).counts.Keys <= s.counts.Keys
  {
    if x in s.owns {
      var b := s.owns[x];
      var t := DropOwn(s, x);
      forall k | k in s.counts ensures Tally(t.owns, k) == Tally(s.owns, k) - if k == b then 1 else 0 {
        TallyRemove(s.owns, x, k);
      }
      forall y | y in t.owns ensures t.owns[y] in t.counts {
        TallyPositive(t.owns, y);
      }
    } else {
      assert s.owns - {x} == s.owns;
    }
  }

  lemma {:induction false} MoveOwnKeeps(s: State, dst: Owner, src: Owner)
    requires OwnsOk(s) && dst !in s.owns
    ensures OwnsOk(MoveOwn(s, dst, src))
  {
    if src in s.owns {
      var b := s.owns[src];
      forall k | k in s.counts ensures Tally((s.owns - {src})[dst := b], k) == Tally(s.owns, k) {
        TallyRemove(s.owns, src, k);
        TallyAdd(s.owns - {src}, dst, b, k);
      }
    }
  }

  // ---------------------------------------------------------------- steps

  lemma {:induction false} HoldsKept(s: State, st: Step)
    requires HoldsOk(s) && SerialsOk(s) && Enabled(s, st) && !st.Install?
    requires st.MoveConstruct? ==> InConn(st.dst) !in s.holds
    ensures HoldsOk(Apply(s, st))
  {
    match st
    case Open(c) =>
      assert s.nextNative !in s.uses;
      TallyZero(s.holds, s.nextNative);
    case MoveConstruct(dst, src) =>
      MoveHoldKeeps(s, InConn(dst), InConn(src));
    case MoveAssign(dst, src) =>
      if dst != src {
        DropHoldKeeps(s, InConn(dst));
        MoveHoldKeeps(DropHold(s, InConn(dst)), InConn(dst), InConn(src));
      }
    case DropConn(c) => DropHoldKeeps(s, InConn(c));
    case StartRequest(t, c) =>
      if InConn(c) in s.holds && s.uses[s.holds[InConn(c)]].Held? { AddHoldKeeps(s, InTask(t), s.holds[InConn(c)]); }
    case FinishRequest(t) => DropHoldKeeps(s, InTask(t));
    case FinishClose(h) =>
      if x :| x in s.holds && s.holds[x] == h { TallyPositive(s.holds, x); }
    case _ =>
  }

  lemma {:induction false} ResetKeepsHolds(s: State, c: ConnId)
    requires HoldsOk(s) && Enabled(s, Install(c)) && s.conns[c].h in s.uses && s.uses[s.conns[c].h].Raw?
    ensures HoldsOk(Reset(s, c))
  {
    var h := s.conns[c].h;
    var captured := AddOwn(s, Deleter(h), s.closure[h]);
    DropHoldKeeps(captured, InConn(c));
    var d := DropHold(captured, InConn(c));
    forall k | k in d.uses ensures Tally(d.holds[InConn(c) := h], k) == Tally(d.holds, k) + if k == h then 1 else 0 {
      TallyAdd(d.holds, InConn(c), h, k);
    }
  }

  lemma {:induction false} OwnsKept(s: State, st: Step)
    requires OwnsOk(s) && SerialsOk(s) && Enabled(s, st) && !st.BuildHandlers?
    requires st.Install? ==> Deleter(s.conns[st.c].h) !in s.owns
    requires st.MoveConstruct? ==> Member(st.dst) !in s.owns
    ensures OwnsOk(Apply(s, st))
  {
    match st
    case FailConnect(c) => DropOwnKeeps(s, Local(c));
    case Install(c) =>
      var h := s.conns[c].h;
      AddOwnKeeps(s, Deleter(h), s.closure[h]);
    case StoreHandlers(c) =>
      DropOwnKeeps(s, Member(c));
      MoveOwnKeeps(DropOwn(s, Member(c)), Member(c), Local(c));
    case MoveConstruct(dst, src) => MoveOwnKeeps(s, Member(dst), Member(src));
    case TakeHandlers(dst) =>
      DropOwnKeeps(s, Member(dst));
      MoveOwnKeeps(DropOwn(s, Member(dst)), Member(dst), Member(s.conns[dst].src));
    case Destroy(c) => DropOwnKeeps(s, Member(c));
    case FinishClose(h) => DropOwnKeeps(s.(uses := s.uses - {h}, destroyed := s.destroyed + [h]), Deleter(h));
    case _ =>
  }

  lemma {:induction false} BuildKeepsOwns(s: State, c: ConnId)
    requires OwnsOk(s) && SerialsOk(s) && Enabled(s, BuildHandlers(c)) && Local(c) !in s.owns
    ensures OwnsOk(Apply(s, BuildHandlers(c)))
  {
    assert s.nextBlock !in s.counts;
    TallyZero(s.owns, s.nextBlock);
    forall k ensures Tally(s.owns[Local(c) := s.nextBlock], k) == Tally(s.owns, k) + if k == s.nextBlock then 1 else 0 {
      TallyAdd(s.owns, Local(c), s.nextBlock, k);
    }
  }

  lemma {:induction false} MoveAssignFrame(s: State, dst: ConnId, src: ConnId)
    requires HoldsOk(s) && Enabled(s, MoveAssign(dst, src)) && dst != src
    ensures
      var t := Apply(s, MoveAssign(dst, src));
      && t.owns == s.owns && t.counts == s.counts && t.closure == s.closure && t.nextNative == s.nextNative
      && t.conns == s.conns[src := Lent][dst := Taking(src)]
      && t.uses.Keys == s.uses.Keys
      && forall h :: h in s.uses ==> (t.uses[h].Raw? <==> s.uses[h].Raw?) && (s.uses[h].Raw? ==> t.uses[h] == s.uses[h])
  {
  }

  lemma {:induction false} PinsFrame(s: State, t: State, dst: ConnId, src: ConnId)
    requires PinsOk(s) && InPhase(s, dst, Ready) && InPhase(s, src, Ready)
    requires t.owns == s.owns && t.closure == s.closure && t.nextNative == s.nextNative && t.uses.Keys == s.uses.Keys
    requires t.conns == s.conns[src := Lent][dst := Taking(src)]
    requires forall h :: h in s.uses ==> (t.uses[h].Raw? <==> s.uses[h].Raw?) && (s.uses[h].Raw? ==> t.uses[h] == s.uses[h])
    ensures PinsOk(t)
  {
  }

  lemma {:induction false} NewConnectionKeepsPlaces(s: State, c: ConnId)
    requires PlacesOk(s) && PinsOk(s) && Enabled(s, NewConnection(c))
    ensures PlacesOk(Apply(s, NewConnection(c))) && PinsOk(Apply(s, NewConnection(c)))
  {
  }

  lemma {:induction false} BuildHandlersKeepsPlaces(s: State, c: ConnId)
    requires PlacesOk(s) && PinsOk(s) && Enabled(s, BuildHandlers(c))
    ensures PlacesOk(Apply(s, BuildHandlers(c))) && PinsOk(Apply(s, BuildHandlers(c)))
  {
  }

  lemma {:induction false} FailConnectKeepsPlaces(s: State, c: ConnId)
    requires PlacesOk(s) && PinsOk(s) && Enabled(s, FailConnect(c))
    ensures PlacesOk(Apply(s, FailConnect(c))) && PinsOk(Apply(s, FailConnect(c)))
  {
  }

  lemma {:induction false} OpenKeepsPlaces(s: State, c: ConnId)
    requires PlacesOk(s) && PinsOk(s) && Enabled(s, Open(c))
    requires HoldsOk(s)
    ensures PlacesOk(Apply(s, Open(c))) && PinsOk(Apply(s, Open(c)))
  {
  }

  lemma {:induction false} InstallKeepsPlaces(s: State, c: ConnId)
    requires PlacesOk(s) && PinsOk(s) && Enabled(s, Install(c))
    requires HoldsOk(s)
    ensures PlacesOk(Apply(s, Install(c))) && PinsOk(Apply(s, Install(c)))
  {
  }

  lemma {:induction false} StoreHandlersKeepsPlaces(s: State, c: ConnId)
    requires PlacesOk(s) && PinsOk(s) && Enabled(s, StoreHandlers(c))
    ensures PlacesOk(Apply(s, StoreHandlers(c)))
  {
  }

  lemma {:induction false} StoreHandlersKeepsPins(s: State, c: ConnId)
    requires PlacesOk(s) && PinsOk(s) && Enabled(s, StoreHandlers(c))
    ensures PinsOk(Apply(s, StoreHandlers(c)))
  {
  }

  lemma {:induction false} MoveConstructKeepsPlaces(s: State, dst: ConnId, src: ConnId)
    requires PlacesOk(s) && PinsOk(s) && Enabled(s, MoveConstruct(dst, src))
    ensures PlacesOk(Apply(s, MoveConstruct(dst, src))) && PinsOk(Apply(s, MoveConstruct(dst, src)))
  {
  }

  lemma {:induction false} MoveAssignKeepsPlaces(s: State, dst: ConnId, src: ConnId)
    requires PlacesOk(s) && PinsOk(s) && Enabled(s, MoveAssign(dst, src))
    requires HoldsOk(s)
    ensures PlacesOk(Apply(s, MoveAssign(dst, src)))
  {
  }

  lemma {:induction false} MoveAssignKeepsPins(s: State, dst: ConnId, src: ConnId)
    requires PlacesOk(s) && PinsOk(s) && Enabled(s, MoveAssign(dst, src))
    requires HoldsOk(s)
    ensures PinsOk(Apply(s, MoveAssign(dst, src)))
  {
    if dst != src {
      MoveAssignFrame(s, dst, src);
      PinsFrame(s, Apply(s, MoveAssign(dst, src)), dst, src);
    }
  }

  lemma {:induction false} TakeHandlersKeepsPlaces(s: State, dst: ConnId)
    requires PlacesOk(s) && PinsOk(s) && Enabled(s, TakeHandlers(dst))
    ensures PlacesOk(Apply(s, TakeHandlers(dst)))
  {
  }

  lemma {:induction false} TakeHandlersKeepsPins(s: State, dst: ConnId)
    requires PlacesOk(s) && PinsOk(s) && Enabled(s, TakeHandlers(dst))
    ensures PinsOk(Apply(s, TakeHandlers(dst)))
  {
  }

  lemma {:induction false} DestroyKeepsPlaces(s: State, c: ConnId)
    requires PlacesOk(s) && PinsOk(s) && Enabled(s, Destroy(c))
    ensures PlacesOk(Apply(s, Destroy(c))) && PinsOk(Apply(s, Destroy(c)))
  {
  }

  lemma {:induction false} DropConnKeepsPlaces(s: State, c: ConnId)
    requires PlacesOk(s) && PinsOk(s) && Enabled(s, DropConn(c))
    requires HoldsOk(s)
    ensures PlacesOk(Apply(s, DropConn(c))) && PinsOk(Apply(s, DropConn(c)))
  {
  }

  lemma {:induction false} StartRequestKeepsPlaces(s: State, t: TaskId, c: ConnId)
    requires PlacesOk(s) && PinsOk(s) && Enabled(s, StartRequest(t, c))
    requires HoldsOk(s)
    ensures PlacesOk(Apply(s, StartRequest(t, c))) && PinsOk(Apply(s, StartRequest(t, c)))
  {
  }

  lemma {:induction false} FinishRequestKeepsPlaces(s: State, t: TaskId)
    requires PlacesOk(s) && PinsOk(s) && Enabled(s, FinishRequest(t))
    requires HoldsOk(s)
    ensures PlacesOk(Apply(s, FinishRequest(t))) && PinsOk(Apply(s, FinishRequest(t)))
  {
  }

  lemma {:induction false} FinishCloseKeepsPlaces(s: State, h: Native)
    requires PlacesOk(s) && PinsOk(s) && Enabled(s, FinishClose(h))
    requires HoldsOk(s)
    ensures PlacesOk(Apply(s, FinishClose(h))) && PinsOk(Apply(s, FinishClose(h)))
  {
  }

  lemma {:induction false} ConnectKeepsSerials(s: State, st: Step)
    requires SerialsOk(s) && PinsOk(s) && Enabled(s, st)
    requires st.NewConnection? || st.BuildHandlers? || st.FailConnect? || st.Open? || st.Install? || st.StoreHandlers?
    ensures SerialsOk(Apply(s, st))
  {
  }

  lemma {:induction false} MoveKeepsSerials(s: State, st: Step)
    requires SerialsOk(s) && PinsOk(s) && Enabled(s, st)
    requires st.MoveConstruct? || st.MoveAssign? || st.TakeHandlers? || st.Destroy?
    ensures SerialsOk(Apply(s, st))
  {
  }

  lemma {:induction false} DropKeepsSerials(s: State, st: Step)
    requires SerialsOk(s) && PinsOk(s) && Enabled(s, st)
    requires st.DropConn? || st.StartRequest? || st.FinishRequest? || st.FinishClose?
    ensures SerialsOk(Apply(s, st))
  {
  }

  lemma {:induction false} PlacesKept(s: State, st: Step)
    requires HoldsOk(s) && PlacesOk(s) && PinsOk(s) && Enabled(s, st)
    ensures PlacesOk(Apply(s, st)) && PinsOk(Apply(s, st))
  {
    match st
    case NewConnection(c) => NewConnectionKeepsPlaces(s, c);
    case BuildHandlers(c) => BuildHandlersKeepsPlaces(s, c);
    case FailConnect(c) => FailConnectKeepsPlaces(s, c);
    case Open(c) => OpenKeepsPlaces(s, c);
    case Install(c) => InstallKeepsPlaces(s, c);
    case StoreHandlers(c) => StoreHandlersKeepsPlaces(s, c); StoreHandlersKeepsPins(s, c);
    case MoveConstruct(dst, src) => MoveConstructKeepsPlaces(s, dst, src);
    case MoveAssign(dst, src) => MoveAssignKeepsPlaces(s, dst, src); MoveAssignKeepsPins(s, dst, src);
    case TakeHandlers(dst) => TakeHandlersKeepsPlaces(s, dst); TakeHandlersKeepsPins(s, dst);
    case Destroy(c) => DestroyKeepsPlaces(s, c);
    case DropConn(c) => DropConnKeepsPlaces(s, c);
    case StartRequest(t, c) => StartRequestKeepsPlaces(s, t, c);
    case FinishRequest(t) => FinishRequestKeepsPlaces(s, t);
    case FinishClose(h) => FinishCloseKeepsPlaces(s, h);
  }

  lemma {:induction false} SerialsKept(s: State, st: Step)
    requires SerialsOk(s) && PinsOk(s) && Enabled(s, st)
    ensures SerialsOk(Apply(s, st))
  {
    if st.MoveConstruct? || st.MoveAssign? || st.TakeHandlers? || st.Destroy? {
      MoveKeepsSerials(s, st);
    } else if st.DropConn? || st.StartRequest? || st.FinishRequest? || st.FinishClose? {
      DropKeepsSerials(s, st);
    } else {
      ConnectKeepsSerials(s, st);
    }
  }

  lemma {:induction false} StepKeepsInv(s: State, st: Step)
    requires Inv(s) && Enabled(s, st)
    ensures Inv(Apply(s, st))
  {
    if st.Install? { ResetKeepsHolds(s, st.c); } else { HoldsKept(s, st); }
    if st.BuildHandlers? { BuildKeepsOwns(s, st.c); } else { OwnsKept(s, st); }
    PlacesKept(s, st);
    SerialsKept(s, st);
  }

  // ---------------------------------------------------------------- runs

  ghost predicate Runs(s: State, steps: seq<Step>)
    decreases |steps|
  {
    steps == [] || (Enabled(s, steps[0]) && Runs(Apply(s, steps[0]), steps[1..]))
  }

  ghost function EndOf(s: State, steps: seq<Step>): State
    requires Runs(s, steps)
    decreases |steps|
  {
    if steps == [] then s else EndOf(Apply(s, steps[0]), steps[1..])
  }

  ghost predicate Reachable(s: State) {
    exists steps :: Runs(INIT, steps) && EndOf(INIT, steps) == s
  }

  lemma {:induction false} RunsKeepInv(s: State, steps: seq<Step>)
    requires Inv(s) && Runs(s, steps)
    ensures Inv(EndOf(s, steps))
    decreases |steps|
  {
    if steps != [] {
      StepKeepsInv(s, steps[0]);
      RunsKeepInv(Apply(s, steps[0]), steps[1..]);
    }
  }

  lemma {:induction false} ReachableInv(s: State)
    requires Reachable(s)
    ensures Inv(s)
  {
    var steps :| Runs(INIT, steps) && EndOf(INIT, steps) == s;
    RunsKeepInv(INIT, steps);
  }

  /** The guards of `Open` and `Install` that the code does not test always hold: a connect in flight
      can always take its next statement. */
  lemma {:induction false} ConnectNeverStuck(s: State, c: ConnId)
    requires Inv(s) && c in s.conns
    ensures s.conns[c].Built? ==> Enabled(s, FailConnect(c)) && Enabled(s, Open(c))
    ensures s.conns[c].Opened? ==> Enabled(s, Install(c))
    ensures s.conns[c].Installed? ==> Enabled(s, StoreHandlers(c)) && Local(c) in s.owns
  {
  }

  /** Handler-block liveness: whatever was connected, connected again, moved, destroyed or requested
      before, the block every live native connection passes to its callbacks has not been freed, from
      the moment the native connection exists until natsConnection_Destroy returns. */
  lemma {:induction false} HandlerBlockLive(s: State, h: Native)
    requires Reachable(s) && h in s.uses
    ensures h in s.closure && s.closure[h] in s.counts
  {
    ReachableInv(s);
  }

  /** Every connection object and every task in flight refers to a live native connection, and the
      count in its control block is the number of such references. */
  lemma {:induction false} CountIsExact(s: State, x: Slot)
    requires Reachable(s) && x in s.holds
    ensures s.holds[x] in s.uses && s.uses[s.holds[x]] == Held(Tally(s.holds, s.holds[x])) && s.holds[x] !in s.destroyed
  {
    ReachableInv(s);
    var h := s.holds[x];
    TallyPositive(s.holds, x);
    assert h in s.uses && s.uses[h].Held?;
  }

  /** The native connection is destroyed exactly when its last holder drops it: a step starts the
      deleter iff it takes the last reference away, and the deleter runs to its end only then. */
  lemma {:induction false} DestroyedByLastHolder(s: State, st: Step, h: Native)
    requires Reachable(s) && Enabled(s, st) && h in s.uses && s.uses[h].Held?
    ensures
      var t := Apply(s, st);
      && h in t.uses && !t.uses[h].Raw?
      && (t.uses[h].Closing? <==> forall x :: x in t.holds ==> t.holds[x] != h)
  {
    ReachableInv(s);
    StepKeepsInv(s, st);
    StaysInUse(s, st, h);
    var t := Apply(s, st);
    if x :| x in t.holds && t.holds[x] == h {
      TallyPositive(t.holds, x);
    } else {
      TallyZero(t.holds, h);
    }
  }

  lemma {:induction false} StaysInUse(s: State, st: Step, h: Native)
    requires PinsOk(s) && Enabled(s, st) && h in s.uses && s.uses[h].Held?
    ensures h in Apply(s, st).uses && !Apply(s, st).uses[h].Raw?
  {
  }

  /** Exactly once, over every run: destroyed connections are distinct and gone, and when every
      object is destroyed, every task finished and every deleter done, all that were ever opened
      have been destroyed and every handler block is freed. */
  lemma {:induction false} DestroyedExactlyOnce(s: State)
    requires Reachable(s)
    ensures forall i, j :: 0 <= i < j < |s.destroyed| ==> s.destroyed[i] != s.destroyed[j]
    ensures forall h :: h in s.destroyed ==> h !in s.uses
    ensures s.conns == map[] && s.holds == map[] && (forall h :: h in s.uses ==> !s.uses[h].Closing?) ==>
              s.uses == map[] && s.counts == map[] && (forall h :: 0 <= h < s.nextNative <==> h in s.destroyed)
  {
    ReachableInv(s);
    if s.conns == map[] && s.holds == map[] && forall h :: h in s.uses ==> !s.uses[h].Closing? {
      forall h ensures h !in s.uses {
        TallyZero(s.holds, h);
      }
      assert s.uses.Keys == {};
      forall x ensures x !in s.owns {
        match x
        case Member(c) =>
        case Local(c) =>
        case Deleter(h) => assert h !in s.uses;
      }
      forall b ensures b !in s.counts {
        TallyZero(s.owns, b);
      }
      assert s.counts.Keys == {};
    }
  }

  // ---------------------------------------------------------------- what whole calls leave where

  /** What place `x` refers to. */
  function HeldAt(s: State, x: Slot): Option<Native> { if x in s.holds then Some(s.holds[x]) else None }

  function OwnedAt(s: State, x: Owner): Option<Block> { if x in s.owns then Some(s.owns[x]) else None }

  /** Only the places listed refer to something else than before. */
  ghost predicate OtherwiseSame(s: State, t: State, slots: set<Slot>, owners: set<Owner>) {
    && (forall x :: x !in slots ==> HeldAt(t, x) == HeldAt(s, x))
    && (forall x :: x !in owners ==> OwnedAt(t, x) == OwnedAt(s, x))
  }

  lemma {:induction false} RunCons(s: State, st: Step, rest: seq<Step>)
    requires Enabled(s, st) && Runs(Apply(s, st), rest)
    ensures Runs(s, [st] + rest) && EndOf(s, [st] + rest) == EndOf(Apply(s, st), rest)
  {
    assert ([st] + rest)[1..] == rest;
  }

  /** Move construction: the new object refers to what the old one did, and the old one to nothing. */
  lemma {:induction false} MoveConstructCall(s: State, dst: ConnId, src: ConnId) returns (t: State)
    requires Inv(s) && dst !in s.conns && InPhase(s, src, Ready)
    ensures Runs(s, [MoveConstruct(dst, src)]) && EndOf(s, [MoveConstruct(dst, src)]) == t
    ensures HeldAt(t, InConn(dst)) == HeldAt(s, InConn(src)) && HeldAt(t, InConn(src)) == None
    ensures OwnedAt(t, Member(dst)) == OwnedAt(s, Member(src)) && OwnedAt(t, Member(src)) == None
    ensures OtherwiseSame(s, t, {InConn(dst), InConn(src)}, {Member(dst), Member(src)})
    ensures t.conns == s.conns[dst := Ready] && t.uses == s.uses && t.closure == s.closure && t.destroyed == s.destroyed
  {
    t := Apply(s, MoveConstruct(dst, src));
    RunCons(s, MoveConstruct(dst, src), []);
    assert [MoveConstruct(dst, src)] + [] == [MoveConstruct(dst, src)];
  }

  /** Move assignment: as move construction, with what the target referred to dropped. Onto itself it
      does nothing. */
  lemma {:induction false} MoveAssignCall(s: State, dst: ConnId, src: ConnId) returns (steps: seq<Step>, t: State)
    requires Inv(s) && InPhase(s, dst, Ready) && InPhase(s, src, Ready)
    ensures steps == if dst == src then [MoveAssign(dst, src)] else [MoveAssign(dst, src), TakeHandlers(dst)]
    ensures Runs(s, steps) && EndOf(s, steps) == t
    ensures dst == src ==> t == s
    ensures dst != src ==>
              && HeldAt(t, InConn(dst)) == HeldAt(s, InConn(src)) && HeldAt(t, InConn(src)) == None
              && OwnedAt(t, Member(dst)) == OwnedAt(s, Member(src)) && OwnedAt(t, Member(src)) == None
    ensures OtherwiseSame(s, t, {InConn(dst), InConn(src)}, {Member(dst), Member(src)})
    ensures t.conns == s.conns && t.closure == s.closure && t.destroyed == s.destroyed
  {
    var r := Apply(s, MoveAssign(dst, src));
    if dst == src {
      t := r;
      RunCons(s, MoveAssign(dst, src), []);
      steps := [MoveAssign(dst, src)] + [];
    } else {
      MoveAssignFrame(s, dst, src);
      t := TakeAfterMove(s, r, dst, src);
      RunTwo(s, MoveAssign(dst, src), TakeHandlers(dst));
      steps := [MoveAssign(dst, src), TakeHandlers(dst)];
    }
  }

  lemma {:induction false} TakeAfterMove(s: State, r: State, dst: ConnId, src: ConnId) returns (t: State)
    requires InPhase(s, dst, Ready) && InPhase(s, src, Ready) && dst != src && r == Apply(s, MoveAssign(dst, src))
    requires r.conns == s.conns[src := Lent][dst := Taking(src)]
    ensures Enabled(r, TakeHandlers(dst)) && t == Apply(r, TakeHandlers(dst))
    ensures HeldAt(t, InConn(dst)) == HeldAt(s, InConn(src)) && HeldAt(t, InConn(src)) == None
    ensures OwnedAt(t, Member(dst)) == OwnedAt(s, Member(src)) && OwnedAt(t, Member(src)) == None
    ensures OtherwiseSame(s, t, {InConn(dst), InConn(src)}, {Member(dst), Member(src)})
    ensures t.conns == s.conns && t.closure == s.closure && t.destroyed == s.destroyed
  {
    t := Apply(r, TakeHandlers(dst));
    assert t.conns == s.conns;
  }

  lemma {:induction false} RunTwo(s: State, a: Step, b: Step)
    requires Enabled(s, a) && Enabled(Apply(s, a), b)
    ensures Runs(s, [a, b]) && EndOf(s, [a, b]) == Apply(Apply(s, a), b)
  {
    RunCons(Apply(s, a), b, []);
    RunCons(s, a, [b] + []);
    assert [a] + ([b] + []) == [a, b];
  }

  lemma {:induction false} RunAppend(s: State, steps: seq<Step>, more: seq<Step>)
    requires Runs(s, steps) && Runs(EndOf(s, steps), more)
    ensures Runs(s, steps + more) && EndOf(s, steps + more) == EndOf(EndOf(s, steps), more)
    decreases |steps|
  {
    if steps == [] {
      assert steps + more == more;
    } else {
      RunAppend(Apply(s, steps[0]), steps[1..], more);
      RunCons(s, steps[0], steps[1..] + more);
      assert [steps[0]] + (steps[1..] + more) == steps + more;
    }
  }

  /** What a successful `connect` on `c` leaves: the object refers to a new native connection and to
      its block, which is what nats.c passes to the callbacks; the deleter pins the block; what was
      there before is dropped. */
  ghost predicate Connected(s: State, t: State, c: ConnId, h: Native, b: Block) {
    && h !in s.uses && h !in s.destroyed && b !in s.counts
    && HeldAt(t, InConn(c)) == Some(h) && OwnedAt(t, Member(c)) == Some(b) && OwnedAt(t, Deleter(h)) == Some(b)
    && h in t.uses && t.uses[h] == Held(1) && h in t.closure && t.closure[h] == b
    && OtherwiseSame(s, t, {InConn(c)}, {Member(c), Deleter(h)})
    && t.conns == s.conns && t.destroyed == s.destroyed
  }

  lemma {:induction false} ConnectCall(s: State, c: ConnId) returns (t: State)
    requires SerialsOk(s) && PlacesOk(s) && InPhase(s, c, Ready)
    ensures Connected(s, t, c, s.nextNative, s.nextBlock)
    ensures
      var steps := [BuildHandlers(c), Open(c)] + [Install(c), StoreHandlers(c)];
      Runs(s, steps) && EndOf(s, steps) == t
  {
    var r := BlockOpened(s, c);
    t := ConnectionStored(r, c, s.nextNative, s.nextBlock);
    RunAppend(s, [BuildHandlers(c), Open(c)], [Install(c), StoreHandlers(c)]);
    ConnectedThrough(s, r, t, c, s.nextNative, s.nextBlock);
  }

  lemma {:induction false} ConnectedThrough(s: State, r: State, t: State, c: ConnId, h: Native, b: Block)
    requires h !in s.uses && h !in s.destroyed && b !in s.counts && InPhase(s, c, Ready)
    requires r.holds == s.holds && r.owns == s.owns[Local(c) := b] && Local(c) !in s.owns
    requires r.conns == s.conns[c := Opened(h)] && h in r.closure && r.closure[h] == b && r.destroyed == s.destroyed
    requires HeldAt(t, InConn(c)) == Some(h) && OwnedAt(t, Member(c)) == Some(b) && OwnedAt(t, Deleter(h)) == Some(b)
    requires h in t.uses && t.uses[h] == Held(1) && t.closure == r.closure && OwnedAt(t, Local(c)) == None
    requires OtherwiseSame(r, t, {InConn(c)}, {Member(c), Deleter(h), Local(c)})
    requires t.conns == r.conns[c := Ready] && t.destroyed == r.destroyed
    ensures Connected(s, t, c, h, b)
  {
    assert t.conns == s.conns;
    forall x ensures HeldAt(r, x) == HeldAt(s, x) && (x != InConn(c) ==> HeldAt(t, x) == HeldAt(s, x)) {
    }
    forall x | x !in {Member(c), Deleter(h)} ensures OwnedAt(t, x) == OwnedAt(s, x) {
      assert x != Local(c) ==> OwnedAt(r, x) == OwnedAt(s, x);
    }
  }

  lemma {:induction false} BlockOpened(s: State, c: ConnId) returns (r: State)
    requires SerialsOk(s) && PlacesOk(s) && InPhase(s, c, Ready)
    ensures Runs(s, [BuildHandlers(c), Open(c)]) && EndOf(s, [BuildHandlers(c), Open(c)]) == r
    ensures Enabled(r, Install(c)) && r.conns == s.conns[c := Opened(s.nextNative)]
    ensures r.holds == s.holds && r.owns == s.owns[Local(c) := s.nextBlock]
    ensures Local(c) !in s.owns && r.closure == s.closure[s.nextNative := s.nextBlock] && r.destroyed == s.destroyed
    ensures s.nextNative !in s.uses && s.nextNative !in s.destroyed && s.nextBlock !in s.counts
  {
    r := Apply(Apply(s, BuildHandlers(c)), Open(c));
    RunTwo(s, BuildHandlers(c), Open(c));
  }

  lemma {:induction false} ConnectionStored(s: State, c: ConnId, h: Native, b: Block) returns (t: State)
    requires Enabled(s, Install(c)) && s.conns[c] == Opened(h) && h in s.closure && s.closure[h] == b
    requires Local(c) in s.owns && s.owns[Local(c)] == b
    ensures Runs(s, [Install(c), StoreHandlers(c)]) && EndOf(s, [Install(c), StoreHandlers(c)]) == t
    ensures HeldAt(t, InConn(c)) == Some(h) && OwnedAt(t, Member(c)) == Some(b) && OwnedAt(t, Deleter(h)) == Some(b)
    ensures h in t.uses && t.uses[h] == Held(1) && t.closure == s.closure && OwnedAt(t, Local(c)) == None
    ensures OtherwiseSame(s, t, {InConn(c)}, {Member(c), Deleter(h), Local(c)})
    ensures t.conns == s.conns[c := Ready] && t.destroyed == s.destroyed
  {
    t := Apply(Apply(s, Install(c)), StoreHandlers(c));
    RunTwo(s, Install(c), StoreHandlers(c));
  }

  /** A failed `connect` leaves every place as it was. */
  lemma {:induction false} FailedConnectCall(s: State, c: ConnId) returns (t: State)
    requires SerialsOk(s) && PlacesOk(s) && InPhase(s, c, Ready)
    ensures Runs(s, [BuildHandlers(c), FailConnect(c)]) && EndOf(s, [BuildHandlers(c), FailConnect(c)]) == t
    ensures OtherwiseSame(s, t, {}, {}) && t.conns == s.conns && t.uses == s.uses && t.counts == s.counts && t.destroyed == s.destroyed
  {
    t := Apply(Apply(s, BuildHandlers(c)), FailConnect(c));
    assert s.nextBlock !in s.counts;
    assert t.counts == s.counts && t.conns == s.conns;
    RunTwo(s, BuildHandlers(c), FailConnect(c));
  }

  /** `request_async`: the task refers to what the object refers to, whatever the count; when it ends
      it refers to nothing. */
  lemma {:induction false} RequestCall(s: State, k: TaskId, c: ConnId) returns (t: State)
    requires Inv(s) && InTask(k) !in s.holds && InPhase(s, c, Ready)
    ensures Enabled(s, StartRequest(k, c)) && t == Apply(s, StartRequest(k, c))
    ensures HeldAt(t, InTask(k)) == HeldAt(s, InConn(c)) && OtherwiseSame(s, t, {InTask(k)}, {})
    ensures t.conns == s.conns && t.closure == s.closure && t.destroyed == s.destroyed
  {
    t := Apply(s, StartRequest(k, c));
    if InConn(c) in s.holds { TallyPositive(s.holds, InConn(c)); }
  }

  lemma {:induction false} RequestEnd(s: State, k: TaskId) returns (t: State)
    requires InTask(k) in s.holds
    ensures Enabled(s, FinishRequest(k)) && t == Apply(s, FinishRequest(k))
    ensures HeldAt(t, InTask(k)) == None && OtherwiseSame(s, t, {InTask(k)}, {})
    ensures t.conns == s.conns && t.closure == s.closure && t.destroyed == s.destroyed
  {
    t := Apply(s, FinishRequest(k));
  }

  /** The destructor: the object refers to nothing and is gone. */
  lemma {:induction false} DestructorCall(s: State, c: ConnId) returns (t: State)
    requires InPhase(s, c, Ready)
    ensures Runs(s, [Destroy(c), DropConn(c)]) && EndOf(s, [Destroy(c), DropConn(c)]) == t
    ensures HeldAt(t, InConn(c)) == None && OwnedAt(t, Member(c)) == None && OtherwiseSame(s, t, {InConn(c)}, {Member(c)})
    ensures t.conns == s.conns - {c} && t.closure == s.closure && t.destroyed == s.destroyed
  {
    t := Apply(Apply(s, Destroy(c)), DropConn(c));
    assert t.conns == s.conns - {c};
    RunTwo(s, Destroy(c), DropConn(c));
  }

  /** The deleter destroys exactly its own native connection, and gives up the block it pinned. */
  lemma {:induction false} DeleterEnd(s: State, h: Native) returns (t: State)
    requires Enabled(s, FinishClose(h))
    ensures t == Apply(s, FinishClose(h)) && t.uses == s.uses - {h} && t.destroyed == s.destroyed + [h]
    ensures OwnedAt(t, Deleter(h)) == None && OtherwiseSame(s, t, {}, {Deleter(h)}) && t.conns == s.conns
  {
    t := Apply(s, FinishClose(h));
  }

  /** A live native connection starts to close only when its holder is destroyed, ends its request,
      connects again, or is move-assigned to. */
  lemma {:induction false} ClosesOnlyIf(s: State, st: Step, h: Native)
    requires PinsOk(s) && Enabled(s, st) && h in s.uses && s.uses[h].Held?
    requires h in Apply(s, st).uses && Apply(s, st).uses[h].Closing?
    ensures
      match st
      case DropConn(c) => HeldAt(s, InConn(c)) == Some(h)
      case FinishRequest(k) => HeldAt(s, InTask(k)) == Some(h)
      case Install(c) => HeldAt(s, InConn(c)) == Some(h)
      case MoveAssign(dst, src) => dst != src && HeldAt(s, InConn(dst)) == Some(h)
      case _ => false
  {
  }
}
