/**
 The callback registry shared by `connection` and `subscription`.

 nats.c keeps the raw address of a heap closure; a mutex-guarded map (`callback_state::callbacks`)
 keeps the closure alive; a `subscription` carries a one-shot release lambda that holds the map
 weakly. The model is a machine whose steps are the statements of the API calls, so any number of
 calls by any number of threads interleave, and nats.c may deliver between any two steps.

 Addresses are chosen by an allocator that may reuse any address no live closure occupies. A
 closure object is live exactly while a map of a live registry, or the local `token` of a
 registration in flight, holds it. Control blocks are never reused while a weak pointer refers to
 them, so registries carry serial numbers.
 */
module Registry {
  import opened Common

  type Addr = int
  type RegId = int
  type ObjId = int
  type SubId = int
  type ConnId = int
  type Id = int

  /** A std::function: its target, or empty. */
  type Handler = Option<int>

  /** A heap-allocated handler. `id` is its serial number, which tells apart closures that live at
      one address at different times; no step branches on it. */
  datatype Closure = Closure(id: Id, handler: Handler)

  /** The registration of `closure` under address `key` of registry `reg`. nats.c remembers only
      `key`; the release lambda remembers only `reg` (weakly) and `key`. */
  datatype Link = Link(reg: RegId, key: Addr, closure: Closure)

  /** What follows `release_callback()` in the call that runs it. */
  datatype After = ToCaller | Die | TakeFrom(src: ObjId)

  /** The next statement of the call in flight on a subscription object. */
  datatype Phase =
    | Idle
    | Closing(after: After)        // sub_.reset()
    | Releasing(after: After)      // if (on_release_) on_release_()
    | Clearing(after: After)       // on_release_ = {}
    | Adopting(src: ObjId)         // sub_ = std::move(other.sub_)
    | TakingRelease(src: ObjId)    // on_release_ = std::move(other.on_release_)
    | Lent(dst: ObjId)             // being moved from

  /** A `subscription` object: its `sub_` and `on_release_` members. */
  datatype Obj = Obj(sub: Option<SubId>, release: Option<Link>, phase: Phase)

  datatype Progress = MadeToken | Inserted | Refused | Subscribed(sub: SubId)

  /** One `register_async_subscription` in flight on connection object `conn`. */
  datatype Call = Call(conn: ConnId, link: Link, progress: Progress)

  datatype Holder = InCall(id: Id) | InObj(o: ObjId)

  datatype State = State(
    conns: map<ConnId, Option<RegId>>,        // connection objects and their callback_state_
    regs: map<RegId, map<Addr, Closure>>,     // live callback_state blocks
    subs: map<SubId, Option<Link>>,           // native subscriptions; None for synchronous ones
    objs: map<ObjId, Obj>,
    calls: map<Id, Call>,
    nextReg: RegId,
    nextId: Id,
    // history variables: no step reads them
    claim: map<Id, ObjId>,                    // whose release lambda is still due for a closure
    holder: map<SubId, Holder>,               // who holds a native subscription
    released: set<Id>)                        // closures whose release lambda has run

  const INIT := State(map[], map[], map[], map[], map[], 0, 0, map[], map[], {})

  datatype Step =
    | NewConnection(c: ConnId)
    | MoveConnection(dst: ConnId, src: ConnId)
    | AssignConnection(dst: ConnId, src: ConnId)
    | DropConnection(c: ConnId)
    | NewSubscription(o: ObjId, sub: Option<SubId>)   // default-constructed, or of a synchronous subscription
    | StartRegister(c: ConnId, a: Addr, handler: Handler)
    | Insert(id: Id)
    | NativeSubscribe(id: Id, n: SubId, ok: bool)
    | Rollback(id: Id)
    | Construct(id: Id, o: ObjId)
    | Unsubscribe(o: ObjId, ok: bool)
    | Destroy(o: ObjId)
    | MoveConstruct(dst: ObjId, src: ObjId)
    | MoveAssign(dst: ObjId, src: ObjId)
    | Advance(o: ObjId)

  // ---------------------------------------------------------------- transitions

  /** Some shared_ptr holds a closure at address `a`, so the allocator cannot return `a`. */
  ghost predicate Occupied(s: State, a: Addr) {
    (exists r :: r in s.regs && a in s.regs[r]) || (exists id :: id in s.calls && s.calls[id].link.key == a)
  }

  predicate IdleObj(s: State, o: ObjId) { o in s.objs && s.objs[o].phase.Idle? }

  /** No registration is in flight on connection object `c`: C++ forbids destroying or moving an
      object while another thread runs a member function on it. */
  predicate Unused(s: State, c: ConnId) { forall id :: id in s.calls ==> s.calls[id].conn != c }

  predicate InProgress(s: State, id: Id, p: Progress) { id in s.calls && s.calls[id].progress == p }

  ghost predicate Enabled(s: State, st: Step) {
    match st
    case NewConnection(c) => c !in s.conns
    case MoveConnection(dst, src) => dst !in s.conns && src in s.conns && Unused(s, src)
    case AssignConnection(dst, src) => dst in s.conns && src in s.conns && Unused(s, src) && Unused(s, dst)
    case DropConnection(c) => c in s.conns && Unused(s, c)
    case NewSubscription(o, n) => o !in s.objs && (n.Some? ==> n.value !in s.subs)
    case StartRegister(c, a, _) => c in s.conns && s.conns[c].Some? && !Occupied(s, a)
    case Insert(id) => InProgress(s, id, MadeToken)
    case NativeSubscribe(id, n, _) => InProgress(s, id, Inserted) && n !in s.subs
    case Rollback(id) => InProgress(s, id, Refused)
    case Construct(id, o) => id in s.calls && s.calls[id].progress.Subscribed? && o !in s.objs
    case Unsubscribe(o, _) => IdleObj(s, o)
    case Destroy(o) => IdleObj(s, o)
    case MoveConstruct(dst, src) => dst !in s.objs && IdleObj(s, src)
    case MoveAssign(dst, src) => IdleObj(s, dst) && IdleObj(s, src)
    case Advance(o) => o in s.objs && !s.objs[o].phase.Idle? && !s.objs[o].phase.Lent? && SourcePresent(s, o)
  }

  function Source(p: Phase): Option<ObjId> {
    match p
    case Releasing(TakeFrom(src)) => Some(src)
    case Clearing(TakeFrom(src)) => Some(src)
    case Adopting(src) => Some(src)
    case TakingRelease(src) => Some(src)
    case _ => None
  }

  /** The moved-from object of a move in flight exists: the caller keeps it alive. */
  predicate SourcePresent(s: State, o: ObjId)
    requires o in s.objs
  {
    var src := Source(s.objs[o].phase);
    src.Some? ==> src.value in s.objs && src.value != o
  }

  /** `locked->callbacks.erase(key)` when the weak pointer still locks, nothing otherwise. */
  function Erase(regs: map<RegId, map<Addr, Closure>>, r: RegId, a: Addr): map<RegId, map<Addr, Closure>> {
    if r in regs then regs[r := regs[r] - {a}] else regs
  }

  function Without<K, V>(m: map<K, V>, k: Option<K>): map<K, V> {
    if k.Some? then m - {k.value} else m
  }

  /** Control returns from `release_callback()`: the object is gone, idle, or about to adopt. */
  function Finish(s: State, o: ObjId, obj: Obj, after: After): State {
    s.(objs := if after.Die? then s.objs - {o}
               else s.objs[o := obj.(phase := if after.ToCaller? then Idle else Adopting(after.src))])
  }

  /** `sub_.reset()`: the native subscription is destroyed. */
  function CloseNative(s: State, o: ObjId): State
    requires o in s.objs && s.objs[o].phase.Closing?
  {
    var obj := s.objs[o];
    s.(subs := Without(s.subs, obj.sub), holder := Without(s.holder, obj.sub),
       objs := s.objs[o := obj.(sub := None, phase := Releasing(obj.phase.after))])
  }

  /** `if (on_release_) on_release_();` An empty `on_release_` runs nothing, and the clearing that
      follows then changes nothing either. */
  function RunRelease(s: State, o: ObjId): State
    requires o in s.objs && s.objs[o].phase.Releasing?
  {
    var obj := s.objs[o];
    var l := obj.release;
    s.(regs := if l.Some? then Erase(s.regs, l.value.reg, l.value.key) else s.regs,
       claim := if l.Some? then s.claim - {l.value.closure.id} else s.claim,
       released := if l.Some? then s.released + {l.value.closure.id} else s.released,
       objs := s.objs[o := obj.(phase := Clearing(obj.phase.after))])
  }

  /** `on_release_ = {};` */
  function ClearRelease(s: State, o: ObjId): State
    requires o in s.objs && s.objs[o].phase.Clearing?
  {
    Finish(s, o, s.objs[o].(release := None), s.objs[o].phase.after)
  }

  /** `sub_ = std::move(other.sub_)`, which destroys the native subscription held before. */
  function Adopt(s: State, o: ObjId): State
    requires o in s.objs && s.objs[o].phase.Adopting? && SourcePresent(s, o)
  {
    var obj := s.objs[o];
    var src := obj.phase.src;
    var taken := s.objs[src].sub;
    var rest := Without(s.holder, obj.sub);
    s.(subs := Without(s.subs, obj.sub),
       holder := if taken.Some? then rest[taken.value := InObj(o)] else rest,
       objs := s.objs[src := s.objs[src].(sub := None)][o := obj.(sub := taken, phase := TakingRelease(src))])
  }

  /** `on_release_ = std::move(other.on_release_)`; the move is complete. */
  function TakeRelease(s: State, o: ObjId): State
    requires o in s.objs && s.objs[o].phase.TakingRelease? && SourcePresent(s, o)
  {
    var obj := s.objs[o];
    var src := obj.phase.src;
    var taken := s.objs[src].release;
    s.(claim := if taken.Some? then s.claim[taken.value.closure.id := o] else s.claim,
       objs := s.objs[src := s.objs[src].(release := None, phase := Idle)][o := obj.(release := taken, phase := Idle)])
  }

  /** Executes the pending statement of the call in flight on object `o`. */
  function Advanced(s: State, o: ObjId): State
    requires o in s.objs && SourcePresent(s, o)
  {
    match s.objs[o].phase
    case Closing(_) => CloseNative(s, o)
    case Releasing(_) => RunRelease(s, o)
    case Clearing(_) => ClearRelease(s, o)
    case Adopting(_) => Adopt(s, o)
    case TakingRelease(_) => TakeRelease(s, o)
    case Idle => s
    case Lent(_) => s
  }

  /** `state->callbacks[token.get()] = token` under the lock. */
  function InsertToken(s: State, id: Id): State
    requires id in s.calls
  {
    var l := s.calls[id].link;
    s.(regs := if l.reg in s.regs then s.regs[l.reg := s.regs[l.reg][l.key := l.closure]] else s.regs,
       calls := s.calls[id := s.calls[id].(progress := Inserted)])
  }

  /** `do_subscribe(&raw, &async_msg_callback, token.get())`: from here on nats.c may deliver. */
  function SubscribeNatively(s: State, id: Id, n: SubId, ok: bool): State
    requires id in s.calls
  {
    if ok then
      s.(subs := s.subs[n := Some(s.calls[id].link)], holder := s.holder[n := InCall(id)],
         calls := s.calls[id := s.calls[id].(progress := Subscribed(n))])
    else s.(calls := s.calls[id := s.calls[id].(progress := Refused)])
  }

  /** `return subscription{raw, [state = std::weak_ptr(state), key = token.get()] {...}}` */
  function ReturnSubscription(s: State, id: Id, o: ObjId): State
    requires id in s.calls && s.calls[id].progress.Subscribed?
  {
    var n := s.calls[id].progress.sub;
    s.(objs := s.objs[o := Obj(Some(n), Some(s.calls[id].link), Idle)], calls := s.calls - {id},
       claim := s.claim[id := o], holder := s.holder[n := InObj(o)])
  }

  /** The failed registration erases its own entry and throws. */
  function RollBack(s: State, id: Id): State
    requires id in s.calls
  {
    s.(regs := Erase(s.regs, s.calls[id].link.reg, s.calls[id].link.key), calls := s.calls - {id})
  }

  /** The move constructor takes `sub_` first; `on_release_` follows in a later step. */
  function StartMoveConstruct(s: State, dst: ObjId, src: ObjId): State
    requires src in s.objs
  {
    var taken := s.objs[src].sub;
    s.(objs := s.objs[src := s.objs[src].(sub := None, phase := Lent(dst))][dst := Obj(taken, None, TakingRelease(src))],
       holder := if taken.Some? then s.holder[taken.value := InObj(dst)] else s.holder)
  }

  /** Move assignment releases the target's callback before it takes anything. */
  function StartMoveAssign(s: State, dst: ObjId, src: ObjId): State
    requires src in s.objs && dst in s.objs
  {
    s.(objs := s.objs[src := s.objs[src].(phase := Lent(dst))][dst := s.objs[dst].(phase := Releasing(TakeFrom(src)))])
  }

  function Apply(s: State, st: Step): State
    requires Enabled(s, st)
  {
    match st
    case NewConnection(c) =>
      s.(conns := s.conns[c := Some(s.nextReg)], regs := s.regs[s.nextReg := map[]], nextReg := s.nextReg + 1)
    case MoveConnection(dst, src) =>
      s.(conns := s.conns[dst := s.conns[src]][src := None])
    case AssignConnection(dst, src) =>
      if dst == src then s
      else s.(conns := s.conns[dst := s.conns[src]][src := None], regs := Without(s.regs, s.conns[dst]))
    case DropConnection(c) =>
      s.(conns := s.conns - {c}, regs := Without(s.regs, s.conns[c]))
    case NewSubscription(o, n) =>
      s.(subs := if n.Some? then s.subs[n.value := None] else s.subs,
         holder := if n.Some? then s.holder[n.value := InObj(o)] else s.holder,
         objs := s.objs[o := Obj(n, None, Idle)])
    case StartRegister(c, a, h) =>
      s.(calls := s.calls[s.nextId := Call(c, Link(s.conns[c].value, a, Closure(s.nextId, h)), MadeToken)],
         nextId := s.nextId + 1)
    case Insert(id) => InsertToken(s, id)
    case NativeSubscribe(id, n, ok) => SubscribeNatively(s, id, n, ok)
    case Rollback(id) => RollBack(s, id)
    case Construct(id, o) => ReturnSubscription(s, id, o)
    case Unsubscribe(o, ok) =>
      if s.objs[o].sub.Some? && ok then s.(objs := s.objs[o := s.objs[o].(phase := Closing(ToCaller))]) else s
    case Destroy(o) =>
      s.(objs := s.objs[o := s.objs[o].(phase := Closing(Die))])
    case MoveConstruct(dst, src) => StartMoveConstruct(s, dst, src)
    case MoveAssign(dst, src) => if dst == src then s else StartMoveAssign(s, dst, src)
    case Advance(o) => Advanced(s, o)
  }

  // ---------------------------------------------------------------- runs

  /** `steps` can be taken one after another from `s`. */
  ghost predicate Runs(s: State, steps: seq<Step>)
    decreases |steps|
  {
    steps == [] || (Enabled(s, steps[0]) && Runs(Apply(s, steps[0]), steps[1..]))
  }

  ghost function EndOf(s: State, steps: seq<Step>): State
    requires Runs(s, steps)
    decreases |steps|
  {
    if steps == [] then s else EndOf(Apply(s, steps[0]), steps[1..])
  }

  /** What a step does to the maps and to nats.c, for telling in which order a call does it. */
  datatype Event =
    | TokenInserted(l: Link)
    | NativelySubscribed(n: SubId, l: Link)
    | NativelyRefused(l: Link)
    | TokenErased(l: Link)            // by a rollback or by a release lambda
    | NativelyDestroyed(n: SubId)

  function Destroying(sub: Option<SubId>): seq<Event> {
    if sub.Some? then [NativelyDestroyed(sub.value)] else []
  }

  function Erasing(release: Option<Link>): seq<Event> {
    if release.Some? then [TokenErased(release.value)] else []
  }

  ghost function Emits(s: State, st: Step): seq<Event>
    requires Enabled(s, st)
  {
    match st
    case Insert(id) => [TokenInserted(s.calls[id].link)]
    case NativeSubscribe(id, n, ok) => [if ok then NativelySubscribed(n, s.calls[id].link) else NativelyRefused(s.calls[id].link)]
    case Rollback(id) => [TokenErased(s.calls[id].link)]
    case Advance(o) =>
      (match s.objs[o].phase
       case Closing(_) => Destroying(s.objs[o].sub)
       case Adopting(_) => Destroying(s.objs[o].sub)
       case Releasing(_) => Erasing(s.objs[o].release)
       case _ => [])
    case _ => []
  }

  ghost function Events(s: State, steps: seq<Step>): seq<Event>
    requires Runs(s, steps)
    decreases |steps|
  {
    if steps == [] then [] else Emits(s, steps[0]) + Events(Apply(s, steps[0]), steps[1..])
  }

  lemma {:induction false} RunCons(s: State, st: Step, rest: seq<Step>)
    requires Enabled(s, st) && Runs(Apply(s, st), rest)
    ensures Runs(s, [st] + rest) && EndOf(s, [st] + rest) == EndOf(Apply(s, st), rest)
    ensures Events(s, [st] + rest) == Emits(s, st) + Events(Apply(s, st), rest)
  {
    assert ([st] + rest)[1..] == rest;
  }

  lemma {:induction false} RunAppend(s: State, steps: seq<Step>, more: seq<Step>)
    requires Runs(s, steps) && Runs(EndOf(s, steps), more)
    ensures Runs(s, steps + more) && EndOf(s, steps + more) == EndOf(EndOf(s, steps), more)
    decreases |steps|
  {
    if steps == [] {
      assert steps + more == more;
    } else {
      var t := Apply(s, steps[0]);
      RunAppend(t, steps[1..], more);
      ConsAppend(s, t, steps, more);
    }
  }

  lemma {:induction false} EventsAppend(s: State, steps: seq<Step>, more: seq<Step>)
    requires Runs(s, steps) && Runs(EndOf(s, steps), more) && Runs(s, steps + more)
    ensures Events(s, steps + more) == Events(s, steps) + Events(EndOf(s, steps), more)
    decreases |steps|
  {
    if steps == [] {
      assert steps + more == more;
    } else {
      var t := Apply(s, steps[0]);
      assert (steps + more)[1..] == steps[1..] + more;
      EventsAppend(t, steps[1..], more);
    }
  }

  lemma {:induction false} ConsAppend(s: State, t: State, steps: seq<Step>, more: seq<Step>)
    requires steps != [] && Enabled(s, steps[0]) && t == Apply(s, steps[0]) && Runs(t, steps[1..] + more)
    ensures Runs(s, steps + more) && EndOf(s, steps + more) == EndOf(t, steps[1..] + more)
    ensures Events(s, steps + more) == Emits(s, steps[0]) + Events(t, steps[1..] + more)
  {
    RunCons(s, steps[0], steps[1..] + more);
    assert [steps[0]] + (steps[1..] + more) == steps + more;
  }

  // ---------------------------------------------------------------- the invariant

  /** The map of a live registry holds exactly the closure of `l` under its key. */
  predicate Entry(s: State, l: Link) {
    l.reg in s.regs && l.key in s.regs[l.reg] && s.regs[l.reg][l.key] == l.closure
  }

  /** Every closure nats.c may dereference is still kept alive by the map it was inserted into. */
  ghost predicate DeliverySafe(s: State) {
    forall n :: n in s.subs && s.subs[n].Some? ==> Entry(s, s.subs[n].value)
  }

  function LinkOf(s: State, sub: Option<SubId>): Option<Link> {
    if sub.Some? && sub.value in s.subs then s.subs[sub.value] else None
  }

  ghost predicate Numbered(s: State) {
    && (forall r :: r in s.regs ==> r < s.nextReg)
    && (forall id :: id in s.calls ==> id < s.nextId)
    && (forall id :: id in s.claim ==> id < s.nextId)
    && (forall id :: id in s.released ==> id < s.nextId)
    && (forall o :: o in s.objs && s.objs[o].release.Some? ==> s.objs[o].release.value.reg < s.nextReg)
  }

  /** Each connection object that was not moved from owns a live registry of its own. */
  ghost predicate ConnsOk(s: State) {
    && (forall c :: c in s.conns && s.conns[c].Some? ==> s.conns[c].value in s.regs)
    && (forall c, d :: c in s.conns && d in s.conns && s.conns[c].Some? && s.conns[c] == s.conns[d] ==> c == d)
  }

  /** No two live closures share an address. */
  ghost predicate Exclusive(s: State) {
    && (forall id, r :: id in s.calls && s.calls[id].progress.MadeToken? && r in s.regs ==> s.calls[id].link.key !in s.regs[r])
    && (forall i, j :: i in s.calls && j in s.calls && s.calls[i].link.key == s.calls[j].link.key ==> i == j)
    && (forall r, q, a :: r in s.regs && q in s.regs && a in s.regs[r] && a in s.regs[q] ==> r == q)
  }

  /** Registrations in flight: the token is in the map from the insertion until the call ends. */
  ghost predicate CallsOk(s: State) {
    forall id :: id in s.calls ==>
      && s.calls[id].link.closure.id == id
      && id !in s.claim && id !in s.released
      && s.calls[id].conn in s.conns && s.conns[s.calls[id].conn] == Some(s.calls[id].link.reg)
      && (!s.calls[id].progress.MadeToken? ==> Entry(s, s.calls[id].link))
  }

  /** Each map entry belongs to a registration in flight or to the object whose release is due. */
  predicate Owned(s: State, l: Link) {
    var id := l.closure.id;
    || (id in s.calls && s.calls[id].link == l)
    || (id in s.claim && s.claim[id] in s.objs && s.objs[s.claim[id]].release == Some(l))
  }

  ghost predicate EntriesOk(s: State) {
    forall r, a :: r in s.regs && a in s.regs[r] ==> Owned(s, Link(r, a, s.regs[r][a]))
  }

  ghost predicate ReleasesOk(s: State) {
    && (forall o :: o in s.objs && s.objs[o].release.Some? && !s.objs[o].phase.Clearing? ==>
          var l := s.objs[o].release.value;
          && l.closure.id in s.claim && s.claim[l.closure.id] == o
          && (l.reg in s.regs ==> Entry(s, l)))
    && (forall id :: id in s.claim ==>
          && id !in s.released
          && s.claim[id] in s.objs && s.objs[s.claim[id]].release.Some?
          && s.objs[s.claim[id]].release.value.closure.id == id
          && !s.objs[s.claim[id]].phase.Clearing?)
  }

  ghost predicate HandlesOk(s: State) {
    && s.holder.Keys == s.subs.Keys
    && (forall o :: o in s.objs && s.objs[o].sub.Some? ==>
          s.objs[o].sub.value in s.holder && s.holder[s.objs[o].sub.value] == InObj(o))
    && (forall id :: id in s.calls && s.calls[id].progress.Subscribed? ==>
          var n := s.calls[id].progress.sub;
          n in s.holder && s.holder[n] == InCall(id) && s.subs[n] == Some(s.calls[id].link))
    && (forall n :: n in s.holder ==>
          match s.holder[n]
          case InObj(o) => o in s.objs && s.objs[o].sub == Some(n)
          case InCall(id) => id in s.calls && s.calls[id].progress == Subscribed(n))
  }

  ghost predicate PhaseOk(s: State, o: ObjId)
    requires o in s.objs
  {
    var obj := s.objs[o];
    && (Source(obj.phase).Some? ==>
          var src := Source(obj.phase).value;
          src != o && src in s.objs && s.objs[src].phase == Lent(o))
    && match obj.phase
       case Idle => obj.release == LinkOf(s, obj.sub)
       case Closing(after) => !after.TakeFrom? && obj.release == LinkOf(s, obj.sub)
       case Releasing(after) => if after.TakeFrom? then obj.release == LinkOf(s, obj.sub) else obj.sub.None?
       case Clearing(after) =>
         && (obj.release.Some? ==> obj.release.value.closure.id in s.released)
         && (if after.TakeFrom? then obj.release == LinkOf(s, obj.sub) else obj.sub.None?)
       case Adopting(src) =>
         && obj.release.None?
         && (LinkOf(s, obj.sub).Some? ==> LinkOf(s, obj.sub).value.closure.id in s.released)
       case TakingRelease(src) =>
         obj.release.None? && src in s.objs && s.objs[src].sub.None? && s.objs[src].release == LinkOf(s, obj.sub)
       case Lent(dst) =>
         && dst in s.objs && Source(s.objs[dst].phase) == Some(o)
         && (!s.objs[dst].phase.TakingRelease? ==> obj.release == LinkOf(s, obj.sub))
  }

  ghost predicate PhasesOk(s: State) {
    forall o :: o in s.objs ==> PhaseOk(s, o)
  }

  ghost predicate Addressed(s: State) {
    Numbered(s) && ConnsOk(s) && Exclusive(s)
  }

  /** What the maps, the registrations in flight and the pending release lambdas agree on. */
  ghost predicate Registered(s: State) {
    Addressed(s) && CallsOk(s) && EntriesOk(s) && ReleasesOk(s)
  }

  /** Who holds which native subscription, and what each call in flight has done so far. */
  ghost predicate Held(s: State) {
    HandlesOk(s) && PhasesOk(s)
  }

  ghost predicate Inv(s: State) {
    Registered(s) && Held(s)
  }
}
