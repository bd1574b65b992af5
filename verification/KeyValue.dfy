/**
 `key_value`: an object that owns two native handles, a JetStream context and a store made from it.

 The store must go before its context. The first half is the value side: native allocations, whole
 programs over any number of objects, and what they conserve. The second half is the class, with
 the failure paths of `create` and of the opening constructor statement by statement.
 */
module KeyValue {
  import opened Common
  import H = Handles
  import M = Messages

  type Ctx = int
  type Store = int
  type Slot = int

  datatype Dead = DeadStore(k: Store) | DeadCtx(c: Ctx)

  /** Native allocations; `made` are all contexts ever made, `parent` remembers the context every store
      was made from, `dead` the order of destruction. */
  datatype Heap = Heap(ctxs: set<Ctx>, stores: set<Store>, made: set<Ctx>, parent: map<Store, Ctx>, dead: seq<Dead>)

  const EMPTY := Heap({}, {}, {}, map[], [])

  function NewCtx(h: Heap, c: Ctx): Heap { h.(ctxs := h.ctxs + {c}, made := h.made + {c}) }

  function NewStore(h: Heap, k: Store, c: Ctx): Heap { h.(stores := h.stores + {k}, parent := h.parent[k := c]) }

  function DropStore(h: Heap, k: Option<Store>): Heap {
    if k.None? then h else h.(stores := h.stores - {k.value}, dead := h.dead + [DeadStore(k.value)])
  }

  function DropCtx(h: Heap, c: Option<Ctx>): Heap {
    if c.None? then h else h.(ctxs := h.ctxs - {c.value}, dead := h.dead + [DeadCtx(c.value)])
  }

  /** The two members of a `key_value`. */
  datatype Pair = Pair(ctx: Option<Ctx>, kv: Option<Store>)

  const NIL := Pair(None, None)

  /** `destroy_self()`. */
  function DropPair(h: Heap, p: Pair): Heap { DropCtx(DropStore(h, p.kv), p.ctx) }

  /** A never-used identity. */
  predicate FreshCtx(h: Heap, c: Ctx) { c !in h.made }

  predicate FreshStore(h: Heap, k: Store) { k !in h.parent }

  // ---------------------------------------------------------------- native order

  /** Every live store has a live context, dead and live are disjoint, nothing died twice, and no
      context died before a store made from it. */
  ghost predicate HeapOk(h: Heap) {
    && (forall k :: k in h.stores ==> k in h.parent && h.parent[k] in h.ctxs && DeadStore(k) !in h.dead)
    && (forall c :: c in h.ctxs ==> DeadCtx(c) !in h.dead)
    && (forall c :: c in h.made <==> c in h.ctxs || DeadCtx(c) in h.dead)
    && (forall k :: k in h.parent ==> h.parent[k] in h.made)
    && (forall k :: k in h.parent ==> k in h.stores || DeadStore(k) in h.dead)
    && (forall k :: DeadStore(k) in h.dead ==> k in h.parent)
    && (forall i, j :: 0 <= i < j < |h.dead| ==> h.dead[i] != h.dead[j])
    && StoresFirst(h)
  }

  ghost predicate StoresFirst(h: Heap) {
    forall i, k :: 0 <= i < |h.dead| && h.dead[i].DeadCtx? && k in h.parent && h.parent[k] == h.dead[i].c ==>
      DeadStore(k) in h.dead[..i]
  }

  /** `p` holds live handles: a store only together with the context it was made from, and no other
      live store depends on that context. */
  predicate Owns(h: Heap, p: Pair) {
    && (p.kv.Some? ==> p.ctx.Some? && p.kv.value in h.stores && p.kv.value in h.parent && h.parent[p.kv.value] == p.ctx.value)
    && (p.ctx.Some? ==> p.ctx.value in h.ctxs
                        && forall k :: k in h.stores && k in h.parent && h.parent[k] == p.ctx.value ==> p.kv == Some(k))
  }

  lemma {:induction false} DropStoreKeeps(h: Heap, k: Option<Store>)
    requires HeapOk(h) && (k.Some? ==> k.value in h.stores)
    ensures HeapOk(DropStore(h, k))
  {
    var t := DropStore(h, k);
    forall i, q | 0 <= i < |t.dead| && t.dead[i].DeadCtx? && q in t.parent && t.parent[q] == t.dead[i].c
      ensures DeadStore(q) in t.dead[..i]
    {
      assert i < |h.dead| && t.dead[..i] == h.dead[..i];
    }
  }

  lemma {:induction false} DropCtxKeeps(h: Heap, c: Option<Ctx>)
    requires HeapOk(h) && (c.Some? ==> c.value in h.ctxs && forall k :: k in h.stores ==> h.parent[k] != c.value)
    ensures HeapOk(DropCtx(h, c))
  {
    var t := DropCtx(h, c);
    forall i, q | 0 <= i < |t.dead| && t.dead[i].DeadCtx? && q in t.parent && t.parent[q] == t.dead[i].c
      ensures DeadStore(q) in t.dead[..i]
    {
      assert t.dead[..i] == h.dead[..i];
      if i == |h.dead| {
        assert h.dead[..i] == h.dead;
        assert DeadStore(q) in h.dead;
      }
    }
  }

  /** Destroying the members of an object keeps the order; both handles are gone afterwards. */
  lemma {:induction false} DropPairKeeps(h: Heap, p: Pair)
    requires HeapOk(h) && Owns(h, p)
    ensures HeapOk(DropPair(h, p))
    ensures p.kv.Some? ==> p.kv.value !in DropPair(h, p).stores
    ensures p.ctx.Some? ==> p.ctx.value !in DropPair(h, p).ctxs
    ensures DropPair(h, p).dead == h.dead + (if p.kv.Some? then [DeadStore(p.kv.value)] else [])
                                          + (if p.ctx.Some? then [DeadCtx(p.ctx.value)] else [])
    ensures DropPair(h, p).made == h.made && DropPair(h, p).parent == h.parent
  {
    DropStoreKeeps(h, p.kv);
    DropCtxKeeps(DropStore(h, p.kv), p.ctx);
  }

  // ---------------------------------------------------------------- programs

  /** How far `create` or the opening constructor gets. */
  datatype Outcome = NoContext | NoConfig | NoStore | Created

  datatype State = State(objs: map<Slot, Pair>, heap: Heap)

  const INIT := State(map[], EMPTY)

  datatype Step =
    | Create(x: Slot, c: Ctx, k: Store, outcome: Outcome)     // also the opening constructor
    | DeleteBucket(c: Ctx, outcome: Outcome)
    | MoveConstruct(dst: Slot, src: Slot)
    | MoveAssign(dst: Slot, src: Slot)
    | Destroy(x: Slot)

  predicate Enabled(s: State, st: Step) {
    match st
    case Create(x, c, k, _) => x !in s.objs && FreshCtx(s.heap, c) && FreshStore(s.heap, k)
    case DeleteBucket(c, _) => FreshCtx(s.heap, c)
    case MoveConstruct(dst, src) => dst !in s.objs && src in s.objs
    case MoveAssign(dst, src) => dst in s.objs && src in s.objs
    case Destroy(x) => x in s.objs
  }

  /** What an attempt that stops at `outcome` leaves allocated and destroyed. */
  function Attempt(h: Heap, c: Ctx, k: Store, outcome: Outcome): Heap {
    match outcome
    case NoContext => h
    case Created => NewStore(NewCtx(h, c), k, c)
    case _ => DropCtx(NewCtx(h, c), Some(c))
  }

  function Apply(s: State, st: Step): State
    requires Enabled(s, st)
  {
    match st
    case Create(x, c, k, outcome) =>
      State(if outcome.Created? then s.objs[x := Pair(Some(c), Some(k))] else s.objs, Attempt(s.heap, c, k, outcome))
    case DeleteBucket(c, outcome) => s.(heap := if outcome.NoContext? then s.heap else DropCtx(NewCtx(s.heap, c), Some(c)))
    case MoveConstruct(dst, src) => s.(objs := s.objs[src := NIL][dst := s.objs[src]])
    case MoveAssign(dst, src) =>
      if dst == src then s
      else State(s.objs[src := NIL][dst := s.objs[src]], DropPair(s.heap, s.objs[dst]))
    case Destroy(x) => State(s.objs - {x}, DropPair(s.heap, s.objs[x]))
  }

  /** Each live handle is owned by exactly one object, and each object owns what it holds. */
  ghost predicate Inv(s: State) {
    && HeapOk(s.heap)
    && (forall x :: x in s.objs ==> Owns(s.heap, s.objs[x]))
    && (forall x, y :: x in s.objs && y in s.objs && s.objs[x].ctx.Some? && s.objs[x].ctx == s.objs[y].ctx ==> x == y)
    && (forall c :: c in s.heap.ctxs ==> exists x :: Has(s, x, c))
  }

  predicate Has(s: State, x: Slot, c: Ctx) { x in s.objs && s.objs[x].ctx == Some(c) }

  lemma {:induction false} AttemptKeeps(h: Heap, c: Ctx, k: Store, outcome: Outcome)
    requires HeapOk(h) && FreshCtx(h, c) && FreshStore(h, k)
    ensures HeapOk(Attempt(h, c, k, outcome))
    ensures outcome.Created? ==> Owns(Attempt(h, c, k, outcome), Pair(Some(c), Some(k)))
    ensures !outcome.Created? ==> Attempt(h, c, k, outcome).ctxs == h.ctxs && Attempt(h, c, k, outcome).stores == h.stores
  {
    var m := NewCtx(h, c);
    assert HeapOk(m);
    if outcome.Created? {
      assert StoresFirst(NewStore(m, k, c));
    } else {
      DropCtxKeeps(m, Some(c));
    }
  }

  lemma {:induction false} StepKeepsInv(s: State, st: Step)
    requires Inv(s) && Enabled(s, st)
    ensures Inv(Apply(s, st))
  {
    match st
    case Create(x, c, k, outcome) => CreateKeepsInv(s, x, c, k, outcome);
    case DeleteBucket(c, outcome) => DeleteKeepsInv(s, c, outcome);
    case MoveConstruct(dst, src) => MoveKeepsInv(s, dst, src);
    case MoveAssign(dst, src) => if dst != src { AssignKeepsInv(s, dst, src); }
    case Destroy(x) => DestroyKeepsInv(s, x);
  }

  lemma {:induction false} CreateKeepsInv(s: State, x: Slot, c: Ctx, k: Store, outcome: Outcome)
    requires Inv(s) && Enabled(s, Create(x, c, k, outcome))
    ensures Inv(Apply(s, Create(x, c, k, outcome)))
  {
    var t := Apply(s, Create(x, c, k, outcome));
    AttemptKeeps(s.heap, c, k, outcome);
    forall d | d in t.heap.ctxs ensures exists y :: Has(t, y, d) {
      if d == c { assert Has(t, x, c); } else { var y :| Has(s, y, d); assert Has(t, y, d); }
    }
  }

  lemma {:induction false} DeleteKeepsInv(s: State, c: Ctx, outcome: Outcome)
    requires Inv(s) && Enabled(s, DeleteBucket(c, outcome))
    ensures Inv(Apply(s, DeleteBucket(c, outcome)))
  {
    var t := Apply(s, DeleteBucket(c, outcome));
    if !outcome.NoContext? { DropCtxKeeps(NewCtx(s.heap, c), Some(c)); }
    forall d | d in t.heap.ctxs ensures exists y :: Has(t, y, d) {
      var y :| Has(s, y, d);
      assert Has(t, y, d);
    }
  }

  lemma {:induction false} MoveKeepsInv(s: State, dst: Slot, src: Slot)
    requires Inv(s) && dst !in s.objs && src in s.objs
    ensures Inv(Apply(s, MoveConstruct(dst, src)))
  {
    var t := Apply(s, MoveConstruct(dst, src));
    forall d | d in t.heap.ctxs ensures exists y :: Has(t, y, d) {
      var y :| Has(s, y, d);
      assert Has(t, if y == src then dst else y, d);
    }
  }

  lemma {:induction false} AssignKeepsInv(s: State, dst: Slot, src: Slot)
    requires Inv(s) && dst in s.objs && src in s.objs && dst != src
    ensures Inv(State(s.objs[src := NIL][dst := s.objs[src]], DropPair(s.heap, s.objs[dst])))
  {
    var r := State(s.objs[dst := NIL], DropPair(s.heap, s.objs[dst]));
    ResetKeepsInv(s, dst);
    var t := State(r.objs[src := NIL][dst := r.objs[src]], r.heap);
    assert t.objs == s.objs[src := NIL][dst := s.objs[src]];
    forall d | d in t.heap.ctxs ensures exists y :: Has(t, y, d) {
      var y :| Has(r, y, d);
      assert Has(t, if y == src then dst else y, d);
    }
  }

  /** Destroying what one object holds. */
  lemma {:induction false} ResetKeepsInv(s: State, x: Slot)
    requires Inv(s) && x in s.objs
    ensures Inv(State(s.objs[x := NIL], DropPair(s.heap, s.objs[x])))
  {
    var t := State(s.objs[x := NIL], DropPair(s.heap, s.objs[x]));
    DropPairKeeps(s.heap, s.objs[x]);
    forall d | d in t.heap.ctxs ensures exists y :: Has(t, y, d) {
      var y :| Has(s, y, d);
      assert Has(t, y, d);
    }
  }

  lemma {:induction false} DestroyKeepsInv(s: State, x: Slot)
    requires Inv(s) && x in s.objs
    ensures Inv(State(s.objs - {x}, DropPair(s.heap, s.objs[x])))
  {
    var t := State(s.objs - {x}, DropPair(s.heap, s.objs[x]));
    DropPairKeeps(s.heap, s.objs[x]);
    forall d | d in t.heap.ctxs ensures exists y :: Has(t, y, d) {
      var y :| Has(s, y, d);
      assert Has(t, y, d);
    }
  }

  ghost predicate Runs(s: State, steps: seq<Step>)
    decreases |steps|
  {
    steps == [] || (Enabled(s, steps[0]) && Runs(Apply(s, steps[0]), steps[1..]))
  }

  ghost function EndOf(s: State, steps: seq<Step>): State
    requires Runs(s, steps)
    decreases |steps|
  {
    if steps == [] then s else EndOf(Apply(s, steps[0]), steps[1..])
  }

  lemma {:induction false} RunsKeepInv(s: State, steps: seq<Step>)
    requires Inv(s) && Runs(s, steps)
    ensures Inv(EndOf(s, steps))
    decreases |steps|
  {
    if steps != [] {
      StepKeepsInv(s, steps[0]);
      RunsKeepInv(Apply(s, steps[0]), steps[1..]);
    }
  }

  /** What object `x` holds. */
  function At(s: State, x: Slot): Pair { if x in s.objs then s.objs[x] else NIL }

  ghost predicate OthersSame(s: State, t: State, xs: set<Slot>) {
    forall x :: x !in xs ==> (x in t.objs <==> x in s.objs) && At(t, x) == At(s, x)
  }

  /** Moves hand both handles over; what the target of an assignment held is destroyed, store first;
      onto itself nothing happens; a destructor destroys what the object held. */
  lemma {:induction false} StepsLeave(s: State, dst: Slot, src: Slot)
    requires src in s.objs && dst != src
    ensures
      dst !in s.objs ==>
        var t := Apply(s, MoveConstruct(dst, src));
        && dst in t.objs && At(t, dst) == At(s, src) && src in t.objs && At(t, src) == NIL
        && OthersSame(s, t, {dst, src}) && t.heap == s.heap
    ensures
      dst in s.objs ==>
        var t := Apply(s, MoveAssign(dst, src));
        && dst in t.objs && At(t, dst) == At(s, src) && src in t.objs && At(t, src) == NIL
        && OthersSame(s, t, {dst, src}) && Dropped(s.heap, t.heap, At(s, dst))
    ensures Apply(s, MoveAssign(src, src)) == s
    ensures
      var t := Apply(s, Destroy(src));
      src !in t.objs && OthersSame(s, t, {src}) && Dropped(s.heap, t.heap, At(s, src))
  {
  }

  /** Exactly the handles of `p` went, store first. */
  ghost predicate Dropped(h: Heap, t: Heap, p: Pair) {
    && t.dead == h.dead + (if p.kv.Some? then [DeadStore(p.kv.value)] else []) + (if p.ctx.Some? then [DeadCtx(p.ctx.value)] else [])
    && t.stores == h.stores - (if p.kv.Some? then {p.kv.value} else {})
    && t.ctxs == h.ctxs - (if p.ctx.Some? then {p.ctx.value} else {})
  }

  /** A successful `create` leaves both handles in the new object; a failed one, or deleting a bucket,
      leaves no object and only a dead context, if it got that far. */
  lemma {:induction false} MakingLeaves(s: State, x: Slot, c: Ctx, k: Store, outcome: Outcome)
    requires Inv(s) && x !in s.objs && FreshCtx(s.heap, c) && FreshStore(s.heap, k)
    ensures
      var t := Apply(s, Create(x, c, k, outcome));
      && OthersSame(s, t, {x}) && (x in t.objs <==> outcome.Created?)
      && (outcome.Created? ==>
            At(t, x) == Pair(Some(c), Some(k)) && t.heap.ctxs == s.heap.ctxs + {c} && t.heap.stores == s.heap.stores + {k}
            && k in t.heap.parent && t.heap.parent[k] == c && t.heap.dead == s.heap.dead)
      && (!outcome.Created? ==>
            t.heap.ctxs == s.heap.ctxs && t.heap.stores == s.heap.stores
            && t.heap.dead == s.heap.dead + if outcome.NoContext? then [] else [DeadCtx(c)])
    ensures
      var t := Apply(s, DeleteBucket(c, outcome));
      && t.objs == s.objs && t.heap.ctxs == s.heap.ctxs && t.heap.stores == s.heap.stores
      && t.heap.dead == s.heap.dead + if outcome.NoContext? then [] else [DeadCtx(c)]
  {
    assert c !in s.heap.ctxs;
    assert s.heap.ctxs + {c} - {c} == s.heap.ctxs;
  }

  /** Nothing is allocated; every store and every context ever made was destroyed. */
  ghost predicate AllDead(h: Heap) {
    && h.ctxs == {} && h.stores == {}
    && (forall k :: k in h.parent ==> DeadStore(k) in h.dead && DeadCtx(h.parent[k]) in h.dead)
    && (forall c :: c in h.made ==> DeadCtx(c) in h.dead)
  }

  /** Over every program, failures anywhere included: an object with a store has its context; a store
      is destroyed before the context it was made from; nothing is destroyed twice; and once every
      object is gone, so is every context and every store ever made. */
  lemma {:induction false} Lifecycle(steps: seq<Step>)
    requires Runs(INIT, steps)
    ensures
      var s := EndOf(INIT, steps);
      && (forall x :: x in s.objs && s.objs[x].kv.Some? ==> s.objs[x].ctx.Some?)
      && StoresFirst(s.heap)
      && (forall i, j :: 0 <= i < j < |s.heap.dead| ==> s.heap.dead[i] != s.heap.dead[j])
      && (s.objs == map[] ==> AllDead(s.heap))
  {
    RunsKeepInv(INIT, steps);
    var s := EndOf(INIT, steps);
    assert forall k :: k in s.heap.stores ==> s.heap.parent[k] in s.heap.ctxs;
    if s.objs == map[] {
      assert forall x :: x !in s.objs;
      assert forall c :: c in s.heap.ctxs ==> exists x :: Has(s, x, c);
      assert s.heap.ctxs == {};
      assert forall k :: k !in s.heap.stores;
      assert s.heap.stores == {};
    }
  }

  // ---------------------------------------------------------------- the class

  class Nats {
    var heap: Heap

    constructor ()
      ensures heap == EMPTY
    {
      heap := EMPTY;
    }

    /** kvStore_Destroy. */
    method DestroyStore(k: Option<Store>)
      requires k.Some? ==> k.value in heap.stores
      modifies this
      ensures heap == DropStore(old(heap), k)
    {
      heap := DropStore(heap, k);
    }

    /** jsCtx_Destroy: no store made from the context may be left. */
    method DestroyCtx(c: Option<Ctx>)
      requires c.Some? ==> c.value in heap.ctxs && forall k :: k in heap.stores && k in heap.parent ==> heap.parent[k] != c.value
      modifies this
      ensures heap == DropCtx(old(heap), c)
    {
      heap := DropCtx(heap, c);
    }
  }

  class KeyValueStore {
    var ctx: Option<Ctx>
    var kv: Option<Store>

    constructor ()
      ensures Members() == NIL
    {
      ctx, kv := None, None;
    }

    function Members(): Pair
      reads this
    {
      Pair(ctx, kv)
    }

    /** `destroy_self()`: store, then context; a second call finds nothing left to do. */
    method DestroySelf(nats: Nats)
      requires Owns(nats.heap, Members())
      modifies this, nats
      ensures Members() == NIL && nats.heap == DropPair(old(nats.heap), old(Members()))
    {
      nats.DestroyStore(kv);
      kv := None;
      nats.DestroyCtx(ctx);
      ctx := None;
    }

    /** `create(conn, config)`. An exception destroys the local object; when making the store fails,
        the catch block has destroyed its members before. */
    static method Create(nats: Nats, c: Ctx, k: Store, outcome: Outcome) returns (status: Status, result: KeyValueStore?)
      requires HeapOk(nats.heap) && FreshCtx(nats.heap, c) && FreshStore(nats.heap, k)
      modifies nats
      ensures nats.heap == Attempt(old(nats.heap), c, k, outcome)
      ensures status.Ok? <==> outcome.Created?
      ensures status.Failed? ==> result == null
      ensures status.Ok? ==> result != null && fresh(result) && result.Members() == Pair(Some(c), Some(k))
    {
      var out := new KeyValueStore();
      if outcome.NoContext? {
        out.DestroySelf(nats);
        return Failed(0), null;
      }
      out.ctx, nats.heap := Some(c), NewCtx(nats.heap, c);
      if outcome.NoConfig? {
        out.DestroySelf(nats);
        return Failed(0), null;
      }
      if outcome.NoStore? {
        out.DestroySelf(nats);      // catch (...)
        out.DestroySelf(nats);      // the destructor of `out` during unwinding
        return Failed(0), null;
      }
      out.kv, nats.heap := Some(k), NewStore(nats.heap, k, c);
      return Ok, out;
    }

    /** `key_value(conn, bucket)`: a constructor that throws runs no destructor, so the context is
        destroyed by hand. There is no configuration to fail. */
    static method Open(nats: Nats, c: Ctx, k: Store, outcome: Outcome) returns (status: Status, result: KeyValueStore?)
      requires HeapOk(nats.heap) && FreshCtx(nats.heap, c) && FreshStore(nats.heap, k) && !outcome.NoConfig?
      modifies nats
      ensures nats.heap == Attempt(old(nats.heap), c, k, outcome)
      ensures status.Ok? <==> outcome.Created?
      ensures status.Failed? ==> result == null
      ensures status.Ok? ==> result != null && fresh(result) && result.Members() == Pair(Some(c), Some(k))
    {
      var self := new KeyValueStore();
      if outcome.NoContext? {
        return Failed(0), null;
      }
      self.ctx, nats.heap := Some(c), NewCtx(nats.heap, c);
      if outcome.NoStore? {
        nats.DestroyCtx(self.ctx);
        self.ctx := None;
        return Failed(0), null;
      }
      self.kv, nats.heap := Some(k), NewStore(nats.heap, k, c);
      return Ok, self;
    }

    /** `delete_bucket`: the temporary context is destroyed on both paths. */
    static method DeleteBucket(nats: Nats, c: Ctx, outcome: Outcome) returns (status: Status)
      requires HeapOk(nats.heap) && FreshCtx(nats.heap, c)
      modifies nats
      ensures nats.heap == if outcome.NoContext? then old(nats.heap) else DropCtx(NewCtx(old(nats.heap), c), Some(c))
      ensures status.Ok? <==> outcome.Created?
    {
      if outcome.NoContext? {
        return Failed(0);
      }
      nats.heap := NewCtx(nats.heap, c);
      if !outcome.Created? {
        nats.DestroyCtx(Some(c));
        return Failed(0);
      }
      nats.DestroyCtx(Some(c));
      return Ok;
    }

    constructor Move(other: KeyValueStore)
      modifies other
      ensures Members() == old(other.Members()) && other.Members() == NIL
    {
      ctx, kv := other.ctx, other.kv;
      new;
      other.ctx := None;
      other.kv := None;
    }

    method MoveAssign(other: KeyValueStore, nats: Nats)
      requires Owns(nats.heap, Members())
      modifies this, other, nats
      ensures this == other ==> Members() == old(Members()) && nats.heap == old(nats.heap)
      ensures this != other ==>
                && Members() == old(other.Members()) && other.Members() == NIL
                && nats.heap == DropPair(old(nats.heap), old(Members()))
    {
      if this != other {
        DestroySelf(nats);
        ctx := other.ctx;
        kv := other.kv;
        other.ctx := None;
        other.kv := None;
      }
    }

    /** `history()`: entries are handed over as messages are by `fetch`. */
    method History(fetched: Status, list: array<Option<H.Handle>>, reserved: bool, entries: M.Nats)
      returns (status: Status, out: seq<Option<H.Handle>>)
      requires H.Distinct(entries.heap, list[..])
      modifies list, entries
      ensures status == (if kv.None? then Failed(M.INVALID_ARG) else if fetched.Failed? then fetched
                         else if reserved then Ok else Failed(M.NO_MEMORY))
      ensures kv.None? || fetched.Failed? ==> out == [] && entries.heap == old(entries.heap)
      ensures status.Ok? ==> out == old(list[..]) && entries.heap == old(entries.heap)
      ensures kv.Some? && fetched.Ok? && !reserved ==> out == [] && entries.heap == H.DropAll(old(entries.heap), old(list[..]))
    {
      if kv.None? {
        return Failed(M.INVALID_ARG), [];
      }
      if fetched.Failed? {
        return fetched, [];
      }
      status, out := M.TakeAll(list, reserved, entries);
    }
  }
}
