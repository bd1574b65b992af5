/**
 The `subscription` and `connection` objects as the program has them: fields changed in place, one
 statement at a time. Every method says what the fields hold afterwards, that a run of the registry
 machine ends in the same state, and that nats.c and the map saw the same events in the same order
 as in that run. The completion callbacks are ordered by what each primitive demands: nats.c is
 only given a callback the map holds, and the map never drops the one nats.c has.
 */
module SubscriptionObject {
  import opened Common
  import R = Registry
  import Calls = RegistryCalls
  import C = Completion

  /** What nats.c keeps about live subscriptions: the closure of each, and its completion callback. */
  class Nats {
    var subs: map<R.SubId, Option<R.Link>>
    var onComplete: map<R.SubId, C.Token>
    ghost var log: seq<R.Event>     // what happened to the maps and to nats.c, in order

    constructor ()
      ensures subs == map[] && onComplete == map[] && log == []
    {
      subs, onComplete, log := map[], map[], [];
    }

    /** natsConnection_Subscribe and its variants. */
    method Subscribe(n: R.SubId, l: R.Link, outcome: Status)
      requires n !in subs
      modifies this`subs, this`log
      ensures subs == if outcome.Ok? then old(subs)[n := Some(l)] else old(subs)
      ensures log == old(log) + [if outcome.Ok? then R.NativelySubscribed(n, l) else R.NativelyRefused(l)]
    {
      if outcome.Ok? {
        subs := subs[n := Some(l)];
      }
      log := log + [if outcome.Ok? then R.NativelySubscribed(n, l) else R.NativelyRefused(l)];
    }

    /** natsSubscription_SetOnCompleteCB: a failure keeps the old callback. From here on nats.c may
        invoke the token, so its owner must keep it. */
    method SetOnComplete(owner: Subscription, token: C.Token, outcome: Status)
      requires owner.sub.Some? && C.Holds(owner.completions, token)
      modifies this`onComplete
      ensures onComplete == if outcome.Ok? then old(onComplete)[owner.sub.value := token] else old(onComplete)
    {
      if outcome.Ok? {
        onComplete := onComplete[owner.sub.value := token];
      }
    }

    /** natsSubscription_Destroy: no delivery starts or is still running once it returns. */
    method DestroySubscription(n: R.SubId)
      requires n in subs
      modifies this
      ensures subs == old(subs) - {n} && onComplete == old(onComplete) - {n}
      ensures log == old(log) + [R.NativelyDestroyed(n)]
    {
      subs, onComplete := subs - {n}, onComplete - {n};
      log := log + [R.NativelyDestroyed(n)];
    }
  }

  /** The block a `connection` shares with the release lambdas of its subscriptions. `owned` says
      whether a shared_ptr still holds it, which is what locking a weak_ptr finds out. */
  class CallbackState {
    const id: R.RegId
    var callbacks: map<R.Addr, R.Closure>
    var owned: bool

    constructor (id: R.RegId)
      ensures this.id == id && callbacks == map[] && owned
    {
      this.id := id;
      callbacks, owned := map[], true;
    }

    /** `callbacks[token.get()] = token`, under the lock. */
    method Insert(l: R.Link, nats: Nats)
      modifies this`callbacks, nats`log
      ensures callbacks == old(callbacks)[l.key := l.closure]
      ensures nats.log == old(nats.log) + [R.TokenInserted(l)]
    {
      callbacks := callbacks[l.key := l.closure];
      nats.log := nats.log + [R.TokenInserted(l)];
    }

    /** `callbacks.erase(key)` under the lock, unless the block is gone. */
    method Erase(l: R.Link, nats: Nats)
      modifies this`callbacks, nats`log
      ensures callbacks == if owned then old(callbacks) - {l.key} else old(callbacks)
      ensures nats.log == old(nats.log) + [R.TokenErased(l)]
    {
      if owned {
        callbacks := callbacks - {l.key};
      }
      nats.log := nats.log + [R.TokenErased(l)];
    }

    /** The machine's registry `id` is this block. */
    ghost predicate Mirrors(w: R.State)
      reads this
    {
      && (owned <==> id in w.regs)
      && (owned ==> w.regs[id] == callbacks)
    }
  }

  /** The release lambda: a weak pointer and a key; the rest of `link` is history. */
  datatype ReleaseFn = ReleaseFn(state: CallbackState, link: R.Link)

  function LinkOf(f: Option<ReleaseFn>): Option<R.Link> {
    if f.None? then None else Some(f.value.link)
  }

  function BlockOf(f: Option<ReleaseFn>): set<object> {
    if f.None? then {} else {f.value.state}
  }

  class Subscription {
    var sub: Option<R.SubId>
    var onRelease: Option<ReleaseFn>
    var completions: C.Tokens
    ghost const name: R.ObjId     // what the machine calls this object

    constructor (raw: Option<R.SubId>, onRelease: Option<ReleaseFn>, ghost name: R.ObjId)
      ensures sub == raw && this.onRelease == onRelease && completions == map[] && this.name == name
    {
      sub, this.onRelease, completions, this.name := raw, onRelease, map[], name;
    }

    /** The machine state `w` agrees with this object, its registry and nats.c. */
    ghost predicate Mirrors(w: R.State, nats: Nats, phase: R.Phase)
      reads this, nats, BlockOf(onRelease)
    {
      && name in w.objs
      && w.objs[name] == R.Obj(sub, LinkOf(onRelease), phase)
      && w.subs == nats.subs
      && (onRelease.Some? ==> onRelease.value.state.id == onRelease.value.link.reg && onRelease.value.state.Mirrors(w))
    }

    /** While the object holds a native subscription, its map holds exactly the completion callback
        nats.c has for it. */
    ghost predicate CompletionKept(nats: Nats)
      reads this, nats
    {
      sub.Some? ==> completions == C.Settled(NativeCompletion(nats))
    }

    function NativeCompletion(nats: Nats): Option<C.Token>
      reads this, nats
    {
      if sub.Some? && sub.value in nats.onComplete then Some(nats.onComplete[sub.value]) else None
    }

    /** `release_callback()`: the lambda runs, then `on_release_` is emptied. */
    method ReleaseCallback(nats: Nats)
      modifies this`onRelease, BlockOf(onRelease), nats`log
      ensures onRelease == None
      ensures old(onRelease).Some? ==>
                var f := old(onRelease).value;
                f.state.owned == old(f.state.owned)
                && f.state.callbacks == (if f.state.owned then old(f.state.callbacks) - {f.link.key} else old(f.state.callbacks))
      ensures nats.log == old(nats.log) + R.Erasing(LinkOf(old(onRelease)))
    {
      if onRelease.Some? {
        onRelease.value.state.Erase(onRelease.value.link, nats);
        onRelease := None;
      }
    }

    /** `completion_callbacks_.erase(a)`: never the one nats.c has. */
    method EraseToken(a: C.Addr, nats: Nats)
      requires NativeCompletion(nats).Some? ==> NativeCompletion(nats).value.addr != a
      modifies this`completions
      ensures completions == old(completions) - {a}
    {
      completions := completions - {a};
    }

    /** The map goes away with the object; nats.c must have no callback by then. */
    method DropTokens(nats: Nats)
      requires NativeCompletion(nats).None?
      modifies this`completions
      ensures completions == map[]
    {
      completions := map[];
    }

    /** `unsubscribe()`: nothing to do without a handle; a native failure throws and changes
        nothing; otherwise the native subscription is destroyed before the callback is released. */
    method Unsubscribe(nats: Nats, outcome: Status, ghost w: R.State) returns (status: Status, ghost steps: seq<R.Step>)
      requires Mirrors(w, nats, R.Idle)
      requires sub.Some? ==> sub.value in nats.subs
      modifies this`sub, this`onRelease, nats, BlockOf(onRelease)
      ensures status == (if old(sub).None? then Ok else outcome)
      ensures old(sub).None? || outcome.Failed? ==>
                sub == old(sub) && onRelease == old(onRelease) && nats.subs == old(nats.subs) && nats.onComplete == old(nats.onComplete)
      ensures old(sub).Some? && outcome.Ok? ==>
                sub.None? && onRelease.None?
                && nats.subs == old(nats.subs) - {old(sub).value} && nats.onComplete == old(nats.onComplete) - {old(sub).value}
      ensures steps == [R.Unsubscribe(name, outcome.Ok?)] + (if old(sub).Some? && outcome.Ok? then Calls.CloseSteps(name) else [])
      ensures R.Runs(w, steps) && Mirrors(R.EndOf(w, steps), nats, R.Idle) && nats.log == old(nats.log) + R.Events(w, steps)
      ensures old(onRelease).Some? ==> old(onRelease).value.state.Mirrors(R.EndOf(w, steps))
    {
      if sub.None? || outcome.Failed? {
        R.RunCons(w, R.Unsubscribe(name, outcome.Ok?), []);
        return if sub.None? then Ok else outcome, [R.Unsubscribe(name, outcome.Ok?)] + [];
      }
      ghost var t;
      steps, t := Calls.CloseCall(w, name, false);
      nats.DestroySubscription(sub.value);
      sub := None;
      ReleaseCallback(nats);
      status := Ok;
    }

    /** The destructor: `sub_.reset()` first, then `release_callback()`. */
    method Destruct(nats: Nats, ghost w: R.State) returns (ghost steps: seq<R.Step>)
      requires Mirrors(w, nats, R.Idle)
      requires sub.Some? ==> sub.value in nats.subs
      modifies this`sub, this`onRelease, this`completions, nats, BlockOf(onRelease)
      ensures sub.None? && onRelease.None? && completions == map[]
      ensures nats.subs == R.Without(old(nats.subs), old(sub)) && nats.onComplete == R.Without(old(nats.onComplete), old(sub))
      ensures steps == [R.Destroy(name)] + Calls.CloseSteps(name)
      ensures R.Runs(w, steps) && nats.log == old(nats.log) + R.Events(w, steps)
      ensures R.EndOf(w, steps).objs == w.objs - {name} && R.EndOf(w, steps).subs == nats.subs
      ensures old(onRelease).Some? ==> old(onRelease).value.state.Mirrors(R.EndOf(w, steps))
    {
      ghost var t;
      steps, t := Calls.CloseCall(w, name, true);
      if sub.Some? {
        nats.DestroySubscription(sub.value);
        sub := None;
      }
      ReleaseCallback(nats);
      DropTokens(nats);
    }

    /** The move constructor: handle, release lambda and completion callbacks change hands. */
    constructor Move(other: Subscription, nats: Nats, ghost w: R.State, ghost name: R.ObjId)
      requires other.Mirrors(w, nats, R.Idle) && name !in w.objs
      modifies other
      ensures this.name == name
      ensures sub == old(other.sub) && onRelease == old(other.onRelease) && completions == old(other.completions)
      ensures other.sub.None? && other.onRelease.None? && other.completions == map[]
      ensures
        var steps := [R.MoveConstruct(name, other.name), R.Advance(name)];
        R.Runs(w, steps) && Mirrors(R.EndOf(w, steps), nats, R.Idle) && other.Mirrors(R.EndOf(w, steps), nats, R.Idle)
        && R.Events(w, steps) == []
      ensures old(other.CompletionKept(nats)) ==> CompletionKept(nats) && other.CompletionKept(nats)
    {
      this.name := name;
      sub, onRelease, completions := other.sub, other.onRelease, other.completions;
      new;
      other.sub := None;
      other.onRelease := None;
      other.completions := map[];
      ghost var steps, t := Calls.MoveConstructCall(w, name, other.name);
    }

    /** Move assignment. Onto itself it does nothing. */
    method MoveAssign(other: Subscription, nats: Nats, ghost w: R.State) returns (ghost steps: seq<R.Step>)
      requires Mirrors(w, nats, R.Idle) && other.Mirrors(w, nats, R.Idle)
      requires this != other ==> name != other.name && (sub.Some? ==> sub.value in nats.subs && sub != other.sub)
      requires onRelease.Some? && other.onRelease.Some? && onRelease.value.state.id == other.onRelease.value.state.id ==>
                 onRelease.value.state == other.onRelease.value.state
      modifies this`sub, this`onRelease, this`completions
      modifies other`sub, other`onRelease, other`completions
      modifies nats, BlockOf(onRelease)
      ensures this == other ==>
                sub == old(sub) && onRelease == old(onRelease) && completions == old(completions)
                && nats.subs == old(nats.subs) && nats.onComplete == old(nats.onComplete) && steps == []
      ensures this != other ==> Taken(other, old(other.sub), old(other.onRelease), old(other.completions))
      ensures this != other ==>
                && nats.subs == R.Without(old(nats.subs), old(sub)) && nats.onComplete == R.Without(old(nats.onComplete), old(sub))
                && steps == [R.MoveAssign(name, other.name), R.Advance(name), R.Advance(name), R.Advance(name), R.Advance(name)]
      ensures R.Runs(w, steps) && Mirrors(R.EndOf(w, steps), nats, R.Idle) && other.Mirrors(R.EndOf(w, steps), nats, R.Idle)
      ensures nats.log == old(nats.log) + R.Events(w, steps)
      ensures old(onRelease).Some? ==> old(onRelease).value.state.Mirrors(R.EndOf(w, steps))
      ensures old(CompletionKept(nats) && other.CompletionKept(nats)) ==> CompletionKept(nats) && other.CompletionKept(nats)
    {
      if this == other {
        return [];
      }
      steps := ReplaceBy(other, nats, w);
    }

    /** This object has what `other` had, and `other` has nothing. */
    ghost predicate Taken(other: Subscription, sub: Option<R.SubId>, onRelease: Option<ReleaseFn>, completions: C.Tokens)
      reads this, other
    {
      && this.sub == sub && this.onRelease == onRelease && this.completions == completions
      && other.sub.None? && other.onRelease.None? && other.completions == map[]
    }

    /** The callback is released while the old native subscription still exists; then the other handle
        is taken (destroying the old one), the release lambda and the completion callbacks. */
    method ReplaceBy(other: Subscription, nats: Nats, ghost w: R.State) returns (ghost steps: seq<R.Step>)
      requires Mirrors(w, nats, R.Idle) && other.Mirrors(w, nats, R.Idle)
      requires this != other && name != other.name && (sub.Some? ==> sub.value in nats.subs && sub != other.sub)
      requires onRelease.Some? && other.onRelease.Some? && onRelease.value.state.id == other.onRelease.value.state.id ==>
                 onRelease.value.state == other.onRelease.value.state
      modifies this`sub, this`onRelease, this`completions
      modifies other`sub, other`onRelease, other`completions
      modifies nats, BlockOf(onRelease)
      ensures Taken(other, old(other.sub), old(other.onRelease), old(other.completions))
      ensures nats.subs == R.Without(old(nats.subs), old(sub)) && nats.onComplete == R.Without(old(nats.onComplete), old(sub))
      ensures steps == [R.MoveAssign(name, other.name), R.Advance(name), R.Advance(name), R.Advance(name), R.Advance(name)]
      ensures R.Runs(w, steps) && Mirrors(R.EndOf(w, steps), nats, R.Idle) && other.Mirrors(R.EndOf(w, steps), nats, R.Idle)
      ensures nats.log == old(nats.log) + R.Events(w, steps)
      ensures old(onRelease).Some? ==> old(onRelease).value.state.Mirrors(R.EndOf(w, steps))
      ensures old(CompletionKept(nats) && other.CompletionKept(nats)) ==> CompletionKept(nats) && other.CompletionKept(nats)
    {
      ReleaseCallback(nats);
      TakeMembers(other, nats);
      ghost var t;
      steps, t := Calls.MoveAssignCall(w, name, other.name);
    }

    /** The three member moves that end move assignment. */
    method TakeMembers(other: Subscription, nats: Nats)
      requires this != other
      requires sub.Some? ==> sub.value in nats.subs
      modifies this`sub, this`onRelease, this`completions
      modifies other`sub, other`onRelease, other`completions
      modifies nats
      ensures Taken(other, old(other.sub), old(other.onRelease), old(other.completions))
      ensures nats.subs == R.Without(old(nats.subs), old(sub)) && nats.onComplete == R.Without(old(nats.onComplete), old(sub))
      ensures nats.log == old(nats.log) + R.Destroying(old(sub))
    {
      var previous := sub;
      sub, other.sub := other.sub, None;
      if previous.Some? {
        nats.DestroySubscription(previous.value);
      }
      onRelease, other.onRelease := other.onRelease, None;
      completions, other.completions := other.completions, map[];
    }

    /** `set_on_complete_callback`, callers serialised: the token is in the map before nats.c learns
        of it; on failure it is erased again and the error thrown; on success every other token is
        pruned. The callback nats.c holds never leaves the map on the way. */
    method SetOnCompleteCallback(nats: Nats, token: C.Token, outcome: Status) returns (status: Status)
      requires CompletionKept(nats) && token.addr !in completions
      modifies this`completions, nats`onComplete
      ensures CompletionKept(nats)
      ensures status == (if sub.None? then Failed(INVALID_ARG) else outcome)
      ensures status.Failed? ==> completions == old(completions) && nats.onComplete == old(nats.onComplete)
      ensures status.Ok? ==> completions == map[token.addr := token] && nats.onComplete == old(nats.onComplete)[sub.value := token]
    {
      if sub.None? {
        return Failed(INVALID_ARG);
      }
      completions := completions[token.addr := token];
      assert NativeCompletion(nats).Some? ==> C.Holds(completions, NativeCompletion(nats).value);
      nats.SetOnComplete(this, token, outcome);
      if outcome.Failed? {
        EraseToken(token.addr, nats);
        return outcome;
      }
      var rest := completions.Keys;
      while rest != {}
        modifies this`completions
        invariant rest <= completions.Keys <= rest + {token.addr}
        invariant NativeCompletion(nats) == Some(token) && C.Holds(completions, token)
      {
        var a :| a in rest;
        if a != token.addr {
          EraseToken(a, nats);
        }
        rest := rest - {a};
      }
      return Ok;
    }
  }

  const INVALID_ARG: nat := 1

  /** The part of a `connection` object that async registration uses. */
  class Connection {
    var state: CallbackState?
    ghost const name: R.ConnId

    constructor (state: CallbackState, ghost name: R.ConnId)
      ensures this.state == state && this.name == name
    {
      this.state, this.name := state, name;
    }

    ghost predicate Mirrors(w: R.State)
      reads this, state
    {
      && state != null
      && state.owned && state.Mirrors(w)
      && name in w.conns && w.conns[name] == Some(state.id)
    }

    /** `register_async_subscription`: the token enters the map before nats.c may deliver; a refused
        registration takes it out again and throws; an accepted one returns an object that owns the
        native subscription and the duty to release. */
    method RegisterAsyncSubscription(nats: Nats, handler: R.Handler, a: R.Addr, id: R.Id, raw: R.SubId, outcome: Status,
                                     ghost w: R.State, ghost o: R.ObjId)
      returns (status: Status, result: Subscription?, ghost steps: seq<R.Step>)
      requires Mirrors(w) && nats.subs == w.subs
      requires !R.Occupied(w, a) && raw !in nats.subs
      requires id == w.nextId && id !in w.calls && o !in w.objs
      modifies nats, state
      ensures steps == [R.StartRegister(name, a, handler), R.Insert(id), R.NativeSubscribe(id, raw, outcome.Ok?),
                        if outcome.Ok? then R.Construct(id, o) else R.Rollback(id)]
      ensures R.Runs(w, steps) && Mirrors(R.EndOf(w, steps)) && nats.subs == R.EndOf(w, steps).subs
      ensures nats.log == old(nats.log) + R.Events(w, steps)
      ensures status == outcome && state == old(state)
      ensures outcome.Failed? ==>
                result == null && state.callbacks == old(state.callbacks) && nats.subs == old(nats.subs)
      ensures outcome.Ok? ==>
                var l := R.Link(state.id, a, R.Closure(id, handler));
                && result != null && fresh(result) && result.name == o
                && result.sub == Some(raw) && result.onRelease == Some(ReleaseFn(state, l))
                && state.callbacks == old(state.callbacks)[a := l.closure]
                && nats.subs == old(nats.subs)[raw := Some(l)]
                && result.Mirrors(R.EndOf(w, steps), nats, R.Idle)
    {
      ghost var t;
      steps, t := Calls.RegisterCall(w, name, a, handler, raw, o, outcome.Ok?);
      var l := R.Link(state.id, a, R.Closure(id, handler));
      state.Insert(l, nats);
      nats.Subscribe(raw, l, outcome);
      if outcome.Failed? {
        state.Erase(l, nats);
        return outcome, null, steps;
      }
      result := new Subscription(Some(raw), Some(ReleaseFn(state, l)), o);
      return Ok, result, steps;
    }
  }
}
