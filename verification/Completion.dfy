/**
 `subscription::set_on_complete_callback`: replacing the one completion callback nats.c keeps.

 nats.c stores the raw address of the callback; `completion_callbacks_` keeps the callback alive.
 A call inserts its token, asks nats.c to switch, and then either erases the token again or prunes
 every other one. The mutex is not held across the native call, and the native callback takes no
 lock, so it may fire between any two steps, also between two erasures of the pruning loop.
 */
module Completion {
  import opened Common

  type Addr = int
  type Tid = int

  /** A heap-allocated callback at `addr`; `id` tells apart callbacks that reuse an address. */
  datatype Token = Token(addr: Addr, id: nat)

  type Tokens = map<Addr, Token>

  datatype Pc =
    | Inserted(token: Token)    // about to call natsSubscription_SetOnCompleteCB
    | Accepted(token: Token)    // about to take the lock and prune
    | Refused(token: Token)     // about to take the lock, erase its own token and throw
    | Pruning(token: Token)     // inside the loop, holding the lock

  /** `tokens` is `completion_callbacks_`; `native` is what nats.c dereferences. */
  datatype State = State(tokens: Tokens, native: Option<Token>, callers: map<Tid, Pc>, lock: Option<Tid>, nextId: nat)

  const INIT := State(map[], None, map[], None, 0)

  datatype Step =
    | Begin(t: Tid, a: Addr)
    | SetNative(t: Tid, ok: bool)
    | EraseOwn(t: Tid)
    | StartPrune(t: Tid)
    | PruneOne(t: Tid, a: Addr)
    | EndPrune(t: Tid)

  /** A map entry or the local `token` of a call in flight keeps a callback alive at `a`. */
  ghost predicate Occupied(s: State, a: Addr) {
    a in s.tokens || exists t :: t in s.callers && s.callers[t].token.addr == a
  }

  ghost predicate Enabled(s: State, st: Step) {
    match st
    case Begin(t, a) => t !in s.callers && s.lock.None? && !Occupied(s, a)
    case SetNative(t, _) => t in s.callers && s.callers[t].Inserted?
    case EraseOwn(t) => t in s.callers && s.callers[t].Refused? && s.lock.None?
    case StartPrune(t) => t in s.callers && s.callers[t].Accepted? && s.lock.None?
    case PruneOne(t, a) => t in s.callers && s.callers[t].Pruning? && a in s.tokens && a != s.callers[t].token.addr
    case EndPrune(t) => t in s.callers && s.callers[t].Pruning? && s.tokens.Keys <= {s.callers[t].token.addr}
  }

  ghost function Apply(s: State, st: Step): State
    requires Enabled(s, st)
  {
    match st
    case Begin(t, a) =>
      var token := Token(a, s.nextId);
      s.(tokens := s.tokens[a := token], callers := s.callers[t := Inserted(token)], nextId := s.nextId + 1)
    case SetNative(t, ok) =>
      var token := s.callers[t].token;
      if ok then s.(native := Some(token), callers := s.callers[t := Accepted(token)])
      else s.(callers := s.callers[t := Refused(token)])
    case EraseOwn(t) => s.(tokens := s.tokens - {s.callers[t].token.addr}, callers := s.callers - {t})
    case StartPrune(t) => s.(callers := s.callers[t := Pruning(s.callers[t].token)], lock := Some(t))
    case PruneOne(t, a) => s.(tokens := s.tokens - {a})
    case EndPrune(t) => s.(callers := s.callers - {t}, lock := None)
  }

  /** The callback nats.c may invoke at any moment is still in the map. */
  predicate Kept(s: State) {
    s.native.Some? ==> Holds(s.tokens, s.native.value)
  }

  predicate Holds(m: Tokens, token: Token) { token.addr in m && m[token.addr] == token }

  ghost predicate Runs(s: State, steps: seq<Step>)
    decreases |steps|
  {
    steps == [] || (Enabled(s, steps[0]) && Runs(Apply(s, steps[0]), steps[1..]))
  }

  ghost function EndOf(s: State, steps: seq<Step>): State
    requires Runs(s, steps)
    decreases |steps|
  {
    if steps == [] then s else EndOf(Apply(s, steps[0]), steps[1..])
  }

  // ---------------------------------------------------------------- serialised callers

  /** No call is in flight. */
  ghost predicate Idle(s: State) {
    forall t :: t !in s.callers
  }

  /** Calls do not overlap. */
  ghost predicate Serialised(s: State, steps: seq<Step>)
    requires Runs(s, steps)
    decreases |steps|
  {
    steps == [] || ((steps[0].Begin? ==> Idle(s)) && Serialised(Apply(s, steps[0]), steps[1..]))
  }

  /** What the map holds between calls: the callback nats.c has, and nothing else. */
  function Settled(native: Option<Token>): Tokens {
    if native.None? then map[] else map[native.value.addr := native.value]
  }

  /** At most one call is in flight; `before` is what nats.c held when it began. */
  ghost predicate SerialInv(s: State) {
    && (Idle(s) ==> s.lock.None? && s.tokens == Settled(s.native))
    && (forall t, u :: t in s.callers && u in s.callers ==> t == u)
    && (forall t :: t in s.callers ==>
          var token := s.callers[t].token;
          && Holds(s.tokens, token)
          && (s.lock.Some? <==> s.callers[t].Pruning?)
          && (s.callers[t].Accepted? || s.callers[t].Pruning? ==> s.native == Some(token))
          && (s.callers[t].Inserted? || s.callers[t].Refused? ==>
                s.tokens == Settled(s.native)[token.addr := token]
                && (s.native.Some? ==> s.native.value.addr != token.addr)))
  }

  lemma {:induction false} SerialStep(s: State, st: Step)
    requires SerialInv(s) && Enabled(s, st) && (st.Begin? ==> Idle(s))
    ensures SerialInv(Apply(s, st))
  {
    assert !Idle(Apply(s, st)) || st.EraseOwn? || st.EndPrune? by {
      assert !st.EraseOwn? && !st.EndPrune? ==> st.t in Apply(s, st).callers;
    }
    match st
    case EraseOwn(t) =>
      assert forall u :: u !in s.callers - {t};
      assert Settled(s.native)[s.callers[t].token.addr := s.callers[t].token] - {s.callers[t].token.addr} == Settled(s.native);
    case EndPrune(t) =>
      assert forall u :: u !in s.callers - {t};
      assert s.tokens == Settled(s.native);
    case _ =>
  }

  /** With serialised callers the callback nats.c holds is in the map after every step of every run,
      and between calls the map holds exactly it: a successful call leaves its own token alone, a
      failed one leaves what was there. */
  lemma {:induction false} SerialisedRunsKeep(s: State, steps: seq<Step>)
    requires SerialInv(s) && Runs(s, steps) && Serialised(s, steps)
    ensures SerialInv(EndOf(s, steps)) && Kept(EndOf(s, steps))
    ensures Idle(EndOf(s, steps)) ==> EndOf(s, steps).tokens == Settled(EndOf(s, steps).native)
    decreases |steps|
  {
    if steps == [] {
      if t :| t in s.callers {
        assert Kept(s);
      } else {
        assert Idle(s);
      }
    } else {
      SerialStep(s, steps[0]);
      SerialisedRunsKeep(Apply(s, steps[0]), steps[1..]);
    }
  }

  lemma {:induction false} RunCons(s: State, st: Step, rest: seq<Step>)
    requires Enabled(s, st) && Runs(Apply(s, st), rest)
    ensures Runs(s, [st] + rest) && EndOf(s, [st] + rest) == EndOf(Apply(s, st), rest)
  {
    assert ([st] + rest)[1..] == rest;
  }

  /** A whole call made while no other is in flight: afterwards nats.c holds the new callback if it
      accepted it and the old one otherwise, and the map holds that callback alone. */
  lemma {:induction false} WholeCall(s: State, t: Tid, a: Addr, ok: bool) returns (steps: seq<Step>, r: State)
    requires SerialInv(s) && Idle(s) && !Occupied(s, a)
    ensures Runs(s, steps) && EndOf(s, steps) == r && Idle(r)
    ensures r.native == (if ok then Some(Token(a, s.nextId)) else s.native)
    ensures r.tokens == if r.native.None? then map[] else map[r.native.value.addr := r.native.value]
  {
    var s1 := Apply(s, Begin(t, a));
    SerialStep(s, Begin(t, a));
    var s2 := Apply(s1, SetNative(t, ok));
    SerialStep(s1, SetNative(t, ok));
    var rest: seq<Step>;
    if ok {
      rest, r := PruningCall(s2, t);
    } else {
      r := Apply(s2, EraseOwn(t));
      SerialStep(s2, EraseOwn(t));
      RunCons(s2, EraseOwn(t), []);
      rest := [EraseOwn(t)] + [];
    }
    RunCons(s1, SetNative(t, ok), rest);
    RunCons(s, Begin(t, a), [SetNative(t, ok)] + rest);
    steps := [Begin(t, a)] + ([SetNative(t, ok)] + rest);
  }

  lemma {:induction false} PruningCall(s: State, t: Tid) returns (steps: seq<Step>, r: State)
    requires SerialInv(s) && t in s.callers && s.callers[t].Accepted?
    ensures Runs(s, steps) && EndOf(s, steps) == r && Idle(r)
    ensures r.native == s.native && r.tokens == map[s.callers[t].token.addr := s.callers[t].token]
  {
    var s1 := Apply(s, StartPrune(t));
    SerialStep(s, StartPrune(t));
    var rest;
    rest, r := PruneAll(s1, t);
    RunCons(s, StartPrune(t), rest);
    steps := [StartPrune(t)] + rest;
  }

  lemma {:induction false} PruneAll(s: State, t: Tid) returns (steps: seq<Step>, r: State)
    requires SerialInv(s) && t in s.callers && s.callers[t].Pruning?
    ensures Runs(s, steps) && EndOf(s, steps) == r && Idle(r)
    ensures r.native == s.native && r.tokens == map[s.callers[t].token.addr := s.callers[t].token]
    decreases |s.tokens|
  {
    var others := set a | a in s.tokens && a != s.callers[t].token.addr;
    if others == {} {
      assert forall a :: a in s.tokens ==> a !in others;
      r := Apply(s, EndPrune(t));
      SerialStep(s, EndPrune(t));
      assert forall u :: u !in r.callers;
      RunCons(s, EndPrune(t), []);
      steps := [EndPrune(t)] + [];
    } else {
      var a :| a in others;
      var s1 := Apply(s, PruneOne(t, a));
      SerialStep(s, PruneOne(t, a));
      assert s1.tokens.Keys == s.tokens.Keys - {a} && |s1.tokens.Keys| < |s.tokens.Keys|;
      var rest;
      rest, r := PruneAll(s1, t);
      RunCons(s, PruneOne(t, a), rest);
      steps := [PruneOne(t, a)] + rest;
    }
  }

  // ---------------------------------------------------------------- overlapping callers

  /** Tokens of distinct calls and map entries are distinct objects at distinct addresses. */
  ghost predicate Distinct(s: State) {
    && (forall a :: a in s.tokens ==> s.tokens[a].addr == a)
    && (forall t, u :: t in s.callers && u in s.callers && s.callers[t].token.addr == s.callers[u].token.addr ==> t == u)
    && (forall t :: t in s.callers && s.callers[t].token.addr in s.tokens ==> Holds(s.tokens, s.callers[t].token))
    && (forall t :: t in s.callers && (s.callers[t].Inserted? || s.callers[t].Refused?) ==> s.native != Some(s.callers[t].token))
    && (forall t :: t in s.callers ==> s.callers[t].token.id < s.nextId)
    && (s.native.Some? ==> s.native.value.id < s.nextId)
    && (forall t :: t in s.callers && (s.callers[t].Accepted? || s.callers[t].Pruning?) ==> s.native.Some?)
    && (s.lock.Some? ==> s.lock.value in s.callers && s.callers[s.lock.value].Pruning?)
    && (forall t :: t in s.callers && s.callers[t].Pruning? ==> s.lock == Some(t))
  }

  lemma {:induction false} StepKeepsDistinct(s: State, st: Step)
    requires Distinct(s) && Enabled(s, st)
    ensures Distinct(Apply(s, st))
  {
  }

  /** While call `t` prunes, other calls may still switch nats.c over. Whatever they do and in whatever
      order the loop goes, when it ends the map holds exactly the own token, if it was still there. */
  lemma {:induction false} PruneResult(s: State, steps: seq<Step>, t: Tid)
    requires Distinct(s) && t in s.callers && s.callers[t].Pruning? && Runs(s, steps) && EndPrune(t) !in steps
    ensures
      var token := s.callers[t].token;
      var r := EndOf(s, steps);
      && t in r.callers && r.callers[t] == s.callers[t]
      && r.tokens.Keys <= s.tokens.Keys && (Holds(s.tokens, token) ==> Holds(r.tokens, token))
      && (Enabled(r, EndPrune(t)) ==>
            Apply(r, EndPrune(t)).tokens == if token.addr in s.tokens then map[token.addr := token] else map[])
    decreases |steps|
  {
    if steps != [] {
      StepKeepsDistinct(s, steps[0]);
      PruneResult(Apply(s, steps[0]), steps[1..], t);
    }
  }

  // ---------------------------------------------------------------- exactly when it goes wrong

  /** nats.c's callback is in the map in every state of the run. */
  ghost predicate AlwaysKept(s: State, steps: seq<Step>)
    requires Runs(s, steps)
    decreases |steps|
  {
    Kept(s) && (steps == [] || AlwaysKept(Apply(s, steps[0]), steps[1..]))
  }

  /** The next native switch of caller `t` among `steps` is there and succeeds. */
  predicate WillSwitch(steps: seq<Step>, t: Tid)
    decreases |steps|
  {
    steps != [] && if steps[0].SetNative? && steps[0].t == t then steps[0].ok else WillSwitch(steps[1..], t)
  }

  /** Call `t` is in flight, and its native switch has succeeded or will. */
  predicate Succeeding(s: State, steps: seq<Step>, t: Tid) {
    t in s.callers &&
    match s.callers[t]
    case Inserted(_) => WillSwitch(steps, t)
    case Refused(_) => false
    case _ => true
  }

  /** No two successful calls are ever in flight at once; failing ones may overlap with anything. */
  ghost predicate SuccessesApart(s: State, steps: seq<Step>)
    requires Runs(s, steps)
    decreases |steps|
  {
    && (forall t, u :: Succeeding(s, steps, t) && Succeeding(s, steps, u) ==> t == u)
    && (steps == [] || SuccessesApart(Apply(s, steps[0]), steps[1..]))
  }

  /** A call in flight stays as successful as it was going to be until it ends. */
  lemma {:induction false} SucceedingStays(s: State, steps: seq<Step>, t: Tid)
    requires Runs(s, steps) && steps != [] && t in s.callers && t in Apply(s, steps[0]).callers
    ensures Succeeding(Apply(s, steps[0]), steps[1..], t) <==> Succeeding(s, steps, t)
  {
  }

  /** What holds as long as successes are apart: the token of a successful call stays in the map, and
      a call that switched nats.c over is the last that did. */
  ghost predicate ApartInv(s: State, steps: seq<Step>) {
    && Distinct(s) && Kept(s)
    && (forall t :: Succeeding(s, steps, t) ==> Holds(s.tokens, s.callers[t].token))
    && (forall t :: t in s.callers && (s.callers[t].Accepted? || s.callers[t].Pruning?) ==> s.native == Some(s.callers[t].token))
  }

  lemma {:induction false} ApartStep(s: State, steps: seq<Step>)
    requires Runs(s, steps) && steps != [] && ApartInv(s, steps) && SuccessesApart(s, steps)
    ensures ApartInv(Apply(s, steps[0]), steps[1..])
  {
    var st, r := steps[0], Apply(s, steps[0]);
    StepKeepsDistinct(s, st);
    forall t | Succeeding(r, steps[1..], t) ensures Holds(r.tokens, r.callers[t].token) {
      if t in s.callers {
        SucceedingStays(s, steps, t);
        if st.PruneOne? { assert Succeeding(s, steps, st.t); }
      }
    }
    forall t | t in r.callers && (r.callers[t].Accepted? || r.callers[t].Pruning?) ensures r.native == Some(r.callers[t].token) {
      assert Succeeding(s, steps, t);
      if st.SetNative? && st.ok { assert Succeeding(s, steps, st.t); }
    }
  }

  /** In any run, finished or not, apart successes keep nats.c's callback in the map. */
  lemma {:induction false} ApartKeeps(s: State, steps: seq<Step>)
    requires Runs(s, steps) && ApartInv(s, steps) && SuccessesApart(s, steps)
    ensures AlwaysKept(s, steps)
    decreases |steps|
  {
    if steps != [] {
      ApartStep(s, steps);
      ApartKeeps(Apply(s, steps[0]), steps[1..]);
    }
  }

  /** The callback nats.c holds has not been freed: the map has it, or the local `token` of a call in
      flight does. */
  ghost predicate Alive(s: State) {
    s.native.Some? ==> Holds(s.tokens, s.native.value) || exists t :: HasToken(s, t, s.native.value)
  }

  predicate HasToken(s: State, t: Tid, token: Token) { t in s.callers && s.callers[t].token == token }

  ghost predicate AlwaysAlive(s: State, steps: seq<Step>)
    requires Runs(s, steps)
    decreases |steps|
  {
    Alive(s) && (steps == [] || AlwaysAlive(Apply(s, steps[0]), steps[1..]))
  }

  lemma {:induction false} KeptIsAlive(s: State, steps: seq<Step>)
    requires Runs(s, steps) && AlwaysKept(s, steps)
    ensures AlwaysAlive(s, steps)
    decreases |steps|
  {
    if steps != [] { KeptIsAlive(Apply(s, steps[0]), steps[1..]); }
  }

  /** A successful call `t` whose token another call pruned: until it returns, its local token may be
      all that keeps the callback of nats.c alive. When it returns, its own loop has emptied the map,
      so that callback is freed then, or lives on in yet another call whose token is pruned. */
  lemma {:induction false} PrunedTokenDies(s: State, steps: seq<Step>, t: Tid)
    requires Distinct(s) && Runs(s, steps) && Idle(EndOf(s, steps))
    requires Succeeding(s, steps, t) && s.callers[t].token.addr !in s.tokens && s.native.Some?
    ensures !AlwaysAlive(s, steps)
    decreases |steps|
  {
    var r := Apply(s, steps[0]);
    StepKeepsDistinct(s, steps[0]);
    if steps[0] == EndPrune(t) {
      assert r.tokens.Keys == {};
      if v :| HasToken(r, v, r.native.value) {
        PrunedTokenDies(r, steps[1..], v);
      }
    } else {
      SucceedingStays(s, steps, t);
      PrunedTokenDies(r, steps[1..], t);
    }
  }

  /** Two successful calls in flight at once: the first to finish its loop has pruned the other. */
  lemma {:induction false} OverlapDies(s: State, steps: seq<Step>, t: Tid, u: Tid)
    requires Distinct(s) && Runs(s, steps) && Idle(EndOf(s, steps))
    requires Succeeding(s, steps, t) && Succeeding(s, steps, u) && t != u
    ensures !AlwaysAlive(s, steps)
    decreases |steps|
  {
    var r := Apply(s, steps[0]);
    StepKeepsDistinct(s, steps[0]);
    if steps[0] == EndPrune(t) {
      SucceedingStays(s, steps, u);
      PrunedTokenDies(r, steps[1..], u);
    } else if steps[0] == EndPrune(u) {
      SucceedingStays(s, steps, t);
      PrunedTokenDies(r, steps[1..], t);
    } else {
      SucceedingStays(s, steps, t);
      SucceedingStays(s, steps, u);
      OverlapDies(r, steps[1..], t, u);
    }
  }

  lemma {:induction false} AliveMeansApart(s: State, steps: seq<Step>)
    requires Distinct(s) && Runs(s, steps) && Idle(EndOf(s, steps)) && AlwaysAlive(s, steps)
    ensures SuccessesApart(s, steps)
    decreases |steps|
  {
    forall t, u | Succeeding(s, steps, t) && Succeeding(s, steps, u) ensures t == u {
      if t != u { OverlapDies(s, steps, t, u); }
    }
    if steps != [] {
      StepKeepsDistinct(s, steps[0]);
      AliveMeansApart(Apply(s, steps[0]), steps[1..]);
    }
  }

  /** Over every run of calls that all return, by any number of threads in any interleaving: the
      callback nats.c holds is never freed iff no two successful calls were ever in flight at once. */
  lemma {:induction false} AliveIffSuccessesApart(steps: seq<Step>)
    requires Runs(INIT, steps) && Idle(EndOf(INIT, steps))
    ensures AlwaysAlive(INIT, steps) <==> SuccessesApart(INIT, steps)
  {
    if SuccessesApart(INIT, steps) {
      ApartKeeps(INIT, steps);
      KeptIsAlive(INIT, steps);
    }
    if AlwaysAlive(INIT, steps) { AliveMeansApart(INIT, steps); }
  }

  /** The map alone keeps it alive under the very same condition. */
  lemma {:induction false} KeptIffSuccessesApart(steps: seq<Step>)
    requires Runs(INIT, steps) && Idle(EndOf(INIT, steps))
    ensures AlwaysKept(INIT, steps) <==> SuccessesApart(INIT, steps)
  {
    if SuccessesApart(INIT, steps) { ApartKeeps(INIT, steps); }
    if AlwaysKept(INIT, steps) {
      KeptIsAlive(INIT, steps);
      AliveMeansApart(INIT, steps);
    }
  }

  const FIRST := Token(100, 0)
  const SECOND := Token(200, 1)

  /** Both calls have switched nats.c over. */
  const SWITCHED :=
    State(map[100 := FIRST, 200 := SECOND], Some(SECOND), map[1 := Accepted(FIRST), 2 := Accepted(SECOND)], None, 2)

  /** The first has pruned and returned, too. */
  const FIRST_RETURNED := State(map[100 := FIRST], Some(SECOND), map[2 := Accepted(SECOND)], None, 2)

  const BOTH_SWITCH := [Begin(1, 100), Begin(2, 200), SetNative(1, true), SetNative(2, true)]

  const FIRST_PRUNES := [StartPrune(1), PruneOne(1, 200), EndPrune(1)]

  const SECOND_PRUNES := [StartPrune(2), PruneOne(2, 100), EndPrune(2)]

  lemma {:induction false} BothSwitch(rest: seq<Step>)
    requires Runs(SWITCHED, rest)
    ensures Runs(INIT, BOTH_SWITCH + rest)
    ensures EndOf(INIT, BOTH_SWITCH + rest) == EndOf(SWITCHED, rest)
  {
    var s1 := Apply(INIT, Begin(1, 100));
    var s2 := Apply(s1, Begin(2, 200));
    var s3 := Apply(s2, SetNative(1, true));
    RunCons(s3, SetNative(2, true), rest);
    RunCons(s2, SetNative(1, true), [SetNative(2, true)] + rest);
    RunCons(s1, Begin(2, 200), [SetNative(1, true)] + ([SetNative(2, true)] + rest));
    RunCons(INIT, Begin(1, 100), [Begin(2, 200)] + ([SetNative(1, true)] + ([SetNative(2, true)] + rest)));
    assert BOTH_SWITCH + rest == [Begin(1, 100)] + ([Begin(2, 200)] + ([SetNative(1, true)] + ([SetNative(2, true)] + rest)));
  }

  lemma {:induction false} FirstPrunes(rest: seq<Step>)
    requires Runs(FIRST_RETURNED, rest)
    ensures Runs(SWITCHED, FIRST_PRUNES + rest) && EndOf(SWITCHED, FIRST_PRUNES + rest) == EndOf(FIRST_RETURNED, rest)
  {
    var s1 := Apply(SWITCHED, StartPrune(1));
    var s2 := Apply(s1, PruneOne(1, 200));
    assert Apply(s2, EndPrune(1)) == FIRST_RETURNED;
    RunCons(s2, EndPrune(1), rest);
    RunCons(s1, PruneOne(1, 200), [EndPrune(1)] + rest);
    RunCons(SWITCHED, StartPrune(1), [PruneOne(1, 200)] + ([EndPrune(1)] + rest));
    assert FIRST_PRUNES + rest == [StartPrune(1)] + ([PruneOne(1, 200)] + ([EndPrune(1)] + rest));
  }

  /** Two overlapping calls do go wrong: both switch nats.c over, then each prunes the other's token.
      Once both have returned, nats.c holds a callback that nothing keeps alive. */
  lemma {:induction false} OverlappingCallsDangle()
    ensures
      var steps := BOTH_SWITCH + (FIRST_PRUNES + SECOND_PRUNES);
      Runs(INIT, steps) && Idle(EndOf(INIT, steps)) && !Alive(EndOf(INIT, steps))
  {
    var s1 := Apply(FIRST_RETURNED, StartPrune(2));
    var s2 := Apply(s1, PruneOne(2, 100));
    var s3 := Apply(s2, EndPrune(2));
    assert s3.callers == map[] && s3.tokens == map[] && s3.native == Some(SECOND);
    RunCons(s2, EndPrune(2), []);
    RunCons(s1, PruneOne(2, 100), [EndPrune(2)] + []);
    RunCons(FIRST_RETURNED, StartPrune(2), [PruneOne(2, 100)] + ([EndPrune(2)] + []));
    assert SECOND_PRUNES == [StartPrune(2)] + ([PruneOne(2, 100)] + ([EndPrune(2)] + []));
    FirstPrunes(SECOND_PRUNES);
    BothSwitch(FIRST_PRUNES + SECOND_PRUNES);
  }
}
