/**
 `future_awaitable`: the race between detached worker threads and the destructor.

 A step machine: a promise thread makes the future ready; `await_suspend` starts a worker that
 waits, claims with a compare-and-swap, and resumes the coroutine; the destructor cancels with an
 exchange on the same flag. Awaitable and workers share a reference-counted state. Any number of
 workers may exist, and all steps interleave.
 */
module Awaitable {

  /** The next statement of a worker. */
  datatype Pc =
    | Waiting     // s->fut.wait()
    | Woken       // compare_exchange_strong(alive, true -> false)
    | Claimed     // h.resume()
    | Resuming    // the coroutine runs on this thread
    | Leaving     // about to drop its reference to the shared state
    | Gone

  datatype Frame = Running | Suspended | Freed

  /** The awaitable object: its destructor first exchanges the flag, then drops the state. */
  datatype Object = Live | Cancelling | Dropped

  datatype State = State(
    ready: bool,           // the promise has been fulfilled
    alive: bool,           // shared_state::alive
    consumed: bool,        // fut.get() has been called
    refs: int,             // reference count of the shared state
    frees: nat,            // how often the shared state was freed
    awaitable: Object,
    frame: Frame,
    workers: seq<Pc>,
    // history variables: no step reads them
    claims: nat,           // successful compare-and-swaps
    cancelled: bool,       // the exchange found the flag still set
    resumes: nat,          // calls of h.resume()
    strays: nat)           // calls of h.resume() on a frame already freed

  const INIT := State(false, true, false, 1, 0, Live, Running, [], 0, false, 0, 0)

  datatype Step =
    | SetReady
    | Suspend                       // await_suspend(h), by the coroutine or called directly
    | Wake(w: nat)
    | TryClaim(w: nat)
    | Resume(w: nat)
    | Return(w: nat)                // h.resume() returns
    | Leave(w: nat)
    | Get                           // await_resume(): fut.get(), which blocks until ready
    | Cancel(outside: bool)         // ~future_awaitable(): the exchange
    | DropState                     // ~future_awaitable(): state_ released
    | FinishFrame                   // the coroutine ends and its frame is freed

  predicate At(s: State, w: nat, p: Pc) { w < |s.workers| && s.workers[w] == p }

  predicate Enabled(s: State, st: Step) {
    match st
    case SetReady => true
    case Suspend => s.awaitable.Live? && !s.frame.Freed?
    case Wake(w) => At(s, w, Waiting) && s.ready
    case TryClaim(w) => At(s, w, Woken)
    case Resume(w) => At(s, w, Claimed)
    case Return(w) => At(s, w, Resuming)
    case Leave(w) => At(s, w, Leaving)
    case Get => s.frame.Running? && s.awaitable.Live? && s.ready
    case Cancel(outside) => s.awaitable.Live? && (if outside then s.frame.Suspended? else s.frame.Running?)
    case DropState => s.awaitable.Cancelling?
    case FinishFrame => s.frame.Running? && s.awaitable.Dropped?
  }

  function Move(s: State, w: nat, p: Pc): State
    requires w < |s.workers|
  {
    s.(workers := s.workers[w := p])
  }

  /** A shared_ptr to the state goes away; the last one frees it. */
  function Unref(s: State): State {
    s.(refs := s.refs - 1, frees := if s.refs == 1 then s.frees + 1 else s.frees)
  }

  function Apply(s: State, st: Step): State
    requires Enabled(s, st)
  {
    match st
    case SetReady => s.(ready := true)
    case Suspend => s.(frame := Suspended, workers := s.workers + [Waiting], refs := s.refs + 1)
    case Wake(w) => Move(s, w, Woken)
    case TryClaim(w) => if s.alive then Move(s, w, Claimed).(alive := false, claims := s.claims + 1) else Move(s, w, Leaving)
    case Resume(w) =>
      Move(s, w, Resuming).(resumes := s.resumes + 1,
                            strays := if s.frame.Freed? then s.strays + 1 else s.strays,
                            frame := if s.frame.Freed? then Freed else Running)
    case Return(w) => Move(s, w, Leaving)
    case Leave(w) => Unref(Move(s, w, Gone))
    case Get => s.(consumed := true)
    case Cancel(outside) =>
      s.(cancelled := s.cancelled || s.alive, alive := false, awaitable := Cancelling, frame := if outside then Freed else s.frame)
    case DropState => Unref(s).(awaitable := Dropped)
    case FinishFrame => s.(frame := Freed)
  }

  // ---------------------------------------------------------------- counting

  function Count(ws: seq<Pc>, p: Pc): nat {
    if ws == [] then 0 else Count(ws[1..], p) + if ws[0] == p then 1 else 0
  }

  lemma {:induction false} CountBounds(ws: seq<Pc>, p: Pc)
    ensures Count(ws, p) <= |ws|
    ensures forall w :: 0 <= w < |ws| && ws[w] == p ==> Count(ws, p) >= 1
    ensures (forall w :: 0 <= w < |ws| ==> ws[w] == p) ==> Count(ws, p) == |ws|
    ensures (exists w :: 0 <= w < |ws| && ws[w] != p) ==> Count(ws, p) < |ws|
  {
    if ws != [] {
      CountBounds(ws[1..], p);
      assert forall w :: 0 < w < |ws| ==> ws[w] == ws[1..][w - 1];
      assert forall w :: 0 <= w < |ws| - 1 ==> ws[1..][w] == ws[w + 1];
    }
  }

  lemma {:induction false} CountMove(ws: seq<Pc>, w: nat, q: Pc, p: Pc)
    requires w < |ws|
    ensures Count(ws[w := q], p) == Count(ws, p) - (if ws[w] == p then 1 else 0) + (if q == p then 1 else 0)
  {
    if w == 0 {
      assert ws[w := q][1..] == ws[1..];
    } else {
      CountMove(ws[1..], w - 1, q, p);
      assert ws[w := q][1..] == ws[1..][w - 1 := q];
    }
  }

  lemma {:induction false} CountPair(ws: seq<Pc>, v: nat, w: nat, p: Pc)
    requires v < |ws| && w < |ws| && v != w && ws[v] == p && ws[w] == p
    ensures Count(ws, p) >= 2
  {
    var q := if p.Gone? then Waiting else Gone;
    CountMove(ws, v, q, p);
    CountBounds(ws[v := q], p);
    assert ws[v := q][w] == p;
  }

  lemma {:induction false} CountSnoc(ws: seq<Pc>, q: Pc, p: Pc)
    ensures Count(ws + [q], p) == Count(ws, p) + if q == p then 1 else 0
  {
    if ws != [] {
      CountSnoc(ws[1..], q, p);
      assert (ws + [q])[1..] == ws[1..] + [q];
    }
  }

  // ---------------------------------------------------------------- the invariant

  function Bit(b: bool): nat { if b then 1 else 0 }

  /** The flag is a token: it is still there, or one worker took it, or the destructor did. */
  predicate Exclusive(s: State) {
    && Bit(s.alive) + Bit(s.cancelled) + s.claims == 1
    && Count(s.workers, Claimed) + s.resumes == s.claims
    && (!s.awaitable.Live? ==> !s.alive)
    && (s.cancelled ==> !s.awaitable.Live?)
    && (forall w :: 0 <= w < |s.workers| && Raced(s.workers[w]) ==> !s.alive)
    && (s.claims > 0 ==> exists w :: 0 <= w < |s.workers| && Raced(s.workers[w]))
  }

  /** The worker has executed its compare-and-swap. */
  predicate Raced(p: Pc) { !p.Waiting? && !p.Woken? }

  /** Nobody passes the wait before the future is ready, and only a resumption restarts a frame. */
  predicate Ordered(s: State) {
    && (forall w :: 0 <= w < |s.workers| && !s.workers[w].Waiting? ==> s.ready)
    && (s.resumes > 0 || s.consumed ==> s.ready)
    && (s.workers != [] && s.resumes == 0 ==> !s.frame.Running?)
    && (s.frame.Freed? ==> !s.awaitable.Live?)
  }

  /** The count equals the number of owners, and the state is freed when the last one goes. */
  predicate Counted(s: State) {
    && s.refs == Bit(!s.awaitable.Dropped?) + |s.workers| - Count(s.workers, Gone)
    && s.frees == Bit(s.refs == 0)
  }

  predicate Inv(s: State) { Exclusive(s) && Ordered(s) && Counted(s) }

  lemma {:induction false} WorkerCounts(s: State, st: Step)
    requires Inv(s) && Enabled(s, st)
    ensures
      var t := Apply(s, st);
      && Count(t.workers, Claimed) == Count(s.workers, Claimed)
           + (if st.TryClaim? && s.alive then 1 else if st.Resume? then -1 else 0)
      && Count(t.workers, Gone) == Count(s.workers, Gone) + (if st.Leave? then 1 else 0)
      && Count(t.workers, Gone) <= |t.workers|
  {
    var t := Apply(s, st);
    CountBounds(t.workers, Gone);
    if st.Suspend? {
      CountSnoc(s.workers, Waiting, Claimed);
      CountSnoc(s.workers, Waiting, Gone);
    } else if st.Wake? || st.TryClaim? || st.Resume? || st.Return? || st.Leave? {
      var w := st.w;
      CountMove(s.workers, w, t.workers[w], Claimed);
      CountMove(s.workers, w, t.workers[w], Gone);
    }
  }

  lemma {:induction false} RacedStays(s: State, st: Step)
    requires Inv(s) && Enabled(s, st)
    ensures
      var t := Apply(s, st);
      t.claims > 0 ==> exists w :: 0 <= w < |t.workers| && Raced(t.workers[w])
  {
    var t := Apply(s, st);
    if t.claims > s.claims {
      assert Raced(t.workers[st.w]);
    } else if s.claims > 0 {
      var w :| 0 <= w < |s.workers| && Raced(s.workers[w]);
      assert Raced(t.workers[w]);
    }
  }

  lemma {:induction false} StepKeepsOrdered(s: State, st: Step)
    requires Ordered(s) && Enabled(s, st)
    requires st.Cancel? || st.FinishFrame? || st.Suspend? || st.Get? || st.SetReady? || st.DropState?
    ensures Ordered(Apply(s, st))
  {
  }

  lemma {:induction false} WorkerKeepsOrdered(s: State, st: Step)
    requires Ordered(s) && Enabled(s, st)
    requires st.Wake? || st.TryClaim? || st.Resume? || st.Return? || st.Leave?
    ensures Ordered(Apply(s, st))
  {
    var t := Apply(s, st);
    assert forall w :: 0 <= w < |t.workers| && w != st.w ==> t.workers[w] == s.workers[w];
    assert s.workers[st.w].Waiting? || s.ready;
  }

  lemma {:induction false} StepKeepsInv(s: State, st: Step)
    requires Inv(s) && Enabled(s, st)
    ensures Inv(Apply(s, st))
  {
    RacedStays(s, st);
    WorkerCounts(s, st);
    CountBounds(s.workers, Claimed);
    CountBounds(s.workers, Gone);
    if st.Wake? || st.TryClaim? || st.Resume? || st.Return? || st.Leave? {
      WorkerKeepsOrdered(s, st);
    } else {
      StepKeepsOrdered(s, st);
    }
  }

  ghost predicate Runs(s: State, steps: seq<Step>)
    decreases |steps|
  {
    steps == [] || (Enabled(s, steps[0]) && Runs(Apply(s, steps[0]), steps[1..]))
  }

  ghost function EndOf(s: State, steps: seq<Step>): State
    requires Runs(s, steps)
    decreases |steps|
  {
    if steps == [] then s else EndOf(Apply(s, steps[0]), steps[1..])
  }

  lemma {:induction false} RunsKeepInv(s: State, steps: seq<Step>)
    requires Inv(s) && Runs(s, steps)
    ensures Inv(EndOf(s, steps))
    ensures !s.alive ==> !EndOf(s, steps).alive
    ensures s.cancelled ==> EndOf(s, steps).cancelled
    ensures s.claims <= EndOf(s, steps).claims && s.resumes <= EndOf(s, steps).resumes
    ensures s.strays <= EndOf(s, steps).strays
    decreases |steps|
  {
    if steps != [] {
      StepKeepsInv(s, steps[0]);
      RunsKeepInv(Apply(s, steps[0]), steps[1..]);
    }
  }

  lemma {:induction false} FreshInv(s: State)
    requires s.alive && !s.consumed && s.refs == 1 && s.frees == 0 && s.awaitable.Live? && s.frame.Running?
    requires s.workers == [] && s.claims == 0 && !s.cancelled && s.resumes == 0
    ensures Inv(s)
  {
  }

  ghost predicate Reachable(s: State) {
    exists steps :: Runs(INIT, steps) && EndOf(INIT, steps) == s
  }

  lemma {:induction false} ReachableInv(s: State)
    requires Reachable(s)
    ensures Inv(s)
  {
    var steps :| Runs(INIT, steps) && EndOf(INIT, steps) == s;
    FreshInv(INIT);
    RunsKeepInv(INIT, steps);
  }

  // ---------------------------------------------------------------- exclusivity

  /** For any number of workers and any interleaving: one claim and one resumption at most, never
      before the future is ready, and none at all once the destructor's exchange came first. */
  lemma {:induction false} Exclusivity(s: State, more: seq<Step>)
    requires Reachable(s) && Runs(s, more)
    ensures
      var t := EndOf(s, more);
      && t.resumes <= t.claims <= 1
      && (t.resumes > 0 ==> t.ready)
      && (!s.alive ==> !t.alive && t.claims == s.claims)
      && (s.cancelled ==> t.claims == 0 && t.resumes == 0)
  {
    ReachableInv(s);
    RunsKeepInv(s, more);
  }

  /** The one resumption finds the future ready and the coroutine suspended, unless its frame was
      freed from outside; it never restarts a coroutine that is running. */
  lemma {:induction false} ResumesOnlySuspended(s: State, w: nat)
    requires Reachable(s) && Enabled(s, Resume(w))
    ensures s.ready && s.resumes == 0 && s.claims == 1
    ensures s.frame.Suspended? || (s.frame.Freed? && !s.awaitable.Live?)
    ensures forall v :: 0 <= v < |s.workers| && s.workers[v].Claimed? ==> v == w
  {
    ReachableInv(s);
    CountBounds(s.workers, Claimed);
    forall v | 0 <= v < |s.workers| && s.workers[v].Claimed? ensures v == w {
      if v != w { CountPair(s.workers, v, w, Claimed); }
    }
  }

  // ---------------------------------------------------------------- no lost wake-up

  function Rank(p: Pc): nat {
    match p
    case Waiting => 5
    case Woken => 4
    case Claimed => 3
    case Resuming => 2
    case Leaving => 1
    case Gone => 0
  }

  /** The only step a worker can take next. */
  function NextOf(s: State, w: nat): Step
    requires w < |s.workers| && !s.workers[w].Gone?
  {
    match s.workers[w]
    case Waiting => Wake(w)
    case Woken => TryClaim(w)
    case Claimed => Resume(w)
    case Resuming => Return(w)
    case Leaving => Leave(w)
  }

  /** Once the future is ready, every worker not yet gone can move, and each of its moves brings it
      closer to the end. */
  lemma {:induction false} WorkerCanMove(s: State, w: nat)
    requires s.ready && w < |s.workers| && !s.workers[w].Gone?
    ensures Enabled(s, NextOf(s, w))
    ensures Rank(Apply(s, NextOf(s, w)).workers[w]) < Rank(s.workers[w])
  {
  }

  /** No step of anybody takes a worker back, and a ready future stays ready. */
  lemma {:induction false} NobodyPushesBack(s: State, w: nat, st: Step)
    requires w < |s.workers| && Enabled(s, st)
    ensures w < |Apply(s, st).workers| && Rank(Apply(s, st).workers[w]) <= Rank(s.workers[w])
    ensures s.ready ==> Apply(s, st).ready
  {
  }

  /** How many steps of `steps` worker `w` takes. */
  ghost function MovesOf(s: State, steps: seq<Step>, w: nat): nat
    requires Runs(s, steps)
    decreases |steps|
  {
    if steps == [] then 0
    else MovesOf(Apply(s, steps[0]), steps[1..], w)
         + if w < |s.workers| && !s.workers[w].Gone? && steps[0] == NextOf(s, w) then 1 else 0
  }

  /** So in any run, whether the future became ready before or after the suspension, a worker that
      has taken as many steps as its rank is gone: the wake-up is not lost and the worker ends. */
  lemma {:induction false} WorkerFinishes(s: State, steps: seq<Step>, w: nat)
    requires w < |s.workers| && Runs(s, steps)
    ensures w < |EndOf(s, steps).workers|
    ensures MovesOf(s, steps, w) + Rank(EndOf(s, steps).workers[w]) <= Rank(s.workers[w]) <= 5
    decreases |steps|
  {
    if steps != [] {
      NobodyPushesBack(s, w, steps[0]);
      if !s.workers[w].Gone? && steps[0] == NextOf(s, w) {
        assert Rank(Apply(s, steps[0]).workers[w]) < Rank(s.workers[w]);
      }
      WorkerFinishes(Apply(s, steps[0]), steps[1..], w);
    }
  }

  /** When every worker is gone, exactly one of two things happened: the coroutine was resumed, once,
      or the awaitable was destroyed first. */
  lemma {:induction false} ResumedOrDestroyedFirst(s: State)
    requires Reachable(s) && s.workers != []
    requires AllGone(s)
    ensures s.resumes == 1 <==> !s.cancelled
    ensures s.resumes == 0 <==> s.cancelled
  {
    ReachableInv(s);
    assert s.workers[0] == Gone;
    NoneLeft(s.workers, Claimed);
  }

  lemma {:induction false} NoneLeft(ws: seq<Pc>, p: Pc)
    requires forall w :: 0 <= w < |ws| ==> ws[w] != p
    ensures Count(ws, p) == 0
  {
    if ws != [] { NoneLeft(ws[1..], p); }
  }

  // ---------------------------------------------------------------- lifetime of the shared state

  /** The shared state is freed once, by whoever drops it last; until then every statement that
      touches it finds it there; and `get()` after a resumption finds the future ready. */
  lemma {:induction false} StateLifetime(s: State)
    requires Reachable(s)
    ensures s.frees <= 1
    ensures s.frees == 1 <==> s.awaitable.Dropped? && forall w :: 0 <= w < |s.workers| ==> s.workers[w].Gone?
    ensures !s.awaitable.Dropped? ==> s.frees == 0
    ensures forall w :: 0 <= w < |s.workers| && !s.workers[w].Gone? ==> s.frees == 0
    ensures s.frame.Running? && s.awaitable.Live? && s.resumes > 0 ==> Enabled(s, Get)
  {
    ReachableInv(s);
    CountBounds(s.workers, Gone);
  }

  /** The coroutine awaits the awaitable once, before `get()`. */
  ghost predicate AwaitsOnce(s: State, steps: seq<Step>)
    requires Runs(s, steps)
    decreases |steps|
  {
    steps == [] || ((steps[0].Suspend? ==> s.workers == [] && !s.consumed) && AwaitsOnce(Apply(s, steps[0]), steps[1..]))
  }

  /** No worker is about to wait on a future whose result was already taken. */
  predicate WaitsOnFuture(s: State) {
    |s.workers| <= 1 && (s.consumed ==> forall w :: 0 <= w < |s.workers| ==> !s.workers[w].Waiting?)
  }

  lemma {:induction false} SingleAwaitStep(s: State, st: Step)
    requires Inv(s) && WaitsOnFuture(s) && Enabled(s, st)
    requires st.Suspend? ==> s.workers == [] && !s.consumed
    ensures WaitsOnFuture(Apply(s, st))
  {
    if st.Get? && s.workers != [] && s.workers[0].Waiting? {
      NoneLeft(s.workers, Claimed);
    }
  }

  lemma {:induction false} SingleAwaitWaitsSafely(s: State, steps: seq<Step>)
    requires Inv(s) && WaitsOnFuture(s) && Runs(s, steps) && AwaitsOnce(s, steps)
    ensures WaitsOnFuture(EndOf(s, steps))
    decreases |steps|
  {
    if steps != [] {
      StepKeepsInv(s, steps[0]);
      SingleAwaitStep(s, steps[0]);
      SingleAwaitWaitsSafely(Apply(s, steps[0]), steps[1..]);
    }
  }

  // ---------------------------------------------------------------- the coroutine goes on

  /** What one suspension leaves true of the coroutine: it is suspended only until its one resumption,
      and only with a worker to wait for. */
  predicate OnceInv(s: State) {
    && |s.workers| <= 1
    && (s.frame.Suspended? ==> s.workers != [] && s.resumes == 0)
  }

  lemma {:induction false} OnceStep(s: State, st: Step)
    requires Inv(s) && OnceInv(s) && Enabled(s, st)
    requires st.Suspend? ==> s.workers == [] && !s.consumed
    ensures OnceInv(Apply(s, st))
  {
  }

  lemma {:induction false} OnceRuns(s: State, steps: seq<Step>)
    requires Inv(s) && OnceInv(s) && Runs(s, steps) && AwaitsOnce(s, steps)
    ensures Inv(EndOf(s, steps)) && OnceInv(EndOf(s, steps))
    decreases |steps|
  {
    if steps != [] {
      StepKeepsInv(s, steps[0]);
      OnceStep(s, steps[0]);
      OnceRuns(Apply(s, steps[0]), steps[1..]);
    }
  }

  /** Reached by a coroutine that awaits once. */
  ghost predicate ReachedOnce(s: State) {
    exists steps :: Runs(INIT, steps) && AwaitsOnce(INIT, steps) && EndOf(INIT, steps) == s
  }

  lemma {:induction false} ReachedOnceInv(s: State)
    requires ReachedOnce(s)
    ensures Inv(s) && OnceInv(s)
  {
    var steps :| Runs(INIT, steps) && AwaitsOnce(INIT, steps) && EndOf(INIT, steps) == s;
    FreshInv(INIT);
    FromStart(INIT, steps);
  }

  lemma {:induction false} FromStart(s: State, steps: seq<Step>)
    requires Inv(s) && s.workers == [] && s.frame.Running? && Runs(s, steps) && AwaitsOnce(s, steps)
    ensures Inv(EndOf(s, steps)) && OnceInv(EndOf(s, steps))
  {
    OnceRuns(s, steps);
  }

  /** A resumed coroutine is not suspended any more: it runs, or its frame is gone together with the
      awaitable. */
  lemma {:induction false} ResumedRuns(s: State)
    requires ReachedOnce(s) && s.resumes == 1
    ensures s.frame.Running? || (s.frame.Freed? && !s.awaitable.Live?)
  {
    ReachedOnceInv(s);
  }

  /** Once the worker is gone, unless the awaitable was destroyed, the coroutine runs and may take its
      result, which `get()` then does. */
  lemma {:induction false} ResultIsThere(s: State)
    requires ReachedOnce(s) && s.workers != [] && AllGone(s) && s.awaitable.Live?
    ensures s.frame.Running? && s.resumes == 1
    ensures Enabled(s, Get) && Apply(s, Get).consumed && Apply(s, Get).frame.Running?
  {
    ReachedOnceInv(s);
    assert s.workers[0] == Gone;
    NoneLeft(s.workers, Claimed);
  }

  /** The steps that promise, worker and coroutine take while nobody destroys anything. */
  predicate Peaceful(st: Step) { st.SetReady? || st.Wake? || st.TryClaim? || st.Resume? || st.Get? }

  /** No lost wake-up, to the end: from every state in which the coroutine is suspended and the
      awaitable lives, fulfilling the promise and letting the worker go on lead to the coroutine
      running with the result taken. */
  lemma {:induction false} AwaitCompletes(s: State) returns (steps: seq<Step>, t: State)
    requires ReachedOnce(s) && s.frame.Suspended? && s.awaitable.Live?
    ensures Runs(s, steps) && EndOf(s, steps) == t && forall i :: 0 <= i < |steps| ==> Peaceful(steps[i])
    ensures t.frame.Running? && t.awaitable.Live? && t.consumed && t.resumes == 1
  {
    ReachedOnceInv(s);
    CountBounds(s.workers, Claimed);
    var r := s.(ready := true);
    var more;
    more, t := ReadyCompletes(r);
    RunCons(s, SetReady, more);
    steps := [SetReady] + more;
  }

  lemma {:induction false} ReadyCompletes(s: State) returns (steps: seq<Step>, t: State)
    requires Inv(s) && OnceInv(s) && s.ready && s.frame.Suspended? && s.awaitable.Live?
    ensures Runs(s, steps) && EndOf(s, steps) == t && forall i :: 0 <= i < |steps| ==> Peaceful(steps[i])
    ensures t.frame.Running? && t.awaitable.Live? && t.consumed && t.resumes == 1
    decreases Rank(s.workers[0])
  {
    assert s.resumes == 0 && !s.cancelled;
    CountBounds(s.workers, Claimed);
    if !s.workers[0].Claimed? { NoneLeft(s.workers, Claimed); }
    var st := NextOf(s, 0);
    var r := Apply(s, st);
    StepKeepsInv(s, st);
    OnceStep(s, st);
    var more;
    if st.Resume? {
      t := Apply(r, Get);
      RunCons(r, Get, []);
      more := [Get] + [];
    } else {
      more, t := ReadyCompletes(r);
    }
    RunCons(s, st, more);
    steps := [st] + more;
  }

  /** The whole destructor: the flag is cleared, which cancels iff it was still set; the state loses
      one owner; destroyed from within the coroutine, the awaitable leaves it running. */
  lemma {:induction false} DestructorCall(s: State, outside: bool) returns (t: State)
    requires s.awaitable.Live? && (if outside then s.frame.Suspended? else s.frame.Running?)
    ensures Runs(s, [Cancel(outside), DropState]) && EndOf(s, [Cancel(outside), DropState]) == t
    ensures !t.alive && t.awaitable.Dropped? && t.refs == s.refs - 1 && t.workers == s.workers
    ensures t.cancelled <==> s.cancelled || s.alive
    ensures t.frame == (if outside then Freed else Running) && t.ready == s.ready && t.consumed == s.consumed
  {
    var r := Apply(s, Cancel(outside));
    t := Apply(r, DropState);
    RunCons(r, DropState, []);
    RunCons(s, Cancel(outside), [DropState] + []);
    assert [Cancel(outside)] + ([DropState] + []) == [Cancel(outside), DropState];
  }

  // ---------------------------------------------------------------- outside destruction

  /** A worker has claimed but not yet resumed, and the frame is gone. */
  predicate Doomed(s: State) {
    s.frame.Freed? && exists w :: 0 <= w < |s.workers| && s.workers[w].Claimed?
  }

  /** As long as the awaitable lives, a worker is between its claim and its resumption iff the flag is
      cleared and the coroutine has not been resumed. */
  lemma {:induction false} ClaimedIff(s: State)
    requires Inv(s) && s.awaitable.Live?
    ensures (exists w :: 0 <= w < |s.workers| && s.workers[w].Claimed?) <==> !s.alive && s.resumes == 0
  {
    CountBounds(s.workers, Claimed);
    if forall w :: 0 <= w < |s.workers| ==> !s.workers[w].Claimed? { NoneLeft(s.workers, Claimed); }
  }

  /** The flag does not cover a destruction from outside after it was cleared and before the coroutine
      was resumed: that is the one step that dooms a worker to resume a freed frame. */
  lemma {:induction false} DoomedIff(s: State, st: Step)
    requires Inv(s) && !Doomed(s) && Enabled(s, st)
    ensures Doomed(Apply(s, st)) <==> st == Cancel(true) && !s.alive && s.resumes == 0
  {
    var t := Apply(s, st);
    if st == Cancel(true) {
      assert t.workers == s.workers;
      ClaimedIff(s);
    } else if Doomed(t) {
      var w :| 0 <= w < |t.workers| && t.workers[w].Claimed?;
      CountBounds(s.workers, Claimed);
    }
  }

  /** Nobody destroys the frame from outside once the flag is cleared, until the coroutine was resumed. */
  ghost predicate DestroysInTime(s: State, steps: seq<Step>)
    requires Runs(s, steps)
    decreases |steps|
  {
    steps == [] ||
    ((steps[0] == Cancel(true) ==> s.alive || s.resumes > 0) && DestroysInTime(Apply(s, steps[0]), steps[1..]))
  }

  /** Under that discipline no worker ever resumes a freed frame. */
  lemma {:induction false} DisciplinedRunsNeverStray(s: State, steps: seq<Step>)
    requires Inv(s) && !Doomed(s) && s.strays == 0 && Runs(s, steps) && DestroysInTime(s, steps)
    ensures EndOf(s, steps).strays == 0
    decreases |steps|
  {
    if steps != [] {
      StepKeepsInv(s, steps[0]);
      DoomedIff(s, steps[0]);
      SoundStep(s, steps[0]);
      DisciplinedRunsNeverStray(Apply(s, steps[0]), steps[1..]);
    }
  }

  predicate AllGone(s: State) {
    forall w :: 0 <= w < |s.workers| ==> s.workers[w].Gone?
  }

  lemma {:induction false} DoomedStep(s: State, st: Step)
    requires Inv(s) && Doomed(s) && Enabled(s, st)
    ensures if st.Resume? then Apply(s, st).strays == s.strays + 1 else Doomed(Apply(s, st))
  {
    var w :| 0 <= w < |s.workers| && s.workers[w].Claimed?;
    assert !st.Resume? ==> Apply(s, st).workers[w].Claimed?;
  }

  /** A doomed worker that ends has resumed the freed frame. */
  lemma {:induction false} DoomedStrays(s: State, steps: seq<Step>)
    requires Inv(s) && Doomed(s) && Runs(s, steps) && AllGone(EndOf(s, steps))
    ensures EndOf(s, steps).strays > 0
    decreases |steps|
  {
    if steps != [] {
      DoomedStep(s, steps[0]);
      StepKeepsInv(s, steps[0]);
      if steps[0].Resume? {
        RunsKeepInv(Apply(s, steps[0]), steps[1..]);
      } else {
        DoomedStrays(Apply(s, steps[0]), steps[1..]);
      }
    }
  }

  lemma {:induction false} SoundStep(s: State, st: Step)
    requires Inv(s) && !Doomed(s) && Enabled(s, st)
    ensures Apply(s, st).strays == s.strays
  {
    assert st.Resume? ==> s.workers[st.w].Claimed?;
  }

  /** Over every run in which all workers end: no freed frame is ever resumed iff nobody destroyed it
      from outside after the flag was cleared and before the resumption. */
  lemma {:induction false} StraysIff(s: State, steps: seq<Step>)
    requires Inv(s) && !Doomed(s) && s.strays == 0 && Runs(s, steps) && AllGone(EndOf(s, steps))
    ensures EndOf(s, steps).strays == 0 <==> DestroysInTime(s, steps)
    decreases |steps|
  {
    if steps != [] {
      StepKeepsInv(s, steps[0]);
      DoomedIff(s, steps[0]);
      SoundStep(s, steps[0]);
      if Doomed(Apply(s, steps[0])) {
        DoomedStrays(Apply(s, steps[0]), steps[1..]);
      } else {
        StraysIff(Apply(s, steps[0]), steps[1..]);
      }
    }
  }

  lemma {:induction false} RunCons(s: State, st: Step, rest: seq<Step>)
    requires Enabled(s, st) && Runs(Apply(s, st), rest)
    ensures Runs(s, [st] + rest) && EndOf(s, [st] + rest) == EndOf(Apply(s, st), rest)
  {
    assert ([st] + rest)[1..] == rest;
  }

  /** A worker has claimed the one suspension of a coroutine. */
  const CLAIMED := INIT.(frame := Suspended, workers := [Claimed], refs := 2, ready := true, alive := false, claims := 1)

  const CLAIM := [Suspend, SetReady, Wake(0), TryClaim(0)]

  lemma {:induction false} ClaimRuns(rest: seq<Step>)
    requires Runs(CLAIMED, rest)
    ensures Runs(INIT, CLAIM + rest) && EndOf(INIT, CLAIM + rest) == EndOf(CLAIMED, rest)
  {
    var s1 := INIT.(frame := Suspended, workers := [Waiting], refs := 2);
    var s2 := s1.(ready := true);
    var s3 := s2.(workers := [Woken]);
    assert Apply(INIT, Suspend) == s1 && Apply(s1, SetReady) == s2 && Apply(s2, Wake(0)) == s3 && Apply(s3, TryClaim(0)) == CLAIMED;
    RunCons(s3, TryClaim(0), rest);
    RunCons(s2, Wake(0), [TryClaim(0)] + rest);
    RunCons(s1, SetReady, [Wake(0)] + ([TryClaim(0)] + rest));
    RunCons(INIT, Suspend, [SetReady] + ([Wake(0)] + ([TryClaim(0)] + rest)));
    assert CLAIM + rest == [Suspend] + ([SetReady] + ([Wake(0)] + ([TryClaim(0)] + rest)));
  }

  /** Without it one does: suspend, become ready, wake, claim, destroy from outside, resume. */
  lemma {:induction false} OutsideDestructionStrays()
    ensures Runs(INIT, CLAIM + [Cancel(true), Resume(0)])
    ensures EndOf(INIT, CLAIM + [Cancel(true), Resume(0)]).strays == 1
  {
    var s5 := CLAIMED.(awaitable := Cancelling, frame := Freed);
    assert Apply(CLAIMED, Cancel(true)) == s5;
    RunCons(s5, Resume(0), []);
    RunCons(CLAIMED, Cancel(true), [Resume(0)] + []);
    assert [Cancel(true)] + ([Resume(0)] + []) == [Cancel(true), Resume(0)];
    ClaimRuns([Cancel(true), Resume(0)]);
  }
}
