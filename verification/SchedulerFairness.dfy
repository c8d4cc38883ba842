/** Termination of `stop()` with any number of workers. An idle worker goes round its loop for ever, so
    this needs a fair schedule: every worker in `run` and the thread in `stop()` keep getting their
    turn, and the code of a task comes to its next yield or its end. */
module SchedulerFairness {
  import opened Wrappers
  import opened Tasks
  import opened SchedulerModel
  import opened SchedulerInvariant
  import opened SchedulerSteps
  import opened SchedulerCounters
  import opened SchedulerShutdown
  import opened SchedulerHistory
  import opened SchedulerTheorems
  import opened SchedulerSafety
  import opened SchedulerOvertaking
  import opened SchedulerCompletion

  // ---------------------------------------------------------------- infinite runs

  /** An infinite run: the state before every step, and the step. */
  datatype Behaviour = Behaviour(state: nat -> World, step: nat -> Step)

  ghost predicate Goes(b: Behaviour, n: nat) {
    Enabled(b.state(n), b.step(n)) && b.state(n + 1) == Apply(b.state(n), b.step(n))
  }

  ghost predicate IsBehaviour(b: Behaviour, c: Config) {
    Reachable(b.state(0), c) && forall n: nat :: Goes(b, n)
  }

  /** Step `st` takes worker `w` on: a step of the loop or of a switch, or the end of a segment. */
  ghost predicate Advances(st: Step, w: int) {
    !IsClient(st) && !IsStop(st) && Actor(st) == w
  }

  ghost predicate LiveIn(s: World, w: int) {
    w in s.workers && Live(s.workers[w].pc)
  }

  ghost predicate StopReady(s: World) {
    Enabled(s, StopEarly) || Enabled(s, StopFlag) || Enabled(s, StopDispatch) || Enabled(s, StopJoin)
  }

  ghost predicate WorkerTurn(b: Behaviour, w: int, n: nat) {
    LiveIn(b.state(n), w) ==> Advances(b.step(n), w)
  }

  ghost predicate StopTurn(b: Behaviour, n: nat) {
    StopReady(b.state(n)) ==> IsStop(b.step(n))
  }

  ghost predicate WorkerTurnComes(b: Behaviour, w: int, n: nat) {
    exists m: nat :: m >= n && WorkerTurn(b, w, m)
  }

  ghost predicate StopTurnComes(b: Behaviour, n: nat) {
    exists m: nat :: m >= n && StopTurn(b, m)
  }

  /** Whoever can go on for ever does so again and again: each worker in `run`, and `stop()`. */
  ghost predicate Fair(b: Behaviour) {
    && (forall w: int, n: nat :: WorkerTurnComes(b, w, n))
    && (forall n: nat :: StopTurnComes(b, n))
  }

  /** Only so many tasks are ever queued, submitted ones and fibers that yielded READY together. */
  ghost predicate WorkEnds(b: Behaviour) {
    exists bound: nat :: AtMost(b, bound)
  }

  ghost predicate AtMost(b: Behaviour, bound: nat) {
    forall n: nat :: |b.state(n).hist.pushed| <= bound
  }

  ghost predicate NoStrays(b: Behaviour) {
    forall n: nat :: b.state(n).hist.strays == {}
  }

  // ---------------------------------------------------------------- falling and rising numbers

  ghost predicate Falls(mu: nat -> nat, goal: nat -> bool, k: nat) {
    goal(k) || mu(k + 1) <= mu(k)
  }

  ghost predicate Drops(mu: nat -> nat, goal: nat -> bool, k: nat) {
    goal(k) || mu(k + 1) < mu(k)
  }

  ghost predicate DropComes(mu: nat -> nat, goal: nat -> bool, n: nat) {
    exists m: nat :: m >= n && Drops(mu, goal, m)
  }

  /** What never rises and falls again and again until the goal is met leads to the goal. */
  lemma {:induction false} Descends(mu: nat -> nat, goal: nat -> bool, n: nat) returns (m: nat)
    requires forall k: nat :: k >= n ==> Falls(mu, goal, k) && DropComes(mu, goal, k)
    ensures m >= n && goal(m)
    decreases mu(n)
  {
    assert DropComes(mu, goal, n);
    var j: nat :| j >= n && Drops(mu, goal, j);
    m := n;
    while m < j && !goal(m)
      invariant n <= m <= j && mu(m) <= mu(n)
    {
      assert Falls(mu, goal, m);
      m := m + 1;
    }
    if !goal(m) {
      m := Descends(mu, goal, j + 1);
    }
  }

  ghost predicate Rises(mu: nat -> nat, k: nat) {
    mu(k) <= mu(k + 1)
  }

  ghost predicate Within(mu: nat -> nat, bound: nat, k: nat) {
    mu(k) <= bound
  }

  ghost predicate SameAs(mu: nat -> nat, m: nat, k: nat) {
    mu(k) == mu(m)
  }

  lemma {:induction false} RisesTo(mu: nat -> nat, n: nat, k: nat)
    requires n <= k && forall j: nat :: j >= n ==> Rises(mu, j)
    ensures mu(n) <= mu(k)
    decreases k
  {
    if n < k {
      RisesTo(mu, n, k - 1);
      assert Rises(mu, k - 1);
    }
  }

  /** What never falls and stays below a bound is constant in the end. */
  lemma {:induction false} BecomesConstant(mu: nat -> nat, bound: nat, n: nat) returns (m: nat)
    requires forall k: nat :: k >= n ==> Rises(mu, k)
    requires forall k: nat :: k >= n ==> Within(mu, bound, k)
    ensures m >= n && forall k: nat :: k >= m ==> SameAs(mu, m, k)
    decreases bound - mu(n)
  {
    if k: nat :| k >= n && !SameAs(mu, n, k) {
      RisesTo(mu, n, k);
      assert Within(mu, bound, k);
      m := BecomesConstant(mu, bound, k);
    } else {
      m := n;
    }
  }

  // ---------------------------------------------------------------- a stop that has begun

  /** What a client or a task queues without being stray may be run by a worker that takes part. */
  lemma ClientQueues(s: World, c: Config, st: Step)
    requires Reachable(s, c) && s.ctl.stopPc != NotCalled && Enabled(s, st) && IsClient(st)
    requires Apply(s, st).hist.strays == {}
    ensures forall q :: q in Apply(s, st).queue ==> q in s.queue || Named(s, q)
  {
    if st.TaskSubmit? {
      LiveTakesPart(s, c, st.w);
      assert Apply(s, st).queue == s.queue + [SubmittedTask(s, st.sub, st.pin)];
      assert PinAllows(st.pin, st.w);
    } else {
      ClientOnlyQueues(s, st);
    }
  }

  lemma ClientOnlyQueues(s: World, st: Step)
    requires s.ctl.stopPc != NotCalled && Enabled(s, st) && IsClient(st) && !st.TaskSubmit?
    requires Apply(s, st).hist.strays == {}
    ensures Apply(s, st).queue == s.queue
  {}

  lemma BeganStep(s: World, c: Config, st: Step)
    requires Began(s, c) && Enabled(s, st) && Apply(s, st).hist.strays == {}
    ensures Began(Apply(s, st), c)
  {
    var t := Apply(s, st);
    ReachableStep(s, c, st);
    StepSetting(s, c, st);
    QueuesNamed(s, c, st);
    assert forall w :: TakesPart(t, w) <==> TakesPart(s, w);
    forall q | q in t.queue ensures Named(t, q) { assert Named(s, q); }
  }

  lemma QueuesNamed(s: World, c: Config, st: Step)
    requires Began(s, c) && Enabled(s, st) && Apply(s, st).hist.strays == {}
    ensures forall q :: q in Apply(s, st).queue ==> Named(s, q)
  {
    if IsClient(st) { ClientQueues(s, c, st); }
    else if IsStop(st) { StopAppends(s, st); }
    else {
      ActorQueues(s, st);
      ReachableFull(s, c);
      ActorLive(s, st);
      LiveTakesPart(s, c, Actor(st));
      assert PinAllows(ANY_THREAD, Actor(st));
    }
  }

  lemma {:induction false} BeganAt(b: Behaviour, c: Config, n: nat)
    requires IsBehaviour(b, c) && NoStrays(b) && Began(b.state(0), c)
    ensures Began(b.state(n), c)
  {
    if n > 0 {
      BeganAt(b, c, n - 1);
      assert Goes(b, n - 1);
      BeganStep(b.state(n - 1), c, b.step(n - 1));
    }
  }

  /** `stop()` only goes forward, and each of its own steps before the wait takes it on. */
  lemma StopFalls(s: World, c: Config, st: Step)
    requires Began(s, c) && Enabled(s, st)
    ensures StopDistance(Apply(s, st).ctl.stopPc) <= StopDistance(s.ctl.stopPc)
    ensures IsStop(st) && StopDistance(s.ctl.stopPc) > 0 ==> StopDistance(Apply(s, st).ctl.stopPc) < StopDistance(s.ctl.stopPc)
  {
    if IsClient(st) { ClientShape(s, st); }
    else if IsStop(st) {
      if s.ctl.stopPc == FlagsSet { DispatchMoves(s, c); }
      StopForward(s, st);
    } else {
      ActorForward(s, c, st);
    }
  }

  lemma ActorForward(s: World, c: Config, st: Step)
    requires Began(s, c) && Enabled(s, st) && !IsClient(st) && !IsStop(st)
    ensures StopDistance(Apply(s, st).ctl.stopPc) <= StopDistance(s.ctl.stopPc)
  {
    ReachableFull(s, c);
    ActorStops(s, st);
  }

  /** Of the workers' steps only the exit of the caller's worker moves `stop()`. */
  lemma ActorStops(s: World, st: Step)
    requires Inv(s) && Protocol(s) && Enabled(s, st) && !IsClient(st) && !IsStop(st)
    ensures StopDistance(Apply(s, st).ctl.stopPc) <= StopDistance(s.ctl.stopPc)
  {
    ActorLive(s, st);
    if Exits(s, st) { ExitStops(s, st.w); } else { ActorShape(s, st); }
  }

  lemma StopForward(s: World, st: Step)
    requires Enabled(s, st) && IsStop(st) && s.ctl.stopPc != NotCalled
    requires s.ctl.stopPc == FlagsSet ==> Apply(s, StopDispatch).ctl.stopPc in {InCall, Joining}
    ensures StopDistance(Apply(s, st).ctl.stopPc) <= StopDistance(s.ctl.stopPc)
    ensures StopDistance(s.ctl.stopPc) > 0 ==> StopDistance(Apply(s, st).ctl.stopPc) < StopDistance(s.ctl.stopPc)
  {}

  // ---------------------------------------------------------------- a stop that never returns

  /** What is assumed until it is refuted: `stop()` has begun properly and never returns. */
  ghost predicate NeverReturns(b: Behaviour, c: Config) {
    && IsBehaviour(b, c) && Fair(b) && WorkEnds(b) && NoStrays(b) && Began(b.state(0), c)
    && forall n: nat :: b.state(n).ctl.stopPc != Returned
  }

  function StopLeft(b: Behaviour, n: nat): nat {
    StopDistance(b.state(n).ctl.stopPc)
  }

  lemma StopLeftFalls(b: Behaviour, c: Config, n: nat)
    requires NeverReturns(b, c)
    ensures StopLeft(b, n + 1) <= StopLeft(b, n)
    ensures IsStop(b.step(n)) && StopLeft(b, n) > 0 ==> StopLeft(b, n + 1) < StopLeft(b, n)
  {
    BeganAt(b, c, n);
    assert Goes(b, n);
    StopFalls(b.state(n), c, b.step(n));
  }

  ghost predicate ClosingFrom(b: Behaviour, c: Config, n: nat) {
    forall k: nat :: k >= n ==> Closing(b.state(k), c)
  }

  lemma ClosesFrom(b: Behaviour, c: Config) returns (m: nat)
    requires NeverReturns(b, c)
    ensures ClosingFrom(b, c, m)
  {
    var mu := (k: nat) => StopLeft(b, k);
    var goal := (k: nat) => StopLeft(b, k) == 0;
    forall k: nat ensures Falls(mu, goal, k) && DropComes(mu, goal, k) {
      StopLeftFalls(b, c, k);
      assert StopTurnComes(b, k);
      var j: nat :| j >= k && StopTurn(b, j);
      StopLeftFalls(b, c, j);
      if !goal(j) { BeganAt(b, c, j); StopMoves(b.state(j)); }
      assert Drops(mu, goal, j);
    }
    m := Descends(mu, goal, 0);
    forall k: nat | k >= m ensures Closing(b.state(k), c) {
      StaysAtWait(b, c, m, k);
      BeganAt(b, c, k);
    }
  }

  lemma {:induction false} StaysAtWait(b: Behaviour, c: Config, m: nat, k: nat)
    requires NeverReturns(b, c) && m <= k && StopLeft(b, m) == 0
    ensures StopLeft(b, k) == 0
    decreases k
  {
    if m < k {
      StaysAtWait(b, c, m, k - 1);
      StopLeftFalls(b, c, k - 1);
    }
  }

  // ---------------------------------------------------------------- the last claim

  /** From `n` on nobody claims and the queue stays as it is. */
  ghost predicate CalmFrom(b: Behaviour, c: Config, n: nat) {
    forall k: nat :: k >= n ==> CalmAt(b, c, n, k)
  }

  ghost predicate CalmAt(b: Behaviour, c: Config, n: nat, k: nat) {
    Closing(b.state(k), c) && Goes(b, k) && !IsClaim(b.state(k), b.step(k)) && b.state(k).queue == b.state(n).queue
  }

  function Pushed(b: Behaviour, n: nat): nat {
    |b.state(n).hist.pushed|
  }

  function Claimed(b: Behaviour, n: nat): nat {
    |b.state(n).hist.claims|
  }

  /** The numbers of a step: what is queued was pushed and not claimed, and both numbers only grow. */
  lemma Balance(s: World, c: Config)
    requires Reachable(s, c)
    ensures |s.hist.pushed| == |s.queue| + |s.hist.claims|
  {
    DispatchedOnce(s, c);
    assert |multiset(s.hist.pushed)| == |multiset(s.queue) + multiset(ClaimedTasks(s.hist.claims))|;
  }

  lemma QueueGrows(s: World, c: Config, st: Step)
    requires Reachable(s, c) && Enabled(s, st)
    ensures var t := Apply(s, st);
      && |s.hist.claims| <= |t.hist.claims| && |s.hist.pushed| <= |t.hist.pushed|
      && (|s.hist.claims| == |t.hist.claims| && |s.hist.pushed| == |t.hist.pushed| ==> !IsClaim(s, st) && s.queue == t.queue)
  {
    ReachableStep(s, c, st);
    Balance(s, c);
    Balance(Apply(s, st), c);
    OneClaim(s, st);
    if !st.Scan? { OnlyAppends(s, st); }
  }

  lemma BecomesCalm(b: Behaviour, c: Config) returns (m: nat)
    requires NeverReturns(b, c)
    ensures CalmFrom(b, c, m)
  {
    var n := ClosesFrom(b, c);
    var bound: nat :| AtMost(b, bound);
    var pushed, claimed := (k: nat) => Pushed(b, k), (k: nat) => Claimed(b, k);
    forall k: nat ensures Rises(pushed, k) && Rises(claimed, k) && Within(pushed, bound, k) && Within(claimed, bound, k) {
      BeganAt(b, c, k);
      assert Goes(b, k);
      QueueGrows(b.state(k), c, b.step(k));
      Balance(b.state(k), c);
    }
    n := BecomesConstant(pushed, bound, n);
    m := BecomesConstant(claimed, bound, n);
    forall k: nat | k >= m ensures Frozen(b, m, k) {
      assert SameAs(pushed, n, k) && SameAs(pushed, n, m) && SameAs(claimed, m, k);
    }
    forall k: nat | k >= m ensures CalmAt(b, c, m, k) { StaysCalm(b, c, m, k); }
  }

  /** Both numbers are at `k` what they were at `m`. */
  ghost predicate Frozen(b: Behaviour, m: nat, k: nat) {
    Pushed(b, k) == Pushed(b, m) && Claimed(b, k) == Claimed(b, m)
  }

  lemma FrozenStep(b: Behaviour, c: Config, m: nat, k: nat)
    requires NeverReturns(b, c) && Frozen(b, m, k) && Frozen(b, m, k + 1)
    ensures !IsClaim(b.state(k), b.step(k)) && b.state(k + 1).queue == b.state(k).queue
  {
    BeganAt(b, c, k);
    assert Goes(b, k);
    QueueGrows(b.state(k), c, b.step(k));
  }

  lemma {:induction false} QueueStays(b: Behaviour, c: Config, m: nat, k: nat)
    requires NeverReturns(b, c) && m <= k && forall j: nat :: j >= m ==> Frozen(b, m, j)
    ensures b.state(k).queue == b.state(m).queue
    decreases k
  {
    if m < k {
      QueueStays(b, c, m, k - 1);
      FrozenStep(b, c, m, k - 1);
    }
  }

  /** While neither number changes, the queue does not. */
  lemma StaysCalm(b: Behaviour, c: Config, m: nat, k: nat)
    requires NeverReturns(b, c) && ClosingFrom(b, c, m) && m <= k && forall j: nat :: j >= m ==> Frozen(b, m, j)
    ensures CalmAt(b, c, m, k)
  {
    assert Goes(b, k);
    FrozenStep(b, c, m, k);
    QueueStays(b, c, m, k);
  }

  // ---------------------------------------------------------------- steps of a closing stop

  /** Step `st` of a closing stop, which goes on closing. */
  ghost predicate ClosingStep(s: World, c: Config, st: Step) {
    Closing(s, c) && Enabled(s, st) && Closing(Apply(s, st), c)
  }

  /** The stop itself does nothing but return. */
  lemma WaitOnly(s: World, c: Config, st: Step)
    requires ClosingStep(s, c, st)
    ensures !IsStop(st)
  {}

  /** A step that does not take `w` on leaves it alone, and its idle fiber as finished as it is. */
  ghost predicate LeavesAlone(s: World, t: World, w: int) {
    && (w in t.workers <==> w in s.workers)
    && (w in s.workers ==> t.workers[w] == s.workers[w])
    && (IdleDone(t, w) <==> IdleDone(s, w))
  }

  lemma OtherSame(s: World, c: Config, st: Step, w: int)
    requires ClosingStep(s, c, st) && !Advances(st, w)
    ensures LeavesAlone(s, Apply(s, st), w)
  {
    WaitOnly(s, c, st);
    ReachableFull(s, c);
    if IsClient(st) {
      ClientShape(s, st);
      ClientKeepsIdle(s, st, w);
    } else {
      OthersStay(s, st);
      ActorIsOK(s, st);
      ActorTouches(s, st);
      if w in s.workers { OthersKeepIdle(s, Apply(s, st), Actor(st), w); }
    }
  }

  lemma ActorTouches(s: World, st: Step)
    requires ActorOK(s, st) && Enabled(s, st) && !IsClient(st) && !IsStop(st)
    ensures TouchesOwn(s, Apply(s, st), Actor(st))
  {
    if st.BootWorker? || st.Scan? || st.Release? { LoopTouches(s, st); }
    else if st.Dispatch? || st.IdleOrExit? { SwitchTouches(s, st); }
    else if st.Classify? || st.DropStale? { ClassifyTouches(s, st); }
    else { FiberTouches(s, st); }
  }

  // ---------------------------------------------------------------- every worker comes to rest

  /** The worker has nothing in its hands and nothing to give back: it goes round through its idle
      fiber, or is not in `run`. */
  ghost predicate Resting(s: World, w: int) {
    w in s.workers ==>
    match s.workers[w].pc
    case Head => true
    case ScannedEmpty => true
    case InFiber(_, _) => MainCtx(s.workers[w]) == Loop(SiteIdle)
    case Back(site) => site == SiteIdle
    case pc => !Live(pc)
  }

  ghost function ToRest(s: World, w: int): nat {
    if w in s.workers then Distance(s.workers[w].pc) else 0
  }

  lemma StackCloser(s: World, st: Step)
    requires Enabled(s, st) && (st.EnterFiber? || st.Yield? || st.Finish? || st.IdleCheck? || st.SwapOut?)
    ensures Closer(s, Apply(s, st), Actor(st))
  {
    if st.Yield? { YieldCloser(s, st.w, if st.ready then READY else HOLD); }
    else if st.Finish? { FinishCloser(s, st.w, st.threw); }
    else { CloserOnStack(s, Actor(st)); }
  }

  lemma YieldCloser(s: World, w: int, state: FiberState)
    requires InTask(s, w)
    ensures Closer(s, BeginYield(s, w, state), w)
  {}

  lemma FinishCloser(s: World, w: int, threw: bool)
    requires InTask(s, w)
    ensures Closer(s, BeginFinish(s, w, threw), w)
  {}

  lemma LoopCloser(s: World, st: Step)
    requires Enabled(s, st) && (st.BootWorker? || st.Dispatch? || st.Release? || st.Classify? || st.DropStale?)
    ensures Closer(s, Apply(s, st), Actor(st))
  {
    if st.Dispatch? { CloserByClaim(s, st.w, st.id); }
    else if st.Release? { CloserBack(s, st.w); }
    else if st.Classify? { CloserByReturn(s, st.w); }
  }

  /** A step of a worker that is not resting takes it closer. */
  lemma AdvanceCloser(s: World, st: Step)
    requires Enabled(s, st) && !IsClient(st) && !IsStop(st) && Actor(st) in s.workers && !Resting(s, Actor(st))
    ensures Closer(s, Apply(s, st), Actor(st))
  {
    if st.EnterFiber? || st.Yield? || st.Finish? || st.IdleCheck? || st.SwapOut? { StackCloser(s, st); }
    else if !st.Scan? && !st.IdleOrExit? { LoopCloser(s, st); }
  }

  /** A worker in its idle fiber runs no task code. */
  lemma RestsOnStack(s: World, st: Step)
    requires Enabled(s, st) && ActorOK(s, st) && Resting(s, Actor(st))
    requires st.EnterFiber? || st.Yield? || st.Finish? || st.IdleCheck? || st.SwapOut?
    ensures !st.Yield? && !st.Finish? && Resting(Apply(s, st), Actor(st))
  {}

  lemma RestsInLoop(s: World, st: Step)
    requires Enabled(s, st) && ActorOK(s, st) && Resting(s, Actor(st)) && !IsClaim(s, st)
    requires st.Scan? || st.IdleOrExit? || st.Release?
    ensures Resting(Apply(s, st), Actor(st))
  {}

  lemma RestsOn(s: World, st: Step)
    requires Enabled(s, st) && ActorOK(s, st) && Resting(s, Actor(st)) && !IsClaim(s, st) && !IsClient(st) && !IsStop(st)
    ensures Resting(Apply(s, st), Actor(st))
  {
    if st.EnterFiber? || st.Yield? || st.Finish? || st.IdleCheck? || st.SwapOut? { RestsOnStack(s, st); }
    else if st.Scan? || st.IdleOrExit? || st.Release? { RestsInLoop(s, st); }
  }

  /** One step of a calm run, as worker `w` sees it. */
  lemma RestStep(s: World, c: Config, st: Step, w: int)
    requires ClosingStep(s, c, st) && !IsClaim(s, st)
    ensures Resting(s, w) ==> Resting(Apply(s, st), w)
    ensures !Resting(s, w) ==> ToRest(Apply(s, st), w) <= ToRest(s, w)
    ensures !Resting(s, w) && Advances(st, w) ==> ToRest(Apply(s, st), w) < ToRest(s, w)
  {
    if Advances(st, w) {
      ReachableActor(s, c, st);
      if Resting(s, w) { RestsOn(s, st); } else { AdvanceCloser(s, st); }
    } else {
      OtherSame(s, c, st, w);
    }
  }

  lemma CalmStep(b: Behaviour, c: Config, n: nat, k: nat)
    requires CalmFrom(b, c, n) && k >= n
    ensures ClosingStep(b.state(k), c, b.step(k)) && !IsClaim(b.state(k), b.step(k))
    ensures b.state(k + 1) == Apply(b.state(k), b.step(k)) && b.state(k).queue == b.state(n).queue
  {
    assert CalmAt(b, c, n, k) && CalmAt(b, c, n, k + 1);
  }

  ghost predicate RestsFrom(b: Behaviour, w: int, n: nat) {
    forall k: nat :: k >= n ==> Resting(b.state(k), w)
  }

  lemma RestFalls(b: Behaviour, c: Config, n: nat, k: nat, w: int)
    requires CalmFrom(b, c, n) && n <= k
    ensures Resting(b.state(k), w) ==> Resting(b.state(k + 1), w)
    ensures Resting(b.state(k), w) || ToRest(b.state(k + 1), w) <= ToRest(b.state(k), w)
    ensures Advances(b.step(k), w) ==> Resting(b.state(k), w) || ToRest(b.state(k + 1), w) < ToRest(b.state(k), w)
  {
    CalmStep(b, c, n, k);
    RestStep(b.state(k), c, b.step(k), w);
  }

  lemma {:induction false} RestPersists(b: Behaviour, c: Config, n: nat, m: nat, k: nat, w: int)
    requires CalmFrom(b, c, n) && n <= m <= k && Resting(b.state(m), w)
    ensures Resting(b.state(k), w)
    decreases k
  {
    if m < k {
      RestPersists(b, c, n, m, k - 1, w);
      RestFalls(b, c, n, k - 1, w);
    }
  }

  lemma ComesToRest(b: Behaviour, c: Config, n: nat, w: int) returns (m: nat)
    requires NeverReturns(b, c) && CalmFrom(b, c, n)
    ensures m >= n && RestsFrom(b, w, m)
  {
    var mu, goal := (k: nat) => ToRest(b.state(k), w), (k: nat) => Resting(b.state(k), w);
    forall k: nat | k >= n ensures Falls(mu, goal, k) && DropComes(mu, goal, k) {
      RestFalls(b, c, n, k, w);
      assert WorkerTurnComes(b, w, k);
      var j: nat :| j >= k && WorkerTurn(b, w, j);
      RestFalls(b, c, n, j, w);
      assert Drops(mu, goal, j);
    }
    m := Descends(mu, goal, n);
    forall k: nat | k >= m ensures Resting(b.state(k), w) { RestPersists(b, c, n, m, k, w); }
  }

  lemma {:induction false} AllComeToRest(b: Behaviour, c: Config, n: nat, todo: set<int>) returns (m: nat)
    requires NeverReturns(b, c) && CalmFrom(b, c, n)
    ensures m >= n && forall w :: w in todo ==> RestsFrom(b, w, m)
    decreases |todo|
  {
    if w :| w in todo {
      var m1 := AllComeToRest(b, c, n, todo - {w});
      var m2 := ComesToRest(b, c, n, w);
      m := if m1 < m2 then m2 else m1;
      forall v | v in todo ensures RestsFrom(b, v, m) { assert v != w ==> v in todo - {w}; }
    } else {
      m := n;
    }
  }

  // ---------------------------------------------------------------- the queue is empty

  ghost predicate AllRest(s: World) {
    forall w :: Resting(s, w)
  }

  lemma NobodyBusy(s: World, c: Config)
    requires Closing(s, c) && AllRest(s)
    ensures s.active == 0 && (s.queue == [] ==> StopCondition(s))
  {
    ReachableFull(s, c);
    CountsNothing(s);
  }

  lemma CountsNothing(s: World)
    requires CountersOK(s) && AllRest(s)
    ensures s.active == 0
  {
    forall w | w in s.workers ensures !Busy(s.workers[w]) { assert Resting(s, w); }
    assert Chosen(s, Busy) == {};
  }

  /** `w` may run the first task and has to look at the queue again. */
  ghost predicate WillScan(s: World, w: int) {
    s.queue != [] && Covers(s, w, s.queue[0])
  }

  /** In a closing stop somebody will always look at the first task again. */
  lemma SomeoneScans(s: World, c: Config) returns (w: int)
    requires Closing(s, c) && s.queue != []
    ensures WillScan(s, w)
  {
    ReachableFull(s, c);
    if SawStop(s) {
      assert s.hist.order[0] in s.hist.order && Covered(s, s.hist.order[0]);
      w :| Covers(s, w, s.queue[0]);
    } else {
      w := NamedScanner(s);
      assert !Gone(s, w);
    }
  }

  /** Steps of a resting worker to its next scan. */
  ghost function ToScan(s: World, w: int): nat {
    if w !in s.workers then 0
    else
      match s.workers[w].pc
      case Back(_) => 1
      case InFiber(_, phase) => if phase == Entering then 4 else if phase == Running then 3 else 2
      case ScannedEmpty => 5
      case _ => 0
  }

  /** The first task is eligible for whom its pin allows. */
  lemma HeadEligible(s: World, w: int)
    requires Inv(s) && s.queue != [] && PinAllows(s.queue[0].thread, w)
    ensures FirstEligible(s.queue, w, Executing(s)) == 0
  {
    if s.queue[0].FiberTask? { assert QueuedAt(s, 0, s.queue[0].fiber); }
  }

  lemma ScanComesOnStack(s: World, st: Step)
    requires Enabled(s, st) && ActorOK(s, st) && Resting(s, Actor(st)) && WillScan(s, Actor(st))
    requires st.EnterFiber? || st.IdleCheck? || st.SwapOut?
    ensures var w, t := Actor(st), Apply(s, st); WillScan(t, w) && ToScan(t, w) < ToScan(s, w)
  {}

  lemma ScanComesInLoop(s: World, st: Step)
    requires Enabled(s, st) && ActorOK(s, st) && Resting(s, Actor(st)) && WillScan(s, Actor(st))
    requires st.IdleOrExit? || st.Release?
    ensures var w, t := Actor(st), Apply(s, st); WillScan(t, w) && ToScan(t, w) < ToScan(s, w)
  {}

  lemma ScanComes(s: World, st: Step)
    requires Inv(s) && Enabled(s, st) && !IsClient(st) && !IsStop(st) && !IsClaim(s, st)
    requires Resting(s, Actor(st)) && WillScan(s, Actor(st))
    ensures var w, t := Actor(st), Apply(s, st); WillScan(t, w) && ToScan(t, w) < ToScan(s, w)
  {
    ActorIsOK(s, st);
    HeadEligible(s, Actor(st));
    if st.EnterFiber? || st.Yield? || st.Finish? || st.IdleCheck? || st.SwapOut? {
      RestsOnStack(s, st);
      ScanComesOnStack(s, st);
    } else if st.IdleOrExit? || st.Release? {
      ScanComesInLoop(s, st);
    }
  }

  lemma ScanStep(s: World, c: Config, st: Step, w: int)
    requires ClosingStep(s, c, st) && !IsClaim(s, st) && Resting(s, w) && WillScan(s, w) && Apply(s, st).queue == s.queue
    ensures WillScan(Apply(s, st), w) && ToScan(Apply(s, st), w) <= ToScan(s, w)
    ensures Advances(st, w) ==> ToScan(Apply(s, st), w) < ToScan(s, w)
  {
    if Advances(st, w) {
      ReachableFull(s, c);
      ScanComes(s, st);
    } else {
      OtherSame(s, c, st, w);
    }
  }

  lemma ScanFalls(b: Behaviour, c: Config, n: nat, k: nat, w: int)
    requires CalmFrom(b, c, n) && n <= k && Resting(b.state(k), w) && WillScan(b.state(k), w)
    ensures WillScan(b.state(k + 1), w) && ToScan(b.state(k + 1), w) <= ToScan(b.state(k), w)
    ensures Advances(b.step(k), w) ==> ToScan(b.state(k + 1), w) < ToScan(b.state(k), w)
  {
    CalmStep(b, c, n, k);
    CalmStep(b, c, n, k + 1);
    ScanStep(b.state(k), c, b.step(k), w);
  }

  lemma {:induction false} ScanPersists(b: Behaviour, c: Config, n: nat, k: nat, w: int)
    requires CalmFrom(b, c, n) && n <= k && RestsFrom(b, w, n) && WillScan(b.state(n), w)
    ensures WillScan(b.state(k), w) && LiveIn(b.state(k), w)
    decreases k
  {
    if n < k {
      ScanPersists(b, c, n, k - 1, w);
      ScanFalls(b, c, n, k - 1, w);
    }
  }

  /** A task in the queue of a calm run would be claimed. */
  lemma CalmMeansEmpty(b: Behaviour, c: Config, n: nat)
    requires NeverReturns(b, c) && CalmFrom(b, c, n) && forall w :: RestsFrom(b, w, n)
    ensures b.state(n).queue == []
  {
    if b.state(n).queue != [] {
      CalmStep(b, c, n, n);
      var w := SomeoneScans(b.state(n), c);
      var mu, goal := (k: nat) => ToScan(b.state(k), w), (k: nat) => false;
      forall k: nat | k >= n ensures Falls(mu, goal, k) && DropComes(mu, goal, k) {
        ScanPersists(b, c, n, k, w);
        ScanFalls(b, c, n, k, w);
        assert WorkerTurnComes(b, w, k);
        var j: nat :| j >= k && WorkerTurn(b, w, j);
        ScanPersists(b, c, n, j, w);
        ScanFalls(b, c, n, j, w);
        assert Drops(mu, goal, j);
      }
      var m := Descends(mu, goal, n);
    }
  }

  // ---------------------------------------------------------------- the workers leave

  /** Steps of a resting worker out of `run` while `stopping()` holds. */
  ghost function ToExit(s: World, w: int): nat {
    if w !in s.workers then 0
    else
      match s.workers[w].pc
      case Head => if IdleDone(s, w) then 2 else 9
      case ScannedEmpty => if IdleDone(s, w) then 1 else 8
      case InFiber(_, phase) => if phase == Entering then 7 else if phase == Running then 6 else if IdleDone(s, w) then 4 else 11
      case Back(_) => if IdleDone(s, w) then 3 else 10
      case _ => 0
  }

  lemma ExitComesOnStack(s: World, st: Step)
    requires Enabled(s, st) && ActorOK(s, st) && Resting(s, Actor(st)) && StopCondition(s)
    requires st.EnterFiber? || st.IdleCheck? || st.SwapOut?
    ensures ToExit(Apply(s, st), Actor(st)) < ToExit(s, Actor(st))
  {}

  lemma ExitComesInLoop(s: World, st: Step)
    requires Enabled(s, st) && ActorOK(s, st) && Resting(s, Actor(st)) && StopCondition(s)
    requires st.Scan? || st.IdleOrExit? || st.Release?
    ensures ToExit(Apply(s, st), Actor(st)) < ToExit(s, Actor(st))
  {}

  lemma ExitComes(s: World, st: Step)
    requires Enabled(s, st) && ActorOK(s, st) && !IsClient(st) && !IsStop(st) && Resting(s, Actor(st)) && StopCondition(s)
    ensures ToExit(Apply(s, st), Actor(st)) < ToExit(s, Actor(st))
  {
    if st.EnterFiber? || st.Yield? || st.Finish? || st.IdleCheck? || st.SwapOut? {
      RestsOnStack(s, st);
      ExitComesOnStack(s, st);
    } else if st.Scan? || st.IdleOrExit? || st.Release? {
      ExitComesInLoop(s, st);
    }
  }

  lemma ExitStep(s: World, c: Config, st: Step, w: int)
    requires ClosingStep(s, c, st) && AllRest(s) && s.queue == []
    ensures ToExit(Apply(s, st), w) <= ToExit(s, w)
    ensures Advances(st, w) ==> ToExit(Apply(s, st), w) < ToExit(s, w)
    ensures !LiveIn(s, w) ==> !LiveIn(Apply(s, st), w)
  {
    if Advances(st, w) {
      NobodyBusy(s, c);
      ReachableActor(s, c, st);
      ExitComes(s, st);
      NotRevived(s, c, st);
    } else {
      OtherSame(s, c, st, w);
    }
  }

  lemma NotRevived(s: World, c: Config, st: Step)
    requires Reachable(s, c) && Enabled(s, st) && !IsClient(st) && !IsStop(st)
    ensures LiveIn(s, Actor(st))
  {
    ReachableFull(s, c);
    ActorLive(s, st);
  }

  /** A calm run in which every worker rests and nothing is queued. */
  ghost predicate EndsFrom(b: Behaviour, c: Config, n: nat) {
    CalmFrom(b, c, n) && b.state(n).queue == [] && forall k: nat :: k >= n ==> AllRest(b.state(k))
  }

  lemma EndStep(b: Behaviour, c: Config, n: nat, k: nat, w: int)
    requires EndsFrom(b, c, n) && n <= k
    ensures ToExit(b.state(k + 1), w) <= ToExit(b.state(k), w)
    ensures Advances(b.step(k), w) ==> ToExit(b.state(k + 1), w) < ToExit(b.state(k), w)
    ensures !LiveIn(b.state(k), w) ==> !LiveIn(b.state(k + 1), w)
  {
    CalmStep(b, c, n, k);
    ExitStep(b.state(k), c, b.step(k), w);
  }

  ghost predicate LeftFrom(b: Behaviour, w: int, n: nat) {
    forall k: nat :: k >= n ==> !LiveIn(b.state(k), w)
  }

  lemma {:induction false} StaysAway(b: Behaviour, c: Config, n: nat, m: nat, k: nat, w: int)
    requires EndsFrom(b, c, n) && n <= m <= k && !LiveIn(b.state(m), w)
    ensures !LiveIn(b.state(k), w)
    decreases k
  {
    if m < k {
      StaysAway(b, c, n, m, k - 1, w);
      EndStep(b, c, n, k - 1, w);
    }
  }

  lemma Leaves(b: Behaviour, c: Config, n: nat, w: int) returns (m: nat)
    requires NeverReturns(b, c) && EndsFrom(b, c, n)
    ensures m >= n && LeftFrom(b, w, m)
  {
    var mu, goal := (k: nat) => ToExit(b.state(k), w), (k: nat) => !LiveIn(b.state(k), w);
    forall k: nat | k >= n ensures Falls(mu, goal, k) && DropComes(mu, goal, k) {
      EndStep(b, c, n, k, w);
      assert WorkerTurnComes(b, w, k);
      var j: nat :| j >= k && WorkerTurn(b, w, j);
      EndStep(b, c, n, j, w);
      assert Drops(mu, goal, j);
    }
    m := Descends(mu, goal, n);
    forall k: nat | k >= m ensures !LiveIn(b.state(k), w) { StaysAway(b, c, n, m, k, w); }
  }

  lemma {:induction false} AllLeave(b: Behaviour, c: Config, n: nat, todo: set<int>) returns (m: nat)
    requires NeverReturns(b, c) && EndsFrom(b, c, n)
    ensures m >= n && forall w :: w in todo ==> LeftFrom(b, w, m)
    decreases |todo|
  {
    if w :| w in todo {
      var m1 := AllLeave(b, c, n, todo - {w});
      var m2 := Leaves(b, c, n, w);
      m := if m1 < m2 then m2 else m1;
      forall v | v in todo ensures LeftFrom(b, v, m) { assert v != w ==> v in todo - {w}; }
    } else {
      m := n;
    }
  }

  // ---------------------------------------------------------------- the theorem

  lemma OnlyConfigured(s: World, c: Config)
    requires Reachable(s, c)
    ensures s.workers.Keys == WorkerIds(c)
  {
    ReachableFull(s, c);
  }

  /** Nobody else rests, leaves or does anything. */
  lemma NobodyElse(b: Behaviour, c: Config, n: nat, w: int)
    requires NeverReturns(b, c) && w !in WorkerIds(c)
    ensures RestsFrom(b, w, n)
  {
    forall k: nat | k >= n ensures Resting(b.state(k), w) {
      BeganAt(b, c, k);
      OnlyConfigured(b.state(k), c);
    }
  }

  lemma ComesToEnd(b: Behaviour, c: Config) returns (n: nat)
    requires NeverReturns(b, c)
    ensures EndsFrom(b, c, n)
  {
    var calm := BecomesCalm(b, c);
    n := AllComeToRest(b, c, calm, WorkerIds(c));
    forall w ensures RestsFrom(b, w, n) {
      if w !in WorkerIds(c) { NobodyElse(b, c, n, w); }
    }
    forall k: nat | k >= n ensures CalmAt(b, c, n, k) { assert CalmAt(b, c, calm, k) && CalmAt(b, c, calm, n); }
    forall k: nat | k >= n ensures AllRest(b.state(k)) {
      forall w ensures Resting(b.state(k), w) { assert RestsFrom(b, w, n); }
    }
    CalmMeansEmpty(b, c, n);
  }

  /** No fair run with finite work waits for ever. */
  lemma NoEndlessStop(b: Behaviour, c: Config)
    ensures !NeverReturns(b, c)
  {
    if NeverReturns(b, c) {
      var n := ComesToEnd(b, c);
      var m := AllLeave(b, c, n, WorkerIds(c));
      assert StopTurnComes(b, m);
      var j: nat :| j >= m && StopTurn(b, j);
      CalmStep(b, c, n, j);
      var s := b.state(j);
      OnlyConfigured(s, c);
      forall w | w in s.workers ensures !Live(s.workers[w].pc) { assert LeftFrom(b, w, m) && !LiveIn(s, w); }
      JoinEnds(s, c);
      WaitOnly(s, c, b.step(j));
    }
  }

  /** `stop()` has returned by step `n`, with nothing left in the queue. */
  ghost predicate DrainedAt(b: Behaviour, n: nat) {
    b.state(n).ctl.stopPc == Returned && b.state(n).queue == []
  }

  lemma {:induction false} UnnamedAt(b: Behaviour, c: Config, q: Task<nat>, n: nat)
    requires IsBehaviour(b, c) && b.state(0).ctl.stopPc != NotCalled && q in b.state(0).queue && !Named(b.state(0), q)
    ensures Reachable(b.state(n), c) && b.state(n).ctl.stopPc != NotCalled && q in b.state(n).queue && !Named(b.state(n), q)
  {
    if n > 0 {
      UnnamedAt(b, c, q, n - 1);
      assert Goes(b, n - 1);
      var s, st := b.state(n - 1), b.step(n - 1);
      UnnamedStays(s, c, st, q);
      StepSetting(s, c, st);
      ReachableStep(s, c, st);
    }
  }

  /** Every fair run in which `stop()` has begun, only so many tasks are ever queued and none of them is
      stray: `stop()` returns with an empty queue if and only if every task queued at the beginning may
      be run by a worker that takes part. */
  lemma FairStopReturns(b: Behaviour, c: Config)
    requires IsBehaviour(b, c) && Fair(b) && WorkEnds(b) && NoStrays(b) && b.state(0).ctl.stopPc != NotCalled
    ensures (exists n: nat :: DrainedAt(b, n)) <==> Drainable(b.state(0))
  {
    if Drainable(b.state(0)) {
      NoEndlessStop(b, c);
      assert Began(b.state(0), c);
      var n: nat :| b.state(n).ctl.stopPc == Returned;
      BeganAt(b, c, n);
      ReturnedEmpty(b.state(n), c);
      assert DrainedAt(b, n);
    } else {
      var q :| q in b.state(0).queue && !Named(b.state(0), q);
      forall n: nat ensures !DrainedAt(b, n) { UnnamedAt(b, c, q, n); }
    }
  }
}
