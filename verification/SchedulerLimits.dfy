/** Where the guarantees of the scheduler end: a task pinned to a worker that has left, or that never
    existed, stays in the queue for good. */
module SchedulerLimits {
  import opened Wrappers
  import opened Tasks
  import opened SchedulerModel
  import opened SchedulerInvariant
  import opened SchedulerSteps
  import opened SchedulerTheorems
  import opened SchedulerOvertaking

  /** No worker of this id will ever scan the queue. */
  ghost predicate Absent(s: World, p: int) {
    p != ANY_THREAD && (p in s.workers ==> s.workers[p].pc == Exited || s.workers[p].pc == Skipped)
  }

  lemma ActorStaysAbsent(s: World, st: Step, p: int)
    requires Inv(s) && Enabled(s, st) && !IsClient(st) && !IsStop(st) && Absent(s, p)
    ensures Absent(Apply(s, st), p)
  {
    ActorLive(s, st);
    OthersStay(s, st);
  }

  lemma StopStaysAbsent(s: World, st: Step, p: int)
    requires Protocol(s) && Enabled(s, st) && IsStop(st) && Absent(s, p)
    ensures Absent(Apply(s, st), p)
  {
    StopShape(s, st);
  }

  lemma StaysAbsent(s: World, st: Step, p: int)
    requires FullInv(s) && Enabled(s, st) && Absent(s, p)
    ensures Absent(Apply(s, st), p)
  {
    if IsClient(st) {
      ClientShape(s, st);
    } else if IsStop(st) {
      StopStaysAbsent(s, st, p);
    } else {
      ActorStaysAbsent(s, st, p);
    }
  }

  lemma StaysQueued(s: World, st: Step, t: Task<nat>)
    requires FullInv(s) && Enabled(s, st) && Absent(s, t.thread) && t in s.queue
    ensures t in Apply(s, st).queue
  {
    if st.Scan? {
      ScanLeaves(s.queue, FirstEligible(s.queue, st.w, Executing(s)), t);
    } else {
      OnlyAppends(s, st);
    }
  }

  /** A queued task whose pin names an absent worker is never run, whatever happens later. */
  lemma {:induction false} StrandedForever(s: World, steps: seq<Step>, t: Task<nat>)
    requires FullInv(s) && ValidRun(s, steps) && Absent(s, t.thread) && t in s.queue
    ensures t in Run(s, steps).queue
    decreases |steps|
  {
    if steps != [] {
      StaysAbsent(s, steps[0], t.thread);
      StaysQueued(s, steps[0], t);
      StepFull(s, steps[0]);
      StrandedForever(Apply(s, steps[0]), steps[1..], t);
    }
  }

  // ---------------------------------------------------------------- the gap at shutdown

  const ONE_WORKER := Config({1}, None)

  /** One pool worker, and how far it has come with its only callback. */
  ghost predicate Shows(s: World, x: Worker, queue: seq<Task<nat>>, active: int) {
    && s.workers == map[1 := x] && s.queue == queue && s.active == active
    && s.ctl.root == None && s.ctl.poolStarted && s.ctl.stopPc == NotCalled && !s.ctl.autoStop
  }

  ghost predicate Scene(s: World, x: Worker, queue: seq<Task<nat>>, active: int) {
    Reachable(s, ONE_WORKER) && Shows(s, x, queue, active)
  }

  ghost predicate Body(s: World, st: FiberState, ctx: Ctx) {
    1 in s.fibers && s.fibers[1].state == st && s.fibers[1].ctx == ctx && s.fibers[1].fn == TaskFn(0)
  }

  /** The worker of the scenes while its loop runs. */
  function Started(pc: Pc, ft: Option<Task<nat>>, cbFiber: Option<nat>, ctx: Cont): Worker {
    Worker(pc, ft, cbFiber, Some(0), ThreadFiber, ThreadFiber, ctx, Nowhere, NoFiber)
  }

  /** The worker of the scenes while the callback's fiber is on its thread. */
  function On(phase: Phase): Worker {
    Started(InFiber(1, phase), None, Some(1), Loop(SiteCb)).(current := CoFiber(1))
  }

  lemma SceneStarted() returns (s: World)
    ensures Scene(s, POOL_WORKER.(pc := Boot), [], 0) && s.fibers == map[] && s.hist.nextCb == 0
  {
    s := Init(ONE_WORKER);
    assert ValidRun(s, []) && Run(s, []) == s && ValidConfig(ONE_WORKER);
    ReachableStep(s, ONE_WORKER, StartPool);
    s := Apply(s, StartPool);
  }

  lemma SceneSubmitted() returns (s: World)
    ensures Scene(s, Started(Head, None, None, Nowhere), [CallbackTask(0, ANY_THREAD)], 0)
    ensures s.fibers.Keys == {0}
  {
    s := SceneStarted();
    ReachableStep(s, ONE_WORKER, BootWorker(1, 0));
    s := Apply(s, BootWorker(1, 0));
    ReachableStep(s, ONE_WORKER, ClientSubmit(SubCallback, ANY_THREAD));
    s := Apply(s, ClientSubmit(SubCallback, ANY_THREAD));
  }

  lemma ScanShows(s: World)
    requires Shows(s, Started(Head, None, None, Nowhere), [CallbackTask(0, ANY_THREAD)], 0) && s.fibers.Keys == {0}
    ensures Enabled(s, Scan(1))
    ensures var t := Apply(s, Scan(1));
      Shows(t, Started(Claimed, Some(CallbackTask(0, ANY_THREAD)), None, Nowhere), [], 1) && t.fibers.Keys == {0}
  {
    assert FirstEligible(s.queue, 1, Executing(s)) == 0;
  }

  lemma DispatchShows(s: World)
    requires Shows(s, Started(Claimed, Some(CallbackTask(0, ANY_THREAD)), None, Nowhere), [], 1) && s.fibers.Keys == {0}
    ensures Enabled(s, Dispatch(1, 1))
    ensures var t := Apply(s, Dispatch(1, 1)); Shows(t, On(Entering), [], 1) && Body(t, EXEC, Entry)
  {}

  lemma EnterShows(s: World)
    requires Shows(s, On(Entering), [], 1) && Body(s, EXEC, Entry)
    ensures Enabled(s, EnterFiber(1))
    ensures var t := Apply(s, EnterFiber(1)); Shows(t, On(Running), [], 1) && Body(t, EXEC, Entry)
  {}

  lemma YieldShows(s: World)
    requires Shows(s, On(Running), [], 1) && Body(s, EXEC, Entry)
    ensures Enabled(s, Yield(1, true))
    ensures var t := Apply(s, Yield(1, true)); Shows(t, On(Leaving(1, false)), [], 1) && Body(t, READY, Entry)
  {}

  lemma SwapOutShows(s: World)
    requires Shows(s, On(Leaving(1, false)), [], 1) && Body(s, READY, Entry)
    ensures Enabled(s, SwapOut(1))
    ensures var t := Apply(s, SwapOut(1));
      Shows(t, Started(Back(SiteCb), None, Some(1), Loop(SiteCb)), [], 1) && Body(t, READY, Suspended(1))
  {}

  /** The callback is claimed, switched in, yields READY and is back in the loop. */
  lemma SceneBack() returns (s: World)
    ensures Scene(s, Started(Back(SiteCb), None, Some(1), Loop(SiteCb)), [], 1) && Body(s, READY, Suspended(1))
  {
    s := SceneSubmitted();
    ScanShows(s);
    ReachableStep(s, ONE_WORKER, Scan(1));
    s := Apply(s, Scan(1));
    DispatchShows(s);
    ReachableStep(s, ONE_WORKER, Dispatch(1, 1));
    s := Apply(s, Dispatch(1, 1));
    EnterShows(s);
    ReachableStep(s, ONE_WORKER, EnterFiber(1));
    s := Apply(s, EnterFiber(1));
    YieldShows(s);
    ReachableStep(s, ONE_WORKER, Yield(1, true));
    s := Apply(s, Yield(1, true));
    SwapOutShows(s);
    ReachableStep(s, ONE_WORKER, SwapOut(1));
    s := Apply(s, SwapOut(1));
  }

  /** The fiber is back in the loop, in the worker's hands, while `stop()` has come to `stop`. */
  ghost predicate StopScene(s: World, stop: StopPc) {
    && Reachable(s, ONE_WORKER) && s.ctl.root == None && s.ctl.stopPc == stop
    && (stop != NotCalled ==> s.ctl.autoStop) && (stop == FlagsSet ==> s.ctl.isStopping)
    && AtPc(s, 1, Back(SiteCb)) && s.workers[1].cbFiber == Some(1) && s.queue == [] && s.active == 1
    && 1 in s.fibers && s.fibers[1].state == READY
  }

  lemma EarlyShows(s: World)
    requires StopScene(s, AutoStopSet)
    ensures Enabled(s, StopEarly) && StopScene(Apply(s, StopEarly), PastEarlyTest)
  {
    ReachableStep(s, ONE_WORKER, StopEarly);
  }

  lemma SceneCalled() returns (s: World)
    ensures StopScene(s, AutoStopSet)
  {
    s := SceneBack();
    ReachableStep(s, ONE_WORKER, StopCall);
    s := Apply(s, StopCall);
  }

  lemma SceneFlagged() returns (s: World)
    ensures StopScene(s, PastEarlyTest)
  {
    s := SceneCalled();
    EarlyShows(s);
    s := Apply(s, StopEarly);
  }

  lemma SceneStopping() returns (s: World)
    ensures StopScene(s, FlagsSet)
  {
    s := SceneFlagged();
    ReachableStep(s, ONE_WORKER, StopFlag);
    s := Apply(s, StopFlag);
  }

  /** The gap is real: `stopping()` can be true while a worker still holds a READY fiber. */
  lemma StoppingWithReadyFiber()
    ensures exists s, c, w: int, f: nat ::
      Reachable(s, c) && StopCondition(s) && HoldsAt(s, w, f) && f in s.fibers && s.fibers[f].state == READY
  {
    var s := SceneStopping();
    ReachableStep(s, ONE_WORKER, Release(1));
    s := Apply(s, Release(1));
    assert HoldsAt(s, 1, 1);
  }
}
