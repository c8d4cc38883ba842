/** The guarantees of the scheduler, stated for every reachable state of every configuration. */
module SchedulerSafety {
  import opened Wrappers
  import opened Tasks
  import opened SchedulerModel
  import opened SchedulerInvariant
  import opened SchedulerSteps
  import opened SchedulerCounters
  import opened SchedulerShutdown
  import opened SchedulerHistory
  import opened SchedulerTheorems

  // ---------------------------------------------------------------- ownership

  /** Each fiber is in at most one of: a queue entry, one worker's hands. An executing fiber is the
      current fiber of exactly one worker, which holds it. */
  lemma ExclusiveOwnership(s: World, c: Config, f: nat)
    requires Reachable(s, c) && f in s.fibers
    ensures forall v, w :: HoldsAt(s, v, f) && HoldsAt(s, w, f) ==> v == w
    ensures forall i, j :: QueuedAt(s, i, f) && QueuedAt(s, j, f) ==> i == j
    ensures forall i, w :: QueuedAt(s, i, f) ==> !HoldsAt(s, w, f)
    ensures s.fibers[f].state == EXEC ==> exists w :: OnThreadOf(s, w, f) && HoldsAt(s, w, f) && s.workers[w].current == CoFiber(f)
    ensures forall v, w :: OnThreadOf(s, v, f) && OnThreadOf(s, w, f) ==> v == w
    ensures s.fibers[f].state == READY ==> (exists i :: QueuedAt(s, i, f)) || (exists w :: HoldsAt(s, w, f))
  {
    ReachableFull(s, c);
    if s.fibers[f].state == EXEC {
      var w :| OnThreadOf(s, w, f);
      RunnerHolds(s, w, f);
      assert WorkerOK(s, s.workers[w]);
    }
    forall v, w | OnThreadOf(s, v, f) && OnThreadOf(s, w, f) ensures v == w {
      RunnerHolds(s, v, f);
      RunnerHolds(s, w, f);
    }
  }

  // ---------------------------------------------------------------- the assertions of the source

  /** What the run-time checks on the path of a step demand of the state before it. */
  ghost predicate ChecksPass(s: World, st: Step)
    requires Enabled(s, st)
  {
    match st
    case Dispatch(w, _) =>
      (match s.workers[w].ft.value
       case FiberTask(f, _) =>  // swapIn: not executing; a spent stack is never resumed
         !Finished(s.fibers[f].state) ==> s.fibers[f].state != EXEC && !s.fibers[f].ctx.Spent?
       case CallbackTask(_, _) =>  // Fiber::reset: the recycled fiber is at its start and has no function
         s.workers[w].cbFiber.Some? ==>
           var c := s.workers[w].cbFiber.value;
           c in s.fibers && s.fibers[c] == Fiber(INIT, NoFn, Entry, None, None) && forall i :: !QueuedAt(s, i, c))
      && s.active > 0
    case EnterFiber(w) =>  // GetThis names the fiber whose stack this is
      s.workers[w].current == CoFiber(s.workers[w].pc.exec) && !s.fibers[s.workers[w].pc.exec].ctx.Spent?
    case Yield(w, _) => CurrentRuns(s, w)
    case Finish(w, _) => CurrentRuns(s, w) && s.fibers[s.workers[w].pc.exec].mainRef == Some(s.workers[w].pc.exec)
    case IdleCheck(w) => CurrentRuns(s, w) && s.fibers[s.workers[w].pc.exec].mainRef == Some(s.workers[w].pc.exec)
    case Release(w) => if s.workers[w].pc.site == SiteIdle then s.idleCount > 0 else s.active > 0
    case IdleOrExit(w) =>
      s.fibers[s.workers[w].idle.value].state != TERM ==>
        s.fibers[s.workers[w].idle.value].state != EXEC && !s.fibers[s.workers[w].idle.value].ctx.Spent?
    case StartPool =>  // the list of threads is empty when start() goes to work
      s.ctl.isStopping ==> !s.ctl.poolStarted
    case _ => true
  }

  /** `t_fiber` denotes the fiber actually executing, and that fiber is in EXEC. */
  ghost predicate CurrentRuns(s: World, w: int) {
    w in s.workers && s.workers[w].pc.InFiber? && s.workers[w].pc.exec in s.fibers
    && s.workers[w].current == CoFiber(s.workers[w].pc.exec) && s.fibers[s.workers[w].pc.exec].state == EXEC
  }

  lemma BusyPositive(s: World, w: int)
    requires CountersOK(s) && w in s.workers
    ensures Busy(s.workers[w]) ==> s.active > 0
    ensures Idling(s.workers[w]) ==> s.idleCount > 0
  {
    assert Busy(s.workers[w]) ==> w in Chosen(s, Busy);
    assert Idling(s.workers[w]) ==> w in Chosen(s, Idling);
  }

  lemma DispatchChecks(s: World, st: Step)
    requires FullInv(s) && Enabled(s, st) && st.Dispatch?
    ensures ChecksPass(s, st)
  {
    var x := s.workers[st.w];
    assert WorkerOK(s, x);
    BusyPositive(s, st.w);
    if x.cbFiber.Some? { assert HoldsAt(s, st.w, x.cbFiber.value); }
  }

  lemma FiberChecks(s: World, st: Step)
    requires FullInv(s) && Enabled(s, st)
    requires st.EnterFiber? || st.Yield? || st.Finish? || st.IdleCheck?
    ensures ChecksPass(s, st)
  {
    assert WorkerOK(s, s.workers[Actor(st)]);
  }

  lemma LoopChecks(s: World, st: Step)
    requires FullInv(s) && Enabled(s, st) && (st.Release? || st.IdleOrExit?)
    ensures ChecksPass(s, st)
  {
    assert WorkerOK(s, s.workers[st.w]);
    BusyPositive(s, st.w);
  }

  /** No assertion on the path of any step of any run fails, and no counter wraps below zero. */
  lemma AssertionsNeverFail(s: World, c: Config, st: Step)
    requires Reachable(s, c) && Enabled(s, st)
    ensures ChecksPass(s, st)
  {
    ReachableFull(s, c);
    if st.Dispatch? { DispatchChecks(s, st); }
    else if st.EnterFiber? || st.Yield? || st.Finish? || st.IdleCheck? { FiberChecks(s, st); }
    else if st.Release? || st.IdleOrExit? { LoopChecks(s, st); }
  }

  /** Both counters equal the number of workers in the corresponding phase. */
  lemma CountersExact(s: World, c: Config)
    requires Reachable(s, c)
    ensures s.active == |set w | w in s.workers && Busy(s.workers[w])|
    ensures s.idleCount == |set w | w in s.workers && Idling(s.workers[w])|
    ensures 0 <= s.active <= |s.workers| && 0 <= s.idleCount <= |s.workers|
  {
    ReachableFull(s, c);
    assert Chosen(s, Busy) == set w | w in s.workers && Busy(s.workers[w]);
    assert Chosen(s, Idling) == set w | w in s.workers && Idling(s.workers[w]);
    SubsetSize(Chosen(s, Busy), s.workers.Keys);
    SubsetSize(Chosen(s, Idling), s.workers.Keys);
    assert |s.workers| == |s.workers.Keys|;
  }

  lemma SubsetSize(a: set<int>, b: set<int>)
    requires a <= b
    ensures |a| <= |b|
  {
    assert b == a + (b - a);
  }

  /** At every head of the worker loop the callback fiber is absent, or at its start, without a
      function, and queued nowhere. */
  lemma RecyclingSafe(s: World, c: Config, w: int)
    requires Reachable(s, c) && AtPc(s, w, Head) && s.workers[w].cbFiber.Some?
    ensures var f := s.workers[w].cbFiber.value;
      f in s.fibers && s.fibers[f] == Fiber(INIT, NoFn, Entry, None, None)
      && (forall i :: !QueuedAt(s, i, f)) && (forall v :: HoldsAt(s, v, f) ==> v == w)
  {
    ReachableFull(s, c);
    assert WorkerOK(s, s.workers[w]);
    assert HoldsAt(s, w, s.workers[w].cbFiber.value);
  }

  // ---------------------------------------------------------------- lifetime

  /** A shared pointer to `f` exists: in the queue, in a worker's locals (also a handle about to be
      dropped), on a fiber's stack, or with a client. */
  ghost predicate Referenced(s: World, f: nat) {
    || f in s.handles
    || (exists i :: QueuedAt(s, i, f))
    || (exists w :: w in s.workers && Refers(s.workers[w], f))
    || (exists g :: g in s.fibers && (s.fibers[g].mainRef == Some(f) || s.fibers[g].yieldRef == Some(f)))
  }

  ghost predicate Refers(x: Worker, f: nat) {
    (x.ft.Some? && x.ft.value.FiberTask? && x.ft.value.fiber == f) || x.cbFiber == Some(f) || x.idle == Some(f)
  }

  lemma HeldReferenced(s: World, w: int, f: nat)
    requires HoldsAt(s, w, f)
    ensures Referenced(s, f)
  {
    assert Refers(s.workers[w], f);
  }

  /** When the last pointer to a fiber goes, the fiber is in INIT, TERM or EXCEPT, as its destructor
      asserts, and no thread is on its stack, not even for its last `swapOut`. A suspended fiber
      is kept alive by the pointer on its own stack. */
  lemma NeverDestroyedUnfinished(s: World, c: Config, f: nat)
    requires Reachable(s, c) && f in s.fibers && !Referenced(s, f)
    ensures s.fibers[f].state == INIT || Finished(s.fibers[f].state)
    ensures forall w :: !OnThreadOf(s, w, f)
  {
    ReachableFull(s, c);
    forall w ensures !OnThreadOf(s, w, f) {
      if OnThreadOf(s, w, f) {
        RunnerHolds(s, w, f);
        HeldReferenced(s, w, f);
      }
    }
    assert AtRest(s.fibers[f], f);
  }

  /** A started, unfinished fiber owns its `MainFunc` pointer: nobody else needs to keep it alive. */
  lemma SelfReference(s: World, c: Config, f: nat)
    requires Reachable(s, c) && f in s.fibers
    ensures s.fibers[f].state == HOLD || s.fibers[f].state == READY ==> s.fibers[f].mainRef == Some(f)
    ensures s.fibers[f].state == EXEC ==>
      s.fibers[f].mainRef == Some(f) || exists w :: HoldsAt(s, w, f) && s.workers[w].pc == InFiber(f, Entering)
  {
    if !AtRest(s.fibers[f], f) {
      var w := RunnerOf(s, c, f);
      assert HoldsAt(s, w, f);
    }
  }

  /** The worker on whose thread a fiber is that is not at rest. */
  lemma RunnerOf(s: World, c: Config, f: nat) returns (w: int)
    requires Reachable(s, c) && f in s.fibers && !AtRest(s.fibers[f], f)
    ensures OnThreadOf(s, w, f) && HoldsAt(s, w, f) && OnThread(s.fibers[f], f, s.workers[w].pc.phase)
  {
    ReachableFull(s, c);
    w :| OnThreadOf(s, w, f);
    RunnerHolds(s, w, f);
    assert WorkerOK(s, s.workers[w]);
  }

  // ---------------------------------------------------------------- dispatch

  /** Tasks are conserved, every claim respects its pin, and no callback is started twice. */
  lemma DispatchedOnce(s: World, c: Config)
    requires Reachable(s, c)
    ensures multiset(s.hist.pushed) == multiset(s.queue) + multiset(ClaimedTasks(s.hist.claims))
    ensures forall i :: 0 <= i < |s.hist.claims| ==> PinAllows(s.hist.claims[i].task.thread, s.hist.claims[i].worker)
    ensures forall u: nat :: multiset(s.hist.started)[u] <= 1
    ensures forall u: nat :: u in s.hist.started ==> WasClaimed(s, u) && u < s.hist.nextCb
  {
    ReachableFull(s, c);
    forall u: nat ensures multiset(s.hist.started)[u] <= 1 { AtMostOne(s.hist.started, u); }
    assert forall u: nat :: WasClaimed(s, u) ==> Accepted(s, u);
  }

  lemma {:induction false} AtMostOne(q: seq<nat>, u: nat)
    requires forall i, j :: 0 <= i < j < |q| ==> q[i] != q[j]
    ensures multiset(q)[u] == if u in q then 1 else 0
  {
    if q != [] {
      var n := |q| - 1;
      AtMostOne(q[..n], u);
      assert q == q[..n] + [q[n]];
    }
  }

  // ---------------------------------------------------------------- shutdown

  /** Every worker has left `run`, or never entered it, and one of them saw `stopping()` true. */
  ghost predicate AllLeft(s: World) {
    SawStop(s) && forall w :: w in s.workers ==> !Live(s.workers[w].pc)
  }

  lemma LeftHoldNothing(s: World)
    requires Core(s) && AllLeft(s)
    ensures forall w, f :: !HoldsAt(s, w, f)
  {
    assert forall w :: w in s.workers ==> WorkerOK(s, s.workers[w]);
    forall w, f ensures !HoldsAt(s, w, f) {
      if w in s.workers { assert Dormant(s.workers[w]); }
    }
  }

  lemma LeftCountNothing(s: World)
    requires CountersOK(s) && AllLeft(s)
    ensures s.active == 0 && s.idleCount == 0
  {
    assert forall w :: w in s.workers ==> !Busy(s.workers[w]) && !Idling(s.workers[w]);
    assert Chosen(s, Busy) == {} && Chosen(s, Idling) == {};
  }

  /** Queue entry `i` is the one that a submission against the discipline made. */
  ghost predicate StrayAt(s: World, i: nat) {
    && i < |s.hist.order| && i < |s.queue|
    && var n := s.hist.order[i];
    n in s.hist.strays && n < |s.hist.pushed| && s.hist.pushed[n] == s.queue[i]
  }

  lemma LeftoversAreStray(s: World)
    requires OrderOK(s) && ShutdownOK(s) && AllLeft(s)
    ensures forall i :: 0 <= i < |s.queue| ==> StrayAt(s, i)
  {
    forall i | 0 <= i < |s.queue| ensures StrayAt(s, i) {
      assert s.hist.order[i] in s.hist.order;
      assert Covered(s, s.hist.order[i]);
      assert forall w, t :: !Covers(s, w, t);
    }
  }

  lemma LeftStartedAll(s: World, u: nat)
    requires HistoryOK(s) && AllLeft(s) && u < s.hist.nextCb && (forall i :: !InQueue(s, i, u))
    ensures multiset(s.hist.started)[u] == 1
  {
    assert Accepted(s, u) && WasClaimed(s, u);
    assert forall w :: !PendingAt(s, w, u);
    AtMostOne(s.hist.started, u);
  }

  lemma LeftReadyQueued(s: World)
    requires Inv(s) && AllLeft(s)
    ensures forall f :: f in s.fibers && s.fibers[f].state == READY ==> exists i :: QueuedAt(s, i, f)
  {
    LeftHoldNothing(s);
  }

  lemma ReachableLeft(s: World, c: Config)
    requires Reachable(s, c) && AllLeft(s)
    ensures forall i :: 0 <= i < |s.queue| ==> StrayAt(s, i)
    ensures forall f :: f in s.fibers && s.fibers[f].state == READY ==> exists i :: QueuedAt(s, i, f)
    ensures s.active == 0 && s.idleCount == 0
  {
    ReachableFull(s, c);
    LeftoversAreStray(s);
    LeftReadyQueued(s);
    LeftCountNothing(s);
  }

  lemma ReachableStarted(s: World, c: Config, u: nat)
    requires Reachable(s, c) && AllLeft(s) && u < s.hist.nextCb && (forall i :: !InQueue(s, i, u))
    ensures multiset(s.hist.started)[u] == 1
  {
    ReachableFull(s, c);
    LeftStartedAll(s, u);
  }

  /** Nothing is lost: when all workers have left, every entry still queued is the very one that some
      submission against the discipline made, no READY fiber is outside the queue, both counters are
      zero, and every accepted callback that is not among the left-over tasks was started exactly
      once. */
  lemma NoTaskLost(s: World, c: Config)
    requires Reachable(s, c) && AllLeft(s)
    ensures forall i :: 0 <= i < |s.queue| ==> StrayAt(s, i)
    ensures s.hist.strays == {} ==> s.queue == []
    ensures forall f :: f in s.fibers && s.fibers[f].state == READY ==> exists i :: QueuedAt(s, i, f)
    ensures s.active == 0 && s.idleCount == 0
    ensures forall u: nat :: u < s.hist.nextCb && (forall i :: !InQueue(s, i, u)) ==> multiset(s.hist.started)[u] == 1
  {
    ReachableLeft(s, c);
    if s.queue != [] { assert StrayAt(s, 0); }
    forall u: nat | u < s.hist.nextCb && (forall i :: !InQueue(s, i, u)) ensures multiset(s.hist.started)[u] == 1 {
      ReachableStarted(s, c, u);
    }
  }

  /** A scheduler that was started, or that has the caller's worker, has no live worker once
      `stop()` has returned, and some worker saw the stop. */
  lemma StoppedMeansLeft(s: World, c: Config)
    requires Reachable(s, c) && s.ctl.stopPc == Returned && (c.root.Some? || s.ctl.poolStarted)
    ensures AllLeft(s)
  {
    ReachableFull(s, c);
    assert forall w :: w in s.workers && s.ctl.root != Some(w) ==> IsPool(s, w);
    if c.root.Some? {
      assert Gone(s, c.root.value);
    } else {
      var w :| w in c.pool;
      assert IsPool(s, w) && Gone(s, w);
    }
  }

  /** `stop()` returns with an empty queue exactly when there was a worker to drain it or nothing was
      ever submitted, provided every submission kept to the shutdown discipline. */
  lemma StopDrains(s: World, c: Config)
    requires Reachable(s, c) && s.ctl.stopPc == Returned && s.hist.strays == {}
    ensures s.queue == [] <==> c.root.Some? || s.ctl.poolStarted || s.hist.pushed == []
  {
    ReachableFull(s, c);
    if c.root.Some? || s.ctl.poolStarted {
      StoppedMeansLeft(s, c);
      NoTaskLost(s, c);
    } else {
      assert forall w :: w in s.workers ==> IsPool(s, w) && s.workers[w].pc == NotStarted;
      assert ClaimedTasks(s.hist.claims) == [];
      assert |multiset(s.hist.pushed)| == |s.hist.pushed| && |multiset(s.queue)| == |s.queue|;
    }
  }

  /** A task that asks for its own fiber gets a handle to the fiber whose code is running. */
  lemma OwnHandle(s: World, c: Config, w: int)
    requires Reachable(s, c) && Enabled(s, TakeHandle(w))
    ensures Apply(s, TakeHandle(w)) == s.(handles := s.handles + {s.workers[w].pc.exec})
  {
    ReachableFull(s, c);
    assert WorkerOK(s, s.workers[w]);
  }

  /** The idle fiber ends, and with it later its worker, exactly when a stop was asked for, nothing is
      queued and nobody is between a claim and its release. Otherwise it goes back to the loop. */
  lemma IdleEndsExactly(s: World, c: Config, w: int)
    requires Reachable(s, c) && Enabled(s, IdleCheck(w))
    ensures var f, t := s.workers[w].pc.exec, Apply(s, IdleCheck(w));
      && f in t.fibers && (t.fibers[f].state == TERM || t.fibers[f].state == HOLD)
      && (t.fibers[f].state == TERM <==>
            && s.ctl.autoStop && s.ctl.isStopping && s.queue == []
            && forall v :: v in s.workers ==> !Busy(s.workers[v]))
  {
    ReachableFull(s, c);
    assert WorkerOK(s, s.workers[w]);
    NoneBusy(s);
  }

  lemma NoneBusy(s: World)
    requires CountersOK(s)
    ensures s.active == 0 <==> forall v :: v in s.workers ==> !Busy(s.workers[v])
  {
    if forall v :: v in s.workers ==> !Busy(s.workers[v]) { assert Chosen(s, Busy) == {}; }
    forall v | v in s.workers && Busy(s.workers[v]) ensures s.active > 0 { BusyPositive(s, v); }
  }
}
