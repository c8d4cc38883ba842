/** Every step of the scheduler keeps the invariant. */
module SchedulerSteps {
  import opened Wrappers
  import opened Tasks
  import opened SchedulerModel
  import opened SchedulerInvariant

  // ---------------------------------------------------------------- steps of the environment

  lemma Unheld(s: World, f: nat)
    requires !Owned(s, f)
    ensures forall v :: !HoldsAt(s, v, f)
  {
    forall v ensures !HoldsAt(s, v, f) {
      if v in s.workers { assert !Holds(s.workers[v], f); }
    }
  }

  lemma Unqueued(s: World, f: nat)
    requires !Queued(s, f)
    ensures forall i :: !QueuedAt(s, i, f)
  {}

  lemma Above(ids: set<int>) returns (w: int)
    ensures forall i :: i in ids ==> i < w
  {
    w := 0;
    if i :| i in ids {
      var v := Above(ids - {i});
      w := if v <= i then i + 1 else v;
      assert forall j :: j in ids ==> j == i || j in ids - {i};
    }
  }

  /** A fiber that belongs to nobody, or does not exist yet, gets a fresh function. */
  lemma ArmFiberInv(s: World, t: World, id: nat)
    requires Inv(s)
    requires t == SetFiber(s, id, Fiber(INIT, UserFn, Entry, None, None))
    requires id in s.fibers ==> (forall v :: !HoldsAt(s, v, id)) && (forall i :: !QueuedAt(s, i, id))
    ensures Inv(t)
  {
    var w := Above(s.workers.Keys);
    assert forall g :: !HoldsAt(s, w, g) && !OnThreadOf(s, w, g) && !HoldsAt(t, w, g);
    LocalInv(s, t, w, id);
  }

  ghost predicate OwnedOrQueued(s: World, f: nat) {
    (exists v :: HoldsAt(s, v, f)) || (exists i :: QueuedAt(s, i, f))
  }

  lemma AbsentUnowned(s: World, f: nat)
    requires Core(s) && f !in s.fibers
    ensures !OwnedOrQueued(s, f)
  {
    if v :| HoldsAt(s, v, f) { HeldExists(s, v, f); }
  }

  lemma CreateFiberInv(s: World, id: nat)
    requires Inv(s) && Enabled(s, CreateFiber(id))
    ensures Inv(Apply(s, CreateFiber(id)))
  {
    var t := SetFiber(s, id, Fiber(INIT, UserFn, Entry, None, None));
    assert !OwnedOrQueued(s, id) by { AbsentUnowned(s, id); }
    ArmFiberInv(s, t, id);
    assert forall v :: v in t.workers ==> WorkerOK(s, s.workers[v]) && WorkerOK(t, t.workers[v]);
    SameQueueAndHolders(t, Apply(s, CreateFiber(id)));
  }

  lemma ResetFiberInv(s: World, id: nat)
    requires Inv(s) && Enabled(s, ResetFiber(id))
    ensures Inv(Apply(s, ResetFiber(id)))
  {
    Unheld(s, id);
    Unqueued(s, id);
    FreeAtRest(s, id);
    ArmFiberInv(s, Apply(s, ResetFiber(id)), id);
  }

  /** Code runs only on fibers that a worker holds. */
  lemma RunnerHolds(s: World, w: int, f: nat)
    requires WorkersOK(s) && OnThreadOf(s, w, f)
    ensures HoldsAt(s, w, f)
  {
    assert WorkerOK(s, s.workers[w]);
  }

  lemma FreeAtRest(s: World, f: nat)
    requires Inv(s) && Free(s, f)
    ensures AtRest(s.fibers[f], f) && s.fibers[f].state != READY
  {
    Unheld(s, f);
    Unqueued(s, f);
    if !AtRest(s.fibers[f], f) {
      var w :| OnThreadOf(s, w, f);
      RunnerHolds(s, w, f);
    }
  }

  lemma TakeHandleInv(s: World, w: int)
    requires Inv(s) && Enabled(s, TakeHandle(w))
    ensures Inv(Apply(s, TakeHandle(w)))
  {
    var t := Apply(s, TakeHandle(w));
    var x := s.workers[w];
    assert WorkerOK(s, x);
    var f := x.pc.exec;
    assert t == s.(handles := s.handles + {f});
    assert HoldsAt(s, w, f) && x.idle != Some(f);
    forall v | v in t.workers ensures WorkerOK(t, t.workers[v]) {
      assert WorkerOK(s, s.workers[v]);
      assert s.workers[v].idle == Some(f) ==> HoldsAt(s, v, f);
    }
    SameQueueAndHolders(s, t);
  }

  /** Changing the handles alone touches nothing else. */
  lemma SameQueueAndHolders(s: World, t: World)
    requires Inv(s)
    requires t.queue == s.queue && t.workers == s.workers && t.fibers == s.fibers
    requires WorkersOK(t) && HandlesOK(t)
    ensures Inv(t)
  {
    assert forall w, f :: HoldsAt(t, w, f) <==> HoldsAt(s, w, f);
    assert forall i, f :: QueuedAt(t, i, f) <==> QueuedAt(s, i, f);
    assert forall w, f :: OnThreadOf(t, w, f) <==> OnThreadOf(s, w, f);
  }

  lemma DropHandleInv(s: World, id: nat)
    requires Inv(s) && Enabled(s, DropHandle(id))
    ensures Inv(Apply(s, DropHandle(id)))
  {
    var t := Apply(s, DropHandle(id));
    assert forall v :: v in s.workers ==> WorkerOK(s, s.workers[v]);
    SameQueueAndHolders(s, t);
  }

  /** Queueing a callback, or a fiber at rest that nobody holds. */
  lemma PushCore(s: World, t: World, task: Task<nat>)
    requires Core(s)
    requires t.queue == s.queue + [task] && t.workers == s.workers && t.fibers == s.fibers && t.handles == s.handles
    requires task.FiberTask? ==>
      var f := task.fiber;
      TaskFiberOK(s, f) && AtRest(s.fibers[f], f) && (forall v :: !HoldsAt(s, v, f)) && (forall i :: !QueuedAt(s, i, f))
    ensures Core(t)
    ensures forall i, f :: QueuedAt(s, i, f) ==> QueuedAt(t, i, f)
    ensures task.FiberTask? ==> QueuedAt(t, |s.queue|, task.fiber)
  {
    assert forall v :: v in s.workers ==> WorkerOK(s, s.workers[v]) ==> WorkerOK(t, t.workers[v]);
    assert forall v, f :: HoldsAt(t, v, f) <==> HoldsAt(s, v, f);
    assert forall v, f :: OnThreadOf(t, v, f) <==> OnThreadOf(s, v, f);
    assert forall i, f :: QueuedAt(t, i, f) ==>
      QueuedAt(s, i, f) || (i == |s.queue| && task.FiberTask? && task.fiber == f);
  }

  lemma PushInv(s: World, t: World, task: Task<nat>)
    requires Inv(s)
    requires t.queue == s.queue + [task] && t.workers == s.workers && t.fibers == s.fibers && t.handles == s.handles
    requires task.FiberTask? ==>
      var f := task.fiber;
      TaskFiberOK(s, f) && AtRest(s.fibers[f], f) && (forall v :: !HoldsAt(s, v, f)) && (forall i :: !QueuedAt(s, i, f))
    ensures Inv(t)
  {
    PushCore(s, t, task);
    assert forall v, f :: HoldsAt(s, v, f) ==> HoldsAt(t, v, f);
  }

  lemma SubmitInv(s: World, sub: Submission, pin: int, stray: bool)
    requires Inv(s) && CanSubmit(s, sub)
    ensures Inv(Submit(s, sub, pin, stray))
  {
    if sub.SubFiber? {
      Unheld(s, sub.fiber);
      Unqueued(s, sub.fiber);
      FreeAtRest(s, sub.fiber);
    }
    PushInv(s, Submit(s, sub, pin, stray), SubmittedTask(s, sub, pin));
  }

  // ---------------------------------------------------------------- steps of a worker

  /** A step of `w` that keeps every fiber as it is. */
  lemma WorkerOnlyInv(s: World, t: World, w: int)
    requires Inv(s) && w in s.workers && w in t.workers
    requires t.workers == s.workers[w := t.workers[w]] && t.fibers == s.fibers && t.queue == s.queue && t.handles == s.handles
    requires WorkerOK(t, t.workers[w])
    requires forall g :: HoldsAt(t, w, g) ==> HoldsAt(s, w, g)
    requires forall g :: HoldsAt(s, w, g) && s.fibers[g].state == READY ==> HoldsAt(t, w, g)
    requires forall g :: OnThreadOf(s, w, g) ==> OnThreadOf(t, w, g)
    ensures Inv(t)
  {
    assert forall v :: v in s.workers && v != w ==> WorkerOK(s, s.workers[v]) && WorkerOK(t, t.workers[v]);
    assert forall v, g :: v != w ==> (HoldsAt(t, v, g) <==> HoldsAt(s, v, g)) && (OnThreadOf(t, v, g) <==> OnThreadOf(s, v, g));
    assert forall i, g :: QueuedAt(t, i, g) <==> QueuedAt(s, i, g);
    forall g | g in t.fibers && t.fibers[g].state == READY
      ensures (exists i :: QueuedAt(t, i, g)) || (exists v :: HoldsAt(t, v, g))
    {
      if v :| HoldsAt(s, v, g) { assert HoldsAt(t, v, g); }
    }
  }

  lemma BootWorkerInv(s: World, w: int, id: nat)
    requires Inv(s) && Enabled(s, BootWorker(w, id)) && AtMain(BootThread(s.workers[w], s.ctl.root == Some(w)))
    ensures Inv(Apply(s, BootWorker(w, id)))
  {
    var t := Apply(s, BootWorker(w, id));
    assert WorkerOK(s, s.workers[w]);
    LocalInv(s, t, w, id);
  }

  /** What `w` needs to know before it changes a fiber it holds. */
  lemma HeldUnqueued(s: World, w: int, f: nat)
    requires Core(s) && HoldsAt(s, w, f)
    ensures f in s.fibers && WorkerOK(s, s.workers[w])
    ensures forall i :: !QueuedAt(s, i, f)
  {
    HeldExists(s, w, f);
  }

  /** The hypotheses of LocalInv. */
  ghost predicate Settled(s: World, t: World, w: int, f: nat) {
    && Local(s, t, w, f)
    && (forall g :: HoldsAt(s, w, g) && g in t.fibers && t.fibers[g].state == READY ==> HoldsAt(t, w, g))
    && (t.fibers[f].state == READY ==> HoldsAt(t, w, f))
  }

  /** What a step by `w` on fiber `f` may use about the state. */
  ghost predicate Ready1(s: World, w: int, f: nat) {
    HoldsAt(s, w, f) && f in s.fibers && WorkerOK(s, s.workers[w]) && forall i :: !QueuedAt(s, i, f)
  }

  /** Local, from the new worker record and the new fiber record alone. */
  lemma Settle(s: World, t: World, w: int, f: nat, y: Worker, fib: Fiber)
    requires Ready1(s, w, f)
    requires t.workers == s.workers[w := y] && t.fibers == s.fibers[f := fib]
    requires t.queue == s.queue && t.handles == s.handles
    requires WorkerOK(t, y) && (AtRest(fib, f) || (y.pc.InFiber? && y.pc.exec == f))
    requires s.fibers[f].fn != IdleFn ==> fib.fn != IdleFn
    requires !s.workers[w].pc.Requeued? && !y.pc.Requeued? && y.idle == s.workers[w].idle
    requires y.ft == s.workers[w].ft
             || (y.ft == None && SiteFiberOf(s.workers[w], SiteFiber) == Some(f) && fib.state != READY)
    requires y.cbFiber == s.workers[w].cbFiber
             || (y.cbFiber == None && s.workers[w].cbFiber == Some(f) && fib.state != READY)
    requires s.workers[w].pc.InFiber? ==> s.workers[w].pc.exec == f
    requires fib.state == READY ==> Holds(y, f)
    ensures Settled(s, t, w, f)
  {
    assert forall g :: HoldsAt(t, w, g) <==> Holds(y, g);
    assert forall g :: HoldsAt(s, w, g) <==> Holds(s.workers[w], g);
    assert forall g :: OnThreadOf(s, w, g) ==> g == f;
    HeldAfter(s.workers[w], y, f);
  }

  /** What the worker holds after it gave up at most `f`. */
  lemma HeldAfter(x: Worker, y: Worker, f: nat)
    requires !x.pc.Requeued? && !y.pc.Requeued? && y.idle == x.idle
    requires y.ft == x.ft || (y.ft == None && SiteFiberOf(x, SiteFiber) == Some(f))
    requires y.cbFiber == x.cbFiber || (y.cbFiber == None && x.cbFiber == Some(f))
    ensures forall g :: Holds(y, g) ==> Holds(x, g)
    ensures forall g :: Holds(x, g) && g != f ==> Holds(y, g)
  {}

  ghost predicate Entered(s: World, t: World, w: int, f: nat) {
    && w in s.workers && f in s.fibers && f in t.fibers
    && t.workers == s.workers[w := s.workers[w].(pc := InFiber(f, Running))]
    && t.fibers == s.fibers[f := t.fibers[f]] && t.fibers[f].fn == s.fibers[f].fn && t.fibers[f].state == EXEC
    && WorkerOK(t, t.workers[w])
  }

  lemma EnterFirstWorker(s: World, w: int)
    requires w in s.workers && s.workers[w].pc.InFiber? && s.workers[w].pc.phase == Entering
    requires s.workers[w].pc.exec in s.fibers && WorkerOK(s, s.workers[w])
    requires s.fibers[s.workers[w].pc.exec].ctx == Entry
    ensures Entered(s, Enter(s, w), w, s.workers[w].pc.exec)
  {}

  lemma EnterAgainWorker(s: World, w: int)
    requires w in s.workers && s.workers[w].pc.InFiber? && s.workers[w].pc.phase == Entering
    requires s.workers[w].pc.exec in s.fibers && WorkerOK(s, s.workers[w])
    requires s.fibers[s.workers[w].pc.exec].ctx != Entry
    ensures Entered(s, Enter(s, w), w, s.workers[w].pc.exec)
  {}

  lemma EnterLocal(s: World, w: int)
    requires Enabled(s, EnterFiber(w)) && Ready1(s, w, s.workers[w].pc.exec)
    ensures Settled(s, Enter(s, w), w, s.workers[w].pc.exec)
  {
    var t, f := Enter(s, w), s.workers[w].pc.exec;
    if s.fibers[f].ctx == Entry { EnterFirstWorker(s, w); } else { EnterAgainWorker(s, w); }
    Settle(s, t, w, f, t.workers[w], t.fibers[f]);
  }

  lemma EnterFiberInv(s: World, w: int)
    requires Inv(s) && Enabled(s, EnterFiber(w))
    ensures Inv(Apply(s, EnterFiber(w)))
  {
    RunnerHolds(s, w, s.workers[w].pc.exec);
    HeldUnqueued(s, w, s.workers[w].pc.exec);
    EnterLocal(s, w);
    LocalInv(s, Enter(s, w), w, s.workers[w].pc.exec);
  }

  /** The worker record and the fiber record after a step of the fiber that is on the thread. */
  ghost predicate LeavesBy(s: World, t: World, w: int, f: nat) {
    && w in s.workers && w in t.workers && f in s.fibers && f in t.fibers
    && t.workers == s.workers[w := t.workers[w]] && t.fibers == s.fibers[f := t.fibers[f]]
    && t.queue == s.queue && t.handles == s.handles
    && t.workers[w].ft == s.workers[w].ft && t.workers[w].cbFiber == s.workers[w].cbFiber && t.workers[w].idle == s.workers[w].idle
    && (s.fibers[f].fn != IdleFn ==> t.fibers[f].fn != IdleFn)
    && (AtRest(t.fibers[f], f) || (t.workers[w].pc.InFiber? && t.workers[w].pc.exec == f))
    && (t.workers[w].pc.InFiber? || t.workers[w].pc.Back?) && Holds(t.workers[w], f)
    && WorkerOK(t, t.workers[w])
  }

  lemma YieldLeaves(s: World, w: int, st: FiberState)
    requires InTask(s, w) && WorkerOK(s, s.workers[w]) && (st == HOLD || (st == READY && !RunsIdle(s, w)))
    ensures LeavesBy(s, BeginYield(s, w, st), w, s.workers[w].pc.exec)
  {}

  lemma FinishLeaves(s: World, w: int, threw: bool)
    requires InTask(s, w) && WorkerOK(s, s.workers[w]) && (threw ==> !RunsIdle(s, w))
    ensures LeavesBy(s, BeginFinish(s, w, threw), w, s.workers[w].pc.exec)
  {}

  lemma SwapOutLeaves(s: World, w: int)
    requires w in s.workers && s.workers[w].pc.InFiber? && s.workers[w].pc.phase.Leaving?
    requires MainCtx(s.workers[w]).Loop? && s.workers[w].pc.phase.cur in s.fibers && WorkerOK(s, s.workers[w])
    ensures LeavesBy(s, Leave(s, w), w, s.workers[w].pc.exec)
  {}

  lemma LeavesSettled(s: World, t: World, w: int, f: nat)
    requires OnThreadOf(s, w, f) && Ready1(s, w, f) && LeavesBy(s, t, w, f)
    ensures Settled(s, t, w, f)
  {
    Settle(s, t, w, f, t.workers[w], t.fibers[f]);
  }

  /** A step of the fiber on the thread of `w` keeps the invariant. */
  lemma LeavesInv(s: World, t: World, w: int, f: nat)
    requires Inv(s) && OnThreadOf(s, w, f) && LeavesBy(s, t, w, f)
    ensures Inv(t)
  {
    RunnerHolds(s, w, f);
    HeldUnqueued(s, w, f);
    LeavesSettled(s, t, w, f);
    LocalInv(s, t, w, f);
  }

  lemma BeginYieldInv(s: World, w: int, st: FiberState)
    requires Inv(s) && InTask(s, w)
    requires st == HOLD || (st == READY && !RunsIdle(s, w))
    ensures Inv(BeginYield(s, w, st))
  {
    assert WorkerOK(s, s.workers[w]);
    YieldLeaves(s, w, st);
    LeavesInv(s, BeginYield(s, w, st), w, s.workers[w].pc.exec);
  }

  lemma BeginFinishInv(s: World, w: int, threw: bool)
    requires Inv(s) && InTask(s, w) && (threw ==> !RunsIdle(s, w))
    ensures Inv(BeginFinish(s, w, threw))
  {
    assert WorkerOK(s, s.workers[w]);
    FinishLeaves(s, w, threw);
    LeavesInv(s, BeginFinish(s, w, threw), w, s.workers[w].pc.exec);
  }

  lemma SwapOutInv(s: World, w: int)
    requires Inv(s) && Enabled(s, SwapOut(w))
    ensures Inv(Leave(s, w))
  {
    assert WorkerOK(s, s.workers[w]);
    SwapOutLeaves(s, w);
    LeavesInv(s, Leave(s, w), w, s.workers[w].pc.exec);
  }

  lemma ReleaseIdleWorker(s: World, w: int)
    requires w in s.workers && s.workers[w].pc == Back(SiteIdle) && WorkerOK(s, s.workers[w])
    ensures var t := ReleaseClaim(s, w);
      t.workers == s.workers[w := s.workers[w].(pc := Head)] && t.fibers == s.fibers && WorkerOK(t, t.workers[w])
  {}

  lemma ReleaseTaskWorker(s: World, w: int)
    requires w in s.workers && s.workers[w].pc.Back? && s.workers[w].pc.site != SiteIdle && WorkerOK(s, s.workers[w])
    ensures var t := ReleaseClaim(s, w);
      t.workers == s.workers[w := s.workers[w].(pc := Released(s.workers[w].pc.site))] && t.fibers == s.fibers
      && WorkerOK(t, t.workers[w])
  {}

  lemma ReleaseLocal(s: World, w: int)
    requires Enabled(s, Release(w)) && s.workers[w].idle.Some? && Ready1(s, w, s.workers[w].idle.value)
    ensures Settled(s, ReleaseClaim(s, w), w, s.workers[w].idle.value)
  {
    var t, f := ReleaseClaim(s, w), s.workers[w].idle.value;
    if s.workers[w].pc.site == SiteIdle { ReleaseIdleWorker(s, w); } else { ReleaseTaskWorker(s, w); }
    assert t.fibers == s.fibers[f := s.fibers[f]];
    Settle(s, t, w, f, t.workers[w], s.fibers[f]);
  }

  lemma ReleaseInv(s: World, w: int)
    requires Inv(s) && Enabled(s, Release(w))
    ensures Inv(Apply(s, Release(w)))
  {
    assert WorkerOK(s, s.workers[w]);
    HeldUnqueued(s, w, s.workers[w].idle.value);
    ReleaseLocal(s, w);
    LocalInv(s, ReleaseClaim(s, w), w, s.workers[w].idle.value);
  }

  lemma DropStaleInv(s: World, w: int)
    requires Inv(s) && Enabled(s, DropStale(w))
    ensures Inv(Apply(s, DropStale(w)))
  {
    assert WorkerOK(s, s.workers[w]);
    WorkerOnlyInv(s, Apply(s, DropStale(w)), w);
  }

  lemma ToIdleLocal(s: World, w: int)
    requires Enabled(s, IdleOrExit(w)) && Ready1(s, w, s.workers[w].idle.value)
    requires s.fibers[s.workers[w].idle.value].state != TERM
    ensures Settled(s, EnterIdleOrExit(s, w), w, s.workers[w].idle.value)
  {
    var t, f := EnterIdleOrExit(s, w), s.workers[w].idle.value;
    ToIdleWorker(s, w);
    Settle(s, t, w, f, t.workers[w], t.fibers[f]);
  }

  lemma ToIdleWorker(s: World, w: int)
    requires w in s.workers && s.workers[w].pc == ScannedEmpty && WorkerOK(s, s.workers[w])
    requires s.workers[w].idle.Some? && s.fibers[s.workers[w].idle.value].state != TERM
    ensures var t := EnterIdleOrExit(s, w); var f := s.workers[w].idle.value;
      && t.workers == s.workers[w := t.workers[w]] && t.fibers == s.fibers[f := t.fibers[f]]
      && t.queue == s.queue && t.handles == s.handles && t.workers[w].pc == InFiber(f, Entering)
      && t.workers[w].ft == s.workers[w].ft && t.workers[w].cbFiber == s.workers[w].cbFiber
      && t.workers[w].idle == s.workers[w].idle && t.fibers[f].fn == s.fibers[f].fn && t.fibers[f].state == EXEC
      && WorkerOK(t, t.workers[w])
  {}

  lemma ExitWorker(s: World, w: int)
    requires w in s.workers && s.workers[w].pc == ScannedEmpty && WorkerOK(s, s.workers[w])
    requires s.fibers[s.workers[w].idle.value].state == TERM
    ensures var t := EnterIdleOrExit(s, w);
      t.workers == s.workers[w := t.workers[w]] && t.workers[w].pc == Exited && Dormant(t.workers[w])
      && t.fibers == s.fibers && WorkerOK(t, t.workers[w])
    ensures forall g: nat :: HoldsAt(s, w, g) ==> s.fibers[g].state != READY
  {}

  lemma ExitInv(s: World, w: int)
    requires Inv(s) && AtPc(s, w, ScannedEmpty) && s.workers[w].idle.Some? && s.workers[w].idle.value in s.fibers
    requires s.fibers[s.workers[w].idle.value].state == TERM
    ensures Inv(EnterIdleOrExit(s, w))
  {
    var t := EnterIdleOrExit(s, w);
    assert WorkerOK(s, s.workers[w]);
    ExitWorker(s, w);
    assert forall g :: !HoldsAt(t, w, g);
    WorkerOnlyInv(s, t, w);
  }

  lemma IdleOrExitInv(s: World, w: int)
    requires Inv(s) && Enabled(s, IdleOrExit(w))
    ensures Inv(Apply(s, IdleOrExit(w)))
  {
    var idle := s.workers[w].idle.value;
    assert WorkerOK(s, s.workers[w]);
    if s.fibers[idle].state == TERM {
      ExitInv(s, w);
    } else {
      HeldUnqueued(s, w, idle);
      ToIdleLocal(s, w);
      LocalInv(s, EnterIdleOrExit(s, w), w, idle);
    }
  }

  /** Taking the claimed task off the queue leaves its fiber to nobody. */
  lemma RemoveCore(s: World, t: World, k: nat)
    requires Core(s) && k < |s.queue|
    requires t.queue == RemoveAt(s.queue, k) && t.workers == s.workers && t.fibers == s.fibers && t.handles == s.handles
    ensures Core(t)
    ensures forall i, f :: QueuedAt(t, i, f) ==> QueuedAt(s, if i < k then i else i + 1, f)
    ensures forall i, f :: QueuedAt(s, i, f) && i != k ==> QueuedAt(t, if i < k then i else i - 1, f)
  {
    assert forall v :: v in s.workers ==> WorkerOK(s, s.workers[v]) ==> WorkerOK(t, t.workers[v]);
    assert forall v, f :: HoldsAt(t, v, f) <==> HoldsAt(s, v, f);
    assert forall v, f :: OnThreadOf(t, v, f) <==> OnThreadOf(s, v, f);
    assert forall i, f :: QueuedAt(t, i, f) ==> QueuedAt(s, if i < k then i else i + 1, f);
    assert forall i, f :: QueuedAt(s, i, f) && i != k ==> QueuedAt(t, if i < k then i else i - 1, f);
  }

  lemma ClaimLocal(s: World, m: World, w: int, k: nat, f: nat)
    requires AtPc(s, w, Head) && k < |s.queue| && k == FirstEligible(s.queue, w, Executing(s))
    requires m == s.(queue := RemoveAt(s.queue, k)) && WorkerOK(s, s.workers[w])
    requires f == (if s.queue[k].FiberTask? then s.queue[k].fiber else s.workers[w].idle.value)
    requires f in s.fibers && (forall i :: !QueuedAt(m, i, f))
    requires s.queue[k].FiberTask? ==> TaskFiberOK(s, f) && AtRest(s.fibers[f], f) && forall v :: !HoldsAt(s, v, f)
    ensures Local(m, ScanQueue(s, w), w, f)
    ensures s.queue[k].FiberTask? ==> HoldsAt(ScanQueue(s, w), w, f)
  {
    var t, x := ScanQueue(s, w), s.workers[w];
    assert forall v, g :: HoldsAt(m, v, g) <==> HoldsAt(s, v, g);
    assert x.cbFiber.Some? ==> HoldsAt(s, w, x.cbFiber.value);
    assert HoldsAt(s, w, x.idle.value);
    assert t.workers[w] == x.(pc := Claimed, ft := Some(s.queue[k])) && t.fibers == s.fibers;
    assert WorkerOK(t, t.workers[w]);
  }

  lemma ClaimReady(s: World, m: World, t: World, w: int, k: nat)
    requires ReadyOK(s) && k < |s.queue|
    requires forall i, f :: QueuedAt(s, i, f) && i != k ==> QueuedAt(m, if i < k then i else i - 1, f)
    requires t.fibers == s.fibers && t.queue == m.queue
    requires forall v, g :: HoldsAt(s, v, g) ==> HoldsAt(t, v, g)
    requires s.queue[k].FiberTask? ==> HoldsAt(t, w, s.queue[k].fiber)
    ensures ReadyOK(t)
  {
    forall g | g in t.fibers && t.fibers[g].state == READY
      ensures (exists i :: QueuedAt(t, i, g)) || (exists v :: HoldsAt(t, v, g))
    {
      if v :| HoldsAt(s, v, g) {
        assert HoldsAt(t, v, g);
      } else {
        var i :| QueuedAt(s, i, g);
        if i != k { assert QueuedAt(t, if i < k then i else i - 1, g); }
      }
    }
  }

  lemma EmptyScanInv(s: World, w: int)
    requires Inv(s) && AtPc(s, w, Head) && FirstEligible(s.queue, w, Executing(s)) == |s.queue|
    ensures Inv(ScanQueue(s, w))
  {
    var t := ScanQueue(s, w);
    assert t.workers[w] == s.workers[w].(pc := ScannedEmpty) && WorkerOK(s, s.workers[w]);
    assert forall g :: HoldsAt(t, w, g) <==> HoldsAt(s, w, g);
    WorkerOnlyInv(s, t, w);
  }

  lemma ScanInv(s: World, w: int)
    requires Inv(s) && Enabled(s, Scan(w))
    ensures Inv(Apply(s, Scan(w)))
  {
    var x := s.workers[w];
    var k := FirstEligible(s.queue, w, Executing(s));
    assert WorkerOK(s, x);
    if k == |s.queue| {
      EmptyScanInv(s, w);
    } else {
      var m := s.(queue := RemoveAt(s.queue, k));
      RemoveCore(s, m, k);
      var f := if s.queue[k].FiberTask? then s.queue[k].fiber else x.idle.value;
      assert s.queue[k].FiberTask? ==> QueuedAt(s, k, f);
      assert s.queue[k].CallbackTask? ==> HoldsAt(s, w, f);
      ClaimLocal(s, m, w, k, f);
      LocalCore(m, ScanQueue(s, w), w, f);
      ClaimReady(s, m, ScanQueue(s, w), w, k);
    }
  }

  lemma DispatchFiberLocal(s: World, w: int, id: nat)
    requires Enabled(s, Dispatch(w, id)) && s.workers[w].ft.value.FiberTask?
    requires Ready1(s, w, s.workers[w].ft.value.fiber) && !Finished(s.fibers[s.workers[w].ft.value.fiber].state)
    ensures Settled(s, DispatchClaim(s, w, id), w, s.workers[w].ft.value.fiber)
  {}

  /** What binding a callback and switching to its fiber changes. */
  lemma DispatchCallbackShape(s: World, w: int, id: nat, c: nat)
    requires Enabled(s, Dispatch(w, id)) && s.workers[w].ft.value.CallbackTask? && WorkerOK(s, s.workers[w])
    requires c == if s.workers[w].cbFiber.Some? then s.workers[w].cbFiber.value else id
    ensures var t := DispatchClaim(s, w, id);
      && t.workers == s.workers[w := t.workers[w]] && c in t.fibers && t.fibers == s.fibers[c := t.fibers[c]]
      && t.queue == s.queue && t.handles == s.handles && t.workers[w].pc == InFiber(c, Entering)
      && t.workers[w].ft == None && t.workers[w].cbFiber == Some(c) && t.workers[w].idle == s.workers[w].idle
      && t.fibers[c].fn != IdleFn && t.fibers[c].state == EXEC
  {}

  lemma DispatchCallbackWorker(s: World, w: int, id: nat)
    requires Enabled(s, Dispatch(w, id)) && s.workers[w].ft.value.CallbackTask?
    requires WorkerOK(s, s.workers[w]) && id !in s.handles
    ensures WorkerOK(DispatchClaim(s, w, id), DispatchClaim(s, w, id).workers[w])
  {}

  lemma DispatchCallbackLocal(s: World, w: int, id: nat, c: nat)
    requires Enabled(s, Dispatch(w, id)) && s.workers[w].ft.value.CallbackTask?
    requires WorkerOK(s, s.workers[w]) && id !in s.handles
    requires c == if s.workers[w].cbFiber.Some? then s.workers[w].cbFiber.value else id
    requires c in s.fibers ==> HoldsAt(s, w, c) && forall i :: !QueuedAt(s, i, c)
    ensures Settled(s, DispatchClaim(s, w, id), w, c)
  {
    DispatchCallbackShape(s, w, id, c);
    DispatchCallbackWorker(s, w, id);
    SettleClaim(s, DispatchClaim(s, w, id), w, c);
  }

  lemma SettleClaim(s: World, t: World, w: int, c: nat)
    requires AtPc(s, w, Claimed) && s.workers[w].ft.Some? && s.workers[w].ft.value.CallbackTask?
    requires s.workers[w].cbFiber.Some? ==> s.workers[w].cbFiber == Some(c)
    requires w in t.workers && t.workers == s.workers[w := t.workers[w]] && c in t.fibers && t.fibers == s.fibers[c := t.fibers[c]]
    requires t.queue == s.queue && t.handles == s.handles && t.workers[w].pc == InFiber(c, Entering)
    requires t.workers[w].ft == None && t.workers[w].cbFiber == Some(c) && t.workers[w].idle == s.workers[w].idle
    requires t.fibers[c].fn != IdleFn && t.fibers[c].state == EXEC && WorkerOK(t, t.workers[w])
    requires c in s.fibers ==> HoldsAt(s, w, c) && forall i :: !QueuedAt(s, i, c)
    ensures Settled(s, t, w, c)
  {}

  lemma DispatchInv(s: World, w: int, id: nat)
    requires Inv(s) && Enabled(s, Dispatch(w, id))
    ensures Inv(Apply(s, Dispatch(w, id)))
  {
    var x := s.workers[w];
    var t := DispatchClaim(s, w, id);
    assert WorkerOK(s, x);
    match x.ft.value
    case FiberTask(f, _) => {
      HeldUnqueued(s, w, f);
      if Finished(s.fibers[f].state) {
        WorkerOnlyInv(s, t, w);
      } else {
        DispatchFiberLocal(s, w, id);
        LocalInv(s, t, w, f);
      }
    }
    case CallbackTask(uid, _) => {
      var c := if x.cbFiber.Some? then x.cbFiber.value else id;
      if c in s.fibers { HeldUnqueued(s, w, c); }
      DispatchCallbackLocal(s, w, id, c);
      LocalInv(s, t, w, c);
    }
  }

  /** The fiber that came back to `w`. */
  function ReturnedFiber(s: World, w: int): nat
    requires Enabled(s, Classify(w))
  {
    if s.workers[w].pc.site == SiteFiber then s.workers[w].ft.value.fiber else s.workers[w].cbFiber.value
  }

  /** The effect of a step by `w` on the records of `w` and `f`, at the head of the loop. */
  ghost predicate BackAtHead(s: World, t: World, w: int, f: nat) {
    && w in s.workers && f in s.fibers
    && w in t.workers && t.workers == s.workers[w := t.workers[w]] && t.workers[w].pc == Head
    && f in t.fibers && t.fibers == s.fibers[f := t.fibers[f]]
    && AtRest(t.fibers[f], f) && t.fibers[f].state != READY
    && (s.fibers[f].fn != IdleFn ==> t.fibers[f].fn != IdleFn)
    && WorkerOK(t, t.workers[w])
  }

  lemma ParkFiberWorker(s: World, w: int)
    requires w in s.workers && s.workers[w].pc == Released(SiteFiber) && WorkerOK(s, s.workers[w])
    requires s.fibers[s.workers[w].ft.value.fiber].state != READY
    ensures BackAtHead(s, ClassifyFiber(s, w), w, s.workers[w].ft.value.fiber)
  {}

  lemma ParkCallbackWorker(s: World, w: int)
    requires w in s.workers && s.workers[w].pc == Released(SiteCb) && WorkerOK(s, s.workers[w])
    requires s.fibers[s.workers[w].cbFiber.value].state == HOLD
    ensures BackAtHead(s, ClassifyFiber(s, w), w, s.workers[w].cbFiber.value)
  {}

  lemma RecycleWorker(s: World, w: int)
    requires w in s.workers && s.workers[w].pc == Released(SiteCb) && WorkerOK(s, s.workers[w])
    requires Finished(s.fibers[s.workers[w].cbFiber.value].state)
    ensures BackAtHead(s, ClassifyFiber(s, w), w, s.workers[w].cbFiber.value)
  {}

  lemma ParkLocal(s: World, w: int)
    requires Enabled(s, Classify(w)) && Ready1(s, w, ReturnedFiber(s, w))
    requires s.fibers[ReturnedFiber(s, w)].state != READY
    ensures Settled(s, ClassifyFiber(s, w), w, ReturnedFiber(s, w))
  {
    var t, f := ClassifyFiber(s, w), ReturnedFiber(s, w);
    if s.workers[w].pc.site == SiteFiber { ParkFiberWorker(s, w); }
    else if s.fibers[f].state == HOLD { ParkCallbackWorker(s, w); }
    else { RecycleWorker(s, w); }
    Settle(s, t, w, f, t.workers[w], t.fibers[f]);
  }

  lemma RequeueLocal(s: World, m: World, w: int)
    requires Enabled(s, Classify(w)) && Ready1(s, w, ReturnedFiber(s, w))
    requires m == SetWorker(s, w, s.workers[w].(pc := Requeued(s.workers[w].pc.site)))
    ensures Local(s, m, w, ReturnedFiber(s, w)) && !HoldsAt(m, w, ReturnedFiber(s, w))
    ensures forall g :: HoldsAt(s, w, g) && g != ReturnedFiber(s, w) ==> HoldsAt(m, w, g)
  {}

  lemma RequeueReady(s: World, t: World, w: int, f: nat)
    requires ReadyOK(s) && t.fibers == s.fibers
    requires forall i, g :: QueuedAt(s, i, g) ==> QueuedAt(t, i, g)
    requires forall v, g :: HoldsAt(s, v, g) && g != f ==> HoldsAt(t, v, g)
    requires QueuedAt(t, |s.queue|, f)
    ensures ReadyOK(t)
  {
    forall g | g in t.fibers && t.fibers[g].state == READY
      ensures (exists i :: QueuedAt(t, i, g)) || (exists v :: HoldsAt(t, v, g))
    {
      if g != f {
        if v :| HoldsAt(s, v, g) { assert HoldsAt(t, v, g); }
      }
    }
  }

  lemma RequeueCore(s: World, w: int)
    requires Inv(s) && Enabled(s, Classify(w)) && Ready1(s, w, ReturnedFiber(s, w))
    requires s.fibers[ReturnedFiber(s, w)].state == READY
    ensures Core(ClassifyFiber(s, w))
  {
    var t, f, x := ClassifyFiber(s, w), ReturnedFiber(s, w), s.workers[w];
    var m := SetWorker(s, w, x.(pc := Requeued(x.pc.site)));
    RequeueLocal(s, m, w);
    LocalCore(s, m, w, f);
    NotHeldByOthers(s, m, w, f);
    RequeueFits(s, m, w, f);
    assert t.queue == m.queue + [FiberTask(f, ANY_THREAD)] && t.workers == m.workers && t.fibers == m.fibers;
    PushCore(m, t, FiberTask(f, ANY_THREAD));
  }

  lemma RequeueInv(s: World, w: int)
    requires Inv(s) && Enabled(s, Classify(w)) && Ready1(s, w, ReturnedFiber(s, w))
    requires s.fibers[ReturnedFiber(s, w)].state == READY
    ensures Inv(ClassifyFiber(s, w))
  {
    RequeueCore(s, w);
    RequeueReady(s, ClassifyFiber(s, w), w, ReturnedFiber(s, w));
  }

  lemma RequeueFits(s: World, m: World, w: int, f: nat)
    requires Enabled(s, Classify(w)) && Ready1(s, w, f) && f == ReturnedFiber(s, w) && s.fibers[f].state == READY
    requires m.fibers == s.fibers && m.queue == s.queue
    ensures TaskFiberOK(m, f) && AtRest(m.fibers[f], f) && forall i :: !QueuedAt(m, i, f)
  {
    assert forall i :: QueuedAt(m, i, f) <==> QueuedAt(s, i, f);
  }

  lemma ClassifyInv(s: World, w: int)
    requires Inv(s) && Enabled(s, Classify(w))
    ensures Inv(Apply(s, Classify(w)))
  {
    var x := s.workers[w];
    var t := ClassifyFiber(s, w);
    var f := ReturnedFiber(s, w);
    assert WorkerOK(s, x);
    HeldUnqueued(s, w, f);
    if s.fibers[f].state == READY {
      RequeueInv(s, w);
    } else {
      ParkLocal(s, w);
      LocalInv(s, t, w, f);
    }
  }

  lemma NotHeldByOthers(s: World, m: World, w: int, f: nat)
    requires Core(s) && HoldsAt(s, w, f) && Local(s, m, w, f) && !HoldsAt(m, w, f)
    ensures forall v :: !HoldsAt(m, v, f)
  {
    forall v ensures !HoldsAt(m, v, f) {
      if v != w && HoldsAt(m, v, f) { assert HoldsAt(s, v, f); }
    }
  }

  // ---------------------------------------------------------------- start and stop

  /** A pool thread: no fiber of its own before its first step, which makes one and makes it the
      scheduler's fiber there. */
  ghost predicate PoolThread(s: World, x: Worker) {
    && x.pc != Skipped && (s.ctl.poolStarted <==> x.pc != NotStarted)
    && (if x.pc == NotStarted || x.pc == Boot then x.current == NoFiber else x.main == ThreadFiber)
  }

  /** The caller's thread. Until the call it is as the constructor left it. During the call the
      thread's own fiber holds the rest of `stop()`, and the root fiber, which is the scheduler's
      fiber, is what `CallerMainFunc` will go back from. */
  ghost predicate CallerThread(s: World, x: Worker) {
    x.main == RootFiber &&
    match s.ctl.stopPc
    case InCall =>
      && Live(x.pc) && x.threadCtx == StopAt(Joining) && s.ctl.rootState == EXEC
      && (if x.pc == Boot then x.current == RootFiber && x.rootCtx == RunEntry else x.callerRef == RootFiber)
    case Joining => CallerLeft(x)
    case Returned => CallerLeft(x)
    case _ => x == CALLER_WORKER && s.ctl.rootState == INIT
  }

  ghost predicate CallerLeft(x: Worker) {
    x.current == ThreadFiber && ((x.pc == Exited && x.rootCtx == RunOver) || (x.pc == Skipped && x.rootCtx == RunEntry))
  }

  /** Which workers exist in which stage of `start()` and `stop()`, and how their threads are. */
  ghost predicate Protocol(s: World) {
    && (forall w :: IsPool(s, w) ==> PoolThread(s, s.workers[w]))
    && (s.ctl.root.Some? ==> s.ctl.root.value in s.workers && CallerThread(s, s.workers[s.ctl.root.value]))
    && (s.ctl.root.None? ==> s.ctl.stopPc != InCall)
    && (s.ctl.autoStop <==> s.ctl.stopPc != NotCalled)
    && (s.ctl.stopPc == NotCalled ==> (s.ctl.isStopping <==> !s.ctl.poolStarted))
    && (s.ctl.stopPc in {FlagsSet, InCall, Joining, Returned} ==> s.ctl.isStopping)
    && (s.ctl.stopPc == Returned && s.ctl.poolStarted ==> forall w :: IsPool(s, w) ==> s.workers[w].pc == Exited)
  }

  lemma InitProtocol(c: Config)
    requires ValidConfig(c)
    ensures Protocol(Init(c))
  {}

  ghost predicate IsStop(st: Step) {
    st.StartPool? || st.StopCall? || st.StopEarly? || st.StopFlag? || st.StopDispatch? || st.StopJoin?
  }

  ghost predicate IsClient(st: Step) {
    st.CreateFiber? || st.TakeHandle? || st.DropHandle? || st.ResetFiber? || st.ClientSubmit? || st.TaskSubmit?
  }

  /** `start()` and `stop()` touch only workers that have not started. */
  ghost predicate StopOnly(s: World, t: World) {
    && t.fibers == s.fibers && t.queue == s.queue && t.hist == s.hist && t.handles == s.handles
    && t.active == s.active && t.idleCount == s.idleCount
    && t.workers.Keys == s.workers.Keys && t.ctl.root == s.ctl.root
    && forall w :: w in s.workers ==> t.workers[w] == s.workers[w] || Wakes(s, s.workers[w], t.workers[w])
  }

  ghost predicate Wakes(s: World, x: Worker, y: Worker) {
    x.pc == NotStarted && (y.pc == Boot || (y.pc == Skipped && s.queue == [] && s.ctl.autoStop))
    && y.ft == x.ft && y.cbFiber == x.cbFiber && y.idle == x.idle
  }

  lemma StartShape(s: World)
    requires Protocol(s) && s.ctl.stopPc == NotCalled && s.ctl.isStopping
    ensures StopOnly(s, StartThreads(s))
  {
    assert forall w :: IsPool(s, w) ==> PoolThread(s, s.workers[w]);
  }

  /** `stop()` changes the caller's worker only, and only to start or to skip it. */
  lemma CallShape(s: World)
    requires s.ctl.root.Some? ==> s.ctl.root.value in s.workers && s.workers[s.ctl.root.value].pc == NotStarted
    ensures s.queue == [] && s.ctl.autoStop ==> StopOnly(s, SkipRoot(s))
    ensures s.ctl.root.Some? && s.workers[s.ctl.root.value].rootCtx == RunEntry ==> StopOnly(s, CallRoot(s))
  {}

  lemma CallerWaits(s: World)
    requires Protocol(s) && s.ctl.stopPc in {NotCalled, AutoStopSet, PastEarlyTest, FlagsSet}
    ensures s.ctl.root.Some? ==> s.ctl.root.value in s.workers && s.workers[s.ctl.root.value] == CALLER_WORKER
  {}

  lemma StopShape(s: World, st: Step)
    requires Protocol(s) && Enabled(s, st) && IsStop(st)
    ensures StopOnly(s, Apply(s, st))
  {
    if st.StartPool? {
      if s.ctl.isStopping { StartShape(s); }
    } else if st.StopEarly? || st.StopDispatch? {
      CallerWaits(s);
      CallShape(s);
      RootShape(s, st);
    }
  }

  lemma RootShape(s: World, st: Step)
    requires Enabled(s, st) && (st.StopEarly? || st.StopDispatch?)
    requires s.ctl.autoStop
    requires s.ctl.root.Some? ==> s.ctl.root.value in s.workers && s.workers[s.ctl.root.value] == CALLER_WORKER
    requires s.queue == [] ==> StopOnly(s, SkipRoot(s))
    requires s.ctl.root.Some? ==> StopOnly(s, CallRoot(s))
    ensures StopOnly(s, Apply(s, st))
  {
    if st.StopEarly? { EarlyShape(s); }
  }

  lemma EarlyShape(s: World)
    requires Enabled(s, StopEarly) && s.ctl.autoStop
    requires s.ctl.root.Some? ==> s.ctl.root.value in s.workers && s.workers[s.ctl.root.value] == CALLER_WORKER
    ensures StopOnly(s, Apply(s, StopEarly))
  {}

  /** The worker of a worker step. */
  function Actor(st: Step): int {
    match st
    case BootWorker(w, _) => w
    case Scan(w) => w
    case Dispatch(w, _) => w
    case EnterFiber(w) => w
    case Yield(w, _) => w
    case Finish(w, _) => w
    case IdleCheck(w) => w
    case SwapOut(w) => w
    case Release(w) => w
    case Classify(w) => w
    case DropStale(w) => w
    case IdleOrExit(w) => w
    case _ => ANY_THREAD
  }

  lemma ClientShape(s: World, st: Step)
    requires Enabled(s, st) && IsClient(st)
    ensures Apply(s, st).ctl == s.ctl && Apply(s, st).workers == s.workers
  {}

  lemma ActorLive(s: World, st: Step)
    requires Inv(s) && Enabled(s, st) && !IsClient(st) && !IsStop(st)
    ensures Actor(st) in s.workers && Live(s.workers[Actor(st)].pc)
  {}

  /** The worker of a worker step, and its local variables as they should be. */
  ghost predicate ActorOK(s: World, st: Step) {
    Actor(st) in s.workers && WorkerOK(s, s.workers[Actor(st)])
  }

  lemma ActorIsOK(s: World, st: Step)
    requires Inv(s) && Enabled(s, st) && !IsClient(st) && !IsStop(st)
    ensures ActorOK(s, st)
  {
    ActorLive(s, st);
    assert WorkerOK(s, s.workers[Actor(st)]);
  }

  ghost predicate Exits(s: World, st: Step) {
    st.IdleOrExit? && Enabled(s, st) && s.fibers[s.workers[st.w].idle.value].state == TERM
  }

  lemma ActorShape(s: World, st: Step)
    requires Enabled(s, st) && !IsClient(st) && !IsStop(st) && Actor(st) in s.workers
    ensures Exits(s, st) || Moves(s, Apply(s, st), Actor(st))
  {}

  /** Worker steps other than the first and the last leave the thread's pointers as they are. */
  lemma ActorThread(s: World, st: Step)
    requires Enabled(s, st) && !IsClient(st) && !IsStop(st) && !st.BootWorker? && Actor(st) in s.workers
    ensures Exits(s, st) || KeepsThread(s, Apply(s, st), Actor(st))
  {}

  lemma BootProtocol(s: World, st: Step)
    requires Protocol(s) && Enabled(s, st) && st.BootWorker?
    ensures Protocol(Apply(s, st))
  {
    assert forall v :: IsPool(Apply(s, st), v) <==> IsPool(s, v);
  }

  lemma MoveProtocol(s: World, t: World, w: int)
    requires Protocol(s) && Moves(s, t, w) && KeepsThread(s, t, w) && Live(s.workers[w].pc) && s.workers[w].pc != Boot
    ensures Protocol(t)
  {
    assert forall v :: IsPool(t, v) <==> IsPool(s, v);
    if s.ctl.root.Some? && s.ctl.root.value != w {
      assert t.workers[s.ctl.root.value] == s.workers[s.ctl.root.value];
    }
  }

  lemma ExitProtocol(s: World, w: int)
    requires Protocol(s) && Enabled(s, IdleOrExit(w)) && Exits(s, IdleOrExit(w))
    ensures Protocol(EnterIdleOrExit(s, w))
  {
    assert forall v :: IsPool(EnterIdleOrExit(s, w), v) <==> IsPool(s, v);
  }

  lemma StartProtocol(s: World)
    requires Protocol(s) && s.ctl.stopPc == NotCalled && s.ctl.isStopping
    ensures Protocol(StartThreads(s))
  {
    assert forall v :: IsPool(StartThreads(s), v) <==> IsPool(s, v);
  }

  /** A step of `stop()` that leaves the workers alone. */
  lemma FlagProtocol(s: World, st: Step)
    requires Protocol(s) && Enabled(s, st) && (st.StopCall? || st.StopFlag? || st.StopJoin?)
    ensures Protocol(Apply(s, st))
  {
    assert forall v :: IsPool(Apply(s, st), v) <==> IsPool(s, v);
  }

  lemma EarlyProtocol(s: World)
    requires Protocol(s) && Enabled(s, StopEarly)
    ensures Protocol(Apply(s, StopEarly))
  {
    assert forall v :: IsPool(Apply(s, StopEarly), v) <==> IsPool(s, v);
  }

  lemma CallProtocol(s: World)
    requires Protocol(s) && Enabled(s, StopDispatch)
    ensures Protocol(Apply(s, StopDispatch))
  {
    assert forall v :: IsPool(Apply(s, StopDispatch), v) <==> IsPool(s, v);
  }

  lemma StopProtocol(s: World, st: Step)
    requires Protocol(s) && Enabled(s, st) && IsStop(st)
    ensures Protocol(Apply(s, st))
  {
    if st.StartPool? {
      if s.ctl.isStopping { StartProtocol(s); }
    } else if st.StopEarly? {
      EarlyProtocol(s);
    } else if st.StopDispatch? {
      CallProtocol(s);
    } else {
      FlagProtocol(s, st);
    }
  }

  lemma StepProtocol(s: World, st: Step)
    requires Inv(s) && Protocol(s) && Enabled(s, st)
    ensures Protocol(Apply(s, st))
  {
    if IsClient(st) {
      ClientShape(s, st);
    } else if IsStop(st) {
      StopProtocol(s, st);
    } else if Exits(s, st) {
      ExitProtocol(s, st.w);
    } else if st.BootWorker? {
      BootProtocol(s, st);
    } else {
      ActorLive(s, st);
      ActorShape(s, st);
      ActorThread(s, st);
      MoveProtocol(s, Apply(s, st), Actor(st));
    }
  }

  lemma StartWorkers(s: World)
    requires WorkersOK(s) && Protocol(s) && s.ctl.stopPc == NotCalled && s.ctl.isStopping
    ensures WorkersOK(StartThreads(s))
    ensures forall w, f :: HoldsAt(StartThreads(s), w, f) <==> HoldsAt(s, w, f)
    ensures forall w, f :: OnThreadOf(StartThreads(s), w, f) <==> OnThreadOf(s, w, f)
  {
    var t := StartThreads(s);
    forall w | w in s.workers
      ensures WorkerOK(t, t.workers[w]) && (t.workers[w] == s.workers[w] || (Dormant(s.workers[w]) && s.workers[w].pc == NotStarted))
    {
      assert WorkerOK(s, s.workers[w]);
      assert s.ctl.root != Some(w) ==> IsPool(s, w);
    }
  }

  lemma StartPoolInv(s: World)
    requires Inv(s) && Protocol(s) && Enabled(s, StartPool) && s.ctl.isStopping
    ensures Inv(StartThreads(s))
  {
    StartWorkers(s);
    SameEverything(s, StartThreads(s));
  }

  /** The invariant speaks of the workers only through what they hold and what is on their threads. */
  lemma SameEverything(s: World, t: World)
    requires Inv(s) && WorkersOK(t)
    requires t.fibers == s.fibers && t.queue == s.queue && t.handles == s.handles
    requires forall w, f :: HoldsAt(t, w, f) <==> HoldsAt(s, w, f)
    requires forall w, f :: OnThreadOf(t, w, f) <==> OnThreadOf(s, w, f)
    ensures Inv(t)
  {
    assert forall i, f :: QueuedAt(t, i, f) <==> QueuedAt(s, i, f);
  }

  lemma RootStepInv(s: World, t: World)
    requires Inv(s) && Protocol(s) && s.ctl.stopPc in {AutoStopSet, FlagsSet}
    requires t == SetCtl(SkipRoot(s), t.ctl) || t == CallRoot(s)
    ensures Inv(t)
  {
    if s.ctl.root.Some? {
      var w := s.ctl.root.value;
      assert WorkerOK(s, s.workers[w]);
      assert WorkerOK(t, t.workers[w]);
      assert forall g :: !HoldsAt(s, w, g) && !HoldsAt(t, w, g) && !OnThreadOf(s, w, g);
      WorkerOnlyInv(s, t, w);
    } else {
      SameQueueAndHolders(s, t);
    }
  }

  // ---------------------------------------------------------------- every step

  lemma ClientInv(s: World, st: Step)
    requires Inv(s) && Enabled(s, st) && IsClient(st)
    ensures Inv(Apply(s, st))
  {
    match st
    case CreateFiber(id) => CreateFiberInv(s, id);
    case TakeHandle(w) => TakeHandleInv(s, w);
    case DropHandle(id) => DropHandleInv(s, id);
    case ResetFiber(id) => ResetFiberInv(s, id);
    case ClientSubmit(sub, pin) => SubmitInv(s, sub, pin, s.ctl.stopPc != NotCalled);
    case TaskSubmit(w, sub, pin) => SubmitInv(s, sub, pin, s.ctl.stopPc != NotCalled && !PinAllows(pin, w));
  }

  lemma SameWorkers(s: World, t: World)
    requires WorkersOK(s) && t.workers == s.workers && t.fibers == s.fibers && t.handles == s.handles
    ensures WorkersOK(t)
  {
    assert forall w :: w in s.workers ==> WorkerOK(s, s.workers[w]) ==> WorkerOK(t, s.workers[w]);
  }

  lemma EarlyInv(s: World)
    requires Inv(s) && Protocol(s) && Enabled(s, StopEarly)
    ensures Inv(Apply(s, StopEarly))
  {
    var t := Apply(s, StopEarly);
    if t.ctl.stopPc == Returned {
      RootStepInv(s, t);
    } else {
      SameWorkers(s, t);
      SameQueueAndHolders(s, t);
    }
  }

  lemma CallInv(s: World)
    requires Inv(s) && Protocol(s) && Enabled(s, StopDispatch)
    ensures Inv(Apply(s, StopDispatch))
  {
    var t := Apply(s, StopDispatch);
    if s.ctl.root.Some? {
      RootStepInv(s, t);
    } else {
      SameWorkers(s, t);
      SameQueueAndHolders(s, t);
    }
  }

  lemma FlagInv(s: World, st: Step)
    requires Inv(s) && Enabled(s, st) && (st.StopCall? || st.StopFlag? || st.StopJoin?)
    ensures Inv(Apply(s, st))
  {
    SameWorkers(s, Apply(s, st));
    SameQueueAndHolders(s, Apply(s, st));
  }

  lemma StopInv(s: World, st: Step)
    requires Inv(s) && Protocol(s) && Enabled(s, st) && IsStop(st)
    ensures Inv(Apply(s, st))
  {
    if st.StartPool? {
      if s.ctl.isStopping { StartPoolInv(s); }
    } else if st.StopEarly? {
      EarlyInv(s);
    } else if st.StopDispatch? {
      CallInv(s);
    } else {
      FlagInv(s, st);
    }
  }

  lemma FiberStepInv(s: World, st: Step)
    requires Inv(s) && Enabled(s, st)
    requires st.EnterFiber? || st.Yield? || st.Finish? || st.IdleCheck? || st.SwapOut?
    ensures Inv(Apply(s, st))
  {
    match st
    case EnterFiber(w) => EnterFiberInv(s, w);
    case Yield(w, ready) => BeginYieldInv(s, w, if ready then READY else HOLD);
    case Finish(w, threw) => BeginFinishInv(s, w, threw);
    case IdleCheck(w) => if StopCondition(s) { BeginFinishInv(s, w, false); } else { BeginYieldInv(s, w, HOLD); }
    case SwapOut(w) => SwapOutInv(s, w);
  }

  lemma LoopStepInv(s: World, st: Step)
    requires Inv(s) && Enabled(s, st)
    requires st.Release? || st.Classify? || st.DropStale?
    ensures Inv(Apply(s, st))
  {
    match st
    case Release(w) => ReleaseInv(s, w);
    case Classify(w) => ClassifyInv(s, w);
    case DropStale(w) => DropStaleInv(s, w);
  }

  /** `t_fiber` denotes the scheduler fiber once the worker has taken its first step. */
  lemma BootReady(s: World, w: int)
    requires Protocol(s) && AtPc(s, w, Boot)
    ensures AtMain(BootThread(s.workers[w], s.ctl.root == Some(w)))
  {
    assert s.ctl.root != Some(w) ==> IsPool(s, w);
  }

  lemma StepInv(s: World, st: Step)
    requires Inv(s) && Protocol(s) && Enabled(s, st)
    ensures Inv(Apply(s, st))
  {
    if IsClient(st) { ClientInv(s, st); }
    else if IsStop(st) { StopInv(s, st); }
    else if st.Scan? { ScanInv(s, st.w); }
    else if st.Dispatch? { DispatchInv(s, st.w, st.id); }
    else if st.IdleOrExit? { IdleOrExitInv(s, st.w); }
    else if st.BootWorker? { BootReady(s, st.w); BootWorkerInv(s, st.w, st.id); }
    else if st.Release? || st.Classify? || st.DropStale? { LoopStepInv(s, st); }
    else { FiberStepInv(s, st); }
  }
}
