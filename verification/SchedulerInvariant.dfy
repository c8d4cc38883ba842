/** The inductive invariant of the scheduler: who holds which fiber, and which context every fiber
    and every worker is in. */
module SchedulerInvariant {
  import opened Wrappers
  import opened Tasks
  import opened SchedulerModel

  /** A fiber whose code is not on any thread. */
  ghost predicate AtRest(x: Fiber, f: nat) {
    match x.state
    case INIT => x.ctx == Entry && x.mainRef == None && x.yieldRef == None
    case HOLD => x.ctx == Suspended(f) && x.mainRef == Some(f) && x.yieldRef == Some(f)
    case READY => x.ctx == Suspended(f) && x.mainRef == Some(f) && x.yieldRef == Some(f)
    case TERM => x.ctx == Spent(f) && x.mainRef == None && x.yieldRef == None
    case EXCEPT => x.ctx == Spent(f) && x.mainRef == None && x.yieldRef == None
    case EXEC => false
  }

  /** A fiber whose code is on a thread, in the given phase. */
  ghost predicate OnThread(x: Fiber, f: nat, phase: Phase) {
    match phase
    case Entering =>
      && x.state == EXEC
      && ( || (x.ctx == Entry && x.mainRef == None && x.yieldRef == None)
           || (x.ctx == Suspended(f) && x.mainRef == Some(f) && x.yieldRef == Some(f)))
    case Running => x.state == EXEC && x.mainRef == Some(f) && x.yieldRef == None
    case Leaving(cur, last) =>
      && cur == f
      && (if last then Finished(x.state) && x.mainRef == None && x.yieldRef == None
          else (x.state == READY || x.state == HOLD) && x.mainRef == Some(f) && x.yieldRef == Some(f))
  }

  /** The fiber that a call of `swapIn` at `site` was made for. */
  function SiteFiberOf(x: Worker, site: Site): Option<nat> {
    match site
    case SiteFiber => if x.ft.Some? && x.ft.value.FiberTask? then Some(x.ft.value.fiber) else None
    case SiteCb => if x.ft.None? then x.cbFiber else None
    case SiteIdle => if x.ft.None? then x.idle else None
  }

  ghost predicate UsesSite(x: Worker, site: Site) {
    match x.pc
    case InFiber(_, _) => MainCtx(x) == Loop(site)
    case Back(t) => t == site
    case Released(t) => t == site
    case Requeued(t) => t == site
    case _ => false
  }

  ghost predicate Dormant(x: Worker) {
    x.ft.None? && x.cbFiber.None? && x.idle.None?
  }

  ghost predicate Distinct(x: Worker) {
    && (x.ft.Some? && x.ft.value.FiberTask? ==> x.idle != Some(x.ft.value.fiber) && (x.cbFiber != Some(x.ft.value.fiber)))
    && (x.cbFiber.Some? ==> x.cbFiber != x.idle)
  }

  /** The thread has a scheduler fiber: its own, or the root fiber. */
  predicate HasMain(x: Worker) {
    x.main == ThreadFiber || x.main == RootFiber
  }

  /** The loop is running: `t_fiber` denotes the scheduler fiber. */
  predicate AtMain(x: Worker) {
    HasMain(x) && x.current == x.main
  }

  ghost predicate PcOK(s: World, x: Worker) {
    match x.pc
    case NotStarted => Dormant(x)
    case Skipped => Dormant(x)
    case Exited => Dormant(x)
    case Boot => Dormant(x)
    case Head => x.ft.None? && x.idle.Some? && AtMain(x)
    case ScannedEmpty => x.ft.None? && x.idle.Some? && AtMain(x)
    case Claimed => x.ft.Some? && x.idle.Some? && AtMain(x)
    case InFiber(e, phase) =>
      && x.idle.Some? && x.current == CoFiber(e) && HasMain(x) && MainCtx(x).Loop?
      && SiteFiberOf(x, MainCtx(x).site) == Some(e)
      && e in s.fibers && OnThread(s.fibers[e], e, phase)
      && (MainCtx(x).site == SiteIdle <==> x.idle == Some(e))
    case Back(site) =>
      && x.idle.Some? && AtMain(x) && SiteFiberOf(x, site).Some?
      && var f := SiteFiberOf(x, site).value; f in s.fibers && AtRest(s.fibers[f], f) && s.fibers[f].state != INIT
    case Released(site) =>
      && site != SiteIdle && x.idle.Some? && AtMain(x) && SiteFiberOf(x, site).Some?
      && var f := SiteFiberOf(x, site).value; f in s.fibers && AtRest(s.fibers[f], f) && s.fibers[f].state != INIT
    case Requeued(site) => site != SiteIdle && x.idle.Some? && AtMain(x) && SiteFiberOf(x, site).Some?
  }

  /** The callback fiber waiting to be recycled is in its initial state and has no function. */
  ghost predicate SlotOK(s: World, x: Worker) {
    x.cbFiber.Some? ==>
      && x.cbFiber.value in s.fibers
      && s.fibers[x.cbFiber.value].fn != IdleFn
      && (!UsesSite(x, SiteCb) ==> s.fibers[x.cbFiber.value] == Fiber(INIT, NoFn, Entry, None, None))
  }

  ghost predicate IdleOK(s: World, x: Worker) {
    x.idle.Some? ==>
      && x.idle.value in s.fibers && x.idle.value !in s.handles
      && s.fibers[x.idle.value].state != READY && s.fibers[x.idle.value].state != EXCEPT
      && (s.fibers[x.idle.value].state != TERM ==> s.fibers[x.idle.value].fn == IdleFn)
      && (!UsesSite(x, SiteIdle) ==> AtRest(s.fibers[x.idle.value], x.idle.value))
  }

  ghost predicate TaskFiberOK(s: World, f: nat) {
    f in s.fibers && s.fibers[f].fn != IdleFn
  }

  ghost predicate WorkerOK(s: World, x: Worker) {
    && Distinct(x) && SlotOK(s, x) && IdleOK(s, x) && PcOK(s, x)
    && (x.ft.Some? && x.ft.value.FiberTask? ==>
          TaskFiberOK(s, x.ft.value.fiber)
          && (x.pc == Claimed ==> AtRest(s.fibers[x.ft.value.fiber], x.ft.value.fiber)))
  }

  ghost predicate WorkersOK(s: World) {
    forall w :: w in s.workers ==> WorkerOK(s, s.workers[w])
  }

  ghost predicate OneHolder(s: World) {
    forall v, w, f :: HoldsAt(s, v, f) && HoldsAt(s, w, f) ==> v == w
  }

  ghost predicate HoldsAt(s: World, w: int, f: nat) {
    w in s.workers && Holds(s.workers[w], f)
  }

  ghost predicate QueuedAt(s: World, i: int, f: nat) {
    0 <= i < |s.queue| && s.queue[i].FiberTask? && s.queue[i].fiber == f
  }

  ghost predicate QueueOK(s: World) {
    && (forall i, f :: QueuedAt(s, i, f) ==> TaskFiberOK(s, f) && AtRest(s.fibers[f], f))
    && (forall i, w, f :: QueuedAt(s, i, f) ==> !HoldsAt(s, w, f))
    && (forall i, j, f :: QueuedAt(s, i, f) && QueuedAt(s, j, f) ==> i == j)
  }

  ghost predicate OnThreadOf(s: World, w: int, f: nat) {
    w in s.workers && s.workers[w].pc.InFiber? && s.workers[w].pc.exec == f
  }

  ghost predicate RestOK(s: World) {
    forall f :: f in s.fibers ==> AtRest(s.fibers[f], f) || exists w :: OnThreadOf(s, w, f)
  }

  /** A READY fiber is never stranded. */
  ghost predicate ReadyOK(s: World) {
    forall f :: f in s.fibers && s.fibers[f].state == READY ==>
      (exists i :: QueuedAt(s, i, f)) || (exists w :: HoldsAt(s, w, f))
  }

  ghost predicate HandlesOK(s: World) {
    forall f :: f in s.handles ==> TaskFiberOK(s, f)
  }

  ghost predicate Core(s: World) {
    WorkersOK(s) && OneHolder(s) && QueueOK(s) && RestOK(s) && HandlesOK(s)
  }

  ghost predicate Inv(s: World) {
    Core(s) && ReadyOK(s)
  }

  lemma InitInv(c: Config)
    requires ValidConfig(c)
    ensures Inv(Init(c))
  {}

  // ---------------------------------------------------------------- one worker moves

  /** `t` differs from `s` only in worker `w` and fiber `f`; `f` belongs to `w`, or to nobody. */
  ghost predicate Local(s: World, t: World, w: int, f: nat) {
    && t.workers.Keys == s.workers.Keys
    && (forall v :: v in s.workers && v != w ==> t.workers[v] == s.workers[v])
    && t.fibers.Keys == s.fibers.Keys + {f}
    && (forall g :: g in s.fibers && g != f ==> t.fibers[g] == s.fibers[g])
    && t.queue == s.queue && t.handles == s.handles
    && (f in s.fibers ==> HoldsAt(s, w, f) || (forall v :: !HoldsAt(s, v, f)))
    && (f in s.fibers ==> forall i :: !QueuedAt(s, i, f))
    && (f in s.fibers && s.fibers[f].fn != IdleFn ==> t.fibers[f].fn != IdleFn)
    && (forall g :: HoldsAt(t, w, g) ==> HoldsAt(s, w, g) || g == f)
    && (w in t.workers ==> WorkerOK(t, t.workers[w]))
    && (AtRest(t.fibers[f], f) || OnThreadOf(t, w, f))
    && (forall g :: OnThreadOf(s, w, g) && g != f ==> OnThreadOf(t, w, g))
  }

  /** What a worker refers to exists; what it holds is not touched by the others. */
  lemma HeldExists(s: World, w: int, f: nat)
    requires WorkersOK(s) && HoldsAt(s, w, f)
    ensures f in s.fibers
  {
    assert WorkerOK(s, s.workers[w]);
  }

  lemma OtherWorkerOK(s: World, t: World, w: int, f: nat, v: int)
    requires Core(s) && Local(s, t, w, f) && v in s.workers && v != w
    ensures WorkerOK(t, t.workers[v])
  {
    var x := s.workers[v];
    assert WorkerOK(s, x);
    assert !HoldsAt(s, v, f) by {
      if HoldsAt(s, v, f) { HeldExists(s, v, f); }
    }
  }

  lemma LocalCore(s: World, t: World, w: int, f: nat)
    requires Core(s) && Local(s, t, w, f)
    ensures Core(t)
  {
    forall v | v in t.workers ensures WorkerOK(t, t.workers[v]) {
      if v != w { OtherWorkerOK(s, t, w, f, v); }
    }
    LocalOneHolder(s, t, w, f);
    LocalQueueOK(s, t, w, f);
    LocalRestOK(s, t, w, f);
  }

  lemma LocalOneHolder(s: World, t: World, w: int, f: nat)
    requires Core(s) && Local(s, t, w, f)
    ensures OneHolder(t)
  {
    forall u, v, g | HoldsAt(t, u, g) && HoldsAt(t, v, g) ensures u == v {
      if u != w { assert HoldsAt(s, u, g); HeldExists(s, u, g); }
      if v != w { assert HoldsAt(s, v, g); HeldExists(s, v, g); }
    }
  }

  lemma LocalQueueOK(s: World, t: World, w: int, f: nat)
    requires Core(s) && Local(s, t, w, f)
    ensures QueueOK(t)
  {
    forall i, g | QueuedAt(t, i, g) ensures TaskFiberOK(t, g) && AtRest(t.fibers[g], g) {
      assert QueuedAt(s, i, g);
    }
    forall i, v, g | QueuedAt(t, i, g) ensures !HoldsAt(t, v, g) {
      assert QueuedAt(s, i, g);
      assert !HoldsAt(s, v, g);
    }
    forall i, j, g | QueuedAt(t, i, g) && QueuedAt(t, j, g) ensures i == j {
      assert QueuedAt(s, i, g) && QueuedAt(s, j, g);
    }
  }

  lemma LocalRestOK(s: World, t: World, w: int, f: nat)
    requires Core(s) && Local(s, t, w, f)
    ensures RestOK(t)
  {
    forall g | g in t.fibers ensures AtRest(t.fibers[g], g) || exists v :: OnThreadOf(t, v, g) {
      if g == f {
        assert AtRest(t.fibers[f], f) || OnThreadOf(t, w, f);
      } else if !AtRest(s.fibers[g], g) {
        var v :| OnThreadOf(s, v, g);
        assert OnThreadOf(t, v, g);
      }
    }
  }

  /** READY fibers stay reachable when `w` keeps the READY ones it held. */
  lemma LocalReady(s: World, t: World, w: int, f: nat)
    requires Inv(s) && Local(s, t, w, f)
    requires forall g :: HoldsAt(s, w, g) && g in t.fibers && t.fibers[g].state == READY ==> HoldsAt(t, w, g)
    requires t.fibers[f].state == READY ==> HoldsAt(t, w, f)
    ensures ReadyOK(t)
  {
    forall g | g in t.fibers && t.fibers[g].state == READY
      ensures (exists i :: QueuedAt(t, i, g)) || (exists v :: HoldsAt(t, v, g))
    {
      if g != f {
        if i :| QueuedAt(s, i, g) {
          assert QueuedAt(t, i, g);
        } else {
          var v :| HoldsAt(s, v, g);
          assert HoldsAt(t, v, g);
        }
      }
    }
  }

  lemma LocalInv(s: World, t: World, w: int, f: nat)
    requires Inv(s) && Local(s, t, w, f)
    requires forall g :: HoldsAt(s, w, g) && g in t.fibers && t.fibers[g].state == READY ==> HoldsAt(t, w, g)
    requires t.fibers[f].state == READY ==> HoldsAt(t, w, f)
    ensures Inv(t)
  {
    LocalCore(s, t, w, f);
    LocalReady(s, t, w, f);
  }
}
