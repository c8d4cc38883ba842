/** No task is lost at shutdown.

    `stopping()` can be true while a worker still has a READY fiber to queue: the active counter
    drops before the fiber goes back. The reason nothing is lost is a covering property: once any
    worker has seen `stopping()` true, every queued task has a worker that may run it and that must
    scan the queue once more before it can leave. */
module SchedulerShutdown {
  import opened Tasks
  import opened SchedulerModel
  import opened SchedulerInvariant
  import opened SchedulerSteps

  predicate IdleDone(s: World, w: int) {
    w in s.workers && s.workers[w].idle.Some? && s.workers[w].idle.value in s.fibers
    && s.fibers[s.workers[w].idle.value].state == TERM
  }

  /** `w` will scan the queue again before it can leave `run`. */
  ghost predicate Rescans(s: World, w: int) {
    w in s.workers && Live(s.workers[w].pc) && !(s.workers[w].pc == ScannedEmpty && IdleDone(s, w))
  }

  ghost predicate Gone(s: World, w: int) {
    w in s.workers && (IdleDone(s, w) || s.workers[w].pc == Exited || s.workers[w].pc == Skipped)
  }

  /** Some worker has seen `stopping()` true. */
  ghost predicate SawStop(s: World) {
    exists w :: Gone(s, w)
  }

  ghost predicate Covers(s: World, w: int, t: Task<nat>) {
    Rescans(s, w) && PinAllows(t.thread, w)
  }

  /** The entry that was queued as number `n`. */
  ghost predicate Covered(s: World, n: nat) {
    n in s.hist.strays || (n < |s.hist.pushed| && exists w :: Covers(s, w, s.hist.pushed[n]))
  }

  ghost predicate ShutdownOK(s: World) {
    SawStop(s) ==> s.ctl.stopPc != NotCalled && forall n :: n in s.hist.order ==> Covered(s, n)
  }

  // ---------------------------------------------------------------- the numbers of the queue entries

  /** The entries of `queue` are the tasks queued under the numbers in `order`, oldest first. */
  ghost predicate Numbered(queue: seq<Task<nat>>, order: seq<nat>, pushed: seq<Task<nat>>) {
    && |order| == |queue|
    && (forall i :: 0 <= i < |queue| ==> order[i] < |pushed| && pushed[order[i]] == queue[i])
    && (forall i, j :: 0 <= i < j < |queue| ==> order[i] < order[j])
  }

  ghost predicate OrderOK(s: World) {
    Numbered(s.queue, s.hist.order, s.hist.pushed) && forall n :: n in s.hist.strays ==> n < |s.hist.pushed|
  }

  lemma RemoveNumbered(queue: seq<Task<nat>>, order: seq<nat>, pushed: seq<Task<nat>>, k: nat)
    requires Numbered(queue, order, pushed) && k < |queue|
    ensures Numbered(RemoveAt(queue, k), RemoveAt(order, k), pushed)
    ensures forall n :: n in RemoveAt(order, k) ==> n in order
  {}

  ghost predicate SameOrder(s: World, t: World) {
    t.queue == s.queue && t.hist.order == s.hist.order && t.hist.pushed == s.hist.pushed && t.hist.strays == s.hist.strays
  }

  lemma ScanOrder(s: World, w: int)
    requires OrderOK(s) && w in s.workers
    ensures OrderOK(ScanQueue(s, w))
    ensures forall n :: n in ScanQueue(s, w).hist.order ==> n in s.hist.order
    ensures ScanQueue(s, w).hist.strays == s.hist.strays && ScanQueue(s, w).hist.pushed == s.hist.pushed
  {
    var k := FirstEligible(s.queue, w, Executing(s));
    if k < |s.queue| { RemoveNumbered(s.queue, s.hist.order, s.hist.pushed, k); }
  }

  lemma PushOrder(s: World, t: World, q: Task<nat>)
    requires OrderOK(s) && t.queue == s.queue + [q]
    requires t.hist.pushed == s.hist.pushed + [q] && t.hist.order == s.hist.order + [|s.hist.pushed|]
    requires t.hist.strays == s.hist.strays || t.hist.strays == s.hist.strays + {|s.hist.pushed|}
    ensures OrderOK(t)
  {}

  lemma ActorKeepsOrder(s: World, st: Step)
    requires Enabled(s, st) && !IsClient(st) && !IsStop(st) && !st.Scan? && !st.Classify?
    ensures SameOrder(s, Apply(s, st))
  {}

  lemma StepOrder(s: World, st: Step)
    requires Inv(s) && Protocol(s) && OrderOK(s) && Enabled(s, st)
    ensures OrderOK(Apply(s, st))
  {
    if IsClient(st) {
      ClientOrder(s, st);
    } else if IsStop(st) {
      StopShape(s, st);
    } else if st.Scan? {
      ScanOrder(s, st.w);
    } else if st.Classify? {
      ClassifyOrder(s, st.w);
    } else {
      ActorKeepsOrder(s, st);
    }
  }

  lemma ClientOrder(s: World, st: Step)
    requires OrderOK(s) && Enabled(s, st) && IsClient(st)
    ensures OrderOK(Apply(s, st))
  {
    if st.ClientSubmit? || st.TaskSubmit? { PushOrder(s, Apply(s, st), SubmittedTask(s, st.sub, st.pin)); }
  }

  lemma ClassifyOrder(s: World, w: int)
    requires OrderOK(s) && Enabled(s, Classify(w))
    ensures OrderOK(ClassifyFiber(s, w))
  {
    var t := ClassifyFiber(s, w);
    if t.queue != s.queue { PushOrder(s, t, t.queue[|s.queue|]); }
  }

  // ---------------------------------------------------------------- which fibers a step touches

  ghost predicate TouchesOwn(s: World, t: World, w: int) {
    forall g :: g in s.fibers && !HoldsAt(s, w, g) ==> g in t.fibers && t.fibers[g] == s.fibers[g]
  }

  /** The code on the thread of `w` touches no fiber but its own. */
  ghost predicate TouchesOne(s: World, t: World, f: nat) {
    forall g :: g in s.fibers && g != f ==> g in t.fibers && t.fibers[g] == s.fibers[g]
  }

  lemma TaskTouches(s: World, w: int)
    requires InTask(s, w) && WorkerOK(s, s.workers[w])
    ensures var f := s.workers[w].pc.exec;
      && TouchesOne(s, BeginYield(s, w, READY), f) && TouchesOne(s, BeginYield(s, w, HOLD), f)
      && TouchesOne(s, BeginFinish(s, w, true), f) && TouchesOne(s, BeginFinish(s, w, false), f)
  {}

  lemma EdgeTouches(s: World, w: int)
    requires w in s.workers && WorkerOK(s, s.workers[w]) && s.workers[w].pc.InFiber?
    ensures var f := s.workers[w].pc.exec;
      && TouchesOne(s, Enter(s, w), f)
      && (s.workers[w].pc.phase.Leaving? && s.workers[w].pc.phase.cur in s.fibers ==> TouchesOne(s, Leave(s, w), f))
  {}

  lemma OneIsOwn(s: World, t: World, w: int)
    requires w in s.workers && WorkerOK(s, s.workers[w]) && s.workers[w].pc.InFiber?
    requires TouchesOne(s, t, s.workers[w].pc.exec)
    ensures TouchesOwn(s, t, w)
  {
    assert HoldsAt(s, w, s.workers[w].pc.exec);
  }

  lemma RunningTouches(s: World, st: Step)
    requires ActorOK(s, st) && Enabled(s, st) && (st.Yield? || st.Finish? || st.IdleCheck?)
    ensures TouchesOne(s, Apply(s, st), s.workers[Actor(st)].pc.exec)
  {
    TaskTouches(s, Actor(st));
  }

  lemma SwitchingTouches(s: World, st: Step)
    requires ActorOK(s, st) && Enabled(s, st) && (st.EnterFiber? || st.SwapOut?)
    ensures TouchesOne(s, Apply(s, st), s.workers[Actor(st)].pc.exec)
  {
    EdgeTouches(s, Actor(st));
  }

  lemma FiberTouches(s: World, st: Step)
    requires ActorOK(s, st) && Enabled(s, st)
    requires st.EnterFiber? || st.Yield? || st.Finish? || st.IdleCheck? || st.SwapOut?
    ensures TouchesOwn(s, Apply(s, st), Actor(st))
  {
    if st.EnterFiber? || st.SwapOut? { SwitchingTouches(s, st); } else { RunningTouches(s, st); }
    OneIsOwn(s, Apply(s, st), Actor(st));
  }

  lemma LoopTouches(s: World, st: Step)
    requires ActorOK(s, st) && Enabled(s, st)
    requires st.BootWorker? || st.Scan? || st.Release?
    ensures TouchesOwn(s, Apply(s, st), Actor(st))
  {}

  lemma SwitchTouches(s: World, st: Step)
    requires ActorOK(s, st) && Enabled(s, st)
    requires st.Dispatch? || st.IdleOrExit?
    ensures TouchesOwn(s, Apply(s, st), Actor(st))
  {}

  lemma ClassifyTouches(s: World, st: Step)
    requires ActorOK(s, st) && Enabled(s, st)
    requires st.Classify? || st.DropStale?
    ensures TouchesOwn(s, Apply(s, st), Actor(st))
  {}

  lemma OthersKeepIdle(s: World, t: World, w: int, v: int)
    requires Core(s) && TouchesOwn(s, t, w) && v in s.workers && v != w
    requires v in t.workers && t.workers[v] == s.workers[v]
    ensures IdleDone(t, v) == IdleDone(s, v)
  {
    assert WorkerOK(s, s.workers[v]);
    if s.workers[v].idle.Some? {
      assert HoldsAt(s, v, s.workers[v].idle.value);
    }
  }

  // ---------------------------------------------------------------- worker steps that stay covered

  /** After any step of `w` other than an empty scan or an exit, `w` still has to rescan, so what it
      queued is covered by `w` itself. */
  lemma MoveShutdown(s: World, t: World, w: int)
    requires Core(s) && ShutdownOK(s) && Moves(s, t, w) && TouchesOwn(s, t, w)
    requires t.workers[w].pc != ScannedEmpty && (IdleDone(t, w) ==> IdleDone(s, w))
    requires t.hist.strays == s.hist.strays && s.hist.pushed <= t.hist.pushed
    requires forall n :: n in t.hist.order ==> n in s.hist.order || OwnWork(t, n, w)
    ensures ShutdownOK(t)
  {
    if SawStop(t) {
      var g :| Gone(t, g);
      if g != w { OthersKeepIdle(s, t, w, g); }
      assert Gone(s, g);
      forall n | n in t.hist.order ensures Covered(t, n) {
        if OwnWork(t, n, w) {
          assert Covers(t, w, t.hist.pushed[n]);
        } else {
          CoverKept(s, t, w, n);
        }
      }
    }
  }

  /** Entry `n` may be run by `w`. */
  ghost predicate OwnWork(s: World, n: nat, w: int) {
    n < |s.hist.pushed| && PinAllows(s.hist.pushed[n].thread, w)
  }

  lemma CoverKept(s: World, t: World, w: int, n: nat)
    requires Core(s) && Moves(s, t, w) && TouchesOwn(s, t, w) && Covered(s, n)
    requires t.hist.strays == s.hist.strays && s.hist.pushed <= t.hist.pushed && !OwnWork(t, n, w)
    ensures Covered(t, n)
  {
    if n !in s.hist.strays {
      var v :| Covers(s, v, s.hist.pushed[n]);
      assert v != w;
      OthersKeepIdle(s, t, w, v);
      assert Covers(t, v, t.hist.pushed[n]);
    }
  }

  /** A worker whose scan found nothing covered nothing: every queued task is pinned elsewhere. */
  lemma EmptyScanShutdown(s: World, w: int)
    requires Inv(s) && OrderOK(s) && ShutdownOK(s) && AtPc(s, w, Head)
    requires FirstEligible(s.queue, w, Executing(s)) == |s.queue|
    ensures ShutdownOK(ScanQueue(s, w))
  {
    var t := ScanQueue(s, w);
    assert TouchesOwn(s, t, w);
    if SawStop(t) {
      var g :| Gone(t, g);
      assert Gone(s, g);
      forall n | n in t.hist.order ensures Covered(t, n) {
        NotMine(s, w, n);
        CoverKept(s, t, w, n);
      }
    }
  }

  lemma NotMine(s: World, w: int, n: nat)
    requires Inv(s) && OrderOK(s) && n in s.hist.order && FirstEligible(s.queue, w, Executing(s)) == |s.queue|
    ensures !OwnWork(s, n, w)
  {
    var i :| 0 <= i < |s.hist.order| && s.hist.order[i] == n;
    assert !Eligible(s.queue[i], w, Executing(s));
    if s.queue[i].FiberTask? { assert QueuedAt(s, i, s.queue[i].fiber); }
  }

  lemma ExitShutdown(s: World, w: int)
    requires Inv(s) && Protocol(s) && ShutdownOK(s) && Exits(s, IdleOrExit(w))
    ensures ShutdownOK(EnterIdleOrExit(s, w))
  {
    var t := EnterIdleOrExit(s, w);
    assert Gone(s, w);
    forall n | n in t.hist.order ensures Covered(t, n) {
      assert Covered(s, n);
      if n !in s.hist.strays {
        var v :| Covers(s, v, s.hist.pushed[n]);
        assert v != w && t.workers[v] == s.workers[v];
        assert Covers(t, v, t.hist.pushed[n]);
      }
    }
  }

  // ---------------------------------------------------------------- every step

  ghost predicate IdleStops(s: World, st: Step) {
    st.IdleCheck? && StopCondition(s)
  }

  ghost predicate EmptyScan(s: World, st: Step) {
    st.Scan? && FirstEligible(s.queue, st.w, Executing(s)) == |s.queue|
  }

  /** What MoveShutdown asks of a step. */
  ghost predicate Tame(s: World, t: World, w: int) {
    && w in t.workers && t.workers[w].pc != ScannedEmpty && (IdleDone(t, w) ==> IdleDone(s, w))
    && t.hist.strays == s.hist.strays && s.hist.pushed <= t.hist.pushed
    && forall n :: n in t.hist.order ==> n in s.hist.order || OwnWork(t, n, w)
  }

  lemma StackTame(s: World, w: int)
    requires w in s.workers && WorkerOK(s, s.workers[w]) && s.workers[w].pc.InFiber?
    ensures Tame(s, Enter(s, w), w)
    ensures InTask(s, w) ==> Tame(s, BeginYield(s, w, READY), w) && Tame(s, BeginYield(s, w, HOLD), w)
    ensures InUserTask(s, w) ==> Tame(s, BeginFinish(s, w, true), w) && Tame(s, BeginFinish(s, w, false), w)
    ensures s.workers[w].pc.phase.Leaving? && s.workers[w].pc.phase.cur in s.fibers ==> Tame(s, Leave(s, w), w)
  {}

  lemma FiberTame(s: World, st: Step)
    requires ActorOK(s, st) && Enabled(s, st) && !IdleStops(s, st)
    requires st.EnterFiber? || st.Yield? || st.Finish? || st.IdleCheck? || st.SwapOut?
    ensures Tame(s, Apply(s, st), Actor(st))
  {
    StackTame(s, Actor(st));
  }

  lemma ClaimTame(s: World, w: int)
    requires OrderOK(s) && AtPc(s, w, Head) && WorkerOK(s, s.workers[w])
    requires FirstEligible(s.queue, w, Executing(s)) < |s.queue|
    ensures Tame(s, ScanQueue(s, w), w)
  {
    ScanOrder(s, w);
  }

  lemma LoopTame(s: World, st: Step)
    requires ActorOK(s, st) && OrderOK(s) && Enabled(s, st) && !EmptyScan(s, st)
    requires st.BootWorker? || st.Scan? || st.Release?
    ensures Tame(s, Apply(s, st), Actor(st))
  {
    if st.Scan? { ClaimTame(s, st.w); }
  }

  lemma SwitchTame(s: World, st: Step)
    requires ActorOK(s, st) && Enabled(s, st) && !Exits(s, st)
    requires st.Dispatch? || st.IdleOrExit?
    ensures Tame(s, Apply(s, st), Actor(st))
  {}

  lemma ClassifyTame(s: World, st: Step)
    requires ActorOK(s, st) && Enabled(s, st)
    requires st.Classify? || st.DropStale?
    ensures Tame(s, Apply(s, st), Actor(st))
  {}

  lemma ActorShutdown(s: World, st: Step)
    requires Inv(s) && Protocol(s) && OrderOK(s) && ShutdownOK(s) && Enabled(s, st) && !IsClient(st) && !IsStop(st)
    ensures ShutdownOK(Apply(s, st))
  {
    if IdleStops(s, st) {
      ActorKeepsOrder(s, st);
      assert s.hist.order == [];
    } else if EmptyScan(s, st) {
      EmptyScanShutdown(s, st.w);
    } else if Exits(s, st) {
      ExitShutdown(s, st.w);
    } else {
      ActorIsOK(s, st);
      ActorShape(s, st);
      if st.BootWorker? || st.Scan? || st.Release? { LoopTame(s, st); LoopTouches(s, st); }
      else if st.Dispatch? || st.IdleOrExit? { SwitchTame(s, st); SwitchTouches(s, st); }
      else if st.Classify? || st.DropStale? { ClassifyTame(s, st); ClassifyTouches(s, st); }
      else { FiberTame(s, st); FiberTouches(s, st); }
      MoveShutdown(s, Apply(s, st), Actor(st));
    }
  }

  /** A client or a task adds work; only a task's own unpinned or self-pinned work is not stray. */
  lemma ClientShutdown(s: World, st: Step)
    requires Inv(s) && OrderOK(s) && ShutdownOK(s) && Enabled(s, st) && IsClient(st)
    ensures ShutdownOK(Apply(s, st))
  {
    var t := Apply(s, st);
    ClientShape(s, st);
    forall v ensures IdleDone(t, v) == IdleDone(s, v) { ClientKeepsIdle(s, st, v); }
    if SawStop(t) {
      var g :| Gone(t, g);
      assert Gone(s, g);
      forall n | n in t.hist.order ensures Covered(t, n) {
        if n in s.hist.order {
          if n !in s.hist.strays {
            var v :| Covers(s, v, s.hist.pushed[n]);
            assert Covers(t, v, t.hist.pushed[n]);
          }
        } else if st.TaskSubmit? && PinAllows(st.pin, st.w) {
          assert Covers(t, st.w, t.hist.pushed[n]);
        }
      }
    }
  }

  lemma ClientKeepsIdle(s: World, st: Step, v: int)
    requires Inv(s) && Enabled(s, st) && IsClient(st)
    ensures IdleDone(Apply(s, st), v) == IdleDone(s, v)
  {
    if v in s.workers {
      assert WorkerOK(s, s.workers[v]);
      if st.ResetFiber? { Unheld(s, st.id); }
      if s.workers[v].idle.Some? { assert HoldsAt(s, v, s.workers[v].idle.value); }
    }
  }

  lemma StopShutdown(s: World, st: Step)
    requires Inv(s) && Protocol(s) && OrderOK(s) && ShutdownOK(s) && Enabled(s, st) && IsStop(st)
    ensures ShutdownOK(Apply(s, st))
  {
    StopShape(s, st);
    StopProtocol(s, st);
    StopCovers(s, Apply(s, st));
  }

  lemma StopCovers(s: World, t: World)
    requires Protocol(s) && Protocol(t) && OrderOK(s) && ShutdownOK(s) && StopOnly(s, t) && (s.ctl.autoStop ==> t.ctl.autoStop)
    ensures ShutdownOK(t)
  {
    if g :| Gone(t, g) {
      assert t.workers[g].pc != Skipped || t.workers[g] == s.workers[g] ==> Gone(s, g);
      assert s.ctl.autoStop && t.ctl.autoStop;
    }
    if t.queue != [] && SawStop(t) {
      var g :| Gone(t, g);
      assert Gone(s, g);
      forall n | n in t.hist.order ensures Covered(t, n) {
        if n !in s.hist.strays {
          var v :| Covers(s, v, s.hist.pushed[n]);
          assert Covers(t, v, t.hist.pushed[n]);
        }
      }
    }
  }

  lemma StepShutdown(s: World, st: Step)
    requires Inv(s) && Protocol(s) && OrderOK(s) && ShutdownOK(s) && Enabled(s, st)
    ensures ShutdownOK(Apply(s, st))
  {
    if IsClient(st) { ClientShutdown(s, st); }
    else if IsStop(st) { StopShutdown(s, st); }
    else { ActorShutdown(s, st); }
  }
}
