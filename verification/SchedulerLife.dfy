/** The life cycle of fibers, and that no worker is ever stuck. */
module SchedulerLife {
  import opened Tasks
  import opened SchedulerModel
  import opened SchedulerInvariant
  import opened SchedulerSteps
  import opened SchedulerTheorems

  // ---------------------------------------------------------------- the life cycle of a fiber

  /** The state changes a single step may make: a READY or suspended fiber is resumed and nothing
      else, an executing one stops for one of the four reasons, a finished one may be recycled. */
  predicate Legal(before: FiberState, after: FiberState) {
    || before == after
    || (after == EXEC && !Finished(before))
    || (before == EXEC && after != INIT)
    || (Finished(before) && after == INIT)
  }

  /** What makes the code of an executing fiber stop in state `after`. */
  ghost predicate StopsBy(s: World, st: Step, after: FiberState) {
    match st
    case Yield(_, ready) => after == if ready then READY else HOLD
    case Finish(_, threw) => after == if threw then EXCEPT else TERM
    case IdleCheck(_) => after == if StopCondition(s) then TERM else HOLD
    case _ => false
  }

  /** Fiber `f` takes part in step `st` as it should. */
  ghost predicate LivesOn(s: World, st: Step, f: nat)
    requires Enabled(s, st) && f in s.fibers
  {
    var t := Apply(s, st);
    && f in t.fibers && Legal(s.fibers[f].state, t.fibers[f].state)
    && (s.fibers[f].state == EXEC && t.fibers[f].state != EXEC ==>
          OnThreadOf(s, Actor(st), f) && StopsBy(s, st, t.fibers[f].state)
          && t.fibers[f].fn == if t.fibers[f].state == TERM then NoFn else s.fibers[f].fn)
    && (Finished(s.fibers[f].state) && t.fibers[f].state == INIT ==>
          t.fibers[f].ctx == Entry && t.fibers[f].fn == if st.ResetFiber? then UserFn else NoFn)
    && (s.fibers[f].state != EXEC && t.fibers[f].state == EXEC ==>
          OnThreadOf(t, Actor(st), f) && HoldsAt(t, Actor(st), f) && t.workers[Actor(st)].current == CoFiber(f))
  }

  lemma ClientLives(s: World, st: Step, f: nat)
    requires Enabled(s, st) && IsClient(st) && f in s.fibers
    ensures LivesOn(s, st, f)
  {}

  lemma RunningLives(s: World, st: Step, f: nat)
    requires ActorOK(s, st) && Enabled(s, st) && (st.EnterFiber? || st.Yield? || st.Finish?) && f in s.fibers
    ensures LivesOn(s, st, f)
  {}

  lemma LeavingLives(s: World, st: Step, f: nat)
    requires ActorOK(s, st) && Enabled(s, st) && (st.IdleCheck? || st.SwapOut?) && f in s.fibers
    ensures LivesOn(s, st, f)
  {}

  lemma LoopLives(s: World, st: Step, f: nat)
    requires ActorOK(s, st) && Enabled(s, st) && (st.BootWorker? || st.Scan? || st.Release? || st.DropStale?) && f in s.fibers
    ensures LivesOn(s, st, f)
  {}

  lemma ReturnLives(s: World, st: Step, f: nat)
    requires ActorOK(s, st) && Enabled(s, st) && st.Classify? && f in s.fibers
    ensures LivesOn(s, st, f)
  {}

  lemma DispatchLives(s: World, st: Step, f: nat)
    requires ActorOK(s, st) && Enabled(s, st) && st.Dispatch? && f in s.fibers
    ensures LivesOn(s, st, f)
  {
    if s.workers[st.w].ft.value.FiberTask? { ClaimLives(s, st, f); } else { CallbackLives(s, st, f); }
  }

  lemma ClaimLives(s: World, st: Step, f: nat)
    requires ActorOK(s, st) && Enabled(s, st) && st.Dispatch? && f in s.fibers && s.workers[st.w].ft.value.FiberTask?
    ensures LivesOn(s, st, f)
  {}

  lemma CallbackLives(s: World, st: Step, f: nat)
    requires ActorOK(s, st) && Enabled(s, st) && st.Dispatch? && f in s.fibers && s.workers[st.w].ft.value.CallbackTask?
    ensures LivesOn(s, st, f)
  {}

  lemma IdleLives(s: World, st: Step, f: nat)
    requires ActorOK(s, st) && Enabled(s, st) && st.IdleOrExit? && f in s.fibers
    ensures LivesOn(s, st, f)
  {}

  /** In every reachable state every step keeps every fiber to its life cycle. A READY fiber stays
      READY until a worker that holds it resumes it; an executing fiber changes only by its own
      code, to the state that code asked for. */
  lemma LifeCycle(s: World, c: Config, st: Step, f: nat)
    requires Reachable(s, c) && Enabled(s, st) && f in s.fibers
    ensures LivesOn(s, st, f)
  {
    if IsClient(st) {
      ClientLives(s, st, f);
    } else if IsStop(st) {
      StopLives(s, st, f);
    } else {
      ReachableActor(s, c, st);
      ActorLives(s, st, f);
    }
  }

  lemma StopLives(s: World, st: Step, f: nat)
    requires Enabled(s, st) && IsStop(st) && f in s.fibers
    ensures LivesOn(s, st, f)
  {}

  lemma ActorLives(s: World, st: Step, f: nat)
    requires ActorOK(s, st) && Enabled(s, st) && !IsClient(st) && !IsStop(st) && f in s.fibers
    ensures LivesOn(s, st, f)
  {
    if st.EnterFiber? || st.Yield? || st.Finish? { RunningLives(s, st, f); }
    else if st.IdleCheck? || st.SwapOut? { LeavingLives(s, st, f); }
    else if st.Dispatch? { DispatchLives(s, st, f); }
    else if st.IdleOrExit? { IdleLives(s, st, f); }
    else if st.Classify? { ReturnLives(s, st, f); }
    else { LoopLives(s, st, f); }
  }

  // ---------------------------------------------------------------- progress

  lemma {:induction false} Unused(ids: set<nat>) returns (id: nat)
    ensures forall i :: i in ids ==> i < id
    decreases |ids|
  {
    if i :| i in ids {
      var j := Unused(ids - {i});
      assert forall k :: k in ids ==> k == i || k in ids - {i};
      id := if i < j then j else i + 1;
    } else {
      id := 0;
    }
  }

  /** The next step of a live worker, as its position determines it. */
  function NextStep(s: World, w: int, spare: nat): Step
    requires w in s.workers
  {
    match s.workers[w].pc
    case Boot => BootWorker(w, spare)
    case Head => Scan(w)
    case Claimed => Dispatch(w, spare)
    case InFiber(e, phase) =>
      if phase == Entering then EnterFiber(w)
      else if phase.Leaving? then SwapOut(w)
      else if e in s.fibers && s.fibers[e].fn == IdleFn then IdleCheck(w)
      else Finish(w, false)
    case Back(_) => Release(w)
    case Released(_) => Classify(w)
    case Requeued(_) => DropStale(w)
    case _ => IdleOrExit(w)
  }

  lemma NextOfLoop(s: World, w: int, spare: nat)
    requires w in s.workers && Live(s.workers[w].pc) && !s.workers[w].pc.InFiber?
    requires WorkerOK(s, s.workers[w]) && spare !in s.fibers
    ensures Enabled(s, NextStep(s, w, spare))
  {}

  lemma NextOfFiber(s: World, w: int, spare: nat)
    requires w in s.workers && s.workers[w].pc.InFiber? && WorkerOK(s, s.workers[w])
    ensures Enabled(s, NextStep(s, w, spare))
  {}

  lemma ReachableWorker(s: World, c: Config, w: int)
    requires Reachable(s, c) && w in s.workers
    ensures WorkerOK(s, s.workers[w])
  {
    ReachableFull(s, c);
  }

  /** No worker is ever stuck: in every reachable state a worker that is still in `run` can take its
      next step. So whatever a step of the model asks for (a fiber that exists, a context to return
      to) is always there. */
  lemma NeverStuck(s: World, c: Config, w: int)
    requires Reachable(s, c) && w in s.workers && Live(s.workers[w].pc)
    ensures exists spare: nat :: Enabled(s, NextStep(s, w, spare))
  {
    ReachableWorker(s, c, w);
    var spare := Unused(s.fibers.Keys);
    if s.workers[w].pc.InFiber? { NextOfFiber(s, w, spare); } else { NextOfLoop(s, w, spare); }
  }
}
