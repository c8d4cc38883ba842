/** Control transfer: `swapIn` and `swapOut`, `call` and `back` lead to the right places, and nest. */
module SchedulerTransfer {
  import opened Wrappers
  import opened Tasks
  import opened SchedulerModel
  import opened SchedulerInvariant
  import opened SchedulerSteps
  import opened SchedulerTheorems

  // ---------------------------------------------------------------- swapIn and swapOut

  /** A yield or finish gives control to the loop of the worker that resumed the fiber last, at the
      very call that resumed it, even if the fiber ran elsewhere before; the worker then holds that
      same fiber, `t_fiber` denotes its scheduler fiber, and nobody else is affected. */
  lemma ReturnsToResumer(s: World, c: Config, w: int)
    requires Reachable(s, c) && Enabled(s, SwapOut(w))
    ensures var e := s.workers[w].pc.exec; var t := Apply(s, SwapOut(w));
      && e in s.hist.resumed && s.hist.resumed[e].0 == w
      && t.workers[w].pc == Back(s.hist.resumed[e].1)
      && SiteFiberOf(t.workers[w], s.hist.resumed[e].1) == Some(e)
      && AtMain(t.workers[w])
      && e in s.fibers
      && t.fibers == s.fibers[e := s.fibers[e].(ctx := if s.workers[w].pc.phase.last then Spent(e) else Suspended(e))]
      && (forall v :: v in s.workers && v != w ==> t.workers[v] == s.workers[v])
  {
    LeaveReturns(s, c, w);
  }

  lemma LeaveReturns(s: World, c: Config, w: int)
    requires Reachable(s, c) && Enabled(s, SwapOut(w))
    ensures var e := s.workers[w].pc.exec; var t := Leave(s, w);
      && e in s.fibers && e in s.hist.resumed && s.hist.resumed[e].0 == w
      && t.workers[w].pc == Back(s.hist.resumed[e].1)
      && SiteFiberOf(t.workers[w], s.hist.resumed[e].1) == Some(e)
      && AtMain(t.workers[w])
      && t.fibers == s.fibers[e := s.fibers[e].(ctx := if s.workers[w].pc.phase.last then Spent(e) else Suspended(e))]
  {
    ResumedBy(s, c, w);
    OwnStack(s, c, w);
    LeaveShape(s, w);
  }

  lemma ResumedBy(s: World, c: Config, w: int)
    requires Reachable(s, c) && w in s.workers && s.workers[w].pc.InFiber?
    ensures MainCtx(s.workers[w]).Loop? && s.workers[w].pc.exec in s.hist.resumed
    ensures s.hist.resumed[s.workers[w].pc.exec] == (w, MainCtx(s.workers[w]).site)
  {
    ReachableFull(s, c);
    assert OnThreadOf(s, w, s.workers[w].pc.exec);
  }

  lemma OwnStack(s: World, c: Config, w: int)
    requires Reachable(s, c) && w in s.workers && s.workers[w].pc.InFiber?
    ensures WorkerOK(s, s.workers[w])
  {
    ReachableFull(s, c);
  }

  lemma LeaveShape(s: World, w: int)
    requires Enabled(s, SwapOut(w)) && WorkerOK(s, s.workers[w])
    ensures var e := s.workers[w].pc.exec; var t := Leave(s, w); var site := MainCtx(s.workers[w]).site;
      && e in s.fibers && t.workers[w].pc == Back(site) && SiteFiberOf(t.workers[w], site) == Some(e)
      && AtMain(t.workers[w])
      && t.fibers == s.fibers[e := s.fibers[e].(ctx := if s.workers[w].pc.phase.last then Spent(e) else Suspended(e))]
  {}

  /** The fiber that a step of the loop switches to: a claimed one unless it has finished, the one
      bound to a claimed callback, or the idle fiber unless it has ended. */
  function Target(s: World, st: Step): Option<nat>
    requires Enabled(s, st) && (st.Dispatch? || st.IdleOrExit?)
  {
    var x := s.workers[st.w];
    if st.IdleOrExit? then
      if s.fibers[x.idle.value].state == TERM then None else x.idle
    else
      match x.ft.value
      case FiberTask(f, _) => if Finished(s.fibers[f].state) then None else Some(f)
      case CallbackTask(_, _) => if x.cbFiber.Some? then x.cbFiber else Some(st.id)
  }

  /** Switching to a fiber continues the code of that fiber and of no other, a callback's at its entry
      with the callback as its function; meanwhile the loop waits in the scheduler fiber. */
  lemma ResumesOwnCode(s: World, c: Config, st: Step)
    requires Reachable(s, c) && Enabled(s, st) && (st.Dispatch? || st.IdleOrExit?) && Target(s, st).Some?
    ensures var t := Apply(s, st); var f := Target(s, st).value; var y := t.workers[st.w];
      && y.pc == InFiber(f, Entering) && y.current == CoFiber(f) && MainCtx(y).Loop?
      && SiteFiberOf(y, MainCtx(y).site) == Some(f)
      && f in t.fibers && t.fibers[f].state == EXEC
      && (st.IdleOrExit? ==> t.fibers[f].fn == IdleFn)
      && (st.Dispatch? && s.workers[st.w].ft.value.CallbackTask? ==>
            t.fibers[f].ctx == Entry && t.fibers[f].fn == TaskFn(s.workers[st.w].ft.value.cb))
  {
    ReachableFull(s, c);
    if st.Dispatch? { DispatchResumesOwn(s, st); } else { IdleResumesOwn(s, st); }
  }

  lemma DispatchResumesOwn(s: World, st: Step)
    requires Inv(s) && Enabled(s, st) && st.Dispatch? && Target(s, st).Some?
    ensures var t := DispatchClaim(s, st.w, st.id); var f := Target(s, st).value; var y := t.workers[st.w];
      && y.pc == InFiber(f, Entering) && y.current == CoFiber(f) && MainCtx(y).Loop?
      && SiteFiberOf(y, MainCtx(y).site) == Some(f)
      && f in t.fibers && t.fibers[f].state == EXEC
      && (s.workers[st.w].ft.value.CallbackTask? ==>
            t.fibers[f].ctx == Entry && t.fibers[f].fn == TaskFn(s.workers[st.w].ft.value.cb))
  {
    assert WorkerOK(s, s.workers[st.w]);
  }

  lemma IdleResumesOwn(s: World, st: Step)
    requires Inv(s) && Enabled(s, st) && st.IdleOrExit? && Target(s, st).Some?
    ensures var t := EnterIdleOrExit(s, st.w); var f := Target(s, st).value; var y := t.workers[st.w];
      && y.pc == InFiber(f, Entering) && y.current == CoFiber(f) && MainCtx(y).Loop?
      && SiteFiberOf(y, MainCtx(y).site) == Some(f)
      && f in t.fibers && t.fibers[f].state == EXEC && t.fibers[f].fn == IdleFn
  {
    assert WorkerOK(s, s.workers[st.w]);
  }

  /** From `s` to `t`, the same fiber is on the thread of `w` and the same context is saved. */
  ghost predicate StaysInside(s: World, t: World, w: int) {
    && w in s.workers && w in t.workers && s.workers[w].pc.InFiber?
    && var x := s.workers[w]; var y := t.workers[w];
    y.pc.InFiber? && y.pc.exec == x.pc.exec && y.main == x.main && MainCtx(y) == MainCtx(x) && y.current == x.current
  }

  /** `swapIn` and `swapOut` alternate on every thread: while a fiber is on a thread, nothing but its
      `swapOut` takes it off, and the loop's context stays where `swapIn` put it. */
  lemma SwapsNest(s: World, c: Config, w: int, st: Step)
    requires Reachable(s, c) && Enabled(s, st) && w in s.workers && s.workers[w].pc.InFiber? && st != SwapOut(w)
    ensures StaysInside(s, Apply(s, st), w)
  {
    if IsClient(st) { ClientShape(s, st); }
    else if IsStop(st) { StopOutside(s, c, st, w); }
    else if Actor(st) != w { OthersSteps(s, c, st, w); }
    else { InsideStays(s, st, w); }
  }

  lemma StopOutside(s: World, c: Config, st: Step, w: int)
    requires Reachable(s, c) && Enabled(s, st) && IsStop(st) && w in s.workers && s.workers[w].pc.InFiber?
    ensures StaysInside(s, Apply(s, st), w)
  {
    ReachableFull(s, c);
    StopShape(s, st);
  }

  lemma InsideStays(s: World, st: Step, w: int)
    requires Enabled(s, st) && !IsClient(st) && !IsStop(st) && Actor(st) == w && !st.SwapOut?
    requires w in s.workers && s.workers[w].pc.InFiber?
    ensures StaysInside(s, Apply(s, st), w)
  {
    assert st.EnterFiber? || st.Yield? || st.Finish? || st.IdleCheck?;
  }

  // ---------------------------------------------------------------- call and back

  /** What is known of the caller's thread. */
  lemma CallerFacts(s: World, c: Config, w: int)
    requires Reachable(s, c) && s.ctl.root == Some(w)
    ensures w in s.workers && CallerThread(s, s.workers[w])
  {
    ReachableFull(s, c);
  }

  /** A step of another worker, seen from worker `w`. */
  lemma OthersSteps(s: World, c: Config, st: Step, w: int)
    requires Reachable(s, c) && Enabled(s, st) && !IsClient(st) && !IsStop(st) && Actor(st) != w && w in s.workers
    ensures w in Apply(s, st).workers && Apply(s, st).workers[w] == s.workers[w]
    ensures s.ctl.root == Some(w) ==> Apply(s, st).ctl == s.ctl
  {
    ReachableFull(s, c);
    OthersStay(s, st);
    if Exits(s, st) { PoolExit(s, st.w, w); } else { ActorShape(s, st); }
  }

  lemma PoolExit(s: World, v: int, w: int)
    requires Enabled(s, IdleOrExit(v)) && Exits(s, IdleOrExit(v)) && v != w
    ensures s.ctl.root == Some(w) ==> EnterIdleOrExit(s, v).ctl == s.ctl
  {}

  /** `call()` enters `run` at its beginning, on the root fiber, and leaves the rest of `stop()` in the
      thread's own fiber. */
  lemma CallEntersRun(s: World, c: Config, w: int)
    requires Reachable(s, c) && Enabled(s, StopDispatch) && s.ctl.root == Some(w) && !StopCondition(s)
    ensures w in s.workers && CtxIn(s.workers[w], RootFiber) == RunEntry && s.workers[w].main == RootFiber
    ensures var t := Apply(s, StopDispatch);
      && t.workers[w].pc == Boot && t.workers[w].current == RootFiber && t.ctl.rootState == EXEC
      && CtxIn(t.workers[w], ThreadFiber) == StopAt(Joining) && t.ctl.stopPc == InCall
      && (forall v :: v in s.workers && v != w ==> t.workers[v] == s.workers[v])
  {
    CallerFacts(s, c, w);
  }

  /** While the call is in progress no code of `stop()` runs and no step but the worker's exit touches
      the context that `call()` saved: whatever `swapIn` and `swapOut` do on that thread goes through
      the root fiber. */
  lemma CallStaysOpen(s: World, c: Config, w: int, st: Step)
    requires Reachable(s, c) && Enabled(s, st) && s.ctl.root == Some(w) && s.ctl.stopPc == InCall
    requires !(st == IdleOrExit(w) && Exits(s, st))
    ensures !IsStop(st) && CallOpen(s, Apply(s, st), w)
  {
    CallerFacts(s, c, w);
    NoStopCode(s, st);
    if IsClient(st) { ClientKeepsCall(s, st, w); }
    else if Actor(st) == w { CallerMoves(s, st, w); }
    else { OthersKeepCall(s, c, st, w); }
  }

  /** From `s` to `t`, the caller's worker is still in `run` and `stop()` is where it was. */
  ghost predicate CallOpen(s: World, t: World, w: int) {
    && t.ctl == s.ctl && w in s.workers && w in t.workers && Live(t.workers[w].pc)
    && CtxIn(t.workers[w], ThreadFiber) == CtxIn(s.workers[w], ThreadFiber)
  }

  lemma NoStopCode(s: World, st: Step)
    requires Enabled(s, st) && s.ctl.stopPc == InCall
    ensures !IsStop(st)
  {}

  lemma ClientKeepsCall(s: World, st: Step, w: int)
    requires Enabled(s, st) && IsClient(st) && w in s.workers && Live(s.workers[w].pc)
    ensures CallOpen(s, Apply(s, st), w)
  {
    ClientShape(s, st);
  }

  lemma OthersKeepCall(s: World, c: Config, st: Step, w: int)
    requires Reachable(s, c) && Enabled(s, st) && !IsClient(st) && !IsStop(st) && Actor(st) != w && s.ctl.root == Some(w)
    requires w in s.workers && Live(s.workers[w].pc)
    ensures CallOpen(s, Apply(s, st), w)
  {
    OthersSteps(s, c, st, w);
  }

  lemma CallerMoves(s: World, st: Step, w: int)
    requires Enabled(s, st) && !IsClient(st) && !IsStop(st) && Actor(st) == w && !Exits(s, st)
    requires w in s.workers && s.workers[w].main == RootFiber
    ensures CallOpen(s, Apply(s, st), w)
  {
    ActorShape(s, st);
    if st.BootWorker? { CallerBoots(s, w, st.id); } else { ActorThread(s, st); }
  }

  lemma CallerBoots(s: World, w: int, id: nat)
    requires Enabled(s, BootWorker(w, id)) && s.workers[w].main == RootFiber
    ensures Apply(s, BootWorker(w, id)).workers[w].threadCtx == s.workers[w].threadCtx
  {}

  /** The call as a whole: in every run from a state where it is in progress, either it still is and
      the saved context is untouched, or the caller's worker has left, its fiber has ended, and
      `stop()` has gone on from where it called. */
  lemma {:induction false} CallIsNested(s: World, c: Config, w: int, steps: seq<Step>)
    requires Reachable(s, c) && ValidRun(s, steps) && s.ctl.root == Some(w) && s.ctl.stopPc == InCall
    ensures var t := Run(s, steps);
      && w in s.workers && w in t.workers
      && ( || (t.ctl.stopPc == InCall && Live(t.workers[w].pc)
               && CtxIn(t.workers[w], ThreadFiber) == CtxIn(s.workers[w], ThreadFiber) == StopAt(Joining))
           || (t.ctl.stopPc in {Joining, Returned} && CallerReturned(t, w)))
    decreases |steps|
  {
    CallerFacts(s, c, w);
    if steps != [] {
      ReachableStep(s, c, steps[0]);
      if steps[0] == IdleOrExit(w) && Exits(s, steps[0]) {
        BackReturnsToStop(s, c, w);
        CallIsOver(Apply(s, steps[0]), c, w, steps[1..]);
      } else {
        CallStaysOpen(s, c, w, steps[0]);
        CallIsNested(Apply(s, steps[0]), c, w, steps[1..]);
      }
    }
  }

  /** The caller's worker has gone back: the root fiber has ended at the end of its function, and the
      thread is on its own fiber again. */
  ghost predicate CallerReturned(s: World, w: int) {
    && w in s.workers && s.workers[w].pc == Exited && s.ctl.rootState == TERM
    && CtxIn(s.workers[w], RootFiber) == RunOver && s.workers[w].current == ThreadFiber
  }

  /** After `back()` the root fiber is never continued. */
  lemma {:induction false} CallIsOver(s: World, c: Config, w: int, steps: seq<Step>)
    requires Reachable(s, c) && ValidRun(s, steps) && s.ctl.root == Some(w) && s.ctl.stopPc in {Joining, Returned}
    requires CallerReturned(s, w)
    ensures var t := Run(s, steps); t.ctl.stopPc in {Joining, Returned} && CallerReturned(t, w)
    decreases |steps|
  {
    if steps != [] {
      ReachableStep(s, c, steps[0]);
      CallerStaysLeft(s, c, steps[0], w);
      CallIsOver(Apply(s, steps[0]), c, w, steps[1..]);
    }
  }

  lemma CallerStaysLeft(s: World, c: Config, st: Step, w: int)
    requires Reachable(s, c) && Enabled(s, st) && s.ctl.root == Some(w) && s.ctl.stopPc in {Joining, Returned}
    requires CallerReturned(s, w)
    ensures var t := Apply(s, st); t.ctl.root == s.ctl.root && t.ctl.stopPc in {Joining, Returned} && CallerReturned(t, w)
  {
    if IsClient(st) { ClientShape(s, st); }
    else if IsStop(st) { JoinOnly(s, st); }
    else {
      NotByExited(s, c, st, w);
      OthersSteps(s, c, st, w);
    }
  }

  lemma JoinOnly(s: World, st: Step)
    requires Enabled(s, st) && IsStop(st) && s.ctl.stopPc in {Joining, Returned}
    ensures Apply(s, st).workers == s.workers && Apply(s, st).ctl.root == s.ctl.root
    ensures Apply(s, st).ctl.rootState == s.ctl.rootState && Apply(s, st).ctl.stopPc == Returned
  {}

  lemma NotByExited(s: World, c: Config, st: Step, w: int)
    requires Reachable(s, c) && Enabled(s, st) && !IsClient(st) && !IsStop(st) && w in s.workers && s.workers[w].pc == Exited
    ensures Actor(st) != w
  {
    ReachableFull(s, c);
    ActorLive(s, st);
  }

  /** `back()` at the end of the caller's worker continues what the thread's own fiber holds, and that
      is the rest of the `stop()` that called it. */
  lemma BackReturnsToStop(s: World, c: Config, w: int)
    requires Reachable(s, c) && Exits(s, IdleOrExit(w)) && s.ctl.root == Some(w)
    ensures s.ctl.stopPc == InCall && s.workers[w].callerRef == RootFiber
    ensures CtxIn(s.workers[w], ThreadFiber) == StopAt(Joining)
    ensures var t := Apply(s, IdleOrExit(w));
      && t.ctl.stopPc == Joining && t.ctl.root == s.ctl.root && CallerReturned(t, w)
      && (forall v :: v in s.workers && v != w ==> t.workers[v] == s.workers[v])
  {
    CallerFacts(s, c, w);
    ExitReturns(s, w);
    assert Apply(s, IdleOrExit(w)) == EnterIdleOrExit(s, w);
  }

  lemma ExitReturns(s: World, w: int)
    requires Exits(s, IdleOrExit(w)) && s.ctl.root == Some(w) && CallerThread(s, s.workers[w])
    ensures s.ctl.stopPc == InCall && s.workers[w].callerRef == RootFiber
    ensures CtxIn(s.workers[w], ThreadFiber) == StopAt(Joining)
    ensures var t := EnterIdleOrExit(s, w);
      && t.ctl.stopPc == Joining && t.ctl.root == s.ctl.root && CallerReturned(t, w)
      && (forall v :: v in s.workers && v != w ==> t.workers[v] == s.workers[v])
  {}
}
