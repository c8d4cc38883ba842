/** What holds in every state of every run of the N-worker scheduler. */
module SchedulerTheorems {
  import opened SchedulerModel
  import opened SchedulerInvariant
  import opened SchedulerSteps
  import opened SchedulerCounters
  import opened SchedulerShutdown
  import opened SchedulerHistory

  /** The worker on whose thread a fiber runs is the one that resumed it last, at the call site its
      scheduler fiber remembers. */
  ghost predicate ResumedOK(s: World) {
    forall w, f: nat :: OnThreadOf(s, w, f) ==>
      MainCtx(s.workers[w]).Loop? && f in s.hist.resumed && s.hist.resumed[f] == (w, MainCtx(s.workers[w]).site)
  }

  ghost predicate ConfigOK(s: World, c: Config) {
    ValidConfig(c) && s.workers.Keys == WorkerIds(c) && s.ctl.root == c.root
  }

  /** A scheduler none of whose workers ever started has claimed nothing. */
  ghost predicate UntouchedOK(s: World) {
    (forall w :: w in s.workers ==> !Live(s.workers[w].pc) && s.workers[w].pc != Exited) ==> s.hist.claims == []
  }

  ghost predicate FullInv(s: World) {
    Inv(s) && Protocol(s) && CountersOK(s) && OrderOK(s) && ShutdownOK(s) && HistoryOK(s) && ResumedOK(s) && UntouchedOK(s)
  }

  lemma InitFull(c: Config)
    requires ValidConfig(c)
    ensures FullInv(Init(c)) && ConfigOK(Init(c), c)
  {
    InitInv(c);
    InitProtocol(c);
    InitHistory(c);
    InitCounters(c);
    InitShutdown(c);
  }

  lemma InitCounters(c: Config)
    requires ValidConfig(c)
    ensures CountersOK(Init(c))
  {
    assert forall w :: w in Init(c).workers ==> !Busy(Init(c).workers[w]) && !Idling(Init(c).workers[w]);
    assert Chosen(Init(c), Busy) == {} && Chosen(Init(c), Idling) == {};
  }

  lemma InitShutdown(c: Config)
    requires ValidConfig(c)
    ensures ShutdownOK(Init(c)) && OrderOK(Init(c)) && ResumedOK(Init(c)) && UntouchedOK(Init(c))
  {}

  /** Only a switch into a fiber changes who resumed it, and the switching worker is on it then. */
  ghost predicate ResumesOwn(s: World, t: World, w: int) {
    && (forall f: nat :: f in s.hist.resumed && f in s.fibers && !HoldsAt(s, w, f) ==>
          f in t.hist.resumed && t.hist.resumed[f] == s.hist.resumed[f])
    && (forall f: nat :: OnThreadOf(t, w, f) ==>
          MainCtx(t.workers[w]).Loop? && f in t.hist.resumed && t.hist.resumed[f] == (w, MainCtx(t.workers[w]).site))
  }

  lemma RunningResumes(s: World, st: Step)
    requires ActorOK(s, st) && ResumedOK(s) && Enabled(s, st)
    requires st.EnterFiber? || st.Yield? || st.Finish?
    ensures ResumesOwn(s, Apply(s, st), Actor(st))
  {
    assert OnThreadOf(s, Actor(st), s.workers[Actor(st)].pc.exec);
  }

  lemma IdleCheckResumes(s: World, st: Step)
    requires ActorOK(s, st) && ResumedOK(s) && Enabled(s, st) && st.IdleCheck?
    ensures ResumesOwn(s, Apply(s, st), Actor(st))
  {
    assert OnThreadOf(s, Actor(st), s.workers[Actor(st)].pc.exec);
  }

  lemma SwapOutResumes(s: World, st: Step)
    requires ActorOK(s, st) && ResumedOK(s) && Enabled(s, st) && st.SwapOut?
    ensures ResumesOwn(s, Apply(s, st), Actor(st))
  {
    assert OnThreadOf(s, Actor(st), s.workers[Actor(st)].pc.exec);
  }

  lemma LoopResumes(s: World, st: Step)
    requires Enabled(s, st)
    requires st.BootWorker? || st.Scan? || st.Release? || st.DropStale? || st.Classify?
    ensures ResumesOwn(s, Apply(s, st), Actor(st))
  {}

  lemma DispatchResumes(s: World, st: Step)
    requires ActorOK(s, st) && Enabled(s, st) && st.Dispatch?
    ensures ResumesOwn(s, Apply(s, st), st.w)
  {}

  lemma IdleResumes(s: World, st: Step)
    requires ActorOK(s, st) && Enabled(s, st) && st.IdleOrExit?
    ensures ResumesOwn(s, Apply(s, st), st.w)
  {}

  lemma ActorResumed(s: World, st: Step)
    requires Inv(s) && ResumedOK(s) && Enabled(s, st) && !IsClient(st) && !IsStop(st)
    ensures ResumesOwn(s, Apply(s, st), Actor(st))
  {
    ActorIsOK(s, st);
    if st.Dispatch? { DispatchResumes(s, st); }
    else if st.IdleOrExit? { IdleResumes(s, st); }
    else if st.EnterFiber? || st.Yield? || st.Finish? { RunningResumes(s, st); }
    else if st.IdleCheck? { IdleCheckResumes(s, st); }
    else if st.SwapOut? { SwapOutResumes(s, st); }
    else { LoopResumes(s, st); }
  }

  /** A worker step leaves the other workers as they are. */
  lemma OthersStay(s: World, st: Step)
    requires Inv(s) && Enabled(s, st) && !IsClient(st) && !IsStop(st)
    ensures Actor(st) in s.workers && Apply(s, st).workers.Keys == s.workers.Keys
    ensures forall v :: v in s.workers && v != Actor(st) ==> Apply(s, st).workers[v] == s.workers[v]
    ensures Live(Apply(s, st).workers[Actor(st)].pc) || Apply(s, st).workers[Actor(st)].pc == Exited
    ensures Apply(s, st).ctl.root == s.ctl.root
  {
    ActorLive(s, st);
    if Exits(s, st) { ExitWorker(s, st.w); } else { ActorShape(s, st); }
  }

  lemma OthersResumed(s: World, t: World, w: int)
    requires Core(s) && ResumedOK(s)
    requires forall v :: v in t.workers && v != w ==> v in s.workers && t.workers[v] == s.workers[v]
    requires ResumesOwn(s, t, w)
    ensures ResumedOK(t)
  {
    forall v, f: nat | OnThreadOf(t, v, f) && v != w
      ensures MainCtx(t.workers[v]).Loop? && f in t.hist.resumed && t.hist.resumed[f] == (v, MainCtx(t.workers[v]).site)
    {
      assert OnThreadOf(s, v, f);
      RunnerHolds(s, v, f);
      HeldExists(s, v, f);
    }
  }

  lemma SameResumed(s: World, t: World)
    requires ResumedOK(s) && t.hist.resumed == s.hist.resumed
    requires forall w, f: nat :: OnThreadOf(t, w, f) ==> OnThreadOf(s, w, f) && t.workers[w] == s.workers[w]
    ensures ResumedOK(t)
  {}

  lemma ClientResumed(s: World, st: Step)
    requires Enabled(s, st) && IsClient(st)
    ensures Apply(s, st).hist.resumed == s.hist.resumed && Apply(s, st).hist.claims == s.hist.claims
  {}

  lemma ClientKeepsResumed(s: World, st: Step)
    requires Inv(s) && ResumedOK(s) && Enabled(s, st) && IsClient(st)
    ensures ResumedOK(Apply(s, st))
  {
    ClientShape(s, st);
    ClientResumed(s, st);
    SameResumed(s, Apply(s, st));
  }

  lemma StopKeepsResumed(s: World, st: Step)
    requires Inv(s) && Protocol(s) && ResumedOK(s) && Enabled(s, st) && IsStop(st)
    ensures ResumedOK(Apply(s, st))
  {
    StopShape(s, st);
    SameResumed(s, Apply(s, st));
  }

  lemma StepResumed(s: World, st: Step)
    requires Inv(s) && Protocol(s) && ResumedOK(s) && Enabled(s, st)
    ensures ResumedOK(Apply(s, st))
  {
    if IsClient(st) {
      ClientKeepsResumed(s, st);
    } else if IsStop(st) {
      StopKeepsResumed(s, st);
    } else {
      ActorResumed(s, st);
      OthersStay(s, st);
      OthersResumed(s, Apply(s, st), Actor(st));
    }
  }

  lemma MoveUntouched(s: World, t: World, w: int)
    requires w in s.workers && w in t.workers && (Live(t.workers[w].pc) || t.workers[w].pc == Exited)
    ensures UntouchedOK(t)
  {}

  lemma StepUntouched(s: World, st: Step)
    requires Inv(s) && Protocol(s) && UntouchedOK(s) && Enabled(s, st)
    ensures UntouchedOK(Apply(s, st))
  {
    if IsClient(st) {
      ClientShape(s, st);
      ClientResumed(s, st);
    } else if IsStop(st) {
      StopShape(s, st);
    } else {
      OthersStay(s, st);
      MoveUntouched(s, Apply(s, st), Actor(st));
    }
  }

  lemma StepConfig(s: World, st: Step, c: Config)
    requires Inv(s) && Protocol(s) && ConfigOK(s, c) && Enabled(s, st)
    ensures ConfigOK(Apply(s, st), c)
  {
    if IsClient(st) { ClientShape(s, st); }
    else if IsStop(st) { StopShape(s, st); }
    else { OthersStay(s, st); }
  }

  lemma StepFull(s: World, st: Step)
    requires FullInv(s) && Enabled(s, st)
    ensures FullInv(Apply(s, st))
  {
    StepInv(s, st);
    StepProtocol(s, st);
    StepCounters(s, st);
    StepOrder(s, st);
    StepShutdown(s, st);
    StepHistory(s, st);
    StepResumed(s, st);
    StepUntouched(s, st);
  }

  /** Every state of every run satisfies the whole invariant. */
  lemma {:induction false} RunFull(s: World, steps: seq<Step>, c: Config)
    requires FullInv(s) && ConfigOK(s, c) && ValidRun(s, steps)
    ensures FullInv(Run(s, steps)) && ConfigOK(Run(s, steps), c)
    decreases |steps|
  {
    if steps != [] {
      StepFull(s, steps[0]);
      StepConfig(s, steps[0], c);
      RunFull(Apply(s, steps[0]), steps[1..], c);
    }
  }

  ghost predicate Reachable(s: World, c: Config) {
    ValidConfig(c) && exists steps :: ValidRun(Init(c), steps) && s == Run(Init(c), steps)
  }

  lemma ReachableFull(s: World, c: Config)
    requires Reachable(s, c)
    ensures FullInv(s) && ConfigOK(s, c)
  {
    var steps :| ValidRun(Init(c), steps) && s == Run(Init(c), steps);
    InitFull(c);
    RunFull(Init(c), steps, c);
  }

  lemma {:induction false} RunSnoc(s: World, steps: seq<Step>, st: Step)
    requires ValidRun(s, steps) && Enabled(Run(s, steps), st)
    ensures ValidRun(s, steps + [st]) && Run(s, steps + [st]) == Apply(Run(s, steps), st)
    decreases |steps|
  {
    if steps == [] {
      assert steps + [st] == [st] && [st][1..] == [];
    } else {
      assert (steps + [st])[1..] == steps[1..] + [st];
      RunSnoc(Apply(s, steps[0]), steps[1..], st);
    }
  }

  lemma ReachableStep(s: World, c: Config, st: Step)
    requires Reachable(s, c) && Enabled(s, st)
    ensures Reachable(Apply(s, st), c)
  {
    var steps :| ValidRun(Init(c), steps) && s == Run(Init(c), steps);
    RunSnoc(Init(c), steps, st);
  }

  /** In a reachable state, what a worker step finds in its worker's hands. */
  lemma ReachableActor(s: World, c: Config, st: Step)
    requires Reachable(s, c) && Enabled(s, st) && !IsClient(st) && !IsStop(st)
    ensures ActorOK(s, st)
  {
    ReachableFull(s, c);
    ActorIsOK(s, st);
  }
}
