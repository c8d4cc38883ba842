/** The active and idle counters are exact in every state of every run. */
module SchedulerCounters {
  import opened Tasks
  import opened SchedulerModel
  import opened SchedulerInvariant
  import opened SchedulerSteps

  /** Between the increment of the claim and its matching decrement. */
  predicate Busy(x: Worker) {
    match x.pc
    case Claimed => true
    case InFiber(_, _) => MainCtx(x) != Loop(SiteIdle)
    case Back(site) => site != SiteIdle
    case _ => false
  }

  predicate Idling(x: Worker) {
    match x.pc
    case InFiber(_, _) => MainCtx(x) == Loop(SiteIdle)
    case Back(site) => site == SiteIdle
    case _ => false
  }

  function Chosen(s: World, p: Worker -> bool): set<int> {
    set w | w in s.workers && p(s.workers[w])
  }

  ghost predicate CountersOK(s: World) {
    s.active == |Chosen(s, Busy)| && s.idleCount == |Chosen(s, Idling)|
  }

  function Bit(b: bool): int {
    if b then 1 else 0
  }

  /** The chosen workers other than `w`, and `w` when it is chosen. */
  lemma ChosenParts(s: World, w: int, p: Worker -> bool)
    requires w in s.workers
    ensures Chosen(s, p) == (Chosen(s, p) - {w}) + if p(s.workers[w]) then {w} else {}
    ensures w !in Chosen(s, p) - {w}
  {}

  lemma OthersChosen(s: World, t: World, w: int, p: Worker -> bool)
    requires w in s.workers && w in t.workers && t.workers == s.workers[w := t.workers[w]]
    ensures Chosen(t, p) - {w} == Chosen(s, p) - {w}
  {
    assert forall v :: v in Chosen(t, p) - {w} <==> v in Chosen(s, p) - {w};
  }

  lemma OneMore(a: set<int>, rest: set<int>, w: int, chosen: bool)
    requires a == rest + (if chosen then {w} else {}) && w !in rest
    ensures |a| == |rest| + Bit(chosen)
  {}

  lemma MoveChosen(s: World, t: World, w: int, p: Worker -> bool)
    requires w in s.workers && w in t.workers && t.workers == s.workers[w := t.workers[w]]
    ensures |Chosen(t, p)| - |Chosen(s, p)| == Bit(p(t.workers[w])) - Bit(p(s.workers[w]))
  {
    ChosenParts(s, w, p);
    ChosenParts(t, w, p);
    OthersChosen(s, t, w, p);
    OneMore(Chosen(s, p), Chosen(s, p) - {w}, w, p(s.workers[w]));
    OneMore(Chosen(t, p), Chosen(t, p) - {w}, w, p(t.workers[w]));
  }

  lemma SameChosen(s: World, t: World, p: Worker -> bool)
    requires t.workers.Keys == s.workers.Keys
    requires forall w :: w in s.workers ==> p(t.workers[w]) == p(s.workers[w])
    ensures Chosen(t, p) == Chosen(s, p)
  {
    assert forall w :: w in Chosen(t, p) <==> w in Chosen(s, p);
  }

  /** The change of each counter is the change of the moving worker's phase. */
  ghost predicate Tallied(s: World, t: World, w: int) {
    && w in s.workers && w in t.workers && t.workers == s.workers[w := t.workers[w]]
    && t.active - s.active == Bit(Busy(t.workers[w])) - Bit(Busy(s.workers[w]))
    && t.idleCount - s.idleCount == Bit(Idling(t.workers[w])) - Bit(Idling(s.workers[w]))
  }

  /** What the code on the thread of `w` does to the counters. */
  lemma TaskTally(s: World, w: int)
    requires InTask(s, w) && WorkerOK(s, s.workers[w])
    ensures Tallied(s, BeginYield(s, w, READY), w) && Tallied(s, BeginYield(s, w, HOLD), w)
    ensures Tallied(s, BeginFinish(s, w, true), w) && Tallied(s, BeginFinish(s, w, false), w)
  {}

  lemma EdgeTally(s: World, w: int)
    requires w in s.workers && WorkerOK(s, s.workers[w]) && s.workers[w].pc.InFiber?
    ensures Tallied(s, Enter(s, w), w)
    ensures s.workers[w].pc.phase.Leaving? && s.workers[w].pc.phase.cur in s.fibers ==> Tallied(s, Leave(s, w), w)
  {}

  lemma RunningTally(s: World, st: Step)
    requires ActorOK(s, st) && Enabled(s, st) && (st.Yield? || st.Finish? || st.IdleCheck?)
    ensures Tallied(s, Apply(s, st), Actor(st))
  {
    TaskTally(s, Actor(st));
  }

  lemma SwitchingTally(s: World, st: Step)
    requires ActorOK(s, st) && Enabled(s, st) && (st.EnterFiber? || st.SwapOut?)
    ensures Tallied(s, Apply(s, st), Actor(st))
  {
    EdgeTally(s, Actor(st));
  }

  lemma SwitchTally(s: World, st: Step)
    requires ActorOK(s, st) && Enabled(s, st)
    requires st.BootWorker? || st.IdleOrExit?
    ensures Tallied(s, Apply(s, st), Actor(st))
  {}

  lemma DispatchTally(s: World, st: Step)
    requires ActorOK(s, st) && Enabled(s, st) && st.Dispatch?
    ensures Tallied(s, Apply(s, st), Actor(st))
  {}

  lemma ClaimTally(s: World, st: Step)
    requires ActorOK(s, st) && Enabled(s, st)
    requires st.Scan? || st.Release?
    ensures Tallied(s, Apply(s, st), Actor(st))
  {}

  lemma ReturnTally(s: World, st: Step)
    requires ActorOK(s, st) && Enabled(s, st)
    requires st.Classify? || st.DropStale?
    ensures Tallied(s, Apply(s, st), Actor(st))
  {}

  ghost predicate SamePhases(s: World, t: World) {
    && t.active == s.active && t.idleCount == s.idleCount && t.workers.Keys == s.workers.Keys
    && forall w :: w in s.workers ==>
         Busy(t.workers[w]) == Busy(s.workers[w]) && Idling(t.workers[w]) == Idling(s.workers[w])
  }

  lemma ClientTally(s: World, st: Step)
    requires Enabled(s, st) && IsClient(st)
    ensures SamePhases(s, Apply(s, st))
  {}

  lemma StopTally(s: World, st: Step)
    requires Protocol(s) && Enabled(s, st) && IsStop(st)
    ensures SamePhases(s, Apply(s, st))
  {
    StopShape(s, st);
  }

  lemma ActorTally(s: World, st: Step)
    requires Inv(s) && Enabled(s, st) && !IsClient(st) && !IsStop(st)
    ensures Tallied(s, Apply(s, st), Actor(st))
  {
    ActorIsOK(s, st);
    if st.EnterFiber? || st.SwapOut? { SwitchingTally(s, st); }
    else if st.Yield? || st.Finish? || st.IdleCheck? { RunningTally(s, st); }
    else if st.BootWorker? || st.IdleOrExit? { SwitchTally(s, st); }
    else if st.Dispatch? { DispatchTally(s, st); }
    else if st.Scan? || st.Release? { ClaimTally(s, st); }
    else { ReturnTally(s, st); }
  }

  lemma PhasesKeep(s: World, t: World)
    requires CountersOK(s) && SamePhases(s, t)
    ensures CountersOK(t)
  {
    SameChosen(s, t, Busy);
    SameChosen(s, t, Idling);
  }

  lemma TallyKeeps(s: World, t: World, w: int)
    requires CountersOK(s) && Tallied(s, t, w)
    ensures CountersOK(t)
  {
    MoveChosen(s, t, w, Busy);
    MoveChosen(s, t, w, Idling);
  }

  lemma StepCounters(s: World, st: Step)
    requires Inv(s) && Protocol(s) && CountersOK(s) && Enabled(s, st)
    ensures CountersOK(Apply(s, st))
  {
    if IsClient(st) {
      ClientTally(s, st);
      PhasesKeep(s, Apply(s, st));
    } else if IsStop(st) {
      StopTally(s, st);
      PhasesKeep(s, Apply(s, st));
    } else {
      ActorTally(s, st);
      TallyKeeps(s, Apply(s, st), Actor(st));
    }
  }
}
