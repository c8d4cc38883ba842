/** Can a stop that has begun come to its end? From every such state some run leads to the return of
    `stop()` with an empty queue, exactly when every queued task may be run by a worker that takes
    part. */
module SchedulerCompletion {
  import opened Wrappers
  import opened Tasks
  import opened SchedulerModel
  import opened SchedulerInvariant
  import opened SchedulerSteps
  import opened SchedulerCounters
  import opened SchedulerShutdown
  import opened SchedulerTheorems
  import opened SchedulerSafety
  import opened SchedulerLife
  import opened SchedulerOvertaking

  /** Worker `w` takes part: it is the caller's, or the pool was started. */
  ghost predicate TakesPart(s: World, w: int) {
    w in s.workers && (s.ctl.root == Some(w) || s.ctl.poolStarted)
  }

  /** Some worker that takes part may run `t`. */
  ghost predicate Named(s: World, t: Task<nat>) {
    exists w :: TakesPart(s, w) && PinAllows(t.thread, w)
  }

  ghost predicate Drainable(s: World) {
    forall t :: t in s.queue ==> Named(s, t)
  }

  /** `stop()` has set its flags and waits, inside the call or for the pool; whatever is queued kept to
      the discipline and can be run. */
  ghost predicate Closing(s: World, c: Config) {
    Reachable(s, c) && s.hist.strays == {} && Drainable(s) && s.ctl.stopPc in {InCall, Joining}
  }

  // ---------------------------------------------------------------- what a worker step keeps

  /** The fields that decide who takes part and whether `stopping()` may hold. */
  ghost predicate SameSetting(s: World, t: World) {
    && t.workers.Keys == s.workers.Keys && t.ctl.root == s.ctl.root && t.ctl.poolStarted == s.ctl.poolStarted
    && t.ctl.autoStop == s.ctl.autoStop && t.ctl.isStopping == s.ctl.isStopping
  }

  lemma ActorSetting(s: World, st: Step)
    requires Enabled(s, st) && !IsClient(st) && !IsStop(st) && Actor(st) in s.workers
    ensures SameSetting(s, Apply(s, st))
  {
    if Exits(s, st) { ExitSetting(s, st.w); } else { ActorShape(s, st); }
  }

  lemma ExitSetting(s: World, w: int)
    requires Exits(s, IdleOrExit(w))
    ensures SameSetting(s, EnterIdleOrExit(s, w))
    ensures EnterIdleOrExit(s, w).queue == s.queue && EnterIdleOrExit(s, w).active == s.active
  {}

  lemma SameNamed(s: World, t: World, q: Task<nat>)
    requires SameSetting(s, t)
    ensures Named(t, q) <==> Named(s, q)
  {
    assert forall w :: TakesPart(t, w) <==> TakesPart(s, w);
  }

  /** A worker in `run` takes part. */
  lemma LiveTakesPart(s: World, c: Config, w: int)
    requires Reachable(s, c) && w in s.workers && Live(s.workers[w].pc)
    ensures TakesPart(s, w)
  {
    ReachableFull(s, c);
    if s.ctl.root != Some(w) { assert IsPool(s, w); }
  }

  /** What a worker step may queue is a fiber that yielded, unpinned, and nothing of it is stray. */
  lemma ActorQueues(s: World, st: Step)
    requires Enabled(s, st) && !IsClient(st) && !IsStop(st)
    ensures Apply(s, st).hist.strays == s.hist.strays
    ensures forall t :: t in Apply(s, st).queue ==> t in s.queue || t.thread == ANY_THREAD
  {
    if st.Scan? { ScanFewer(s, st.w); }
    else if st.Classify? { ReturnQueues(s, st.w); }
    else { ActorKeepsOrder(s, st); }
  }

  lemma ReturnQueues(s: World, w: int)
    requires Enabled(s, Classify(w))
    ensures ClassifyFiber(s, w).hist.strays == s.hist.strays
    ensures forall t :: t in ClassifyFiber(s, w).queue ==> t in s.queue || t.thread == ANY_THREAD
  {}

  lemma ScanFewer(s: World, w: int)
    requires w in s.workers
    ensures ScanQueue(s, w).hist.strays == s.hist.strays
    ensures forall t :: t in ScanQueue(s, w).queue ==> t in s.queue
  {}

  lemma StopStaysClosing(s: World, c: Config, st: Step)
    requires Reachable(s, c) && Enabled(s, st) && !IsClient(st) && !IsStop(st) && s.ctl.stopPc in {InCall, Joining}
    ensures Apply(s, st).ctl.stopPc in {InCall, Joining}
  {
    ReachableFull(s, c);
    if Exits(s, st) { ExitStops(s, st.w); } else { ActorLive(s, st); ActorShape(s, st); }
  }

  lemma ExitStops(s: World, w: int)
    requires Protocol(s) && Exits(s, IdleOrExit(w))
    ensures EnterIdleOrExit(s, w).ctl.stopPc == s.ctl.stopPc || EnterIdleOrExit(s, w).ctl.stopPc == Joining
  {}

  /** A step of a worker keeps a stop closing. */
  lemma StaysClosing(s: World, c: Config, st: Step)
    requires Closing(s, c) && Enabled(s, st) && !IsClient(st) && !IsStop(st)
    requires Actor(st) in s.workers && Live(s.workers[Actor(st)].pc)
    ensures Closing(Apply(s, st), c)
  {
    var t := Apply(s, st);
    ReachableStep(s, c, st);
    StopStaysClosing(s, c, st);
    ActorSetting(s, st);
    ActorQueues(s, st);
    LiveTakesPart(s, c, Actor(st));
    forall q | q in t.queue ensures Named(t, q) {
      SameNamed(s, t, q);
      assert PinAllows(ANY_THREAD, Actor(st));
    }
  }

  // ---------------------------------------------------------------- every worker to the head of its loop

  /** Steps from a position to the head of the loop, or out of it. */
  function Distance(pc: Pc): nat {
    match pc
    case Boot => 1
    case Requeued(_) => 2
    case Released(_) => 3
    case Back(_) => 4
    case InFiber(_, phase) => if phase == Entering then 7 else if phase == Running then 6 else 5
    case Claimed => 8
    case ScannedEmpty => 8
    case _ => 0
  }

  /** `t` is `s` after a run of steps by `w` that keeps the stop closing. */
  ghost predicate Drives(s: World, t: World, w: int, c: Config) {
    && Closing(t, c) && SameSetting(s, t) && w in s.workers
    && forall v :: v in s.workers && v != w ==> t.workers[v] == s.workers[v]
  }

  /** The step that a live worker takes next, and what it keeps. */
  lemma DriveOne(s: World, c: Config, w: int) returns (spare: nat, st: Step)
    requires Closing(s, c) && w in s.workers && Live(s.workers[w].pc)
    ensures st == NextStep(s, w, spare) && Enabled(s, st) && Drives(s, Apply(s, st), w, c)
  {
    NeverStuck(s, c, w);
    spare :| Enabled(s, NextStep(s, w, spare));
    st := NextStep(s, w, spare);
    IsNext(s, w, spare);
    StaysClosing(s, c, st);
    ActorSetting(s, st);
    OthersSame(s, c, st);
  }

  lemma IsNext(s: World, w: int, spare: nat)
    requires w in s.workers
    ensures var st := NextStep(s, w, spare); !IsClient(st) && !IsStop(st) && Actor(st) == w
  {}

  lemma OthersSame(s: World, c: Config, st: Step)
    requires Reachable(s, c) && Enabled(s, st) && !IsClient(st) && !IsStop(st)
    ensures forall v :: v in s.workers && v != Actor(st) ==> v in Apply(s, st).workers && Apply(s, st).workers[v] == s.workers[v]
  {
    ReachableFull(s, c);
    OthersStay(s, st);
  }

  /** `t` has worker `w` closer to the head of its loop. */
  ghost predicate Closer(s: World, t: World, w: int) {
    w in s.workers && w in t.workers && Distance(t.workers[w].pc) < Distance(s.workers[w].pc)
  }

  lemma CloserOnStack(s: World, w: int)
    requires w in s.workers && s.workers[w].pc.InFiber?
    ensures s.workers[w].pc.phase == Entering && s.workers[w].pc.exec in s.fibers ==> Closer(s, Enter(s, w), w)
    ensures InTask(s, w) ==> Closer(s, BeginFinish(s, w, false), w) && Closer(s, BeginYield(s, w, HOLD), w)
    ensures s.workers[w].pc.phase.Leaving? && MainCtx(s.workers[w]).Loop? && s.workers[w].pc.phase.cur in s.fibers ==>
      Closer(s, Leave(s, w), w)
  {}

  lemma CloserByClaim(s: World, w: int, spare: nat)
    requires AtPc(s, w, Claimed) && s.workers[w].ft.Some?
    requires s.workers[w].ft.value.FiberTask? ==> s.workers[w].ft.value.fiber in s.fibers
    ensures Closer(s, DispatchClaim(s, w, spare), w)
  {}

  lemma CloserBack(s: World, w: int)
    requires w in s.workers && s.workers[w].pc.Back?
    ensures Closer(s, ReleaseClaim(s, w), w)
  {}

  lemma CloserByReturn(s: World, w: int)
    requires w in s.workers && s.workers[w].pc.Released?
    requires s.workers[w].pc.site == SiteFiber ==>
      s.workers[w].ft.Some? && s.workers[w].ft.value.FiberTask? && s.workers[w].ft.value.fiber in s.fibers
    requires s.workers[w].pc.site != SiteFiber ==> s.workers[w].cbFiber.Some? && s.workers[w].cbFiber.value in s.fibers
    ensures Closer(s, ClassifyFiber(s, w), w)
  {}

  lemma CloserByIdle(s: World, w: int)
    requires AtPc(s, w, ScannedEmpty) && s.workers[w].idle.Some? && s.workers[w].idle.value in s.fibers
    ensures Closer(s, EnterIdleOrExit(s, w), w)
  {}

  lemma NextIsCloser(s: World, w: int, spare: nat)
    requires w in s.workers && Live(s.workers[w].pc) && s.workers[w].pc != Head && Enabled(s, NextStep(s, w, spare))
    ensures Closer(s, Apply(s, NextStep(s, w, spare)), w)
  {
    match s.workers[w].pc
    case InFiber(_, _) => NextOnStack(s, w, spare);
    case Claimed => CloserByClaim(s, w, spare);
    case Back(_) => CloserBack(s, w);
    case Released(_) => CloserByReturn(s, w);
    case ScannedEmpty => CloserByIdle(s, w);
    case _ =>
  }

  lemma NextOnStack(s: World, w: int, spare: nat)
    requires w in s.workers && s.workers[w].pc.InFiber? && Enabled(s, NextStep(s, w, spare))
    ensures Closer(s, Apply(s, NextStep(s, w, spare)), w)
  {
    CloserOnStack(s, w);
  }

  ghost predicate Home(s: World, w: int) {
    w in s.workers ==> s.workers[w].pc == Head || !Live(s.workers[w].pc)
  }

  ghost predicate AllHome(s: World) {
    forall w :: Home(s, w)
  }

  /** The run `steps` leads from `s` to `t`. */
  ghost predicate Leads(s: World, steps: seq<Step>, t: World) {
    ValidRun(s, steps) && Run(s, steps) == t
  }

  lemma LeadsNowhere(s: World)
    ensures Leads(s, [], s)
  {}

  lemma LeadsFirst(s: World, st: Step, steps: seq<Step>, t: World)
    requires Enabled(s, st) && Leads(Apply(s, st), steps, t)
    ensures Leads(s, [st] + steps, t)
  {
    assert ([st] + steps)[1..] == steps;
  }

  lemma {:induction false} LeadsOn(s: World, first: seq<Step>, t: World, second: seq<Step>, u: World)
    requires Leads(s, first, t) && Leads(t, second, u)
    ensures Leads(s, first + second, u)
    decreases |first|
  {
    if first == [] {
      assert first + second == second;
    } else {
      assert (first + second)[1..] == first[1..] + second;
      LeadsOn(Apply(s, first[0]), first[1..], t, second, u);
    }
  }

  lemma DrivesOn(s: World, t: World, u: World, w: int, c: Config)
    requires Drives(s, t, w, c) && Drives(t, u, w, c)
    ensures Drives(s, u, w, c)
  {}

  /** One worker goes on until it is at the head of its loop or has left. */
  lemma {:induction false} DriveHome(s: World, c: Config, w: int) returns (steps: seq<Step>, t: World)
    requires Closing(s, c) && w in s.workers
    ensures Leads(s, steps, t) && Drives(s, t, w, c) && Home(t, w)
    decreases Distance(s.workers[w].pc)
  {
    if Home(s, w) {
      steps, t := [], s;
      LeadsNowhere(s);
    } else {
      var spare, st := DriveOne(s, c, w);
      NextIsCloser(s, w, spare);
      var more;
      more, t := DriveHome(Apply(s, st), c, w);
      steps := [st] + more;
      LeadsFirst(s, st, more, t);
      DrivesOn(s, Apply(s, st), t, w, c);
    }
  }

  lemma {:induction false} DriveAllHome(s: World, c: Config, todo: set<int>) returns (steps: seq<Step>, t: World)
    requires Closing(s, c) && todo <= s.workers.Keys && forall w :: w !in todo ==> Home(s, w)
    ensures Leads(s, steps, t) && Closing(t, c) && AllHome(t)
    decreases |todo|
  {
    if w :| w in todo {
      var first, m := DriveHome(s, c, w);
      forall v | v !in todo - {w} ensures Home(m, v) {
        assert v != w ==> Home(s, v);
      }
      var more;
      more, t := DriveAllHome(m, c, todo - {w});
      steps := first + more;
      LeadsOn(s, first, m, more, t);
    } else {
      steps, t := [], s;
      LeadsNowhere(s);
    }
  }

  // ---------------------------------------------------------------- the queue is drained

  /** No fiber is executing while every worker is at home. */
  lemma HomeExecutesNothing(s: World)
    requires RestOK(s) && AllHome(s)
    ensures Executing(s) == {}
  {
    forall f | f in s.fibers ensures s.fibers[f].state != EXEC {
      forall w ensures !OnThreadOf(s, w, f) { assert Home(s, w); }
      assert AtRest(s.fibers[f], f);
    }
  }

  /** Some worker at the head of its loop may run the first task. */
  lemma Scanner(s: World, c: Config) returns (w: int)
    requires Closing(s, c) && AllHome(s) && s.queue != []
    ensures AtPc(s, w, Head) && PinAllows(s.queue[0].thread, w) && Executing(s) == {}
  {
    ReachableFull(s, c);
    HomeExecutesNothing(s);
    if SawStop(s) {
      w := CoveredScanner(s);
    } else {
      w := NamedScanner(s);
    }
    assert Home(s, w);
  }

  lemma CoveredScanner(s: World) returns (w: int)
    requires OrderOK(s) && ShutdownOK(s) && SawStop(s) && s.hist.strays == {} && s.queue != []
    ensures w in s.workers && Live(s.workers[w].pc) && PinAllows(s.queue[0].thread, w)
  {
    assert s.hist.order[0] in s.hist.order;
    assert Covered(s, s.hist.order[0]);
    w :| Covers(s, w, s.queue[0]);
  }

  lemma NamedScanner(s: World) returns (w: int)
    requires Protocol(s) && !SawStop(s) && s.ctl.stopPc in {InCall, Joining} && Drainable(s) && s.queue != []
    ensures w in s.workers && Live(s.workers[w].pc) && PinAllows(s.queue[0].thread, w)
  {
    assert s.queue[0] in s.queue;
    w :| TakesPart(s, w) && PinAllows(s.queue[0].thread, w);
    assert !Gone(s, w);
    if s.ctl.root != Some(w) { assert IsPool(s, w); }
  }

  /** The worker `w` is on its way from a claim to the head of its loop, with a fiber that has finished
      or will do so without being queued again. */
  ghost predicate Settling(s: World, w: int) {
    w in s.workers &&
    match s.workers[w].pc
    case Claimed => true
    case Head => true
    case InFiber(e, phase) =>
      e in s.fibers && s.fibers[e].fn != IdleFn && MainCtx(s.workers[w]) != Loop(SiteIdle)
      && (phase.Leaving? ==> Finished(s.fibers[e].state))
    case Back(site) => site != SiteIdle && SettledFiber(s, w, site)
    case Released(site) => site != SiteIdle && SettledFiber(s, w, site)
    case _ => false
  }

  ghost predicate SettledFiber(s: World, w: int, site: Site)
    requires w in s.workers
  {
    var o := SiteFiberOf(s.workers[w], site);
    o.Some? && o.value in s.fibers && Finished(s.fibers[o.value].state)
  }

  lemma SettleOne(s: World, w: int, spare: nat)
    requires Inv(s) && Settling(s, w) && s.workers[w].pc != Head && Enabled(s, NextStep(s, w, spare))
    ensures Settling(Apply(s, NextStep(s, w, spare)), w) && Apply(s, NextStep(s, w, spare)).queue == s.queue
  {
    assert WorkerOK(s, s.workers[w]);
    match s.workers[w].pc
    case Claimed => SettleDispatch(s, w, spare);
    case InFiber(e, phase) => SettleFiber(s, w);
    case Back(_) => SettleBack(s, w);
    case Released(_) => SettleReturn(s, w);
  }

  lemma SettleDispatch(s: World, w: int, id: nat)
    requires Inv(s) && AtPc(s, w, Claimed) && Enabled(s, Dispatch(w, id))
    ensures Settling(DispatchClaim(s, w, id), w) && DispatchClaim(s, w, id).queue == s.queue
  {
    assert WorkerOK(s, s.workers[w]);
  }

  lemma SettleFiber(s: World, w: int)
    requires Inv(s) && Settling(s, w) && s.workers[w].pc.InFiber?
    ensures s.workers[w].pc.phase == Entering ==> Settling(Enter(s, w), w) && Enter(s, w).queue == s.queue
    ensures s.workers[w].pc.phase == Running ==>
      Settling(BeginFinish(s, w, false), w) && BeginFinish(s, w, false).queue == s.queue
    ensures s.workers[w].pc.phase.Leaving? && MainCtx(s.workers[w]).Loop? && s.workers[w].pc.phase.cur in s.fibers ==>
      Settling(Leave(s, w), w) && Leave(s, w).queue == s.queue
  {
    assert WorkerOK(s, s.workers[w]);
  }

  lemma SettleBack(s: World, w: int)
    requires Inv(s) && Settling(s, w) && s.workers[w].pc.Back?
    ensures Settling(ReleaseClaim(s, w), w) && ReleaseClaim(s, w).queue == s.queue
  {}

  lemma SettleReturn(s: World, w: int)
    requires Inv(s) && Settling(s, w) && s.workers[w].pc.Released? && Enabled(s, Classify(w))
    ensures Settling(ClassifyFiber(s, w), w) && ClassifyFiber(s, w).queue == s.queue
  {}

  lemma SettleNext(s: World, c: Config, w: int, spare: nat)
    requires Reachable(s, c) && Settling(s, w) && s.workers[w].pc != Head && Enabled(s, NextStep(s, w, spare))
    ensures Settling(Apply(s, NextStep(s, w, spare)), w) && Apply(s, NextStep(s, w, spare)).queue == s.queue
  {
    ReachableFull(s, c);
    SettleOne(s, w, spare);
  }

  lemma {:induction false} Settle(s: World, c: Config, w: int) returns (steps: seq<Step>, t: World)
    requires Closing(s, c) && Settling(s, w)
    ensures Leads(s, steps, t) && Drives(s, t, w, c) && Home(t, w) && t.queue == s.queue
    decreases Distance(s.workers[w].pc)
  {
    if s.workers[w].pc == Head {
      steps, t := [], s;
      LeadsNowhere(s);
    } else {
      var spare, st := DriveOne(s, c, w);
      NextIsCloser(s, w, spare);
      SettleNext(s, c, w, spare);
      var more;
      more, t := Settle(Apply(s, st), c, w);
      steps := [st] + more;
      LeadsFirst(s, st, more, t);
      DrivesOn(s, Apply(s, st), t, w, c);
    }
  }

  lemma ScanFirst(s: World, w: int)
    requires AtPc(s, w, Head) && s.queue != [] && PinAllows(s.queue[0].thread, w) && Executing(s) == {}
    ensures Enabled(s, Scan(w)) && Settling(Apply(s, Scan(w)), w) && Apply(s, Scan(w)).queue == s.queue[1..]
  {
    assert FirstEligible(s.queue, w, {}) == 0;
  }

  /** One task fewer, and everybody at home again. */
  lemma DrainOne(s: World, c: Config) returns (steps: seq<Step>, t: World)
    requires Closing(s, c) && AllHome(s) && s.queue != []
    ensures Leads(s, steps, t) && Closing(t, c) && AllHome(t) && |t.queue| == |s.queue| - 1
  {
    var w := Scanner(s, c);
    ScanFirst(s, w);
    var m := Apply(s, Scan(w));
    StaysClosing(s, c, Scan(w));
    OthersSame(s, c, Scan(w));
    ActorSetting(s, Scan(w));
    var more;
    more, t := Settle(m, c, w);
    steps := [Scan(w)] + more;
    LeadsFirst(s, Scan(w), more, t);
    forall v ensures Home(t, v) { assert Home(s, v); }
  }

  lemma {:induction false} DrainAll(s: World, c: Config) returns (steps: seq<Step>, t: World)
    requires Closing(s, c) && AllHome(s)
    ensures Leads(s, steps, t) && Closing(t, c) && AllHome(t) && t.queue == []
    decreases |s.queue|
  {
    if s.queue == [] {
      steps, t := [], s;
      LeadsNowhere(s);
    } else {
      var first, m := DrainOne(s, c);
      var more;
      more, t := DrainAll(m, c);
      steps := first + more;
      LeadsOn(s, first, m, more, t);
    }
  }

  // ---------------------------------------------------------------- the workers leave

  /** Nobody is busy at home, so `stopping()` holds. */
  lemma HomeStops(s: World, c: Config)
    requires Closing(s, c) && AllHome(s) && s.queue == []
    ensures StopCondition(s)
  {
    ReachableFull(s, c);
    HomeIdle(s);
  }

  lemma HomeIdle(s: World)
    requires CountersOK(s) && AllHome(s)
    ensures s.active == 0
  {
    forall w | w in s.workers ensures !Busy(s.workers[w]) { assert Home(s, w); }
    assert Chosen(s, Busy) == {};
  }

  /** The worker `w` is on its way out: it goes round the loop through its idle fiber, which sees
      `stopping()` and ends. */
  ghost predicate Quitting(s: World, w: int) {
    StopCondition(s) && w in s.workers &&
    match s.workers[w].pc
    case Head => true
    case ScannedEmpty => true
    case InFiber(e, phase) => s.workers[w].idle == Some(e) && (phase.Leaving? ==> IdleDone(s, w))
    case Back(site) => site == SiteIdle && IdleDone(s, w)
    case pc => !Live(pc)
  }

  function QuitDistance(s: World, w: int): nat
    requires w in s.workers
  {
    match s.workers[w].pc
    case Head => if IdleDone(s, w) then 2 else 9
    case ScannedEmpty => if IdleDone(s, w) then 1 else 8
    case InFiber(_, phase) => if phase == Entering then 7 else if phase == Running then 6 else 4
    case Back(_) => 3
    case _ => 0
  }

  /** What is asked of the next step of a worker on its way out. */
  ghost predicate QuitsOn(s: World, t: World, w: int) {
    Quitting(t, w) && w in s.workers && QuitDistance(t, w) < QuitDistance(s, w)
  }

  lemma QuitLoop(s: World, w: int)
    requires Inv(s) && Quitting(s, w) && (s.workers[w].pc == Head || s.workers[w].pc == ScannedEmpty)
    ensures s.workers[w].pc == Head ==> QuitsOn(s, ScanQueue(s, w), w)
    ensures s.workers[w].pc == ScannedEmpty && Enabled(s, IdleOrExit(w)) ==> QuitsOn(s, EnterIdleOrExit(s, w), w)
  {
    assert WorkerOK(s, s.workers[w]);
  }

  lemma QuitIdle(s: World, w: int)
    requires Inv(s) && Quitting(s, w) && s.workers[w].pc.InFiber? && s.workers[w].pc.phase != Running
    ensures s.workers[w].pc.phase == Entering ==> QuitsOn(s, Enter(s, w), w)
    ensures s.workers[w].pc.phase.Leaving? && MainCtx(s.workers[w]).Loop? && s.workers[w].pc.phase.cur in s.fibers ==>
      QuitsOn(s, Leave(s, w), w)
  {
    assert WorkerOK(s, s.workers[w]);
  }

  lemma QuitCheck(s: World, w: int)
    requires Inv(s) && Quitting(s, w) && s.workers[w].pc.InFiber? && s.workers[w].pc.phase == Running
    ensures InTask(s, w) && RunsIdle(s, w) && QuitsOn(s, BeginFinish(s, w, false), w)
  {
    assert WorkerOK(s, s.workers[w]);
  }

  lemma QuitBack(s: World, w: int)
    requires Inv(s) && Quitting(s, w) && s.workers[w].pc.Back?
    ensures QuitsOn(s, ReleaseClaim(s, w), w)
  {
    assert WorkerOK(s, s.workers[w]);
  }

  lemma QuitNext(s: World, c: Config, w: int, spare: nat)
    requires Reachable(s, c) && Quitting(s, w) && Live(s.workers[w].pc) && Enabled(s, NextStep(s, w, spare))
    ensures QuitsOn(s, Apply(s, NextStep(s, w, spare)), w)
  {
    ReachableFull(s, c);
    match s.workers[w].pc
    case Head => QuitLoop(s, w);
    case ScannedEmpty => QuitLoop(s, w);
    case InFiber(_, phase) => if phase == Running { QuitCheck(s, w); } else { QuitIdle(s, w); }
    case Back(_) => QuitBack(s, w);
  }

  lemma {:induction false} Quit(s: World, c: Config, w: int) returns (steps: seq<Step>, t: World)
    requires Closing(s, c) && Quitting(s, w)
    ensures Leads(s, steps, t) && Drives(s, t, w, c) && StopCondition(t) && !Live(t.workers[w].pc)
    decreases QuitDistance(s, w)
  {
    if !Live(s.workers[w].pc) {
      steps, t := [], s;
      LeadsNowhere(s);
    } else {
      var spare, st := DriveOne(s, c, w);
      QuitNext(s, c, w, spare);
      var more;
      more, t := Quit(Apply(s, st), c, w);
      steps := [st] + more;
      LeadsFirst(s, st, more, t);
      DrivesOn(s, Apply(s, st), t, w, c);
    }
  }

  lemma {:induction false} QuitAll(s: World, c: Config, todo: set<int>) returns (steps: seq<Step>, t: World)
    requires Closing(s, c) && StopCondition(s) && AllHome(s) && todo <= s.workers.Keys
    requires forall w :: w in s.workers && w !in todo ==> !Live(s.workers[w].pc)
    ensures Leads(s, steps, t) && Closing(t, c) && t.queue == []
    ensures forall w :: w in t.workers ==> !Live(t.workers[w].pc)
    decreases |todo|
  {
    if w :| w in todo {
      assert Home(s, w);
      var first, m := Quit(s, c, w);
      forall v ensures Home(m, v) { assert Home(s, v); }
      var more;
      more, t := QuitAll(m, c, todo - {w});
      steps := first + more;
      LeadsOn(s, first, m, more, t);
    } else {
      steps, t := [], s;
      LeadsNowhere(s);
    }
  }

  // ---------------------------------------------------------------- the stop as a whole

  /** When nobody is left in `run`, the join succeeds. */
  lemma JoinEnds(s: World, c: Config)
    requires Closing(s, c) && forall w :: w in s.workers ==> !Live(s.workers[w].pc)
    ensures Enabled(s, StopJoin)
  {
    ReachableFull(s, c);
    forall w | w in s.workers && s.ctl.poolStarted && IsPool(s, w) ensures s.workers[w].pc == Exited {
      assert PoolThread(s, s.workers[w]);
    }
  }

  lemma Close(s: World, c: Config) returns (steps: seq<Step>, t: World)
    requires Closing(s, c)
    ensures Leads(s, steps, t) && t.ctl.stopPc == Returned && t.queue == [] && t.hist.strays == {}
  {
    var first, a := DriveAllHome(s, c, s.workers.Keys);
    var second, b := DrainAll(a, c);
    HomeStops(b, c);
    var third, d := QuitAll(b, c, b.workers.Keys);
    JoinEnds(d, c);
    t := Apply(d, StopJoin);
    LeadsNowhere(t);
    LeadsFirst(d, StopJoin, [], t);
    LeadsOn(s, first, a, second, b);
    LeadsOn(s, first + second, b, third, d);
    LeadsOn(s, first + second + third, d, [StopJoin], t);
    steps := first + second + third + [StopJoin];
    assert [StopJoin] + [] == [StopJoin];
  }

  /** A step of `stop()` keeps everything that decides whether the queue can be drained. */
  lemma StopSetting(s: World, st: Step)
    requires Enabled(s, st) && (st.StopEarly? || st.StopFlag? || st.StopDispatch?)
    ensures StopKeeps(s, Apply(s, st))
  {
    if st.StopEarly? { EarlySetting(s); } else if st.StopDispatch? { DispatchSetting(s); }
  }

  ghost predicate StopKeeps(s: World, t: World) {
    && t.workers.Keys == s.workers.Keys && t.ctl.root == s.ctl.root && t.ctl.poolStarted == s.ctl.poolStarted
    && t.queue == s.queue && t.hist == s.hist
  }

  lemma EarlySetting(s: World)
    requires Enabled(s, StopEarly)
    ensures StopKeeps(s, Apply(s, StopEarly))
  {}

  lemma DispatchSetting(s: World)
    requires Enabled(s, StopDispatch)
    ensures StopKeeps(s, Apply(s, StopDispatch))
  {}

  /** Where each step of `stop()` leads. */
  lemma StopMoves(s: World)
    requires s.ctl.stopPc in {AutoStopSet, PastEarlyTest, FlagsSet}
    ensures s.ctl.stopPc == AutoStopSet ==>
      Enabled(s, StopEarly) && var pc := Apply(s, StopEarly).ctl.stopPc; pc == PastEarlyTest || (pc == Returned && s.queue == [])
    ensures s.ctl.stopPc == PastEarlyTest ==> Enabled(s, StopFlag) && Apply(s, StopFlag).ctl.stopPc == FlagsSet
    ensures s.ctl.stopPc == FlagsSet ==> Enabled(s, StopDispatch)
  {}

  lemma DispatchMoves(s: World, c: Config)
    requires Reachable(s, c) && s.ctl.stopPc == FlagsSet
    ensures Enabled(s, StopDispatch) && Apply(s, StopDispatch).ctl.stopPc in {InCall, Joining}
  {
    ReachableFull(s, c);
  }

  /** `stop()` has begun, nothing queued is stray, and it can all be run. */
  ghost predicate Began(s: World, c: Config) {
    Reachable(s, c) && s.ctl.stopPc != NotCalled && s.hist.strays == {} && Drainable(s)
  }

  lemma StopKeepsBegan(s: World, c: Config, st: Step)
    requires Began(s, c) && Enabled(s, st) && (st.StopEarly? || st.StopFlag? || st.StopDispatch?)
    requires Apply(s, st).ctl.stopPc != NotCalled
    ensures Began(Apply(s, st), c)
  {
    var t := Apply(s, st);
    ReachableStep(s, c, st);
    StopSetting(s, st);
    assert forall w :: TakesPart(t, w) <==> TakesPart(s, w);
    forall q | q in t.queue ensures Named(t, q) { assert Named(s, q); }
  }

  function StopDistance(pc: StopPc): nat {
    match pc
    case NotCalled => 4
    case AutoStopSet => 3
    case PastEarlyTest => 2
    case FlagsSet => 1
    case _ => 0
  }

  lemma {:induction false} Complete(s: World, c: Config) returns (steps: seq<Step>, t: World)
    requires Began(s, c)
    ensures Leads(s, steps, t) && t.ctl.stopPc == Returned && t.queue == [] && t.hist.strays == {}
    decreases StopDistance(s.ctl.stopPc)
  {
    if s.ctl.stopPc in {InCall, Joining} {
      steps, t := Close(s, c);
    } else if s.ctl.stopPc == Returned {
      ReturnedEmpty(s, c);
      steps, t := [], s;
      LeadsNowhere(s);
    } else {
      StopMoves(s);
      var st := if s.ctl.stopPc == AutoStopSet then StopEarly else if s.ctl.stopPc == PastEarlyTest then StopFlag else StopDispatch;
      if st == StopDispatch { DispatchMoves(s, c); }
      StopKeepsBegan(s, c, st);
      var more;
      more, t := Complete(Apply(s, st), c);
      steps := [st] + more;
      LeadsFirst(s, st, more, t);
    }
  }

  lemma ReturnedEmpty(s: World, c: Config)
    requires Began(s, c) && s.ctl.stopPc == Returned
    ensures s.queue == []
  {
    if s.queue != [] {
      assert s.queue[0] in s.queue;
      var w :| TakesPart(s, w) && PinAllows(s.queue[0].thread, w);
      RootIsConfigured(s, c);
      StopDrains(s, c);
    }
  }

  lemma RootIsConfigured(s: World, c: Config)
    requires Reachable(s, c)
    ensures s.ctl.root == c.root
  {
    ReachableFull(s, c);
  }

  // ---------------------------------------------------------------- the condition is exact

  /** Once `stop()` has begun, who takes part is settled. */
  lemma StepSetting(s: World, c: Config, st: Step)
    requires Reachable(s, c) && Enabled(s, st) && s.ctl.stopPc != NotCalled
    ensures var t := Apply(s, st);
      && t.workers.Keys == s.workers.Keys && t.ctl.root == s.ctl.root && t.ctl.poolStarted == s.ctl.poolStarted
      && t.ctl.stopPc != NotCalled
  {
    if IsClient(st) { ClientShape(s, st); }
    else if st.StopEarly? || st.StopFlag? || st.StopDispatch? { StopSetting(s, st); StopNotForgotten(s, st); }
    else if IsStop(st) { StopNotForgotten(s, st); }
    else { WorkerSetting(s, c, st); }
  }

  lemma StopNotForgotten(s: World, st: Step)
    requires Enabled(s, st) && IsStop(st) && s.ctl.stopPc != NotCalled
    ensures !st.StartPool? && !st.StopCall? && Apply(s, st).ctl.stopPc != NotCalled
    ensures st.StopJoin? ==> StopKeeps(s, Apply(s, st))
  {}

  lemma WorkerSetting(s: World, c: Config, st: Step)
    requires Reachable(s, c) && Enabled(s, st) && !IsClient(st) && !IsStop(st) && s.ctl.stopPc != NotCalled
    ensures SameSetting(s, Apply(s, st)) && Apply(s, st).ctl.stopPc != NotCalled
  {
    ReachableFull(s, c);
    ActorLive(s, st);
    ActorSetting(s, st);
    if Exits(s, st) { ExitStops(s, st.w); } else { ActorShape(s, st); }
  }

  lemma UnnamedStays(s: World, c: Config, st: Step, q: Task<nat>)
    requires Reachable(s, c) && Enabled(s, st) && s.ctl.stopPc != NotCalled && q in s.queue && !Named(s, q)
    ensures q in Apply(s, st).queue && !Named(Apply(s, st), q)
  {
    StepSetting(s, c, st);
    assert forall w :: TakesPart(Apply(s, st), w) <==> TakesPart(s, w);
    if st.Scan? {
      LiveTakesPart(s, c, st.w);
      ScanLeaves(s.queue, FirstEligible(s.queue, st.w, Executing(s)), q);
    } else {
      OnlyAppends(s, st);
    }
  }

  lemma {:induction false} UnnamedForever(s: World, c: Config, steps: seq<Step>, q: Task<nat>)
    requires Reachable(s, c) && ValidRun(s, steps) && s.ctl.stopPc != NotCalled && q in s.queue && !Named(s, q)
    ensures q in Run(s, steps).queue
    decreases |steps|
  {
    if steps != [] {
      UnnamedStays(s, c, steps[0], q);
      StepSetting(s, c, steps[0]);
      ReachableStep(s, c, steps[0]);
      UnnamedForever(Apply(s, steps[0]), c, steps[1..], q);
    }
  }

  /** Some run brings `stop()` to its return with nothing left in the queue. */
  ghost predicate CanComplete(s: World) {
    exists steps :: ValidRun(s, steps) && Run(s, steps).ctl.stopPc == Returned && Run(s, steps).queue == []
  }

  /** After `stop()` has begun, in every reachable state without strays: it can still come to its end
      with an empty queue if and only if every queued task may be run by a worker that takes part. */
  lemma StopCanComplete(s: World, c: Config)
    requires Reachable(s, c) && s.ctl.stopPc != NotCalled && s.hist.strays == {}
    ensures CanComplete(s) <==> Drainable(s)
  {
    if Drainable(s) {
      var steps, t := Complete(s, c);
    } else {
      var q :| q in s.queue && !Named(s, q);
      forall steps | ValidRun(s, steps) ensures Run(s, steps).queue != [] {
        UnnamedForever(s, c, steps, q);
      }
    }
  }
}
