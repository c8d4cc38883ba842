/** The rotation of the single worker is a run of the transition system: with the caller's thread as
    the only worker and tasks that follow finite scripts, there is a run that claims what the rotation
    takes, in the same order, and leaves every fiber as the rotation does. */
module SchedulerRotation {
  import opened Wrappers
  import opened Tasks
  import opened RoundRobin
  import opened SchedulerModel
  import opened SchedulerInvariant
  import opened SchedulerSteps
  import opened SchedulerShutdown
  import opened SchedulerTheorems
  import opened SchedulerTransfer
  import opened SchedulerLife
  import opened SchedulerCompletion

  /** The caller's thread `me` is the only worker. */
  function CallerOnly(me: int): Config {
    Config({}, Some(me))
  }

  /** Who follows which script: the callbacks in the queue by their numbers, and the fibers made for
      callbacks by what they have left. */
  datatype Cast = Cast(bodies: map<nat, Script>, left: map<nat, Script>)

  /** Task `t` is item `it`; the fibers below `users` are the client's. */
  ghost predicate Plays(s: World, t: Task<nat>, it: Item, users: nat, me: int, m: Cast) {
    PinAllows(t.thread, me) &&
    match it
    case Handle(id) => t.FiberTask? && t.fiber == id && id < users
    case Body(b) =>
      match t
      case CallbackTask(u, _) => u in m.bodies && m.bodies[u] == b
      case FiberTask(f, _) => f >= users && f in m.left && m.left[f] == b && f in s.fibers && s.fibers[f].state == READY
  }

  ghost predicate QueueIs(s: World, q: seq<Item>, users: nat, me: int, m: Cast) {
    && |s.queue| == |q|
    && forall i :: 0 <= i < |q| ==> Plays(s, s.queue[i], q[i], users, me, m)
  }

  /** The client's fibers exist and have work left or have finished, as `rest` says; `but` is exempt. */
  ghost predicate UsersAre(s: World, rest: seq<Option<Script>>, but: Option<nat>) {
    forall id :: 0 <= id < |rest| ==>
      && id in s.fibers && id in s.handles
      && (but != Some(id) ==> (rest[id].Some? <==> !Finished(s.fibers[id].state)))
  }

  /** The worker's own fibers are none of the client's. */
  ghost predicate OwnFibers(x: Worker, users: nat) {
    x.idle.Some? && x.idle.value >= users && (x.cbFiber.Some? ==> x.cbFiber.value >= users)
  }

  /** The caller's worker is at work on queue `q`, while fiber `but` may be on its thread. */
  ghost predicate Stage(s: World, me: int, rest: seq<Option<Script>>, q: seq<Item>, m: Cast, but: Option<nat>) {
    && Reachable(s, CallerOnly(me)) && s.workers.Keys == {me} && s.ctl.root == Some(me) && s.ctl.stopPc == InCall
    && s.hist.strays == {}
    && QueueIs(s, q, |rest|, me, m) && UsersAre(s, rest, but) && OwnFibers(s.workers[me], |rest|)
    && forall u :: u in m.bodies ==> u < s.hist.nextCb
  }

  // ---------------------------------------------------------------- the claim

  lemma AtHeadNothingRuns(s: World, me: int)
    requires Reachable(s, CallerOnly(me)) && s.workers.Keys == {me} && AtPc(s, me, Head)
    ensures Executing(s) == {}
  {
    ReachableFull(s, CallerOnly(me));
    forall w ensures Home(s, w) {}
    HomeExecutesNothing(s);
  }

  lemma ClaimFirst(s: World, me: int)
    requires AtPc(s, me, Head) && s.queue != [] && PinAllows(s.queue[0].thread, me) && Executing(s) == {}
    ensures Enabled(s, Scan(me))
    ensures var t := Apply(s, Scan(me));
      && t.queue == s.queue[1..] && t.fibers == s.fibers && t.handles == s.handles && t.ctl == s.ctl
      && t.workers == s.workers[me := s.workers[me].(pc := Claimed, ft := Some(s.queue[0]))]
      && t.hist.nextCb == s.hist.nextCb && t.hist.strays == s.hist.strays
      && t.hist.claims == s.hist.claims + [Claim(me, s.queue[0])]
  {
    assert FirstEligible(s.queue, me, {}) == 0;
  }

  lemma ScanTurn(s: World, me: int, rest: seq<Option<Script>>, q: seq<Item>, m: Cast) returns (t: World)
    requires Stage(s, me, rest, q, m, None) && AtPc(s, me, Head) && q != []
    ensures Enabled(s, Scan(me)) && t == Apply(s, Scan(me))
    ensures Stage(t, me, rest, q[1..], m, None) && AtPc(t, me, Claimed) && t.workers[me].ft == Some(s.queue[0])
    ensures Plays(t, s.queue[0], q[0], |rest|, me, m) && t.hist.claims == s.hist.claims + [Claim(me, s.queue[0])]
  {
    AtHeadNothingRuns(s, me);
    assert Plays(s, s.queue[0], q[0], |rest|, me, m);
    ClaimFirst(s, me);
    ReachableStep(s, CallerOnly(me), Scan(me));
    t := Apply(s, Scan(me));
    forall i | 0 <= i < |q[1..]| ensures Plays(t, t.queue[i], q[1..][i], |rest|, me, m) {
      assert Plays(s, s.queue[i + 1], q[i + 1], |rest|, me, m);
    }
  }

  // ---------------------------------------------------------------- steps on the fiber's stack

  /** `t` is `s` but for the worker's position and fiber `f`, which is not queued. */
  ghost predicate Moved(s: World, t: World, me: int, f: nat) {
    && me in s.workers && me in t.workers && t.workers.Keys == s.workers.Keys
    && t.queue == s.queue && t.handles == s.handles && t.ctl == s.ctl
    && t.hist.nextCb == s.hist.nextCb && t.hist.claims == s.hist.claims && t.hist.strays == s.hist.strays
    && t.workers[me].idle == s.workers[me].idle
    && (t.workers[me].cbFiber == s.workers[me].cbFiber || t.workers[me].cbFiber in {None, Some(f)})
    && TouchesOne(s, t, f) && f in t.fibers
  }

  lemma MovedStage(s: World, t: World, me: int, rest: seq<Option<Script>>, q: seq<Item>, m: Cast, f: nat, but: Option<nat>)
    requires Stage(s, me, rest, q, m, but) && Moved(s, t, me, f) && Reachable(t, CallerOnly(me))
    requires (forall i :: !QueuedAt(s, i, f)) && (t.workers[me].cbFiber == Some(f) ==> f >= |rest| || s.workers[me].cbFiber == Some(f))
    requires but == None || but == Some(f)
    ensures Stage(t, me, rest, q, m, Some(f))
  {
    forall i | 0 <= i < |q| ensures Plays(t, t.queue[i], q[i], |rest|, me, m) {
      assert Plays(s, s.queue[i], q[i], |rest|, me, m);
      assert !QueuedAt(s, i, f);
    }
  }

  /** What the worker knows of the fiber on its thread, or in its hands. */
  lemma InHands(s: World, c: Config, w: int, f: nat)
    requires Reachable(s, c) && HoldsAt(s, w, f)
    ensures WorkerOK(s, s.workers[w]) && f in s.fibers && forall i :: !QueuedAt(s, i, f)
  {
    ReachableFull(s, c);
    HeldUnqueued(s, w, f);
  }

  lemma OnStack(s: World, c: Config, w: int)
    requires Reachable(s, c) && w in s.workers && s.workers[w].pc.InFiber?
    ensures HoldsAt(s, w, s.workers[w].pc.exec)
    ensures WorkerOK(s, s.workers[w]) && s.workers[w].pc.exec in s.fibers && forall i :: !QueuedAt(s, i, s.workers[w].pc.exec)
  {
    ReachableFull(s, c);
    RunnerHolds(s, w, s.workers[w].pc.exec);
    HeldUnqueued(s, w, s.workers[w].pc.exec);
  }

  /** The worker runs task fiber `f`. */
  ghost predicate Performs(s: World, me: int, f: nat, phase: Phase) {
    && AtPc(s, me, InFiber(f, phase)) && f in s.fibers && s.fibers[f].fn != IdleFn
    && MainCtx(s.workers[me]) != Loop(SiteIdle)
  }

  lemma EnterMoves(s: World, me: int, f: nat)
    requires Performs(s, me, f, Entering) && WorkerOK(s, s.workers[me])
    ensures Enabled(s, EnterFiber(me))
    ensures var t := Apply(s, EnterFiber(me)); Moved(s, t, me, f) && Performs(t, me, f, Running)
  {}

  lemma EnterTurn(s: World, me: int, rest: seq<Option<Script>>, q: seq<Item>, m: Cast, f: nat) returns (t: World)
    requires Stage(s, me, rest, q, m, Some(f)) && Performs(s, me, f, Entering)
    ensures Enabled(s, EnterFiber(me)) && t == Apply(s, EnterFiber(me))
    ensures Stage(t, me, rest, q, m, Some(f)) && Performs(t, me, f, Running) && t.hist.claims == s.hist.claims
  {
    OnStack(s, CallerOnly(me), me);
    EnterMoves(s, me, f);
    ReachableStep(s, CallerOnly(me), EnterFiber(me));
    t := Apply(s, EnterFiber(me));
    MovedStage(s, t, me, rest, q, m, f, Some(f));
  }

  // ---------------------------------------------------------------- the switch

  /** The claimed fiber, unless it has finished, or the one a claimed callback is bound to. */
  lemma DispatchMoves(s: World, me: int, spare: nat, f: nat)
    requires Enabled(s, Dispatch(me, spare)) && WorkerOK(s, s.workers[me]) && Target(s, Dispatch(me, spare)) == Some(f)
    ensures var t := Apply(s, Dispatch(me, spare)); Moved(s, t, me, f) && Performs(t, me, f, Entering)
  {}

  lemma DispatchFinished(s: World, me: int, spare: nat)
    requires Enabled(s, Dispatch(me, spare)) && WorkerOK(s, s.workers[me]) && Target(s, Dispatch(me, spare)) == None
    ensures var t := Apply(s, Dispatch(me, spare));
      && AtPc(t, me, Head) && t.workers == s.workers[me := t.workers[me]] && t.workers[me].idle == s.workers[me].idle
      && t.workers[me].cbFiber == s.workers[me].cbFiber
      && t.fibers == s.fibers && t.queue == s.queue && t.handles == s.handles && t.ctl == s.ctl && t.hist == s.hist
  {}

  /** A number for a fiber that may have to be made, beyond all others. */
  lemma Spare(s: World, c: Config, me: int, users: nat) returns (spare: nat)
    requires Reachable(s, c) && AtPc(s, me, Claimed) && forall id :: 0 <= id < users ==> id in s.fibers
    ensures spare !in s.fibers && spare >= users && Enabled(s, Dispatch(me, spare)) && WorkerOK(s, s.workers[me])
  {
    ReachableWorker(s, c, me);
    spare := Unused(s.fibers.Keys);
    NextOfLoop(s, me, spare);
    assert users > 0 ==> users - 1 in s.fibers.Keys;
  }

  /** A finished fiber's handle is dropped. */
  lemma SkipTurn(s: World, me: int, rest: seq<Option<Script>>, q: seq<Item>, m: Cast, id: nat) returns (spare: nat, t: World)
    requires Stage(s, me, rest, q, m, None) && AtPc(s, me, Claimed)
    requires s.workers[me].ft.Some? && s.workers[me].ft.value.FiberTask? && s.workers[me].ft.value.fiber == id
    requires id < |rest| && rest[id].None?
    ensures Enabled(s, Dispatch(me, spare)) && t == Apply(s, Dispatch(me, spare))
    ensures Stage(t, me, rest, q, m, None) && AtPc(t, me, Head) && t.hist.claims == s.hist.claims
  {
    spare := Spare(s, CallerOnly(me), me, |rest|);
    DispatchFinished(s, me, spare);
    ReachableStep(s, CallerOnly(me), Dispatch(me, spare));
    t := Apply(s, Dispatch(me, spare));
    forall i | 0 <= i < |q| ensures Plays(t, t.queue[i], q[i], |rest|, me, m) {
      assert Plays(s, s.queue[i], q[i], |rest|, me, m);
    }
  }

  /** The script that the claimed item runs. */
  function ScriptOf(it: Item, rest: seq<Option<Script>>): Option<Script> {
    match it
    case Handle(id) => if id < |rest| then rest[id] else None
    case Body(b) => Some(b)
  }

  /** The fiber on the thread belongs to the item: the client's for a handle, another for a callback. */
  predicate FiberFor(it: Item, f: nat, users: nat) {
    match it
    case Handle(id) => f == id && id < users
    case Body(_) => f >= users
  }

  /** The fiber that a claimed task with work left is switched to. */
  lemma TargetOf(s: World, me: int, rest: seq<Option<Script>>, m: Cast, it: Item, spare: nat) returns (f: nat)
    requires Enabled(s, Dispatch(me, spare)) && AtPc(s, me, Claimed) && s.workers[me].ft.Some? && spare >= |rest|
    requires UsersAre(s, rest, None) && OwnFibers(s.workers[me], |rest|)
    requires Plays(s, s.workers[me].ft.value, it, |rest|, me, m) && ScriptOf(it, rest).Some?
    ensures Target(s, Dispatch(me, spare)) == Some(f) && FiberFor(it, f, |rest|)
  {
    f := Target(s, Dispatch(me, spare)).value;
  }

  /** A claimed task with work left is switched to. */
  lemma SwitchTurn(s: World, me: int, rest: seq<Option<Script>>, q: seq<Item>, m: Cast, it: Item)
    returns (spare: nat, f: nat, t: World)
    requires Stage(s, me, rest, q, m, None) && AtPc(s, me, Claimed) && s.workers[me].ft.Some?
    requires Plays(s, s.workers[me].ft.value, it, |rest|, me, m) && ScriptOf(it, rest).Some?
    ensures Enabled(s, Dispatch(me, spare)) && t == Apply(s, Dispatch(me, spare))
    ensures Stage(t, me, rest, q, m, Some(f)) && Performs(t, me, f, Entering) && FiberFor(it, f, |rest|)
    ensures t.hist.claims == s.hist.claims
  {
    spare := Spare(s, CallerOnly(me), me, |rest|);
    f := TargetOf(s, me, rest, m, it, spare);
    DispatchMoves(s, me, spare, f);
    ReachableStep(s, CallerOnly(me), Dispatch(me, spare));
    t := Apply(s, Dispatch(me, spare));
    TargetUnqueued(s, CallerOnly(me), me, spare, f);
    MovedStage(s, t, me, rest, q, m, f, None);
  }

  lemma TargetUnqueued(s: World, c: Config, me: int, spare: nat, f: nat)
    requires Reachable(s, c) && Enabled(s, Dispatch(me, spare)) && Target(s, Dispatch(me, spare)) == Some(f)
    ensures forall i :: !QueuedAt(s, i, f)
  {
    if f in s.fibers { InHands(s, c, me, f); } else { AbsentNotQueued(s, c, f); }
  }

  lemma AbsentNotQueued(s: World, c: Config, f: nat)
    requires Reachable(s, c) && f !in s.fibers
    ensures forall i :: !QueuedAt(s, i, f)
  {
    ReachableFull(s, c);
  }

  // ---------------------------------------------------------------- submissions

  lemma HandleIsFree(s: World, me: int, rest: seq<Option<Script>>, q: seq<Item>, m: Cast, f: nat, id: nat)
    requires Stage(s, me, rest, q, m, Some(f)) && Performs(s, me, f, Running)
    requires id < |rest| && id != f && Handle(id) !in q
    ensures Free(s, id)
  {
    OnStack(s, CallerOnly(me), me);
    forall i | 0 <= i < |s.queue| ensures !(s.queue[i].FiberTask? && s.queue[i].fiber == id) {
      assert Plays(s, s.queue[i], q[i], |rest|, me, m) && q[i] in q;
    }
    forall w | w in s.workers ensures !Holds(s.workers[w], id) {}
  }

  function PinOf(pinned: bool, me: int): int {
    if pinned then me else ANY_THREAD
  }

  lemma SubmitMoves(s: World, me: int, f: nat, sub: Submission, pin: int)
    requires Performs(s, me, f, Running) && CanSubmit(s, sub) && PinAllows(pin, me)
    ensures Enabled(s, TaskSubmit(me, sub, pin))
    ensures var t := Apply(s, TaskSubmit(me, sub, pin));
      && t.fibers == s.fibers && t.handles == s.handles && t.workers == s.workers && t.ctl == s.ctl
      && t.queue == s.queue + [SubmittedTask(s, sub, pin)] && t.hist.claims == s.hist.claims && t.hist.strays == s.hist.strays
      && t.hist.nextCb == s.hist.nextCb + (if sub.SubCallback? then 1 else 0)
  {}

  /** One submission puts one item at the back. */
  lemma SubmitOne(s: World, me: int, rest: seq<Option<Script>>, q: seq<Item>, m: Cast, f: nat, sub: Sub)
    returns (steps: seq<Step>, t: World, m': Cast)
    requires Stage(s, me, rest, q, m, Some(f)) && Performs(s, me, f, Running)
    requires sub.SubHandle? && sub.id < |rest| ==> sub.id != f && Handle(sub.id) !in q
    ensures Leads(s, steps, t) && Stage(t, me, rest, q + Items([sub], |rest|), m', Some(f)) && Performs(t, me, f, Running)
    ensures t.hist.claims == s.hist.claims
  {
    assert [sub][1..] == [];
    if sub.SubHandle? && sub.id >= |rest| {
      steps, t, m' := [], s, m;
      LeadsNowhere(s);
      assert q + Items([sub], |rest|) == q;
      return;
    }
    var what := if sub.SubHandle? then SubFiber(sub.id) else SubCallback;
    var pin := PinOf(sub.pinned, me);
    if sub.SubHandle? { HandleIsFree(s, me, rest, q, m, f, sub.id); }
    SubmitMoves(s, me, f, what, pin);
    var st := TaskSubmit(me, what, pin);
    ReachableStep(s, CallerOnly(me), st);
    t := Apply(s, st);
    m' := if sub.SubBody? then m.(bodies := m.bodies[s.hist.nextCb := sub.body]) else m;
    var it := if sub.SubHandle? then Handle(sub.id) else Body(sub.body);
    assert Items([sub], |rest|) == [it];
    PushPlays(s, t, me, rest, q, m, m', it);
    LeadsNowhere(t);
    LeadsFirst(s, st, [], t);
    steps := [st] + [];
  }

  lemma PushPlays(s: World, t: World, me: int, rest: seq<Option<Script>>, q: seq<Item>, m: Cast, m': Cast, it: Item)
    requires QueueIs(s, q, |rest|, me, m) && |t.queue| == |s.queue| + 1 && t.queue == s.queue + [t.queue[|s.queue|]]
    requires t.fibers == s.fibers && (forall u :: u in m.bodies ==> u in m'.bodies && m'.bodies[u] == m.bodies[u])
    requires m'.left == m.left && Plays(t, t.queue[|s.queue|], it, |rest|, me, m')
    ensures QueueIs(t, q + [it], |rest|, me, m')
  {
    forall i | 0 <= i < |q + [it]| ensures Plays(t, t.queue[i], (q + [it])[i], |rest|, me, m') {
      if i < |q| { assert Plays(s, s.queue[i], q[i], |rest|, me, m); }
    }
  }

  /** The handles that a segment submits are submitted once, and are neither queued nor running. */
  predicate FreshSubs(subs: seq<Sub>, q: seq<Item>, users: nat, f: nat)
    decreases |subs|
  {
    subs == [] ||
    (&& (subs[0].SubHandle? && subs[0].id < users ==> subs[0].id != f && Handle(subs[0].id) !in q)
     && FreshSubs(subs[1..], q + Items([subs[0]], users), users, f))
  }

  lemma ItemsFirst(q: seq<Item>, subs: seq<Sub>, users: nat)
    requires subs != []
    ensures (q + Items([subs[0]], users)) + Items(subs[1..], users) == q + Items(subs, users)
  {
    assert [subs[0]][1..] == [];
    assert Items(subs, users) == Items([subs[0]], users) + Items(subs[1..], users);
  }

  lemma {:induction false} SubmitTurn(s: World, me: int, rest: seq<Option<Script>>, q: seq<Item>, m: Cast, f: nat, subs: seq<Sub>)
    returns (steps: seq<Step>, t: World, m': Cast)
    requires Stage(s, me, rest, q, m, Some(f)) && Performs(s, me, f, Running) && FreshSubs(subs, q, |rest|, f)
    ensures Leads(s, steps, t) && Stage(t, me, rest, q + Items(subs, |rest|), m', Some(f)) && Performs(t, me, f, Running)
    ensures t.hist.claims == s.hist.claims
    decreases |subs|
  {
    if subs == [] {
      steps, t, m' := [], s, m;
      LeadsNowhere(s);
      assert q + Items(subs, |rest|) == q;
    } else {
      var first, mid, m1 := SubmitOne(s, me, rest, q, m, f, subs[0]);
      var more;
      more, t, m' := SubmitTurn(mid, me, rest, q + Items([subs[0]], |rest|), m1, f, subs[1..]);
      steps := first + more;
      LeadsOn(s, first, mid, more, t);
      ItemsFirst(q, subs, |rest|);
    }
  }

  // ---------------------------------------------------------------- the end of the segment

  /** How a segment ends: a yield, or the function returning or throwing. */
  function EndStep(me: int, e: End): Step {
    match e
    case YieldReady(_) => Yield(me, true)
    case YieldHold(_) => Yield(me, false)
    case Return => Finish(me, false)
    case Throw => Finish(me, true)
  }

  function EndState(e: End): FiberState {
    match e
    case YieldReady(_) => READY
    case YieldHold(_) => HOLD
    case Return => TERM
    case Throw => EXCEPT
  }

  /** The state of the fiber is set, and `swapOut` comes next. */
  ghost predicate Ends(s: World, t: World, me: int, f: nat, e: End) {
    && Moved(s, t, me, f) && AtPc(t, me, InFiber(f, Leaving(f, NextOf(e).None?))) && t.fibers[f].state == EndState(e)
    && MainCtx(t.workers[me]) != Loop(SiteIdle)
  }

  lemma YieldEnds(s: World, me: int, f: nat, e: End)
    requires Performs(s, me, f, Running) && WorkerOK(s, s.workers[me]) && NextOf(e).Some?
    ensures Ends(s, BeginYield(s, me, EndState(e)), me, f, e)
  {}

  lemma FinishEnds(s: World, me: int, f: nat, e: End)
    requires Performs(s, me, f, Running) && WorkerOK(s, s.workers[me]) && NextOf(e).None?
    ensures Ends(s, BeginFinish(s, me, e.Throw?), me, f, e)
  {}

  lemma EndMoves(s: World, me: int, f: nat, e: End)
    requires Performs(s, me, f, Running) && WorkerOK(s, s.workers[me])
    ensures Enabled(s, EndStep(me, e)) && Ends(s, Apply(s, EndStep(me, e)), me, f, e)
  {
    if NextOf(e).Some? { YieldEnds(s, me, f, e); } else { FinishEnds(s, me, f, e); }
  }

  lemma SwapOutMoves(s: World, me: int, f: nat, last: bool, site: Site)
    requires AtPc(s, me, InFiber(f, Leaving(f, last))) && WorkerOK(s, s.workers[me]) && MainCtx(s.workers[me]) == Loop(site)
    ensures Enabled(s, SwapOut(me))
    ensures var t := Apply(s, SwapOut(me));
      && Moved(s, t, me, f) && AtPc(t, me, Back(site)) && t.fibers[f].state == s.fibers[f].state
      && SiteFiberOf(t.workers[me], site) == Some(f)
  {}

  lemma ReleaseMoves(s: World, me: int, f: nat, site: Site)
    requires AtPc(s, me, Back(site)) && site != SiteIdle && f in s.fibers && SiteFiberOf(s.workers[me], site) == Some(f)
    ensures Enabled(s, Release(me))
    ensures var t := Apply(s, Release(me));
      && Moved(s, t, me, f) && AtPc(t, me, Released(site)) && t.fibers == s.fibers
      && SiteFiberOf(t.workers[me], site) == Some(f)
  {}

  /** A fiber that did not yield READY is parked or recycled, and the worker is at the head again. */
  lemma ParkMoves(s: World, me: int, f: nat, site: Site)
    requires AtPc(s, me, Released(site)) && site != SiteIdle && f in s.fibers && s.fibers[f].state != READY
    requires SiteFiberOf(s.workers[me], site) == Some(f)
    ensures Enabled(s, Classify(me))
    ensures var t := Apply(s, Classify(me));
      && Moved(s, t, me, f) && AtPc(t, me, Head)
      && (site == SiteFiber ==> (Finished(t.fibers[f].state) <==> Finished(s.fibers[f].state)))
  {}

  /** A READY fiber goes to the back of the queue, unpinned. */
  lemma RequeueMoves(s: World, me: int, f: nat, site: Site)
    requires AtPc(s, me, Released(site)) && site != SiteIdle && f in s.fibers && s.fibers[f].state == READY
    requires SiteFiberOf(s.workers[me], site) == Some(f)
    ensures Enabled(s, Classify(me))
    ensures var t := Apply(s, Classify(me));
      && t.fibers == s.fibers && t.handles == s.handles && t.ctl == s.ctl && t.workers.Keys == s.workers.Keys
      && t.queue == s.queue + [FiberTask(f, ANY_THREAD)] && t.hist.claims == s.hist.claims && t.hist.nextCb == s.hist.nextCb
      && t.hist.strays == s.hist.strays && t.workers[me] == s.workers[me].(pc := Requeued(site))
  {}

  lemma DropMoves(s: World, me: int, site: Site)
    requires AtPc(s, me, Requeued(site))
    ensures Enabled(s, DropStale(me))
    ensures var t := Apply(s, DropStale(me));
      && t.fibers == s.fibers && t.handles == s.handles && t.ctl == s.ctl && t.workers.Keys == s.workers.Keys
      && t.queue == s.queue && t.hist == s.hist && AtPc(t, me, Head) && t.workers[me].idle == s.workers[me].idle
      && (t.workers[me].cbFiber == s.workers[me].cbFiber || t.workers[me].cbFiber == None)
  {}

  /** The fiber is off the thread, in state `st`, at `pc`, and the worker has it at call site `site`. */
  ghost predicate CameBack(s: World, me: int, f: nat, st: FiberState, pc: Pc, site: Site) {
    && AtPc(s, me, pc) && site != SiteIdle && f in s.fibers && s.fibers[f].state == st
    && SiteFiberOf(s.workers[me], site) == Some(f)
  }

  lemma EndTurn(s: World, me: int, rest: seq<Option<Script>>, q: seq<Item>, m: Cast, f: nat, e: End) returns (t: World)
    requires Stage(s, me, rest, q, m, Some(f)) && Performs(s, me, f, Running)
    ensures Enabled(s, EndStep(me, e)) && t == Apply(s, EndStep(me, e))
    ensures Stage(t, me, rest, q, m, Some(f)) && AtPc(t, me, InFiber(f, Leaving(f, NextOf(e).None?)))
    ensures f in t.fibers && t.fibers[f].state == EndState(e) && t.hist.claims == s.hist.claims
    ensures MainCtx(t.workers[me]) != Loop(SiteIdle)
  {
    OnStack(s, CallerOnly(me), me);
    EndMoves(s, me, f, e);
    ReachableStep(s, CallerOnly(me), EndStep(me, e));
    t := Apply(s, EndStep(me, e));
    MovedStage(s, t, me, rest, q, m, f, Some(f));
  }

  lemma SwapOutTurn(s: World, me: int, rest: seq<Option<Script>>, q: seq<Item>, m: Cast, f: nat, last: bool)
    returns (t: World, site: Site)
    requires Stage(s, me, rest, q, m, Some(f)) && AtPc(s, me, InFiber(f, Leaving(f, last))) && f in s.fibers
    requires MainCtx(s.workers[me]) != Loop(SiteIdle)
    ensures Enabled(s, SwapOut(me)) && t == Apply(s, SwapOut(me)) && Stage(t, me, rest, q, m, Some(f))
    ensures CameBack(t, me, f, s.fibers[f].state, Back(site), site) && t.hist.claims == s.hist.claims
  {
    OnStack(s, CallerOnly(me), me);
    ResumedBy(s, CallerOnly(me), me);
    site := MainCtx(s.workers[me]).site;
    SwapOutMoves(s, me, f, last, site);
    ReachableStep(s, CallerOnly(me), SwapOut(me));
    t := Apply(s, SwapOut(me));
    MovedStage(s, t, me, rest, q, m, f, Some(f));
  }

  lemma ReleaseTurn(s: World, me: int, rest: seq<Option<Script>>, q: seq<Item>, m: Cast, f: nat, st: FiberState, site: Site)
    returns (t: World)
    requires Stage(s, me, rest, q, m, Some(f)) && CameBack(s, me, f, st, Back(site), site)
    ensures Enabled(s, Release(me)) && t == Apply(s, Release(me)) && Stage(t, me, rest, q, m, Some(f))
    ensures CameBack(t, me, f, st, Released(site), site) && t.hist.claims == s.hist.claims
  {
    InHands(s, CallerOnly(me), me, f);
    ReleaseMoves(s, me, f, site);
    ReachableStep(s, CallerOnly(me), Release(me));
    t := Apply(s, Release(me));
    MovedStage(s, t, me, rest, q, m, f, Some(f));
  }

  /** From the end of the segment to the decision what becomes of the fiber. */
  lemma LeaveTurn(s: World, me: int, rest: seq<Option<Script>>, q: seq<Item>, m: Cast, f: nat, e: End)
    returns (steps: seq<Step>, t: World, site: Site)
    requires Stage(s, me, rest, q, m, Some(f)) && Performs(s, me, f, Running)
    ensures Leads(s, steps, t) && Stage(t, me, rest, q, m, Some(f))
    ensures CameBack(t, me, f, EndState(e), Released(site), site) && t.hist.claims == s.hist.claims
  {
    var s1 := EndTurn(s, me, rest, q, m, f, e);
    var s2;
    s2, site := SwapOutTurn(s1, me, rest, q, m, f, NextOf(e).None?);
    t := ReleaseTurn(s2, me, rest, q, m, f, EndState(e), site);
    steps := ThreeSteps(s, EndStep(me, e), SwapOut(me), Release(me), s1, s2, t);
  }

  lemma ThreeSteps(s: World, a: Step, b: Step, c: Step, s1: World, s2: World, t: World) returns (steps: seq<Step>)
    requires Enabled(s, a) && s1 == Apply(s, a) && Enabled(s1, b) && s2 == Apply(s1, b) && Enabled(s2, c) && t == Apply(s2, c)
    ensures Leads(s, steps, t)
  {
    LeadsNowhere(t);
    LeadsFirst(s2, c, [], t);
    LeadsFirst(s1, b, [c] + [], t);
    LeadsFirst(s, a, [b] + ([c] + []), t);
    steps := [a] + ([b] + ([c] + []));
  }

  // ---------------------------------------------------------------- what becomes of the fiber

  /** What the client's fibers have left when `f` goes on as `next`. */
  function RestAfter(rest: seq<Option<Script>>, f: nat, next: Option<Script>): (r: seq<Option<Script>>)
    ensures |r| == |rest|
  {
    if f < |rest| then rest[f := next] else rest
  }

  /** The fiber's work is accounted for again. */
  lemma SettleStage(s: World, me: int, rest: seq<Option<Script>>, q: seq<Item>, m: Cast, f: nat, next: Option<Script>)
    requires Stage(s, me, rest, q, m, Some(f))
    requires f < |rest| ==> (next.Some? <==> !Finished(s.fibers[f].state))
    ensures Stage(s, me, RestAfter(rest, f, next), q, m, None)
  {}

  lemma ParkTurn(s: World, me: int, rest: seq<Option<Script>>, q: seq<Item>, m: Cast, f: nat, e: End, site: Site)
    returns (t: World)
    requires Stage(s, me, rest, q, m, Some(f)) && CameBack(s, me, f, EndState(e), Released(site), site) && !e.YieldReady?
    ensures Enabled(s, Classify(me)) && t == Apply(s, Classify(me))
    ensures Stage(t, me, RestAfter(rest, f, NextOf(e)), q, m, None) && AtPc(t, me, Head) && t.hist.claims == s.hist.claims
  {
    InHands(s, CallerOnly(me), me, f);
    ParkMoves(s, me, f, site);
    ReachableStep(s, CallerOnly(me), Classify(me));
    t := Apply(s, Classify(me));
    MovedStage(s, t, me, rest, q, m, f, Some(f));
    SettleStage(t, me, rest, q, m, f, NextOf(e));
  }

  /** The item under which a READY fiber is queued again. */
  function Again(f: nat, users: nat, next: Script): Item {
    if f < users then Handle(f) else Body(next)
  }

  lemma RequeuePlays(s: World, t: World, me: int, users: nat, q: seq<Item>, m: Cast, f: nat, next: Script)
    requires QueueIs(s, q, users, me, m) && t.queue == s.queue + [FiberTask(f, ANY_THREAD)] && t.fibers == s.fibers
    requires f in s.fibers && s.fibers[f].state == READY && forall i :: !QueuedAt(s, i, f)
    ensures QueueIs(t, q + [Again(f, users, next)], users, me, m.(left := m.left[f := next]))
  {
    var m' := m.(left := m.left[f := next]);
    forall i | 0 <= i < |q| ensures Plays(t, t.queue[i], q[i], users, me, m') {
      assert Plays(s, s.queue[i], q[i], users, me, m) && !QueuedAt(s, i, f);
    }
  }

  lemma RequeueTurn(s: World, me: int, rest: seq<Option<Script>>, q: seq<Item>, m: Cast, f: nat, next: Script, site: Site)
    returns (t: World, m': Cast)
    requires Stage(s, me, rest, q, m, Some(f)) && CameBack(s, me, f, READY, Released(site), site)
    ensures Enabled(s, Classify(me)) && t == Apply(s, Classify(me)) && AtPc(t, me, Requeued(site))
    ensures Stage(t, me, RestAfter(rest, f, Some(next)), q + [Again(f, |rest|, next)], m', None) && t.hist.claims == s.hist.claims
  {
    InHands(s, CallerOnly(me), me, f);
    RequeueMoves(s, me, f, site);
    ReachableStep(s, CallerOnly(me), Classify(me));
    t := Apply(s, Classify(me));
    m' := m.(left := m.left[f := next]);
    RequeuePlays(s, t, me, |rest|, q, m, f, next);
    SettleStage(t, me, rest, q + [Again(f, |rest|, next)], m', f, Some(next));
  }

  lemma DropTurn(s: World, me: int, rest: seq<Option<Script>>, q: seq<Item>, m: Cast, site: Site) returns (t: World)
    requires Stage(s, me, rest, q, m, None) && AtPc(s, me, Requeued(site))
    ensures Enabled(s, DropStale(me)) && t == Apply(s, DropStale(me))
    ensures Stage(t, me, rest, q, m, None) && AtPc(t, me, Head) && t.hist.claims == s.hist.claims
  {
    DropMoves(s, me, site);
    ReachableStep(s, CallerOnly(me), DropStale(me));
    t := Apply(s, DropStale(me));
    forall i | 0 <= i < |q| ensures Plays(t, t.queue[i], q[i], |rest|, me, m) {
      assert Plays(s, s.queue[i], q[i], |rest|, me, m);
    }
  }

  function AgainItems(f: nat, users: nat, e: End): seq<Item> {
    if e.YieldReady? then [Again(f, users, e.next)] else []
  }

  lemma ReturnTurn(s: World, me: int, rest: seq<Option<Script>>, q: seq<Item>, m: Cast, f: nat, e: End, site: Site)
    returns (steps: seq<Step>, t: World, m': Cast)
    requires Stage(s, me, rest, q, m, Some(f)) && CameBack(s, me, f, EndState(e), Released(site), site)
    ensures Leads(s, steps, t) && AtPc(t, me, Head) && t.hist.claims == s.hist.claims
    ensures Stage(t, me, RestAfter(rest, f, NextOf(e)), q + AgainItems(f, |rest|, e), m', None)
  {
    if e.YieldReady? {
      var mid;
      mid, m' := RequeueTurn(s, me, rest, q, m, f, e.next, site);
      t := DropTurn(mid, me, RestAfter(rest, f, Some(e.next)), q + [Again(f, |rest|, e.next)], m', site);
      LeadsNowhere(t);
      LeadsFirst(mid, DropStale(me), [], t);
      LeadsFirst(s, Classify(me), [DropStale(me)] + [], t);
      steps := [Classify(me)] + ([DropStale(me)] + []);
    } else {
      t := ParkTurn(s, me, rest, q, m, f, e, site);
      m' := m;
      assert q + AgainItems(f, |rest|, e) == q;
      LeadsNowhere(t);
      LeadsFirst(s, Classify(me), [], t);
      steps := [Classify(me)] + [];
    }
  }

  // ---------------------------------------------------------------- a turn, and the rotation

  /** The worker is at the head of its loop, with the table before it. */
  ghost predicate Before(s: World, me: int, a: Table, m: Cast) {
    Stage(s, me, a.rest, a.queue, m, None) && AtPc(s, me, Head)
  }

  /** A segment from the switch to the head of the loop. */
  lemma SegmentTurn(s: World, me: int, rest: seq<Option<Script>>, q: seq<Item>, m: Cast, f: nat, sc: Script)
    returns (steps: seq<Step>, t: World, m': Cast)
    requires Stage(s, me, rest, q, m, Some(f)) && Performs(s, me, f, Entering) && FreshSubs(sc.subs, q, |rest|, f)
    ensures Leads(s, steps, t) && AtPc(t, me, Head) && t.hist.claims == s.hist.claims
    ensures Stage(t, me, RestAfter(rest, f, NextOf(sc.end)), q + Items(sc.subs, |rest|) + AgainItems(f, |rest|, sc.end), m', None)
  {
    var s1 := EnterTurn(s, me, rest, q, m, f);
    var sub, s2, m2 := SubmitTurn(s1, me, rest, q, m, f, sc.subs);
    var leave, s3, site := LeaveTurn(s2, me, rest, q + Items(sc.subs, |rest|), m2, f, sc.end);
    var back;
    back, t, m' := ReturnTurn(s3, me, rest, q + Items(sc.subs, |rest|), m2, f, sc.end, site);
    LeadsOn(s2, leave, s3, back, t);
    LeadsOn(s1, sub, s2, leave + back, t);
    LeadsFirst(s, EnterFiber(me), sub + (leave + back), t);
    steps := [EnterFiber(me)] + (sub + (leave + back));
  }

  /** What the turn of the first item asks of its script: handles are submitted only while free. */
  predicate FreshTurn(a: Table)
    requires a.queue != []
  {
    match ScriptOf(a.queue[0], a.rest)
    case None => true
    case Some(sc) =>
      FreshSubs(sc.subs, a.queue[1..], |a.rest|, match a.queue[0] case Handle(id) => id case Body(_) => |a.rest|)
  }

  /** The rule for clients, kept all along the rotation. */
  predicate FreshRotation(a: Table)
    decreases Work(a), |a.queue|
  {
    a.queue == [] || (FreshTurn(a) && (TurnDecreases(a); FreshRotation(Turn(a).0)))
  }

  /** The claimed task is the item: its handle, or another task for a callback. */
  predicate Claims(t: Task<nat>, it: Item, users: nat) {
    match it
    case Handle(id) => t.FiberTask? && t.fiber == id
    case Body(_) => t.CallbackTask? || t.fiber >= users
  }

  lemma {:induction false} FreshAny(subs: seq<Sub>, q: seq<Item>, users: nat, f: nat, g: nat)
    requires FreshSubs(subs, q, users, f) && f >= users && g >= users
    ensures FreshSubs(subs, q, users, g)
    decreases |subs|
  {
    if subs != [] { FreshAny(subs[1..], q + Items([subs[0]], users), users, f, g); }
  }

  /** One turn of the rotation, as a run of the worker: exactly one claim, of the first item. */
  lemma TurnRuns(s: World, me: int, a: Table, m: Cast) returns (steps: seq<Step>, t: World, m': Cast, task: Task<nat>)
    requires Before(s, me, a, m) && a.queue != [] && FreshTurn(a)
    ensures Leads(s, steps, t) && Before(t, me, Turn(a).0, m')
    ensures t.hist.claims == s.hist.claims + [Claim(me, task)] && Claims(task, a.queue[0], |a.rest|)
  {
    var it, tail := a.queue[0], a.queue[1..];
    task := s.queue[0];
    assert Plays(s, task, it, |a.rest|, me, m);
    var s1 := ScanTurn(s, me, a.rest, a.queue, m);
    if ScriptOf(it, a.rest).None? {
      var spare;
      spare, t := SkipTurn(s1, me, a.rest, tail, m, it.id);
      m' := m;
      LeadsNowhere(t);
      LeadsFirst(s1, Dispatch(me, spare), [], t);
      LeadsFirst(s, Scan(me), [Dispatch(me, spare)] + [], t);
      steps := [Scan(me)] + ([Dispatch(me, spare)] + []);
    } else {
      var more;
      more, t, m' := WorkTurn(s1, me, a, m);
      LeadsFirst(s, Scan(me), more, t);
      steps := [Scan(me)] + more;
    }
  }

  /** The turn of an item with work left, from the claim on. */
  lemma WorkTurn(s: World, me: int, a: Table, m: Cast) returns (steps: seq<Step>, t: World, m': Cast)
    requires a.queue != [] && Stage(s, me, a.rest, a.queue[1..], m, None) && AtPc(s, me, Claimed) && s.workers[me].ft.Some?
    requires Plays(s, s.workers[me].ft.value, a.queue[0], |a.rest|, me, m)
    requires ScriptOf(a.queue[0], a.rest).Some? && FreshTurn(a)
    ensures Leads(s, steps, t) && Before(t, me, Turn(a).0, m') && t.hist.claims == s.hist.claims
  {
    var it, tail, sc := a.queue[0], a.queue[1..], ScriptOf(a.queue[0], a.rest).value;
    var spare, f, s1 := SwitchTurn(s, me, a.rest, tail, m, it);
    if it.Body? { FreshAny(sc.subs, tail, |a.rest|, |a.rest|, f); }
    var more;
    more, t, m' := SegmentTurn(s1, me, a.rest, tail, m, f, sc);
    TurnIs(a, f, sc);
    LeadsFirst(s, Dispatch(me, spare), more, t);
    steps := [Dispatch(me, spare)] + more;
  }

  lemma TurnIs(a: Table, f: nat, sc: Script)
    requires a.queue != [] && FiberFor(a.queue[0], f, |a.rest|) && ScriptOf(a.queue[0], a.rest) == Some(sc)
    ensures Turn(a).0 == Table(a.queue[1..] + Items(sc.subs, |a.rest|) + AgainItems(f, |a.rest|, sc.end),
                               RestAfter(a.rest, f, NextOf(sc.end)))
  {}

  /** The items that take a turn, in order. */
  function Heads(a: Table): seq<Item>
    decreases Work(a), |a.queue|
  {
    if a.queue == [] then [] else (TurnDecreases(a); [a.queue[0]] + Heads(Turn(a).0))
  }

  /** The claims beyond the first `n` are claims of these items by `me`, in this order. */
  ghost predicate ClaimedInOrder(s: World, n: nat, items: seq<Item>, users: nat, me: int) {
    && |s.hist.claims| == n + |items|
    && forall k :: 0 <= k < |items| ==> ClaimAt(s, n + k, items[k], users, me)
  }

  /** Claim number `i` is a claim of item `it` by `me`. */
  ghost predicate ClaimAt(s: World, i: int, it: Item, users: nat, me: int) {
    0 <= i < |s.hist.claims| && s.hist.claims[i].worker == me && Claims(s.hist.claims[i].task, it, users)
  }

  /** The whole rotation, as a run of the worker. */
  lemma {:induction false} RotationRuns(s: World, me: int, a: Table, m: Cast) returns (steps: seq<Step>, t: World, m': Cast)
    requires Before(s, me, a, m) && FreshRotation(a)
    ensures Leads(s, steps, t) && Before(t, me, Table([], Rotate(a).rest), m')
    ensures s.hist.claims <= t.hist.claims && ClaimedInOrder(t, |s.hist.claims|, Heads(a), |a.rest|, me)
    decreases Work(a), |a.queue|
  {
    if a.queue == [] {
      steps, t, m' := [], s, m;
      LeadsNowhere(s);
    } else {
      TurnDecreases(a);
      RotateOnce(a);
      var first, mid, m1, task := TurnRuns(s, me, a, m);
      var more;
      more, t, m' := RotationRuns(mid, me, Turn(a).0, m1);
      steps := first + more;
      LeadsOn(s, first, mid, more, t);
      ClaimsInOrder(s, mid, t, a, me, task);
    }
  }

  /** The claim of a turn, followed by those of the turns after it. */
  lemma ClaimsInOrder(s: World, mid: World, t: World, a: Table, me: int, task: Task<nat>)
    requires a.queue != [] && mid.hist.claims == s.hist.claims + [Claim(me, task)] && Claims(task, a.queue[0], |a.rest|)
    requires mid.hist.claims <= t.hist.claims
    requires ClaimedInOrder(t, |mid.hist.claims|, Heads(Turn(a).0), |Turn(a).0.rest|, me)
    ensures s.hist.claims <= t.hist.claims && ClaimedInOrder(t, |s.hist.claims|, Heads(a), |a.rest|, me)
  {
    var n := |s.hist.claims|;
    assert t.hist.claims[n] == mid.hist.claims[n];
    assert ClaimAt(t, n, a.queue[0], |a.rest|, me);
    var later := Heads(Turn(a).0);
    var all := [a.queue[0]] + later;
    assert Heads(a) == all;
    forall k | 0 <= k < |all| ensures ClaimAt(t, n + k, all[k], |a.rest|, me) {
      if k > 0 { assert ClaimAt(t, n + 1 + (k - 1), later[k - 1], |a.rest|, me); }
    }
  }

  // ---------------------------------------------------------------- from a new scheduler

  /** Before `stop()`: the client's fibers exist and some work is queued. */
  ghost predicate Prepared(s: World, me: int, rest: seq<Option<Script>>, q: seq<Item>, m: Cast) {
    && Reachable(s, CallerOnly(me)) && s.workers == map[me := CALLER_WORKER]
    && s.ctl == Control(Some(me), INIT, false, false, true, NotCalled)
    && s.hist.strays == {} && s.hist.claims == [] && s.active == 0
    && QueueIs(s, q, |rest|, me, m) && UsersAre(s, rest, None)
    && forall u :: u in m.bodies ==> u < s.hist.nextCb
  }

  function Waiting(scripts: seq<Script>): (r: seq<Option<Script>>)
    ensures |r| == |scripts|
  {
    seq(|scripts|, i requires 0 <= i < |scripts| => Some(scripts[i]))
  }

  lemma MakesUser(s: World, t: World, scripts: seq<Script>, script: Script)
    requires UsersAre(s, Waiting(scripts), None) && forall f :: f in s.fibers <==> 0 <= f < |scripts|
    requires t.fibers == s.fibers[|scripts| := Fiber(INIT, UserFn, Entry, None, None)] && t.handles == s.handles + {|scripts|}
    ensures UsersAre(t, Waiting(scripts) + [Some(script)], None)
    ensures forall f :: f in t.fibers <==> 0 <= f <= |scripts|
  {}

  lemma MakesOne(s: World, me: int, scripts: seq<Script>, script: Script)
    requires Prepared(s, me, Waiting(scripts), [], Cast(map[], map[])) && forall f :: f in s.fibers <==> 0 <= f < |scripts|
    requires Reachable(Apply(s, CreateFiber(|scripts|)), CallerOnly(me))
    ensures Prepared(Apply(s, CreateFiber(|scripts|)), me, Waiting(scripts) + [Some(script)], [], Cast(map[], map[]))
    ensures forall f :: f in Apply(s, CreateFiber(|scripts|)).fibers <==> 0 <= f <= |scripts|
  {
    MakesUser(s, Apply(s, CreateFiber(|scripts|)), scripts, script);
  }

  lemma {:induction false} MakeFibers(me: int, scripts: seq<Script>) returns (steps: seq<Step>, s: World)
    requires me != ANY_THREAD
    ensures Leads(Init(CallerOnly(me)), steps, s) && Prepared(s, me, Waiting(scripts), [], Cast(map[], map[]))
    ensures forall f :: f in s.fibers <==> 0 <= f < |scripts|
    decreases |scripts|
  {
    var c := CallerOnly(me);
    if scripts == [] {
      steps, s := [], Init(c);
      LeadsNowhere(s);
      assert ValidRun(s, []) && Run(s, []) == s && ValidConfig(c);
      assert s.workers == map[me := CALLER_WORKER];
    } else {
      var n := |scripts| - 1;
      var first, s1 := MakeFibers(me, scripts[..n]);
      var st := CreateFiber(n);
      ReachableStep(s1, c, st);
      s := Apply(s1, st);
      MakesOne(s1, me, scripts[..n], scripts[n]);
      assert Waiting(scripts) == Waiting(scripts[..n]) + [Some(scripts[n])];
      LeadsNowhere(s);
      LeadsFirst(s1, st, [], s);
      LeadsOn(Init(c), first, s1, [st] + [], s);
      steps := first + ([st] + []);
    }
  }

  lemma ClientMoves(s: World, me: int, sub: Submission, pin: int)
    requires CanSubmit(s, sub) && s.ctl.stopPc == NotCalled
    ensures Enabled(s, ClientSubmit(sub, pin))
    ensures var t := Apply(s, ClientSubmit(sub, pin));
      && t.fibers == s.fibers && t.handles == s.handles && t.workers == s.workers && t.ctl == s.ctl && t.active == s.active
      && t.queue == s.queue + [SubmittedTask(s, sub, pin)] && t.hist.claims == s.hist.claims && t.hist.strays == s.hist.strays
      && t.hist.nextCb == s.hist.nextCb + (if sub.SubCallback? then 1 else 0)
  {}

  /** While no worker has started, a fiber that is not queued is free. */
  lemma FreeBefore(s: World, me: int, rest: seq<Option<Script>>, q: seq<Item>, m: Cast, id: nat)
    requires Prepared(s, me, rest, q, m) && id < |rest| && Handle(id) !in q
    ensures Free(s, id)
  {
    forall i | 0 <= i < |s.queue| ensures !(s.queue[i].FiberTask? && s.queue[i].fiber == id) {
      assert Plays(s, s.queue[i], q[i], |rest|, me, m) && q[i] in q;
    }
    forall w | w in s.workers ensures !Holds(s.workers[w], id) {}
  }

  lemma QueueOne(s: World, me: int, rest: seq<Option<Script>>, q: seq<Item>, m: Cast, sub: Sub)
    returns (steps: seq<Step>, t: World, m': Cast)
    requires Prepared(s, me, rest, q, m) && (sub.SubHandle? && sub.id < |rest| ==> Handle(sub.id) !in q)
    ensures Leads(s, steps, t) && Prepared(t, me, rest, q + Items([sub], |rest|), m')
  {
    assert [sub][1..] == [];
    if sub.SubHandle? && sub.id >= |rest| {
      steps, t, m' := [], s, m;
      LeadsNowhere(s);
      assert q + Items([sub], |rest|) == q;
      return;
    }
    var what := if sub.SubHandle? then SubFiber(sub.id) else SubCallback;
    var st := ClientSubmit(what, PinOf(sub.pinned, me));
    if sub.SubHandle? { FreeBefore(s, me, rest, q, m, sub.id); }
    ClientMoves(s, me, what, PinOf(sub.pinned, me));
    ReachableStep(s, CallerOnly(me), st);
    t := Apply(s, st);
    m' := if sub.SubBody? then m.(bodies := m.bodies[s.hist.nextCb := sub.body]) else m;
    var it := if sub.SubHandle? then Handle(sub.id) else Body(sub.body);
    assert Items([sub], |rest|) == [it];
    PushPlays(s, t, me, rest, q, m, m', it);
    LeadsNowhere(t);
    LeadsFirst(s, st, [], t);
    steps := [st] + [];
  }

  lemma {:induction false} QueueAll(s: World, me: int, rest: seq<Option<Script>>, q: seq<Item>, m: Cast, subs: seq<Sub>)
    returns (steps: seq<Step>, t: World, m': Cast)
    requires Prepared(s, me, rest, q, m) && FreshSubs(subs, q, |rest|, |rest|)
    ensures Leads(s, steps, t) && Prepared(t, me, rest, q + Items(subs, |rest|), m')
    decreases |subs|
  {
    if subs == [] {
      steps, t, m' := [], s, m;
      LeadsNowhere(s);
      assert q + Items(subs, |rest|) == q;
    } else {
      var first, mid, m1 := QueueOne(s, me, rest, q, m, subs[0]);
      var more;
      more, t, m' := QueueAll(mid, me, rest, q + Items([subs[0]], |rest|), m1, subs[1..]);
      steps := first + more;
      LeadsOn(s, first, mid, more, t);
      ItemsFirst(q, subs, |rest|);
    }
  }

  // ---------------------------------------------------------------- stop

  /** A step of `stop()` leaves the queue and the fibers alone. */
  ghost predicate SameWork(s: World, t: World) {
    && t.queue == s.queue && t.fibers == s.fibers && t.handles == s.handles && t.active == s.active
    && t.hist == s.hist && t.workers.Keys == s.workers.Keys && t.ctl.root == s.ctl.root
  }

  lemma StopsEarly(s: World, me: int)
    requires s.workers == map[me := CALLER_WORKER] && s.ctl.root == Some(me) && s.ctl.rootState == INIT && s.active == 0
    requires s.ctl.autoStop && s.ctl.stopPc == AutoStopSet
    ensures Enabled(s, StopEarly) && SameWork(s, Apply(s, StopEarly))
    ensures var t := Apply(s, StopEarly);
      if s.queue == [] then t.ctl.stopPc == Returned
      else t.workers == s.workers && t.ctl == s.ctl.(isStopping := true, stopPc := PastEarlyTest)
  {}

  lemma CallsRoot(s: World, me: int)
    requires s.workers == map[me := CALLER_WORKER] && s.ctl.root == Some(me) && s.ctl.stopPc == FlagsSet && s.queue != []
    ensures Enabled(s, StopDispatch) && SameWork(s, Apply(s, StopDispatch))
    ensures var t := Apply(s, StopDispatch);
      AtPc(t, me, Boot) && t.workers[me].cbFiber == None && t.ctl.stopPc == InCall
  {}

  lemma BootsLoop(s: World, me: int, id: nat)
    requires AtPc(s, me, Boot) && s.workers[me].cbFiber == None && id !in s.fibers
    ensures Enabled(s, BootWorker(me, id))
    ensures var t := Apply(s, BootWorker(me, id));
      && t.queue == s.queue && t.handles == s.handles && t.hist == s.hist && t.ctl == s.ctl && t.workers.Keys == s.workers.Keys
      && AtPc(t, me, Head) && t.workers[me].idle == Some(id) && t.workers[me].cbFiber == None
      && t.fibers == s.fibers[id := Fiber(INIT, IdleFn, Entry, None, None)]
  {}

  lemma SamePlays(s: World, t: World, me: int, q: seq<Item>, users: nat, m: Cast)
    requires QueueIs(s, q, users, me, m) && t.queue == s.queue
    requires forall f :: f in s.fibers ==> f in t.fibers && t.fibers[f] == s.fibers[f]
    ensures QueueIs(t, q, users, me, m)
  {
    forall i | 0 <= i < |q| ensures Plays(t, t.queue[i], q[i], users, me, m) {
      assert Plays(s, s.queue[i], q[i], users, me, m);
    }
  }

  /** `stop()` up to its flags. */
  lemma SetsFlags(s: World, me: int, rest: seq<Option<Script>>, q: seq<Item>, m: Cast) returns (steps: seq<Step>, t: World)
    requires Prepared(s, me, rest, q, m) && q != []
    ensures Leads(s, steps, t) && Reachable(t, CallerOnly(me)) && SameWork(s, t) && t.workers == s.workers
    ensures t.ctl.stopPc == FlagsSet
  {
    var c := CallerOnly(me);
    ReachableStep(s, c, StopCall);
    var s1 := Apply(s, StopCall);
    StopsEarly(s1, me);
    ReachableStep(s1, c, StopEarly);
    var s2 := Apply(s1, StopEarly);
    ReachableStep(s2, c, StopFlag);
    t := Apply(s2, StopFlag);
    steps := ThreeSteps(s, StopCall, StopEarly, StopFlag, s1, s2, t);
  }

  /** The call, and the first step of the caller's worker. */
  lemma EntersRun(s: World, me: int, users: nat) returns (steps: seq<Step>, t: World, idle: nat)
    requires Reachable(s, CallerOnly(me)) && s.workers == map[me := CALLER_WORKER] && s.ctl.root == Some(me)
    requires s.ctl.stopPc == FlagsSet && s.queue != [] && forall id :: 0 <= id < users ==> id in s.fibers
    ensures Leads(s, steps, t) && Reachable(t, CallerOnly(me)) && t.ctl.root == Some(me) && t.ctl.stopPc == InCall
    ensures t.queue == s.queue && t.handles == s.handles && t.hist == s.hist && t.workers.Keys == s.workers.Keys
    ensures AtPc(t, me, Head) && t.workers[me].idle == Some(idle) && t.workers[me].cbFiber == None
    ensures idle !in s.fibers && idle >= users && t.fibers == s.fibers[idle := Fiber(INIT, IdleFn, Entry, None, None)]
  {
    var c := CallerOnly(me);
    CallsRoot(s, me);
    ReachableStep(s, c, StopDispatch);
    var s1 := Apply(s, StopDispatch);
    idle := Unused(s1.fibers.Keys);
    assert users > 0 ==> users - 1 in s1.fibers.Keys;
    BootsLoop(s1, me, idle);
    ReachableStep(s1, c, BootWorker(me, idle));
    t := Apply(s1, BootWorker(me, idle));
    LeadsNowhere(t);
    LeadsFirst(s1, BootWorker(me, idle), [], t);
    LeadsFirst(s, StopDispatch, [BootWorker(me, idle)] + [], t);
    steps := [StopDispatch] + ([BootWorker(me, idle)] + []);
  }

  /** `stop()` up to the head of the caller's worker. */
  lemma EnterLoop(s: World, me: int, rest: seq<Option<Script>>, q: seq<Item>, m: Cast) returns (steps: seq<Step>, t: World)
    requires Prepared(s, me, rest, q, m) && q != []
    ensures Leads(s, steps, t) && Before(t, me, Table(q, rest), m) && t.hist.claims == []
  {
    var first, mid := SetsFlags(s, me, rest, q, m);
    var more, idle;
    more, t, idle := EntersRun(mid, me, |rest|);
    LeadsOn(s, first, mid, more, t);
    steps := first + more;
    SamePlays(s, t, me, q, |rest|, m);
  }

  /** `stop()` with nothing queued returns at once. */
  lemma ReturnAtOnce(s: World, me: int, rest: seq<Option<Script>>, m: Cast) returns (steps: seq<Step>, t: World)
    requires Prepared(s, me, rest, [], m)
    ensures Leads(s, steps, t) && t.ctl.stopPc == Returned && t.queue == []
  {
    var s1 := Apply(s, StopCall);
    StopsEarly(s1, me);
    t := Apply(s1, StopEarly);
    LeadsNowhere(t);
    LeadsFirst(s1, StopEarly, [], t);
    LeadsFirst(s, StopCall, [StopEarly] + [], t);
    steps := [StopCall] + ([StopEarly] + []);
  }

  /** The single worker's rotation is a run of the transition system. For all scripts of the client's
      fibers and all submissions that keep to the rule for handles, there is a run of a new scheduler
      with the caller's thread as its only worker that claims exactly the items that take a turn, in
      the order of the rotation, comes to a state where each fiber has left what the rotation leaves
      it and the queue is empty, and goes on to the return of `stop()`. */
  lemma RotationIsARun(me: int, scripts: seq<Script>, subs: seq<Sub>)
    returns (first: seq<Step>, mid: World, second: seq<Step>, t: World)
    requires me != ANY_THREAD && FreshSubs(subs, [], |scripts|, |scripts|)
    requires FreshRotation(Table(Items(subs, |scripts|), Waiting(scripts)))
    ensures var a := Table(Items(subs, |scripts|), Waiting(scripts));
      && Leads(Init(CallerOnly(me)), first, mid) && mid.queue == []
      && ClaimedInOrder(mid, 0, Heads(a), |scripts|, me) && UsersAre(mid, Rotate(a).rest, None)
    ensures Leads(mid, second, t) && t.ctl.stopPc == Returned && t.queue == []
  {
    var a := Table(Items(subs, |scripts|), Waiting(scripts));
    var make, s1 := MakeFibers(me, scripts);
    var queue, s2, m := QueueAll(s1, me, a.rest, [], Cast(map[], map[]), subs);
    assert [] + Items(subs, |scripts|) == a.queue;
    LeadsOn(Init(CallerOnly(me)), make, s1, queue, s2);
    if a.queue == [] {
      first, mid := make + queue, s2;
      second, t := ReturnAtOnce(s2, me, a.rest, m);
    } else {
      var enter, s3 := EnterLoop(s2, me, a.rest, a.queue, m);
      var run, m';
      run, mid, m' := RotationRuns(s3, me, a, m);
      LeadsOn(s2, enter, s3, run, mid);
      LeadsOn(Init(CallerOnly(me)), make + queue, s2, enter + run, mid);
      first := make + queue + (enter + run);
      second, t := Close(mid, CallerOnly(me));
    }
  }
}
