/** Exactly-once dispatch: what is queued is claimed at most once by a matching worker, and the
    function of every accepted callback is entered exactly once. */
module SchedulerHistory {
  import opened Tasks
  import opened SchedulerModel
  import opened SchedulerInvariant
  import opened SchedulerSteps
  import opened SchedulerShutdown

  function ClaimedTasks(claims: seq<Claim>): (r: seq<Task<nat>>)
    ensures |r| == |claims|
  {
    seq(|claims|, i requires 0 <= i < |claims| => claims[i].task)
  }

  /** Every task ever queued is still queued or was claimed, counted with multiplicity. */
  ghost predicate Conserved(s: World) {
    multiset(s.hist.pushed) == multiset(s.queue) + multiset(ClaimedTasks(s.hist.claims))
  }

  ghost predicate PinsRespected(s: World) {
    forall i :: 0 <= i < |s.hist.claims| ==> PinAllows(s.hist.claims[i].task.thread, s.hist.claims[i].worker)
  }

  ghost predicate InQueue(s: World, i: int, u: nat) {
    0 <= i < |s.queue| && s.queue[i].CallbackTask? && s.queue[i].cb == u
  }

  ghost predicate InClaims(s: World, i: int, u: nat) {
    0 <= i < |s.hist.claims| && s.hist.claims[i].task.CallbackTask? && s.hist.claims[i].task.cb == u
  }

  ghost predicate Accepted(s: World, u: nat) {
    (exists i :: InQueue(s, i, u)) || (exists i :: InClaims(s, i, u))
  }

  ghost predicate WasClaimed(s: World, u: nat) {
    exists i :: InClaims(s, i, u)
  }

  ghost predicate Pending(s: World, u: nat) {
    exists w :: PendingAt(s, w, u)
  }

  /** Callback `u` is in the hands of worker `w`, its function not entered yet. */
  predicate PendingAt(s: World, w: int, u: nat) {
    w in s.workers &&
    match s.workers[w].pc
    case Claimed => s.workers[w].ft.Some? && s.workers[w].ft.value.CallbackTask? && s.workers[w].ft.value.cb == u
    case InFiber(e, phase) =>
      phase == Entering && e in s.fibers && s.fibers[e].ctx == Entry && s.fibers[e].fn == TaskFn(u)
    case _ => false
  }

  /** Callback numbers are handed out once, and each is in exactly one place. */
  ghost predicate NumbersOK(s: World) {
    && (forall u: nat :: u < s.hist.nextCb <==> Accepted(s, u))
    && (forall i, j, u: nat :: InQueue(s, i, u) && InQueue(s, j, u) ==> i == j)
    && (forall i, j, u: nat :: InClaims(s, i, u) && InClaims(s, j, u) ==> i == j)
    && (forall i, j, u: nat :: InQueue(s, i, u) ==> !InClaims(s, j, u))
  }

  /** A fiber that has not started holds no callback: callbacks are bound as they are switched to. */
  ghost predicate NoTaskWaits(s: World) {
    forall f :: f in s.fibers && s.fibers[f].state == INIT ==> !s.fibers[f].fn.TaskFn?
  }

  ghost predicate StartsOK(s: World) {
    && NoTaskWaits(s)
    && (forall i, j :: 0 <= i < j < |s.hist.started| ==> s.hist.started[i] != s.hist.started[j])
    && (forall u: nat :: u in s.hist.started ==> WasClaimed(s, u) && !Pending(s, u))
    && (forall u: nat :: WasClaimed(s, u) ==> u in s.hist.started || Pending(s, u))
    && (forall u: nat :: Pending(s, u) ==> WasClaimed(s, u))
    && (forall v, w, u: nat :: PendingAt(s, v, u) && PendingAt(s, w, u) ==> v == w)
  }

  ghost predicate HistoryOK(s: World) {
    Conserved(s) && PinsRespected(s) && NumbersOK(s) && StartsOK(s)
  }

  lemma InitHistory(c: Config)
    requires ValidConfig(c)
    ensures HistoryOK(Init(c))
  {}

  // ---------------------------------------------------------------- steps that move no callback

  /** Nothing callbacks depend on has changed. */
  ghost predicate SameCallbacks(s: World, t: World) {
    && t.hist.claims == s.hist.claims && t.hist.started == s.hist.started && t.hist.nextCb == s.hist.nextCb
    && (forall i, u: nat :: InQueue(t, i, u) <==> InQueue(s, i, u))
    && (forall w, u: nat :: PendingAt(t, w, u) <==> PendingAt(s, w, u))
    && NoTaskWaits(t)
  }

  lemma KeepCallbacks(s: World, t: World)
    requires NumbersOK(s) && StartsOK(s) && PinsRespected(s) && SameCallbacks(s, t)
    ensures NumbersOK(t) && StartsOK(t) && PinsRespected(t)
  {
    assert forall i, u: nat :: InClaims(t, i, u) <==> InClaims(s, i, u);
    assert forall u: nat :: WasClaimed(t, u) <==> WasClaimed(s, u);
    assert forall u: nat :: Pending(t, u) <==> Pending(s, u);
    assert forall u: nat :: Accepted(t, u) <==> Accepted(s, u);
  }

  /** Steps of `w` do not change what the others have pending. */
  lemma OthersPending(s: World, t: World, w: int, v: int, u: nat)
    requires Core(s) && TouchesOwn(s, t, w) && v != w
    requires t.workers.Keys == s.workers.Keys && (v in s.workers ==> t.workers[v] == s.workers[v])
    ensures PendingAt(t, v, u) <==> PendingAt(s, v, u)
  {
    if v in s.workers {
      assert WorkerOK(s, s.workers[v]);
      if s.workers[v].pc.InFiber? { RunnerHolds(s, v, s.workers[v].pc.exec); }
    }
  }

  /** The step keeps queue and history, and `w` has the same callback pending. */
  ghost predicate Quiet(s: World, t: World, w: int) {
    && t.queue == s.queue && t.hist == s.hist.(resumed := t.hist.resumed)
    && (forall u: nat :: PendingAt(t, w, u) <==> PendingAt(s, w, u))
    && NoTaskWaits(t)
  }

  lemma QuietHistory(s: World, t: World, w: int)
    requires Core(s) && HistoryOK(s) && Quiet(s, t, w) && TouchesOwn(s, t, w)
    requires t.workers.Keys == s.workers.Keys && (forall v :: v in s.workers && v != w ==> t.workers[v] == s.workers[v])
    ensures HistoryOK(t)
  {
    forall v, u: nat ensures PendingAt(t, v, u) <==> PendingAt(s, v, u) {
      if v != w { OthersPending(s, t, w, v, u); }
    }
    assert forall i, u: nat :: InQueue(t, i, u) <==> InQueue(s, i, u);
    KeepCallbacks(s, t);
  }

  lemma QuietYield(s: World, st: Step)
    requires ActorOK(s, st) && NoTaskWaits(s) && Enabled(s, st) && (st.Yield? || st.SwapOut?)
    ensures Quiet(s, Apply(s, st), Actor(st))
  {}

  lemma QuietFinish(s: World, st: Step)
    requires ActorOK(s, st) && NoTaskWaits(s) && Enabled(s, st) && st.Finish?
    ensures Quiet(s, Apply(s, st), Actor(st))
  {}

  lemma QuietIdleCheck(s: World, st: Step)
    requires ActorOK(s, st) && NoTaskWaits(s) && Enabled(s, st) && st.IdleCheck?
    ensures Quiet(s, Apply(s, st), Actor(st))
  {}

  lemma QuietLoop(s: World, st: Step)
    requires ActorOK(s, st) && NoTaskWaits(s) && Enabled(s, st)
    requires st.BootWorker? || st.Release? || st.DropStale? || EmptyScan(s, st)
    ensures Quiet(s, Apply(s, st), Actor(st))
  {}

  lemma QuietIdle(s: World, st: Step)
    requires ActorOK(s, st) && NoTaskWaits(s) && Enabled(s, st) && st.IdleOrExit?
    ensures Quiet(s, Apply(s, st), st.w)
  {}

  /** Switching to a fiber, or to the fiber a claimed callback was bound to, starts nothing yet. */
  lemma QuietDispatch(s: World, st: Step)
    requires ActorOK(s, st) && NoTaskWaits(s) && Enabled(s, st) && st.Dispatch?
    ensures Quiet(s, Apply(s, st), st.w)
  {}

  // ---------------------------------------------------------------- steps that move a task

  lemma ClaimConserves(s: World, w: int, k: nat)
    requires Conserved(s) && w in s.workers && k == FirstEligible(s.queue, w, Executing(s)) && k < |s.queue|
    ensures Conserved(ScanQueue(s, w))
  {
    var t := ScanQueue(s, w);
    assert ClaimedTasks(t.hist.claims) == ClaimedTasks(s.hist.claims) + [s.queue[k]];
  }

  /** Where the callbacks are after the claim of entry `k`. */
  lemma ClaimPlaces(s: World, w: int, k: nat)
    requires w in s.workers && k == FirstEligible(s.queue, w, Executing(s)) && k < |s.queue|
    ensures var t := ScanQueue(s, w);
      && (forall i, u: nat :: InQueue(t, i, u) ==> InQueue(s, if i < k then i else i + 1, u))
      && (forall i, u: nat :: InQueue(s, i, u) && i != k ==> InQueue(t, if i < k then i else i - 1, u))
      && (forall i, u: nat :: InClaims(t, i, u) <==> InClaims(s, i, u) || (i == |s.hist.claims| && InQueue(s, k, u)))
  {}

  lemma ClaimNumbers(s: World, w: int, k: nat)
    requires NumbersOK(s) && w in s.workers && k == FirstEligible(s.queue, w, Executing(s)) && k < |s.queue|
    ensures NumbersOK(ScanQueue(s, w))
    ensures forall u: nat :: WasClaimed(ScanQueue(s, w), u) <==> WasClaimed(s, u) || InQueue(s, k, u)
  {
    var t := ScanQueue(s, w);
    var n := |s.hist.claims|;
    ClaimPlaces(s, w, k);
    assert forall u: nat :: InQueue(s, k, u) ==> InClaims(t, n, u);
    forall u: nat ensures Accepted(t, u) <==> Accepted(s, u) {
      if i :| InQueue(s, i, u) {
        assert i != k ==> InQueue(t, if i < k then i else i - 1, u);
      }
      if i :| InClaims(s, i, u) { assert InClaims(t, i, u); }
    }
  }

  lemma ClaimHistory(s: World, w: int)
    requires Inv(s) && HistoryOK(s) && AtPc(s, w, Head) && FirstEligible(s.queue, w, Executing(s)) < |s.queue|
    ensures HistoryOK(ScanQueue(s, w))
  {
    var t := ScanQueue(s, w);
    var k := FirstEligible(s.queue, w, Executing(s));
    ClaimConserves(s, w, k);
    ClaimNumbers(s, w, k);
    assert TouchesOwn(s, t, w);
    forall v, u: nat ensures PendingAt(t, v, u) <==> PendingAt(s, v, u) || (v == w && InQueue(s, k, u)) {
      if v != w { OthersPending(s, t, w, v, u); }
    }
    assert forall u: nat :: InQueue(s, k, u) ==> !WasClaimed(s, u);
    forall u: nat ensures Pending(t, u) <==> Pending(s, u) || InQueue(s, k, u) {
      if v :| PendingAt(s, v, u) { assert PendingAt(t, v, u); }
      if InQueue(s, k, u) { assert PendingAt(t, w, u); }
    }
    forall v, z, u: nat | PendingAt(t, v, u) && PendingAt(t, z, u) ensures v == z {
      assert PendingAt(s, v, u) ==> Pending(s, u);
      assert PendingAt(s, z, u) ==> Pending(s, u);
    }
  }

  /** Entering a callback fiber turns its callback from pending into started. */
  lemma EnterHistory(s: World, w: int)
    requires Inv(s) && HistoryOK(s) && Enabled(s, EnterFiber(w))
    ensures HistoryOK(Enter(s, w))
  {
    var t := Enter(s, w);
    var e := s.workers[w].pc.exec;
    assert WorkerOK(s, s.workers[w]);
    EnterTouches(s, w);
    assert forall u: nat :: !PendingAt(t, w, u);
    forall v, u: nat | v != w ensures PendingAt(t, v, u) <==> PendingAt(s, v, u) { OthersPending(s, t, w, v, u); }
    if s.fibers[e].ctx == Entry && s.fibers[e].fn.TaskFn? {
      StartOne(s, t, w, s.fibers[e].fn.uid);
    } else {
      assert t.hist == s.hist && forall u: nat :: !PendingAt(s, w, u);
      KeepCallbacks(s, t);
    }
  }

  lemma EnterTouches(s: World, w: int)
    requires Inv(s) && Enabled(s, EnterFiber(w))
    ensures TouchesOwn(s, Enter(s, w), w)
    ensures var e := s.workers[w].pc.exec;
      Enter(s, w).queue == s.queue && Enter(s, w).hist == s.hist.(started := s.hist.started +
        if s.fibers[e].ctx == Entry && s.fibers[e].fn.TaskFn? then [s.fibers[e].fn.uid] else [])
    ensures forall f :: f in Enter(s, w).fibers && Enter(s, w).fibers[f].state == INIT ==> f in s.fibers && Enter(s, w).fibers[f] == s.fibers[f]
  {
    assert WorkerOK(s, s.workers[w]);
    RunnerHolds(s, w, s.workers[w].pc.exec);
  }

  lemma StartOne(s: World, t: World, w: int, a: nat)
    requires HistoryOK(s) && PendingAt(s, w, a)
    requires t.queue == s.queue && t.hist == s.hist.(started := s.hist.started + [a])
    requires forall u: nat :: !PendingAt(t, w, u)
    requires forall v, u: nat :: v != w ==> (PendingAt(t, v, u) <==> PendingAt(s, v, u))
    requires NoTaskWaits(t)
    requires forall u: nat :: PendingAt(s, w, u) ==> u == a
    ensures HistoryOK(t)
  {
    assert forall i, u: nat :: InQueue(t, i, u) <==> InQueue(s, i, u);
    assert forall i, u: nat :: InClaims(t, i, u) <==> InClaims(s, i, u);
    assert forall u: nat :: WasClaimed(t, u) <==> WasClaimed(s, u);
    assert forall u: nat :: Accepted(t, u) <==> Accepted(s, u);
    assert Pending(s, a);
    forall u: nat ensures Pending(t, u) <==> Pending(s, u) && u != a {
      if v :| PendingAt(t, v, u) { assert PendingAt(s, v, u); }
      if Pending(s, u) && u != a {
        var v :| PendingAt(s, v, u);
        assert PendingAt(t, v, u);
      }
    }
  }

  lemma PushHistory(s: World, t: World, task: Task<nat>)
    requires HistoryOK(s)
    requires t.queue == s.queue + [task] && t.hist.pushed == s.hist.pushed + [task]
    requires t.hist.claims == s.hist.claims && t.hist.started == s.hist.started
    requires t.hist.nextCb == s.hist.nextCb + if task.CallbackTask? then 1 else 0
    requires task.CallbackTask? ==> task.cb == s.hist.nextCb
    requires forall w, u: nat :: PendingAt(t, w, u) <==> PendingAt(s, w, u)
    requires NoTaskWaits(t)
    ensures HistoryOK(t)
  {
    PushNumbers(s, t, task);
    assert forall i, u: nat :: InClaims(t, i, u) <==> InClaims(s, i, u);
    assert forall u: nat :: WasClaimed(t, u) <==> WasClaimed(s, u);
    assert forall u: nat :: Pending(t, u) <==> Pending(s, u);
  }

  lemma PushNumbers(s: World, t: World, task: Task<nat>)
    requires NumbersOK(s) && t.queue == s.queue + [task] && t.hist.claims == s.hist.claims
    requires t.hist.nextCb == s.hist.nextCb + if task.CallbackTask? then 1 else 0
    requires task.CallbackTask? ==> task.cb == s.hist.nextCb
    ensures NumbersOK(t)
  {
    var n := |s.queue|;
    assert forall i, u: nat :: InQueue(t, i, u) <==> InQueue(s, i, u) || (i == n && task.CallbackTask? && task.cb == u);
    assert forall i, u: nat :: InClaims(t, i, u) <==> InClaims(s, i, u);
    assert forall i, u: nat :: InQueue(s, i, u) || InClaims(s, i, u) ==> Accepted(s, u);
    forall u: nat ensures Accepted(t, u) <==> Accepted(s, u) || (task.CallbackTask? && task.cb == u) {
      if task.CallbackTask? && task.cb == u { assert InQueue(t, n, u); }
      if i :| InQueue(s, i, u) { assert InQueue(t, i, u); }
      if i :| InClaims(s, i, u) { assert InClaims(t, i, u); }
    }
  }

  lemma ClassifyPending(s: World, w: int, v: int, u: nat)
    requires Inv(s) && Enabled(s, Classify(w))
    ensures PendingAt(ClassifyFiber(s, w), v, u) <==> PendingAt(s, v, u)
  {
    if v != w {
      ActorIsOK(s, Classify(w));
      ClassifyTouches(s, Classify(w));
      OthersPending(s, ClassifyFiber(s, w), w, v, u);
    }
  }

  lemma RequeueHistory(s: World, w: int)
    requires Inv(s) && HistoryOK(s) && Enabled(s, Classify(w)) && s.fibers[ReturnedFiber(s, w)].state == READY
    ensures HistoryOK(ClassifyFiber(s, w))
  {
    var t := ClassifyFiber(s, w);
    forall v, u: nat ensures PendingAt(t, v, u) <==> PendingAt(s, v, u) { ClassifyPending(s, w, v, u); }
    PushHistory(s, t, FiberTask(ReturnedFiber(s, w), ANY_THREAD));
  }

  lemma ClassifyHistory(s: World, w: int)
    requires Inv(s) && HistoryOK(s) && Enabled(s, Classify(w))
    ensures HistoryOK(ClassifyFiber(s, w))
  {
    if s.fibers[ReturnedFiber(s, w)].state == READY {
      RequeueHistory(s, w);
    } else {
      ActorIsOK(s, Classify(w));
      ClassifyTouches(s, Classify(w));
      ParkHistory(s, w);
    }
  }

  lemma ParkHistory(s: World, w: int)
    requires Inv(s) && HistoryOK(s) && Enabled(s, Classify(w)) && s.fibers[ReturnedFiber(s, w)].state != READY
    requires TouchesOwn(s, ClassifyFiber(s, w), w)
    ensures HistoryOK(ClassifyFiber(s, w))
  {
    assert WorkerOK(s, s.workers[w]);
    QuietPark(s, w);
    QuietHistory(s, ClassifyFiber(s, w), w);
  }

  lemma QuietPark(s: World, w: int)
    requires Enabled(s, Classify(w)) && WorkerOK(s, s.workers[w]) && NoTaskWaits(s)
    requires s.fibers[ReturnedFiber(s, w)].state != READY
    ensures Quiet(s, ClassifyFiber(s, w), w)
  {}

  /** A client step changes only fibers that no worker holds. */
  lemma ClientHistory(s: World, st: Step)
    requires Inv(s) && HistoryOK(s) && Enabled(s, st) && IsClient(st)
    ensures HistoryOK(Apply(s, st))
  {
    var t := Apply(s, st);
    ClientShape(s, st);
    forall w, u: nat ensures PendingAt(t, w, u) <==> PendingAt(s, w, u) { ClientPending(s, st, w, u); }
    if st.ClientSubmit? {
      PushHistory(s, t, SubmittedTask(s, st.sub, st.pin));
    } else if st.TaskSubmit? {
      PushHistory(s, t, SubmittedTask(s, st.sub, st.pin));
    } else {
      assert t.hist == s.hist && t.queue == s.queue;
      assert forall i, u: nat :: InQueue(t, i, u) <==> InQueue(s, i, u);
      KeepCallbacks(s, t);
    }
  }

  lemma ClientPending(s: World, st: Step, w: int, u: nat)
    requires Inv(s) && Enabled(s, st) && IsClient(st)
    ensures PendingAt(Apply(s, st), w, u) <==> PendingAt(s, w, u)
  {
    if w in s.workers {
      assert WorkerOK(s, s.workers[w]);
      if st.ResetFiber? { Unheld(s, st.id); }
      if s.workers[w].pc.InFiber? { RunnerHolds(s, w, s.workers[w].pc.exec); }
    }
  }

  lemma StopKeeps(s: World, t: World)
    requires HistoryOK(s) && StopOnly(s, t)
    ensures HistoryOK(t)
  {
    assert forall w, u: nat :: PendingAt(t, w, u) <==> PendingAt(s, w, u);
    assert forall i, u: nat :: InQueue(t, i, u) <==> InQueue(s, i, u);
    KeepCallbacks(s, t);
  }

  lemma StopHistory(s: World, st: Step)
    requires Inv(s) && Protocol(s) && HistoryOK(s) && Enabled(s, st) && IsStop(st)
    ensures HistoryOK(Apply(s, st))
  {
    StopShape(s, st);
    StopKeeps(s, Apply(s, st));
  }

  lemma ActorHistory(s: World, st: Step)
    requires Inv(s) && HistoryOK(s) && Enabled(s, st) && !IsClient(st) && !IsStop(st)
    requires !st.EnterFiber? && !st.Classify? && (st.Scan? ==> EmptyScan(s, st))
    ensures HistoryOK(Apply(s, st))
  {
    var w := Actor(st);
    ActorIsOK(s, st);
    ActorQuiet(s, st);
    OnlyActor(s, st);
    QuietHistory(s, Apply(s, st), w);
  }

  lemma ActorQuiet(s: World, st: Step)
    requires ActorOK(s, st) && NoTaskWaits(s) && Enabled(s, st) && !IsClient(st) && !IsStop(st)
    requires !st.EnterFiber? && !st.Classify? && (st.Scan? ==> EmptyScan(s, st))
    ensures Quiet(s, Apply(s, st), Actor(st)) && TouchesOwn(s, Apply(s, st), Actor(st))
  {
    if st.Dispatch? { QuietDispatch(s, st); SwitchTouches(s, st); }
    else if st.IdleOrExit? { QuietIdle(s, st); SwitchTouches(s, st); }
    else if st.BootWorker? || st.Scan? || st.Release? { QuietLoop(s, st); LoopTouches(s, st); }
    else if st.DropStale? { QuietLoop(s, st); ClassifyTouches(s, st); }
    else if st.Finish? { QuietFinish(s, st); FiberTouches(s, st); }
    else if st.IdleCheck? { QuietIdleCheck(s, st); FiberTouches(s, st); }
    else { QuietYield(s, st); FiberTouches(s, st); }
  }

  lemma OnlyActor(s: World, st: Step)
    requires ActorOK(s, st) && Enabled(s, st) && !IsClient(st) && !IsStop(st)
    ensures Apply(s, st).workers.Keys == s.workers.Keys
    ensures forall v :: v in s.workers && v != Actor(st) ==> Apply(s, st).workers[v] == s.workers[v]
  {
    if !Exits(s, st) { ActorShape(s, st); }
  }

  lemma StepHistory(s: World, st: Step)
    requires Inv(s) && Protocol(s) && HistoryOK(s) && Enabled(s, st)
    ensures HistoryOK(Apply(s, st))
  {
    if IsClient(st) { ClientHistory(s, st); }
    else if IsStop(st) { StopHistory(s, st); }
    else if st.EnterFiber? { EnterHistory(s, st.w); }
    else if st.Classify? { ClassifyHistory(s, st.w); }
    else if st.Scan? && !EmptyScan(s, st) { ClaimHistory(s, st.w); }
    else { ActorHistory(s, st); }
  }
}
