/** What a submission queues, and who may take it: the pin given by the submitter goes with the task
    until the worker it names claims it. */
module SchedulerPins {
  import opened Wrappers
  import opened Tasks
  import opened SchedulerModel
  import opened SchedulerSteps
  import opened SchedulerShutdown
  import opened SchedulerTheorems

  /** `t` is the task of a submission with this pin, the callback under number `number`. */
  ghost predicate IsTaskOf(t: Task<nat>, sub: Submission, pin: int, number: nat) {
    && t.thread == pin
    && match sub
       case SubFiber(f) => t.FiberTask? && t.fiber == f
       case SubCallback => t.CallbackTask? && t.cb == number
  }

  /** A submission puts one task at the back of the queue, with the pin as given, and hands out the next
      callback number to a callback. It is stray if a client makes it after `stop()` began, or a task
      then pins it to another thread. */
  lemma SubmissionQueues(s: World, st: Step)
    requires Enabled(s, st) && (st.ClientSubmit? || st.TaskSubmit?)
    ensures var t := Apply(s, st);
      && |t.queue| == |s.queue| + 1 && t.queue[..|s.queue|] == s.queue
      && IsTaskOf(t.queue[|s.queue|], st.sub, st.pin, s.hist.nextCb)
      && t.hist.order == s.hist.order + [|s.hist.pushed|] && t.hist.pushed == s.hist.pushed + [t.queue[|s.queue|]]
      && t.hist.nextCb == (match st.sub case SubFiber(_) => s.hist.nextCb case SubCallback => s.hist.nextCb + 1)
      && t.hist.strays == s.hist.strays +
           if s.ctl.stopPc != NotCalled && (st.ClientSubmit? || (st.pin != -1 && st.pin != st.w)) then {|s.hist.pushed|} else {}
  {}

  /** Worker `w` may not claim entry `k`: it is pinned to another worker, or its fiber is executing. */
  ghost predicate PassesOver(s: World, w: int, k: nat)
    requires k < |s.queue|
  {
    var t := s.queue[k];
    || (t.thread != -1 && t.thread != w)
    || (t.FiberTask? && t.fiber in s.fibers && s.fibers[t.fiber].state == EXEC)
  }

  /** A scan claims the first entry that the worker may claim, or finds that there is none; a claim is
      counted and nothing else is taken. */
  lemma ScanExactly(s: World, w: int)
    requires Enabled(s, Scan(w))
    ensures var t := Apply(s, Scan(w));
      || ((forall k :: 0 <= k < |s.queue| ==> PassesOver(s, w, k)) && t.queue == s.queue && t.active == s.active
          && t.hist.claims == s.hist.claims && t.workers[w].pc == ScannedEmpty)
      || exists k: nat :: k < |s.queue| && !PassesOver(s, w, k) && (forall j :: 0 <= j < k ==> PassesOver(s, w, j))
           && t.queue == s.queue[..k] + s.queue[k + 1..] && t.active == s.active + 1
           && t.hist.claims == s.hist.claims + [Claim(w, s.queue[k])]
           && t.workers[w].pc == Claimed && t.workers[w].ft == Some(s.queue[k])
  {
    var k := FirstEligible(s.queue, w, Executing(s));
    assert forall j :: 0 <= j < |s.queue| ==> (PassesOver(s, w, j) <==> !Eligible(s.queue[j], w, Executing(s)));
    if k < |s.queue| { assert RemoveAt(s.queue, k) == s.queue[..k] + s.queue[k + 1..]; }
  }

  /** Entry number `n` is queued and is `task`. */
  ghost predicate QueuedAs(s: World, n: nat, task: Task<nat>) {
    n in s.hist.order && n < |s.hist.pushed| && s.hist.pushed[n] == task
  }

  /** Worker `w` takes `task` by step `st`. */
  ghost predicate Takes(s: World, st: Step, w: int, task: Task<nat>)
    requires Enabled(s, st)
  {
    st == Scan(w) && Apply(s, st).hist.claims == s.hist.claims + [Claim(w, task)]
  }

  lemma OthersRemain(q: seq<nat>, k: nat)
    requires k < |q|
    ensures forall i :: 0 <= i < |q| && i != k ==> q[i] in RemoveAt(q, k)
  {
    forall i | 0 <= i < |q| && i != k ensures q[i] in RemoveAt(q, k) {
      assert RemoveAt(q, k)[if i < k then i else i - 1] == q[i];
    }
  }

  lemma ScanTakes(s: World, w: int, n: nat, task: Task<nat>)
    requires OrderOK(s) && Enabled(s, Scan(w)) && QueuedAs(s, n, task) && n !in Apply(s, Scan(w)).hist.order
    ensures Takes(s, Scan(w), w, task) && (task.thread == -1 || task.thread == w)
  {
    var k := FirstEligible(s.queue, w, Executing(s));
    if k < |s.queue| { OthersRemain(s.hist.order, k); }
  }

  /** An entry leaves the queue by nothing but a claim of a worker that its pin allows. */
  lemma LeavesByClaim(s: World, st: Step, n: nat, task: Task<nat>)
    requires FullInv(s) && Enabled(s, st) && QueuedAs(s, n, task)
    ensures if n in Apply(s, st).hist.order then QueuedAs(Apply(s, st), n, task)
            else exists w :: (task.thread == -1 || task.thread == w) && Takes(s, st, w, task)
  {
    var t := Apply(s, st);
    if IsClient(st) { ClientKeepsEntries(s, st); }
    else if IsStop(st) { StopShape(s, st); }
    else if st.Classify? { ClassifyKeepsEntries(s, st.w); }
    else if st.Scan? {
      ScanOrder(s, st.w);
      if n !in t.hist.order { ScanTakes(s, st.w, n, task); }
    }
    else { ActorKeepsOrder(s, st); }
  }

  ghost predicate KeepsEntries(s: World, t: World) {
    s.hist.pushed <= t.hist.pushed && forall n :: n in s.hist.order ==> n in t.hist.order
  }

  lemma ClientKeepsEntries(s: World, st: Step)
    requires Enabled(s, st) && IsClient(st)
    ensures KeepsEntries(s, Apply(s, st))
  {
    if st.ClientSubmit? || st.TaskSubmit? { SubmissionQueues(s, st); }
  }

  lemma ClassifyKeepsEntries(s: World, w: int)
    requires Enabled(s, Classify(w))
    ensures KeepsEntries(s, ClassifyFiber(s, w))
  {}

  /** Along `steps`, entry number `n` stays queued until a step by which a worker takes it as `task`: the
      worker `pin`, or any worker if that is -1. */
  ghost predicate StaysUntilTaken(s: World, steps: seq<Step>, n: nat, task: Task<nat>, pin: int)
    requires ValidRun(s, steps)
    decreases |steps|
  {
    steps == [] ||
    (if n in Apply(s, steps[0]).hist.order then StaysUntilTaken(Apply(s, steps[0]), steps[1..], n, task, pin)
     else exists w :: (pin == -1 || pin == w) && Takes(s, steps[0], w, task))
  }

  lemma {:induction false} EntryStays(s: World, steps: seq<Step>, n: nat, task: Task<nat>)
    requires FullInv(s) && ValidRun(s, steps) && QueuedAs(s, n, task)
    ensures StaysUntilTaken(s, steps, n, task, task.thread)
    decreases |steps|
  {
    if steps != [] {
      var t := Apply(s, steps[0]);
      LeavesByClaim(s, steps[0], n, task);
      StepFull(s, steps[0]);
      if n in t.hist.order { EntryStays(t, steps[1..], n, task); }
    }
  }

  /** In every run, a task submitted with a pin is taken by the worker it names or by nobody, one without
      a pin by anybody; whoever takes it takes what was submitted. */
  lemma PinKept(s: World, c: Config, st: Step, steps: seq<Step>)
    requires Reachable(s, c) && Enabled(s, st) && (st.ClientSubmit? || st.TaskSubmit?) && ValidRun(Apply(s, st), steps)
    ensures exists task ::
      IsTaskOf(task, st.sub, st.pin, s.hist.nextCb) && StaysUntilTaken(Apply(s, st), steps, |s.hist.pushed|, task, st.pin)
  {
    var t := Apply(s, st);
    var task := t.queue[|s.queue|];
    SubmissionQueues(s, st);
    ReachableStep(s, c, st);
    ReachableFull(t, c);
    EntryStays(t, steps, |s.hist.pushed|, task);
  }
}
