/** The fair runs that `SchedulerFairness` speaks of exist. */
module SchedulerFairRuns {
  import opened Wrappers
  import opened SchedulerModel
  import opened SchedulerSteps
  import opened SchedulerTheorems
  import opened SchedulerSafety
  import opened SchedulerLife
  import opened SchedulerOvertaking
  import opened SchedulerCompletion
  import opened SchedulerFairness

  /** The states along the steps `f` from `s`. */
  ghost function Follow(s: World, f: nat -> Step, n: nat): World {
    if n == 0 then s
    else
      var p := Follow(s, f, n - 1);
      if Enabled(p, f(n - 1)) then Apply(p, f(n - 1)) else p
  }

  lemma FollowOn(s: World, f: nat -> Step, n: nat)
    requires Enabled(Follow(s, f, n), f(n))
    ensures Follow(s, f, n + 1) == Apply(Follow(s, f, n), f(n))
  {}

  lemma {:induction false} FollowRun(s: World, f: nat -> Step, steps: seq<Step>, k: nat)
    requires ValidRun(s, steps) && k <= |steps| && forall i :: 0 <= i < |steps| ==> f(i) == steps[i]
    ensures ValidRun(Follow(s, f, k), steps[k..]) && Run(Follow(s, f, k), steps[k..]) == Run(s, steps)
    ensures k < |steps| ==> Enabled(Follow(s, f, k), f(k))
    decreases k
  {
    if k == 0 {
      assert steps[0..] == steps;
    } else {
      FollowRun(s, f, steps, k - 1);
      assert steps[k - 1..][0] == steps[k - 1] && steps[k - 1..][1..] == steps[k..];
    }
  }

  /** From `t` to `u` the client made fibers with numbers below `limit`, and nothing else moved. */
  ghost predicate Idles(t: World, u: World, limit: nat) {
    && u.workers == t.workers && u.ctl == t.ctl && u.hist == t.hist
    && forall i :: i in u.fibers ==> i < limit
  }

  lemma {:induction false} IdlesOn(s: World, f: nat -> Step, n: nat, base: nat, k: nat)
    requires n <= k && (forall i :: i in Follow(s, f, n).fibers ==> i < base)
    requires forall j: nat :: j >= n ==> f(j) == CreateFiber(base + j)
    ensures Idles(Follow(s, f, n), Follow(s, f, k), base + k) && Enabled(Follow(s, f, k), f(k))
    decreases k
  {
    if n < k { IdlesOn(s, f, n, base, k - 1); }
  }

  lemma StraysGrow(s: World, st: Step)
    requires Enabled(s, st)
    ensures s.hist.strays <= Apply(s, st).hist.strays
  {
    if IsStop(st) { StopAppends(s, st); }
    else if !IsClient(st) { ActorQueues(s, st); }
  }

  lemma {:induction false} Grows(b: Behaviour, c: Config, n: nat, k: nat)
    requires IsBehaviour(b, c) && n <= k
    ensures Reachable(b.state(k), c)
    ensures b.state(n).hist.strays <= b.state(k).hist.strays && |b.state(n).hist.pushed| <= |b.state(k).hist.pushed|
    decreases k
  {
    if 0 < k {
      Grows(b, c, if n < k then n else k - 1, k - 1);
      assert Goes(b, k - 1);
      ReachableStep(b.state(k - 1), c, b.step(k - 1));
      StraysGrow(b.state(k - 1), b.step(k - 1));
      QueueGrows(b.state(k - 1), c, b.step(k - 1));
    }
  }

  /** When `stop()` has returned nobody is in `run`. */
  lemma ReturnedMeansLeft(s: World, c: Config, w: int)
    requires Reachable(s, c) && s.ctl.stopPc == Returned
    ensures !LiveIn(s, w)
  {
    ReachableFull(s, c);
    if c.root.Some? || s.ctl.poolStarted { StoppedMeansLeft(s, c); }
    else if w in s.workers { assert IsPool(s, w); }
  }

  lemma ReturnedIsOver(s: World)
    requires s.ctl.stopPc == Returned
    ensures !StopReady(s)
  {}

  /** From step `end` on `stop()` has returned and only the client does anything. */
  ghost predicate OverFrom(b: Behaviour, c: Config, end: nat) {
    && IsBehaviour(b, c) && b.state(end).ctl.stopPc == Returned && b.state(end).hist.strays == {}
    && forall n: nat :: n >= end ==> SameHistory(b, end, n)
  }

  ghost predicate SameHistory(b: Behaviour, m: nat, n: nat) {
    b.state(n).ctl == b.state(m).ctl && b.state(n).hist == b.state(m).hist
  }

  lemma OverHistory(b: Behaviour, c: Config, end: nat, n: nat)
    requires OverFrom(b, c, end)
    ensures b.state(n).hist.strays == {} && |b.state(n).hist.pushed| <= |b.state(end).hist.pushed|
  {
    if n <= end { Grows(b, c, n, end); } else { assert SameHistory(b, end, n); }
  }

  lemma OverState(b: Behaviour, c: Config, end: nat, n: nat)
    requires OverFrom(b, c, end) && n >= end
    ensures Reachable(b.state(n), c) && b.state(n).ctl.stopPc == Returned
  {
    assert SameHistory(b, end, n);
    Grows(b, c, n, n);
  }

  lemma OverTurns(b: Behaviour, c: Config, end: nat, n: nat, w: int)
    requires OverFrom(b, c, end)
    ensures WorkerTurnComes(b, w, n) && StopTurnComes(b, n)
  {
    var m := if n < end then end else n;
    OverState(b, c, end, m);
    ReturnedMeansLeft(b.state(m), c, w);
    ReturnedIsOver(b.state(m));
    assert WorkerTurn(b, w, m) && StopTurn(b, m);
  }

  lemma OverIsFair(b: Behaviour, c: Config, end: nat)
    requires OverFrom(b, c, end)
    ensures Fair(b) && WorkEnds(b) && NoStrays(b)
  {
    forall n: nat ensures b.state(n).hist.strays == {} && |b.state(n).hist.pushed| <= |b.state(end).hist.pushed| {
      OverHistory(b, c, end, n);
    }
    assert AtMost(b, |b.state(end).hist.pushed|);
    forall w: int, n: nat ensures WorkerTurnComes(b, w, n) { OverTurns(b, c, end, n, w); }
    forall n: nat ensures StopTurnComes(b, n) { OverTurns(b, c, end, n, 0); }
  }

  /** The run `steps`, and then a new fiber with every step. */
  function Endless(steps: seq<Step>, base: nat): nat -> Step {
    (n: nat) => if n < |steps| then steps[n] else CreateFiber(base + n)
  }

  lemma EndlessGoes(s: World, steps: seq<Step>, base: nat, n: nat)
    requires ValidRun(s, steps) && forall i :: i in Run(s, steps).fibers ==> i < base
    ensures var f := Endless(steps, base);
      && Enabled(Follow(s, f, n), f(n)) && Follow(s, f, |steps|) == Run(s, steps)
      && (n >= |steps| ==> Idles(Run(s, steps), Follow(s, f, n), base + n))
  {
    var f := Endless(steps, base);
    FollowRun(s, f, steps, |steps|);
    if n < |steps| { FollowRun(s, f, steps, n); } else { IdlesOn(s, f, |steps|, base, n); }
  }

  ghost function EndlessRun(s: World, steps: seq<Step>, base: nat): Behaviour {
    var f := Endless(steps, base);
    Behaviour((n: nat) => Follow(s, f, n), f)
  }

  lemma EndlessStep(s: World, steps: seq<Step>, base: nat, n: nat)
    requires ValidRun(s, steps) && forall i :: i in Run(s, steps).fibers ==> i < base
    ensures var b := EndlessRun(s, steps, base);
      Goes(b, n) && b.state(|steps|) == Run(s, steps) && (n >= |steps| ==> SameHistory(b, |steps|, n))
  {
    EndlessGoes(s, steps, base, n);
    FollowOn(s, Endless(steps, base), n);
  }

  /** From every state in which a stop has properly begun there is a fair run: one that completes the
      stop. */
  lemma FairRunExists(s: World, c: Config) returns (b: Behaviour)
    requires Began(s, c)
    ensures b.state(0) == s && IsBehaviour(b, c) && Fair(b) && WorkEnds(b) && NoStrays(b)
  {
    var steps, t := Complete(s, c);
    var base := Unused(t.fibers.Keys);
    b := EndlessRun(s, steps, base);
    forall n: nat ensures Goes(b, n) && (n >= |steps| ==> SameHistory(b, |steps|, n)) {
      EndlessStep(s, steps, base, n);
    }
    EndlessStep(s, steps, base, |steps|);
    OverIsFair(b, c, |steps|);
  }
}
