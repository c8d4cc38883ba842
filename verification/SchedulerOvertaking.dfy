/** How the queue moves: claims take one entry, everything else only appends, so that nobody is
    overtaken for long. */
module SchedulerOvertaking {
  import opened Wrappers
  import opened Tasks
  import opened SchedulerModel
  import opened SchedulerInvariant
  import opened SchedulerSteps
  import opened SchedulerTheorems

  // ---------------------------------------------------------------- what a step does to the queue

  lemma StopAppends(s: World, st: Step)
    requires Enabled(s, st) && IsStop(st)
    ensures Apply(s, st).queue == s.queue && Apply(s, st).hist == s.hist
  {}

  lemma ClientAppends(s: World, st: Step)
    requires Enabled(s, st) && IsClient(st)
    ensures s.queue <= Apply(s, st).queue && Apply(s, st).hist.claims == s.hist.claims
  {}

  lemma ActorAppends(s: World, st: Step)
    requires Enabled(s, st) && !IsClient(st) && !IsStop(st) && !st.Scan?
    ensures s.queue <= Apply(s, st).queue && Apply(s, st).hist.claims == s.hist.claims
  {}

  lemma OnlyAppends(s: World, st: Step)
    requires Enabled(s, st) && !st.Scan?
    ensures s.queue <= Apply(s, st).queue && Apply(s, st).hist.claims == s.hist.claims
  {
    if IsStop(st) { StopAppends(s, st); }
    else if IsClient(st) { ClientAppends(s, st); }
    else { ActorAppends(s, st); }
  }

  /** A scan that claims another entry leaves `t` in the queue. */
  lemma ScanLeaves(q: seq<Task<nat>>, k: nat, t: Task<nat>)
    requires k <= |q| && t in q && (k < |q| ==> q[k] != t)
    ensures k < |q| ==> t in RemoveAt(q, k)
  {
    if k < |q| {
      var i :| 0 <= i < |q| && q[i] == t;
      assert i < k ==> RemoveAt(q, k)[i] == t;
      assert i > k ==> RemoveAt(q, k)[i - 1] == t;
    }
  }

  // ---------------------------------------------------------------- bounded overtaking

  predicate IsClaim(s: World, st: Step) {
    st.Scan? && FirstEligible(s.queue, st.w, Executing(s)) < |s.queue|
  }

  /** The place after `st` of the task now at place `k`. */
  function Place(s: World, st: Step, k: nat): Option<nat> {
    if !IsClaim(s, st) then Some(k)
    else
      var j := FirstEligible(s.queue, st.w, Executing(s));
      if j == k then None else if j < k then Some(k - 1) else Some(k)
  }

  function ClaimsIn(s: World, steps: seq<Step>): nat
    requires ValidRun(s, steps)
    decreases |steps|
  {
    if steps == [] then 0
    else (if IsClaim(s, steps[0]) then 1 else 0) + ClaimsIn(Apply(s, steps[0]), steps[1..])
  }

  function PlaceAfter(s: World, steps: seq<Step>, k: nat): Option<nat>
    requires ValidRun(s, steps)
    decreases |steps|
  {
    if steps == [] then Some(k)
    else
      match Place(s, steps[0], k)
      case None => None
      case Some(j) => PlaceAfter(Apply(s, steps[0]), steps[1..], j)
  }

  /** An unpinned task may be claimed by whoever scans next. */
  lemma UnpinnedEligible(s: World, c: Config, k: nat, w: int)
    requires Reachable(s, c) && k < |s.queue| && s.queue[k].thread == ANY_THREAD
    ensures Eligible(s.queue[k], w, Executing(s))
  {
    ReachableFull(s, c);
    if s.queue[k].FiberTask? { assert QueuedAt(s, k, s.queue[k].fiber); }
  }

  lemma ScanPlace(s: World, w: int, k: nat)
    requires w in s.workers && k < |s.queue| && Eligible(s.queue[k], w, Executing(s))
    ensures var t := ScanQueue(s, w); var j := FirstEligible(s.queue, w, Executing(s));
      && j <= k
      && (j < k ==> k - 1 < |t.queue| && t.queue[k - 1] == s.queue[k])
      && t.hist.claims == s.hist.claims + [Claim(w, s.queue[j])]
  {}

  lemma OnePlace(s: World, c: Config, st: Step, k: nat)
    requires Reachable(s, c) && Enabled(s, st) && k < |s.queue| && s.queue[k].thread == ANY_THREAD
    ensures var t := Apply(s, st);
      match Place(s, st, k)
      case Some(j) => j < |t.queue| && t.queue[j] == s.queue[k] && j == k - (if IsClaim(s, st) then 1 else 0)
      case None => IsClaim(s, st)
  {
    if st.Scan? {
      UnpinnedEligible(s, c, k, st.w);
      ScanPlace(s, st.w, k);
    } else {
      OnlyAppends(s, st);
    }
  }

  lemma OneClaim(s: World, st: Step)
    requires Enabled(s, st)
    ensures s.hist.claims <= Apply(s, st).hist.claims
    ensures |Apply(s, st).hist.claims| == |s.hist.claims| + if IsClaim(s, st) then 1 else 0
    ensures IsClaim(s, st) ==>
      Apply(s, st).hist.claims[|s.hist.claims|].task == s.queue[FirstEligible(s.queue, st.w, Executing(s))]
  {
    if !st.Scan? { OnlyAppends(s, st); }
  }

  lemma {:induction false} ClaimsGrow(s: World, steps: seq<Step>)
    requires ValidRun(s, steps)
    ensures s.hist.claims <= Run(s, steps).hist.claims
    decreases |steps|
  {
    if steps != [] {
      OneClaim(s, steps[0]);
      ClaimsGrow(Apply(s, steps[0]), steps[1..]);
    }
  }

  /** Claim number `i` of the history took `task`. */
  ghost predicate ClaimTook(s: World, i: int, task: Task<nat>) {
    0 <= i < |s.hist.claims| && s.hist.claims[i].task == task
  }

  /** An unpinned task with `k` tasks ahead of it is removed no later than the `k+1`-st claim, by
      whichever workers; until then it moves up by exactly one place per claim. */
  lemma {:induction false} BoundedOvertaking(s: World, c: Config, steps: seq<Step>, k: nat)
    requires Reachable(s, c) && ValidRun(s, steps) && k < |s.queue| && s.queue[k].thread == ANY_THREAD
    ensures match PlaceAfter(s, steps, k)
      case Some(j) => j + ClaimsIn(s, steps) == k && j < |Run(s, steps).queue| && Run(s, steps).queue[j] == s.queue[k]
      case None => exists i :: |s.hist.claims| <= i <= |s.hist.claims| + k && ClaimTook(Run(s, steps), i, s.queue[k])
    ensures ClaimsIn(s, steps) > k ==> PlaceAfter(s, steps, k) == None
    decreases |steps|
  {
    if steps != [] {
      var st, t := steps[0], Apply(s, steps[0]);
      OnePlace(s, c, st, k);
      OneClaim(s, st);
      ReachableStep(s, c, st);
      if Place(s, st, k).Some? {
        var j := Place(s, st, k).value;
        BoundedOvertaking(t, c, steps[1..], j);
        if PlaceAfter(t, steps[1..], j).None? {
          var i :| |t.hist.claims| <= i <= |t.hist.claims| + j && ClaimTook(Run(t, steps[1..]), i, t.queue[j]);
          assert ClaimTook(Run(s, steps), i, s.queue[k]);
        }
      } else {
        ClaimsGrow(t, steps[1..]);
        assert ClaimTook(Run(s, steps), |s.hist.claims|, s.queue[k]);
      }
    }
  }
}
