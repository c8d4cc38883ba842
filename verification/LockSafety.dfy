/** Threads that call the config and log modules, step by step: with the lock hierarchy no state is a
    deadlock. */
module LockSafety {
  import opened LockPaths

  datatype Op = Acquire(lock: Lock, mode: Mode) | Release(lock: Lock) | Touch(field: Field, write: bool)

  /** What a thread holds, in the order it was taken, and what it still has to do. */
  datatype Thread = Thread(held: seq<Hold>, rest: seq<Op>)

  type Threads = seq<Thread>

  /** A guard's constructor and destructor around what happens in its block. */
  function Flatten(c: seq<Code>): seq<Op> {
    if c == [] then []
    else
      match c[0]
      case Guard(lock, mode, body) => [Acquire(lock, mode)] + Flatten(body) + [Release(lock)] + Flatten(c[1..])
      case Use(f, write) => [Touch(f, write)] + Flatten(c[1..])
  }

  function Program(calls: seq<Call>): seq<Op> {
    if calls == [] then [] else Flatten(CodeOf(calls[0])) + Program(calls[1..])
  }

  predicate CallsOK(calls: seq<Call>) {
    forall c :: c in calls ==> CallOK(c)
  }

  function Start(programs: seq<seq<Call>>): (s: Threads)
    ensures |s| == |programs|
  {
    seq(|programs|, i requires 0 <= i < |programs| => Thread([], Program(programs[i])))
  }

  // ---------------------------------------------------------------- steps

  ghost predicate HeldBy(s: Threads, j: int, h: Hold) {
    0 <= j < |s| && h in s[j].held
  }

  /** Readers share a lock, a writer excludes everybody; a mutex is always taken exclusively. */
  ghost predicate CanTake(s: Threads, lock: Lock, mode: Mode) {
    forall j, h :: HeldBy(s, j, h) && h.lock == lock ==> mode == Shared && h.mode == Shared
  }

  /** Nobody holds the lock in any mode: any policy for waiting readers and writers grants it. */
  ghost predicate Untaken(s: Threads, lock: Lock) {
    forall j, h :: HeldBy(s, j, h) ==> h.lock != lock
  }

  ghost predicate Enabled(s: Threads, i: int) {
    && 0 <= i < |s| && s[i].rest != []
    && match s[i].rest[0]
       case Acquire(lock, mode) => CanTake(s, lock, mode)
       case Release(lock) => s[i].held != [] && s[i].held[|s[i].held| - 1].lock == lock
       case Touch(_, _) => true
  }

  function Apply(s: Threads, i: int): Threads
    requires 0 <= i < |s| && s[i].rest != []
  {
    var t := s[i];
    var held := match t.rest[0]
      case Acquire(lock, mode) => t.held + [Hold(lock, mode)]
      case Release(_) => if t.held == [] then [] else t.held[..|t.held| - 1]
      case Touch(_, _) => t.held;
    s[i := Thread(held, t.rest[1..])]
  }

  ghost predicate ValidRun(s: Threads, steps: seq<int>)
    decreases |steps|
  {
    steps == [] || (Enabled(s, steps[0]) && ValidRun(Apply(s, steps[0]), steps[1..]))
  }

  ghost function Run(s: Threads, steps: seq<int>): Threads
    requires ValidRun(s, steps)
    decreases |steps|
  {
    if steps == [] then s else Run(Apply(s, steps[0]), steps[1..])
  }

  ghost predicate Reachable(s: Threads, programs: seq<seq<Call>>) {
    exists steps :: ValidRun(Start(programs), steps) && Run(Start(programs), steps) == s
  }

  // ---------------------------------------------------------------- the discipline of one thread

  /** The rest of a thread takes locks of rising rank, lets them go in reverse and ends with none. */
  predicate Disciplined(held: seq<Hold>, rest: seq<Op>)
    decreases |rest|
  {
    if rest == [] then held == []
    else
      match rest[0]
      case Acquire(lock, mode) =>
        (forall h :: h in held ==> Rank(h.lock) < Rank(lock)) && Disciplined(held + [Hold(lock, mode)], rest[1..])
      case Release(lock) =>
        held != [] && held[|held| - 1].lock == lock && Disciplined(held[..|held| - 1], rest[1..])
      case Touch(_, _) => Disciplined(held, rest[1..])
  }

  predicate HeldUpTo(held: seq<Hold>, outer: int) {
    forall h :: h in held ==> Rank(h.lock) <= outer
  }

  lemma CloseDisciplined(g: Code, held: seq<Hold>, after: seq<Op>)
    requires g.Guard?
    requires Disciplined(held, after)
    ensures Disciplined(held + [Hold(g.lock, g.mode)], [Release(g.lock)] + after)
  {
    assert (held + [Hold(g.lock, g.mode)])[..|held|] == held;
    assert ([Release(g.lock)] + after)[1..] == after;
  }

  lemma OpenDisciplined(g: Code, held: seq<Hold>, inside: seq<Op>)
    requires g.Guard?
    requires HeldUpTo(held, Rank(g.lock) - 1) && Disciplined(held + [Hold(g.lock, g.mode)], inside)
    ensures Disciplined(held, [Acquire(g.lock, g.mode)] + inside)
  {
    assert ([Acquire(g.lock, g.mode)] + inside)[1..] == inside;
  }

  lemma Regroup(a: seq<Op>, b: seq<Op>, c: seq<Op>, d: seq<Op>, e: seq<Op>)
    ensures a + b + c + d + e == a + (b + (c + (d + e)))
  {}

  lemma FlattenFirst(c: seq<Code>, rest: seq<Op>)
    requires c != [] && c[0].Guard?
    ensures Flatten(c) + rest ==
      [Acquire(c[0].lock, c[0].mode)] + (Flatten(c[0].body) + ([Release(c[0].lock)] + (Flatten(c[1..]) + rest)))
  {
    Regroup([Acquire(c[0].lock, c[0].mode)], Flatten(c[0].body), [Release(c[0].lock)], Flatten(c[1..]), rest);
  }

  lemma FlattenUse(c: seq<Code>, rest: seq<Op>)
    requires c != [] && c[0].Use?
    ensures Flatten(c) + rest == [Touch(c[0].field, c[0].write)] + (Flatten(c[1..]) + rest)
  {}

  /** Running a nested block keeps the discipline of what follows. */
  lemma {:induction false} FlattenDisciplined(c: seq<Code>, outer: int, held: seq<Hold>, rest: seq<Op>)
    requires Nested(c, outer) && HeldUpTo(held, outer) && Disciplined(held, rest)
    ensures Disciplined(held, Flatten(c) + rest)
    decreases c
  {
    if c == [] {
      assert Flatten(c) + rest == rest;
    } else {
      var g := c[0];
      var after := Flatten(c[1..]) + rest;
      FlattenDisciplined(c[1..], outer, held, rest);
      if g.Use? {
        FlattenUse(c, rest);
        assert ([Touch(g.field, g.write)] + after)[1..] == after;
        return;
      }
      CloseDisciplined(g, held, after);
      FlattenDisciplined(g.body, Rank(g.lock), held + [Hold(g.lock, g.mode)], [Release(g.lock)] + after);
      OpenDisciplined(g, held, Flatten(g.body) + ([Release(g.lock)] + after));
      FlattenFirst(c, rest);
    }
  }

  lemma {:induction false} ProgramDisciplined(calls: seq<Call>)
    requires CallsOK(calls)
    ensures Disciplined([], Program(calls))
  {
    if calls != [] {
      assert calls[0] in calls;
      CallNested(calls[0]);
      ProgramDisciplined(calls[1..]);
      FlattenDisciplined(CodeOf(calls[0]), -1, [], Program(calls[1..]));
    }
  }

  // ---------------------------------------------------------------- the invariant

  ghost predicate AllDisciplined(s: Threads) {
    forall i :: 0 <= i < |s| ==> Disciplined(s[i].held, s[i].rest)
  }

  /** Two threads hold the same lock only as readers. */
  ghost predicate Exclusion(s: Threads) {
    forall i, j, g, h :: HeldBy(s, i, g) && HeldBy(s, j, h) && i != j && g.lock == h.lock ==> g.mode == Shared && h.mode == Shared
  }

  ghost predicate Inv(s: Threads) {
    AllDisciplined(s) && Exclusion(s)
  }

  lemma StepExclusion(s: Threads, i: int)
    requires Exclusion(s) && Enabled(s, i)
    ensures Exclusion(Apply(s, i))
  {
    var t := Apply(s, i);
    forall j, h | HeldBy(t, j, h) ensures HeldBy(s, j, h) || (j == i && s[i].rest[0] == Acquire(h.lock, h.mode)) {
      if j == i && s[i].rest[0].Release? { assert h in s[i].held; }
    }
  }

  lemma StepInv(s: Threads, i: int)
    requires Inv(s) && Enabled(s, i)
    ensures Inv(Apply(s, i))
  {
    StepExclusion(s, i);
    assert Disciplined(s[i].held, s[i].rest);
  }

  lemma {:induction false} RunInv(s: Threads, steps: seq<int>)
    requires Inv(s) && ValidRun(s, steps)
    ensures Inv(Run(s, steps))
    decreases |steps|
  {
    if steps != [] {
      StepInv(s, steps[0]);
      RunInv(Apply(s, steps[0]), steps[1..]);
    }
  }

  ghost predicate ProgramsOK(programs: seq<seq<Call>>) {
    forall i :: 0 <= i < |programs| ==> CallsOK(programs[i])
  }

  /** In every reachable state each thread keeps the hierarchy and writers are alone. */
  lemma ReachableInv(s: Threads, programs: seq<seq<Call>>)
    requires ProgramsOK(programs) && Reachable(s, programs)
    ensures Inv(s)
  {
    forall i | 0 <= i < |programs| ensures Disciplined(Start(programs)[i].held, Start(programs)[i].rest) {
      ProgramDisciplined(programs[i]);
    }
    var steps :| ValidRun(Start(programs), steps) && Run(Start(programs), steps) == s;
    RunInv(Start(programs), steps);
  }

  // ---------------------------------------------------------------- no cycle of waiters

  ghost predicate Waiting(s: Threads, i: int) {
    0 <= i < |s| && s[i].rest != [] && s[i].rest[0].Acquire?
  }

  /** Thread `i` wants a lock that thread `j` holds, in whatever mode. */
  ghost predicate WaitsFor(s: Threads, i: int, j: int) {
    Waiting(s, i) && exists h :: HeldBy(s, j, h) && h.lock == s[i].rest[0].lock
  }

  lemma WaitsRise(s: Threads, i: int, j: int)
    requires Inv(s) && WaitsFor(s, i, j)
    ensures s[j].rest != []
    ensures s[j].rest[0].Acquire? ==> Rank(s[i].rest[0].lock) < Rank(s[j].rest[0].lock)
  {
    assert Disciplined(s[j].held, s[j].rest);
  }

  lemma {:induction false} ChainRises(s: Threads, p: seq<int>)
    requires Inv(s) && |p| >= 2
    requires forall k :: 0 <= k < |p| - 1 ==> WaitsFor(s, p[k], p[k + 1])
    requires Waiting(s, p[|p| - 1])
    ensures Waiting(s, p[0])
    ensures Rank(s[p[0]].rest[0].lock) < Rank(s[p[|p| - 1]].rest[0].lock)
    decreases |p|
  {
    assert WaitsFor(s, p[0], p[1]);
    if |p| > 2 {
      forall k | 0 <= k < |p| - 2 ensures WaitsFor(s, p[1..][k], p[1..][k + 1]) {
        assert WaitsFor(s, p[k + 1], p[k + 1 + 1]);
      }
      ChainRises(s, p[1..]);
    }
    WaitsRise(s, p[0], p[1]);
  }

  /** Threads never wait for each other in a circle. */
  lemma NoWaiterCycle(s: Threads, programs: seq<seq<Call>>, p: seq<int>)
    requires ProgramsOK(programs) && Reachable(s, programs)
    requires |p| >= 2 && p[0] == p[|p| - 1]
    ensures !forall k :: 0 <= k < |p| - 1 ==> WaitsFor(s, p[k], p[k + 1])
  {
    ReachableInv(s, programs);
    if forall k :: 0 <= k < |p| - 1 ==> WaitsFor(s, p[k], p[k + 1]) {
      assert WaitsFor(s, p[0], p[1]);
      ChainRises(s, p);
    }
  }

  // ---------------------------------------------------------------- progress

  /** `i` can step whatever the policy of the locks. */
  ghost predicate CanStep(s: Threads, i: int) {
    Enabled(s, i) && (s[i].rest[0].Acquire? ==> Untaken(s, s[i].rest[0].lock))
  }

  /** From a thread with work left, the chain of holders ends in a thread that can step. */
  lemma {:induction false} Chase(s: Threads, i: int) returns (j: int)
    requires Inv(s) && 0 <= i < |s| && s[i].rest != []
    ensures CanStep(s, j)
    decreases if s[i].rest[0].Acquire? then 6 - Rank(s[i].rest[0].lock) else 0
  {
    assert Disciplined(s[i].held, s[i].rest);
    if !s[i].rest[0].Acquire? || Untaken(s, s[i].rest[0].lock) {
      j := i;
    } else {
      var k, h :| HeldBy(s, k, h) && h.lock == s[i].rest[0].lock;
      assert WaitsFor(s, i, k);
      WaitsRise(s, i, k);
      j := Chase(s, k);
    }
  }

  ghost predicate Done(s: Threads) {
    forall i :: 0 <= i < |s| ==> s[i].rest == []
  }

  /** No deadlock: in every reachable state where some call is unfinished, some thread can step, even
      if the locks make new readers wait behind a waiting writer; when none is left, nothing is
      held. */
  lemma NoDeadlock(s: Threads, programs: seq<seq<Call>>)
    requires ProgramsOK(programs) && Reachable(s, programs)
    ensures !Done(s) ==> exists j :: CanStep(s, j)
    ensures Done(s) ==> forall i, h :: !HeldBy(s, i, h)
  {
    ReachableInv(s, programs);
    if !Done(s) {
      var i :| 0 <= i < |s| && s[i].rest != [];
      var j := Chase(s, i);
    } else {
      assert forall i :: 0 <= i < |s| ==> Disciplined(s[i].held, s[i].rest);
    }
  }

  /** The number of lock operations left. */
  function Left(s: Threads): nat {
    if s == [] then 0 else |s[0].rest| + Left(s[1..])
  }

  lemma {:induction false} StepUsesOne(s: Threads, i: int)
    requires 0 <= i < |s| && s[i].rest != []
    ensures Left(Apply(s, i)) == Left(s) - 1
    decreases |s|
  {
    if i > 0 {
      assert Apply(s, i)[1..] == Apply(s[1..], i - 1);
      StepUsesOne(s[1..], i - 1);
    } else {
      assert Apply(s, i)[1..] == s[1..];
    }
  }

  /** Every run ends: no run has more steps than there are lock operations, and from every reachable
      state the threads can be run until all calls have returned. */
  lemma {:induction false} Finishes(s: Threads) returns (steps: seq<int>)
    requires Inv(s)
    ensures ValidRun(s, steps) && Done(Run(s, steps)) && |steps| == Left(s)
    decreases Left(s)
  {
    if Done(s) {
      steps := [];
      DoneLeft(s);
    } else {
      var i :| 0 <= i < |s| && s[i].rest != [];
      var j := Chase(s, i);
      StepInv(s, j);
      StepUsesOne(s, j);
      var more := Finishes(Apply(s, j));
      steps := [j] + more;
      assert steps[1..] == more;
    }
  }

  lemma {:induction false} DoneLeft(s: Threads)
    requires Done(s)
    ensures Left(s) == 0
  {
    if s != [] {
      assert s[0].rest == [];
      assert forall i :: 0 <= i < |s| - 1 ==> s[1..][i] == s[i + 1];
      DoneLeft(s[1..]);
    }
  }

  lemma {:induction false} RunsAreShort(s: Threads, steps: seq<int>)
    requires ValidRun(s, steps)
    ensures |steps| + Left(Run(s, steps)) == Left(s)
    decreases |steps|
  {
    if steps != [] {
      StepUsesOne(s, steps[0]);
      RunsAreShort(Apply(s, steps[0]), steps[1..]);
    }
  }

  // ---------------------------------------------------------------- the conditions are needed

  /** How `setValue` of a new value begins: the listeners run after three steps. */
  lemma SetValueBegins(v: nat, ls: seq<Listener>)
    ensures [Acquire(Var(v), Shared)] + ([Touch(Value(v), false)] + ([Touch(Listeners(v), false)] + Flatten(ListenersCode(ls))))
         <= Program([SetValue(v, true, ls)])
  {
    var inner := ListenersCode(ls);
    var notify := [Use(Listeners(v), false)] + inner;
    var body := [Use(Value(v), false)] + notify;
    var code := SetValueCode(v, true, ls);
    assert body[1..] == notify && notify[1..] == inner;
    assert Flatten(notify) == [Touch(Listeners(v), false)] + Flatten(inner);
    assert Flatten(body) == [Touch(Value(v), false)] + Flatten(notify);
    assert code[0] == Guard(Var(v), Shared, body);
    assert Flatten(code) == [Acquire(Var(v), Shared)] + Flatten(body) + [Release(Var(v))] + Flatten(code[1..]);
  }

  /** A listener that registers a listener on its own variable stops its thread for good. */
  lemma ReentrantListenerStops(v: nat)
    ensures var call := SetValue(v, true, [Client([Guard(Var(v), Exclusive, [])])]);
      !CallOK(call)
      && exists s :: Reachable(s, [[call]]) && !Done(s) && forall i :: !Enabled(s, i)
  {
    var inner: seq<Code> := [Guard(Var(v), Exclusive, [])];
    var l := Client(inner);
    var call := SetValue(v, true, [l]);
    var code := CodeOf(call);
    assert !ListenerOK(l);
    assert l in call.listeners;
    var s0 := Start([[call]]);
    assert ListenersCode([l]) == inner by { assert inner + [] == inner; }
    SetValueBegins(v, [l]);
    var p := Program([call]);
    assert Flatten(inner)[0] == Acquire(Var(v), Exclusive);
    assert p[0] == Acquire(Var(v), Shared) && p[1] == Touch(Value(v), false) && p[2] == Touch(Listeners(v), false);
    assert p[3] == Acquire(Var(v), Exclusive);
    var s1, s2 := Apply(s0, 0), Apply(Apply(s0, 0), 0);
    var s3 := Apply(s2, 0);
    assert s1[0].rest == p[1..] && s2[0].rest == p[2..] && s3[0].rest == p[3..];
    LeadsNowhere(s3);
    LeadsFirst(s2, [], s3);
    LeadsFirst(s1, [0] + [], s3);
    LeadsFirst(s0, [0] + ([0] + []), s3);
    assert HeldBy(s3, 0, Hold(Var(v), Shared));
    assert Reachable(s3, [[call]]);
  }

  // ---------------------------------------------------------------- one thread alone, exactly

  /** No guard asks for a lock that a guard around it, or `held`, has in a conflicting mode. */
  predicate SelfFree(held: seq<Hold>, c: seq<Code>)
    decreases c
  {
    c == [] ||
    (&& (c[0].Guard? ==>
           && (forall h :: h in held && h.lock == c[0].lock ==> h.mode == Shared && c[0].mode == Shared)
           && SelfFree(held + [Hold(c[0].lock, c[0].mode)], c[0].body))
     && SelfFree(held, c[1..]))
  }

  function Alone(held: seq<Hold>, rest: seq<Op>): Threads {
    [Thread(held, rest)]
  }

  /** A thread alone has one way to go. */
  lemma OneWay(held: seq<Hold>, rest: seq<Op>, i: int)
    requires Enabled(Alone(held, rest), i)
    ensures i == 0 && rest != []
    ensures rest[0].Acquire? ==>
      && (forall h :: h in held && h.lock == rest[0].lock ==> h.mode == Shared && rest[0].mode == Shared)
      && Apply(Alone(held, rest), i) == Alone(held + [Hold(rest[0].lock, rest[0].mode)], rest[1..])
    ensures rest[0].Touch? ==> Apply(Alone(held, rest), i) == Alone(held, rest[1..])
    ensures rest[0].Release? ==> held != [] && Apply(Alone(held, rest), i) == Alone(held[..|held| - 1], rest[1..])
  {
    assert forall h :: h in held ==> HeldBy(Alone(held, rest), 0, h);
  }

  lemma MayAcquire(held: seq<Hold>, lock: Lock, mode: Mode, rest: seq<Op>)
    requires forall h :: h in held && h.lock == lock ==> h.mode == Shared && mode == Shared
    ensures Enabled(Alone(held, [Acquire(lock, mode)] + rest), 0)
    ensures Apply(Alone(held, [Acquire(lock, mode)] + rest), 0) == Alone(held + [Hold(lock, mode)], rest)
  {
    assert ([Acquire(lock, mode)] + rest)[1..] == rest;
  }

  lemma MayRelease(held: seq<Hold>, h: Hold, rest: seq<Op>)
    ensures Enabled(Alone(held + [h], [Release(h.lock)] + rest), 0)
    ensures Apply(Alone(held + [h], [Release(h.lock)] + rest), 0) == Alone(held, rest)
  {
    assert ([Release(h.lock)] + rest)[1..] == rest && (held + [h])[..|held|] == held;
  }

  lemma MayTouch(held: seq<Hold>, c: seq<Code>, rest: seq<Op>)
    requires c != [] && c[0].Use?
    ensures Flatten(c) + rest != [] && Enabled(Alone(held, Flatten(c) + rest), 0)
    ensures Apply(Alone(held, Flatten(c) + rest), 0) == Alone(held, Flatten(c[1..]) + rest)
  {
    FlattenUse(c, rest);
    assert (Flatten(c) + rest)[1..] == Flatten(c[1..]) + rest;
  }

  /** `steps` leads from `s` to `t`. */
  ghost predicate Leads(s: Threads, steps: seq<int>, t: Threads) {
    ValidRun(s, steps) && Run(s, steps) == t
  }

  lemma LeadsNowhere(s: Threads)
    ensures Leads(s, [], s)
  {}

  lemma LeadsFirst(s: Threads, steps: seq<int>, t: Threads)
    requires Enabled(s, 0) && Leads(Apply(s, 0), steps, t)
    ensures Leads(s, [0] + steps, t)
  {
    assert ([0] + steps)[1..] == steps;
  }

  lemma {:induction false} LeadsOn(s: Threads, first: seq<int>, t: Threads, second: seq<int>, u: Threads)
    requires Leads(s, first, t) && Leads(t, second, u)
    ensures Leads(s, first + second, u)
    decreases |first|
  {
    if first == [] {
      assert first + second == second;
    } else {
      assert (first + second)[1..] == first[1..] + second;
      LeadsOn(Apply(s, first[0]), first[1..], t, second, u);
    }
  }

  /** Code without such a guard is run through. */
  lemma {:induction false} RunsThrough(held: seq<Hold>, c: seq<Code>, rest: seq<Op>) returns (steps: seq<int>)
    requires SelfFree(held, c)
    ensures Leads(Alone(held, Flatten(c) + rest), steps, Alone(held, rest))
    decreases c
  {
    if c == [] {
      steps := [];
      assert Flatten(c) + rest == rest;
    } else if c[0].Use? {
      var outer := RunsThrough(held, c[1..], rest);
      MayTouch(held, c, rest);
      LeadsFirst(Alone(held, Flatten(c) + rest), outer, Alone(held, rest));
      steps := [0] + outer;
    } else {
      var h := Hold(c[0].lock, c[0].mode);
      var tail := Flatten(c[1..]) + rest;
      var close := [Release(h.lock)] + tail;
      FlattenFirst(c, rest);
      MayAcquire(held, h.lock, h.mode, Flatten(c[0].body) + close);
      var inner := RunsThrough(held + [h], c[0].body, close);
      MayRelease(held, h, tail);
      var outer := RunsThrough(held, c[1..], rest);
      LeadsFirst(Alone(held + [h], close), outer, Alone(held, rest));
      LeadsOn(Alone(held + [h], Flatten(c[0].body) + close), inner, Alone(held + [h], close), [0] + outer, Alone(held, rest));
      steps := [0] + (inner + ([0] + outer));
      LeadsFirst(Alone(held, Flatten(c) + rest), inner + ([0] + outer), Alone(held, rest));
    }
  }

  /** Every finished run passes the end of code that can be run through. */
  lemma {:induction false} Passes(held: seq<Hold>, c: seq<Code>, rest: seq<Op>, steps: seq<int>) returns (more: seq<int>)
    requires ValidRun(Alone(held, Flatten(c) + rest), steps) && Done(Run(Alone(held, Flatten(c) + rest), steps))
    ensures ValidRun(Alone(held, rest), more) && Done(Run(Alone(held, rest), more)) && |more| <= |steps|
    ensures SelfFree(held, c)
    decreases c
  {
    if c == [] {
      assert Flatten(c) + rest == rest;
      more := steps;
    } else if c[0].Use? {
      MayTouch(held, c, rest);
      NotDoneYet(held, Flatten(c) + rest, steps);
      OneWay(held, Flatten(c) + rest, steps[0]);
      more := Passes(held, c[1..], rest, steps[1..]);
    } else {
      var h := Hold(c[0].lock, c[0].mode);
      var tail := Flatten(c[1..]) + rest;
      var close := [Release(h.lock)] + tail;
      var all := Flatten(c) + rest;
      FlattenFirst(c, rest);
      NotDoneYet(held, all, steps);
      OneWay(held, all, steps[0]);
      assert all[1..] == Flatten(c[0].body) + close;
      var inner := Passes(held + [h], c[0].body, close, steps[1..]);
      NotDoneYet(held + [h], close, inner);
      OneWay(held + [h], close, inner[0]);
      assert close[1..] == tail && (held + [h])[..|held|] == held;
      more := Passes(held, c[1..], rest, inner[1..]);
    }
  }

  lemma NotDoneYet(held: seq<Hold>, rest: seq<Op>, steps: seq<int>)
    requires rest != [] && ValidRun(Alone(held, rest), steps) && Done(Run(Alone(held, rest), steps))
    ensures steps != [] && Enabled(Alone(held, rest), steps[0])
  {
    assert Alone(held, rest)[0].rest == rest;
  }

  /** Some run of a thread alone gets to the end of the code. */
  ghost predicate CanFinish(c: seq<Code>) {
    exists steps :: ValidRun(Alone([], Flatten(c)), steps) && Done(Run(Alone([], Flatten(c)), steps))
  }

  /** A thread alone can finish its code exactly when no guard conflicts with the guards around it. */
  lemma AloneExactly(c: seq<Code>)
    ensures CanFinish(c) <==> SelfFree([], c)
  {
    assert Flatten(c) + [] == Flatten(c);
    if SelfFree([], c) {
      var steps := RunsThrough([], c, []);
      assert Leads(Alone([], Flatten(c)), steps, Alone([], []));
      assert Done(Run(Alone([], Flatten(c)), steps));
    } else if CanFinish(c) {
      var steps :| ValidRun(Alone([], Flatten(c)), steps) && Done(Run(Alone([], Flatten(c)), steps));
      var more := Passes([], c, [], steps);
    }
  }

  lemma SelfFreeOne(held: seq<Hold>, g: Code)
    requires g.Guard?
    ensures SelfFree(held, [g]) <==>
      && (forall h :: h in held && h.lock == g.lock ==> h.mode == Shared && g.mode == Shared)
      && SelfFree(held + [Hold(g.lock, g.mode)], g.body)
  {
    assert [g][0] == g && [g][1..] == [] && SelfFree(held, []);
  }

  lemma SelfFreeUse(held: seq<Hold>, f: Field, write: bool, c: seq<Code>)
    ensures SelfFree(held, [Use(f, write)] + c) <==> SelfFree(held, c)
  {
    assert ([Use(f, write)] + c)[1..] == c;
  }

  /** `setValue` with one listener, on a thread alone, can return exactly when the listener takes its
      own variable for reading only, if at all, and has no conflict within itself. */
  lemma ListenerAlone(v: nat, code: seq<Code>)
    ensures CanFinish(CodeOf(SetValue(v, true, [Client(code)]))) <==> SelfFree([Hold(Var(v), Shared)], code)
  {
    var c := CodeOf(SetValue(v, true, [Client(code)]));
    AloneExactly(c);
    assert ListenersCode([Client(code)]) == code by { assert code + [] == code && [Client(code)][1..] == []; }
    var body := [Use(Value(v), false)] + ([Use(Listeners(v), false)] + code);
    var read, write := Guard(Var(v), Shared, body), Guard(Var(v), Exclusive, [Use(Value(v), true)]);
    assert c == [read, write] && c[0] == read && c[1..] == [write];
    SelfFreeOne([], write);
    SelfFreeUse([Hold(Var(v), Shared)], Value(v), false, [Use(Listeners(v), false)] + code);
    SelfFreeUse([Hold(Var(v), Shared)], Listeners(v), false, code);
    SelfFreeUse([Hold(Var(v), Exclusive)], Value(v), true, []);
    assert [Use(Value(v), true)] + [] == [Use(Value(v), true)] && [] + [Hold(Var(v), Exclusive)] == [Hold(Var(v), Exclusive)];
    assert [] + [Hold(Var(v), Shared)] == [Hold(Var(v), Shared)];
  }
}
