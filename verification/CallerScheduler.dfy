/** The scheduler with one worker, the caller's thread: `Scheduler(1, true)`. `stop()` runs the
    worker loop on the caller's thread until everything is drained. */
module CallerScheduler {
  import opened Wrappers
  import opened Tasks
  import opened Selections
  import opened RoundRobin

  /** A fiber object: its state and what its function has still to run. */
  datatype Cell = Cell(state: FiberState, script: Option<Script>)

  function EndState(e: End): FiberState {
    match e
    case YieldReady(_) => READY
    case YieldHold(_) => HOLD
    case Return => TERM
    case Throw => EXCEPT
  }

  /** The task a submission constructs; a null handle constructs an empty task, which is dropped. */
  function TaskOf(sub: Sub, users: nat, me: int): Option<Task<Script>> {
    match sub
    case SubHandle(id, pinned) =>
      if id < users then Some(FiberTask(id, if pinned then me else ANY_THREAD)) else None
    case SubBody(b, pinned) => Some(CallbackTask(b, if pinned then me else ANY_THREAD))
  }

  function Opt<T>(o: Option<T>): seq<T> {
    if o.Some? then [o.value] else []
  }

  function TasksOf(subs: seq<Sub>, users: nat, me: int): seq<Task<Script>> {
    if subs == [] then [] else Opt(TaskOf(subs[0], users, me)) + TasksOf(subs[1..], users, me)
  }

  lemma {:induction false} TasksOfSnoc(subs: seq<Sub>, n: nat, users: nat, me: int)
    requires n < |subs|
    ensures TasksOf(subs[..n + 1], users, me) == TasksOf(subs[..n], users, me) + Opt(TaskOf(subs[n], users, me))
  {
    if n > 0 {
      assert subs[..n + 1][1..] == subs[1..][..n] && subs[..n][1..] == subs[1..][..n - 1];
      TasksOfSnoc(subs[1..], n - 1, users, me);
    }
  }

  function ItemOf(t: Task<Script>, fibers: seq<Cell>, users: nat): Item {
    match t
    case FiberTask(f, _) =>
      if f < users then Handle(f)
      else if f < |fibers| && fibers[f].script.Some? then Body(fibers[f].script.value)
      else Handle(f)
    case CallbackTask(b, _) => Body(b)
  }

  function ItemsOf(q: seq<Task<Script>>, fibers: seq<Cell>, users: nat): (r: seq<Item>)
    ensures |r| == |q|
  {
    seq(|q|, i requires 0 <= i < |q| => ItemOf(q[i], fibers, users))
  }

  function RestOf(fibers: seq<Cell>, users: nat): (r: seq<Option<Script>>)
    requires users <= |fibers|
    ensures |r| == users
  {
    seq(users, i requires 0 <= i < users => fibers[i].script)
  }

  lemma ItemsOfAdd(p: seq<Task<Script>>, q: seq<Task<Script>>, fibers: seq<Cell>, users: nat)
    ensures ItemsOf(p + q, fibers, users) == ItemsOf(p, fibers, users) + ItemsOf(q, fibers, users)
  {}

  lemma {:induction false} ItemsOfTasks(subs: seq<Sub>, fibers: seq<Cell>, users: nat, me: int)
    ensures ItemsOf(TasksOf(subs, users, me), fibers, users) == Items(subs, users)
  {
    if subs != [] {
      var first := Opt(TaskOf(subs[0], users, me));
      ItemsOfTasks(subs[1..], fibers, users, me);
      ItemsOfAdd(first, TasksOf(subs[1..], users, me), fibers, users);
      assert ItemsOf(first, fibers, users) == Items([subs[0]], users) by {
        assert [subs[0]][1..] == [];
      }
      assert Items(subs, users) == Items([subs[0]], users) + Items(subs[1..], users) by {
        assert [subs[0]][1..] == [];
      }
    }
  }

  /** Task `t` is submission `sub`, pinned to `me` if the submitter says so. */
  predicate Carries(t: Task<Script>, sub: Sub, me: int) {
    match sub
    case SubHandle(id, pinned) => t.FiberTask? && t.fiber == id && t.thread == if pinned then me else -1
    case SubBody(body, pinned) => t.CallbackTask? && t.cb == body && t.thread == if pinned then me else -1
  }

  ghost predicate CarriesAt(q: seq<Task<Script>>, subs: seq<Sub>, users: nat, me: int, idx: seq<nat>) {
    && |q| == |idx| && Lists(idx, set i: nat | i < |subs| && Takes(subs[i], users))
    && forall k :: 0 <= k < |q| ==> idx[k] < |subs| && Carries(q[k], subs[idx[k]], me)
  }

  /** A segment's submissions become tasks in order; a null handle becomes none. */
  lemma {:induction false} SubmitsInOrder(subs: seq<Sub>, users: nat, me: int) returns (idx: seq<nat>)
    ensures CarriesAt(TasksOf(subs, users, me), subs, users, me, idx)
    decreases |subs|
  {
    idx := [];
    if subs != [] {
      var n := |subs| - 1;
      idx := SubmitsInOrder(subs[..n], users, me);
      TasksOfSnoc(subs, n, users, me);
      assert subs[..n + 1] == subs;
      var before, all := set i: nat | i < n && Takes(subs[..n][i], users), set i: nat | i < |subs| && Takes(subs[i], users);
      assert all == if Takes(subs[n], users) then before + {n} else before;
      if Takes(subs[n], users) {
        ListsSnoc(idx, before, n);
        idx := idx + [n];
      }
    }
  }

  /** A task of this worker: its fiber exists and its pin allows the thread. */
  predicate TaskOK(t: Task<Script>, n: nat, me: int) {
    PinAllows(t.thread, me) && (t.FiberTask? ==> t.fiber < n)
  }

  /** A fiber made for a callback is queued only when it has work left and is not kept for recycling. */
  predicate BoundOK(t: Task<Script>, fibers: seq<Cell>, users: nat, slot: Option<nat>) {
    t.FiberTask? && users <= t.fiber < |fibers| ==>
      slot != Some(t.fiber) && fibers[t.fiber].script.Some? && !Finished(fibers[t.fiber].state)
  }

  predicate IsFor(t: Task<Script>, f: nat) {
    t.FiberTask? && t.fiber == f
  }

  ghost predicate QueuedOnce(tasks: seq<Task<Script>>, f: nat) {
    forall i, j :: 0 <= i < j < |tasks| && IsFor(tasks[i], f) ==> !IsFor(tasks[j], f)
  }

  predicate CellOK(c: Cell, user: bool) {
    c.state != EXEC && (user ==> (c.script.Some? <==> !Finished(c.state)))
  }

  lemma {:induction false} TasksOfOK(subs: seq<Sub>, users: nat, me: int, n: nat)
    requires users <= n
    ensures forall t :: t in TasksOf(subs, users, me) ==> TaskOK(t, n, me) && (t.FiberTask? ==> t.fiber < users)
  {
    if subs != [] { TasksOfOK(subs[1..], users, me, n); }
  }

  /** Between two claims, with `slot` the callback fiber kept for recycling. The fibers past `users`
      were made for callbacks; a queued one is READY and queued once. */
  ghost predicate QueueValid(tasks: seq<Task<Script>>, fibers: seq<Cell>, users: nat, me: int, slot: Option<nat>) {
    && users <= |fibers|
    && (forall t :: t in tasks ==> TaskOK(t, |fibers|, me) && BoundOK(t, fibers, users, slot))
    && (forall f :: 0 <= f < |fibers| ==> CellOK(fibers[f], f < users))
    && (forall f :: users <= f < |fibers| ==> QueuedOnce(tasks, f))
    && (slot.Some? ==> users <= slot.value < |fibers| && fibers[slot.value] == Cell(INIT, None))
  }

  /** Fiber `f` may be resumed: it has work left, and unless it is a client's fiber it is neither
      queued nor kept for recycling. */
  ghost predicate Resumable(tasks: seq<Task<Script>>, fibers: seq<Cell>, users: nat, slot: Option<nat>, f: nat) {
    && f < |fibers| && fibers[f].script.Some? && !Finished(fibers[f].state)
    && (f >= users ==> slot != Some(f) && NotQueued(tasks, f))
  }

  /** The queue after one segment of `f`: `f` is queued again exactly when it yielded READY. */
  function QueueAfter(tasks: seq<Task<Script>>, s: Script, users: nat, me: int, f: nat): seq<Task<Script>> {
    tasks + TasksOf(s.subs, users, me) + if s.end.YieldReady? then [FiberTask(f, ANY_THREAD)] else []
  }

  /** The queue after a segment holds a callback's fiber at most once. */
  lemma SegmentOnce(tasks: seq<Task<Script>>, s: Script, users: nat, me: int, f: nat, g: nat)
    requires g >= users && QueuedOnce(tasks, g) && (f == g ==> NotQueued(tasks, f))
    ensures QueuedOnce(QueueAfter(tasks, s, users, me, f), g)
    ensures f == g && !s.end.YieldReady? ==> NotQueued(QueueAfter(tasks, s, users, me, f), g)
  {
    var subs := TasksOf(s.subs, users, me);
    var q := QueueAfter(tasks, s, users, me, f);
    TasksOfOK(s.subs, users, me, users);
    forall i | 0 <= i < |q|
      ensures IsFor(q[i], g) ==> (i < |tasks| && IsFor(tasks[i], g)) || (i == |tasks| + |subs| && f == g)
    {
      if |tasks| <= i < |tasks| + |subs| { assert q[i] == subs[i - |tasks|] && q[i] in subs; }
    }
  }

  lemma SegmentValid(tasks: seq<Task<Script>>, fibers: seq<Cell>, users: nat, me: int, slot: Option<nat>, f: nat)
    requires QueueValid(tasks, fibers, users, me, slot) && Resumable(tasks, fibers, users, slot, f)
    ensures var s := fibers[f].script.value;
      QueueValid(QueueAfter(tasks, s, users, me, f), fibers[f := Cell(EndState(s.end), NextOf(s.end))], users, me, slot)
    ensures var s := fibers[f].script.value;
      f >= users && !s.end.YieldReady? ==> NotQueued(QueueAfter(tasks, s, users, me, f), f)
  {
    var s := fibers[f].script.value;
    var after := fibers[f := Cell(EndState(s.end), NextOf(s.end))];
    var subs := TasksOf(s.subs, users, me);
    var q := QueueAfter(tasks, s, users, me, f);
    TasksOfOK(s.subs, users, me, |fibers|);
    forall t | t in q ensures TaskOK(t, |after|, me) && BoundOK(t, after, users, slot) {
      assert t in tasks || t in subs || t == FiberTask(f, ANY_THREAD);
      assert f >= users && t in tasks ==> !IsFor(t, f);
    }
    forall g | users <= g < |after| ensures QueuedOnce(q, g) {
      SegmentOnce(tasks, s, users, me, f, g);
    }
    if f >= users { SegmentOnce(tasks, s, users, me, f, f); }
  }

  lemma SegmentAbs(tasks: seq<Task<Script>>, fibers: seq<Cell>, users: nat, me: int, slot: Option<nat>, f: nat)
    requires QueueValid(tasks, fibers, users, me, slot) && Resumable(tasks, fibers, users, slot, f)
    ensures var s := fibers[f].script.value;
      var after := fibers[f := Cell(EndState(s.end), NextOf(s.end))];
      var again := if s.end.YieldReady? then [if f < users then Handle(f) else Body(s.end.next)] else [];
      && ItemsOf(QueueAfter(tasks, s, users, me, f), after, users) == ItemsOf(tasks, fibers, users) + Items(s.subs, users) + again
      && RestOf(after, users) == if f < users then RestOf(fibers, users)[f := NextOf(s.end)] else RestOf(fibers, users)
  {
    var s := fibers[f].script.value;
    var after := fibers[f := Cell(EndState(s.end), NextOf(s.end))];
    ItemsOfTasks(s.subs, after, users, me);
    assert ItemsOf(tasks, after, users) == ItemsOf(tasks, fibers, users);
  }

  ghost predicate NotQueued(tasks: seq<Task<Script>>, f: nat) {
    forall i :: 0 <= i < |tasks| ==> !IsFor(tasks[i], f)
  }

  /** Binding a callback to the recycled fiber, or to a new one. */
  lemma BindOK(tasks: seq<Task<Script>>, fibers: seq<Cell>, users: nat, me: int, slot: Option<nat>, body: Script)
    requires QueueValid(tasks, fibers, users, me, slot)
    ensures var c := if slot.Some? then slot.value else |fibers|;
      var bound := if slot.Some? then fibers[c := Cell(INIT, Some(body))] else fibers + [Cell(INIT, Some(body))];
      && QueueValid(tasks, bound, users, me, None) && Resumable(tasks, bound, users, None, c)
      && ItemsOf(tasks, bound, users) == ItemsOf(tasks, fibers, users) && RestOf(bound, users) == RestOf(fibers, users)
  {
    assert forall i :: 0 <= i < |tasks| ==> tasks[i] in tasks;
  }

  /** Keeping a finished callback fiber for recycling. */
  lemma RecycleOK(tasks: seq<Task<Script>>, fibers: seq<Cell>, users: nat, me: int, c: nat)
    requires QueueValid(tasks, fibers, users, me, None) && users <= c < |fibers| && NotQueued(tasks, c)
    ensures var kept := fibers[c := Cell(INIT, None)];
      && QueueValid(tasks, kept, users, me, Some(c))
      && ItemsOf(tasks, kept, users) == ItemsOf(tasks, fibers, users) && RestOf(kept, users) == RestOf(fibers, users)
  {
    assert forall i :: 0 <= i < |tasks| ==> tasks[i] in tasks;
  }

  /** The first task is gone from the queue, and its fiber may be resumed. */
  lemma FirstClaimed(was: seq<Task<Script>>, fibers: seq<Cell>, users: nat, me: int, slot: Option<nat>)
    requires QueueValid(was, fibers, users, me, slot) && was != []
    ensures QueueValid(was[1..], fibers, users, me, slot)
    ensures was[0].FiberTask? && was[0].fiber >= users ==> NotQueued(was[1..], was[0].fiber)
    ensures was[0].FiberTask? && (was[0].fiber >= users || !Finished(fibers[was[0].fiber].state)) ==>
      Resumable(was[1..], fibers, users, slot, was[0].fiber)
  {
    assert was[0] in was;
    assert forall i :: 0 <= i < |was| - 1 ==> was[1..][i] == was[i + 1];
    assert forall t :: t in was[1..] ==> t in was;
    forall f | users <= f < |fibers|
      ensures QueuedOnce(was[1..], f) && (IsFor(was[0], f) ==> NotQueued(was[1..], f))
    {
      assert QueuedOnce(was, f);
      assert forall i :: 0 <= i < |was| - 1 && IsFor(was[1..][i], f) ==> IsFor(was[i + 1], f);
    }
  }

  lemma FirstItem(was: seq<Task<Script>>, fibers: seq<Cell>, users: nat)
    requires was != []
    ensures ItemsOf(was, fibers, users) == [ItemOf(was[0], fibers, users)] + ItemsOf(was[1..], fibers, users)
  {}

  class Scheduler {
    const me: int
    const users: nat
    var tasks: seq<Task<Script>>
    var fibers: seq<Cell>
    var active: int
    var idleCount: int
    var autoStop: bool
    var isStopping: bool
    var rootState: FiberState
    var log: seq<Event>

    /** The queue as items and what the client's fibers have left. */
    ghost function Abs(): Table
      reads this`tasks, this`fibers
      requires users <= |fibers|
    {
      Table(ItemsOf(tasks, fibers, users), RestOf(fibers, users))
    }

    ghost predicate Valid(slot: Option<nat>)
      reads this`tasks, this`fibers
    {
      QueueValid(tasks, fibers, users, me, slot)
    }

    constructor (me: int, bodies: seq<Script>)
      ensures Valid(None) && tasks == [] && log == [] && active == 0 && idleCount == 0
      ensures this.me == me && users == |bodies| && !autoStop && isStopping && rootState == INIT
      ensures Abs() == Table([], seq(|bodies|, i requires 0 <= i < |bodies| => Some(bodies[i])))
    {
      this.me := me;
      users := |bodies|;
      tasks := [];
      fibers := seq(|bodies|, i requires 0 <= i < |bodies| => Cell(INIT, Some(bodies[i])));
      active, idleCount := 0, 0;
      autoStop, isStopping := false, true;
      rootState := INIT;
      log := [];
    }

    /** Appends a non-empty task and reports whether the queue was empty before. */
    method ScheduleNoLock(t: Option<Task<Script>>) returns (needTickle: bool)
      modifies this`tasks
      ensures tasks == old(tasks) + Opt(t)
      ensures needTickle <==> old(tasks) == []
    {
      needTickle := tasks == [];
      if t.Some? {
        tasks := tasks + [t.value];
      }
    }

    /** The batch overload: the non-empty elements are appended in order and every element is moved
        from, so that the source is left empty. */
    method ScheduleAll(src: array<Option<Item>>) returns (needTickle: bool)
      modifies this`tasks, src
      ensures old(tasks) <= tasks && Appends(tasks[|old(tasks)|..], old(src[..]))
      ensures forall i :: 0 <= i < src.Length ==> src[i].None?
      ensures needTickle <==> old(tasks) == [] && src.Length > 0
    {
      needTickle := false;
      var i := 0;
      while i < src.Length
        invariant 0 <= i <= src.Length
        invariant tasks == old(tasks) + NonEmpty(old(src[..i]))
        invariant forall j :: 0 <= j < i ==> src[j].None?
        invariant forall j :: i <= j < src.Length ==> src[j] == old(src[j])
        invariant needTickle <==> old(tasks) == [] && i > 0
      {
        var need := ScheduleNoLock(Unpinned(src[i]));
        src[i] := None;
        needTickle := need || needTickle;
        NonEmptySnoc(old(src[..]), i);
        assert old(src[..])[..i] == old(src[..i]) && old(src[..])[..i + 1] == old(src[..i + 1]);
        i := i + 1;
      }
      assert old(src[..i]) == old(src[..]);
      assert tasks[|old(tasks)|..] == NonEmpty(old(src[..]));
      var idx := NonEmptyAppends(old(src[..]));
    }

    ghost function Executing(): set<nat>
      reads this`fibers
    {
      set f | 0 <= f < |fibers| && fibers[f].state == EXEC
    }

    /** One scan: the first eligible task is claimed and counted. */
    method Claim() returns (ft: Option<Task<Script>>)
      requires forall t :: t in tasks && t.FiberTask? ==> t.fiber < |fibers|
      modifies this`tasks, this`active
      ensures var k := FirstEligible(old(tasks), me, Executing());
        if k < |old(tasks)|
        then ft == Some(old(tasks)[k]) && tasks == RemoveAt(old(tasks), k) && active == old(active) + 1
        else ft == None && tasks == old(tasks) && active == old(active)
    {
      ft := None;
      var it := 0;
      while it < |tasks|
        invariant 0 <= it <= |tasks| && tasks == old(tasks) && active == old(active) && ft == None
        invariant forall j :: 0 <= j < it ==> !Eligible(tasks[j], me, Executing())
      {
        if tasks[it].thread != ANY_THREAD && tasks[it].thread != me {
          it := it + 1;
          continue;
        }
        assert tasks[it] in tasks;
        if tasks[it].FiberTask? && fibers[tasks[it].fiber].state == EXEC {
          it := it + 1;
          continue;
        }
        ft := Some(tasks[it]);
        tasks := RemoveAt(tasks, it);
        active := active + 1;
        break;
      }
    }

    /** From `swapIn` of fiber `f` to its `swapOut`: one segment, which submits its work and yields,
        returns or throws. `who` labels the segment in the log. */
    method Switch(f: nat, who: Option<nat>)
      requires f < |fibers| && fibers[f].script.Some? && users <= |fibers|
      requires fibers[f].state != EXEC
      modifies this`tasks, this`fibers, this`log
      ensures var s := old(fibers[f].script.value);
        && tasks == old(tasks) + TasksOf(s.subs, users, me)
        && fibers == old(fibers)[f := Cell(EndState(s.end), NextOf(s.end))]
        && fibers[f].state == (match s.end
             case YieldReady(_) => READY case YieldHold(_) => HOLD case Return => TERM case Throw => EXCEPT)
        && log == old(log) + [Event(who, s.subs, s.end)]
    {
      var s := fibers[f].script.value;
      fibers := fibers[f := Cell(EXEC, Some(s))];
      var i := 0;
      while i < |s.subs|
        invariant 0 <= i <= |s.subs|
        invariant tasks == old(tasks) + TasksOf(s.subs[..i], users, me)
        invariant fibers == old(fibers)[f := Cell(EXEC, Some(s))] && log == old(log)
      {
        var _ := ScheduleNoLock(TaskOf(s.subs[i], users, me));
        TasksOfSnoc(s.subs, i, users, me);
        i := i + 1;
      }
      assert s.subs[..i] == s.subs;
      fibers := fibers[f := Cell(EndState(s.end), NextOf(s.end))];
      log := log + [Event(who, s.subs, s.end)];
    }

    /** A claimed fiber: skipped when it has finished, otherwise resumed, then queued again or
        parked. */
    method RunFiber(f: nat, slot: Option<nat>, ghost a: Table)
      requires Valid(slot) && f < |fibers|
      requires !Finished(fibers[f].state) ==> Resumable(tasks, fibers, users, slot, f)
      requires f >= users ==> !Finished(fibers[f].state)
      requires a.queue == [ItemOf(FiberTask(f, ANY_THREAD), fibers, users)] + Abs().queue && a.rest == Abs().rest
      modifies this`tasks, this`fibers, this`log, this`active
      ensures Valid(slot) && active == old(active) - 1
      ensures Abs() == Turn(a).0 && log == old(log) + Turn(a).1
    {
      assert a.queue[1..] == Abs().queue;
      if Finished(fibers[f].state) {
        active := active - 1;
        return;
      }
      SegmentValid(tasks, fibers, users, me, slot, f);
      SegmentAbs(tasks, fibers, users, me, slot, f);
      ghost var s, q, cells := fibers[f].script.value, tasks, fibers;
      Switch(f, if f < users then Some(f) else None);
      active := active - 1;
      if fibers[f].state == READY {
        var _ := ScheduleNoLock(Some(FiberTask(f, ANY_THREAD)));
      } else if !Finished(fibers[f].state) {
        fibers := fibers[f := fibers[f].(state := HOLD)];
      }
      assert tasks == QueueAfter(q, s, users, me, f);
      assert fibers == cells[f := Cell(EndState(s.end), NextOf(s.end))];
    }

    /** A claimed callback runs on the recycled fiber, or on a new one. A fiber that comes back
        unfinished leaves the slot. */
    method RunCallback(body: Script, slot: Option<nat>, ghost a: Table) returns (slot': Option<nat>)
      requires Valid(slot)
      requires a.queue == [Body(body)] + Abs().queue && a.rest == Abs().rest
      modifies this`tasks, this`fibers, this`log, this`active
      ensures Valid(slot') && active == old(active) - 1
      ensures Abs() == Turn(a).0 && log == old(log) + Turn(a).1
    {
      assert a.queue[1..] == Abs().queue;
      BindOK(tasks, fibers, users, me, slot, body);
      var c: nat;
      if slot.Some? {
        c := slot.value;
        fibers := fibers[c := Cell(INIT, Some(body))];
      } else {
        c := |fibers|;
        fibers := fibers + [Cell(INIT, Some(body))];
      }
      SegmentValid(tasks, fibers, users, me, None, c);
      SegmentAbs(tasks, fibers, users, me, None, c);
      ghost var q, cells := tasks, fibers;
      Switch(c, None);
      active := active - 1;
      slot' := None;
      if fibers[c].state == READY {
        var _ := ScheduleNoLock(Some(FiberTask(c, ANY_THREAD)));
      } else if Finished(fibers[c].state) {
        assert tasks == QueueAfter(q, body, users, me, c);
        RecycleOK(tasks, fibers, users, me, c);
        fibers := fibers[c := Cell(INIT, None)];
        slot' := Some(c);
      } else {
        fibers := fibers[c := fibers[c].(state := HOLD)];
        assert fibers == cells[c := Cell(HOLD, NextOf(body.end))];
      }
      assert tasks == QueueAfter(q, body, users, me, c);
    }

    /** Every queued task is this worker's, so a scan takes the first one or finds none. */
    lemma ScanTakesFirst(slot: Option<nat>)
      requires Valid(slot)
      ensures FirstEligible(tasks, me, Executing()) == 0
      ensures tasks != [] ==> PinAllows(tasks[0].thread, me) && (tasks[0].FiberTask? ==> tasks[0].fiber < |fibers|)
    {
      assert Executing() == {};
      if tasks != [] { assert tasks[0] in tasks; }
    }

    method Stopping() returns (r: bool)
      ensures r <==> autoStop && isStopping && tasks == [] && active == 0
    {
      r := autoStop && isStopping && tasks == [] && active == 0;
    }

    /** Claiming: the first task leaves the queue, and its fiber may be resumed. */
    method ClaimFirst(slot: Option<nat>) returns (ft: Option<Task<Script>>)
      requires Valid(slot)
      modifies this`tasks, this`active
      ensures Valid(slot)
      ensures old(tasks) == [] ==> ft == None && tasks == [] && active == old(active)
      ensures old(tasks) != [] ==> ft == Some(old(tasks)[0]) && tasks == old(tasks)[1..] && active == old(active) + 1
      ensures old(tasks) != [] ==> old(Abs()).queue == [ItemOf(old(tasks)[0], fibers, users)] + Abs().queue
      ensures old(tasks) != [] && old(tasks)[0].FiberTask? ==>
        var f := old(tasks)[0].fiber;
        && f < |fibers| && (!Finished(fibers[f].state) ==> Resumable(tasks, fibers, users, slot, f))
        && (f >= users ==> !Finished(fibers[f].state))
    {
      ghost var was := tasks;
      ScanTakesFirst(slot);
      ft := Claim();
      if was != [] {
        assert tasks == was[1..];
        FirstClaimed(was, fibers, users, me, slot);
        FirstItem(was, fibers, users);
      }
    }

    /** One iteration of the loop up to the idle branch: the first task takes its turn. */
    method TakeTurn(slot: Option<nat>) returns (found: bool, slot': Option<nat>)
      requires Valid(slot)
      modifies this`tasks, this`fibers, this`log, this`active
      ensures Valid(slot') && active == old(active) && (found <==> old(tasks) != [])
      ensures found ==> Abs() == Turn(old(Abs())).0 && log == old(log) + Turn(old(Abs())).1
      ensures !found ==> slot' == slot && tasks == [] && fibers == old(fibers) && log == old(log)
    {
      ghost var a := Abs();
      slot' := slot;
      var ft := ClaimFirst(slot);
      found := ft.Some?;
      if ft.Some? {
        if ft.value.FiberTask? {
          assert ItemOf(ft.value, fibers, users) == ItemOf(FiberTask(ft.value.fiber, ANY_THREAD), fibers, users);
          RunFiber(ft.value.fiber, slot, a);
        } else {
          slot' := RunCallback(ft.value.cb, slot, a);
        }
      }
    }

    /** The idle fiber runs once: it asks `stopping()` and ends, or yields. */
    method RunIdle() returns (idle: FiberState)
      modifies this`idleCount
      ensures idleCount == old(idleCount)
      ensures idle == if autoStop && isStopping && tasks == [] && active == 0 then TERM else HOLD
    {
      idleCount := idleCount + 1;
      var stop := Stopping();
      idle := if stop then TERM else HOLD;
      idleCount := idleCount - 1;
    }

    /** The log so far and the rotation of what is left make up `whole`. */
    ghost predicate Remains(start: seq<Event>, whole: Outcome)
      reads this`tasks, this`fibers, this`log
      requires users <= |fibers|
    {
      log + Rotate(Abs()).log == start + whole.log && Rotate(Abs()).rest == whole.rest
    }

    /** A turn, seen from the whole rotation: it leaves less to do. */
    method RotateTurn(slot: Option<nat>, ghost start: seq<Event>, ghost whole: Outcome) returns (found: bool, slot': Option<nat>)
      requires Valid(slot) && Remains(start, whole)
      modifies this`tasks, this`fibers, this`log, this`active
      ensures Valid(slot') && active == old(active) && Remains(start, whole)
      ensures found ==> Less(Abs(), old(Abs()))
      ensures !found ==> tasks == [] && Abs() == old(Abs())
    {
      ghost var a, before := Abs(), log;
      found, slot' := TakeTurn(slot);
      if found {
        AfterTurn(a, before, start + whole.log);
        TurnDecreases(a);
      }
    }

    /** The worker loop on the caller's thread, once `stop()` has set both flags. It ends, with the
        queue empty and the counters back at zero, after exactly the turns of the rotation. */
    method Run()
      requires Valid(None) && autoStop && isStopping && active == 0 && idleCount == 0
      modifies this`tasks, this`fibers, this`log, this`active, this`idleCount
      ensures users <= |fibers| && tasks == [] && active == 0 && idleCount == 0
      ensures log == old(log) + Rotate(old(Abs())).log
      ensures Abs().rest == Rotate(old(Abs())).rest
    {
      var idle := INIT;
      var cbFiber: Option<nat> := None;
      ghost var start, whole := log, Rotate(Abs());
      while true
        invariant Valid(cbFiber) && active == 0 && idleCount == 0 && Remains(start, whole)
        invariant idle == INIT || idle == TERM
        decreases Work(Abs()), |Abs().queue|, if idle == INIT then 1 else 0
      {
        var found;
        found, cbFiber := RotateTurn(cbFiber, start, whole);
        if !found {
          if idle == TERM {
            break;
          }
          idle := RunIdle();
        }
      }
      RotateEmpty(Abs());
    }

    /** `stop()` of a scheduler without pool threads, called for the first time. */
    method Stop()
      requires Valid(None) && active == 0 && idleCount == 0 && rootState == INIT
      modifies this
      ensures users <= |fibers| && tasks == [] && active == 0 && idleCount == 0 && autoStop && isStopping
      ensures log == old(log) + Rotate(old(Abs())).log
      ensures Abs().rest == Rotate(old(Abs())).rest
      ensures rootState == if old(tasks) == [] then INIT else TERM
    {
      autoStop := true;
      if rootState == TERM || rootState == INIT {
        isStopping := true;
        var early := Stopping();
        if early {
          return;
        }
      }
      isStopping := true;
      var stop := Stopping();
      if !stop {
        rootState := EXEC;
        Run();
        rootState := TERM;
      }
    }
  }

  function Unpinned(o: Option<Item>): Option<Task<Script>> {
    match o
    case None => None
    case Some(Handle(id)) => Some(FiberTask(id, ANY_THREAD))
    case Some(Body(b)) => Some(CallbackTask(b, ANY_THREAD))
  }

  function NonEmpty(q: seq<Option<Item>>): (r: seq<Task<Script>>) {
    if q == [] then [] else Opt(Unpinned(q[0])) + NonEmpty(q[1..])
  }

  /** The element of a batch as a task: a client's fiber or a callback, for any thread. */
  predicate AsTask(t: Task<Script>, o: Option<Item>) {
    match o
    case None => false
    case Some(Handle(id)) => t.FiberTask? && t.fiber == id && t.thread == -1
    case Some(Body(b)) => t.CallbackTask? && t.cb == b && t.thread == -1
  }

  ghost predicate AppendsAt(q: seq<Task<Script>>, src: seq<Option<Item>>, idx: seq<nat>) {
    && |q| == |idx| && Lists(idx, set i: nat | i < |src| && src[i].Some?)
    && forall k :: 0 <= k < |q| ==> idx[k] < |src| && AsTask(q[k], src[idx[k]])
  }

  /** `q` are the non-empty elements of the batch, in order. */
  ghost predicate Appends(q: seq<Task<Script>>, src: seq<Option<Item>>) {
    exists idx: seq<nat> :: AppendsAt(q, src, idx)
  }

  lemma {:induction false} NonEmptyAppends(src: seq<Option<Item>>) returns (idx: seq<nat>)
    ensures AppendsAt(NonEmpty(src), src, idx)
    decreases |src|
  {
    idx := [];
    if src != [] {
      var n := |src| - 1;
      idx := NonEmptyAppends(src[..n]);
      NonEmptySnoc(src, n);
      assert src[..n + 1] == src;
      var before, all := set i: nat | i < n && src[..n][i].Some?, set i: nat | i < |src| && src[i].Some?;
      assert all == if src[n].Some? then before + {n} else before;
      if src[n].Some? {
        ListsSnoc(idx, before, n);
        idx := idx + [n];
      }
    }
  }

  lemma {:induction false} NonEmptySnoc(q: seq<Option<Item>>, n: nat)
    requires n < |q|
    ensures NonEmpty(q[..n + 1]) == NonEmpty(q[..n]) + Opt(Unpinned(q[n]))
  {
    if n > 0 {
      assert q[..n + 1][1..] == q[1..][..n] && q[..n][1..] == q[1..][..n - 1];
      NonEmptySnoc(q[1..], n - 1);
    }
  }
}
