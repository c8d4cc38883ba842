/** The scheduler in imperative form: the bodies of the source's functions, cut where another thread
    can come in between. Every run of the transition system is a run of this machine. */
module SchedulerMachine {
  import opened Wrappers
  import opened Tasks
  import opened SchedulerModel
  import opened SchedulerInvariant
  import opened SchedulerSteps
  import opened SchedulerTheorems
  import opened SchedulerSafety

  class Machine {
    var queue: seq<Task<nat>>
    var fibers: map<nat, Fiber>
    var handles: set<nat>
    var workers: map<int, Worker>
    var active: int
    var idleCount: int
    var ctl: Control
    var hist: History

    constructor (c: Config)
      ensures View() == Init(c)
    {
      queue, fibers, handles := [], map[], {};
      workers := map w | w in WorkerIds(c) :: if c.root == Some(w) then CALLER_WORKER else POOL_WORKER;
      active, idleCount := 0, 0;
      ctl := Control(c.root, INIT, false, false, true, NotCalled);
      hist := History([], [], {}, [], [], 0, map[]);
    }

    function View(): World
      reads this
    {
      World(queue, fibers, handles, workers, active, idleCount, ctl, hist)
    }

    // -------------------------------------------------------------- fiber.cpp

    /** `Fiber::swapIn`. The checks of the source are preconditions here; that they hold in every
        reachable state is proved of the transition system. */
    method SwapIn(w: int, f: nat, site: Site)
      requires w in workers && f in fibers && fibers[f].state != EXEC
      modifies this`workers, this`fibers, this`hist
      ensures View() == SchedulerModel.SwapIn(old(View()), w, f, site)
    {
      var x := workers[w].(current := CoFiber(f));
      fibers := fibers[f := fibers[f].(state := EXEC)];
      var stack := f;
      match fibers[f].ctx {
        case Entry =>
        case Suspended(k) => stack := k;
        case Spent(k) => stack := k;
      }
      x := SaveIn(x, x.main, Loop(site));
      workers := workers[w := x.(pc := InFiber(stack, Entering))];
      hist := hist.(resumed := hist.resumed[f := (w, site)]);
    }

    /** `Fiber::swapOut`, called on `cur` by the code running on stack `e`. */
    method SwapOut(w: int)
      requires w in workers && workers[w].pc.InFiber? && workers[w].pc.phase.Leaving?
      requires MainCtx(workers[w]).Loop? && workers[w].pc.phase.cur in fibers
      modifies this`workers, this`fibers
      ensures View() == Leave(old(View()), w)
    {
      var e, cur, last := workers[w].pc.exec, workers[w].pc.phase.cur, workers[w].pc.phase.last;
      workers := workers[w := workers[w].(current := workers[w].main)];
      if last {
        fibers := fibers[cur := fibers[cur].(ctx := Spent(e))];
      } else {
        fibers := fibers[cur := fibers[cur].(ctx := Suspended(e))];
      }
      workers := workers[w := workers[w].(pc := Back(MainCtx(workers[w]).site))];
    }

    /** `GetThis` on a fiber's stack, where `t_fiber` is set. */
    method GetThis(w: int) returns (f: nat)
      requires w in workers && workers[w].pc.InFiber? && workers[w].current == CoFiber(workers[w].pc.exec)
      ensures f == workers[w].pc.exec
    {
      f := workers[w].current.id;
    }

    /** The start of `MainFunc`, or the return of `swapOut` inside `YieldTo*`. */
    method EnterFiber(w: int)
      requires Enabled(View(), SchedulerModel.EnterFiber(w)) && ChecksPass(View(), SchedulerModel.EnterFiber(w))
      modifies this`workers, this`fibers, this`hist
      ensures View() == Enter(old(View()), w)
    {
      var e := workers[w].pc.exec;
      if fibers[e].ctx == Entry {
        var cur := GetThis(w);
        fibers := fibers[cur := fibers[cur].(mainRef := Some(cur))];
        if fibers[cur].fn.TaskFn? {
          hist := hist.(started := hist.started + [fibers[cur].fn.uid]);
        }
      } else {
        fibers := fibers[e := fibers[e].(yieldRef := None)];
      }
      assert old(hist.started) + [] == old(hist.started);
      workers := workers[w := workers[w].(pc := InFiber(e, Running))];
    }

    /** `YieldToReady` and `YieldToHold` up to their `swapOut`. */
    method YieldTo(w: int, st: FiberState)
      requires InTask(View(), w) && CurrentRuns(View(), w)
      modifies this`workers, this`fibers
      ensures View() == BeginYield(old(View()), w, st)
    {
      var cur := GetThis(w);
      fibers := fibers[cur := fibers[cur].(yieldRef := Some(cur))];
      fibers := fibers[cur := fibers[cur].(state := st)];
      workers := workers[w := workers[w].(pc := InFiber(cur, Leaving(cur, false)))];
    }

    /** The rest of `MainFunc` once the function has returned or thrown. */
    method MainFuncEnd(w: int, threw: bool)
      requires InTask(View(), w) && CurrentRuns(View(), w)
      requires fibers[workers[w].pc.exec].mainRef == Some(workers[w].pc.exec)
      modifies this`workers, this`fibers
      ensures View() == BeginFinish(old(View()), w, threw)
    {
      var e := workers[w].pc.exec;
      var cur := fibers[e].mainRef.value;
      if threw {
        fibers := fibers[cur := fibers[cur].(state := EXCEPT)];
      } else {
        fibers := fibers[cur := fibers[cur].(fn := NoFn)];
        fibers := fibers[cur := fibers[cur].(state := TERM)];
      }
      fibers := fibers[e := fibers[e].(mainRef := None)];
      workers := workers[w := workers[w].(pc := InFiber(e, Leaving(cur, true)))];
    }

    /** `Fiber::reset`. */
    method Reset(f: nat, fn: Fn)
      requires f in fibers && (Finished(fibers[f].state) || fibers[f].state == INIT)
      modifies this`fibers
      ensures fibers == old(fibers)[f := old(fibers)[f].(state := INIT, fn := fn, ctx := Entry)]
    {
      fibers := fibers[f := fibers[f].(fn := fn)];
      fibers := fibers[f := fibers[f].(ctx := Entry)];
      fibers := fibers[f := fibers[f].(state := INIT)];
    }

    // -------------------------------------------------------------- scheduler.cpp, run

    /** scheduler.cpp:68-85: the search for the first eligible task. */
    method Find(w: int) returns (it: nat)
      requires forall t :: t in queue && t.FiberTask? ==> t.fiber in fibers
      ensures it == FirstEligible(queue, w, Executing(View()))
    {
      ghost var executing := Executing(View());
      it := 0;
      while it < |queue|
        invariant 0 <= it <= |queue|
        invariant forall j :: 0 <= j < it ==> !Eligible(queue[j], w, executing)
      {
        if queue[it].thread != ANY_THREAD && queue[it].thread != w {
          it := it + 1;
          continue;
        }
        assert queue[it] in queue;
        if queue[it].FiberTask? && fibers[queue[it].fiber].state == EXEC {
          it := it + 1;
          continue;
        }
        break;
      }
    }

    /** scheduler.cpp:66-92: the scan under the lock. */
    method Scan(w: int)
      requires AtPc(View(), w, Head)
      requires forall t :: t in queue && t.FiberTask? ==> t.fiber in fibers
      modifies this`workers, this`queue, this`active, this`hist
      ensures View() == ScanQueue(old(View()), w)
    {
      var it := Find(w);
      if it < |queue| {
        var ft := queue[it];
        queue := RemoveAt(queue, it);
        active := active + 1;
        hist := hist.(claims := hist.claims + [Claim(w, ft)]);
        if it < |hist.order| {
          hist := hist.(order := RemoveAt(hist.order, it));
        }
        workers := workers[w := workers[w].(pc := Claimed, ft := Some(ft))];
      } else {
        workers := workers[w := workers[w].(pc := ScannedEmpty)];
      }
    }

    /** scheduler.cpp:98-100, 110-117 and 130-132: what to do with the claimed task; `spare` is the fiber object
        that a callback gets when there is none to recycle. */
    method Dispatch(w: int, spare: nat)
      requires Enabled(View(), SchedulerModel.Dispatch(w, spare)) && ChecksPass(View(), SchedulerModel.Dispatch(w, spare))
      modifies this`workers, this`fibers, this`active, this`hist
      ensures View() == DispatchClaim(old(View()), w, spare)
    {
      match workers[w].ft.value {
        case FiberTask(f, _) =>
          if fibers[f].state != TERM && fibers[f].state != EXCEPT {
            SwapIn(w, f, SiteFiber);
          } else {
            active := active - 1;
            workers := workers[w := workers[w].(pc := Head, ft := None)];
          }
        case CallbackTask(uid, _) =>
          DispatchCallback(w, uid, spare);
      }
    }

    /** scheduler.cpp:110-117. */
    method DispatchCallback(w: int, uid: nat, spare: nat)
      requires AtPc(View(), w, Claimed) && workers[w].ft.Some? && workers[w].ft.value.CallbackTask? && workers[w].ft.value.cb == uid
      requires spare !in fibers
      requires workers[w].cbFiber.Some? ==>
        workers[w].cbFiber.value in fibers && fibers[workers[w].cbFiber.value].state == INIT
      modifies this`workers, this`fibers, this`hist
      ensures View() == DispatchClaim(old(View()), w, spare)
    {
      if workers[w].cbFiber.Some? {
        Reset(workers[w].cbFiber.value, TaskFn(uid));
      } else {
        fibers := fibers[spare := Fiber(INIT, TaskFn(uid), Entry, None, None)];
        workers := workers[w := workers[w].(cbFiber := Some(spare))];
      }
      workers := workers[w := workers[w].(ft := None)];
      SwapIn(w, workers[w].cbFiber.value, SiteCb);
    }

    /** scheduler.cpp:101, 118 and 141-145. */
    method Release(w: int)
      requires w in workers && workers[w].pc.Back?
      modifies this`workers, this`fibers, this`active, this`idleCount
      ensures View() == ReleaseClaim(old(View()), w)
    {
      if workers[w].pc.site == SiteIdle {
        idleCount := idleCount - 1;
        if workers[w].idle.Some? && workers[w].idle.value in fibers {
          var f := workers[w].idle.value;
          if fibers[f].state != TERM && fibers[f].state != EXCEPT {
            fibers := fibers[f := fibers[f].(state := HOLD)];
          }
        }
        workers := workers[w := workers[w].(pc := Head)];
      } else {
        active := active - 1;
        workers := workers[w := workers[w].(pc := Released(workers[w].pc.site))];
      }
    }

    /** scheduler.cpp:103-109: how a claimed fiber came back. */
    method ClassifyFiberTask(w: int)
      requires Enabled(View(), SchedulerModel.Classify(w)) && workers[w].pc.site == SiteFiber
      modifies this`workers, this`fibers, this`queue, this`hist
      ensures View() == ClassifyFiber(old(View()), w)
    {
      var f := workers[w].ft.value.fiber;
      if fibers[f].state == READY {
        Schedule(FiberTask(f, ANY_THREAD));
        workers := workers[w := workers[w].(pc := Requeued(SiteFiber))];
        return;
      }
      if fibers[f].state != TERM && fibers[f].state != EXCEPT {
        fibers := fibers[f := fibers[f].(state := HOLD)];
      }
      workers := workers[w := workers[w].(pc := Head, ft := None)];
    }

    /** scheduler.cpp:119-128: how a callback's fiber came back. */
    method ClassifyCallback(w: int)
      requires Enabled(View(), SchedulerModel.Classify(w)) && workers[w].pc.site != SiteFiber
      modifies this`workers, this`fibers, this`queue, this`hist
      ensures View() == ClassifyFiber(old(View()), w)
    {
      var f := workers[w].cbFiber.value;
      if fibers[f].state == READY {
        Schedule(FiberTask(f, ANY_THREAD));
        workers := workers[w := workers[w].(pc := Requeued(workers[w].pc.site))];
      } else if fibers[f].state == EXCEPT || fibers[f].state == TERM {
        Reset(f, NoFn);
        workers := workers[w := workers[w].(pc := Head)];
      } else {
        fibers := fibers[f := fibers[f].(state := HOLD)];
        workers := workers[w := workers[w].(pc := Head, cbFiber := None)];
      }
    }

    /** `scheduleNoLock` with a non-empty task. */
    method Schedule(t: Task<nat>)
      modifies this`queue, this`hist
      ensures View() == Push(old(View()), t)
    {
      queue := queue + [t];
      hist := hist.(order := hist.order + [|hist.pushed|]);
      hist := hist.(pushed := hist.pushed + [t]);
    }

    /** scheduler.cpp:134-140, and the end of `run`. */
    method IdleOrExit(w: int)
      requires Enabled(View(), SchedulerModel.IdleOrExit(w)) && ChecksPass(View(), SchedulerModel.IdleOrExit(w))
      modifies this`workers, this`fibers, this`idleCount, this`ctl, this`hist
      ensures View() == EnterIdleOrExit(old(View()), w)
    {
      var f := workers[w].idle.value;
      if fibers[f].state == TERM {
        workers := workers[w := workers[w].(pc := Exited, cbFiber := None, idle := None)];
        if ctl.root == Some(w) {
          GoBack(w);
        }
        return;
      }
      idleCount := idleCount + 1;
      SwapIn(w, f, SiteIdle);
    }

    /** The end of `CallerMainFunc`, with `Fiber::back`. */
    method GoBack(w: int)
      requires w in workers
      modifies this`workers, this`ctl
      ensures View() == BackFrom(old(View()), w)
    {
      var cur := workers[w].callerRef;
      if cur == RootFiber {
        ctl := ctl.(rootState := TERM);
      }
      var x := workers[w].(current := ThreadFiber);
      var next := x.threadCtx;
      workers := workers[w := SaveIn(x, cur, RunOver)];
      match next {
        case StopAt(pc) => ctl := ctl.(stopPc := pc);
        case _ =>
      }
    }

    /** `stopping()` and what `idle()` does with the answer. */
    method IdleCheck(w: int)
      requires Enabled(View(), SchedulerModel.IdleCheck(w)) && ChecksPass(View(), SchedulerModel.IdleCheck(w))
      modifies this`workers, this`fibers
      ensures View() == Apply(old(View()), SchedulerModel.IdleCheck(w))
    {
      var stop := ctl.autoStop && ctl.isStopping && queue == [] && active == 0;
      if stop {
        MainFuncEnd(w, false);
      } else {
        YieldTo(w, HOLD);
      }
    }

    /** The first step of a worker on its thread: its idle fiber is made. */
    method Boot(w: int, idle: nat)
      requires Enabled(View(), BootWorker(w, idle))
      modifies this`workers, this`fibers
      ensures View() == Apply(old(View()), BootWorker(w, idle))
    {
      if ctl.root == Some(w) {
        workers := workers[w := workers[w].(callerRef := workers[w].current)];
      } else {
        if workers[w].current == NoFiber {
          workers := workers[w := workers[w].(current := ThreadFiber)];
        }
        workers := workers[w := workers[w].(main := workers[w].current)];
      }
      fibers := fibers[idle := Fiber(INIT, IdleFn, Entry, None, None)];
      workers := workers[w := workers[w].(idle := Some(idle), pc := Head)];
    }

    /** Dropping the handle of a fiber that was queued again. */
    method DropStale(w: int)
      requires Enabled(View(), SchedulerModel.DropStale(w))
      modifies this`workers
      ensures View() == Apply(old(View()), SchedulerModel.DropStale(w))
    {
      if workers[w].pc.site == SiteFiber {
        workers := workers[w := workers[w].(ft := None)];
      } else {
        workers := workers[w := workers[w].(cbFiber := None)];
      }
      workers := workers[w := workers[w].(pc := Head)];
    }

    // -------------------------------------------------------------- scheduler.h and scheduler.cpp, clients

    /** `schedule` called from anywhere. `stray` marks a submission outside the shutdown discipline; a
        callback is known by its submission number. */
    method Submit(sub: Submission, pin: int, stray: bool)
      modifies this`queue, this`hist
      ensures View() == SchedulerModel.Submit(old(View()), sub, pin, stray)
    {
      var n := |hist.pushed|;
      var t := match sub
        case SubFiber(f) => FiberTask(f, pin)
        case SubCallback => CallbackTask(hist.nextCb, pin);
      Schedule(t);
      if sub.SubCallback? {
        hist := hist.(nextCb := hist.nextCb + 1);
      }
      if stray {
        hist := hist.(strays := hist.strays + {n});
      }
    }

    method Stopping() returns (r: bool)
      ensures r == StopCondition(View())
    {
      r := ctl.autoStop && ctl.isStopping && queue == [] && active == 0;
    }

    /** The pool has no thread: `m_threadCount == 0`. */
    function PoolEmpty(): bool
      reads this
    {
      forall w | w in workers :: !IsPool(View(), w)
    }

    /** `start()`. */
    method Start()
      requires Enabled(View(), StartPool)
      modifies this`workers, this`ctl
      ensures View() == Apply(old(View()), StartPool)
    {
      if !ctl.isStopping {
        return;
      }
      ctl := ctl.(isStopping := false);
      workers := map w | w in workers :: if ctl.root == Some(w) then workers[w] else workers[w].(pc := SchedulerModel.Boot);
      ctl := ctl.(poolStarted := true);
    }

    /** `stop()` up to its first `stopping()`. */
    method StopEarlyTest()
      requires Enabled(View(), StopEarly)
      modifies this`workers, this`ctl
      ensures View() == Apply(old(View()), StopEarly)
    {
      if ctl.root.Some? && PoolEmpty() && (ctl.rootState == TERM || ctl.rootState == INIT) {
        ctl := ctl.(isStopping := true);
        var stop := Stopping();
        if stop {
          Skip();
          ctl := ctl.(stopPc := Returned);
          return;
        }
      }
      ctl := ctl.(stopPc := PastEarlyTest);
    }

    /** The caller's worker is never run. */
    method Skip()
      modifies this`workers
      ensures View() == SkipRoot(old(View()))
    {
      if ctl.root.Some? && ctl.root.value in workers {
        workers := workers[ctl.root.value := workers[ctl.root.value].(pc := Skipped)];
      }
    }

    /** `Fiber::call` on the root fiber. */
    method Call(w: int)
      requires ctl.root == Some(w) && w in workers
      modifies this`workers, this`ctl
      ensures View() == CallRoot(old(View()))
    {
      var x := workers[w].(current := RootFiber);
      ctl := ctl.(rootState := EXEC);
      x := x.(threadCtx := StopAt(Joining));
      ctl := ctl.(stopPc := InCall);
      match x.rootCtx {
        case RunEntry => x := x.(pc := SchedulerModel.Boot);
        case Loop(site) => x := x.(pc := Back(site));
        case _ =>
      }
      workers := workers[w := x];
    }

    /** `stop()` at its second `stopping()`: unless it holds, the caller's worker is called. */
    method StopDispatch()
      requires Enabled(View(), SchedulerModel.StopDispatch)
      modifies this`workers, this`ctl
      ensures View() == Apply(old(View()), SchedulerModel.StopDispatch)
    {
      if ctl.root.Some? {
        var stop := Stopping();
        if !stop {
          if ctl.root.value in workers {
            Call(ctl.root.value);
          }
          return;
        }
        Skip();
      }
      ctl := ctl.(stopPc := Joining);
    }

    // -------------------------------------------------------------- every step of every run

    /** A step on a fiber's stack: none of the checks on its path fails. */
    method FiberStep(st: Step, ghost c: Config)
      requires Reachable(View(), c) && Enabled(View(), st)
      requires st.EnterFiber? || st.Yield? || st.Finish? || st.IdleCheck? || st.SwapOut?
      modifies this
      ensures View() == Apply(old(View()), st)
    {
      AssertionsNeverFail(View(), c, st);
      match st {
        case EnterFiber(w) => EnterFiber(w);
        case Yield(w, ready) => YieldTo(w, if ready then READY else HOLD);
        case Finish(w, threw) => MainFuncEnd(w, threw);
        case IdleCheck(w) => IdleCheck(w);
        case SwapOut(w) => SwapOut(w);
      }
    }

    /** A step of the worker loop. */
    method LoopStep(st: Step, ghost c: Config)
      requires Reachable(View(), c) && Enabled(View(), st)
      requires st.BootWorker? || st.Scan? || st.Dispatch? || st.Release? || st.Classify? || st.DropStale? || st.IdleOrExit?
      modifies this
      ensures View() == Apply(old(View()), st)
    {
      AssertionsNeverFail(View(), c, st);
      match st {
        case BootWorker(w, id) => Boot(w, id);
        case Scan(w) =>
          QueuedExist(View(), c);
          Scan(w);
        case Dispatch(w, id) => Dispatch(w, id);
        case Release(w) => Release(w);
        case Classify(w) =>
          if workers[w].pc.site == SiteFiber {
            ClassifyFiberTask(w);
          } else {
            ClassifyCallback(w);
          }
        case DropStale(w) => DropStale(w);
        case IdleOrExit(w) => IdleOrExit(w);
      }
    }

    /** What clients, and task code on behalf of a client, do between the scheduler's own steps: make
        and reset fibers, keep and drop handles, submit. */
    method ClientStep(st: Step)
      requires Enabled(View(), st) && IsClient(st)
      modifies this
      ensures View() == Apply(old(View()), st)
    {
      match st {
        case CreateFiber(id) =>
          fibers := fibers[id := Fiber(INIT, UserFn, Entry, None, None)];
          handles := handles + {id};
        case TakeHandle(w) =>
          if workers[w].current.CoFiber? {
            handles := handles + {workers[w].current.id};
          }
        case DropHandle(id) => handles := handles - {id};
        case ResetFiber(id) => Reset(id, UserFn);
        case ClientSubmit(sub, pin) => Submit(sub, pin, ctl.stopPc != NotCalled);
        case TaskSubmit(w, sub, pin) => Submit(sub, pin, ctl.stopPc != NotCalled && !PinAllows(pin, w));
      }
    }

    /** A step of `start()` or `stop()`. */
    method StopStep(st: Step)
      requires Enabled(View(), st) && IsStop(st)
      modifies this
      ensures View() == Apply(old(View()), st)
    {
      match st {
        case StartPool => Start();
        case StopCall => ctl := ctl.(autoStop := true, stopPc := AutoStopSet);
        case StopEarly => StopEarlyTest();
        case StopFlag => ctl := ctl.(isStopping := true, stopPc := FlagsSet);
        case StopDispatch => StopDispatch();
        case StopJoin => ctl := ctl.(stopPc := Returned);
      }
    }

    /** Any step of any reachable state. */
    method Perform(st: Step, ghost c: Config)
      requires Reachable(View(), c) && Enabled(View(), st)
      modifies this
      ensures View() == Apply(old(View()), st) && Reachable(View(), c)
    {
      ReachableStep(View(), c, st);
      if st.CreateFiber? || st.TakeHandle? || st.DropHandle? || st.ResetFiber? || st.ClientSubmit? || st.TaskSubmit? {
        ClientStep(st);
      } else if st.StartPool? || st.StopCall? || st.StopEarly? || st.StopFlag? || st.StopDispatch? || st.StopJoin? {
        StopStep(st);
      } else if st.EnterFiber? || st.Yield? || st.Finish? || st.IdleCheck? || st.SwapOut? {
        FiberStep(st, c);
      } else {
        LoopStep(st, c);
      }
    }

    /** A run from a reachable state. */
    method PerformAll(steps: seq<Step>, ghost c: Config)
      requires Reachable(View(), c) && ValidRun(View(), steps)
      modifies this
      ensures View() == Run(old(View()), steps) && Reachable(View(), c)
    {
      var i := 0;
      assert steps[0..] == steps;
      while i < |steps|
        invariant 0 <= i <= |steps| && Reachable(View(), c)
        invariant ValidRun(View(), steps[i..]) && Run(View(), steps[i..]) == Run(old(View()), steps)
      {
        assert steps[i..][1..] == steps[i + 1..];
        Perform(steps[i], c);
        i := i + 1;
      }
    }
  }

  /** Every run of a new scheduler, whatever its configuration and whatever the interleaving, can be
      executed by this code, and leads where the transition system says. */
  method Execute(c: Config, steps: seq<Step>) returns (m: Machine)
    requires ValidConfig(c) && ValidRun(Init(c), steps)
    ensures fresh(m) && m.View() == Run(Init(c), steps)
  {
    m := new Machine(c);
    assert ValidRun(Init(c), []) && Run(Init(c), []) == Init(c);
    m.PerformAll(steps, c);
  }

  lemma QueuedExist(s: World, c: Config)
    requires Reachable(s, c)
    ensures forall t :: t in s.queue && t.FiberTask? ==> t.fiber in s.fibers
  {
    ReachableFull(s, c);
    forall t | t in s.queue && t.FiberTask? ensures t.fiber in s.fibers {
      var i :| 0 <= i < |s.queue| && s.queue[i] == t;
      assert QueuedAt(s, i, t.fiber);
    }
  }
}
