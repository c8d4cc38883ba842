/** The N-worker scheduler as a transition system: every worker runs the loop of
    `Scheduler::run`, every mutex-protected section is one step, and so is every point where
    another thread could observe a change.

    Control transfer is modelled through the saved contexts, not through the program counter:
    `swapIn` stores the loop's continuation in the scheduler fiber of the current thread and jumps
    to whatever context the target fiber holds; `swapOut` stores the executing stack in the fiber
    that `GetThis()` named and jumps to the context found in the scheduler fiber. */
module SchedulerModel {
  import opened Wrappers
  import opened Tasks

  /** What a fiber's stored function is; a callback task is identified by its submission number. */
  datatype Fn = NoFn | UserFn | IdleFn | TaskFn(uid: nat)

  /** A saved context: at the entry of `MainFunc` on the fiber's own stack, in the middle of the
      code running on some stack, or after the last `swapOut` of a stack (never to be resumed). */
  datatype Ctx = Entry | Suspended(stack: nat) | Spent(stack: nat)

  /** `mainRef` and `yieldRef` are the two `cur` pointers that live on the fiber's own stack: the
      one in `MainFunc` and the one in `YieldToReady`/`YieldToHold`. */
  datatype Fiber = Fiber(state: FiberState, fn: Fn, ctx: Ctx, mainRef: Option<nat>, yieldRef: Option<nat>)

  /** The three places where the worker loop calls `swapIn`. */
  datatype Site = SiteFiber | SiteCb | SiteIdle

  datatype Phase =
    | Entering                       // switched in, not yet past MainFunc's or YieldTo*'s first step
    | Running                        // in task code
    | Leaving(cur: nat, last: bool)  // state already set, `cur->swapOut()` comes next

  datatype Pc =
    | NotStarted
    | Boot
    | Head
    | Claimed
    | InFiber(exec: nat, phase: Phase)  // the code on the stack of fiber `exec` is running
    | Back(site: Site)                  // swapIn returned, counter not yet decremented
    | Released(site: Site)              // counter decremented, fiber not yet classified
    | Requeued(site: Site)              // fiber queued again, local handle not yet dropped
    | ScannedEmpty
    | Exited
    | Skipped                           // the caller's worker that stop() decided not to run

  /** Where the thread that calls `stop()` is. */
  datatype StopPc = NotCalled | AutoStopSet | PastEarlyTest | FlagsSet | InCall | Joining | Returned

  /** The contexts that a thread's own fiber and the root fiber can hold: none, the entry of
      `CallerMainFunc`, the worker loop inside a `swapIn`, `stop()` with the place where it goes on,
      or the end of `CallerMainFunc`, which must not be resumed. */
  datatype Cont = Nowhere | RunEntry | Loop(site: Site) | StopAt(next: StopPc) | RunOver

  /** A fiber object that a thread-local pointer denotes: the thread's own fiber, the scheduler's root
      fiber, or a fiber with a number. */
  datatype Denoted = NoFiber | ThreadFiber | RootFiber | CoFiber(id: nat)

  /** A worker's position and local variables, with the state of its thread: `current` is `t_fiber`,
      `main` is `t_scheduler_fiber`, `threadCtx` the context in the thread's own fiber and `rootCtx`
      the one in the root fiber; `callerRef` is the local pointer of `CallerMainFunc`. The last two
      matter on the caller's thread only. */
  datatype Worker = Worker(
    pc: Pc,
    ft: Option<Task<nat>>,
    cbFiber: Option<nat>,
    idle: Option<nat>,
    current: Denoted,
    main: Denoted,
    threadCtx: Cont,
    rootCtx: Cont,
    callerRef: Denoted)

  datatype Claim = Claim(worker: int, task: Task<nat>)

  /** The fields only `start()` and `stop()` write. `root` is the thread of `use_caller`, `rootState`
      the state of its fiber. */
  datatype Control = Control(
    root: Option<int>,
    rootState: FiberState,
    poolStarted: bool,
    autoStop: bool,
    isStopping: bool,
    stopPc: StopPc)

  /** Every task ever queued, the place in `pushed` of every task now in the queue, the places of those
      queued against the shutdown discipline, every claim, the callbacks whose function was entered,
      the number of callbacks accepted, and for every fiber the worker and the call site that
      resumed it last. */
  datatype History = History(
    pushed: seq<Task<nat>>,
    order: seq<nat>,
    strays: set<nat>,
    claims: seq<Claim>,
    started: seq<nat>,
    nextCb: nat,
    resumed: map<nat, (int, Site)>)

  datatype World = World(
    queue: seq<Task<nat>>,
    fibers: map<nat, Fiber>,
    handles: set<nat>,
    workers: map<int, Worker>,
    active: int,
    idleCount: int,
    ctl: Control,
    hist: History)

  datatype Submission = SubFiber(fiber: nat) | SubCallback

  datatype Step =
    | CreateFiber(id: nat)
    | TakeHandle(w: int)
    | DropHandle(id: nat)
    | ResetFiber(id: nat)
    | ClientSubmit(sub: Submission, pin: int)
    | TaskSubmit(w: int, sub: Submission, pin: int)
    | StartPool
    | BootWorker(w: int, id: nat)
    | Scan(w: int)
    | Dispatch(w: int, id: nat)
    | EnterFiber(w: int)
    | Yield(w: int, ready: bool)
    | Finish(w: int, threw: bool)
    | IdleCheck(w: int)
    | SwapOut(w: int)
    | Release(w: int)
    | Classify(w: int)
    | DropStale(w: int)
    | IdleOrExit(w: int)
    | StopCall
    | StopEarly
    | StopFlag
    | StopDispatch
    | StopJoin

  // ---------------------------------------------------------------- configuration

  datatype Config = Config(pool: set<int>, root: Option<int>)

  predicate ValidConfig(c: Config) {
    && ANY_THREAD !in c.pool
    && (c.root.Some? ==> c.root.value != ANY_THREAD && c.root.value !in c.pool)
    && (c.root.Some? || exists w :: w in c.pool)
  }

  /** A pool thread before its first step. */
  const POOL_WORKER := Worker(NotStarted, None, None, None, NoFiber, NoFiber, Nowhere, Nowhere, NoFiber)

  /** The caller's thread as the constructor leaves it: the thread has its own fiber, and the root
      fiber, at its entry, is the scheduler's fiber there. */
  const CALLER_WORKER := Worker(NotStarted, None, None, None, ThreadFiber, RootFiber, Nowhere, RunEntry, NoFiber)

  function WorkerIds(c: Config): set<int> {
    c.pool + if c.root.Some? then {c.root.value} else {}
  }

  function Init(c: Config): World {
    World([], map[], {}, map w | w in WorkerIds(c) :: if c.root == Some(w) then CALLER_WORKER else POOL_WORKER, 0, 0,
          Control(c.root, INIT, false, false, true, NotCalled),
          History([], [], {}, [], [], 0, map[]))
  }

  // ---------------------------------------------------------------- small state functions

  function SetWorker(s: World, w: int, x: Worker): World {
    s.(workers := s.workers[w := x])
  }

  function SetFiber(s: World, f: nat, x: Fiber): World {
    s.(fibers := s.fibers[f := x])
  }

  function SetCtl(s: World, c: Control): World {
    s.(ctl := c)
  }

  function Executing(s: World): set<nat> {
    set f | f in s.fibers && s.fibers[f].state == EXEC
  }

  function Push(s: World, t: Task<nat>): World {
    s.(queue := s.queue + [t],
       hist := s.hist.(pushed := s.hist.pushed + [t], order := s.hist.order + [|s.hist.pushed|]))
  }

  predicate StopCondition(s: World) {
    s.ctl.autoStop && s.ctl.isStopping && s.queue == [] && s.active == 0
  }

  /** A worker's own claim on a fiber. The handle left over after a requeue does not count: the
      worker only drops it. */
  predicate Holds(x: Worker, f: nat) {
    || (x.ft.Some? && x.ft.value.FiberTask? && x.ft.value.fiber == f && x.pc != Requeued(SiteFiber))
    || (x.cbFiber == Some(f) && x.pc != Requeued(SiteCb))
    || x.idle == Some(f)
  }

  predicate Queued(s: World, f: nat) {
    exists i :: 0 <= i < |s.queue| && s.queue[i].FiberTask? && s.queue[i].fiber == f
  }

  predicate Owned(s: World, f: nat) {
    exists w :: w in s.workers && Holds(s.workers[w], f)
  }

  /** The submission discipline for fiber handles. */
  predicate Free(s: World, f: nat) {
    f in s.fibers && f in s.handles && !Queued(s, f) && !Owned(s, f)
  }

  predicate InTask(s: World, w: int) {
    && w in s.workers
    && s.workers[w].pc.InFiber? && s.workers[w].pc.phase == Running
    && s.workers[w].pc.exec in s.fibers
  }

  predicate RunsIdle(s: World, w: int)
    requires InTask(s, w)
  {
    s.fibers[s.workers[w].pc.exec].fn == IdleFn
  }

  predicate InUserTask(s: World, w: int) {
    InTask(s, w) && !RunsIdle(s, w)
  }

  // ---------------------------------------------------------------- what one step may touch

  ghost predicate Live(pc: Pc) {
    pc != NotStarted && pc != Skipped && pc != Exited
  }

  /** A step of `w` leaves the other workers and the control fields alone. */
  ghost predicate Moves(s: World, t: World, w: int) {
    && w in s.workers && w in t.workers && t.workers == s.workers[w := t.workers[w]]
    && t.ctl == s.ctl && Live(t.workers[w].pc)
  }

  /** A step of `w` after its first leaves its thread's pointers alone, and the context of the
      thread's own fiber too unless that is the scheduler's fiber. */
  ghost predicate KeepsThread(s: World, t: World, w: int) {
    w in s.workers && w in t.workers
    && var x := s.workers[w]; var y := t.workers[w];
    && y.main == x.main && y.callerRef == x.callerRef && y.pc != Boot
    && (x.main != ThreadFiber ==> y.threadCtx == x.threadCtx)
  }

  // ---------------------------------------------------------------- saved contexts

  /** The context saved in fiber `f` of the worker's thread. */
  function CtxIn(x: Worker, f: Denoted): Cont {
    match f
    case ThreadFiber => x.threadCtx
    case RootFiber => x.rootCtx
    case _ => Nowhere
  }

  function SaveIn(x: Worker, f: Denoted, c: Cont): Worker {
    match f
    case ThreadFiber => x.(threadCtx := c)
    case RootFiber => x.(rootCtx := c)
    case _ => x
  }

  /** The context in the thread's scheduler fiber. */
  function MainCtx(x: Worker): Cont {
    CtxIn(x, x.main)
  }

  // ---------------------------------------------------------------- fiber control transfer

  /** `Fiber::swapIn` on worker `w`: `t_fiber` becomes `f`, the loop's continuation goes into the
      scheduler fiber, and control continues on the stack that `f`'s context names. */
  function SwapIn(s: World, w: int, f: nat, site: Site): (t: World)
    requires w in s.workers && f in s.fibers
    ensures Moves(s, t, w) && KeepsThread(s, t, w)
  {
    var fib := s.fibers[f];
    var stack := match fib.ctx case Entry => f case Suspended(k) => k case Spent(k) => k;
    var saved := SaveIn(s.workers[w], s.workers[w].main, Loop(site));
    var x := saved.(current := CoFiber(f), pc := InFiber(stack, Entering));
    SetFiber(SetWorker(s, w, x), f, fib.(state := EXEC))
      .(hist := s.hist.(resumed := s.hist.resumed[f := (w, site)]))
  }

  /** The first step on the fiber's stack. At the entry, `MainFunc` takes its own handle through
      `t_fiber` and calls that fiber's function; inside `YieldTo*`, `swapOut` returns and the local
      handle dies. */
  function Enter(s: World, w: int): (t: World)
    requires w in s.workers && s.workers[w].pc.InFiber? && s.workers[w].pc.exec in s.fibers
    ensures Moves(s, t, w) && KeepsThread(s, t, w)
  {
    var x := s.workers[w];
    var e := x.pc.exec;
    var s1 := SetWorker(s, w, x.(pc := InFiber(e, Running)));
    if s.fibers[e].ctx == Entry then
      var me := if x.current.CoFiber? then x.current.id else e;
      var run := if me in s.fibers && s.fibers[me].fn.TaskFn? then [s.fibers[me].fn.uid] else [];
      SetFiber(s1, e, s.fibers[e].(mainRef := Some(me))).(hist := s.hist.(started := s.hist.started + run))
    else
      SetFiber(s1, e, s.fibers[e].(yieldRef := None))
  }

  /** `YieldToReady`/`YieldToHold` up to, not including, `cur->swapOut()`. `cur` is `t_fiber`. */
  function BeginYield(s: World, w: int, st: FiberState): (t: World)
    requires InTask(s, w)
    ensures Moves(s, t, w) && KeepsThread(s, t, w)
  {
    var x := s.workers[w];
    var e := x.pc.exec;
    var me := if x.current.CoFiber? then x.current.id else e;
    var s1 := SetFiber(s, e, s.fibers[e].(yieldRef := Some(me)));
    var s2 := if me in s1.fibers then SetFiber(s1, me, s1.fibers[me].(state := st)) else s1;
    SetWorker(s2, w, x.(pc := InFiber(e, Leaving(me, false))))
  }

  /** The end of `MainFunc` up to, not including, `raw_ptr->swapOut()`. `cur` is the handle taken
      at the entry; the function is cleared only on the normal path. */
  function BeginFinish(s: World, w: int, threw: bool): (t: World)
    requires InTask(s, w)
    ensures Moves(s, t, w) && KeepsThread(s, t, w)
  {
    var x := s.workers[w];
    var e := x.pc.exec;
    var me := if s.fibers[e].mainRef.Some? then s.fibers[e].mainRef.value else e;
    var s1 := SetFiber(s, e, s.fibers[e].(mainRef := None));
    var s2 := if me !in s1.fibers then s1
              else if threw then SetFiber(s1, me, s1.fibers[me].(state := EXCEPT))
              else SetFiber(s1, me, s1.fibers[me].(state := TERM, fn := NoFn));
    SetWorker(s2, w, x.(pc := InFiber(e, Leaving(me, true))))
  }

  /** `cur->swapOut()`: the executing stack is saved in `cur`, `t_fiber` becomes the scheduler fiber
      of the current thread and the loop continues where that fiber's context says. */
  function Leave(s: World, w: int): (t: World)
    requires w in s.workers && s.workers[w].pc.InFiber? && s.workers[w].pc.phase.Leaving?
    requires MainCtx(s.workers[w]).Loop? && s.workers[w].pc.phase.cur in s.fibers
    ensures Moves(s, t, w) && KeepsThread(s, t, w)
  {
    var x := s.workers[w];
    var e := x.pc.exec;
    var me := x.pc.phase.cur;
    var saved := if x.pc.phase.last then Spent(e) else Suspended(e);
    SetFiber(SetWorker(s, w, x.(current := x.main, pc := Back(MainCtx(x).site))),
             me, s.fibers[me].(ctx := saved))
  }

  // ---------------------------------------------------------------- the worker loop

  /** scheduler.cpp:63-92: one scan under the lock. */
  function ScanQueue(s: World, w: int): (t: World)
    requires w in s.workers
    ensures Moves(s, t, w) && KeepsThread(s, t, w)
  {
    var x := s.workers[w];
    var k := FirstEligible(s.queue, w, Executing(s));
    if k < |s.queue| then
      SetWorker(s, w, x.(pc := Claimed, ft := Some(s.queue[k])))
        .(queue := RemoveAt(s.queue, k), active := s.active + 1,
           hist := s.hist.(claims := s.hist.claims + [Claim(w, s.queue[k])],
                           order := if k < |s.hist.order| then RemoveAt(s.hist.order, k) else s.hist.order))
    else
      SetWorker(s, w, x.(pc := ScannedEmpty))
  }

  /** scheduler.cpp:98-100, 110-117 and 130-132. `id` names the fiber object allocated when the worker has
      no callback fiber to recycle. */
  function DispatchClaim(s: World, w: int, id: nat): (t: World)
    requires w in s.workers && s.workers[w].ft.Some?
    requires s.workers[w].ft.value.FiberTask? ==> s.workers[w].ft.value.fiber in s.fibers
    ensures Moves(s, t, w) && KeepsThread(s, t, w)
  {
    var x := s.workers[w];
    match x.ft.value
    case FiberTask(f, _) =>
      if Finished(s.fibers[f].state) then
        SetWorker(s, w, x.(pc := Head, ft := None)).(active := s.active - 1)
      else
        SwapIn(s, w, f, SiteFiber)
    case CallbackTask(uid, _) =>
      var c := if x.cbFiber.Some? then x.cbFiber.value else id;
      var fib := if c in s.fibers then s.fibers[c].(state := INIT, fn := TaskFn(uid), ctx := Entry)
                 else Fiber(INIT, TaskFn(uid), Entry, None, None);
      SwapIn(SetFiber(SetWorker(s, w, x.(cbFiber := Some(c), ft := None)), c, fib), w, c, SiteCb)
  }

  /** scheduler.cpp:101, 118 and 141-145. */
  function ReleaseClaim(s: World, w: int): (t: World)
    requires w in s.workers && s.workers[w].pc.Back?
    ensures Moves(s, t, w) && KeepsThread(s, t, w)
  {
    var x := s.workers[w];
    if x.pc.site == SiteIdle then
      var s1 := SetWorker(s, w, x.(pc := Head)).(idleCount := s.idleCount - 1);
      if x.idle.Some? && x.idle.value in s.fibers && !Finished(s.fibers[x.idle.value].state)
      then SetFiber(s1, x.idle.value, s.fibers[x.idle.value].(state := HOLD)) else s1
    else
      SetWorker(s, w, x.(pc := Released(x.pc.site))).(active := s.active - 1)
  }

  /** scheduler.cpp:103-109 and 119-128, up to dropping the handle of a fiber that was queued again. */
  function ClassifyFiber(s: World, w: int): (t: World)
    requires w in s.workers && s.workers[w].pc.Released?
    requires s.workers[w].pc.site == SiteFiber ==>
               s.workers[w].ft.Some? && s.workers[w].ft.value.FiberTask? && s.workers[w].ft.value.fiber in s.fibers
    requires s.workers[w].pc.site != SiteFiber ==>
               s.workers[w].cbFiber.Some? && s.workers[w].cbFiber.value in s.fibers
    ensures Moves(s, t, w) && KeepsThread(s, t, w)
  {
    var x := s.workers[w];
    var f := if x.pc.site == SiteFiber then x.ft.value.fiber else x.cbFiber.value;
    var fib := s.fibers[f];
    var dropped := if x.pc.site == SiteFiber then x.(pc := Head, ft := None) else x.(pc := Head, cbFiber := None);
    if fib.state == READY then
      SetWorker(Push(s, FiberTask(f, ANY_THREAD)), w, x.(pc := Requeued(x.pc.site)))
    else if !Finished(fib.state) then
      SetFiber(SetWorker(s, w, dropped), f, fib.(state := HOLD))
    else if x.pc.site == SiteFiber then
      SetWorker(s, w, dropped)
    else
      SetFiber(SetWorker(s, w, x.(pc := Head)), f, fib.(state := INIT, fn := NoFn, ctx := Entry))
  }

  /** scheduler.cpp:134-148, the idle branch and the end of `run`. */
  function EnterIdleOrExit(s: World, w: int): (t: World)
    requires w in s.workers && s.workers[w].idle.Some? && s.workers[w].idle.value in s.fibers
    ensures s.fibers[s.workers[w].idle.value].state != TERM ==> Moves(s, t, w) && KeepsThread(s, t, w)
  {
    var x := s.workers[w];
    if s.fibers[x.idle.value].state == TERM then
      var gone := SetWorker(s, w, x.(pc := Exited, cbFiber := None, idle := None));
      if s.ctl.root == Some(w) then BackFrom(gone, w) else gone
    else
      SwapIn(s, w, x.idle.value, SiteIdle).(idleCount := s.idleCount + 1)
  }

  /** The end of `CallerMainFunc` and `Fiber::back`, on the fiber that the local pointer names: its
      state becomes TERM, its context is saved in it, `t_fiber` becomes the thread's own fiber and
      control continues where that fiber's context says. */
  function BackFrom(s: World, w: int): (t: World)
    requires w in s.workers
  {
    var x := s.workers[w];
    var c := if x.callerRef == RootFiber then s.ctl.(rootState := TERM) else s.ctl;
    SetWorker(s, w, SaveIn(x, x.callerRef, RunOver).(current := ThreadFiber))
      .(ctl := if x.threadCtx.StopAt? then c.(stopPc := x.threadCtx.next) else c)
  }

  // ---------------------------------------------------------------- the step relation

  function SubmittedTask(s: World, sub: Submission, pin: int): Task<nat> {
    match sub
    case SubFiber(f) => FiberTask(f, pin)
    case SubCallback => CallbackTask(s.hist.nextCb, pin)
  }

  /** `schedule`: the task goes to the back. `stray` marks a submission outside the shutdown
      discipline. */
  function Submit(s: World, sub: Submission, pin: int, stray: bool): World {
    var t := SubmittedTask(s, sub, pin);
    var p := Push(s, t);
    p.(hist := p.hist.(strays := if stray then s.hist.strays + {|s.hist.pushed|} else s.hist.strays,
                       nextCb := if sub.SubCallback? then s.hist.nextCb + 1 else s.hist.nextCb))
  }

  predicate CanSubmit(s: World, sub: Submission) {
    sub.SubFiber? ==> Free(s, sub.fiber)
  }

  predicate AtPc(s: World, w: int, pc: Pc) {
    w in s.workers && s.workers[w].pc == pc
  }

  predicate IsPool(s: World, w: int) {
    w in s.workers && s.ctl.root != Some(w)
  }

  predicate Enabled(s: World, st: Step) {
    match st
    case CreateFiber(id) => id !in s.fibers
    case TakeHandle(w) => InUserTask(s, w)
    case DropHandle(id) => id in s.handles
    case ResetFiber(id) => Free(s, id) && (Finished(s.fibers[id].state) || s.fibers[id].state == INIT)
    case ClientSubmit(sub, _) => CanSubmit(s, sub)
    case TaskSubmit(w, sub, _) => InUserTask(s, w) && CanSubmit(s, sub)
    case StartPool => s.ctl.stopPc == NotCalled
    case BootWorker(w, id) => AtPc(s, w, Boot) && id !in s.fibers
    case Scan(w) => AtPc(s, w, Head)
    case Dispatch(w, id) => AtPc(s, w, Claimed) && id !in s.fibers
                            && s.workers[w].ft.Some?
                            && (s.workers[w].ft.value.FiberTask? ==> s.workers[w].ft.value.fiber in s.fibers)
    case EnterFiber(w) => w in s.workers && s.workers[w].pc.InFiber? && s.workers[w].pc.phase == Entering
                          && s.workers[w].pc.exec in s.fibers
    case Yield(w, _) => InUserTask(s, w)
    case Finish(w, _) => InUserTask(s, w)
    case IdleCheck(w) => InTask(s, w) && RunsIdle(s, w)
    case SwapOut(w) => w in s.workers && s.workers[w].pc.InFiber? && s.workers[w].pc.phase.Leaving?
                       && MainCtx(s.workers[w]).Loop? && s.workers[w].pc.phase.cur in s.fibers
    case Release(w) => w in s.workers && s.workers[w].pc.Back?
    case Classify(w) => w in s.workers && s.workers[w].pc.Released?
                        && (if s.workers[w].pc.site == SiteFiber
                            then s.workers[w].ft.Some? && s.workers[w].ft.value.FiberTask? && s.workers[w].ft.value.fiber in s.fibers
                            else s.workers[w].cbFiber.Some? && s.workers[w].cbFiber.value in s.fibers)
    case DropStale(w) => w in s.workers && s.workers[w].pc.Requeued?
    case IdleOrExit(w) => AtPc(s, w, ScannedEmpty) && s.workers[w].idle.Some? && s.workers[w].idle.value in s.fibers
    case StopCall => s.ctl.stopPc == NotCalled
    case StopEarly => s.ctl.stopPc == AutoStopSet
    case StopFlag => s.ctl.stopPc == PastEarlyTest
    case StopDispatch => s.ctl.stopPc == FlagsSet
    case StopJoin => s.ctl.stopPc == Joining && (s.ctl.poolStarted ==> forall w | w in s.workers :: IsPool(s, w) ==> s.workers[w].pc == Exited)
  }

  function Apply(s: World, st: Step): World
    requires Enabled(s, st)
  {
    match st
    case CreateFiber(id) => SetFiber(s, id, Fiber(INIT, UserFn, Entry, None, None)).(handles := s.handles + {id})
    case TakeHandle(w) =>
      s.(handles := s.handles + if s.workers[w].current.CoFiber? then {s.workers[w].current.id} else {})
    case DropHandle(id) => s.(handles := s.handles - {id})
    case ResetFiber(id) => SetFiber(s, id, s.fibers[id].(state := INIT, fn := UserFn, ctx := Entry))
    case ClientSubmit(sub, pin) => Submit(s, sub, pin, s.ctl.stopPc != NotCalled)
    case TaskSubmit(w, sub, pin) => Submit(s, sub, pin, s.ctl.stopPc != NotCalled && !PinAllows(pin, w))
    case StartPool =>
      if s.ctl.isStopping then StartThreads(s) else s
    case BootWorker(w, id) =>
      SetFiber(SetWorker(s, w, BootThread(s.workers[w], s.ctl.root == Some(w)).(pc := Head, idle := Some(id))),
               id, Fiber(INIT, IdleFn, Entry, None, None))
    case Scan(w) => ScanQueue(s, w)
    case Dispatch(w, id) => DispatchClaim(s, w, id)
    case EnterFiber(w) => Enter(s, w)
    case Yield(w, ready) => BeginYield(s, w, if ready then READY else HOLD)
    case Finish(w, threw) => BeginFinish(s, w, threw)
    case IdleCheck(w) => if StopCondition(s) then BeginFinish(s, w, false) else BeginYield(s, w, HOLD)
    case SwapOut(w) => Leave(s, w)
    case Release(w) => ReleaseClaim(s, w)
    case Classify(w) => ClassifyFiber(s, w)
    case DropStale(w) =>
      var x := s.workers[w];
      SetWorker(s, w, if x.pc.site == SiteFiber then x.(pc := Head, ft := None) else x.(pc := Head, cbFiber := None))
    case IdleOrExit(w) => EnterIdleOrExit(s, w)
    case StopCall => SetCtl(s, s.ctl.(autoStop := true, stopPc := AutoStopSet))
    case StopEarly =>
      if s.ctl.root.Some? && (forall w | w in s.workers :: !IsPool(s, w))
         && (s.ctl.rootState == TERM || s.ctl.rootState == INIT) then
        var s1 := SetCtl(s, s.ctl.(isStopping := true));
        if StopCondition(s1) then SetCtl(SkipRoot(s1), s1.ctl.(stopPc := Returned))
        else SetCtl(s1, s1.ctl.(stopPc := PastEarlyTest))
      else SetCtl(s, s.ctl.(stopPc := PastEarlyTest))
    case StopFlag => SetCtl(s, s.ctl.(isStopping := true, stopPc := FlagsSet))
    case StopDispatch =>
      if s.ctl.root.None? then SetCtl(s, s.ctl.(stopPc := Joining))
      else if StopCondition(s) then SetCtl(SkipRoot(s), s.ctl.(stopPc := Joining))
      else CallRoot(s)
    case StopJoin => SetCtl(s, s.ctl.(stopPc := Returned))
  }

  /** `start()`: a thread for every pool worker. */
  function StartThreads(s: World): World {
    s.(ctl := s.ctl.(isStopping := false, poolStarted := true),
       workers := map w | w in s.workers ::
         if s.ctl.root == Some(w) then s.workers[w] else s.workers[w].(pc := Boot))
  }

  function SkipRoot(s: World): World {
    if s.ctl.root.Some? && s.ctl.root.value in s.workers
    then SetWorker(s, s.ctl.root.value, s.workers[s.ctl.root.value].(pc := Skipped)) else s
  }

  /** `Fiber::call` on the root fiber, from `stop()`: `t_fiber` becomes the root fiber, the rest of
      `stop()` is saved in the thread's own fiber and control continues where the root fiber's
      context says. */
  function CallRoot(s: World): World {
    if s.ctl.root.Some? && s.ctl.root.value in s.workers then
      var x := s.workers[s.ctl.root.value];
      var saved := SaveIn(x, ThreadFiber, StopAt(Joining)).(current := RootFiber);
      SetWorker(s, s.ctl.root.value, saved.(pc := Resumed(CtxIn(saved, RootFiber), x.pc)))
        .(ctl := s.ctl.(rootState := EXEC, stopPc := InCall))
    else s
  }

  /** Where control goes when a context of the root fiber is continued. */
  function Resumed(c: Cont, otherwise: Pc): Pc {
    match c
    case RunEntry => Boot
    case Loop(site) => Back(site)
    case _ => otherwise
  }

  /** The first step of a worker on its thread. The caller's worker enters through `CallerMainFunc`,
      which keeps a pointer to the current fiber. A pool thread makes its own fiber, and that is its
      scheduler fiber; the caller's thread has got one from the constructor. */
  function BootThread(x: Worker, caller: bool): Worker {
    if caller then x.(callerRef := x.current)
    else
      var own := if x.current == NoFiber then ThreadFiber else x.current;
      x.(current := own, main := own)
  }

  // ---------------------------------------------------------------- runs

  predicate ValidRun(s: World, steps: seq<Step>)
    decreases |steps|
  {
    steps == [] || (Enabled(s, steps[0]) && ValidRun(Apply(s, steps[0]), steps[1..]))
  }

  function Run(s: World, steps: seq<Step>): World
    requires ValidRun(s, steps)
    decreases |steps|
  {
    if steps == [] then s else Run(Apply(s, steps[0]), steps[1..])
  }
}
