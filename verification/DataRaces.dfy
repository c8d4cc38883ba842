/** Data races on the shared fields of the two modules: there is none as long as nobody clears a logger's
    appenders, which `clearAppenders` does without the logger's lock. */
module DataRaces {
  import opened LockPaths
  import opened LockSafety

  // ---------------------------------------------------------------- calls that keep to the locks

  /** The built-in listener clears the appenders of every logger it changes or drops. What a client's
      listener or visitor uses is under its own locks or the one it runs under. */
  predicate KeepsLocks(v: nat, l: Listener) {
    match l
    case BuiltIn(_, changed, dropped) => changed == [] && dropped == []
    case Client(code) => Covered(code, {Hold(Var(v), Shared)})
  }

  predicate ListenersKeepLocks(v: nat, ls: seq<Listener>) {
    forall l :: l in ls ==> KeepsLocks(v, l)
  }

  predicate CallKeepsLocks(c: Call) {
    match c
    case ToLog(call) => !call.ClearAppenders?
    case SetValue(v, _, ls) => ListenersKeepLocks(v, ls)
    case FromString(a) => ListenersKeepLocks(a.v, a.listeners)
    case Visit(visitor) => Covered(visitor, {Hold(Registry, Shared)})
    case LoadFromYaml(_, members) => forall a :: a in members ==> ListenersKeepLocks(a.v, a.listeners)
    case _ => true
  }

  // ---------------------------------------------------------------- every path is covered

  lemma GuardCovered(lock: Lock, mode: Mode, body: seq<Code>, held: set<Hold>)
    requires Covered(body, held + {Hold(lock, mode)})
    ensures Covered([Guard(lock, mode, body)], held)
  {
    assert Covered([], held);
  }

  lemma UseCovered(f: Field, write: bool, body: seq<Code>, held: set<Hold>)
    requires MayUse(held, f, write) && Covered(body, held)
    ensures Covered([Use(f, write)] + body, held) && Covered([Use(f, write)], held)
  {
    assert ([Use(f, write)] + body)[1..] == body && [Use(f, write)][1..] == [] && Covered([], held);
  }

  lemma LeafCovered(l: Lock, f: Field, write: bool, held: set<Hold>)
    requires Protector(f) == l
    ensures Covered(Leaf(l, f, write), held)
  {
    UseCovered(f, write, [], held + {Hold(l, Exclusive)});
    GuardCovered(l, Exclusive, [Use(f, write)], held);
  }

  lemma {:induction false} LeavesCovered(ids: seq<nat>, write: bool, held: set<Hold>)
    ensures Covered(Leaves(ids, write), held)
  {
    if ids != [] {
      LeafCovered(Appender(ids[0]), Format(ids[0]), write, held);
      LeavesCovered(ids[1..], write, held);
      CoveredAdd(Leaf(Appender(ids[0]), Format(ids[0]), write), Leaves(ids[1..], write), held);
    }
  }

  lemma WriteCovered(id: nat, held: set<Hold>)
    ensures Covered(WriteCode(id), held)
  {
    var inside := held + {Hold(Appender(id), Exclusive)};
    UseCovered(Output(id), true, [], inside);
    UseCovered(Format(id), false, [Use(Output(id), true)], inside);
    assert [Use(Format(id), false)] + [Use(Output(id), true)] == [Use(Format(id), false), Use(Output(id), true)];
    GuardCovered(Appender(id), Exclusive, [Use(Format(id), false), Use(Output(id), true)], held);
  }

  lemma {:induction false} SinksCovered(sinks: seq<Sink>, held: set<Hold>)
    ensures Covered(SinksCode(sinks), held)
  {
    if sinks != [] {
      var id := sinks[0].id;
      var reopen := if sinks[0].reopens then Leaf(Appender(id), Output(id), true) else [];
      LeafCovered(Appender(id), Output(id), true, held);
      WriteCovered(id, held);
      SinksCovered(sinks[1..], held);
      CoveredAdd(reopen, WriteCode(id), held);
      CoveredAdd(if !sinks[0].passes then [] else reopen + WriteCode(id), SinksCode(sinks[1..]), held);
    }
  }

  lemma LogCovered(m: Message, held: set<Hold>)
    ensures Covered(LogCode(m), held)
  {
    var lock := LoggerLock(m.name);
    var inside := held + {Hold(lock, Exclusive)};
    var root := [Use(Attached("root"), false)] + SinksCode(m.rootSinks);
    var body := if m.sinks != [] || m.name == "root" then SinksCode(m.sinks)
                else if m.rootFiltered then [] else [Guard(Root, Exclusive, root)];
    SinksCovered(m.sinks, inside);
    SinksCovered(m.rootSinks, inside + {Hold(Root, Exclusive)});
    UseCovered(Attached("root"), false, SinksCode(m.rootSinks), inside + {Hold(Root, Exclusive)});
    GuardCovered(Root, Exclusive, root, inside);
    UseCovered(Attached(m.name), false, body, inside);
    GuardCovered(lock, Exclusive, [Use(Attached(m.name), false)] + body, held);
  }

  lemma AddCovered(name: string, appender: nat, hasFormatter: bool, held: set<Hold>)
    ensures Covered(AddAppenderCode(name, appender, hasFormatter), held)
  {
    var inside := held + {Hold(LoggerLock(name), Exclusive)};
    var inner := inside + {Hold(Appender(appender), Exclusive)};
    var read := Leaf(Appender(appender), Format(appender), false);
    var copy := [Use(Pattern(name), false)] + [Use(Format(appender), true)];
    var write := if hasFormatter then [] else [Guard(Appender(appender), Exclusive, copy)];
    LeafCovered(Appender(appender), Format(appender), false, inside);
    UseCovered(Format(appender), true, [], inner);
    UseCovered(Pattern(name), false, [Use(Format(appender), true)], inner);
    assert copy == [Use(Pattern(name), false), Use(Format(appender), true)];
    GuardCovered(Appender(appender), Exclusive, copy, inside);
    UseCovered(Attached(name), true, [], inside);
    CoveredAdd(read, write, inside);
    CoveredAdd(read + write, [Use(Attached(name), true)], inside);
    GuardCovered(LoggerLock(name), Exclusive, read + write + [Use(Attached(name), true)], held);
  }

  lemma LoggerUses(name: string, write: bool, body: seq<Code>, held: set<Hold>)
    requires Covered(body, held + {Hold(LoggerLock(name), Exclusive)})
    ensures Covered([Guard(LoggerLock(name), Exclusive, [Use(Pattern(name), write), Use(Attached(name), false)] + body)], held)
  {
    var inside := held + {Hold(LoggerLock(name), Exclusive)};
    UseCovered(Attached(name), false, body, inside);
    UseCovered(Pattern(name), write, [Use(Attached(name), false)] + body, inside);
    assert [Use(Pattern(name), write)] + ([Use(Attached(name), false)] + body)
        == [Use(Pattern(name), write), Use(Attached(name), false)] + body;
    GuardCovered(LoggerLock(name), Exclusive, [Use(Pattern(name), write), Use(Attached(name), false)] + body, held);
  }

  lemma ListingCovered(l: Listing, held: set<Hold>)
    ensures Covered(ListingCode(l), held)
  {
    LeavesCovered(l.appenders, false, held + {Hold(LoggerLock(l.name), Exclusive)});
    LoggerUses(l.name, false, Leaves(l.appenders, false), held);
  }

  lemma {:induction false} ListingsCovered(ls: seq<Listing>, held: set<Hold>)
    ensures Covered(ListingsCode(ls), held)
  {
    if ls != [] {
      ListingCovered(ls[0], held);
      ListingsCovered(ls[1..], held);
      CoveredAdd(ListingCode(ls[0]), ListingsCode(ls[1..]), held);
    }
  }

  lemma LogCallCovered(c: LogCall)
    requires !c.ClearAppenders?
    ensures Covered(LogCallCode(c), {})
  {
    match c
    case GetLogger => LeafCovered(Manager, Loggers, true, {});
    case Log(m) => LogCovered(m, {});
    case AddAppender(name, appender, hasFormatter) => AddCovered(name, appender, hasFormatter, {});
    case DelAppender(name) => LeafCovered(LoggerLock(name), Attached(name), true, {});
    case SetFormatter(name, inheriting) =>
      LeavesCovered(inheriting, true, {} + {Hold(LoggerLock(name), Exclusive)});
      LoggerUses(name, true, Leaves(inheriting, true), {});
    case GetFormatter(name) => LeafCovered(LoggerLock(name), Pattern(name), false, {});
    case LoggerToYaml(listing) => ListingCovered(listing, {});
    case ManagerToYaml(listings) =>
      var inside := {} + {Hold(Manager, Exclusive)};
      ListingsCovered(listings, inside);
      UseCovered(Loggers, false, ListingsCode(listings), inside);
      GuardCovered(Manager, Exclusive, [Use(Loggers, false)] + ListingsCode(listings), {});
    case AppenderAccess(appender, write) => LeafCovered(Appender(appender), Format(appender), write, {});
    case Reopen(appender) => LeafCovered(Appender(appender), Output(appender), true, {});
  }

  lemma {:induction false} ListenersCovered(v: nat, ls: seq<Listener>, held: set<Hold>)
    requires ListenersKeepLocks(v, ls) && Hold(Var(v), Shared) in held
    ensures Covered(ListenersCode(ls), held)
  {
    if ls != [] {
      assert ls[0] in ls;
      if ls[0].BuiltIn? {
        LogCovered(ls[0].m, held);
        assert ListenerCode(ls[0]) == LogCode(ls[0].m);
      } else {
        CoveredMore(ls[0].code, {Hold(Var(v), Shared)}, held);
      }
      ListenersCovered(v, ls[1..], held);
      CoveredAdd(ListenerCode(ls[0]), ListenersCode(ls[1..]), held);
    }
  }

  lemma VarCovered(v: nat, held: set<Hold>)
    ensures Covered(ReadCode(v), held) && Covered(StoreCode(v), held)
  {
    UseCovered(Value(v), false, [], held + {Hold(Var(v), Shared)});
    GuardCovered(Var(v), Shared, [Use(Value(v), false)], held);
    LeafCovered(Var(v), Value(v), true, held);
  }

  lemma SetValueCovered(v: nat, changed: bool, ls: seq<Listener>, held: set<Hold>)
    requires ListenersKeepLocks(v, ls)
    ensures Covered(SetValueCode(v, changed, ls), held)
  {
    var inside := held + {Hold(Var(v), Shared)};
    var notify := if changed then [Use(Listeners(v), false)] + ListenersCode(ls) else [];
    ListenersCovered(v, ls, inside);
    UseCovered(Listeners(v), false, ListenersCode(ls), inside);
    UseCovered(Value(v), false, notify, inside);
    GuardCovered(Var(v), Shared, [Use(Value(v), false)] + notify, held);
    VarCovered(v, held);
    CoveredAdd([Guard(Var(v), Shared, [Use(Value(v), false)] + notify)], if changed then StoreCode(v) else [], held);
  }

  lemma ToStringCovered(v: nat, failed: bool, m: Message, held: set<Hold>)
    ensures Covered(ToStringCode(v, failed, m), held)
  {
    VarCovered(v, held);
    LogCovered(m, held);
    CoveredAdd(ReadCode(v), if failed then LogCode(m) else [], held);
  }

  lemma FindCovered(held: set<Hold>)
    ensures Covered(FindCode(), held)
  {
    UseCovered(Datas, false, [], held + {Hold(Registry, Shared)});
    GuardCovered(Registry, Shared, [Use(Datas, false)], held);
  }

  lemma {:induction false} AssignmentsCovered(q: seq<Assignment>)
    requires forall a :: a in q ==> ListenersKeepLocks(a.v, a.listeners)
    ensures Covered(AssignmentsCode(q), {})
  {
    if q != [] {
      var a := q[0];
      assert a in q;
      FindCovered({});
      SetValueCovered(a.v, a.changed, a.listeners, {});
      LogCovered(a.m, {});
      CoveredAdd(FindCode(), SetValueCode(a.v, a.changed, a.listeners), {});
      CoveredAdd(FindCode(), LogCode(a.m), {});
      CoveredAdd(FindCode(), [], {});
      AssignmentsCovered(q[1..]);
      CoveredAdd(AssignmentCode(a), AssignmentsCode(q[1..]), {});
    }
  }

  lemma {:induction false} MessagesCovered(ms: seq<Message>)
    ensures Covered(MessagesCode(ms), {})
  {
    if ms != [] {
      LogCovered(ms[0], {});
      MessagesCovered(ms[1..]);
      CoveredAdd(LogCode(ms[0]), MessagesCode(ms[1..]), {});
    }
  }

  lemma LookupCovered(found: Found, m: Message)
    ensures Covered(CodeOf(Lookup(found, m)), {})
  {
    var inside := {} + {Hold(Registry, Exclusive)};
    LogCovered(m, inside);
    UseCovered(Datas, true, [], inside);
    if found.OtherType? {
      ToStringCovered(found.v, found.failed, found.inner, inside);
      CoveredAdd(ToStringCode(found.v, found.failed, found.inner), LogCode(m), inside);
    }
    UseCovered(Datas, false, FoundCode(found, m), inside);
    GuardCovered(Registry, Exclusive, [Use(Datas, false)] + FoundCode(found, m), {});
  }

  /** Every entry point but `clearAppenders`, and what reaches it through the built-in listener, uses
      every shared field under the field's lock, and writes it under the lock in exclusive mode. */
  lemma CallCovered(c: Call)
    requires CallKeepsLocks(c)
    ensures Covered(CodeOf(c), {})
  {
    match c
    case ToLog(call) => LogCallCovered(call);
    case ToString(v, failed, m) => ToStringCovered(v, failed, m, {});
    case SetValue(v, changed, ls) => SetValueCovered(v, changed, ls, {});
    case FromString(a) =>
      SetValueCovered(a.v, a.changed, a.listeners, {});
      LogCovered(a.m, {});
    case Lookup(found, m) => LookupCovered(found, m);
    case Visit(visitor) =>
      assert {} + {Hold(Registry, Shared)} == {Hold(Registry, Shared)};
      UseCovered(Datas, false, visitor, {} + {Hold(Registry, Shared)});
      GuardCovered(Registry, Shared, [Use(Datas, false)] + visitor, {});
    case GetValue(v) => VarCovered(v, {});
    case GetListener(v) =>
      UseCovered(Listeners(v), false, [], {} + {Hold(Var(v), Shared)});
      GuardCovered(Var(v), Shared, [Use(Listeners(v), false)], {});
    case ChangeListeners(v) => LeafCovered(Var(v), Listeners(v), true, {});
    case LookupOnly => FindCovered({});
    case LoadFromYaml(invalid, members) =>
      MessagesCovered(invalid);
      AssignmentsCovered(members);
      CoveredAdd(MessagesCode(invalid), AssignmentsCode(members), {});
  }

  // ---------------------------------------------------------------- threads

  function SetOf(held: seq<Hold>): set<Hold> {
    set h | h in held
  }

  /** Every use that the rest of a thread makes is under the field's lock. */
  predicate Watched(held: seq<Hold>, rest: seq<Op>)
    decreases |rest|
  {
    rest == [] ||
    match rest[0]
    case Acquire(lock, mode) => Watched(held + [Hold(lock, mode)], rest[1..])
    case Release(_) => held != [] && Watched(held[..|held| - 1], rest[1..])
    case Touch(f, write) => MayUse(SetOf(held), f, write) && Watched(held, rest[1..])
  }

  lemma WatchedClose(held: seq<Hold>, h: Hold, after: seq<Op>)
    requires Watched(held, after)
    ensures Watched(held + [h], [Release(h.lock)] + after)
  {
    assert (held + [h])[..|held|] == held && ([Release(h.lock)] + after)[1..] == after;
  }

  lemma {:induction false} FlattenWatched(c: seq<Code>, held: seq<Hold>, rest: seq<Op>)
    requires Covered(c, SetOf(held)) && Watched(held, rest)
    ensures Watched(held, Flatten(c) + rest)
    decreases c
  {
    if c == [] {
      assert Flatten(c) + rest == rest;
    } else {
      var after := Flatten(c[1..]) + rest;
      FlattenWatched(c[1..], held, rest);
      match c[0]
      case Use(f, write) =>
        FlattenUse(c, rest);
        assert ([Touch(f, write)] + after)[1..] == after;
      case Guard(lock, mode, body) =>
        var h := Hold(lock, mode);
        var inside := Flatten(body) + ([Release(lock)] + after);
        WatchedClose(held, h, after);
        assert SetOf(held + [h]) == SetOf(held) + {h};
        FlattenWatched(body, held + [h], [Release(lock)] + after);
        FlattenFirst(c, rest);
        assert ([Acquire(lock, mode)] + inside)[1..] == inside;
    }
  }

  predicate AllKeepLocks(calls: seq<Call>) {
    forall c :: c in calls ==> CallKeepsLocks(c)
  }

  lemma {:induction false} ProgramWatched(calls: seq<Call>)
    requires AllKeepLocks(calls)
    ensures Watched([], Program(calls))
  {
    if calls != [] {
      assert calls[0] in calls;
      CallCovered(calls[0]);
      ProgramWatched(calls[1..]);
      assert SetOf([]) == {};
      FlattenWatched(CodeOf(calls[0]), [], Program(calls[1..]));
    }
  }

  ghost predicate AllWatched(s: Threads) {
    forall i :: 0 <= i < |s| ==> Watched(s[i].held, s[i].rest)
  }

  lemma {:induction false} RunWatched(s: Threads, steps: seq<int>)
    requires AllWatched(s) && Exclusion(s) && ValidRun(s, steps)
    ensures AllWatched(Run(s, steps)) && Exclusion(Run(s, steps))
    decreases |steps|
  {
    if steps != [] {
      StepExclusion(s, steps[0]);
      assert Watched(s[steps[0]].held, s[steps[0]].rest);
      RunWatched(Apply(s, steps[0]), steps[1..]);
    }
  }

  /** Thread `i` is about to use field `f`. */
  ghost predicate Uses(s: Threads, i: int, f: Field, write: bool) {
    0 <= i < |s| && s[i].rest != [] && s[i].rest[0] == Touch(f, write)
  }

  /** Threads `i` and `j` use field `f` at the same time, and one of them writes it. */
  ghost predicate RaceOn(s: Threads, i: int, j: int, f: Field) {
    i != j && exists w, x :: Uses(s, i, f, w) && Uses(s, j, f, x) && (w || x)
  }

  lemma HoldsProtector(s: Threads, i: int, f: Field, write: bool) returns (h: Hold)
    requires AllWatched(s) && Uses(s, i, f, write)
    ensures HeldBy(s, i, h) && h.lock == Protector(f) && (write ==> h.mode == Exclusive)
  {
    assert Watched(s[i].held, s[i].rest);
    h := if Hold(Protector(f), Exclusive) in s[i].held then Hold(Protector(f), Exclusive) else Hold(Protector(f), Shared);
  }

  /** No data race: whatever calls run on whatever threads, as long as nobody clears a logger's appenders,
      no reachable state has two threads at the same field with one of them writing. */
  lemma NoDataRace(s: Threads, programs: seq<seq<Call>>, i: int, j: int, f: Field)
    requires (forall k :: 0 <= k < |programs| ==> AllKeepLocks(programs[k])) && Reachable(s, programs)
    ensures !RaceOn(s, i, j, f)
  {
    var start := Start(programs);
    forall k | 0 <= k < |start| ensures Watched(start[k].held, start[k].rest) { ProgramWatched(programs[k]); }
    var steps :| ValidRun(start, steps) && Run(start, steps) == s;
    RunWatched(start, steps);
    if RaceOn(s, i, j, f) {
      var w, x :| Uses(s, i, f, w) && Uses(s, j, f, x) && (w || x);
      var g := HoldsProtector(s, i, f, w);
      var h := HoldsProtector(s, j, f, x);
    }
  }

  // ---------------------------------------------------------------- where there is a race

  lemma ReachableNext(s: Threads, programs: seq<seq<Call>>, i: int)
    requires Reachable(s, programs) && Enabled(s, i)
    ensures Reachable(Apply(s, i), programs)
  {
    var steps :| ValidRun(Start(programs), steps) && Run(Start(programs), steps) == s;
    var t := Apply(s, i);
    assert Leads(t, [], t) && [i][1..] == [];
    assert Leads(s, [i], t);
    LeadsOn(Start(programs), steps, s, [i], t);
  }

  lemma ReachableStart(programs: seq<seq<Call>>)
    ensures Reachable(Start(programs), programs)
  {
    assert ValidRun(Start(programs), []) && Run(Start(programs), []) == Start(programs);
  }

  /** How a message that is not filtered begins. */
  lemma LogBegins(m: Message)
    requires !m.filtered
    ensures [Acquire(LoggerLock(m.name), Exclusive), Touch(Attached(m.name), false)] <= Program([ToLog(Log(m))])
  {
    var code := LogCode(m);
    var body := code[0].body;
    assert body[0] == Use(Attached(m.name), false);
    assert Flatten(body)[0] == Touch(Attached(m.name), false);
    assert Flatten(code) == [Acquire(LoggerLock(m.name), Exclusive)] + Flatten(body) + [Release(LoggerLock(m.name))] + Flatten(code[1..]);
  }

  /** Clearing a logger's appenders while a message to it is on its way is a data race. */
  lemma ClearingRaces(m: Message)
    requires !m.filtered
    ensures exists s :: Reachable(s, [[ToLog(Log(m))], [ToLog(ClearAppenders(m.name))]]) && RaceOn(s, 0, 1, Attached(m.name))
  {
    var programs := [[ToLog(Log(m))], [ToLog(ClearAppenders(m.name))]];
    var start := Start(programs);
    LogBegins(m);
    assert Flatten(ClearCode(m.name))[0] == Touch(Attached(m.name), true);
    assert start[1].rest[0] == Touch(Attached(m.name), true);
    assert Enabled(start, 0);
    ReachableStart(programs);
    ReachableNext(start, programs, 0);
    var s := Apply(start, 0);
    assert Uses(s, 0, Attached(m.name), false) && Uses(s, 1, Attached(m.name), true);
  }

  /** What the built-in listener does to a changed logger without appenders, up to the clearing. */
  function UpToClear(v: nat, name: string): seq<Op> {
    [Acquire(Var(v), Shared), Touch(Value(v), false), Touch(Listeners(v), false),
     Acquire(Manager, Exclusive), Touch(Loggers, true), Release(Manager), Touch(Attached(name), true)]
  }

  lemma ListenerBegins(l: Listener, name: string)
    requires l.BuiltIn? && l.m.filtered && l.changed == [Definition(name, false, [], [])] && l.dropped == []
    ensures [Acquire(Manager, Exclusive), Touch(Loggers, true), Release(Manager), Touch(Attached(name), true)]
         <= Flatten(ListenersCode([l]))
  {
    var get := Guard(Manager, Exclusive, [Use(Loggers, true)]);
    var clear := Use(Attached(name), true);
    assert l.changed[1..] == [] && [l][1..] == [];
    assert DefinitionsCode(l.changed) == [get, clear];
    assert ListenersCode([l]) == [get, clear];
    assert [get, clear][1..] == [clear] && [Use(Loggers, true)][1..] == [];
    assert Flatten([Use(Loggers, true)]) == [Touch(Loggers, true)];
    assert Flatten([clear])[0] == Touch(Attached(name), true);
    assert Flatten([get, clear]) == [Acquire(Manager, Exclusive)] + [Touch(Loggers, true)] + [Release(Manager)] + Flatten([clear]);
  }

  lemma ChangeBegins(v: nat, l: Listener, name: string)
    requires l.BuiltIn? && l.m.filtered && l.changed == [Definition(name, false, [], [])] && l.dropped == []
    ensures UpToClear(v, name) <= Program([SetValue(v, true, [l])])
  {
    ListenerBegins(l, name);
    SetValueBegins(v, [l]);
  }

  /** The second thread has taken `k` of those steps, the first none. */
  function Begun(p: seq<Op>, q: seq<Op>, v: nat, k: nat): Threads
    requires k <= |q|
  {
    var held := if k == 0 then [] else if k == 4 || k == 5 then [Hold(Var(v), Shared), Hold(Manager, Exclusive)]
                else [Hold(Var(v), Shared)];
    [Thread([], p), Thread(held, q[k..])]
  }

  lemma BegunNext(p: seq<Op>, q: seq<Op>, v: nat, name: string, k: nat)
    requires UpToClear(v, name) <= q && k < 6
    ensures Enabled(Begun(p, q, v, k), 1) && Apply(Begun(p, q, v, k), 1) == Begun(p, q, v, k + 1)
  {
    var s := Begun(p, q, v, k);
    assert s[1].rest[0] == UpToClear(v, name)[k] && s[1].rest[1..] == q[k + 1..];
    assert forall j, h :: HeldBy(s, j, h) ==> h in s[1].held;
    assert [Hold(Var(v), Shared), Hold(Manager, Exclusive)][..1] == [Hold(Var(v), Shared)];
    var t, u := Apply(s, 1), Begun(p, q, v, k + 1);
    assert t[0] == u[0] && t[1].held == u[1].held && t[1].rest == u[1].rest;
  }

  /** Reconfiguring a logger while a message to it is on its way is a data race, since the listener clears
      the logger's appenders. */
  lemma ReconfiguringRaces(v: nat, notice: Message, m: Message)
    requires notice.filtered && !m.filtered
    ensures var listener := BuiltIn(notice, [Definition(m.name, false, [], [])], []);
      exists s :: Reachable(s, [[ToLog(Log(m))], [SetValue(v, true, [listener])]]) && RaceOn(s, 0, 1, Attached(m.name))
  {
    var listener := BuiltIn(notice, [Definition(m.name, false, [], [])], []);
    var programs := [[ToLog(Log(m))], [SetValue(v, true, [listener])]];
    var start := Start(programs);
    var p, q := start[0].rest, start[1].rest;
    LogBegins(m);
    ChangeBegins(v, listener, m.name);
    ReachableStart(programs);
    assert q[0..] == q && start == Begun(p, q, v, 0);
    var k := 0;
    while k < 6
      invariant 0 <= k <= 6 && Reachable(Begun(p, q, v, k), programs)
    {
      BegunNext(p, q, v, m.name, k);
      ReachableNext(Begun(p, q, v, k), programs, 1);
      k := k + 1;
    }
    var s := Begun(p, q, v, 6);
    assert forall j, h :: HeldBy(s, j, h) ==> h == Hold(Var(v), Shared);
    assert Enabled(s, 0);
    ReachableNext(s, programs, 0);
    var t := Apply(s, 0);
    assert t[1].rest[0] == UpToClear(v, m.name)[6];
    assert Uses(t, 0, Attached(m.name), false) && Uses(t, 1, Attached(m.name), true);
  }
}
