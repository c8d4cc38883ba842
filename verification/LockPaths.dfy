/** The locks that every entry point of the config and log modules takes, and the shared fields it uses
    while it holds them. A guard object lives in a block, so the locking of a call is a tree: the guard
    and what happens while it is held. */
module LockPaths {
  datatype Lock = Registry | Var(id: nat) | Manager | Named(name: string) | Root | Appender(id: nat)

  datatype Mode = Shared | Exclusive

  /** The fields that threads share: the registry of variables; a variable's value and listeners; the
      registry of loggers; a logger's appenders and formatter; an appender's formatter and its output. */
  datatype Field =
    | Datas
    | Value(v: nat)
    | Listeners(v: nat)
    | Loggers
    | Attached(name: string)
    | Pattern(name: string)
    | Format(id: nat)
    | Output(id: nat)

  datatype Code = Guard(lock: Lock, mode: Mode, body: seq<Code>) | Use(field: Field, write: bool)

  datatype Hold = Hold(lock: Lock, mode: Mode)

  /** The lock that is meant to protect a field. */
  function Protector(f: Field): Lock {
    match f
    case Datas => Registry
    case Value(v) => Var(v)
    case Listeners(v) => Var(v)
    case Loggers => Manager
    case Attached(name) => LoggerLock(name)
    case Pattern(name) => LoggerLock(name)
    case Format(id) => Appender(id)
    case Output(id) => Appender(id)
  }

  /** A reader or the writer of the field's lock. */
  predicate MayUse(held: set<Hold>, f: Field, write: bool) {
    Hold(Protector(f), Exclusive) in held || (!write && Hold(Protector(f), Shared) in held)
  }

  /** Every use of a field is under its lock: one of the guards around it, or one in `held`. */
  predicate Covered(c: seq<Code>, held: set<Hold>) {
    c == [] ||
    (&& (match c[0]
         case Guard(lock, mode, body) => Covered(body, held + {Hold(lock, mode)})
         case Use(f, write) => MayUse(held, f, write))
     && Covered(c[1..], held))
  }

  lemma {:induction false} CoveredAdd(p: seq<Code>, q: seq<Code>, held: set<Hold>)
    ensures Covered(p + q, held) <==> Covered(p, held) && Covered(q, held)
  {
    if p == [] {
      assert p + q == q;
    } else {
      assert (p + q)[1..] == p[1..] + q;
      CoveredAdd(p[1..], q, held);
    }
  }

  lemma {:induction false} CoveredMore(c: seq<Code>, held: set<Hold>, more: set<Hold>)
    requires Covered(c, held) && held <= more
    ensures Covered(c, more)
    decreases c
  {
    if c != [] {
      if c[0].Guard? {
        CoveredMore(c[0].body, held + {Hold(c[0].lock, c[0].mode)}, more + {Hold(c[0].lock, c[0].mode)});
      }
      CoveredMore(c[1..], held, more);
    }
  }

  /** The lock hierarchy. Locks of equal rank are never nested. */
  function Rank(l: Lock): (r: int)
    ensures 0 <= r <= 5
  {
    match l
    case Registry => 0
    case Var(_) => 1
    case Manager => 2
    case Named(_) => 3
    case Root => 4
    case Appender(_) => 5
  }

  /** Every guard ranks above `outer` and above the guards around it. */
  predicate Nested(c: seq<Code>, outer: int) {
    c == [] ||
    (&& (c[0].Guard? ==> Rank(c[0].lock) > outer && Nested(c[0].body, Rank(c[0].lock)))
     && Nested(c[1..], outer))
  }

  lemma {:induction false} NestedAdd(p: seq<Code>, q: seq<Code>, outer: int)
    ensures Nested(p + q, outer) <==> Nested(p, outer) && Nested(q, outer)
  {
    if p == [] {
      assert p + q == q;
    } else {
      assert (p + q)[1..] == p[1..] + q;
      NestedAdd(p[1..], q, outer);
    }
  }

  lemma {:induction false} NestedBelow(c: seq<Code>, outer: int, lower: int)
    requires Nested(c, outer) && lower <= outer
    ensures Nested(c, lower)
    decreases |c|
  {
    if c != [] { NestedBelow(c[1..], outer, lower); }
  }

  // ---------------------------------------------------------------- the log module

  /** The root logger is registered as "root"; every other name has a lock of lower rank. */
  function LoggerLock(name: string): Lock {
    if name == "root" then Root else Named(name)
  }

  /** An appender while a message passes: its level test, and whether it opens its file again. */
  datatype Sink = Sink(id: nat, passes: bool, reopens: bool)

  /** One message: the logger, its level test and appenders, and the same for the root logger. */
  datatype Message = Message(name: string, filtered: bool, sinks: seq<Sink>, rootFiltered: bool, rootSinks: seq<Sink>)

  /** The root logger keeps an appender. */
  predicate MessageOK(m: Message) {
    (m.name == "root" ==> m.sinks != []) && m.rootSinks != []
  }

  function Leaf(l: Lock, f: Field, write: bool): seq<Code> {
    [Guard(l, Exclusive, [Use(f, write)])]
  }

  /** Each appender's formatter in turn, under its lock. */
  function Leaves(ids: seq<nat>, write: bool): seq<Code> {
    if ids == [] then [] else Leaf(Appender(ids[0]), Format(ids[0]), write) + Leaves(ids[1..], write)
  }

  /** One line: the formatter is read and the output written. */
  function WriteCode(id: nat): seq<Code> {
    [Guard(Appender(id), Exclusive, [Use(Format(id), false), Use(Output(id), true)])]
  }

  /** `StdoutLogAppender::log` and `FileLogAppender::log` for each appender in turn. */
  function SinksCode(sinks: seq<Sink>): seq<Code> {
    if sinks == [] then []
    else
      (if !sinks[0].passes then []
       else (if sinks[0].reopens then Leaf(Appender(sinks[0].id), Output(sinks[0].id), true) else [])
            + WriteCode(sinks[0].id))
      + SinksCode(sinks[1..])
  }

  /** `Logger::log`: without appenders the root logger is called while the lock is held. */
  function LogCode(m: Message): seq<Code> {
    if m.filtered then []
    else
      [Guard(LoggerLock(m.name), Exclusive,
             [Use(Attached(m.name), false)] +
             if m.sinks != [] || m.name == "root" then SinksCode(m.sinks)
             else if m.rootFiltered then []
             else [Guard(Root, Exclusive, [Use(Attached("root"), false)] + SinksCode(m.rootSinks))])]
  }

  function AddAppenderCode(name: string, appender: nat, hasFormatter: bool): seq<Code> {
    [Guard(LoggerLock(name), Exclusive,
           Leaf(Appender(appender), Format(appender), false)
           + (if hasFormatter then [] else [Guard(Appender(appender), Exclusive, [Use(Pattern(name), false), Use(Format(appender), true)])])
           + [Use(Attached(name), true)])]
  }

  /** `Logger::setFormatter`; `inheriting` are the appenders without a formatter of their own. */
  function SetFormatterCode(name: string, inheriting: seq<nat>): seq<Code> {
    [Guard(LoggerLock(name), Exclusive, [Use(Pattern(name), true), Use(Attached(name), false)] + Leaves(inheriting, true))]
  }

  /** `Logger::clearAppenders` takes no lock. */
  function ClearCode(name: string): seq<Code> {
    [Use(Attached(name), true)]
  }

  /** A logger and its appenders, as `toYamlString` meets them. */
  datatype Listing = Listing(name: string, appenders: seq<nat>)

  function ListingCode(l: Listing): seq<Code> {
    [Guard(LoggerLock(l.name), Exclusive, [Use(Pattern(l.name), false), Use(Attached(l.name), false)] + Leaves(l.appenders, false))]
  }

  function ListingsCode(ls: seq<Listing>): seq<Code> {
    if ls == [] then [] else ListingCode(ls[0]) + ListingsCode(ls[1..])
  }

  /** The lookup may register a new logger. */
  function GetLoggerCode(): seq<Code> {
    Leaf(Manager, Loggers, true)
  }

  datatype LogCall =
    | GetLogger
    | Log(m: Message)
    | AddAppender(name: string, appender: nat, hasFormatter: bool)
    | DelAppender(name: string)
    | ClearAppenders(name: string)
    | SetFormatter(name: string, inheriting: seq<nat>)
    | GetFormatter(name: string)
    | LoggerToYaml(listing: Listing)
    | ManagerToYaml(listings: seq<Listing>)
    | AppenderAccess(appender: nat, write: bool)  // its getFormatter and toYamlString; its setFormatter
    | Reopen(appender: nat)

  predicate LogCallOK(c: LogCall) {
    c.Log? ==> MessageOK(c.m)
  }

  function LogCallCode(c: LogCall): seq<Code> {
    match c
    case GetLogger => GetLoggerCode()
    case Log(m) => LogCode(m)
    case AddAppender(name, appender, hasFormatter) => AddAppenderCode(name, appender, hasFormatter)
    case DelAppender(name) => Leaf(LoggerLock(name), Attached(name), true)
    case ClearAppenders(name) => ClearCode(name)
    case SetFormatter(name, inheriting) => SetFormatterCode(name, inheriting)
    case GetFormatter(name) => Leaf(LoggerLock(name), Pattern(name), false)
    case LoggerToYaml(listing) => ListingCode(listing)
    case ManagerToYaml(listings) => [Guard(Manager, Exclusive, [Use(Loggers, false)] + ListingsCode(listings))]
    case AppenderAccess(appender, write) => Leaf(Appender(appender), Format(appender), write)
    case Reopen(appender) => Leaf(Appender(appender), Output(appender), true)
  }

  // ---------------------------------------------------------------- the listener on `logs`

  datatype NewAppender = NewAppender(id: nat, isFile: bool, own: bool)

  /** A definition that is new or changed: whether its formatter takes effect, the old appenders that
      inherit it, and the appenders to build. */
  datatype Definition = Definition(name: string, formatted: bool, inheriting: seq<nat>, appenders: seq<NewAppender>)

  function NewAppenderCode(name: string, a: NewAppender): seq<Code> {
    (if a.isFile then Leaf(Appender(a.id), Output(a.id), true) else [])
    + (if a.own then Leaf(Appender(a.id), Format(a.id), true) else [])
    + AddAppenderCode(name, a.id, a.own)
  }

  function NewAppendersCode(name: string, q: seq<NewAppender>): seq<Code> {
    if q == [] then [] else NewAppenderCode(name, q[0]) + NewAppendersCode(name, q[1..])
  }

  function DefinitionsCode(ds: seq<Definition>): seq<Code> {
    if ds == [] then []
    else
      GetLoggerCode()
      + (if ds[0].formatted then SetFormatterCode(ds[0].name, ds[0].inheriting) else [])
      + ClearCode(ds[0].name)
      + NewAppendersCode(ds[0].name, ds[0].appenders)
      + DefinitionsCode(ds[1..])
  }

  function DroppedCode(names: seq<string>): seq<Code> {
    if names == [] then [] else GetLoggerCode() + ClearCode(names[0]) + DroppedCode(names[1..])
  }

  // ---------------------------------------------------------------- the config module

  /** A listener: the built-in one, or one of the client's with whatever locks it takes. */
  datatype Listener = BuiltIn(m: Message, changed: seq<Definition>, dropped: seq<string>) | Client(code: seq<Code>)

  function ListenerCode(l: Listener): seq<Code> {
    match l
    case BuiltIn(m, changed, dropped) => LogCode(m) + DefinitionsCode(changed) + DroppedCode(dropped)
    case Client(code) => code
  }

  /** A listener runs under the variable's lock: it may log, but not come back to the variables. */
  predicate ListenerOK(l: Listener) {
    match l
    case BuiltIn(m, _, _) => MessageOK(m)
    case Client(code) => Nested(code, Rank(Var(0)))
  }

  function ListenersCode(ls: seq<Listener>): seq<Code> {
    if ls == [] then [] else ListenerCode(ls[0]) + ListenersCode(ls[1..])
  }

  predicate ListenersOK(ls: seq<Listener>) {
    forall l :: l in ls ==> ListenerOK(l)
  }

  function StoreCode(v: nat): seq<Code> {
    [Guard(Var(v), Exclusive, [Use(Value(v), true)])]
  }

  function ReadCode(v: nat): seq<Code> {
    [Guard(Var(v), Shared, [Use(Value(v), false)])]
  }

  function FindCode(): seq<Code> {
    [Guard(Registry, Shared, [Use(Datas, false)])]
  }

  /** `setValue`: listeners run under the read lock; the write lock is taken after it is let go. */
  function SetValueCode(v: nat, changed: bool, ls: seq<Listener>): seq<Code> {
    [Guard(Var(v), Shared, [Use(Value(v), false)] + if changed then [Use(Listeners(v), false)] + ListenersCode(ls) else [])]
    + if changed then StoreCode(v) else []
  }

  /** `toString`: the error message comes after the lock is let go by the exception. */
  function ToStringCode(v: nat, failed: bool, m: Message): seq<Code> {
    ReadCode(v) + if failed then LogCode(m) else []
  }

  /** What a lookup finds: the error message of a wrong type prints the variable. */
  datatype Found = SameType | OtherType(v: nat, failed: bool, inner: Message) | BadName | New

  /** One member that `LoadFromYaml` assigns: whether the name exists, and the conversion succeeds. */
  datatype Assignment = Assignment(known: bool, v: nat, converts: bool, changed: bool, listeners: seq<Listener>, m: Message)

  function AssignmentCode(a: Assignment): seq<Code> {
    FindCode()
    + if !a.known then []
      else if a.converts then SetValueCode(a.v, a.changed, a.listeners)
      else LogCode(a.m)
  }

  function AssignmentsCode(q: seq<Assignment>): seq<Code> {
    if q == [] then [] else AssignmentCode(q[0]) + AssignmentsCode(q[1..])
  }

  function MessagesCode(ms: seq<Message>): seq<Code> {
    if ms == [] then [] else LogCode(ms[0]) + MessagesCode(ms[1..])
  }

  datatype Call =
    | ToLog(call: LogCall)
    | GetValue(v: nat)
    | GetListener(v: nat)
    | ChangeListeners(v: nat)              // addListener, delListener and clearListener
    | ToString(v: nat, failed: bool, m: Message)
    | SetValue(v: nat, changed: bool, listeners: seq<Listener>)
    | FromString(a: Assignment)
    | Lookup(found: Found, m: Message)
    | LookupOnly                           // the one-argument Lookup and LookupBase
    | Visit(visitor: seq<Code>)
    | LoadFromYaml(invalid: seq<Message>, members: seq<Assignment>)

  predicate AssignmentOK(a: Assignment) {
    MessageOK(a.m) && ListenersOK(a.listeners)
  }

  /** What the clients owe: a root logger with an appender, listeners that stay away from the
      variables, visitors that stay away from the registry. */
  predicate CallOK(c: Call) {
    match c
    case ToLog(call) => LogCallOK(call)
    case ToString(_, _, m) => MessageOK(m)
    case SetValue(_, _, ls) => ListenersOK(ls)
    case FromString(a) => AssignmentOK(a)
    case Lookup(found, m) => MessageOK(m) && (found.OtherType? ==> MessageOK(found.inner))
    case Visit(visitor) => Nested(visitor, Rank(Registry))
    case LoadFromYaml(invalid, members) =>
      (forall m :: m in invalid ==> MessageOK(m)) && (forall a :: a in members ==> AssignmentOK(a))
    case _ => true
  }

  /** What `Lookup` does once it has looked. */
  function FoundCode(found: Found, m: Message): seq<Code> {
    match found
    case SameType => LogCode(m)
    case OtherType(v, failed, inner) => ToStringCode(v, failed, inner) + LogCode(m)
    case BadName => LogCode(m)
    case New => [Use(Datas, true)]
  }

  function CodeOf(c: Call): seq<Code> {
    match c
    case ToLog(call) => LogCallCode(call)
    case GetValue(v) => ReadCode(v)
    case GetListener(v) => [Guard(Var(v), Shared, [Use(Listeners(v), false)])]
    case ChangeListeners(v) => [Guard(Var(v), Exclusive, [Use(Listeners(v), true)])]
    case ToString(v, failed, m) => ToStringCode(v, failed, m)
    case SetValue(v, changed, ls) => SetValueCode(v, changed, ls)
    case FromString(a) => if a.converts then SetValueCode(a.v, a.changed, a.listeners) else LogCode(a.m)
    case Lookup(found, m) =>
      [Guard(Registry, Exclusive, [Use(Datas, false)] + FoundCode(found, m))]
    case LookupOnly => FindCode()
    case Visit(visitor) => [Guard(Registry, Shared, [Use(Datas, false)] + visitor)]
    case LoadFromYaml(invalid, members) => MessagesCode(invalid) + AssignmentsCode(members)
  }

  // ---------------------------------------------------------------- every path is ordered

  lemma OneGuard(l: Lock, mode: Mode, body: seq<Code>, outer: int)
    requires Nested(body, Rank(l)) && outer < Rank(l)
    ensures Nested([Guard(l, mode, body)], outer)
  {
    assert Nested([], outer);
  }

  lemma OneUse(f: Field, write: bool, body: seq<Code>, outer: int)
    requires Nested(body, outer)
    ensures Nested([Use(f, write)] + body, outer)
  {
    assert ([Use(f, write)] + body)[1..] == body;
  }

  lemma UsesNested(f: Field, w: bool, g: Field, x: bool, outer: int)
    ensures Nested([Use(f, w)], outer) && Nested([Use(f, w), Use(g, x)], outer)
  {
    assert [Use(f, w), Use(g, x)][1..] == [Use(g, x)] && [Use(g, x)][1..] == [];
    assert Nested([], outer);
  }

  lemma LeafNested(l: Lock, f: Field, write: bool, outer: int)
    requires outer < Rank(l)
    ensures Nested(Leaf(l, f, write), outer)
  {
    UsesNested(f, write, f, write, Rank(l));
    OneGuard(l, Exclusive, [Use(f, write)], outer);
  }

  lemma {:induction false} LeavesNested(ids: seq<nat>, write: bool, outer: int)
    requires outer < 5
    ensures Nested(Leaves(ids, write), outer)
  {
    if ids != [] {
      LeavesNested(ids[1..], write, outer);
      LeafNested(Appender(ids[0]), Format(ids[0]), write, outer);
      NestedAdd(Leaf(Appender(ids[0]), Format(ids[0]), write), Leaves(ids[1..], write), outer);
    }
  }

  lemma WriteNested(id: nat, outer: int)
    requires outer < 5
    ensures Nested(WriteCode(id), outer)
  {
    UsesNested(Format(id), false, Output(id), true, 5);
    OneGuard(Appender(id), Exclusive, [Use(Format(id), false), Use(Output(id), true)], outer);
  }

  lemma {:induction false} SinksNested(sinks: seq<Sink>, outer: int)
    requires outer < 5
    ensures Nested(SinksCode(sinks), outer)
  {
    if sinks != [] {
      var id := sinks[0].id;
      var reopen := if sinks[0].reopens then Leaf(Appender(id), Output(id), true) else [];
      SinksNested(sinks[1..], outer);
      LeafNested(Appender(id), Output(id), true, outer);
      WriteNested(id, outer);
      NestedAdd(reopen, WriteCode(id), outer);
      NestedAdd(if !sinks[0].passes then [] else reopen + WriteCode(id), SinksCode(sinks[1..]), outer);
    }
  }

  lemma LogNested(m: Message, outer: int)
    requires MessageOK(m) && outer < 3
    ensures Nested(LogCode(m), outer)
  {
    SinksNested(m.sinks, 3);
    SinksNested(m.sinks, 4);
    SinksNested(m.rootSinks, 4);
    OneUse(Attached("root"), false, SinksCode(m.rootSinks), 4);
    OneUse(Attached(m.name), false, SinksCode(m.sinks), Rank(LoggerLock(m.name)));
    if m.name != "root" {
      var body := [Use(Attached("root"), false)] + SinksCode(m.rootSinks);
      OneGuard(Root, Exclusive, body, 3);
      OneUse(Attached(m.name), false, [Guard(Root, Exclusive, body)], 3);
      OneUse(Attached(m.name), false, [], 3);
    }
  }

  lemma AddNested(name: string, appender: nat, hasFormatter: bool, outer: int)
    requires outer < 3
    ensures Nested(AddAppenderCode(name, appender, hasFormatter), outer)
  {
    var rank := Rank(LoggerLock(name));
    var read := Leaf(Appender(appender), Format(appender), false);
    var copy := [Use(Pattern(name), false), Use(Format(appender), true)];
    var write := if hasFormatter then [] else [Guard(Appender(appender), Exclusive, copy)];
    LeafNested(Appender(appender), Format(appender), false, rank);
    UsesNested(Pattern(name), false, Format(appender), true, 5);
    OneGuard(Appender(appender), Exclusive, copy, rank);
    UsesNested(Attached(name), true, Attached(name), true, rank);
    NestedAdd(read, write, rank);
    NestedAdd(read + write, [Use(Attached(name), true)], rank);
    OneGuard(LoggerLock(name), Exclusive, read + write + [Use(Attached(name), true)], outer);
  }

  lemma SetFormatterNested(name: string, inheriting: seq<nat>, outer: int)
    requires outer < 3
    ensures Nested(SetFormatterCode(name, inheriting), outer)
  {
    var rank, uses := Rank(LoggerLock(name)), [Use(Pattern(name), true), Use(Attached(name), false)];
    LeavesNested(inheriting, true, rank);
    UsesNested(Pattern(name), true, Attached(name), false, rank);
    NestedAdd(uses, Leaves(inheriting, true), rank);
    OneGuard(LoggerLock(name), Exclusive, uses + Leaves(inheriting, true), outer);
  }

  lemma ListingNested(l: Listing, outer: int)
    requires outer < 3
    ensures Nested(ListingCode(l), outer)
  {
    var rank, uses := Rank(LoggerLock(l.name)), [Use(Pattern(l.name), false), Use(Attached(l.name), false)];
    LeavesNested(l.appenders, false, rank);
    UsesNested(Pattern(l.name), false, Attached(l.name), false, rank);
    NestedAdd(uses, Leaves(l.appenders, false), rank);
    OneGuard(LoggerLock(l.name), Exclusive, uses + Leaves(l.appenders, false), outer);
  }

  lemma {:induction false} ListingsNested(ls: seq<Listing>, outer: int)
    requires outer < 3
    ensures Nested(ListingsCode(ls), outer)
  {
    if ls != [] {
      ListingNested(ls[0], outer);
      ListingsNested(ls[1..], outer);
      NestedAdd(ListingCode(ls[0]), ListingsCode(ls[1..]), outer);
    }
  }

  lemma ClearNested(name: string, outer: int)
    ensures Nested(ClearCode(name), outer)
  {
    UsesNested(Attached(name), true, Attached(name), true, outer);
  }

  /** No call into the log module takes a lock of the config module. */
  lemma LogCallNested(c: LogCall)
    requires LogCallOK(c)
    ensures Nested(LogCallCode(c), Rank(Var(0)))
  {
    match c
    case GetLogger => LeafNested(Manager, Loggers, true, 1);
    case Log(m) => LogNested(m, 1);
    case AddAppender(name, appender, hasFormatter) => AddNested(name, appender, hasFormatter, 1);
    case DelAppender(name) => LeafNested(LoggerLock(name), Attached(name), true, 1);
    case ClearAppenders(name) => ClearNested(name, 1);
    case SetFormatter(name, inheriting) => SetFormatterNested(name, inheriting, 1);
    case GetFormatter(name) => LeafNested(LoggerLock(name), Pattern(name), false, 1);
    case LoggerToYaml(listing) => ListingNested(listing, 1);
    case ManagerToYaml(listings) =>
      ListingsNested(listings, 2);
      OneUse(Loggers, false, ListingsCode(listings), 2);
      OneGuard(Manager, Exclusive, [Use(Loggers, false)] + ListingsCode(listings), 1);
    case AppenderAccess(appender, write) => LeafNested(Appender(appender), Format(appender), write, 1);
    case Reopen(appender) => LeafNested(Appender(appender), Output(appender), true, 1);
  }

  lemma {:induction false} NewAppendersNested(name: string, q: seq<NewAppender>, outer: int)
    requires outer < 3
    ensures Nested(NewAppendersCode(name, q), outer)
  {
    if q != [] {
      var a := q[0];
      var first := if a.isFile then Leaf(Appender(a.id), Output(a.id), true) else [];
      var second := if a.own then Leaf(Appender(a.id), Format(a.id), true) else [];
      LeafNested(Appender(a.id), Output(a.id), true, outer);
      LeafNested(Appender(a.id), Format(a.id), true, outer);
      AddNested(name, a.id, a.own, outer);
      NestedAdd(first, second, outer);
      NestedAdd(first + second, AddAppenderCode(name, a.id, a.own), outer);
      NewAppendersNested(name, q[1..], outer);
      NestedAdd(NewAppenderCode(name, a), NewAppendersCode(name, q[1..]), outer);
    }
  }

  lemma {:induction false} DefinitionsNested(ds: seq<Definition>)
    ensures Nested(DefinitionsCode(ds), 1)
  {
    if ds != [] {
      var d := ds[0];
      var setting := if d.formatted then SetFormatterCode(d.name, d.inheriting) else [];
      var get, clear, add := GetLoggerCode(), ClearCode(d.name), NewAppendersCode(d.name, d.appenders);
      LeafNested(Manager, Loggers, true, 1);
      SetFormatterNested(d.name, d.inheriting, 1);
      ClearNested(d.name, 1);
      NewAppendersNested(d.name, d.appenders, 1);
      DefinitionsNested(ds[1..]);
      NestedAdd(get, setting, 1);
      NestedAdd(get + setting, clear, 1);
      NestedAdd(get + setting + clear, add, 1);
      NestedAdd(get + setting + clear + add, DefinitionsCode(ds[1..]), 1);
    }
  }

  lemma {:induction false} DroppedNested(names: seq<string>)
    ensures Nested(DroppedCode(names), 1)
  {
    if names != [] {
      LeafNested(Manager, Loggers, true, 1);
      ClearNested(names[0], 1);
      DroppedNested(names[1..]);
      NestedAdd(GetLoggerCode(), ClearCode(names[0]), 1);
      NestedAdd(GetLoggerCode() + ClearCode(names[0]), DroppedCode(names[1..]), 1);
    }
  }

  /** The built-in listener keeps what is asked of listeners. */
  lemma ListenerNested(l: Listener)
    requires ListenerOK(l)
    ensures Nested(ListenerCode(l), Rank(Var(0)))
  {
    if l.BuiltIn? {
      LogNested(l.m, 1);
      DefinitionsNested(l.changed);
      DroppedNested(l.dropped);
      NestedAdd(LogCode(l.m), DefinitionsCode(l.changed), 1);
      NestedAdd(LogCode(l.m) + DefinitionsCode(l.changed), DroppedCode(l.dropped), 1);
    }
  }

  lemma {:induction false} ListenersNested(ls: seq<Listener>)
    requires ListenersOK(ls)
    ensures Nested(ListenersCode(ls), Rank(Var(0)))
  {
    if ls != [] {
      assert ls[0] in ls;
      ListenerNested(ls[0]);
      ListenersNested(ls[1..]);
      NestedAdd(ListenerCode(ls[0]), ListenersCode(ls[1..]), 1);
    }
  }

  lemma VarNested(v: nat, outer: int)
    requires outer < 1
    ensures Nested(ReadCode(v), outer) && Nested(StoreCode(v), outer)
  {
    UsesNested(Value(v), false, Value(v), false, 1);
    UsesNested(Value(v), true, Value(v), true, 1);
    OneGuard(Var(v), Shared, [Use(Value(v), false)], outer);
    OneGuard(Var(v), Exclusive, [Use(Value(v), true)], outer);
  }

  lemma SetValueNested(v: nat, changed: bool, ls: seq<Listener>, outer: int)
    requires ListenersOK(ls) && outer < 1
    ensures Nested(SetValueCode(v, changed, ls), outer)
  {
    var notify := if changed then [Use(Listeners(v), false)] + ListenersCode(ls) else [];
    ListenersNested(ls);
    OneUse(Listeners(v), false, ListenersCode(ls), 1);
    OneUse(Value(v), false, notify, 1);
    OneGuard(Var(v), Shared, [Use(Value(v), false)] + notify, outer);
    VarNested(v, outer);
    NestedAdd([Guard(Var(v), Shared, [Use(Value(v), false)] + notify)], if changed then StoreCode(v) else [], outer);
  }

  lemma ToStringNested(v: nat, failed: bool, m: Message, outer: int)
    requires MessageOK(m) && outer < 1
    ensures Nested(ToStringCode(v, failed, m), outer)
  {
    LogNested(m, outer);
    VarNested(v, outer);
    NestedAdd(ReadCode(v), if failed then LogCode(m) else [], outer);
  }

  lemma FindNested()
    ensures Nested(FindCode(), -1)
  {
    UsesNested(Datas, false, Datas, false, 0);
    OneGuard(Registry, Shared, [Use(Datas, false)], -1);
  }

  lemma {:induction false} AssignmentsNested(q: seq<Assignment>)
    requires forall a :: a in q ==> AssignmentOK(a)
    ensures Nested(AssignmentsCode(q), -1)
  {
    if q != [] {
      var a := q[0];
      assert a in q;
      FindNested();
      SetValueNested(a.v, a.changed, a.listeners, -1);
      LogNested(a.m, -1);
      NestedAdd(FindCode(), SetValueCode(a.v, a.changed, a.listeners), -1);
      NestedAdd(FindCode(), LogCode(a.m), -1);
      NestedAdd(FindCode(), [], -1);
      AssignmentsNested(q[1..]);
      NestedAdd(AssignmentCode(a), AssignmentsCode(q[1..]), -1);
    }
  }

  lemma {:induction false} MessagesNested(ms: seq<Message>)
    requires forall m :: m in ms ==> MessageOK(m)
    ensures Nested(MessagesCode(ms), -1)
  {
    if ms != [] {
      assert ms[0] in ms;
      LogNested(ms[0], -1);
      MessagesNested(ms[1..]);
      NestedAdd(LogCode(ms[0]), MessagesCode(ms[1..]), -1);
    }
  }

  /** Every entry point of both modules takes its locks in the order of the hierarchy. */
  lemma CallNested(c: Call)
    requires CallOK(c)
    ensures Nested(CodeOf(c), -1)
  {
    match c
    case ToLog(call) =>
      LogCallNested(call);
      NestedBelow(LogCallCode(call), 1, -1);
    case ToString(v, failed, m) => ToStringNested(v, failed, m, -1);
    case SetValue(v, changed, ls) => SetValueNested(v, changed, ls, -1);
    case FromString(a) =>
      SetValueNested(a.v, a.changed, a.listeners, -1);
      LogNested(a.m, -1);
    case Lookup(found, m) => LookupNested(found, m);
    case Visit(visitor) =>
      OneUse(Datas, false, visitor, 0);
      OneGuard(Registry, Shared, [Use(Datas, false)] + visitor, -1);
    case GetValue(v) => VarNested(v, -1);
    case GetListener(v) =>
      UsesNested(Listeners(v), false, Listeners(v), false, 1);
      OneGuard(Var(v), Shared, [Use(Listeners(v), false)], -1);
    case ChangeListeners(v) =>
      UsesNested(Listeners(v), true, Listeners(v), true, 1);
      OneGuard(Var(v), Exclusive, [Use(Listeners(v), true)], -1);
    case LookupOnly => FindNested();
    case LoadFromYaml(invalid, members) =>
      MessagesNested(invalid);
      AssignmentsNested(members);
      NestedAdd(MessagesCode(invalid), AssignmentsCode(members), -1);
  }

  lemma FoundNested(found: Found, m: Message)
    requires MessageOK(m) && (found.OtherType? ==> MessageOK(found.inner))
    ensures Nested(FoundCode(found, m), 0)
  {
    LogNested(m, 0);
    UsesNested(Datas, true, Datas, true, 0);
    if found.OtherType? {
      ToStringNested(found.v, found.failed, found.inner, 0);
      NestedAdd(ToStringCode(found.v, found.failed, found.inner), LogCode(m), 0);
    }
  }

  lemma LookupNested(found: Found, m: Message)
    requires MessageOK(m) && (found.OtherType? ==> MessageOK(found.inner))
    ensures Nested(CodeOf(Lookup(found, m)), -1)
  {
    FoundNested(found, m);
    OneUse(Datas, false, FoundCode(found, m), 0);
    OneGuard(Registry, Exclusive, [Use(Datas, false)] + FoundCode(found, m), -1);
  }
}
