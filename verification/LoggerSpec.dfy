/** The log configuration as values: what the listener on the `logs` variable does to the registry
    when the configuration changes. */
module LoggerSpec {
  import opened Wrappers
  import opened PatternGrammar
  import opened DefaultPattern

  /** Levels as in the source: 0 is unknown, 1 DEBUG, ... 5 FATAL. */
  const DEBUG := 1
  const INFO := 2

  /** A configured appender: type 1 is a file, anything else standard output. */
  datatype AppenderDef = AppenderDef(kind: int, level: int, formatter: string, file: string)

  /** A configured logger; the name is the key of the configuration map. */
  datatype LoggerDef = LoggerDef(level: int, formatter: string, appenders: seq<AppenderDef>)

  type LogConfig = map<string, LoggerDef>

  /** An attached appender; `own` says that it has a formatter of its own. */
  datatype AppenderView = AppenderView(isFile: bool, file: string, level: int, formatter: Option<string>, own: bool)

  datatype LoggerView = LoggerView(level: int, formatter: Option<string>, appenders: seq<AppenderView>)

  type Registry = map<string, LoggerView>

  const NEW_LOGGER := LoggerView(DEBUG, Some(DEFAULT_PATTERN), [])

  /** The registry as its constructor leaves it: the root logger prints to standard output. */
  const INITIAL_REGISTRY: Registry :=
    map["root" := LoggerView(DEBUG, Some(DEFAULT_PATTERN), [AppenderView(false, "", DEBUG, Some(DEFAULT_PATTERN), false)])]

  /** A formatter text that takes effect. */
  predicate Effective(pattern: string) {
    pattern != "" && !IsError(pattern)
  }

  function BuildAppender(d: AppenderDef, inherited: Option<string>): AppenderView {
    AppenderView(d.kind == 1, if d.kind == 1 then d.file else "", d.level,
                 if Effective(d.formatter) then Some(d.formatter) else inherited, Effective(d.formatter))
  }

  /** Appender `a` of a logger with formatter `f` is what definition `d` asks for, field by field: a file
      for type 1 only, the level, and a formatter of its own exactly when the text is not empty and in
      the grammar. */
  ghost predicate AsDefined(a: AppenderView, d: AppenderDef, f: Option<string>) {
    && (a.isFile <==> d.kind == 1)
    && (d.kind == 1 ==> a.file == d.file) && (d.kind != 1 ==> a.file == "")
    && a.level == d.level
    && (a.own <==> d.formatter != "" && InGrammar(d.formatter))
    && (a.own ==> a.formatter == Some(d.formatter)) && (!a.own ==> a.formatter == f)
  }

  lemma BuiltAsDefined(d: AppenderDef, f: Option<string>)
    ensures AsDefined(BuildAppender(d, f), d, f)
  {
    AcceptsGrammar(d.formatter);
  }

  function BuildAppenders(ds: seq<AppenderDef>, inherited: Option<string>): (r: seq<AppenderView>)
    ensures |r| == |ds|
  {
    seq(|ds|, i requires 0 <= i < |ds| => BuildAppender(ds[i], inherited))
  }

  /** What configuring logger `l` by definition `d` makes of it. Without an effective formatter in
      the definition the logger keeps the one it has. */
  function Configured(l: LoggerView, d: LoggerDef): LoggerView {
    var f := if Effective(d.formatter) then Some(d.formatter) else l.formatter;
    LoggerView(d.level, f, BuildAppenders(d.appenders, f))
  }

  function Dropped(l: LoggerView): LoggerView {
    LoggerView(0, l.formatter, [])
  }

  function LoggerOf(v: Registry, name: string): LoggerView {
    if name in v then v[name] else NEW_LOGGER
  }

  /** Names whose definition is new or changed, and names whose definition is gone. */
  function ChangedNames(before: LogConfig, after: LogConfig): set<string> {
    set n | n in after && !(n in before && before[n] == after[n])
  }

  function GoneNames(before: LogConfig, after: LogConfig): set<string> {
    before.Keys - after.Keys
  }

  /** The registry after a change of the variable from `before` to `after`. */
  function Patched(v: Registry, before: LogConfig, after: LogConfig): (r: Registry)
    ensures r.Keys == v.Keys + ChangedNames(before, after) + GoneNames(before, after)
  {
    map n | n in v.Keys + ChangedNames(before, after) + GoneNames(before, after) ::
      if n in ChangedNames(before, after) then Configured(LoggerOf(v, n), after[n])
      else if n in GoneNames(before, after) then Dropped(LoggerOf(v, n))
      else v[n]
  }

  /** The registry while the listener is at work: the names `todo` of the new configuration and the
      names `gone` of the old one have not been visited yet. */
  function Midway(v: Registry, before: LogConfig, after: LogConfig, todo: set<string>, gone: set<string>): Registry {
    map n | n in v.Keys + (ChangedNames(before, after) - todo) + (GoneNames(before, after) - gone) ::
      if n in ChangedNames(before, after) && n !in todo then Configured(LoggerOf(v, n), after[n])
      else if n in GoneNames(before, after) && n !in gone then Dropped(LoggerOf(v, n))
      else v[n]
  }

  lemma MidwayStart(v: Registry, before: LogConfig, after: LogConfig)
    ensures Midway(v, before, after, after.Keys, before.Keys) == v
  {}

  lemma MidwayConfigure(v: Registry, before: LogConfig, after: LogConfig, todo: set<string>, gone: set<string>, n: string)
    requires n in todo && n in after
    ensures var m := Midway(v, before, after, todo, gone);
      Midway(v, before, after, todo - {n}, gone) ==
        if n in ChangedNames(before, after) then m[n := Configured(LoggerOf(m, n), after[n])] else m
  {}

  lemma MidwayDrop(v: Registry, before: LogConfig, after: LogConfig, todo: set<string>, gone: set<string>, n: string)
    requires n in gone && n in before
    ensures var m := Midway(v, before, after, todo, gone);
      Midway(v, before, after, todo, gone - {n}) == if n in after then m else m[n := Dropped(LoggerOf(m, n))]
  {}

  lemma MidwayEnd(v: Registry, before: LogConfig, after: LogConfig)
    ensures Midway(v, before, after, {}, {}) == Patched(v, before, after)
  {}
}
