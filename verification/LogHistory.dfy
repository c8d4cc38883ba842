/** Whole histories of configurations: when they run to their end, and what they leave.

    The listener on the `logs` variable begins by logging a message to the root logger. If the root
    logger has lost its appenders to an earlier configuration, that message follows its null root
    pointer, and neither the patch nor the assignment happens. */
module LogHistory {
  import opened Wrappers
  import opened PatternGrammar
  import opened DefaultPattern
  import opened LoggerSpec
  import opened LogDelivery

  /** How a history ends: the program crashed on the way, or the registry it leaves. */
  datatype Outcome = Crashed | Standing(registry: Registry)

  /** The message that announces a change. The macro's own level test is the one of `Logger::log`. */
  function Notice(v: Registry): LogResult
    requires "root" in v
  {
    Logged(v, "root", INFO)
  }

  /** One change of the variable, as the listener handles it. */
  function Changed(v: Registry, before: LogConfig, after: LogConfig): Outcome
    requires "root" in v
  {
    if Notice(v).Crash? then Crashed else Standing(Patched(v, before, after))
  }

  /** The value of the variable after the assignments `values`, if they run to their end. */
  function Current(start: LogConfig, values: seq<LogConfig>): LogConfig {
    if values == [] then start else values[|values| - 1]
  }

  /** What the assignments lead to; an assignment of the current value notifies nobody. */
  function After(v: Registry, start: LogConfig, values: seq<LogConfig>): (o: Outcome)
    requires "root" in v
    ensures o.Standing? ==> "root" in o.registry
    decreases |values|
  {
    if values == [] then Standing(v)
    else
      var n := |values| - 1;
      var was := Current(start, values[..n]);
      match After(v, start, values[..n])
      case Crashed => Crashed
      case Standing(r) => if values[n] == was then Standing(r) else Changed(r, was, values[n])
  }

  /** The last effective formatter among the successive definitions of `name`. */
  function LastFormatter(name: string, f: Option<string>, values: seq<LogConfig>): Option<string>
    decreases |values|
  {
    if values == [] then f
    else
      var d := values[|values| - 1];
      if name in d && Effective(d[name].formatter) then Some(d[name].formatter)
      else LastFormatter(name, f, values[..|values| - 1])
  }

  predicate EverDefined(name: string, values: seq<LogConfig>) {
    exists i :: 0 <= i < |values| && name in values[i]
  }

  /** An unchanged configuration patches nothing. */
  lemma PatchSame(v: Registry, c: LogConfig)
    ensures Patched(v, c, c) == v
  {}

  /** What registry `r` holds under `name`, when the registry was `v` at the start, the configuration
      is `cur`, `ever` says whether the name was ever defined and `f` is its last formatter. */
  ghost predicate ResultAt(v: Registry, r: Registry, cur: LogConfig, ever: bool, f: Option<string>, name: string) {
    && (name in cur ==> name in r && r[name] == LoggerView(cur[name].level, f, BuildAppenders(cur[name].appenders, f)))
    && (name !in cur && ever ==> name in r && r[name] == LoggerView(0, f, []))
    && (!ever ==> (name in r <==> name in v) && (name in v ==> r[name] == v[name]))
  }

  function FormatterOf(name: string, d: LogConfig, f: Option<string>): Option<string> {
    if name in d && Effective(d[name].formatter) then Some(d[name].formatter) else f
  }

  /** One change of the configuration, at one name. */
  lemma PatchResult(v: Registry, r: Registry, was: LogConfig, now: LogConfig, ever: bool, f: Option<string>, name: string)
    requires ResultAt(v, r, was, ever, f, name)
    requires name in was ==> ever
    requires name in was && Effective(was[name].formatter) ==> f == Some(was[name].formatter)
    requires !ever ==> f == LoggerOf(v, name).formatter
    ensures ResultAt(v, Patched(r, was, now), now, ever || name in now, FormatterOf(name, now, f), name)
  {}

  lemma EverSnoc(name: string, values: seq<LogConfig>)
    requires values != []
    ensures var n := |values| - 1; EverDefined(name, values) <==> EverDefined(name, values[..n]) || name in values[n]
  {
    var n := |values| - 1;
    assert forall i :: 0 <= i < n ==> values[..n][i] == values[i];
    if name in values[n] { assert values[n] == values[|values| - 1]; }
    if EverDefined(name, values[..n]) {
      var i :| 0 <= i < |values[..n]| && name in values[..n][i];
      assert name in values[i];
    }
  }

  /** Starting from an empty configuration, after any assignments that run to their end: each defined
      logger has the level and the appenders of its current definition, and the last effective
      formatter it was ever given; each logger that was defined once but is not now has level 0 and no
      appenders; every other logger is as it was, and no other logger was created. */
  lemma {:induction false} HistoryResult(v: Registry, values: seq<LogConfig>, name: string)
    requires "root" in v && After(v, map[], values).Standing?
    ensures ResultAt(v, After(v, map[], values).registry, Current(map[], values), EverDefined(name, values),
                     LastFormatter(name, LoggerOf(v, name).formatter, values), name)
    decreases |values|
  {
    if values != [] {
      var n := |values| - 1;
      var f := LoggerOf(v, name).formatter;
      var was := Current(map[], values[..n]);
      HistoryResult(v, values[..n], name);
      EverSnoc(name, values);
      InWas(name, values[..n]);
      if !EverDefined(name, values[..n]) { NeverFormatted(name, f, values[..n]); }
      if name in was && Effective(was[name].formatter) { LastOfCurrent(name, f, values[..n]); }
      var r := After(v, map[], values[..n]).registry;
      PatchResult(v, r, was, values[n], EverDefined(name, values[..n]), LastFormatter(name, f, values[..n]), name);
      if values[n] == was { PatchSame(r, was); }
    }
  }

  lemma {:induction false} NeverFormatted(name: string, f: Option<string>, values: seq<LogConfig>)
    requires !EverDefined(name, values)
    ensures LastFormatter(name, f, values) == f
    decreases |values|
  {
    if values != [] {
      var n := |values| - 1;
      assert name !in values[n];
      assert forall i :: 0 <= i < n ==> values[..n][i] == values[i];
      NeverFormatted(name, f, values[..n]);
    }
  }

  lemma LastOfCurrent(name: string, f: Option<string>, values: seq<LogConfig>)
    requires name in Current(map[], values) && Effective(Current(map[], values)[name].formatter)
    ensures LastFormatter(name, f, values) == Some(Current(map[], values)[name].formatter)
  {}

  lemma InWas(name: string, values: seq<LogConfig>)
    ensures name in Current(map[], values) ==> EverDefined(name, values)
  {
    if values != [] { assert values[|values| - 1] == Current(map[], values); }
  }

  // ---------------------------------------------------------------- against a rebuild

  /** Building the current configuration from scratch on the loggers as they were at the start. */
  function Rebuilt(v: Registry, cur: LogConfig): Registry {
    Patched(v, map[], cur)
  }

  /** For a defined logger the incremental result is the rebuilt one exactly when the formatter it
      retains is the one a rebuild gives: the current definition's if effective, else the one the
      logger had at the start. */
  lemma IncrementalIsRebuild(v: Registry, values: seq<LogConfig>, name: string)
    requires "root" in v && After(v, map[], values).Standing? && name in Current(map[], values)
    ensures var cur := Current(map[], values);
      var f := LoggerOf(v, name).formatter;
      var r := After(v, map[], values).registry;
      name in r && name in Rebuilt(v, cur)
      && (r[name] == Rebuilt(v, cur)[name] <==> Effective(cur[name].formatter) || LastFormatter(name, f, values) == f)
  {
    HistoryResult(v, values, name);
    assert name in ChangedNames(map[], Current(map[], values));
  }

  /** Level, kinds, files, levels and own formatters always agree with a rebuild. */
  lemma IncrementalMatchesDefinition(v: Registry, values: seq<LogConfig>, name: string)
    requires "root" in v && After(v, map[], values).Standing? && name in Current(map[], values)
    ensures var d := Current(map[], values)[name]; var r := After(v, map[], values).registry;
      && name in r && r[name].level == d.level && |r[name].appenders| == |d.appenders|
      && (d.formatter != "" && InGrammar(d.formatter) ==> r[name].formatter == Some(d.formatter))
      && forall i :: 0 <= i < |d.appenders| ==> AsDefined(r[name].appenders[i], d.appenders[i], r[name].formatter)
  {
    HistoryResult(v, values, name);
    AcceptsGrammar(Current(map[], values)[name].formatter);
    var d, f := Current(map[], values)[name], After(v, map[], values).registry[name].formatter;
    forall i | 0 <= i < |d.appenders|
      ensures AsDefined(After(v, map[], values).registry[name].appenders[i], d.appenders[i], f)
    {
      BuiltAsDefined(d.appenders[i], f);
    }
  }

  /** Retention is real: a definition with a formatter followed by one without leaves the first
      formatter in force, where a rebuild gives the default. */
  lemma RetainsOldFormatter()
    ensures var one := LoggerDef(DEBUG, "%m", []);
      var two := LoggerDef(DEBUG, "", []);
      var o := After(INITIAL_REGISTRY, map[], [map["system" := one], map["system" := two]]);
      var rebuilt := Rebuilt(INITIAL_REGISTRY, map["system" := two]);
      && o.Standing? && "system" in o.registry && o.registry["system"].formatter == Some("%m")
      && "system" in rebuilt && rebuilt["system"].formatter == Some(DEFAULT_PATTERN)
  {
    OneLetter();
    var one := LoggerDef(DEBUG, "%m", []);
    var two := LoggerDef(DEBUG, "", []);
    var values := [map["system" := one], map["system" := two]];
    NeverTouchesRoot(values);
    HistoryRuns(values);
    HistoryResult(INITIAL_REGISTRY, values, "system");
    TwoFormatters(values);
  }

  /** The pattern "%m" is valid. */
  lemma OneLetter()
    ensures Effective("%m")
  {
    var ts := [Plain("m")];
    assert ts[1..] == [];
    assert Print(ts) == "%m" && Valid(ts);
    AcceptsGrammar("%m");
  }

  lemma TwoFormatters(values: seq<LogConfig>)
    requires Effective("%m")
    requires values == [map["system" := LoggerDef(DEBUG, "%m", [])], map["system" := LoggerDef(DEBUG, "", [])]]
    ensures LastFormatter("system", Some(DEFAULT_PATTERN), values) == Some("%m")
    ensures Current(map[], values) == map["system" := LoggerDef(DEBUG, "", [])]
  {
    assert values[..1] == [values[0]] && values[..1][..0] == [];
  }

  // ---------------------------------------------------------------- when a history runs to its end

  /** The logger that a history leaves under `name`, read off the configurations alone: the current
      definition with the last effective formatter, or what is left of a dropped one, or the root
      logger as it was. `None` for a name that was never configured. */
  function Expected(values: seq<LogConfig>, name: string): (l: Option<LoggerView>)
    ensures name == "root" ==> l.Some?
  {
    var f := LastFormatter(name, Some(DEFAULT_PATTERN), values);
    var cur := Current(map[], values);
    if name in cur then Some(LoggerView(cur[name].level, f, BuildAppenders(cur[name].appenders, f)))
    else if EverDefined(name, values) then Some(LoggerView(0, f, []))
    else if name == "root" then Some(INITIAL_REGISTRY["root"])
    else None
  }

  lemma LeavesExpected(values: seq<LogConfig>, name: string)
    requires After(INITIAL_REGISTRY, map[], values).Standing?
    ensures var r := After(INITIAL_REGISTRY, map[], values).registry;
      match Expected(values, name) case Some(l) => name in r && r[name] == l case None => name !in r
  {
    HistoryResult(INITIAL_REGISTRY, values, name);
    InWas(name, values);
  }

  /** The root logger has an appender, by its current definition or because it never had one. */
  predicate RootHasAppender(values: seq<LogConfig>) {
    if EverDefined("root", values) then
      "root" in Current(map[], values) && Current(map[], values)["root"].appenders != []
    else true
  }

  /** After `values`, the root logger takes the announcement of a change, or its level suppresses it: the
      announcement has level 2. */
  predicate RootTakesNotice(values: seq<LogConfig>) {
    RootHasAppender(values) || Expected(values, "root").value.level > 2
  }

  /** Whenever the value really changes, the root logger could take the announcement. */
  predicate RunsToEnd(values: seq<LogConfig>) {
    forall i :: 0 <= i < |values| && values[i] != Current(map[], values[..i]) ==> RootTakesNotice(values[..i])
  }

  lemma RootExpected(values: seq<LogConfig>)
    ensures Expected(values, "root").value.appenders != [] <==> RootHasAppender(values)
  {
    InWas("root", values);
  }

  lemma NoticeExactly(values: seq<LogConfig>)
    requires After(INITIAL_REGISTRY, map[], values).Standing?
    ensures Notice(After(INITIAL_REGISTRY, map[], values).registry) != Crash <==> RootTakesNotice(values)
  {
    LeavesExpected(values, "root");
    RootExpected(values);
    CrashExactly(After(INITIAL_REGISTRY, map[], values).registry["root"], None, INFO);
  }

  lemma RunsSnoc(values: seq<LogConfig>)
    requires values != []
    ensures var n := |values| - 1;
      RunsToEnd(values) <==> RunsToEnd(values[..n]) && (values[n] != Current(map[], values[..n]) ==> RootTakesNotice(values[..n]))
  {
    var n := |values| - 1;
    forall i | 0 <= i < n ensures values[..n][i] == values[i] && values[..n][..i] == values[..i] {}
    if RunsToEnd(values[..n]) && (values[n] != Current(map[], values[..n]) ==> RootTakesNotice(values[..n])) {
      forall i | 0 <= i < |values| && values[i] != Current(map[], values[..i]) ensures RootTakesNotice(values[..i]) {
        if i < n { assert values[..n][..i] == values[..i] && values[..n][i] == values[i]; }
      }
    }
    if RunsToEnd(values) {
      forall i | 0 <= i < n && values[..n][i] != Current(map[], values[..n][..i]) ensures RootTakesNotice(values[..n][..i]) {
        assert values[..n][..i] == values[..i] && values[..n][i] == values[i];
      }
      assert values[n] != Current(map[], values[..n]) ==> RootTakesNotice(values[..n]);
    }
  }

  /** A history of configurations runs to its end if and only if at every real change the root logger
      had an appender, or a level above the announcement's. */
  lemma {:induction false} HistoryRuns(values: seq<LogConfig>)
    ensures After(INITIAL_REGISTRY, map[], values).Standing? <==> RunsToEnd(values)
    decreases |values|
  {
    if values != [] {
      var n := |values| - 1;
      HistoryRuns(values[..n]);
      RunsSnoc(values);
      if After(INITIAL_REGISTRY, map[], values[..n]).Standing? { NoticeExactly(values[..n]); }
    }
  }

  lemma NeverTouchesRoot(values: seq<LogConfig>)
    requires !EverDefined("root", values)
    ensures RunsToEnd(values)
  {
    forall i | 0 <= i < |values| ensures RootTakesNotice(values[..i]) {
      assert !EverDefined("root", values[..i]) by {
        assert forall j :: 0 <= j < i ==> values[..i][j] == values[j];
      }
    }
  }

  /** The last configuration alone does not decide: here it gives the root logger an appender, but the
      one before took the appender away, and announcing the last change crashes. */
  lemma RestoringRootCrashes()
    ensures var values := [map["root" := LoggerDef(DEBUG, "", [])],
                           map["root" := LoggerDef(DEBUG, "", [AppenderDef(2, 0, "", "")])]];
      && RootHasAppender(values) && !RunsToEnd(values)
      && After(INITIAL_REGISTRY, map[], values[..1]).Standing? && After(INITIAL_REGISTRY, map[], values) == Crashed
  {
    var values := [map["root" := LoggerDef(DEBUG, "", [])], map["root" := LoggerDef(DEBUG, "", [AppenderDef(2, 0, "", "")])]];
    assert values[..1] == [values[0]] && values[..0] == [] && values[..1][..0] == [];
    assert "root" in values[1] && "root" in values[0];
    assert EverDefined("root", values) && "root" in values[..1][0] && EverDefined("root", values[..1]);
    assert values[1]["root"] != values[0]["root"];
    assert !RootTakesNotice(values[..1]) && values[1] != Current(map[], values[..1]);
    HistoryRuns(values);
    assert RootTakesNotice([]);
    assert RunsToEnd(values[..1]);
    HistoryRuns(values[..1]);
  }

  // ---------------------------------------------------------------- messages after a history

  /** A message after a history that ran to its end never follows the missing root pointer exactly when
      the root logger is left with an appender. */
  lemma LoggingIsSafe(values: seq<LogConfig>)
    requires After(INITIAL_REGISTRY, map[], values).Standing?
    ensures var r := After(INITIAL_REGISTRY, map[], values).registry;
      RootHasAppender(values) <==> forall name, level :: name in r ==> Logged(r, name, level) != Crash
  {
    var r := After(INITIAL_REGISTRY, map[], values).registry;
    LeavesExpected(values, "root");
    RootExpected(values);
    if RootHasAppender(values) {
      forall name, level | name in r ensures Logged(r, name, level) != Crash {
        CrashExactly(r[name], if name == "root" then None else Some(r["root"]), level);
      }
    } else {
      CrashExactly(r["root"], None, r["root"].level);
      assert Logged(r, "root", r["root"].level) == Crash;
    }
  }

  /** What a message does, for every name and level, is what the configurations say. A logger writes
      nothing below its level; otherwise one line for each appender whose level allows it, in order,
      formatted by the appender's own pattern if that is valid and by the logger's otherwise. A
      logger without appenders hands the message on to the root logger; so a dropped logger is not
      silent. The root logger without appenders has nobody to hand it to. */
  lemma LoggedAsDefined(values: seq<LogConfig>, name: string, level: int)
    requires After(INITIAL_REGISTRY, map[], values).Standing? && Expected(values, name).Some?
    ensures var r := After(INITIAL_REGISTRY, map[], values).registry;
      var l := Expected(values, name).value;
      && name in r
      && (level < l.level ==> Logged(r, name, level) == Written([]))
      && (level >= l.level && l.appenders != [] ==>
            Logged(r, name, level).Written? && Delivers(Logged(r, name, level).lines, l.appenders, level))
      && (level >= l.level && l.appenders == [] ==>
            Logged(r, name, level) == if name == "root" then Crash else Logged(r, "root", level))
  {
    LeavesExpected(values, name);
    var idx := LinesWritten(Expected(values, name).value.appenders, level);
  }

  /** Before any configuration, a message to the root logger is one line on standard output in the
      default format, unless its level is unknown. */
  lemma InitialOutput(level: int)
    ensures Logged(INITIAL_REGISTRY, "root", level) ==
      Written(if level < 1 then [] else [Line(false, "", Some(DEFAULT_PATTERN))])
  {
    var out := AppenderView(false, "", DEBUG, Some(DEFAULT_PATTERN), false);
    assert INITIAL_REGISTRY["root"] == LoggerView(DEBUG, Some(DEFAULT_PATTERN), [out]);
    assert [out][1..] == [] && Lines([], level) == [];
    assert Lines([out], level) == if level < 1 then [] else [Line(false, "", Some(DEFAULT_PATTERN))];
  }

  lemma {:induction false} LastUsable(name: string, f: Option<string>, values: seq<LogConfig>)
    requires Usable(f)
    ensures Usable(LastFormatter(name, f, values))
    decreases |values|
  {
    if values != [] { LastUsable(name, f, values[..|values| - 1]); }
  }

  /** Whatever was configured, valid or not, every line of every message is written with a valid
      pattern. The announcement of the next change is such a message. */
  lemma LinesAlwaysFormatted(values: seq<LogConfig>, name: string, level: int)
    requires After(INITIAL_REGISTRY, map[], values).Standing?
    ensures var r := After(INITIAL_REGISTRY, map[], values).registry;
      name in r && Logged(r, name, level).Written? ==>
        forall l :: l in Logged(r, name, level).lines ==> Usable(l.pattern)
  {
    var r := After(INITIAL_REGISTRY, map[], values).registry;
    if name in r {
      AfterUsable(values, name);
      AfterUsable(values, "root");
      LogToUsable(r[name], if name == "root" then None else Some(r["root"]), level);
    }
  }

  lemma AfterUsable(values: seq<LogConfig>, name: string)
    requires After(INITIAL_REGISTRY, map[], values).Standing?
    requires name in After(INITIAL_REGISTRY, map[], values).registry
    ensures LoggerUsable(After(INITIAL_REGISTRY, map[], values).registry[name])
  {
    DefaultValid();
    var f := LoggerOf(INITIAL_REGISTRY, name).formatter;
    HistoryResult(INITIAL_REGISTRY, values, name);
    LastUsable(name, f, values);
    InWas(name, values);
    var cur := Current(map[], values);
    if name in cur {
      var own := LastFormatter(name, f, values);
      assert forall d :: Usable(BuildAppender(d, own).formatter);
    }
  }
}
