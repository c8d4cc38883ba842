/** What a message to a logger does. */
module LogDelivery {
  import opened Wrappers
  import opened PatternGrammar
  import opened LoggerSpec
  import opened Selections

  /** One line written: where, and in which format. A missing formatter would be dereferenced. */
  datatype Line = Line(isFile: bool, file: string, pattern: Option<string>)

  /** What a message does; `Crash` is the null root pointer of the root logger. */
  datatype LogResult = Crash | Written(lines: seq<Line>)

  function Lines(aps: seq<AppenderView>, level: int): seq<Line> {
    if aps == [] then []
    else (if level >= aps[0].level then [Line(aps[0].isFile, aps[0].file, aps[0].formatter)] else []) + Lines(aps[1..], level)
  }

  lemma {:induction false} LinesSnoc(aps: seq<AppenderView>, n: nat, level: int)
    requires n < |aps|
    ensures Lines(aps[..n + 1], level) ==
      Lines(aps[..n], level) + if level >= aps[n].level then [Line(aps[n].isFile, aps[n].file, aps[n].formatter)] else []
  {
    if n > 0 {
      assert aps[..n + 1][1..] == aps[1..][..n] && aps[..n][1..] == aps[1..][..n - 1];
      LinesSnoc(aps[1..], n - 1, level);
    }
  }

  /** `lines` are the lines of the appenders numbered in `idx`, which are exactly those whose level the
      message reaches, in order: each to the appender's place, in the appender's format. */
  ghost predicate WritesAt(lines: seq<Line>, aps: seq<AppenderView>, level: int, idx: seq<nat>) {
    && |lines| == |idx| && Lists(idx, set i: nat | i < |aps| && aps[i].level <= level)
    && forall k :: 0 <= k < |lines| ==>
         && idx[k] < |aps|
         && (lines[k].isFile <==> aps[idx[k]].isFile) && lines[k].file == aps[idx[k]].file
         && lines[k].pattern == aps[idx[k]].formatter
  }

  /** Each appender whose level the message reaches, and no other, writes one line, in order. */
  ghost predicate Delivers(lines: seq<Line>, aps: seq<AppenderView>, level: int) {
    exists idx: seq<nat> :: WritesAt(lines, aps, level, idx)
  }

  lemma {:induction false} LinesWritten(aps: seq<AppenderView>, level: int) returns (idx: seq<nat>)
    ensures WritesAt(Lines(aps, level), aps, level, idx)
    decreases |aps|
  {
    idx := [];
    if aps != [] {
      var n := |aps| - 1;
      var first, last := aps[..n], aps[n];
      idx := LinesWritten(first, level);
      LinesSnoc(aps, n, level);
      assert aps[..n + 1] == aps;
      var before, all := set i: nat | i < n && first[i].level <= level, set i: nat | i < |aps| && aps[i].level <= level;
      assert all == if last.level <= level then before + {n} else before;
      if last.level <= level {
        ListsSnoc(idx, before, n);
        idx := idx + [n];
      }
    }
  }

  /** `Logger::log` on a logger whose root pointer leads to `root`. */
  function LogTo(l: LoggerView, root: Option<LoggerView>, level: int): LogResult
    decreases root.Some?
  {
    if level < l.level then Written([])
    else if l.appenders != [] then Written(Lines(l.appenders, level))
    else if root.None? then Crash
    else LogTo(root.value, None, level)
  }

  function Logged(v: Registry, name: string, level: int): LogResult
    requires name in v && "root" in v
  {
    LogTo(v[name], if name == "root" then None else Some(v["root"]), level)
  }

  /** A message runs into the null root pointer exactly when the level tests pass and neither the
      logger nor the root logger has an appender. */
  lemma CrashExactly(l: LoggerView, root: Option<LoggerView>, level: int)
    ensures LogTo(l, root, level) == Crash <==>
      && level >= l.level && l.appenders == []
      && (root.Some? ==> level >= root.value.level && root.value.appenders == [])
    decreases root.Some?
  {
    if root.Some? { CrashExactly(root.value, None, level); }
  }

  predicate Usable(f: Option<string>) {
    f.Some? && !IsError(f.value)
  }

  lemma {:induction false} LinesUsable(aps: seq<AppenderView>, level: int)
    requires forall a :: a in aps ==> Usable(a.formatter)
    ensures forall l :: l in Lines(aps, level) ==> Usable(l.pattern)
  {
    if aps != [] {
      assert aps[0] in aps;
      LinesUsable(aps[1..], level);
    }
  }

  predicate LoggerUsable(l: LoggerView) {
    Usable(l.formatter) && forall a :: a in l.appenders ==> Usable(a.formatter)
  }

  lemma LogToUsable(l: LoggerView, root: Option<LoggerView>, level: int)
    requires LoggerUsable(l) && (root.Some? ==> LoggerUsable(root.value))
    ensures LogTo(l, root, level).Written? ==> forall x :: x in LogTo(l, root, level).lines ==> Usable(x.pattern)
    decreases root.Some?
  {
    LinesUsable(l.appenders, level);
    if root.Some? { LogToUsable(root.value, None, level); }
  }
}
