/** Loggers, appenders and the logger registry as objects, with the listener that patches them. */
module Loggers {
  import opened Wrappers
  import opened PatternGrammar
  import opened LogFormatters
  import opened LoggerSpec
  import opened LogDelivery
  import opened DefaultPattern

  /** A formatter object is immutable, so a shared pointer to it is modelled by its pattern. */
  class LogAppender {
    const isFile: bool
    const file: string
    var level: int
    var formatter: Option<string>
    var hasFormatter: bool

    constructor (isFile: bool, file: string)
      ensures this.isFile == isFile && this.file == file && level == DEBUG && formatter == None && !hasFormatter
    {
      this.isFile, this.file := isFile, file;
      level, formatter, hasFormatter := DEBUG, None, false;
    }

    ghost function View(): AppenderView
      reads this
    {
      AppenderView(isFile, file, level, formatter, hasFormatter)
    }

    method SetLevel(val: int)
      modifies this`level
      ensures level == val
    {
      level := val;
    }

    method GetFormatter() returns (f: Option<string>)
      ensures f == formatter
    {
      f := formatter;
    }

    /** A null formatter also takes away the mark of having an own one. */
    method SetFormatter(val: Option<string>)
      modifies this`formatter, this`hasFormatter
      ensures formatter == val && (hasFormatter <==> val.Some?)
    {
      formatter := val;
      if formatter.Some? {
        hasFormatter := true;
      } else {
        hasFormatter := false;
      }
    }
  }

  function RemoveFirst(q: seq<LogAppender>, a: LogAppender): seq<LogAppender> {
    if q == [] then [] else if q[0] == a then q[1..] else [q[0]] + RemoveFirst(q[1..], a)
  }

  lemma {:induction false} RemoveFirstAt(q: seq<LogAppender>, a: LogAppender, k: nat)
    requires k <= |q| && a !in q[..k] && (k < |q| ==> q[k] == a)
    ensures RemoveFirst(q, a) == if k < |q| then q[..k] + q[k + 1..] else q
  {
    if q != [] && k > 0 {
      assert q[..k] == [q[0]] + q[1..][..k - 1];
      RemoveFirstAt(q[1..], a, k - 1);
    }
  }

  class Logger {
    const name: string
    const root: Logger?
    var level: int
    var appenders: seq<LogAppender>
    var formatter: Option<string>

    constructor (name: string, root: Logger?)
      ensures this.name == name && this.root == root && View() == NEW_LOGGER
      ensures level == 1 && formatter == Some(DEFAULT_PATTERN) && appenders == []
    {
      this.name, this.root := name, root;
      level, appenders, formatter := DEBUG, [], Some(DEFAULT_PATTERN);
    }

    ghost function AppenderViews(): (r: seq<AppenderView>)
      reads this, appenders
      ensures |r| == |appenders|
    {
      seq(|appenders|, i requires 0 <= i < |appenders| reads this, appenders => appenders[i].View())
    }

    ghost function View(): LoggerView
      reads this, appenders
    {
      LoggerView(level, formatter, AppenderViews())
    }

    /** A logger looks the same while neither it nor its appenders change. */
    twostate lemma SameView()
      requires unchanged(this) && forall a :: a in appenders ==> old(allocated(a)) && unchanged(a)
      ensures View() == old(View())
    {
      assert forall i :: 0 <= i < |appenders| ==> appenders[i] in appenders;
      assert AppenderViews() == old(AppenderViews());
    }

    method SetLevel(val: int)
      modifies this`level
      ensures level == val
    {
      level := val;
    }

    /** The appender receives the logger's formatter only when it has none at all. */
    method AddAppender(a: LogAppender)
      modifies this`appenders, a`formatter
      ensures appenders == old(appenders) + [a]
      ensures a.formatter == if old(a.formatter).None? then formatter else old(a.formatter)
    {
      var f := a.GetFormatter();
      if f.None? {
        a.formatter := formatter;
      }
      appenders := appenders + [a];
    }

    method DelAppender(a: LogAppender)
      modifies this`appenders
      ensures appenders == RemoveFirst(old(appenders), a)
    {
      var it := 0;
      while it < |appenders|
        invariant 0 <= it <= |appenders| && appenders == old(appenders)
        invariant a !in appenders[..it]
      {
        if appenders[it] == a {
          RemoveFirstAt(appenders, a, it);
          appenders := appenders[..it] + appenders[it + 1..];
          return;
        }
        it := it + 1;
      }
      RemoveFirstAt(appenders, a, it);
    }

    method ClearAppenders()
      modifies this`appenders
      ensures appenders == []
    {
      appenders := [];
    }

    /** Every appender without its own formatter gets the new one; the others keep theirs. */
    method SetFormatter(val: Option<string>)
      modifies this`formatter, appenders`formatter
      ensures formatter == val
      ensures forall a :: a in appenders ==> a.formatter == if a.hasFormatter then old(a.formatter) else val
    {
      formatter := val;
      var i := 0;
      while i < |appenders|
        invariant 0 <= i <= |appenders| && formatter == val
        invariant forall a :: a in appenders[..i] ==> a.formatter == if a.hasFormatter then old(a.formatter) else val
        invariant forall a :: a in appenders && a !in appenders[..i] ==> a.formatter == old(a.formatter)
      {
        var a := appenders[i];
        assert a in appenders && appenders[..i + 1] == appenders[..i] + [a];
        if !a.hasFormatter {
          a.formatter := val;
        }
        i := i + 1;
      }
      assert appenders[..i] == appenders;
    }

    /** An invalid pattern is reported and changes nothing. */
    method SetPattern(val: string)
      modifies this`formatter, appenders`formatter
      ensures formatter == if IsError(val) then old(formatter) else Some(val)
      ensures forall a :: a in appenders ==> a.formatter == if a.hasFormatter || IsError(val) then old(a.formatter) else Some(val)
    {
      var newVal := new LogFormatter(val);
      AcceptsGrammar(val);
      if newVal.error {
        return;
      }
      SetFormatter(Some(val));
    }

    method GetFormatter() returns (f: Option<string>)
      ensures f == formatter
    {
      f := formatter;
    }

    /** Each appender writes its line if its own level allows; without appenders the root logger
        takes over. */
    method Log(level: int) returns (r: LogResult)
      requires root != null ==> root.root == null
      ensures r == LogTo(View(), if root == null then None else Some(root.View()), level)
      decreases root != null
    {
      if level < this.level {
        return Written([]);
      }
      if appenders == [] {
        if root == null {
          return Crash;
        }
        r := root.Log(level);
        return;
      }
      var lines := [];
      var i := 0;
      while i < |appenders|
        invariant 0 <= i <= |appenders|
        invariant lines == Lines(AppenderViews()[..i], level)
      {
        LinesSnoc(AppenderViews(), i, level);
        var a := appenders[i];
        if level >= a.level {
          lines := lines + [Line(a.isFile, a.file, a.formatter)];
        }
        i := i + 1;
      }
      assert AppenderViews()[..i] == AppenderViews();
      r := Written(lines);
    }
  }
}
