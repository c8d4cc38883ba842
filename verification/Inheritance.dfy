/** Formatter inheritance: a logger pushes its formatter down to the appenders that have none of
    their own. Runs of the operations over any number of loggers and appenders. */
module Inheritance {
  import opened Wrappers
  import opened PatternGrammar
  import opened DefaultPattern
  import opened Loggers

  /** An appender object's formatter and the mark of having an own one. */
  datatype Output = Output(formatter: Option<string>, own: bool)

  /** A logger object's formatter and its appender objects. */
  datatype Holder = Holder(formatter: Option<string>, attached: seq<LogAppender>)

  /** The objects are the keys, so an appender may well be attached to several loggers. */
  datatype State = State(holders: map<Logger, Holder>, outputs: map<LogAppender, Output>)

  datatype Op =
    | Attach(l: Logger, a: LogAppender)
    | Detach(l: Logger, a: LogAppender)
    | Clear(l: Logger)
    | SetFormatter(l: Logger, f: Option<string>)
    | SetPattern(l: Logger, pattern: string)
    | SetOwn(a: LogAppender, f: Option<string>)

  ghost predicate Defined(s: State, op: Op) {
    match op
    case SetOwn(a, _) => a in s.outputs
    case Attach(l, a) => l in s.holders && a in s.outputs
    case _ => op.l in s.holders
  }

  /** Every attached appender is one of the objects under consideration. */
  ghost predicate Closed(s: State) {
    forall l, a :: l in s.holders && a in s.holders[l].attached ==> a in s.outputs
  }

  ghost function SetHolder(s: State, l: Logger, h: Holder): State {
    s.(holders := s.holders[l := h])
  }

  /** `Logger::setFormatter`. */
  ghost function Pushed(s: State, l: Logger, f: Option<string>): State
    requires l in s.holders
  {
    State(s.holders[l := s.holders[l].(formatter := f)],
          map a | a in s.outputs ::
            if a in s.holders[l].attached && !s.outputs[a].own then Output(f, false) else s.outputs[a])
  }

  ghost function Step(s: State, op: Op): State
    requires Defined(s, op)
  {
    match op
    case Attach(l, a) =>
      var h := s.holders[l];
      var o := if s.outputs[a].formatter.None? then s.outputs[a].(formatter := h.formatter) else s.outputs[a];
      SetHolder(s, l, h.(attached := h.attached + [a])).(outputs := s.outputs[a := o])
    case Detach(l, a) => SetHolder(s, l, s.holders[l].(attached := RemoveFirst(s.holders[l].attached, a)))
    case Clear(l) => SetHolder(s, l, s.holders[l].(attached := []))
    case SetFormatter(l, f) => Pushed(s, l, f)
    case SetPattern(l, p) => if IsError(p) then s else Pushed(s, l, Some(p))
    case SetOwn(a, f) => s.(outputs := s.outputs[a := Output(f, f.Some?)])
  }

  /** What the property asks of clients: attach an appender without a formatter or with its own, and
      never set a null formatter. */
  ghost predicate Keeps(s: State, op: Op)
    requires Defined(s, op)
  {
    match op
    case Attach(_, a) => s.outputs[a].formatter.None? || s.outputs[a].own
    case SetFormatter(_, f) => f.Some?
    case SetOwn(_, f) => f.Some?
    case _ => true
  }

  ghost predicate AttachedTo(s: State, l: Logger, a: LogAppender) {
    l in s.holders && a in s.holders[l].attached
  }

  ghost predicate Shares(s: State, l: Logger, k: Logger, a: LogAppender) {
    AttachedTo(s, l, a) && AttachedTo(s, k, a) && l != k
  }

  /** What appender `a` of logger `l` owes. */
  ghost predicate Follows(s: State, l: Logger, a: LogAppender) {
    AttachedTo(s, l, a) ==> a in s.outputs && (s.outputs[a].own || s.outputs[a].formatter == s.holders[l].formatter)
  }

  ghost predicate HasFormatters(s: State) {
    && (forall l :: l in s.holders ==> s.holders[l].formatter.Some?)
    && (forall a :: a in s.outputs && s.outputs[a].own ==> s.outputs[a].formatter.Some?)
  }

  /** Attached appenders have a formatter: the logger's, unless they have their own, and one without
      its own belongs to one logger only. */
  ghost predicate Inherits(s: State) {
    && Closed(s) && HasFormatters(s)
    && (forall l, a :: l in s.holders && a in s.outputs ==> Follows(s, l, a))
    && (forall l, k, a :: l in s.holders && k in s.holders && a in s.outputs && Shares(s, l, k, a) ==> s.outputs[a].own)
  }

  lemma {:induction false} RemovedWithin(q: seq<LogAppender>, a: LogAppender)
    ensures forall x :: x in RemoveFirst(q, a) ==> x in q
  {
    if q != [] { RemovedWithin(q[1..], a); }
  }

  lemma StepClosed(s: State, op: Op)
    requires Closed(s) && Defined(s, op)
    ensures Closed(Step(s, op))
  {
    if op.Detach? { RemovedWithin(s.holders[op.l].attached, op.a); }
  }

  lemma PushInherits(s: State, l: Logger, f: Option<string>)
    requires Inherits(s) && l in s.holders && f.Some?
    ensures Inherits(Pushed(s, l, f))
  {
    var t := Pushed(s, l, f);
    assert forall k, b :: AttachedTo(t, k, b) <==> AttachedTo(s, k, b);
    forall k, b | k in t.holders && b in t.outputs ensures Follows(t, k, b) {
      assert Follows(s, k, b);
      if k != l && AttachedTo(s, k, b) && AttachedTo(s, l, b) { assert Shares(s, k, l, b); }
    }
    forall k, j, b | k in t.holders && j in t.holders && b in t.outputs && Shares(t, k, j, b) ensures t.outputs[b].own {
      assert Shares(s, k, j, b);
    }
  }

  /** The appender has no formatter, or its own, or just the logger's without being shared. */
  ghost predicate MayAttach(s: State, l: Logger, a: LogAppender)
    requires l in s.holders && a in s.outputs
  {
    || s.outputs[a].formatter.None? || s.outputs[a].own
    || (s.outputs[a].formatter == s.holders[l].formatter && forall k :: k in s.holders && AttachedTo(s, k, a) ==> k == l)
  }

  lemma AttachInherits(s: State, l: Logger, a: LogAppender)
    requires Inherits(s) && l in s.holders && a in s.outputs && MayAttach(s, l, a)
    ensures Inherits(Step(s, Attach(l, a)))
  {
    var t := Step(s, Attach(l, a));
    assert forall k, b :: AttachedTo(t, k, b) <==> AttachedTo(s, k, b) || (k == l && b == a);
    forall k, b | k in t.holders && b in t.outputs ensures Follows(t, k, b) {
      assert Follows(s, k, b);
    }
    forall k, j, b | k in t.holders && j in t.holders && b in t.outputs && Shares(t, k, j, b) ensures t.outputs[b].own {
      if Shares(s, k, j, b) {
        assert s.outputs[b].own;
      } else {
        assert Follows(s, k, b) && Follows(s, j, b);
      }
    }
    StepClosed(s, Attach(l, a));
  }

  lemma StepInherits(s: State, op: Op)
    requires Inherits(s) && Defined(s, op) && Keeps(s, op)
    ensures Inherits(Step(s, op))
  {
    match op
    case Attach(l, a) => AttachInherits(s, l, a);
    case SetFormatter(l, f) => PushInherits(s, l, f);
    case SetPattern(l, p) => if !IsError(p) { PushInherits(s, l, Some(p)); }
    case SetOwn(a, f) => OwnInherits(s, a, f);
    case _ => FewerInherits(s, op);
  }

  lemma FewerInherits(s: State, op: Op)
    requires Inherits(s) && Defined(s, op) && (op.Detach? || op.Clear?)
    ensures Inherits(Step(s, op))
  {
    var t := Step(s, op);
    if op.Detach? { RemovedWithin(s.holders[op.l].attached, op.a); }
    assert forall k, b :: AttachedTo(t, k, b) ==> AttachedTo(s, k, b);
    forall k, b | k in t.holders && b in t.outputs ensures Follows(t, k, b) {
      assert Follows(s, k, b);
    }
    forall k, j, b | k in t.holders && j in t.holders && b in t.outputs && Shares(t, k, j, b) ensures t.outputs[b].own {
      assert Shares(s, k, j, b);
    }
    StepClosed(s, op);
  }

  lemma OwnInherits(s: State, a: LogAppender, f: Option<string>)
    requires Inherits(s) && a in s.outputs && (f.Some? || forall l :: l in s.holders ==> !AttachedTo(s, l, a))
    ensures Inherits(Step(s, SetOwn(a, f)))
  {
    var t := Step(s, SetOwn(a, f));
    assert forall k, b :: AttachedTo(t, k, b) <==> AttachedTo(s, k, b);
    forall k, b | k in t.holders && b in t.outputs ensures Follows(t, k, b) {
      assert Follows(s, k, b);
    }
    forall k, j, b | k in t.holders && j in t.holders && b in t.outputs && Shares(t, k, j, b) ensures t.outputs[b].own {
      assert Shares(s, k, j, b);
    }
  }

  // ---------------------------------------------------------------- runs

  ghost predicate ValidRun(s: State, ops: seq<Op>)
    decreases |ops|
  {
    ops == [] || (Defined(s, ops[0]) && Keeps(s, ops[0]) && ValidRun(Step(s, ops[0]), ops[1..]))
  }

  ghost function Run(s: State, ops: seq<Op>): State
    requires ValidRun(s, ops)
    decreases |ops|
  {
    if ops == [] then s else Run(Step(s, ops[0]), ops[1..])
  }

  /** New loggers have the default formatter and no appenders, new appenders have no formatter. */
  ghost predicate Fresh(s: State) {
    && (forall l :: l in s.holders ==> s.holders[l] == Holder(Some(DEFAULT_PATTERN), []))
    && (forall a :: a in s.outputs ==> s.outputs[a] == Output(None, false))
  }

  lemma {:induction false} RunInherits(s: State, ops: seq<Op>)
    requires Inherits(s) && ValidRun(s, ops)
    ensures Inherits(Run(s, ops))
    decreases |ops|
  {
    if ops != [] {
      StepInherits(s, ops[0]);
      RunInherits(Step(s, ops[0]), ops[1..]);
    }
  }

  /** In every such run from new objects, each attached appender has a formatter, and it is the
      logger's current one unless the appender has its own. */
  lemma InheritanceHolds(s: State, ops: seq<Op>, l: Logger, a: LogAppender)
    requires Fresh(s) && ValidRun(s, ops) && AttachedTo(Run(s, ops), l, a)
    ensures var t := Run(s, ops);
      && a in t.outputs && t.outputs[a].formatter.Some?
      && (!t.outputs[a].own ==> t.outputs[a].formatter == t.holders[l].formatter)
  {
    RunInherits(s, ops);
    assert Closed(Run(s, ops));
  }

  /** An appender with its own formatter keeps it until a client gives it another. */
  lemma {:induction false} OwnIsKept(s: State, ops: seq<Op>, a: LogAppender)
    requires ValidRun(s, ops) && a in s.outputs && s.outputs[a].own
    requires forall i :: 0 <= i < |ops| && ops[i].SetOwn? ==> ops[i].a != a
    requires s.outputs[a].formatter.Some?
    ensures a in Run(s, ops).outputs && Run(s, ops).outputs[a] == s.outputs[a]
    decreases |ops|
  {
    if ops != [] {
      assert forall i :: 0 <= i < |ops| - 1 ==> ops[1..][i] == ops[i + 1];
      assert ops[0].SetOwn? ==> ops[0].a != a;
      OwnIsKept(Step(s, ops[0]), ops[1..], a);
    }
  }

  // ---------------------------------------------------------------- exactly when

  /** Attaching keeps the property exactly for an appender without a formatter, with its own, or
      whose formatter happens to be the logger's while no other logger has it. */
  lemma AttachExactly(s: State, l: Logger, a: LogAppender)
    requires Inherits(s) && l in s.holders && a in s.outputs
    ensures Inherits(Step(s, Attach(l, a))) <==> MayAttach(s, l, a)
  {
    if MayAttach(s, l, a) {
      AttachInherits(s, l, a);
    } else {
      var t := Step(s, Attach(l, a));
      assert AttachedTo(t, l, a);
      if s.outputs[a].formatter != s.holders[l].formatter {
        assert !Follows(t, l, a);
      } else {
        var k :| k in s.holders && AttachedTo(s, k, a) && k != l;
        assert Shares(t, l, k, a);
      }
    }
  }

  /** Taking an appender's formatter away keeps the property exactly when it is attached nowhere. */
  lemma DisownExactly(s: State, a: LogAppender)
    requires Inherits(s) && a in s.outputs
    ensures Inherits(Step(s, SetOwn(a, None))) <==> forall l :: l in s.holders ==> !AttachedTo(s, l, a)
  {
    if l :| l in s.holders && AttachedTo(s, l, a) {
      assert AttachedTo(Step(s, SetOwn(a, None)), l, a) && !Follows(Step(s, SetOwn(a, None)), l, a);
    } else {
      OwnInherits(s, a, None);
    }
  }

  /** A null formatter leaves a logger able to write exactly when all its appenders have their own. */
  lemma NullFormatterExactly(s: State, l: Logger)
    requires Inherits(s) && l in s.holders
    ensures var t := Step(s, SetFormatter(l, None));
      (forall a :: AttachedTo(t, l, a) ==> a in t.outputs && t.outputs[a].formatter.Some?)
      <==> forall a :: AttachedTo(s, l, a) ==> s.outputs[a].own
  {
    var t := Step(s, SetFormatter(l, None));
    assert forall a :: AttachedTo(t, l, a) <==> AttachedTo(s, l, a);
  }

  // ---------------------------------------------------------------- the objects do the same

  class Objects {
    const loggers: set<Logger>
    const appenders: set<LogAppender>

    constructor (loggers: set<Logger>, appenders: set<LogAppender>)
      ensures this.loggers == loggers && this.appenders == appenders
    {
      this.loggers, this.appenders := loggers, appenders;
    }

    ghost function View(): State
      reads this, loggers, appenders
    {
      State(map l | l in loggers :: Holder(l.formatter, l.appenders),
            map a | a in appenders :: Output(a.formatter, a.hasFormatter))
    }

    method Perform(op: Op)
      requires Closed(View()) && Defined(View(), op)
      modifies loggers, appenders
      ensures View() == Step(old(View()), op)
    {
      match op
      case Attach(l, a) =>
        PerformAttach(l, a);
      case Detach(l, a) =>
        l.DelAppender(a);
        assert View() == Step(old(View()), op);
      case Clear(l) =>
        l.ClearAppenders();
        assert View() == Step(old(View()), op);
      case SetFormatter(l, f) =>
        Push(l, f);
      case SetPattern(l, p) =>
        PushPattern(l, p);
      case SetOwn(a, f) =>
        a.SetFormatter(f);
        assert View() == Step(old(View()), op);
    }

    method PerformAttach(l: Logger, a: LogAppender)
      requires l in loggers && a in appenders
      modifies loggers, appenders
      ensures View() == Step(old(View()), Attach(l, a))
    {
      l.AddAppender(a);
    }

    method Push(l: Logger, f: Option<string>)
      requires Closed(View()) && l in loggers
      modifies loggers, appenders
      ensures View() == Pushed(old(View()), l, f)
    {
      forall a | a in l.appenders ensures a in appenders {
        assert View().holders[l].attached == l.appenders && a in View().outputs;
      }
      l.SetFormatter(f);
    }

    method PushPattern(l: Logger, p: string)
      requires Closed(View()) && l in loggers
      modifies loggers, appenders
      ensures View() == if IsError(p) then old(View()) else Pushed(old(View()), l, Some(p))
    {
      forall a | a in l.appenders ensures a in appenders {
        assert View().holders[l].attached == l.appenders && a in View().outputs;
      }
      l.SetPattern(p);
    }

    method PerformAll(ops: seq<Op>)
      requires Closed(View()) && ValidRun(View(), ops)
      modifies loggers, appenders
      ensures View() == Run(old(View()), ops)
    {
      var i := 0;
      assert ops[0..] == ops;
      while i < |ops|
        invariant 0 <= i <= |ops| && Closed(View())
        invariant ValidRun(View(), ops[i..]) && Run(View(), ops[i..]) == Run(old(View()), ops)
      {
        assert ops[i..][1..] == ops[i + 1..];
        StepClosed(View(), ops[i]);
        Perform(ops[i]);
        i := i + 1;
      }
    }
  }
}
