/** The logger registry and the listener on the `logs` variable that patches it in place. */
module LoggerManagers {
  import opened Wrappers
  import opened PatternGrammar
  import opened LogFormatters
  import opened LoggerSpec
  import opened Loggers
  import opened LogDelivery
  import opened LogHistory
  import opened ConfigVars

  /** The root logger, printing to standard output. */
  method NewRoot() returns (root: Logger, out: LogAppender)
    ensures fresh(root) && fresh(out) && root.name == "root" && root.root == null && root.appenders == [out]
    ensures root.View() == INITIAL_REGISTRY["root"]
  {
    root := new Logger("root", null);
    out := new LogAppender(false, "");
    root.AddAppender(out);
    assert root.AppenderViews() == INITIAL_REGISTRY["root"].appenders;
  }

  class LoggerManager {
    var loggers: map<string, Logger>

    /** The objects of the registry. */
    ghost var Repr: set<object>

    /** The logger that an appender was built for. */
    ghost var owner: map<LogAppender, string>

    constructor ()
      ensures Valid() && fresh(Repr) && View() == INITIAL_REGISTRY
    {
      var root, out := NewRoot();
      loggers := map["root" := root];
      Repr, owner := {root, out}, map[out := "root"];
    }

    /** Every logger but the root logger points to the root logger. */
    ghost predicate Rooted()
      reads this
    {
      "root" in loggers && forall n :: n in loggers ==> loggers[n].root == if n == "root" then null else loggers["root"]
    }

    /** Loggers are registered under their own names and share no appender. */
    ghost predicate Valid()
      reads this, Repr
    {
      && this !in Repr && Rooted()
      && (forall n :: n in loggers ==> loggers[n] in Repr && loggers[n].name == n)
      && (forall n, a :: n in loggers && a in loggers[n].appenders ==> a in Repr && a in owner && owner[a] == n)
    }

    ghost function View(): (r: Registry)
      requires Valid()
      reads this, Repr
      ensures r.Keys == loggers.Keys
    {
      map n | n in loggers :: loggers[n].View()
    }

    /** The view changed at one name only. */
    lemma ViewIs(v: Registry, name: string)
      requires Valid() && name in loggers && loggers.Keys == v.Keys + {name}
      requires forall n :: n in loggers && n != name ==> loggers[n].View() == v[n]
      ensures View() == v[name := loggers[name].View()]
    {
      assert forall n :: n in loggers ==> View()[n] == loggers[n].View();
    }

    /** The registered logger, created on the first request. */
    method GetLogger(name: string) returns (l: Logger)
      requires Valid()
      modifies this
      ensures Valid() && Repr == old(Repr) + {l} && name in loggers && loggers[name] == l
      ensures name in old(loggers) ==> loggers == old(loggers)
      ensures name !in old(loggers) ==> fresh(l) && loggers == old(loggers)[name := l] && l.View() == NEW_LOGGER && l.appenders == []
    {
      if name in loggers {
        return loggers[name];
      }
      l := new Logger(name, loggers["root"]);
      loggers := loggers[name := l];
      Repr := Repr + {l};
    }

    /** A lookup, seen from the view. */
    method Registered(name: string) returns (l: Logger)
      requires Valid()
      modifies this
      ensures Valid() && fresh(Repr - old(Repr)) && name in loggers && loggers[name] == l
      ensures View() == old(View())[name := LoggerOf(old(View()), name)]
    {
      ghost var v := View();
      l := GetLogger(name);
      forall n | n in loggers && n != name ensures loggers[n].View() == v[n] {
        loggers[n].SameView();
      }
      if name in v { l.SameView(); }
      ViewIs(v, name);
    }

    /** One appender of a definition. */
    method MakeAppender(d: AppenderDef) returns (ap: LogAppender)
      ensures fresh(ap)
      ensures ap.isFile <==> d.kind == 1
      ensures ap.file == if d.kind == 1 then d.file else ""
      ensures ap.level == d.level
      ensures ap.hasFormatter <==> d.formatter != "" && InGrammar(d.formatter)
      ensures ap.formatter == if ap.hasFormatter then Some(d.formatter) else None
      ensures ap.View() == BuildAppender(d, None)
    {
      AcceptsGrammar(d.formatter);
      if d.kind == 1 {
        ap := new LogAppender(true, d.file);
      } else {
        ap := new LogAppender(false, "");
      }
      ap.SetLevel(d.level);
      if d.formatter != "" {
        var fmt := new LogFormatter(d.formatter);
        if !fmt.error {
          ap.SetFormatter(Some(d.formatter));
        }
      }
    }

    /** One appender of a definition is made and attached. */
    method AttachNew(l: Logger, d: AppenderDef)
      modifies l`appenders
      ensures |l.appenders| == |old(l.appenders)| + 1 && l.appenders[..|old(l.appenders)|] == old(l.appenders)
      ensures fresh(l.appenders[|old(l.appenders)|])
      ensures l.appenders[|old(l.appenders)|].View() == BuildAppender(d, l.formatter)
    {
      var ap := MakeAppender(d);
      l.AddAppender(ap);
    }

    /** The body of the listener's first loop, once the logger has been looked up. */
    method Configure(l: Logger, d: LoggerDef)
      modifies l, l.appenders
      ensures l.View() == Configured(old(l.View()), d)
      ensures forall a :: a in l.appenders ==> fresh(a)
    {
      l.SetLevel(d.level);
      if d.formatter != "" {
        l.SetPattern(d.formatter);
      }
      l.ClearAppenders();
      var i := 0;
      while i < |d.appenders|
        invariant 0 <= i <= |d.appenders| && |l.appenders| == i
        invariant l.level == d.level
        invariant l.formatter == if Effective(d.formatter) then Some(d.formatter) else old(l.formatter)
        invariant forall a :: a in l.appenders ==> fresh(a)
        invariant forall k :: 0 <= k < i ==> l.appenders[k].View() == BuildAppender(d.appenders[k], l.formatter)
      {
        ghost var was := l.appenders;
        AttachNew(l, d.appenders[i]);
        assert forall k :: 0 <= k < i ==> l.appenders[k] == was[k] && was[k] in was;
        i := i + 1;
      }
      assert l.AppenderViews() == BuildAppenders(d.appenders, l.formatter);
    }

    /** Changing one logger and the appenders it had leaves the others as they were. */
    twostate lemma OthersSame(name: string)
      requires old(Valid()) && loggers == old(loggers) && name in loggers
      requires forall o :: o in old(Repr) && o != loggers[name] && o !in old(loggers[name].appenders) ==> old(allocated(o)) && unchanged(o)
      ensures forall n :: n in loggers && n != name ==>
        loggers[n].appenders == old(loggers[n].appenders) && loggers[n].View() == old(loggers[n].View())
    {
      forall n | n in loggers && n != name
        ensures loggers[n].appenders == old(loggers[n].appenders) && loggers[n].View() == old(loggers[n].View())
      {
        assert loggers[n] in old(Repr) && unchanged(loggers[n]);
        assert loggers[n].appenders == old(loggers[n].appenders);
        assert forall a :: a in old(loggers[n].appenders) ==> old(owner)[a] == n;
        assert forall a :: a in loggers[n].appenders ==> a in old(Repr) && a !in old(loggers[name].appenders);
        loggers[n].SameView();
      }
    }

    twostate lemma StillValid(name: string)
      requires old(Valid()) && loggers == old(loggers) && name in loggers
      requires forall n :: n in loggers && n != name ==> loggers[n].appenders == old(loggers[n].appenders)
      requires forall a :: a in loggers[name].appenders ==> !old(allocated(a))
      requires Repr == old(Repr) + set a | a in loggers[name].appenders
      requires owner == old(owner) + map a | a in loggers[name].appenders :: name
      ensures Valid()
    {
      assert forall n, a :: n in loggers && n != name && a in loggers[n].appenders ==> a in old(Repr);
      assert forall n :: n in loggers ==> loggers[n] in old(Repr);
    }

    /** Configuring a registered logger leaves the others as they were. */
    method ConfigureAlone(name: string, d: LoggerDef)
      requires Valid() && name in loggers
      modifies Repr
      ensures loggers[name].View() == Configured(old(loggers[name].View()), d)
      ensures forall a :: a in loggers[name].appenders ==> fresh(a)
      ensures forall n :: n in loggers && n != name ==>
        loggers[n].appenders == old(loggers[n].appenders) && loggers[n].View() == old(loggers[n].View())
    {
      Configure(loggers[name], d);
      OthersSame(name);
    }

    /** The same, with the new appenders in the registry. */
    method ConfigureOwned(name: string, d: LoggerDef)
      requires Valid() && name in loggers
      modifies Repr, this`Repr, this`owner
      ensures Valid() && fresh(Repr - old(Repr)) && loggers == old(loggers)
      ensures loggers[name].View() == Configured(old(loggers[name].View()), d)
      ensures forall n :: n in loggers && n != name ==> loggers[n].View() == old(loggers[n].View())
    {
      ConfigureAlone(name, d);
      Repr := Repr + set a | a in loggers[name].appenders;
      owner := owner + map a | a in loggers[name].appenders :: name;
      StillValid(name);
    }

    /** Configuring a registered logger changes the view at its name only. */
    method ConfigureRegistered(name: string, d: LoggerDef)
      requires Valid() && name in loggers
      modifies Repr, this`Repr, this`owner
      ensures Valid() && fresh(Repr - old(Repr)) && loggers == old(loggers)
      ensures View() == old(View())[name := Configured(old(View())[name], d)]
    {
      ghost var v := View();
      assert forall n :: n in loggers ==> v[n] == loggers[n].View();
      ConfigureOwned(name, d);
      ViewIs(v, name);
    }

    /** The listener's first loop body for a new or changed definition. */
    method Reconfigure(name: string, d: LoggerDef)
      requires Valid()
      modifies this, Repr
      ensures Valid() && fresh(Repr - old(Repr))
      ensures View() == old(View())[name := Configured(LoggerOf(old(View()), name), d)]
    {
      ghost var v := View();
      var _ := Registered(name);
      ConfigureRegistered(name, d);
      UpdateTwice(v, name, LoggerOf(v, name), Configured(LoggerOf(v, name), d));
    }

    /** What the listener does to a logger whose definition is gone. */
    method Drop(l: Logger)
      modifies l
      ensures l.View() == Dropped(old(l.View())) && l.appenders == []
    {
      l.SetLevel(0);
      l.ClearAppenders();
    }

    /** Dropping a registered logger changes the view at its name only. */
    method DropRegistered(name: string)
      requires Valid() && name in loggers
      modifies loggers[name]
      ensures Valid()
      ensures View() == old(View())[name := Dropped(old(View())[name])]
    {
      ghost var v := View();
      assert v[name] == loggers[name].View();
      Drop(loggers[name]);
      OthersSame(name);
      ViewIs(v, name);
    }

    /** The listener's second loop body: a definition that is gone. */
    method DropLogger(name: string)
      requires Valid()
      modifies this, Repr
      ensures Valid() && fresh(Repr - old(Repr))
      ensures View() == old(View())[name := Dropped(LoggerOf(old(View()), name))]
    {
      ghost var v := View();
      var _ := Registered(name);
      DropRegistered(name);
      UpdateTwice(v, name, LoggerOf(v, name), Dropped(LoggerOf(v, name)));
    }

    /** One round of the listener's first loop. */
    method ConfigureNext(n: string, before: LogConfig, after: LogConfig, ghost v: Registry, ghost todo: set<string>)
      requires Valid() && n in todo && n in after && View() == Midway(v, before, after, todo, before.Keys)
      modifies this, Repr
      ensures Valid() && fresh(Repr - old(Repr)) && View() == Midway(v, before, after, todo - {n}, before.Keys)
    {
      MidwayConfigure(v, before, after, todo, before.Keys, n);
      if n in before && before[n] == after[n] {
        return;
      }
      Reconfigure(n, after[n]);
    }

    /** The listener's first loop. */
    method ConfigureAll(before: LogConfig, after: LogConfig, ghost v: Registry)
      requires Valid() && v == View()
      modifies this, Repr
      ensures Valid() && fresh(Repr - old(Repr)) && View() == Midway(v, before, after, {}, before.Keys)
    {
      var todo := after.Keys;
      MidwayStart(v, before, after);
      while todo != {}
        invariant todo <= after.Keys
        invariant Valid() && View() == Midway(v, before, after, todo, before.Keys)
        invariant forall o :: o in Repr ==> o in old(Repr) || fresh(o)
        decreases |todo|
      {
        var n :| n in todo;
        ConfigureNext(n, before, after, v, todo);
        todo := todo - {n};
      }
    }

    /** One round of the listener's second loop. */
    method DropNext(n: string, before: LogConfig, after: LogConfig, ghost v: Registry, ghost gone: set<string>)
      requires Valid() && n in gone && n in before && View() == Midway(v, before, after, {}, gone)
      modifies this, Repr
      ensures Valid() && fresh(Repr - old(Repr)) && View() == Midway(v, before, after, {}, gone - {n})
    {
      MidwayDrop(v, before, after, {}, gone, n);
      if n !in after {
        DropLogger(n);
      }
    }

    /** The listener's second loop. */
    method DropAll(before: LogConfig, after: LogConfig, ghost v: Registry)
      requires Valid() && View() == Midway(v, before, after, {}, before.Keys)
      modifies this, Repr
      ensures Valid() && fresh(Repr - old(Repr)) && View() == Midway(v, before, after, {}, {})
    {
      var gone := before.Keys;
      while gone != {}
        invariant gone <= before.Keys
        invariant Valid() && View() == Midway(v, before, after, {}, gone)
        invariant forall o :: o in Repr ==> o in old(Repr) || fresh(o)
        decreases |gone|
      {
        var n :| n in gone;
        DropNext(n, before, after, v, gone);
        gone := gone - {n};
      }
    }

    /** The listener's two loops, on a registry that views as `v`: new and changed definitions are
        configured, gone ones dropped, in whatever order the names come. */
    method Patch(before: LogConfig, after: LogConfig, ghost v: Registry)
      requires Valid() && v == View()
      modifies this, Repr
      ensures Valid() && fresh(Repr - old(Repr))
      ensures View() == Patched(v, before, after)
    {
      ConfigureAll(before, after, v);
      DropAll(before, after, v);
      MidwayEnd(v, before, after);
    }

    /** The listener: it announces the change to the root logger, and if that does not follow the null
        root pointer, patches the registry. */
    method OnChange(before: LogConfig, after: LogConfig) returns (notice: LogResult)
      requires Valid()
      modifies this, Repr
      ensures Valid() && fresh(Repr - old(Repr)) && "root" in old(View())
      ensures notice == Notice(old(View()))
      ensures View() == if notice.Crash? then old(View()) else Patched(old(View()), before, after)
    {
      ghost var v := View();
      notice := SayChanged();
      if notice.Written? {
        Patch(before, after, v);
      }
    }

    /** The message that announces a change. */
    method SayChanged() returns (notice: LogResult)
      requires Valid()
      ensures "root" in View() && notice == Notice(View())
    {
      notice := Log("root", INFO);
    }

    /** A message to a registered logger. */
    method Log(name: string, level: int) returns (r: LogResult)
      requires Valid() && name in loggers
      ensures "root" in View() && r == Logged(View(), name, level)
    {
      assert loggers["root"].root == null;
      r := loggers[name].Log(level);
    }
  }

  lemma UpdateTwice(v: Registry, name: string, a: LoggerView, b: LoggerView)
    ensures v[name := a][name := b] == v[name := b] && v[name := a][name] == a
  {}

  /** The `logs` variable with the listener that is registered on it at start-up. */
  class LogVariable {
    const variable: ConfigVar<LogConfig>
    const id: nat
    const mgr: LoggerManager

    constructor (mgr: LoggerManager, ids: IdSource)
      modifies ids
      ensures fresh(variable) && variable.val == map[] && id in variable.cbs && this.mgr == mgr
    {
      var v := new ConfigVar(map[]);
      var n := v.AddListener(ids);
      variable, id, this.mgr := v, n, mgr;
    }

    /** The variable is none of the registry's objects. */
    ghost predicate Valid()
      reads this, variable, mgr, mgr.Repr
    {
      mgr.Valid() && id in variable.cbs && variable !in mgr.Repr
    }

    /** `setValue`, with the built-in listener at work while it is notified. When the listener crashes,
        nothing is patched and nothing is stored; `ok` says that it did not. */
    method SetValue(v: LogConfig) returns (ok: bool)
      requires Valid()
      modifies variable`val, variable`calls, mgr, mgr.Repr
      ensures Valid() && fresh(mgr.Repr - old(mgr.Repr)) && "root" in old(mgr.View())
      ensures v == old(variable.val) ==> ok && mgr.View() == old(mgr.View())
      ensures v != old(variable.val) ==>
        Changed(old(mgr.View()), old(variable.val), v) == if ok then Standing(mgr.View()) else Crashed
      ensures ok ==> variable.State() == Assign(old(variable.State()), v)
      ensures !ok ==> variable.val == old(variable.val) && mgr.View() == old(mgr.View())
    {
      ghost var repr := mgr.Repr;
      var changed := Announce(v);
      ok := true;
      if changed {
        ok := Rebuild(v);
        ghost var rebuilt := mgr.Repr;
        assert fresh(rebuilt - repr);
        if ok {
          Store(v);
          assert mgr.Repr == rebuilt;
        }
      }
    }

    /** The notification as the variable records it, which touches no logger. */
    method Announce(v: LogConfig) returns (changed: bool)
      requires Valid()
      modifies variable`calls
      ensures Valid() && mgr.Repr == old(mgr.Repr) && mgr.View() == old(mgr.View())
      ensures variable.val == old(variable.val) && (changed <==> v != variable.val)
      ensures if changed then variable.State().(val := v) == Assign(old(variable.State()), v)
        else variable.State() == old(variable.State())
    {
      changed := variable.NotifyAll(v);
    }

    /** The built-in listener, which touches only the registry. */
    method Rebuild(v: LogConfig) returns (ok: bool)
      requires Valid()
      modifies mgr, mgr.Repr
      ensures Valid() && fresh(mgr.Repr - old(mgr.Repr)) && variable.State() == old(variable.State())
      ensures "root" in old(mgr.View())
      ensures Changed(old(mgr.View()), variable.val, v) == if ok then Standing(mgr.View()) else Crashed
      ensures !ok ==> mgr.View() == old(mgr.View())
    {
      var notice := mgr.OnChange(variable.val, v);
      ok := notice.Written?;
    }

    /** The assignment, which touches no logger. */
    method Store(v: LogConfig)
      requires Valid()
      modifies variable`val
      ensures Valid() && variable.State() == old(variable.State()).(val := v)
      ensures mgr.Repr == old(mgr.Repr) && mgr.View() == old(mgr.View())
    {
      variable.Store(v);
    }

    /** One assignment of a history that began with view `v` and value `start`. */
    method SetNext(values: seq<LogConfig>, i: nat, ghost v: Registry, ghost start: LogConfig) returns (ok: bool)
      requires Valid() && i < |values| && "root" in v
      requires variable.val == Current(start, values[..i]) && After(v, start, values[..i]) == Standing(mgr.View())
      modifies variable`val, variable`calls, mgr, mgr.Repr
      ensures Valid() && fresh(mgr.Repr - old(mgr.Repr))
      ensures After(v, start, values[..i + 1]) == if ok then Standing(mgr.View()) else Crashed
      ensures ok ==> variable.val == Current(start, values[..i + 1])
    {
      AfterSnoc(v, start, values, i);
      ok := SetValue(values[i]);
    }

    /** A history of configurations, applied to the objects one by one until the program crashes or
        the end is reached. */
    method SetAll(values: seq<LogConfig>) returns (ok: bool)
      requires Valid()
      modifies variable`val, variable`calls, mgr, mgr.Repr
      ensures Valid() && fresh(mgr.Repr - old(mgr.Repr)) && "root" in old(mgr.View())
      ensures After(old(mgr.View()), old(variable.val), values) == if ok then Standing(mgr.View()) else Crashed
      ensures ok ==> variable.val == Current(old(variable.val), values)
    {
      ghost var v, start := mgr.View(), variable.val;
      var i := 0;
      ok := true;
      assert "root" in v;
      while i < |values|
        invariant 0 <= i <= |values| && "root" in v && ok
        invariant Valid() && fresh(mgr.Repr - old(mgr.Repr))
        invariant variable.val == Current(start, values[..i]) && After(v, start, values[..i]) == Standing(mgr.View())
      {
        ok := SetNext(values, i, v, start);
        if !ok {
          CrashStays(v, start, values, i + 1);
          return;
        }
        i := i + 1;
      }
      assert values[..i] == values;
    }
  }

  lemma AfterSnoc(v: Registry, start: LogConfig, values: seq<LogConfig>, i: nat)
    requires i < |values| && "root" in v && After(v, start, values[..i]).Standing?
    ensures var was := Current(start, values[..i]); var r := After(v, start, values[..i]).registry;
      After(v, start, values[..i + 1]) == (if values[i] == was then Standing(r) else Changed(r, was, values[i]))
    ensures Current(start, values[..i + 1]) == values[i]
  {
    assert values[..i + 1][..i] == values[..i];
  }

  /** Nothing follows a crash. */
  lemma {:induction false} CrashStays(v: Registry, start: LogConfig, values: seq<LogConfig>, i: nat)
    requires i <= |values| && "root" in v && After(v, start, values[..i]) == Crashed
    ensures After(v, start, values) == Crashed
    decreases |values|
  {
    if i == |values| {
      assert values[..i] == values;
    } else {
      var n := |values| - 1;
      assert values[..n][..i] == values[..i];
      CrashStays(v, start, values[..n], i);
    }
  }
}
