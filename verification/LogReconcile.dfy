/**
 The configuration of loggers from the variable `logs` (src/_log/log.cpp:553-573 and 668-735): setting it runs one
 listener, which patches the live loggers from the difference between the old and the new definitions.
 */
module LogReconcile {
  import opened Options
  import opened LogDefines
  import opened LogFormatters
  import opened LogLevels
  import opened Loggers
  import opened PatternGrammar

  /** A set of definitions, ordered by name: at most one definition for a name. */
  type Defs = m: map<string, LogDefine> | forall n <- m :: m[n].name == n

  /** `operator==` of definitions: it compares the appenders of the left side with themselves. */
  predicate SameDefine(a: LogDefine, b: LogDefine) {
    a.name == b.name && a.level == b.level && a.formatter == b.formatter
  }

  /** `operator==` of the sets. */
  predicate SameDefs(a: Defs, b: Defs) {
    a.Keys == b.Keys && forall n <- a :: SameDefine(a[n], b[n])
  }

  // ---- What a definition builds ---------------------------------------------------------------------------

  /** A formatter with an error leaves the default one in place. */
  function PatternOf(a: AppenderDefine): string {
    if a.formatter != "" && !HasError(a.formatter) then a.formatter else DEFAULT_PATTERN
  }

  function BuildOne(a: AppenderDefine): Option<Appender> {
    if a.kind == 1 then Some(Appender(File(a.file), a.level, PatternOf(a)))
    else if a.kind == 2 then Some(Appender(Stdout, a.level, PatternOf(a)))
    else None
  }

  function Build(appenders: seq<AppenderDefine>): seq<Appender> {
    if appenders == [] then []
    else
      var last := |appenders| - 1;
      var before := Build(appenders[..last]);
      match BuildOne(appenders[last])
      case None => before
      case Some(a) => before + [a]
  }

  datatype LoggerState = LoggerState(level: LogLevel, appenders: seq<Appender>)

  function Built(d: LogDefine): LoggerState { LoggerState(d.level, Build(d.appenders)) }

  const DROPPED := LoggerState(UNKNOW, [])

  /** The definitions of a known type, in order. */
  function KnownOnes(appenders: seq<AppenderDefine>): seq<AppenderDefine> {
    if appenders == [] then []
    else
      var a := appenders[|appenders| - 1];
      KnownOnes(appenders[..|appenders| - 1]) + if a.kind == 1 || a.kind == 2 then [a] else []
  }

  /** The appender writes where and from which level on the definition says, in its format unless that has an error. */
  predicate BuiltFrom(built: Appender, a: AppenderDefine) {
    && built.level == a.level
    && (a.kind == 1 ==> built.target == File(a.file))
    && (a.kind == 2 ==> built.target == Stdout)
    && (a.formatter != "" && !HasError(a.formatter) ==> built.pattern == a.formatter)
    && (a.formatter == "" || HasError(a.formatter) ==> built.pattern == DEFAULT_PATTERN)
  }

  /** Each definition of a known type gives one appender, in order, and no other one gives any. */
  lemma {:induction false} BuildsEach(appenders: seq<AppenderDefine>)
    ensures |Build(appenders)| == |KnownOnes(appenders)|
    ensures forall k :: 0 <= k < |Build(appenders)| ==> BuiltFrom(Build(appenders)[k], KnownOnes(appenders)[k])
  {
    if appenders != [] {
      BuildsEach(appenders[..|appenders| - 1]);
    }
  }

  // ---- The patch of one change ----------------------------------------------------------------------------

  /** The name is new, or its level or formatter differs. */
  predicate Changed(o: Defs, n: Defs, name: string) {
    name in n && (name in o ==> !SameDefine(n[name], o[name]))
  }

  /** What one change of the definitions does to the logger of a name; `None` is a logger that does not exist. */
  function PatchOne(o: Defs, n: Defs, name: string, s: Option<LoggerState>): Option<LoggerState> {
    if Changed(o, n, name) then Some(Built(n[name]))
    else if name in o && name !in n then Some(DROPPED)
    else s
  }

  // ---- What a sequence of changes does --------------------------------------------------------------------

  /** `setValue` on the definitions alone: a value that compares equal is not stored. */
  function Stored(current: Defs, v: Defs): Defs { if SameDefs(current, v) then current else v }

  /** The definitions after the values `vs` have been set in order. */
  function RunVal(vs: seq<Defs>): Defs {
    if vs == [] then map[] else Stored(RunVal(vs[..|vs| - 1]), vs[|vs| - 1])
  }

  /** The state of the logger `name` after the values have been set, starting from the state `s`. */
  function RunState(vs: seq<Defs>, name: string, s: Option<LoggerState>): Option<LoggerState> {
    if vs == [] then s
    else
      var front := vs[..|vs| - 1];
      PatchOne(RunVal(front), RunVal(vs), name, RunState(front, name, s))
  }

  function Last(vs: seq<Defs>): Defs { if vs == [] then map[] else vs[|vs| - 1] }

  /** Presence, level and formatter of a name. */
  function Key(d: Defs, name: string): Option<(LogLevel, string)> {
    if name in d then Some((d[name].level, d[name].formatter)) else None
  }

  /** The last value that changed the presence, the level or the formatter of a name. */
  function LastChange(vs: seq<Defs>, name: string): (k: Option<nat>)
    ensures k.Some? ==> k.value < |vs|
  {
    if vs == [] then None
    else
      var front := vs[..|vs| - 1];
      if Key(Last(vs), name) != Key(Last(front), name) then Some(|vs| - 1) else LastChange(front, name)
  }

  lemma KeyOfRun(vs: seq<Defs>, name: string)
    ensures Key(RunVal(vs), name) == Key(Last(vs), name)
  {
    if vs != [] && SameDefs(RunVal(vs[..|vs| - 1]), Last(vs)) {
      assert name in Last(vs) ==> SameDefine(RunVal(vs[..|vs| - 1])[name], Last(vs)[name]);
    }
  }

  /** One more value: it patches the logger exactly if it changes the key of the name. */
  lemma OneMoreValue(vs: seq<Defs>, name: string, s: Option<LoggerState>)
    requires vs != []
    ensures RunState(vs, name, s)
         == if Key(Last(vs), name) == Key(Last(vs[..|vs| - 1]), name) then RunState(vs[..|vs| - 1], name, s)
            else if name in Last(vs) then Some(Built(Last(vs)[name]))
            else Some(DROPPED)
  {
    KeyOfRun(vs, name);
    KeyOfRun(vs[..|vs| - 1], name);
  }

  /** What the sequence leaves of the logger `name`. */
  function Outcome(vs: seq<Defs>, name: string, s: Option<LoggerState>): Option<LoggerState> {
    match LastChange(vs, name)
    case None => s
    case Some(k) => if name in vs[k] then Some(Built(vs[k][name])) else Some(DROPPED)
  }

  /**
   After any sequence of values the logger of a name is what the value at the last change of the name's
   presence, level or formatter says; a name that was never configured is untouched.
   */
  lemma {:induction false} RunOutcome(vs: seq<Defs>, name: string, s: Option<LoggerState>)
    ensures RunState(vs, name, s) == Outcome(vs, name, s)
  {
    if vs != [] {
      RunOutcome(vs[..|vs| - 1], name, s);
      OneMoreValue(vs, name, s);
    }
  }

  /** At the last change the name has the presence, level and formatter of the current value. */
  lemma {:induction false} LastChangeIsCurrent(vs: seq<Defs>, name: string)
    ensures match LastChange(vs, name)
      case None => forall k :: 0 <= k < |vs| ==> name !in vs[k]
      case Some(k) => Key(vs[k], name) == Key(Last(vs), name)
  {
    if vs != [] {
      var front := vs[..|vs| - 1];
      LastChangeIsCurrent(front, name);
      if LastChange(vs, name) == None {
        assert name !in Last(front);
        assert forall k :: 0 <= k < |front| ==> front[k] == vs[k];
      }
    }
  }

  /**
   The patched logger is the one rebuilt from the current definition exactly if that definition builds the same
   appenders as the definition at the last change of presence, level or formatter.
   */
  lemma AgreesWithRebuildIff(vs: seq<Defs>, name: string, s: Option<LoggerState>)
    requires name in Last(vs)
    ensures LastChange(vs, name).Some? && name in vs[LastChange(vs, name).value]
    ensures RunState(vs, name, s) == Some(Built(Last(vs)[name]))
      <==> Build(vs[LastChange(vs, name).value][name].appenders) == Build(Last(vs)[name].appenders)
  {
    LastChangeIsCurrent(vs, name);
    RunOutcome(vs, name, s);
  }

  /** One logger `app` of level INFO with one file appender. */
  function OneFile(path: string): Defs {
    map["app" := LogDefine("app", INFO, "", [AppenderDefine(1, INFO, "", path)])]
  }

  lemma OneFileBuilt(path: string)
    ensures Built(OneFile(path)["app"]) == LoggerState(INFO, [Appender(File(path), INFO, DEFAULT_PATTERN)])
  {
    BuildSingle(AppenderDefine(1, INFO, "", path));
  }

  /** A change of nothing but an appender's file is not carried out: the logger keeps the old file. */
  lemma AppenderChangeIgnored(a: string, b: string)
    ensures RunState([OneFile(a), OneFile(b)], "app", None)
         == Some(LoggerState(INFO, [Appender(File(a), INFO, DEFAULT_PATTERN)]))
    ensures Built(OneFile(b)["app"]) == LoggerState(INFO, [Appender(File(b), INFO, DEFAULT_PATTERN)])
  {
    OneFileBuilt(a);
    OneFileBuilt(b);
    assert [OneFile(a), OneFile(b)][..1] == [OneFile(a)] && [OneFile(a)][..0] == [];
    OneMoreValue([OneFile(a)], "app", None);
    OneMoreValue([OneFile(a), OneFile(b)], "app", None);
  }

  lemma BuildSingle(a: AppenderDefine)
    requires BuildOne(a).Some?
    ensures Build([a]) == [BuildOne(a).value]
  {
    assert [a][..0] == [];
  }

  // ---- The listener ---------------------------------------------------------------------------------------

  /** The formatter object decides whether a pattern is used. */
  method MakeAppender(a: AppenderDefine) returns (r: Option<Appender>)
    ensures r == BuildOne(a)
  {
    var target := Stdout;
    if a.kind == 1 {
      target := File(a.file);
    } else if a.kind == 2 {
      target := Stdout;
    } else {
      return None;
    }
    var pattern := DEFAULT_PATTERN;
    if a.formatter != "" {
      var fmt := new LogFormatter(a.formatter);
      if !fmt.IsError() {
        pattern := a.formatter;
      }
    }
    r := Some(Appender(target, a.level, pattern));
  }

  method Rebuild(logger: Logger, d: LogDefine)
    modifies logger`level, logger`appenders
    ensures LoggerState(logger.level, logger.appenders) == Built(d)
  {
    logger.SetLevel(d.level);
    logger.ClearAppenders();
    for k := 0 to |d.appenders|
      invariant logger.level == d.level && logger.appenders == Build(d.appenders[..k])
    {
      assert d.appenders[..k + 1][..k] == d.appenders[..k];
      var ap := MakeAppender(d.appenders[k]);
      if ap == None {
        continue;
      }
      logger.AddAppender(ap.value);
    }
    assert d.appenders[..|d.appenders|] == d.appenders;
  }

  /** The states of all loggers that exist. */
  ghost function View(manager: LoggerManager): map<string, LoggerState>
    reads manager, manager.loggers.Values
  {
    map n | n in manager.loggers :: LoggerState(manager.loggers[n].level, manager.loggers[n].appenders)
  }

  function At(view: map<string, LoggerState>, name: string): Option<LoggerState> {
    if name in view then Some(view[name]) else None
  }

  /** The first loop's work for one name. */
  method Configure(manager: LoggerManager, d: LogDefine)
    requires manager.Valid()
    modifies manager, manager.loggers.Values
    ensures manager.Valid() && View(manager) == old(View(manager))[d.name := Built(d)]
    ensures fresh(manager.loggers.Values - old(manager.loggers.Values))
  {
    var logger := manager.GetLogger(d.name);
    Rebuild(logger, d);
  }

  /** The second loop's work for one name. */
  method Drop(manager: LoggerManager, name: string)
    requires manager.Valid()
    modifies manager, manager.loggers.Values
    ensures manager.Valid() && View(manager) == old(View(manager))[name := DROPPED]
    ensures fresh(manager.loggers.Values - old(manager.loggers.Values))
  {
    var logger := manager.GetLogger(name);
    logger.SetLevel(UNKNOW);
    logger.ClearAppenders();
  }

  /** The state of a name while names of the first loop are still to do. */
  function AfterFirst(o: Defs, n: Defs, todo: set<string>, name: string, s: Option<LoggerState>): Option<LoggerState> {
    if Changed(o, n, name) && name !in todo then Some(Built(n[name])) else s
  }

  /** The state of a name while names of the second loop are still to do. */
  function AfterSecond(o: Defs, n: Defs, todo: set<string>, name: string, s: Option<LoggerState>): Option<LoggerState> {
    if name in todo && name !in n then s else PatchOne(o, n, name, s)
  }

  ghost predicate FirstDone(o: Defs, n: Defs, todo: set<string>, start: map<string, LoggerState>,
                            view: map<string, LoggerState>)
  {
    forall name :: At(view, name) == AfterFirst(o, n, todo, name, At(start, name))
  }

  ghost predicate SecondDone(o: Defs, n: Defs, todo: set<string>, start: map<string, LoggerState>,
                             view: map<string, LoggerState>)
  {
    forall name :: At(view, name) == AfterSecond(o, n, todo, name, At(start, name))
  }

  lemma FirstStep(o: Defs, n: Defs, todo: set<string>, start: map<string, LoggerState>,
                  view: map<string, LoggerState>, name: string)
    requires FirstDone(o, n, todo, start, view) && name in todo && name in n
    ensures FirstDone(o, n, todo - {name}, start, if Changed(o, n, name) then view[name := Built(n[name])] else view)
  {
  }

  lemma SecondStep(o: Defs, n: Defs, todo: set<string>, start: map<string, LoggerState>,
                   view: map<string, LoggerState>, name: string)
    requires SecondDone(o, n, todo, start, view) && name in todo && name in o
    ensures SecondDone(o, n, todo - {name}, start, if name !in n then view[name := DROPPED] else view)
  {
  }

  /** The first loop: configures the new and the changed names. */
  method ConfigureAll(manager: LoggerManager, o: Defs, n: Defs)
    requires manager.Valid()
    modifies manager, manager.loggers.Values
    ensures manager.Valid() && FirstDone(o, n, {}, old(View(manager)), View(manager))
    ensures fresh(manager.loggers.Values - old(manager.loggers.Values))
  {
    var todo := n.Keys;
    while todo != {}
      invariant todo <= n.Keys && manager.Valid()
      invariant fresh(manager.loggers.Values - old(manager.loggers.Values))
      invariant FirstDone(o, n, todo, old(View(manager)), View(manager))
      decreases |todo|
    {
      var name :| name in todo;
      FirstStep(o, n, todo, old(View(manager)), View(manager), name);
      todo := todo - {name};
      if name in o {
        if SameDefine(n[name], o[name]) {
          continue;
        }
      }
      Configure(manager, n[name]);
    }
  }

  /** The second loop: empties the dropped names. */
  method DropAll(manager: LoggerManager, o: Defs, n: Defs, ghost start: map<string, LoggerState>)
    requires manager.Valid() && FirstDone(o, n, {}, start, View(manager))
    modifies manager, manager.loggers.Values
    ensures manager.Valid() && SecondDone(o, n, {}, start, View(manager))
    ensures fresh(manager.loggers.Values - old(manager.loggers.Values))
  {
    var todo := o.Keys;
    while todo != {}
      invariant todo <= o.Keys && manager.Valid()
      invariant fresh(manager.loggers.Values - old(manager.loggers.Values))
      invariant SecondDone(o, n, todo, start, View(manager))
      decreases |todo|
    {
      var name :| name in todo;
      SecondStep(o, n, todo, start, View(manager), name);
      todo := todo - {name};
      if name !in n {
        Drop(manager, name);
      }
    }
  }

  predicate PatchedAt(o: Defs, n: Defs, before: map<string, LoggerState>, after: map<string, LoggerState>, name: string)
  {
    At(after, name) == PatchOne(o, n, name, At(before, name))
  }

  /** `after` is `before` with every logger patched. */
  ghost predicate Patched(o: Defs, n: Defs, before: map<string, LoggerState>, after: map<string, LoggerState>) {
    forall name :: PatchedAt(o, n, before, after, name)
  }

  /** The listener. */
  method OnConfChanged(manager: LoggerManager, o: Defs, n: Defs)
    requires manager.Valid()
    modifies manager, manager.loggers.Values
    ensures manager.Valid() && Patched(o, n, old(View(manager)), View(manager))
    ensures fresh(manager.loggers.Values - old(manager.loggers.Values))
  {
    ghost var start := View(manager);
    ConfigureAll(manager, o, n);
    DropAll(manager, o, n, start);
  }

  predicate TrackedAt(history: seq<Defs>, start: map<string, LoggerState>, view: map<string, LoggerState>, name: string)
  {
    name in start || LastChange(history, name).Some? ==> At(view, name) == Outcome(history, name, At(start, name))
  }

  /** The loggers in `view` that were in `start` or were ever configured are as the history says. */
  ghost predicate Tracked(history: seq<Defs>, start: map<string, LoggerState>, view: map<string, LoggerState>) {
    forall name :: TrackedAt(history, start, view, name)
  }

  lemma ValueIgnored(history: seq<Defs>, v: Defs, start: map<string, LoggerState>, view: map<string, LoggerState>)
    requires Tracked(history, start, view) && SameDefs(RunVal(history), v)
    ensures RunVal(history + [v]) == RunVal(history) && Tracked(history + [v], start, view)
  {
    assert (history + [v])[..|history|] == history;
    forall name ensures TrackedAt(history + [v], start, view, name) {
      assert TrackedAt(history, start, view, name);
      KeyOfRun(history, name);
      assert name in v ==> SameDefine(RunVal(history)[name], v[name]);
    }
  }

  /** A change of the definitions from `RunVal(history)` to `v`, seen by one logger. */
  lemma OutcomeStep(history: seq<Defs>, v: Defs, name: string, s: Option<LoggerState>, before: Option<LoggerState>)
    requires LastChange(history, name).Some? || s.Some? ==> before == Outcome(history, name, s)
    requires LastChange(history + [v], name).Some? || s.Some?
    ensures PatchOne(RunVal(history), v, name, before) == Outcome(history + [v], name, s)
  {
    assert (history + [v])[..|history|] == history && Last(history + [v]) == v;
    KeyOfRun(history, name);
  }

  lemma ValueSet(history: seq<Defs>, v: Defs, start: map<string, LoggerState>,
                 before: map<string, LoggerState>, after: map<string, LoggerState>)
    requires Tracked(history, start, before) && !SameDefs(RunVal(history), v)
    requires Patched(RunVal(history), v, before, after)
    ensures RunVal(history + [v]) == v && Tracked(history + [v], start, after)
  {
    assert (history + [v])[..|history|] == history;
    forall name ensures TrackedAt(history + [v], start, after, name) {
      assert TrackedAt(history, start, before, name) && PatchedAt(RunVal(history), v, before, after, name);
      if name in start || LastChange(history + [v], name).Some? {
        OutcomeStep(history, v, name, At(start, name), At(before, name));
      }
    }
  }

  /**
   The variable `logs` with its listener, and the loggers it configures. `history` holds the values that were
   set and `start` the loggers there were before.
   */
  class LogConfig {
    const manager: LoggerManager
    var val: Defs
    ghost var history: seq<Defs>
    ghost const start: map<string, LoggerState>

    constructor (manager: LoggerManager)
      ensures this.manager == manager && val == map[] && history == [] && start == View(manager)
      ensures Tracks()
    {
      this.manager := manager;
      val := map[];
      history := [];
      start := View(manager);
    }

    ghost predicate Tracks()
      reads this, manager, manager.loggers.Values
    {
      val == RunVal(history) && Tracked(history, start, View(manager))
    }

    /** `setValue`: nothing happens if the definitions compare equal. */
    method SetValue(v: Defs)
      requires manager.Valid() && Tracks()
      modifies this, manager, manager.loggers.Values
      ensures manager.Valid() && Tracks() && history == old(history) + [v]
      ensures fresh(manager.loggers.Values - old(manager.loggers.Values))
    {
      if SameDefs(val, v) {
        ValueIgnored(history, v, start, View(manager));
        Remember(v);
        return;
      }
      Change(v);
      Remember(v);
    }

    /** The value becomes part of the history. */
    ghost method Remember(v: Defs)
      requires val == RunVal(history + [v]) && Tracked(history + [v], start, View(manager))
      modifies `history
      ensures Tracks() && history == old(history) + [v] && View(manager) == old(View(manager))
    {
      ghost var view := View(manager);
      history := history + [v];
      assert View(manager) == view;
    }

    /** A value that differs: the listener is called, then the value is stored. */
    method Change(v: Defs)
      requires manager.Valid() && Tracks() && !SameDefs(val, v)
      modifies `val, manager, manager.loggers.Values
      ensures manager.Valid() && val == RunVal(history + [v]) && Tracked(history + [v], start, View(manager))
      ensures fresh(manager.loggers.Values - old(manager.loggers.Values))
    {
      ghost var before := View(manager);
      OnConfChanged(manager, val, v);
      ghost var after := View(manager);
      ValueSet(history, v, start, before, after);
      val := v;
      assert View(manager) == after;
    }

    /** Asking for a logger by name disturbs nothing. */
    method GetLogger(name: string) returns (logger: Logger)
      requires manager.Valid() && Tracks()
      modifies manager
      ensures manager.Valid() && Tracks() && name in manager.loggers && manager.loggers[name] == logger
      ensures fresh(manager.loggers.Values - old(manager.loggers.Values))
    {
      ghost var view := View(manager);
      logger := manager.GetLogger(name);
      assert forall n <- view :: n in View(manager) && View(manager)[n] == view[n];
      MoreLoggers(history, start, view, View(manager));
    }

    /**
     The loggers agree with the definitions: a configured name has the level of its current definition and the
     appenders of its definition at the last change of presence, level or formatter; a dropped name has no level
     and no appenders; a name that was never configured is untouched.
     */
    lemma Reconciled(name: string)
      requires Tracks()
      ensures var current := Last(history);
        match LastChange(history, name)
        case None => name !in current && (name in start ==> At(View(manager), name) == Some(start[name]))
        case Some(k) =>
          && (name in current ==>
            && name in history[k]
            && At(View(manager), name) == Some(LoggerState(current[name].level, Build(history[k][name].appenders))))
          && (name !in current ==> At(View(manager), name) == Some(DROPPED))
    {
      assert TrackedAt(history, start, View(manager), name);
      LastChangeIsCurrent(history, name);
    }

    /** An event for a name that was dropped from the configuration goes where an event for the root goes. */
    lemma DroppedUsesRoot(name: string, o: Occasion)
      requires manager.Valid() && Tracks() && name in manager.loggers
      requires LastChange(history, name).Some? && name !in Last(history)
      ensures manager.Reached(name, o) == manager.Reached("root", o)
    {
      Reconciled(name);
      assert manager.loggers[name].level == UNKNOW && manager.loggers[name].appenders == [];
    }
  }

  lemma MoreLoggers(history: seq<Defs>, start: map<string, LoggerState>,
                    before: map<string, LoggerState>, after: map<string, LoggerState>)
    requires Tracked(history, start, before) && forall n <- before :: n in after && after[n] == before[n]
    ensures Tracked(history, start, after)
  {
    forall name ensures TrackedAt(history, start, after, name) {
      assert TrackedAt(history, start, before, name);
    }
  }
}
