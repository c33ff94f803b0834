/**
 From a configuration tree to the loggers: what `Config::LoadFromYaml` does to the variable `logs`
 (src/config/config.cpp:32-59, src/config/config.h:123-138, src/_log/log.cpp:576-735). `load` stands for reading the
 text of a scalar as YAML; writing any other node and reading it again gives the node back.
 */
module LogLoading {
  import opened ConfigLoading
  import opened ConfigPaths
  import opened ConfigTrees
  import ConfigVars
  import opened LogDefines
  import opened LogFormatters
  import opened LogLevels
  import opened LogReconcile
  import opened Loggers
  import opened Options
  import opened Sequences
  import opened Yaml

  // ---- The conversion to a set of definitions ---------------------------------------------------------------

  const NONE: Defs := map[]

  function Inserted(defs: Defs, d: LogDefine): Defs { if d.name in defs then defs else defs[d.name := d] }

  function Add(defs: Result<Defs>, d: Result<LogDefine>): Result<Defs> {
    match (defs, d)
    case (Thrown, _) => Thrown
    case (_, Thrown) => Thrown
    case (Ok(m), Ok(x)) => Ok(Inserted(m, x))
  }

  /** The first definition of a name is kept; an exception at one element is one for the whole set. */
  function ParseAll(es: seq<Node>): Result<Defs> {
    if es == [] then Ok(NONE) else Add(ParseAll(es[..|es| - 1]), Parse(es[|es| - 1]))
  }

  lemma ParseOneMore(es: seq<Node>, i: nat)
    requires i < |es|
    ensures ParseAll(es[..i + 1]) == Add(ParseAll(es[..i]), Parse(es[i]))
  {
    assert es[..i + 1][..i] == es[..i];
  }

  /** Subscripts with numbers find nothing in a mapping, and nothing has no name. */
  function ParseSet(node: Node): Result<Defs> {
    if node.Mapping? && node.entries != [] then Thrown else ParseAll(Elements(Some(node)))
  }

  method ParseDefinitions(node: Node) returns (r: Result<Defs>)
    ensures r == ParseSet(node)
  {
    if node.Mapping? && node.entries != [] {
      return Thrown;
    }
    var es := Elements(Some(node));
    var defs: Defs := map[];
    for i := 0 to |es|
      invariant ParseAll(es[..i]) == Ok(defs)
    {
      ParseOneMore(es, i);
      var d := ParseDefinition(es[i]);
      if d == Thrown {
        ThrownAtElement(es, i + 1);
        return Thrown;
      }
      defs := Inserted(defs, d.value);
    }
    assert es[..|es|] == es;
    r := Ok(defs);
  }

  lemma {:induction false} ThrownAtElement(es: seq<Node>, n: nat)
    requires n <= |es| && ParseAll(es[..n]) == Thrown
    ensures ParseAll(es) == Thrown
    decreases |es|
  {
    if n < |es| {
      assert es[..|es| - 1][..n] == es[..n];
      ThrownAtElement(es[..|es| - 1], n);
    } else {
      assert es[..n] == es;
    }
  }

  /** The element parses, and no earlier one has the same name. */
  predicate FirstNamed(es: seq<Node>, i: nat) {
    && i < |es| && Parse(es[i]).Ok?
    && forall j :: 0 <= j < i && Parse(es[j]).Ok? ==> Parse(es[j]).value.name != Parse(es[i]).value.name
  }

  predicate SomeThrows(es: seq<Node>) { exists i :: 0 <= i < |es| && Parse(es[i]).Thrown? }

  /** The set holds the first definition of each name among the elements, and nothing else. */
  ghost predicate FirstOfEach(es: seq<Node>, defs: Defs) {
    && (forall i: nat :: FirstNamed(es, i) ==>
          Parse(es[i]).value.name in defs && defs[Parse(es[i]).value.name] == Parse(es[i]).value)
    && (forall n <- defs :: exists i: nat :: FirstNamed(es, i) && Parse(es[i]).value.name == n)
  }

  lemma FirstNamedFront(front: seq<Node>, e: Node, i: nat)
    ensures i < |front| ==> (FirstNamed(front + [e], i) <==> FirstNamed(front, i))
  {
    assert forall j :: 0 <= j < |front| ==> (front + [e])[j] == front[j];
  }

  lemma FirstNamedLast(front: seq<Node>, e: Node, defs: Defs)
    requires Parse(e).Ok? && !SomeThrows(front) && FirstOfEach(front, defs)
    ensures FirstNamed(front + [e], |front|) <==> Parse(e).value.name !in defs
  {
    assert forall j :: 0 <= j < |front| ==> (front + [e])[j] == front[j];
    forall j: nat | j < |front| ensures Parse(front[j]).value.name in defs {
      NameIsThere(front, j, defs);
    }
    if Parse(e).value.name in defs {
      var i: nat :| FirstNamed(front, i) && Parse(front[i]).value.name == Parse(e).value.name;
      assert (front + [e])[i] == front[i];
    }
  }

  /** The name of every element has a first element. */
  lemma {:induction false} NameIsThere(es: seq<Node>, j: nat, defs: Defs)
    requires j < |es| && !SomeThrows(es) && FirstOfEach(es, defs)
    ensures Parse(es[j]).value.name in defs
  {
    if !FirstNamed(es, j) {
      var i: nat :| i < j && Parse(es[i]).value.name == Parse(es[j]).value.name;
      NameIsThere(es, i, defs);
    }
  }

  lemma FirstOfEachSnoc(front: seq<Node>, e: Node, defs: Defs)
    requires Parse(e).Ok? && !SomeThrows(front) && FirstOfEach(front, defs)
    ensures FirstOfEach(front + [e], Inserted(defs, Parse(e).value))
  {
    var es, d, more := front + [e], Parse(e).value, Inserted(defs, Parse(e).value);
    FirstNamedLast(front, e, defs);
    forall i: nat | FirstNamed(es, i)
      ensures Parse(es[i]).value.name in more && more[Parse(es[i]).value.name] == Parse(es[i]).value
    {
      FirstNamedFront(front, e, i);
    }
    forall n | n in more ensures exists i: nat :: FirstNamed(es, i) && Parse(es[i]).value.name == n {
      if n in defs {
        var i: nat :| FirstNamed(front, i) && Parse(front[i]).value.name == n;
        FirstNamedFront(front, e, i);
        assert FirstNamed(es, i) && es[i] == front[i];
      } else {
        assert FirstNamed(es, |front|) && es[|front|] == e;
      }
    }
  }

  lemma {:induction false} ParseAllExactly(es: seq<Node>)
    ensures ParseAll(es).Thrown? <==> SomeThrows(es)
    ensures ParseAll(es).Ok? ==> FirstOfEach(es, ParseAll(es).value)
  {
    if es != [] {
      var front, e := es[..|es| - 1], es[|es| - 1];
      ParseAllExactly(front);
      assert es == front + [e];
      SomeThrowsSnoc(front, e);
      if !SomeThrows(es) {
        FirstOfEachSnoc(front, e, ParseAll(front).value);
      }
    }
  }

  lemma SomeThrowsSnoc(front: seq<Node>, e: Node)
    ensures SomeThrows(front + [e]) <==> SomeThrows(front) || Parse(e).Thrown?
  {
    var es := front + [e];
    assert forall j :: 0 <= j < |front| ==> es[j] == front[j];
    assert es[|front|] == e;
  }

  /** What is no sequence has no elements, except that a mapping with entries throws. */
  lemma OthersConvert(text: string, entries: seq<Yaml.Entry>)
    ensures ParseSet(Null) == Ok(NONE) && ParseSet(Scalar(text)) == Ok(NONE)
    ensures ParseSet(Mapping(entries)) == if entries == [] then Ok(NONE) else Thrown
  {
  }

  /** A sequence of elements converts unless one of them throws, and gives the first definition of each name. */
  lemma SequenceConverts(es: seq<Node>)
    ensures ParseSet(Sequence(es)).Thrown? <==> exists i :: 0 <= i < |es| && Parse(es[i]).Thrown?
    ensures ParseSet(Sequence(es)).Ok? ==> FirstOfEach(es, ParseSet(Sequence(es)).value)
  {
    ParseAllExactly(es);
  }

  /** All appenders have the level of their logger. */
  predicate Levelled(defs: Defs) { forall n <- defs :: AllNormal(defs[n].appenders, defs[n].level) }

  lemma {:induction false} ParsedIsLevelled(es: seq<Node>)
    requires ParseAll(es).Ok?
    ensures Levelled(ParseAll(es).value)
  {
    if es != [] {
      ParsedIsLevelled(es[..|es| - 1]);
      ParsedIsNormal(es[|es| - 1]);
    }
  }

  // ---- The variable `logs` is a `ConfigVar` with one listener ------------------------------------------------

  /** The type's `operator==`, and the listener that patches the loggers. */
  const LOGS := ConfigVars.Kind((a: Defs, b: Defs) => SameDefs(a, b), (id: nat, a: Defs, b: Defs) => false)

  const INITIAL: ConfigVars.VarState<Defs> := ConfigVars.VarState(NONE, [1], [])

  function SetAll(vs: seq<Defs>): seq<ConfigVars.Op<Defs>> {
    if vs == [] then [] else SetAll(vs[..|vs| - 1]) + [ConfigVars.Op.SetValue(vs[|vs| - 1])]
  }

  /** The logger of a name after its listener has been called as recorded. */
  function PatchAll(calls: seq<ConfigVars.Call<Defs>>, name: string, s: Option<LoggerState>): Option<LoggerState> {
    if calls == [] then s
    else
      var last := |calls| - 1;
      PatchOne(calls[last].oldValue, calls[last].newValue, name, PatchAll(calls[..last], name, s))
  }

  lemma {:induction false} RunSnoc<V>(kind: ConfigVars.Kind<V>, s: ConfigVars.VarState<V>,
                                      ops: seq<ConfigVars.Op<V>>, op: ConfigVars.Op<V>)
    ensures ConfigVars.Run(kind, s, ops + [op]) == ConfigVars.Apply(kind, ConfigVars.Run(kind, s, ops), op)
    decreases |ops|
  {
    if ops == [] {
      assert ([] + [op])[1..] == [];
    } else {
      assert (ops + [op])[1..] == ops[1..] + [op];
      RunSnoc(kind, ConfigVars.Apply(kind, s, ops[0]), ops[1..], op);
    }
  }

  /** One `setValue` tells the one listener exactly if the value differs. */
  lemma SetLogs(s: ConfigVars.VarState<Defs>, v: Defs)
    requires s.cbs == [1]
    ensures ConfigVars.Apply(LOGS, s, ConfigVars.Op.SetValue(v))
         == if SameDefs(s.val, v) then s else ConfigVars.VarState(v, [1], s.calls + [ConfigVars.Call(1, s.val, v)])
  {
    assert [1][1..] == [] && [1][0] == 1;
    assert ConfigVars.Audience(LOGS.throws, [1], s.val, v) == [1];
    assert !ConfigVars.Fails(LOGS.throws, [1], s.val, v);
    assert ConfigVars.Round([1], s.val, v) == [ConfigVars.Call(1, s.val, v)];
  }

  /** Setting values in order stores and tells the listener what `RunVal` and `RunState` say of the history. */
  lemma {:induction false} HistoryIsConfigVar(vs: seq<Defs>, name: string, s: Option<LoggerState>)
    ensures var end := ConfigVars.Run(LOGS, INITIAL, SetAll(vs));
      && end.val == RunVal(vs) && end.cbs == [1]
      && PatchAll(end.calls, name, s) == RunState(vs, name, s)
  {
    if vs != [] {
      var front, v := vs[..|vs| - 1], vs[|vs| - 1];
      HistoryIsConfigVar(front, name, s);
      var before := ConfigVars.Run(LOGS, INITIAL, SetAll(front));
      RunSnoc(LOGS, INITIAL, SetAll(front), ConfigVars.Op.SetValue(v));
      SetLogs(before, v);
      assert (before.calls + [ConfigVars.Call(1, before.val, v)])[..|before.calls|] == before.calls;
    }
  }

  // ---- What a tree offers to `logs` -------------------------------------------------------------------------

  /** The definitions that a member offers, if it is named `logs` and converts. */
  function Offer(load: string -> Node, m: Member): seq<Defs> {
    if m.0 != "logs" then []
    else
      match ParseSet(if m.1.Scalar? then load(m.1.text) else m.1)
      case Thrown => []
      case Ok(defs) => [defs]
  }

  /** What the members contribute, in order. */
  function Collected<T>(offer: Member -> seq<T>, ms: seq<Member>): seq<T> {
    if ms == [] then [] else Collected(offer, ms[..|ms| - 1]) + offer(ms[|ms| - 1])
  }

  lemma CollectedSnoc<T>(offer: Member -> seq<T>, ms: seq<Member>, m: Member)
    ensures Collected(offer, ms + [m]) == Collected(offer, ms) + offer(m)
  {
    assert (ms + [m])[..|ms|] == ms;
  }

  lemma KeepValidSnoc(front: seq<Member>, m: Member)
    ensures KeepValid(front + [m]) == if ValidName(m.0) then KeepValid(front) + [m] else KeepValid(front)
  {
    KeepValidConcat(front, [m]);
    KeepValidOne(m);
  }

  lemma {:induction false} CollectedValid<T>(offer: Member -> seq<T>, ms: seq<Member>)
    requires forall m: Member :: !ValidName(m.0) ==> offer(m) == []
    ensures Collected(offer, KeepValid(ms)) == Collected(offer, ms)
  {
    if ms != [] {
      var front, m := ms[..|ms| - 1], ms[|ms| - 1];
      CollectedValid(offer, front);
      assert ms == front + [m];
      KeepValidSnoc(front, m);
      if ValidName(m.0) {
        CollectedSnoc(offer, KeepValid(front), m);
      }
    }
  }

  function OfferOf(load: string -> Node): Member -> seq<Defs> { m => Offer(load, m) }

  function Offered(load: string -> Node, ms: seq<Member>): seq<Defs> { Collected(OfferOf(load), ms) }

  lemma InvalidOffersNothing(load: string -> Node, m: Member)
    requires !ValidName(m.0)
    ensures OfferOf(load)(m) == []
  {
    assert m.0 != "logs" by { LogsIsValid(); }
  }

  /** Members with invalid names offer nothing. */
  lemma OfferedValid(load: string -> Node, ms: seq<Member>)
    ensures Offered(load, KeepValid(ms)) == Offered(load, ms)
  {
    forall m: Member | !ValidName(m.0) ensures OfferOf(load)(m) == [] {
      InvalidOffersNothing(load, m);
    }
    CollectedValid(OfferOf(load), ms);
  }

  lemma LogsIsValid()
    ensures ValidName("logs")
  {
  }

  predicate AllLevelled(history: seq<Defs>) { forall defs <- history :: Levelled(defs) }

  lemma OfferLevelled(load: string -> Node, m: Member)
    ensures AllLevelled(Offer(load, m))
  {
    var node := if m.1.Scalar? then load(m.1.text) else m.1;
    if ParseSet(node).Ok? {
      ParsedIsLevelled(Elements(Some(node)));
    }
  }

  lemma {:induction false} OfferedLevelled(load: string -> Node, ms: seq<Member>)
    ensures AllLevelled(Offered(load, ms))
  {
    if ms != [] {
      OfferedLevelled(load, ms[..|ms| - 1]);
      OfferLevelled(load, ms[|ms| - 1]);
    }
  }

  method LoadMember(config: LogConfig, m: Member, load: string -> Node)
    requires config.manager.Valid() && config.Tracks()
    modifies config, config.manager, config.manager.loggers.Values
    ensures config.manager.Valid() && config.Tracks() && config.history == old(config.history) + Offer(load, m)
    ensures fresh(config.manager.loggers.Values - old(config.manager.loggers.Values))
  {
    if m.0 == "logs" {
      var defs := ParseDefinitions(if m.1.Scalar? then load(m.1.text) else m.1);
      if defs.Ok? {
        config.SetValue(defs.value);
      }
    }
  }

  /** `LoadMember` as one more step through the list. */
  method LoadNext(config: LogConfig, ms: seq<Member>, k: nat, load: string -> Node, ghost before: seq<Defs>)
    requires config.manager.Valid() && config.Tracks()
    requires k < |ms| && config.history == before + Offered(load, ms[..k])
    modifies config, config.manager, config.manager.loggers.Values
    ensures config.manager.Valid() && config.Tracks() && config.history == before + Offered(load, ms[..k + 1])
    ensures fresh(config.manager.loggers.Values - old(config.manager.loggers.Values))
  {
    LoadMember(config, ms[k], load);
    assert ms[..k + 1] == ms[..k] + [ms[k]];
    CollectedSnoc(OfferOf(load), ms[..k], ms[k]);
    Associative(before, Offered(load, ms[..k]), Offer(load, ms[k]));
  }

  method LoadMembers(config: LogConfig, ms: seq<Member>, load: string -> Node)
    requires config.manager.Valid() && config.Tracks()
    modifies config, config.manager, config.manager.loggers.Values
    ensures config.manager.Valid() && config.Tracks()
    ensures config.history == old(config.history) + Offered(load, ms)
  {
    ghost var before := config.history;
    for k := 0 to |ms|
      invariant config.manager.Valid() && config.Tracks()
      invariant fresh(config.manager.loggers.Values - old(config.manager.loggers.Values))
      invariant config.history == before + Offered(load, ms[..k])
    {
      LoadNext(config, ms, k, load, before);
    }
    assert ms[..|ms|] == ms;
  }

  /**
   Loads a tree: each member named `logs` of the full flattening that converts is set in turn, so the loggers are
   as the longer history says.
   */
  method LoadLogs(config: LogConfig, root: Node, load: string -> Node)
    requires config.manager.Valid() && config.Tracks()
    modifies config, config.manager, config.manager.loggers.Values
    ensures config.manager.Valid() && config.Tracks()
    ensures config.history == old(config.history) + Offered(load, Flatten("", root))
    ensures AllLevelled(old(config.history)) ==> AllLevelled(config.history)
  {
    var ms := ListAll(root);
    OfferedLevelled(load, Flatten("", root));
    OfferedValid(load, Flatten("", root));
    LoadMembers(config, ms, load);
  }

  // ---- The loggers after loading ----------------------------------------------------------------------------

  /** After loading, the last member that converts decides: its names have their levels, others are dropped. */
  lemma LoadedLoggers(config: LogConfig, before: seq<Defs>, offered: seq<Defs>, name: string)
    requires config.Tracks() && config.history == before + offered && offered != []
    ensures var defs := Last(offered);
      && (name in defs ==>
        At(View(config.manager), name).Some? && At(View(config.manager), name).value.level == defs[name].level)
      && (name !in defs && LastChange(config.history, name).Some? ==> At(View(config.manager), name) == Some(DROPPED))
  {
    config.Reconciled(name);
  }

  lemma {:induction false} OfferedOnly(load: string -> Node, ms: seq<Member>, es: seq<Node>, defs: Defs)
    requires ParseSet(Sequence(es)) == Ok(defs) && forall m <- ms :: m.0 == "logs" ==> m.1 == Sequence(es)
    ensures forall offered <- Offered(load, ms) :: offered == defs
    ensures (exists m <- ms :: m.0 == "logs") ==> Offered(load, ms) != []
  {
    if ms != [] {
      var front, m := ms[..|ms| - 1], ms[|ms| - 1];
      assert forall x :: x in ms <==> x in front || x == m;
      OfferedOnly(load, front, es, defs);
      assert Offer(load, m) == if m.0 == "logs" then [defs] else [];
    }
  }

  /** The tree offers the definitions of its one `logs` node. */
  lemma TreeOffers(load: string -> Node, root: Node, es: seq<Node>, defs: Defs)
    requires OnlyNode(root, "logs", Sequence(es)) && ParseSet(Sequence(es)) == Ok(defs)
    ensures var offered := Offered(load, Flatten("", root));
      offered != [] && Last(offered) == defs && forall d <- offered :: d == defs
  {
    OnlyNodeIsListed(root, "logs", Sequence(es));
    OfferedOnly(load, Flatten("", root), es, defs);
    var offered := Offered(load, Flatten("", root));
    assert offered[|offered| - 1] in offered;
  }

  lemma LastOfBoth(before: seq<Defs>, offered: seq<Defs>)
    requires offered != []
    ensures Last(before + offered) == Last(offered)
  {
  }

  /** What one and the same set, offered once or more, makes of the logger of a name that it has. */
  lemma LoadedName(config: LogConfig, before: seq<Defs>, offered: seq<Defs>, defs: Defs, name: string)
    requires config.Tracks() && config.history == before + offered && name in defs
    requires offered != [] && Last(offered) == defs && forall d <- offered :: d == defs
    ensures var view := View(config.manager);
      && At(view, name).Some? && At(view, name).value.level == defs[name].level
      && (before == [] ==> At(view, name) == Some(Built(defs[name])))
  {
    LastOfBoth(before, offered);
    config.Reconciled(name);
    var k := LastChange(config.history, name);
    assert before == [] && k.Some? ==> config.history[k.value] in offered;
  }

  /**
   From the elements of the tree to the loggers: after loading a tree with one `logs` sequence, in which the element
   `i` is the first of its name, the logger of that name has the level of that element; on a first load it has the
   appenders of that element as well.
   */
  lemma LoadedTree(config: LogConfig, before: seq<Defs>, root: Node, es: seq<Node>, load: string -> Node, i: nat)
    requires config.Tracks() && config.history == before + Offered(load, Flatten("", root))
    requires OnlyNode(root, "logs", Sequence(es)) && !SomeThrows(es) && FirstNamed(es, i)
    ensures var d, view := Parse(es[i]).value, View(config.manager);
      && At(view, d.name).Some? && At(view, d.name).value.level == d.level
      && (before == [] ==> At(view, d.name) == Some(Built(d)))
  {
    SequenceConverts(es);
    var defs := ParseSet(Sequence(es)).value;
    TreeOffers(load, root, es, defs);
    LoadedName(config, before, Offered(load, Flatten("", root)), defs, Parse(es[i]).value.name);
  }

  /** And a logger that was configured before, of which no element has the name, is dropped. */
  lemma UnnamedIsDropped(config: LogConfig, before: seq<Defs>, root: Node, es: seq<Node>, load: string -> Node,
                         name: string)
    requires config.Tracks() && config.history == before + Offered(load, Flatten("", root))
    requires OnlyNode(root, "logs", Sequence(es)) && !SomeThrows(es)
    requires (exists defs <- before :: name in defs) && forall i :: 0 <= i < |es| ==> Parse(es[i]).value.name != name
    ensures At(View(config.manager), name) == Some(DROPPED)
  {
    SequenceConverts(es);
    var defs := ParseSet(Sequence(es)).value;
    TreeOffers(load, root, es, defs);
    LastOfBoth(before, Offered(load, Flatten("", root)));
    var k :| 0 <= k < |before| && name in before[k];
    assert config.history[k] == before[k];
    NamedChanges(config.history, k, name);
    config.Reconciled(name);
  }

  /** A name that was ever configured has changed. */
  lemma {:induction false} NamedChanges(history: seq<Defs>, k: nat, name: string)
    requires k < |history| && name in history[k]
    ensures LastChange(history, name).Some?
    decreases |history|
  {
    var front := history[..|history| - 1];
    if Key(Last(history), name) == Key(Last(front), name) {
      NamedChanges(front, if k < |front| then k else k - 1, name);
    }
  }

  lemma {:induction false} BuildLevels(appenders: seq<AppenderDefine>, level: LogLevel)
    requires AllNormal(appenders, level)
    ensures forall a <- Build(appenders) :: a.level == level
  {
    if appenders != [] {
      BuildLevels(appenders[..|appenders| - 1], level);
      assert Normal(appenders[|appenders| - 1], level);
    }
  }

  /** Loggers that are configured from trees have appenders of their own level only. */
  lemma AppendersHaveLoggersLevel(config: LogConfig, name: string)
    requires config.Tracks() && name in Last(config.history)
    requires AllLevelled(config.history)
    ensures At(View(config.manager), name).Some?
    ensures var s := At(View(config.manager), name).value; forall a <- s.appenders :: a.level == s.level
  {
    config.Reconciled(name);
    LastChangeIsCurrent(config.history, name);
    var defs := config.history[LastChange(config.history, name).value];
    assert defs in config.history && name in defs && Levelled(defs);
    BuildLevels(defs[name].appenders, defs[name].level);
  }

  /** What all appenders write, whatever their levels. */
  function WrittenByAll(appenders: seq<Appender>, o: Occasion): seq<Delivery> {
    seq(|appenders|, k requires 0 <= k < |appenders| => Written(appenders[k], o))
  }

  predicate AllPass(appenders: seq<Appender>, o: Occasion) {
    forall a <- appenders :: Passes(o.level, a.level)
  }

  lemma DeliveredToOneMore(front: seq<Appender>, a: Appender, o: Occasion)
    requires DeliveredBy(front, o) == WrittenByAll(front, o) && Passes(o.level, a.level)
    ensures DeliveredBy(front + [a], o) == WrittenByAll(front + [a], o)
  {
    assert (front + [a])[..|front|] == front;
    assert WrittenByAll(front + [a], o) == WrittenByAll(front, o) + [Written(a, o)];
  }

  lemma PassSplit(appenders: seq<Appender>, o: Occasion) returns (front: seq<Appender>, a: Appender)
    requires appenders != [] && AllPass(appenders, o)
    ensures appenders == front + [a] && AllPass(front, o) && Passes(o.level, a.level)
  {
    front, a := appenders[..|appenders| - 1], appenders[|appenders| - 1];
  }

  lemma {:induction false} DeliveredToAll(appenders: seq<Appender>, o: Occasion)
    requires AllPass(appenders, o)
    ensures DeliveredBy(appenders, o) == WrittenByAll(appenders, o)
    decreases |appenders|
  {
    if appenders == [] {
      assert WrittenByAll([], o) == [];
    } else {
      var front, a := PassSplit(appenders, o);
      DeliveredToAll(front, o);
      DeliveredToOneMore(front, a, o);
    }
  }

  /**
   From the tree to the output: an event that passes the level of a logger configured from trees is written by every
   one of the logger's appenders, in order.
   */
  lemma EveryAppenderWrites(config: LogConfig, name: string, o: Occasion)
    requires config.manager.Valid() && config.Tracks() && name in Last(config.history)
    requires AllLevelled(config.history)
    ensures name in config.manager.loggers
    ensures var l := config.manager.loggers[name];
      Passes(o.level, l.level) && l.appenders != [] ==>
        config.manager.Reached(name, o) == WrittenByAll(l.appenders, o.(loggerName := name))
  {
    AppendersHaveLoggersLevel(config, name);
    var l := config.manager.loggers[name];
    assert At(View(config.manager), name).value == LoggerState(l.level, l.appenders);
    if Passes(o.level, l.level) && l.appenders != [] {
      DeliveredToAll(l.appenders, o.(loggerName := name));
    }
  }
}
