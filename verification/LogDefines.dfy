/**
 The definitions of loggers in the configuration and their conversion from and to YAML trees
 (src/_log/log.cpp:539-666). An exception of the conversion is the result `Thrown`.
 */
module LogDefines {
  import opened Options
  import opened LogLevels
  import opened Yaml

  datatype Result<T> = Ok(value: T) | Thrown

  /** `kind` is 1 for a file appender, 2 for a console appender. */
  datatype AppenderDefine = AppenderDefine(kind: int, level: LogLevel, formatter: string, file: string)

  datatype LogDefine = LogDefine(name: string, level: LogLevel, formatter: string, appenders: seq<AppenderDefine>)

  // ---- Reading nodes --------------------------------------------------------------------------------------

  function Find(entries: seq<Entry>, key: string): Option<Node> {
    if entries == [] then None
    else if entries[0].key == key then Some(entries[0].value)
    else Find(entries[1..], key)
  }

  /** `node[key]`; a scalar has no subscripts. */
  function Get(node: Node, key: string): Result<Option<Node>> {
    match node
    case Mapping(entries) => Ok(Find(entries, key))
    case Scalar(_) => Thrown
    case Sequence(_) => Ok(None)
    case Null => Ok(None)
  }

  /** `node.as<std::string>()`. */
  function AsString(node: Node): Result<string> {
    if node.Scalar? then Ok(node.text) else Thrown
  }

  /** The text of an optional entry, with a default for an absent one. */
  function TextOr(node: Option<Node>, otherwise: string): Result<string> {
    match node
    case None => Ok(otherwise)
    case Some(n) => AsString(n)
  }

  function Elements(node: Option<Node>): seq<Node> {
    if node.Some? && node.value.Sequence? then node.value.elements else []
  }

  // ---- Parsing --------------------------------------------------------------------------------------------

  function KindOf(typeName: string): int {
    if typeName == "FileLogAppender" then 1 else if typeName == "StdoutLogAppender" then 2 else 0
  }

  /**
   One element of `appenders`; `nodeLevel` is the logger's own `level` entry. An element without a type, or of
   file type without a file, is passed over. An appender's `level` entry only selects the logger's entry.
   */
  function ParseAppender(nodeLevel: Option<Node>, level: LogLevel, a: Node): Result<Option<AppenderDefine>> {
    match Get(a, "type")
    case Thrown => Thrown
    case Ok(None) => Ok(None)
    case Ok(Some(typeNode)) =>
      match AsString(typeNode)
      case Thrown => Thrown
      case Ok(typeName) =>
        var file := if KindOf(typeName) == 1 then Get(a, "file").value else None;
        if KindOf(typeName) == 1 && file == None then Ok(None)
        else if TextOr(file, "") == Thrown then Thrown
        else
          match AppenderLevel(nodeLevel, level, a)
          case Thrown => Thrown
          case Ok(own) =>
            match TextOr(Get(a, "formatter").value, "")
            case Thrown => Thrown
            case Ok(formatter) =>
              Ok(Some(AppenderDefine(KindOf(typeName), own, formatter, TextOr(file, "").value)))
  }

  function AppenderLevel(nodeLevel: Option<Node>, level: LogLevel, a: Node): Result<LogLevel>
    requires Get(a, "level").Ok?
  {
    if Get(a, "level").value == None then Ok(level)
    else
      match nodeLevel
      case None => Thrown
      case Some(n) => if n.Scalar? then Ok(FromString(n.text)) else Thrown
  }

  function ParseAppenders(nodeLevel: Option<Node>, level: LogLevel, es: seq<Node>): Result<seq<AppenderDefine>> {
    if es == [] then Ok([])
    else
      var last := |es| - 1;
      Extend(ParseAppenders(nodeLevel, level, es[..last]), ParseAppender(nodeLevel, level, es[last]))
  }

  function Extend(before: Result<seq<AppenderDefine>>, one: Result<Option<AppenderDefine>>)
    : Result<seq<AppenderDefine>>
  {
    match (before, one)
    case (Thrown, _) => Thrown
    case (_, Thrown) => Thrown
    case (Ok(appenders), Ok(None)) => Ok(appenders)
    case (Ok(appenders), Ok(Some(a))) => Ok(appenders + [a])
  }

  function Parse(node: Node): Result<LogDefine> {
    match Get(node, "name")
    case Thrown => Thrown
    case Ok(None) => Thrown
    case Ok(Some(nameNode)) =>
      var nodeLevel := Find(node.entries, "level");
      if AsString(nameNode) == Thrown || TextOr(nodeLevel, "") == Thrown then Thrown
      else
        var level := FromString(TextOr(nodeLevel, "").value);
        match ParseAppenders(nodeLevel, level, Elements(Find(node.entries, "appenders")))
        case Thrown => Thrown
        case Ok(appenders) => Ok(LogDefine(AsString(nameNode).value, level, "", appenders))
  }

  /** The body of the loop over the appenders; `None` stands for its `continue`s. */
  method ParseElement(nodeLevel: Option<Node>, level: LogLevel, a: Node) returns (r: Result<Option<AppenderDefine>>)
    ensures r == ParseAppender(nodeLevel, level, a)
  {
    var lad := AppenderDefine(0, UNKNOW, "", "");
    if a.Scalar? {
      return Thrown;
    }
    var typeNode := Get(a, "type").value;
    if typeNode == None {
      return Ok(None);
    }
    if !typeNode.value.Scalar? {
      return Thrown;
    }
    var typeName := typeNode.value.text;
    if typeName == "FileLogAppender" {
      lad := lad.(kind := 1);
      var file := Get(a, "file").value;
      if file == None {
        return Ok(None);
      }
      if !file.value.Scalar? {
        return Thrown;
      }
      lad := lad.(file := file.value.text);
    } else if typeName == "StdoutLogAppender" {
      lad := lad.(kind := 2);
    }
    if Get(a, "level").value != None {
      if nodeLevel == None || !nodeLevel.value.Scalar? {
        return Thrown;
      }
      lad := lad.(level := FromString(nodeLevel.value.text));
    } else {
      lad := lad.(level := level);
    }
    var formatter := TextOr(Get(a, "formatter").value, "");
    if formatter == Thrown {
      return Thrown;
    }
    r := Ok(Some(lad.(formatter := formatter.value)));
  }

  /** `Lexical_cast<std::string, LogDefine>`. */
  method ParseDefinition(node: Node) returns (r: Result<LogDefine>)
    ensures r == Parse(node)
  {
    var nameNode := Get(node, "name");
    if nameNode == Thrown || nameNode.value == None {
      return Thrown;
    }
    var name := AsString(nameNode.value.value);
    var nodeLevel := Find(node.entries, "level");
    var levelText := TextOr(nodeLevel, "");
    if name == Thrown || levelText == Thrown {
      return Thrown;
    }
    var ld := LogDefine(name.value, FromString(levelText.value), "", []);
    var es := Elements(Find(node.entries, "appenders"));
    for i := 0 to |es|
      invariant ld == LogDefine(name.value, FromString(levelText.value), "", ld.appenders)
      invariant ParseAppenders(nodeLevel, ld.level, es[..i]) == Ok(ld.appenders)
    {
      assert es[..i + 1][..i] == es[..i];
      var lad := ParseElement(nodeLevel, ld.level, es[i]);
      if lad == Thrown {
        ThrownAtAppender(nodeLevel, ld.level, es, i + 1);
        return Thrown;
      }
      if lad.value == None {
        continue;
      }
      ld := ld.(appenders := ld.appenders + [lad.value.value]);
    }
    assert es[..|es|] == es;
    r := Ok(ld);
  }

  /** An exception at one appender is one for the whole list. */
  lemma {:induction false} ThrownAtAppender(nodeLevel: Option<Node>, level: LogLevel, es: seq<Node>, n: nat)
    requires n <= |es| && ParseAppenders(nodeLevel, level, es[..n]) == Thrown
    ensures ParseAppenders(nodeLevel, level, es) == Thrown
    decreases |es|
  {
    if n < |es| {
      assert es[..|es| - 1][..n] == es[..n];
      ThrownAtAppender(nodeLevel, level, es[..|es| - 1], n);
    } else {
      assert es[..n] == es;
    }
  }

  // ---- What is passed over and what throws ------------------------------------------------------------------

  predicate HasKey(entries: seq<Entry>, key: string) { exists k :: 0 <= k < |entries| && entries[k].key == key }

  /** `text` is what the first entry of that key holds. */
  predicate Says(entries: seq<Entry>, key: string, text: string) {
    exists k :: 0 <= k < |entries| && entries[k] == Entry(key, Scalar(text)) && !HasKey(entries[..k], key)
  }

  lemma {:induction false} FindsFirst(entries: seq<Entry>, key: string)
    ensures Find(entries, key).None? <==> !HasKey(entries, key)
    ensures forall text :: Says(entries, key, text) ==> Find(entries, key) == Some(Scalar(text))
  {
    if entries != [] {
      FindsFirst(entries[1..], key);
      assert forall k :: 1 <= k < |entries| ==> entries[k] == entries[1..][k - 1];
      forall text | Says(entries, key, text) ensures Find(entries, key) == Some(Scalar(text)) {
        var k :| 0 <= k < |entries| && entries[k] == Entry(key, Scalar(text)) && !HasKey(entries[..k], key);
        if k > 0 {
          assert entries[..k][0] == entries[0];
          assert entries[1..][..k - 1] == entries[..k][1..];
          assert Says(entries[1..], key, text);
        }
      }
    }
  }

  /** A mapping without a type is passed over, and so is a file appender without a file. */
  lemma PassedOver(nodeLevel: Option<Node>, level: LogLevel, entries: seq<Entry>)
    requires !HasKey(entries, "type") || (Says(entries, "type", "FileLogAppender") && !HasKey(entries, "file"))
    ensures ParseAppender(nodeLevel, level, Mapping(entries)) == Ok(None)
  {
    FindsFirst(entries, "type");
    FindsFirst(entries, "file");
  }

  /** A file appender has its path. */
  lemma FileAppender(nodeLevel: Option<Node>, level: LogLevel, entries: seq<Entry>, path: string)
    requires Says(entries, "type", "FileLogAppender") && Says(entries, "file", path)
    requires !HasKey(entries, "level") && !HasKey(entries, "formatter")
    ensures ParseAppender(nodeLevel, level, Mapping(entries)) == Ok(Some(AppenderDefine(1, level, "", path)))
  {
    FindsFirst(entries, "type");
    FindsFirst(entries, "file");
    FindsFirst(entries, "level");
    FindsFirst(entries, "formatter");
  }

  /** An appender of any other type has no file; one of no known type is kept with the kind 0. */
  lemma OtherAppender(nodeLevel: Option<Node>, level: LogLevel, entries: seq<Entry>, typeName: string)
    requires Says(entries, "type", typeName) && typeName != "FileLogAppender"
    requires !HasKey(entries, "level") && !HasKey(entries, "formatter")
    ensures ParseAppender(nodeLevel, level, Mapping(entries))
         == Ok(Some(AppenderDefine(if typeName == "StdoutLogAppender" then 2 else 0, level, "", "")))
  {
    FindsFirst(entries, "type");
    FindsFirst(entries, "level");
    FindsFirst(entries, "formatter");
  }

  /** An appender's formatter is taken over as it is written. */
  lemma FormatterIsKept(nodeLevel: Option<Node>, level: LogLevel, entries: seq<Entry>, formatter: string)
    requires Says(entries, "type", "StdoutLogAppender") && Says(entries, "formatter", formatter)
    requires !HasKey(entries, "level")
    ensures ParseAppender(nodeLevel, level, Mapping(entries)) == Ok(Some(AppenderDefine(2, level, formatter, "")))
  {
    FindsFirst(entries, "type");
    FindsFirst(entries, "formatter");
    FindsFirst(entries, "level");
    assert "FileLogAppender"[0] != "StdoutLogAppender"[0];
  }

  /** A definition without a name throws, and so does one that is a scalar, a sequence or null. */
  lemma NamelessThrows(node: Node)
    requires node.Mapping? ==> !HasKey(node.entries, "name")
    ensures Parse(node).Thrown?
  {
    if node.Mapping? {
      FindsFirst(node.entries, "name");
    }
  }

  /** A definition has the name and the level that it says; without appenders it has none. */
  lemma NameAndLevel(entries: seq<Entry>, name: string, levelName: string)
    requires Says(entries, "name", name) && Says(entries, "level", levelName) && !HasKey(entries, "appenders")
    ensures Parse(Mapping(entries)) == Ok(LogDefine(name, FromString(levelName), "", []))
  {
    FindsFirst(entries, "name");
    FindsFirst(entries, "level");
    FindsFirst(entries, "appenders");
  }

  // ---- Printing -------------------------------------------------------------------------------------------

  function LevelEntry(level: LogLevel): seq<Entry> {
    if level == UNKNOW then [] else [Entry("level", Scalar(ToString(level)))]
  }

  function TypeEntries(a: AppenderDefine): seq<Entry> {
    if a.kind == 1 then [Entry("type", Scalar("FileLogAppender")), Entry("file", Scalar(a.file))]
    else if a.kind == 2 then [Entry("type", Scalar("StdoutLogAppender"))]
    else []
  }

  function FormatterEntry(a: AppenderDefine): seq<Entry> {
    if a.formatter == "" then [] else [Entry("formatter", Scalar(a.formatter))]
  }

  function PrintAppender(a: AppenderDefine): Node {
    var entries := TypeEntries(a) + LevelEntry(a.level) + FormatterEntry(a);
    if entries == [] then Null else Mapping(entries)
  }

  function PrintAppenders(appenders: seq<AppenderDefine>): seq<Node> {
    seq(|appenders|, k requires 0 <= k < |appenders| => PrintAppender(appenders[k]))
  }

  function AppendersEntry(nodes: seq<Node>): seq<Entry> {
    if nodes == [] then [] else [Entry("appenders", Sequence(nodes))]
  }

  /** The tree of a definition. */
  function Print(d: LogDefine): Node {
    Mapping([Entry("name", Scalar(d.name))] + LevelEntry(d.level) + AppendersEntry(PrintAppenders(d.appenders)))
  }

  /** `Lexical_cast<LogDefine, std::string>`. */
  method PrintDefinition(d: LogDefine) returns (node: Node)
    ensures node == Print(d)
  {
    var entries := [Entry("name", Scalar(d.name))];
    if d.level != UNKNOW {
      entries := entries + [Entry("level", Scalar(ToString(d.level)))];
    }
    var nodes := [];
    for k := 0 to |d.appenders|
      invariant nodes == PrintAppenders(d.appenders[..k])
    {
      var a := d.appenders[k];
      var na := [];
      if a.kind == 1 {
        na := [Entry("type", Scalar("FileLogAppender"))];
        na := na + [Entry("file", Scalar(a.file))];
      } else if a.kind == 2 {
        na := [Entry("type", Scalar("StdoutLogAppender"))];
      }
      if a.level != UNKNOW {
        na := na + [Entry("level", Scalar(ToString(a.level)))];
      }
      if a.formatter != "" {
        na := na + [Entry("formatter", Scalar(a.formatter))];
      }
      assert na == TypeEntries(a) + LevelEntry(a.level) + FormatterEntry(a);
      nodes := nodes + [if na == [] then Null else Mapping(na)];
    }
    assert d.appenders[..|d.appenders|] == d.appenders;
    if nodes != [] {
      entries := entries + [Entry("appenders", Sequence(nodes))];
    }
    node := Mapping(entries);
  }

  // ---- Printing, then parsing -----------------------------------------------------------------------------

  predicate Typed(a: AppenderDefine) { a.kind == 1 || a.kind == 2 }

  /** What comes back of an appender that has a type. */
  function Returned(a: AppenderDefine, level: LogLevel): AppenderDefine {
    a.(level := level, file := if a.kind == 1 then a.file else "")
  }

  function ReturnedAll(appenders: seq<AppenderDefine>, level: LogLevel): seq<AppenderDefine> {
    if appenders == [] then []
    else
      var last := |appenders| - 1;
      var before := ReturnedAll(appenders[..last], level);
      if Typed(appenders[last]) then before + [Returned(appenders[last], level)] else before
  }

  /** Some appender has a type and a level, while the logger itself has no level. */
  predicate LevelLost(d: LogDefine) {
    d.level == UNKNOW && exists k :: 0 <= k < |d.appenders| && Typed(d.appenders[k]) && d.appenders[k].level != UNKNOW
  }

  lemma KeysDiffer()
    ensures "type" != "file" && "type" != "level" && "type" != "formatter" && "file" != "level"
    ensures "file" != "formatter" && "level" != "formatter" && "name" != "level" && "name" != "appenders"
    ensures "level" != "appenders" && "FileLogAppender" != "StdoutLogAppender"
  {
    assert "type"[0] == 't' && "file"[0] == 'f' && "level"[0] == 'l' && "formatter"[0] == 'f';
    assert "name"[0] == 'n' && "appenders"[0] == 'a' && |"formatter"| == 9 && |"file"| == 4;
    assert "FileLogAppender"[0] == 'F' && "StdoutLogAppender"[0] == 'S';
  }

  lemma FindThree(a: seq<Entry>, b: seq<Entry>, c: seq<Entry>, key: string)
    ensures Find(a + b + c, key)
         == if Find(a, key).Some? then Find(a, key) else if Find(b, key).Some? then Find(b, key) else Find(c, key)
  {
    FindConcat(a + b, c, key);
    FindConcat(a, b, key);
  }

  lemma FindInType(a: AppenderDefine, key: string)
    ensures Find(TypeEntries(a), key)
         == if key == "type" && a.kind == 1 then Some(Scalar("FileLogAppender"))
            else if key == "type" && a.kind == 2 then Some(Scalar("StdoutLogAppender"))
            else if key == "file" && a.kind == 1 then Some(Scalar(a.file))
            else None
  {
    KeysDiffer();
    if a.kind == 1 {
      var first, second := Entry("type", Scalar("FileLogAppender")), Entry("file", Scalar(a.file));
      assert TypeEntries(a) == [first] + [second];
      FindConcat([first], [second], key);
      FindOne(first, key);
      FindOne(second, key);
    } else if a.kind == 2 {
      FindOne(Entry("type", Scalar("StdoutLogAppender")), key);
    }
  }

  lemma FindOne(e: Entry, key: string)
    ensures Find([e], key) == if e.key == key then Some(e.value) else None
  {
  }

  lemma PrintedEntry(a: AppenderDefine, key: string)
    ensures var es := TypeEntries(a) + LevelEntry(a.level) + FormatterEntry(a);
      && (key == "type" ==> Find(es, key) == (if a.kind == 1 then Some(Scalar("FileLogAppender"))
                                              else if a.kind == 2 then Some(Scalar("StdoutLogAppender")) else None))
      && (key == "file" && a.kind == 1 ==> Find(es, key) == Some(Scalar(a.file)))
      && (key == "level" ==> Find(es, key) == (if a.level == UNKNOW then None else Some(Scalar(ToString(a.level)))))
      && (key == "formatter" ==> Find(es, key) == (if a.formatter == "" then None else Some(Scalar(a.formatter))))
  {
    KeysDiffer();
    FindInType(a, key);
    FindThree(TypeEntries(a), LevelEntry(a.level), FormatterEntry(a), key);
  }

  lemma {:induction false} FindConcat(a: seq<Entry>, b: seq<Entry>, key: string)
    ensures Find(a + b, key) == if Find(a, key).Some? then Find(a, key) else Find(b, key)
  {
    if a == [] {
      assert a + b == b;
    } else {
      assert (a + b)[1..] == a[1..] + b && (a + b)[0] == a[0];
      FindConcat(a[1..], b, key);
    }
  }

  lemma AppenderReturns(a: AppenderDefine, nodeLevel: Option<Node>, level: LogLevel)
    requires nodeLevel == if level == UNKNOW then None else Some(Scalar(ToString(level)))
    ensures ParseAppender(nodeLevel, level, PrintAppender(a))
         == ReturnedOne(a, level)
  {
    PrintedEntry(a, "type");
    PrintedEntry(a, "file");
    PrintedEntry(a, "level");
    PrintedEntry(a, "formatter");
    LevelNames(level);
    KeysDiffer();
  }

  predicate Lost(appenders: seq<AppenderDefine>, level: LogLevel) {
    LevelLost(LogDefine("", level, "", appenders))
  }

  function ReturnedOrThrown(appenders: seq<AppenderDefine>, level: LogLevel): Result<seq<AppenderDefine>> {
    if Lost(appenders, level) then Thrown else Ok(ReturnedAll(appenders, level))
  }

  function ReturnedOne(a: AppenderDefine, level: LogLevel): Result<Option<AppenderDefine>> {
    if !Typed(a) then Ok(None)
    else if level == UNKNOW && a.level != UNKNOW then Thrown
    else Ok(Some(Returned(a, level)))
  }

  lemma ReturnedLast(appenders: seq<AppenderDefine>, level: LogLevel)
    requires appenders != []
    ensures var last := |appenders| - 1;
      ReturnedOrThrown(appenders, level)
      == Extend(ReturnedOrThrown(appenders[..last], level), ReturnedOne(appenders[last], level))
  {
    LevelLostLast(appenders, level);
  }

  lemma {:induction false} AppendersReturn(appenders: seq<AppenderDefine>, nodeLevel: Option<Node>, level: LogLevel)
    requires nodeLevel == if level == UNKNOW then None else Some(Scalar(ToString(level)))
    ensures ParseAppenders(nodeLevel, level, PrintAppenders(appenders)) == ReturnedOrThrown(appenders, level)
  {
    if appenders != [] {
      var last := |appenders| - 1;
      AppendersReturn(appenders[..last], nodeLevel, level);
      AppenderReturns(appenders[last], nodeLevel, level);
      var es := PrintAppenders(appenders);
      assert es[..last] == PrintAppenders(appenders[..last]) && es[last] == PrintAppender(appenders[last]);
      ReturnedLast(appenders, level);
    }
  }

  lemma LevelLostLast(appenders: seq<AppenderDefine>, level: LogLevel)
    requires appenders != []
    ensures var last := |appenders| - 1;
      Lost(appenders, level) <==>
        || Lost(appenders[..last], level)
        || (level == UNKNOW && Typed(appenders[last]) && appenders[last].level != UNKNOW)
  {
    var front := appenders[..|appenders| - 1];
    assert forall k :: 0 <= k < |front| ==> front[k] == appenders[k];
  }

  /**
   Printing a definition and parsing the result, for every definition: it fails exactly if a typed appender has
   a level that the logger has not; otherwise the logger's formatter is gone, appenders without a type are gone,
   and the others have the logger's level.
   */
  lemma PrintThenParse(d: LogDefine)
    ensures Parse(Print(d))
         == if LevelLost(d) then Thrown else Ok(LogDefine(d.name, d.level, "", ReturnedAll(d.appenders, d.level)))
  {
    PrintedDefinition(d);
    AppendersReturn(d.appenders, Find(Print(d).entries, "level"), d.level);
    assert LevelLost(d) <==> Lost(d.appenders, d.level);
    ParsePrinted(Print(d).entries, d);
  }

  lemma ParsePrinted(es: seq<Entry>, d: LogDefine)
    requires Find(es, "name") == Some(Scalar(d.name))
    requires Find(es, "level") == if d.level == UNKNOW then None else Some(Scalar(ToString(d.level)))
    ensures Parse(Mapping(es))
         == match ParseAppenders(Find(es, "level"), d.level, Elements(Find(es, "appenders")))
            case Thrown => Thrown
            case Ok(appenders) => Ok(LogDefine(d.name, d.level, "", appenders))
  {
    LevelNames(d.level);
  }

  lemma PrintedDefinition(d: LogDefine)
    ensures Find(Print(d).entries, "name") == Some(Scalar(d.name))
    ensures Find(Print(d).entries, "level") == if d.level == UNKNOW then None else Some(Scalar(ToString(d.level)))
    ensures Elements(Find(Print(d).entries, "appenders")) == PrintAppenders(d.appenders)
  {
    var nodes := PrintAppenders(d.appenders);
    var named := [Entry("name", Scalar(d.name))];
    KeysDiffer();
    FindThree(named, LevelEntry(d.level), AppendersEntry(nodes), "name");
    FindThree(named, LevelEntry(d.level), AppendersEntry(nodes), "level");
    FindThree(named, LevelEntry(d.level), AppendersEntry(nodes), "appenders");
  }

  /** An appender as parsing produces it: the logger's level, and a file name only for a file. */
  predicate Normal(a: AppenderDefine, level: LogLevel) {
    a.level == level && (a.kind == 0 || a.kind == 1 || a.kind == 2) && (a.kind != 1 ==> a.file == "")
  }

  predicate AllNormal(appenders: seq<AppenderDefine>, level: LogLevel) {
    forall k :: 0 <= k < |appenders| ==> Normal(appenders[k], level)
  }

  function DropUntyped(appenders: seq<AppenderDefine>): seq<AppenderDefine> {
    if appenders == [] then []
    else
      var last := |appenders| - 1;
      var before := DropUntyped(appenders[..last]);
      if Typed(appenders[last]) then before + [appenders[last]] else before
  }

  lemma {:induction false} ParsedAppendersAreNormal(nodeLevel: Option<Node>, level: LogLevel, es: seq<Node>)
    requires TextOr(nodeLevel, "").Ok? && level == FromString(TextOr(nodeLevel, "").value)
    requires ParseAppenders(nodeLevel, level, es).Ok?
    ensures AllNormal(ParseAppenders(nodeLevel, level, es).value, level)
  {
    if es != [] {
      ParsedAppendersAreNormal(nodeLevel, level, es[..|es| - 1]);
    }
  }

  /** Every parsed appender carries its logger's level, whatever its own `level` entry says. */
  lemma ParsedIsNormal(node: Node)
    requires Parse(node).Ok?
    ensures Parse(node).value.formatter == "" && AllNormal(Parse(node).value.appenders, Parse(node).value.level)
  {
    var nodeLevel := Find(node.entries, "level");
    var level := FromString(TextOr(nodeLevel, "").value);
    ParsedAppendersAreNormal(nodeLevel, level, Elements(Find(node.entries, "appenders")));
  }

  /** Of an appender's own `level` entry only its presence matters, never what it says. */
  lemma OwnLevelIgnored(before: seq<Entry>, after: seq<Entry>, x: Node, y: Node,
                        nodeLevel: Option<Node>, level: LogLevel)
    ensures ParseAppender(nodeLevel, level, Mapping(before + [Entry("level", x)] + after))
         == ParseAppender(nodeLevel, level, Mapping(before + [Entry("level", y)] + after))
  {
    forall key ensures
      var a := Find(before + [Entry("level", x)] + after, key);
      var b := Find(before + [Entry("level", y)] + after, key);
      a == b || (key == "level" && a != None && b != None)
    {
      FindThree(before, [Entry("level", x)], after, key);
      FindThree(before, [Entry("level", y)], after, key);
      FindOne(Entry("level", x), key);
      FindOne(Entry("level", y), key);
    }
    KeysDiffer();
  }

  lemma {:induction false} NormalReturns(appenders: seq<AppenderDefine>, level: LogLevel)
    requires AllNormal(appenders, level)
    ensures ReturnedAll(appenders, level) == DropUntyped(appenders)
  {
    if appenders != [] {
      NormalReturns(appenders[..|appenders| - 1], level);
      assert Normal(appenders[|appenders| - 1], level);
    }
  }

  /** On what parsing produces, printing and parsing again only drops the appenders without a type. */
  lemma ParsePrintParse(node: Node)
    requires Parse(node).Ok?
    ensures var d := Parse(node).value; Parse(Print(d)) == Ok(d.(appenders := DropUntyped(d.appenders)))
  {
    var d := Parse(node).value;
    ParsedIsNormal(node);
    PrintThenParse(d);
    NormalReturns(d.appenders, d.level);
    assert forall k :: 0 <= k < |d.appenders| ==> Normal(d.appenders[k], d.level);
  }

  lemma {:induction false} ReturnedIsSame(appenders: seq<AppenderDefine>, level: LogLevel)
    ensures |ReturnedAll(appenders, level)| <= |appenders|
    ensures ReturnedAll(appenders, level) == appenders
      <==> forall k :: 0 <= k < |appenders| ==> Typed(appenders[k]) && Normal(appenders[k], level)
  {
    if appenders != [] {
      var last := |appenders| - 1;
      var front := appenders[..last];
      ReturnedIsSame(front, level);
      assert appenders == front + [appenders[last]];
      var returned := ReturnedAll(appenders, level);
      if returned == appenders {
        assert returned[last] == appenders[last] && returned[..last] == front;
        assert forall k :: 0 <= k < last ==> front[k] == appenders[k];
      }
    }
  }

  /** A definition survives printing and parsing exactly if it is normal and each appender has a type. */
  lemma RoundTripIff(d: LogDefine)
    ensures Parse(Print(d)) == Ok(d) <==>
      && d.formatter == ""
      && forall k :: 0 <= k < |d.appenders| ==> Typed(d.appenders[k]) && Normal(d.appenders[k], d.level)
  {
    PrintThenParse(d);
    ReturnedIsSame(d.appenders, d.level);
  }
}
