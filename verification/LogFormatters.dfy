/**
 `LogFormatter` (src/_log/log.cpp:182-453): the index loops that compile a pattern into format items, and the
 rendering of an event with the items. The loops are proved to compute the recursive tokenizer of
 `PatternGrammar` followed by a grouping of literal characters.
 */
module LogFormatters {
  import opened Options
  import opened PatternGrammar
  import opened Sequences
  import opened LogLevels

  /** The fields of an event that items print; numbers are given as their decimal text. */
  datatype Event = Event(
    content: string, elapse: string, threadId: string, threadName: string,
    fiberId: string, file: string, line: string, time: nat)

  /** An element of the scanner's list `vec`: literal text (kind 0) or a directive (kind 1). */
  datatype Entry = Literally(text: string) | Named(name: string, fmt: string)

  datatype FormatItem =
    | Message | LevelName | Elapse | LoggerName | ThreadId | NewLine | DateTime(fmt: string) | FileName
    | LineNumber | Tab | FiberId | ThreadName | Text(text: string)

  /** What `format` is called with, and `localtime` followed by `strftime` as a function of format and time. */
  datatype Occasion = Occasion(loggerName: string, level: LogLevel, event: Event, date: (string, nat) -> string)

  // ---- From tokens to items -------------------------------------------------------------------------------

  function Flushed(pending: string): seq<Entry> {
    if pending == "" then [] else [Literally(pending)]
  }

  function BraceText(fmt: Option<string>): string {
    match fmt
    case None => ""
    case Some(text) => text
  }

  /**
   Runs of literal characters become one entry, written out before the next directive. The marker of an
   unterminated brace is written at once, ahead of the pending characters.
   */
  function Group(ts: seq<Token>, pending: string): seq<Entry> {
    if ts == [] then Flushed(pending)
    else match ts[0]
      case Char(c) => Group(ts[1..], pending + [c])
      case Unterminated => [Literally("<<pattern_error>>")] + Group(ts[1..], pending)
      case Directive(name, fmt) => Flushed(pending) + [Named(name, BraceText(fmt))] + Group(ts[1..], "")
  }

  const DEFAULT_DATE := "%Y-%m-%d %H:%M:%S"

  /** The table `s_format_items`. */
  function Lookup(name: string, fmt: string): (r: Option<FormatItem>)
    ensures r.Some? <==> name in NAMES
  {
    if name == "m" then Some(Message)
    else if name == "p" then Some(LevelName)
    else if name == "r" then Some(Elapse)
    else if name == "c" then Some(LoggerName)
    else if name == "t" then Some(ThreadId)
    else if name == "n" then Some(NewLine)
    else if name == "d" then Some(DateTime(if fmt == "" then DEFAULT_DATE else fmt))
    else if name == "f" then Some(FileName)
    else if name == "l" then Some(LineNumber)
    else if name == "T" then Some(Tab)
    else if name == "F" then Some(FiberId)
    else if name == "N" then Some(ThreadName)
    else None
  }

  function ItemOf(e: Entry): FormatItem {
    match e
    case Literally(text) => Text(text)
    case Named(name, fmt) =>
      match Lookup(name, fmt)
      case Some(item) => item
      case None => Text("<<error_format %" + name + ">>")
  }

  function Items(es: seq<Entry>): seq<FormatItem> {
    if es == [] then [] else [ItemOf(es[0])] + Items(es[1..])
  }

  predicate KnownEntry(e: Entry) { e.Named? ==> e.name in NAMES }

  predicate KnownEntries(es: seq<Entry>) { forall k :: 0 <= k < |es| ==> KnownEntry(es[k]) }

  function Compile(pattern: string): seq<FormatItem> { Items(Group(Lex(pattern), "")) }

  lemma {:induction false} ItemsConcat(a: seq<Entry>, b: seq<Entry>)
    ensures Items(a + b) == Items(a) + Items(b)
  {
    if a == [] {
      assert a + b == b;
    } else {
      assert (a + b)[1..] == a[1..] + b;
      ItemsConcat(a[1..], b);
    }
  }

  lemma {:induction false} GroupKnown(ts: seq<Token>, pending: string)
    ensures KnownEntries(Group(ts, pending)) <==> Known(ts)
  {
    if ts != [] {
      var rest := ts[1..];
      assert Known(ts) <==> (ts[0].Directive? ==> ts[0].name in NAMES) && Known(rest) by {
        assert forall k :: 0 <= k < |rest| ==> rest[k] == ts[k + 1];
        assert forall k :: 1 <= k < |ts| ==> ts[k] == rest[k - 1];
      }
      match ts[0]
      case Char(c) => GroupKnown(rest, pending + [c]);
      case Unterminated =>
        GroupKnown(rest, pending);
        KnownConcat([Literally("<<pattern_error>>")], Group(rest, pending));
      case Directive(name, fmt) =>
        GroupKnown(rest, "");
        KnownConcat(Flushed(pending) + [Named(name, BraceText(fmt))], Group(rest, ""));
        KnownConcat(Flushed(pending), [Named(name, BraceText(fmt))]);
        assert KnownEntries([Named(name, BraceText(fmt))]) <==> KnownEntry([Named(name, BraceText(fmt))][0]);
    }
  }

  lemma KnownConcat(a: seq<Entry>, b: seq<Entry>)
    ensures KnownEntries(a + b) <==> KnownEntries(a) && KnownEntries(b)
  {
    if KnownEntries(a + b) {
      assert forall k :: 0 <= k < |a| ==> (a + b)[k] == a[k];
      assert forall k :: 0 <= k < |b| ==> (a + b)[|a| + k] == b[k];
    }
  }

  // ---- Rendering ------------------------------------------------------------------------------------------

  /** The text one item writes. */
  function RenderItem(item: FormatItem, o: Occasion): string {
    match item
    case Message => o.event.content
    case LevelName => ToString(o.level)
    case Elapse => o.event.elapse
    case LoggerName => o.loggerName
    case ThreadId => o.event.threadId
    case NewLine => "\n"
    case DateTime(fmt) => o.date(fmt, o.event.time)
    case FileName => o.event.file
    case LineNumber => o.event.line
    case Tab => "\t"
    case FiberId => o.event.fiberId
    case ThreadName => o.event.threadName
    case Text(text) => text
  }

  function Render(items: seq<FormatItem>, o: Occasion): string {
    if items == [] then "" else RenderItem(items[0], o) + Render(items[1..], o)
  }

  function RenderToken(t: Token, o: Occasion): string {
    match t
    case Char(c) => [c]
    case Unterminated => "<<pattern_error>>"
    case Directive(name, fmt) => RenderItem(ItemOf(Named(name, BraceText(fmt))), o)
  }

  /** The meaning of a token list, one token at a time, with no grouping. */
  function RenderTokens(ts: seq<Token>, o: Occasion): string {
    if ts == [] then "" else RenderToken(ts[0], o) + RenderTokens(ts[1..], o)
  }

  lemma {:induction false} RenderConcat(a: seq<FormatItem>, b: seq<FormatItem>, o: Occasion)
    ensures Render(a + b, o) == Render(a, o) + Render(b, o)
  {
    if a == [] {
      assert a + b == b;
    } else {
      assert (a + b)[1..] == a[1..] + b && (a + b)[0] == a[0];
      RenderConcat(a[1..], b, o);
      Associative(RenderItem(a[0], o), Render(a[1..], o), Render(b, o));
    }
  }

  lemma {:induction false} RenderTokensConcat(a: seq<Token>, b: seq<Token>, o: Occasion)
    ensures RenderTokens(a + b, o) == RenderTokens(a, o) + RenderTokens(b, o)
  {
    if a == [] {
      assert a + b == b;
    } else {
      assert (a + b)[1..] == a[1..] + b && (a + b)[0] == a[0];
      RenderTokensConcat(a[1..], b, o);
      Associative(RenderToken(a[0], o), RenderTokens(a[1..], o), RenderTokens(b, o));
    }
  }

  lemma RenderFlushed(pending: string, o: Occasion)
    ensures Render(Items(Flushed(pending)), o) == pending
  {
    if pending != "" {
      assert Items(Flushed(pending)) == [Text(pending)];
      assert Render([Text(pending)], o) == pending + Render([], o);
    }
  }

  lemma EntriesConcat(a: seq<Entry>, b: seq<Entry>, o: Occasion)
    ensures Render(Items(a + b), o) == Render(Items(a), o) + Render(Items(b), o)
  {
    ItemsConcat(a, b);
    RenderConcat(Items(a), Items(b), o);
  }

  lemma RenderOne(entry: Entry, o: Occasion)
    ensures Render(Items([entry]), o) == RenderItem(ItemOf(entry), o)
  {
    assert Items([entry]) == [ItemOf(entry)] && [ItemOf(entry)][1..] == [];
  }

  lemma DirectiveText(pending: string, entry: Entry, rest: seq<Entry>, o: Occasion)
    ensures Render(Items(Flushed(pending) + [entry] + rest), o)
         == pending + (RenderItem(ItemOf(entry), o) + Render(Items(rest), o))
  {
    EntriesConcat(Flushed(pending) + [entry], rest, o);
    EntriesConcat(Flushed(pending), [entry], o);
    RenderFlushed(pending, o);
    RenderOne(entry, o);
    Associative(pending, RenderItem(ItemOf(entry), o), Render(Items(rest), o));
  }

  lemma EmptyFront(s: string)
    ensures "" + s == s
  {
  }

  lemma TailTerminated(ts: seq<Token>)
    requires ts != [] && Terminated(ts)
    ensures !ts[0].Unterminated? && Terminated(ts[1..])
  {
    assert ts[0] in ts && forall t <- ts[1..] :: t in ts;
  }

  lemma GroupChar(ts: seq<Token>, pending: string, o: Occasion)
    requires ts != [] && ts[0].Char?
    ensures Group(ts, pending) == Group(ts[1..], pending + [ts[0].c])
    ensures pending + RenderTokens(ts, o) == pending + [ts[0].c] + RenderTokens(ts[1..], o)
  {
    Associative(pending, [ts[0].c], RenderTokens(ts[1..], o));
  }

  lemma GroupNamed(ts: seq<Token>, pending: string, o: Occasion)
    requires ts != [] && ts[0].Directive?
    requires Render(Items(Group(ts[1..], "")), o) == RenderTokens(ts[1..], o)
    ensures Render(Items(Group(ts, pending)), o) == pending + RenderTokens(ts, o)
  {
    var entry := Named(ts[0].name, BraceText(ts[0].fmt));
    DirectiveText(pending, entry, Group(ts[1..], ""), o);
    assert Group(ts, pending) == Flushed(pending) + [entry] + Group(ts[1..], "");
    assert RenderTokens(ts, o) == RenderItem(ItemOf(entry), o) + RenderTokens(ts[1..], o);
  }

  /** Grouping does not change what is written: each token writes its own text, in order. */
  lemma {:induction false} GroupingKeepsText(ts: seq<Token>, pending: string, o: Occasion)
    requires Terminated(ts)
    ensures Render(Items(Group(ts, pending)), o) == pending + RenderTokens(ts, o)
  {
    if ts == [] {
      RenderFlushed(pending, o);
    } else {
      TailTerminated(ts);
      if ts[0].Char? {
        GroupChar(ts, pending, o);
        GroupingKeepsText(ts[1..], pending + [ts[0].c], o);
      } else {
        GroupingKeepsText(ts[1..], "", o);
        EmptyFront(RenderTokens(ts[1..], o));
        GroupNamed(ts, pending, o);
      }
    }
  }

  /** A pattern without an open brace writes the text of its tokens. */
  lemma FormatWritesTokens(p: string, o: Occasion)
    requires Terminated(Lex(p))
    ensures Render(Compile(p), o) == RenderTokens(Lex(p), o)
  {
    GroupingKeepsText(Lex(p), "", o);
  }

  /** A directive alone, with or without braces, writes the text of its item. */
  lemma DirectiveAlone(name: string, fmt: Option<string>, o: Occasion)
    requires AllName(name) && '}' !in BraceText(fmt)
    ensures Render(Compile(PrintToken(Directive(name, fmt))), o) == RenderItem(ItemOf(Named(name, BraceText(fmt))), o)
  {
    var d := Directive(name, fmt);
    NextOfText(d, "");
    assert PrintToken(d) + "" == PrintToken(d);
    LexNext(PrintToken(d), d, "");
    assert Lex(PrintToken(d)) == [d];
    FormatWritesTokens(PrintToken(d), o);
    RenderOneToken(d, o);
  }

  /** What the letters of directives stand for, and what an empty format of a date means. */
  function FieldText(c: char, fmt: string, o: Occasion): string {
    match c
    case 'm' => o.event.content
    case 'p' => ToString(o.level)
    case 'r' => o.event.elapse
    case 'c' => o.loggerName
    case 't' => o.event.threadId
    case 'n' => "\n"
    case 'd' => o.date(if fmt == "" then "%Y-%m-%d %H:%M:%S" else fmt, o.event.time)
    case 'f' => o.event.file
    case 'l' => o.event.line
    case 'T' => "\t"
    case 'F' => o.event.fiberId
    case 'N' => o.event.threadName
    case _ => "<<error_format %" + [c] + ">>"
  }

  lemma OneLetter(c: char, fmt: string, o: Occasion)
    ensures RenderItem(ItemOf(Named([c], fmt)), o) == FieldText(c, fmt, o)
  {
    assert [c] == "m" <==> c == 'm';
    assert [c] == "p" <==> c == 'p';
    assert [c] == "r" <==> c == 'r';
    assert [c] == "c" <==> c == 'c';
    assert [c] == "t" <==> c == 't';
    assert [c] == "n" <==> c == 'n';
    assert [c] == "d" <==> c == 'd';
    assert [c] == "f" <==> c == 'f';
    assert [c] == "l" <==> c == 'l';
    assert [c] == "T" <==> c == 'T';
    assert [c] == "F" <==> c == 'F';
    assert [c] == "N" <==> c == 'N';
  }

  /** The text of a directive with a one-letter name, with or without braces, known or not. */
  lemma LetterText(c: char, fmt: Option<string>, o: Occasion)
    requires ('a' <= c <= 'z' || 'A' <= c <= 'Z') && '}' !in BraceText(fmt)
    ensures Render(Compile(PrintToken(Directive([c], fmt))), o) == FieldText(c, BraceText(fmt), o)
  {
    DirectiveAlone([c], fmt, o);
    OneLetter(c, BraceText(fmt), o);
  }

  lemma UnknownItem(name: string, fmt: string, o: Occasion)
    requires name !in NAMES
    ensures RenderItem(ItemOf(Named(name, fmt)), o) == "<<error_format %" + name + ">>"
  {
    assert Lookup(name, fmt) == None;
  }

  lemma LettersAreName(name: string)
    requires forall c <- name :: 'a' <= c <= 'z' || 'A' <= c <= 'Z' || c == '}'
    ensures AllName(name)
  {
    assert forall k :: 0 <= k < |name| ==> name[k] in name;
  }

  /** A directive with any name that is not in the table writes a notice with its name. */
  lemma UnknownName(name: string, fmt: Option<string>, o: Occasion)
    requires forall c <- name :: 'a' <= c <= 'z' || 'A' <= c <= 'Z' || c == '}'
    requires name !in NAMES && '}' !in BraceText(fmt)
    ensures Render(Compile(PrintToken(Directive(name, fmt))), o) == "<<error_format %" + name + ">>"
  {
    LettersAreName(name);
    DirectiveAlone(name, fmt, o);
    UnknownItem(name, BraceText(fmt), o);
  }

  /**
   Formatting is compositional: joining error-free patterns joins the formatted texts, for every event, even
   where literal text merges across the join. It is enough that the second pattern starts with `%`.
   */
  lemma FormatJoins(a: string, b: string, o: Occasion)
    requires !HasError(a) && !HasError(b) && Joinable(Lex(a), b)
    ensures !HasError(a + b)
    ensures Render(Compile(a + b), o) == Render(Compile(a), o) + Render(Compile(b), o)
  {
    LexJoinIff(a, b);
    FormatWritesTokens(a, o);
    FormatWritesTokens(b, o);
    FormatWritesTokens(a + b, o);
    RenderTokensConcat(Lex(a), Lex(b), o);
  }

  lemma LexAlone(name: string)
    requires AllName(name)
    ensures Lex("%" + name) == [Directive(name, None)]
  {
    NextPlain(name, "");
    assert "%" + name + "" == "%" + name;
    LexNext("%" + name, Directive(name, None), "");
  }

  lemma AloneIsKnown(name: string)
    requires AllName(name)
    ensures HasError("%" + name) <==> name !in NAMES
  {
    LexAlone(name);
    assert Terminated([Directive(name, None)]);
    assert [Directive(name, None)][0].name == name;
  }

  lemma LetterAlone(c: char)
    requires c != '%'
    ensures !HasError([c])
  {
    LexChar([c], c, "");
    assert Lex([c]) == [Char(c)];
  }

  /** `%m` followed by the literal `m` reads as the unknown name `mm`. */
  lemma JoinCanBreak()
    ensures !HasError("%m") && !HasError("m") && HasError("%m" + "m")
  {
    assert "%" + "m" == "%m" && "%" + "mm" == "%m" + "m" && AllName("mm");
    AloneIsKnown("m");
    LetterAlone('m');
    AloneIsKnown("mm");
    NamesAreLetters();
  }

  predicate SameText(a: string, b: string, o: Occasion) {
    Render(Compile(a + b), o) == Render(Compile(a), o) + Render(Compile(b), o)
  }

  /** An occasion on which every date is empty, so that no item depends on the format in its braces. */
  const PLAIN: Occasion := Occasion("", UNKNOW, Event("", "", "", "", "", "", "", 0), (fmt, time) => "")

  lemma FormatDoesNotShow(name: string, fmt: Option<string>)
    ensures RenderToken(Directive(name, fmt), PLAIN) == RenderToken(Directive(name, None), PLAIN)
  {
  }

  lemma RenderOneToken(d: Token, o: Occasion)
    ensures RenderTokens([d], o) == RenderToken(d, o)
  {
    assert [d][1..] == [];
  }

  /** A token list behind a directive, behind others. */
  lemma RenderBehind(front: seq<Token>, d: Token, rest: seq<Token>, o: Occasion)
    ensures RenderTokens(front + [d] + rest, o)
         == RenderTokens(front, o) + RenderToken(d, o) + RenderTokens(rest, o)
  {
    RenderTokensConcat(front + [d], rest, o);
    RenderTokensConcat(front, [d], o);
    RenderOneToken(d, o);
  }

  /** The literal `{` at the front of an error-free pattern is one character more than what follows its brace. */
  lemma BracedTextIsLonger(b: string, e: nat)
    requires !HasError(b) && 0 < e < |b| && b[0] == '{' && b[e] == '}' && '}' !in b[..e]
    ensures !HasError(b[e + 1..]) && |Render(Compile(b), PLAIN)| > |RenderTokens(Lex(b[e + 1..]), PLAIN)|
  {
    TailIsErrorFree(b);
    assert b[1..][..e - 1] == b[..e][1..] && b[1..][e - 1 + 1..] == b[e + 1..];
    var front := TailAfterBrace(b[1..], e - 1);
    FormatWritesTokens(b, PLAIN);
    LexNext(b, Char('{'), b[1..]);
    RenderTokensConcat(front, Lex(b[e + 1..]), PLAIN);
    assert Lex(b)[1..] == Lex(b[1..]);
    PartIsErrorFree(b[1..], front, b[e + 1..]);
  }

  lemma PartIsErrorFree(p: string, front: seq<Token>, rest: string)
    requires !HasError(p) && Lex(p) == front + Lex(rest)
    ensures !HasError(rest)
  {
    assert forall k :: 0 <= k < |Lex(rest)| ==> Lex(rest)[k] == Lex(p)[|front| + k];
    assert forall t <- Lex(rest) :: t in Lex(p);
  }

  /** A plain directive and a brace that closes behind it: the text comes out shorter than the parts. */
  lemma BracedJoinDiffers(front: seq<Token>, name: string, a: string, b: string, e: nat)
    requires !HasError(a) && !HasError(b) && Lex(a) == front + [Directive(name, None)]
    requires 0 < e < |b| && b[0] == '{' && b[e] == '}' && '}' !in b[..e]
    requires !HasError(a + b) && Lex(a + b) == front + [Directive(name, Some(b[1..e]))] + Lex(b[e + 1..])
    ensures !SameText(a, b, PLAIN)
  {
    FormatWritesTokens(a, PLAIN);
    FormatWritesTokens(a + b, PLAIN);
    RenderBehind(front, Directive(name, Some(b[1..e])), Lex(b[e + 1..]), PLAIN);
    RenderBehind(front, Directive(name, None), [], PLAIN);
    assert Lex(a) == front + [Directive(name, None)] + [];
    FormatDoesNotShow(name, Some(b[1..e]));
    BracedTextIsLonger(b, e);
  }

  lemma LastIsKnown(a: string, front: seq<Token>, name: string)
    requires !HasError(a) && Lex(a) == front + [Directive(name, None)]
    ensures name in NAMES && AllName(name)
  {
    assert Lex(a)[|front|] == Directive(name, None);
    NamesAreLetters();
  }

  /** What `a + b` reads as if `a` ends in a plain directive. */
  lemma LexBehind(a: string, front: seq<Token>, name: string, b: string)
    requires !HasError(a) && Lex(a) == front + [Directive(name, None)]
    ensures Lex(a + b) == front + Lex("%" + name + b)
  {
    LexCanonical(a);
    LexFront(front, Directive(name, None), "%" + name + b);
    PrintLex(a);
    TextOfLast(front, name, b);
  }

  lemma TextOfLast(front: seq<Token>, name: string, b: string)
    ensures Print(front + [Directive(name, None)]) + b == Print(front) + ("%" + name + b)
  {
    PrintConcat(front, [Directive(name, None)]);
    PrintCons(Directive(name, None), []);
    Associative(Print(front), "%" + name, b);
  }

  lemma {:induction false} FirstBrace(b: string) returns (e: nat)
    requires '}' in b
    ensures e < |b| && b[e] == '}' && '}' !in b[..e]
  {
    if b[0] == '}' {
      e := 0;
    } else {
      e := FirstBrace(b[1..]);
      e := e + 1;
      assert b[..e] == [b[0]] + b[1..][..e - 1];
    }
  }

  lemma BracedJoin(front: seq<Token>, name: string, b: string, e: nat)
    requires AllName(name) && 0 < e < |b| && b[0] == '{' && b[e] == '}' && '}' !in b[..e]
    ensures front + Lex("%" + name + b) == front + [Directive(name, Some(b[1..e]))] + Lex(b[e + 1..])
  {
    var f, rest := b[1..e], b[e + 1..];
    assert b == "{" + (f + ("}" + rest));
    Associative("%", name, b);
    NextBraced(name, f, rest);
    LexNext("%" + name + b, Directive(name, Some(f)), rest);
    Associative(front, [Directive(name, Some(f))], Lex(rest));
  }

  /** Where patterns cannot be joined, the result has an error or writes another text on a plain occasion. */
  lemma UnjoinableDiffers(a: string, b: string)
    requires !HasError(a) && !HasError(b) && !Joinable(Lex(a), b)
    ensures HasError(a + b) || !SameText(a, b, PLAIN)
  {
    var last := |Lex(a)| - 1;
    var front, name := Lex(a)[..last], Lex(a)[last].name;
    assert Lex(a) == front + [Directive(name, None)];
    LastIsKnown(a, front, name);
    LexBehind(a, front, name, b);
    NamesAreLetters();
    if b[0] == '{' && '}' in b {
      var e := FirstBrace(b);
      BracedJoin(front, name, b, e);
      if !HasError(a + b) {
        BracedJoinDiffers(front, name, a, b, e);
      }
    } else {
      UnreadableJoin(front, name, a, b);
    }
  }

  lemma UnreadableJoin(front: seq<Token>, name: string, a: string, b: string)
    requires name in NAMES && AllName(name) && Lex(a + b) == front + Lex("%" + name + b)
    requires b != "" && (NameChar(b[0]) || (b[0] == '{' && '}' !in b))
    ensures HasError(a + b)
  {
    NamesAreLetters();
    assert Lex(a + b)[|front|] == Next("%" + name + b).0;
    if NameChar(b[0]) {
      NameGrows(name, b);
    } else {
      BraceStaysOpen(name, b);
    }
    ErrorAt(a + b, |front|);
  }

  /**
   The exact condition: error-free patterns can be joined without an error and without changing what they write,
   for every event, exactly if the second cannot extend a plain directive at the end of the first.
   */
  lemma FormatJoinsIff(a: string, b: string)
    requires !HasError(a) && !HasError(b)
    ensures (!HasError(a + b) && forall o :: SameText(a, b, o)) <==> Joinable(Lex(a), b)
  {
    if Joinable(Lex(a), b) {
      forall o ensures !HasError(a + b) && SameText(a, b, o) {
        FormatJoins(a, b, o);
      }
      LexJoinIff(a, b);
    } else {
      UnjoinableDiffers(a, b);
    }
  }

  // ---- The scanner's indices ------------------------------------------------------------------------------

  /** From the `%` at position `i` on, only name characters stand before position `n`. */
  predicate InName(p: string, i: nat, n: nat) {
    i < n <= |p| && forall k :: i < k < n ==> NameChar(p[k])
  }

  /** A brace was opened at `open` behind the name, and nothing closes it before position `n`. */
  predicate InBrace(p: string, i: nat, open: nat, n: nat) {
    open < n <= |p| && InName(p, i, open) && p[open] == '{' && forall k :: open < k < n ==> p[k] != '}'
  }

  /** The directive at `i` has that name and brace text, and reading continues at `n`. */
  predicate ReadsAs(p: string, i: nat, name: string, fmt: string, n: nat)
    requires i < |p|
  {
    && n <= |p| && Next(p[i..]).1 == p[n..] && Next(p[i..]).0.Directive?
    && Next(p[i..]).0.name == name && BraceText(Next(p[i..]).0.fmt) == fmt
  }

  /** What the inner loop has found out when it ends: a directive, or (with status 1) an open brace. */
  predicate Scanned(p: string, i: nat, n: nat, fmtStatus: int, name: string, fmt: string)
    requires i < |p|
  {
    if fmtStatus == 0 then i < n && ReadsAs(p, i, name, fmt, n)
    else fmtStatus == 1 && Next(p[i..]) == (Unterminated, p[i + 1..])
  }

  lemma NameOf(p: string, i: nat, n: nat)
    requires InName(p, i, n) && (n < |p| ==> !NameChar(p[n]))
    ensures AllName(p[i + 1..n]) && 1 + NameLength(p[i..][1..]) == n - i
  {
    assert p[i..][1..] == p[i + 1..] && p[i + 1..][..n - i - 1] == p[i + 1..n];
    NameLengthOf(p[i + 1..], n - i - 1);
  }

  /** Position `n` ends a directive with no braces that starts at `i`. */
  lemma PlainEndsAt(p: string, i: nat, n: nat)
    requires InName(p, i, n) && !Literal(p[i..]) && (n < |p| ==> !NameChar(p[n]) && p[n] != '{')
    ensures Scanned(p, i, n, 0, p[i + 1..n], "")
  {
    NameOf(p, i, n);
    assert n < |p| ==> p[i..][n - i] == p[n];
    assert p[i..][1..n - i] == p[i + 1..n] && p[i..][n - i..] == p[n..];
  }

  lemma BraceSlices(p: string, i: nat, open: nat, close: nat)
    requires i < open < close < |p| && p[i] == '%' && p[open] == '{' && p[close] == '}'
    ensures BracedAt(p[i..], p[i + 1..open], p[open + 1..close], p[close + 1..])
  {
  }

  lemma BraceEndsAt(p: string, i: nat, open: nat, close: nat)
    requires InBrace(p, i, open, close) && close < |p| && p[i] == '%' && p[close] == '}'
    ensures Scanned(p, i, close + 1, 0, p[i + 1..open], p[open + 1..close])
  {
    NameOf(p, i, open);
    BraceSlices(p, i, open, close);
    NextBracedAt(p[i..], p[i + 1..open], p[open + 1..close], p[close + 1..]);
  }

  lemma BraceNeverEnds(p: string, i: nat, open: nat, name: string)
    requires InBrace(p, i, open, |p|) && !Literal(p[i..])
    ensures Scanned(p, i, |p|, 1, name, "")
  {
    NameOf(p, i, open);
    assert p[i..][open - i] == p[open] && p[i..][open - i + 1..] == p[open + 1..];
    FindNothing(p[open + 1..]);
    assert p[i..][1..] == p[i + 1..];
  }

  lemma ScanLiteral(p: string, i: nat, nstr: string)
    requires i < |p| && Literal(p[i..])
    ensures Group(Lex(p[i..]), nstr) == Group(Lex(p[i + 1..]), nstr + [p[i]])
    ensures Terminated(Lex(p[i..])) <==> Terminated(Lex(p[i + 1..]))
  {
    assert p[i..][1..] == p[i + 1..];
    LexUnfolds(p[i..]);
    GroupLiteral(p[i], Lex(p[i + 1..]), nstr);
  }

  lemma ScanNamed(p: string, i: nat, n: nat, name: string, fmt: string, vec: seq<Entry>, nstr: string)
    requires i < |p| && ReadsAs(p, i, name, fmt, n)
    ensures vec + Group(Lex(p[i..]), nstr)
         == (if nstr == "" then vec else vec + [Literally(nstr)]) + [Named(name, fmt)] + Group(Lex(p[n..]), "")
    ensures Terminated(Lex(p[i..])) <==> Terminated(Lex(p[n..]))
  {
    LexUnfolds(p[i..]);
    GroupDirective(Next(p[i..]).0, Lex(p[n..]), nstr);
    var more := Flushed(nstr) + [Named(name, fmt)];
    Associative(vec, more, Group(Lex(p[n..]), ""));
    assert vec + more == (if nstr == "" then vec else vec + [Literally(nstr)]) + [Named(name, fmt)];
  }

  lemma ScanUnterminated(p: string, i: nat, vec: seq<Entry>, nstr: string)
    requires i < |p| && Next(p[i..]) == (Unterminated, p[i + 1..])
    ensures vec + Group(Lex(p[i..]), nstr) == vec + [Literally("<<pattern_error>>")] + Group(Lex(p[i + 1..]), nstr)
    ensures !Terminated(Lex(p[i..]))
  {
    LexUnfolds(p[i..]);
    GroupUnterminated(Lex(p[i + 1..]), nstr);
    Associative(vec, [Literally("<<pattern_error>>")], Group(Lex(p[i + 1..]), nstr));
  }

  class LogFormatter {
    const pattern: string
    var items: seq<FormatItem>
    var error: bool

    constructor (pattern: string)
      ensures this.pattern == pattern && items == Compile(pattern) && error == HasError(pattern)
    {
      this.pattern := pattern;
      items, error := [], false;
      new;
      Init();
    }

    predicate IsError()
      reads this
    {
      error
    }

    /** The inner loop of the scanner: reads the directive whose `%` is at position `i`. */
    method ScanDirective(i: nat) returns (n: nat, fmtStatus: int, str: string, fmt: string)
      requires i < |pattern| && !Literal(pattern[i..])
      ensures Scanned(pattern, i, n, fmtStatus, str, fmt)
    {
      n := i + 1;
      fmtStatus := 0;
      var fmtBegin: nat := 0;
      str, fmt := "", "";
      ghost var done := false;
      while n < |pattern|
        invariant !done && i < n <= |pattern| && fmt == "" && (fmtStatus == 0 || fmtStatus == 1)
        invariant fmtStatus == 0 ==> InName(pattern, i, n) && str == if n == |pattern| then pattern[i + 1..n] else ""
        invariant fmtStatus == 1 ==>
          InBrace(pattern, i, fmtBegin, n) && (n < |pattern| ==> str == pattern[i + 1..fmtBegin])
        decreases |pattern| - n
      {
        if fmtStatus == 0 && !IsAlpha(pattern[n]) && pattern[n] != '{' && pattern[n] != '}' {
          str := pattern[i + 1..n];
          PlainEndsAt(pattern, i, n);
          done := true;
          break;
        }
        if fmtStatus == 0 {
          if pattern[n] == '{' {
            str := pattern[i + 1..n];
            fmtStatus := 1;
            fmtBegin := n;
            n := n + 1;
            continue;
          }
        } else if fmtStatus == 1 {
          if pattern[n] == '}' {
            fmt := pattern[fmtBegin + 1..n];
            fmtStatus := 0;
            BraceEndsAt(pattern, i, fmtBegin, n);
            n := n + 1;
            done := true;
            break;
          }
        }
        n := n + 1;
        if n == |pattern| {
          if str == "" {
            str := pattern[i + 1..];
          }
        }
      }
      if !done {
        if fmtStatus == 0 {
          PlainEndsAt(pattern, i, n);
        } else {
          BraceNeverEnds(pattern, i, fmtBegin, str);
        }
      }
    }

    /** The outer loop: the list of entries, and whether a brace was left open. */
    method Scan() returns (vec: seq<Entry>)
      requires !error
      modifies this`error
      ensures vec == Group(Lex(pattern), "")
      ensures error == !Terminated(Lex(pattern))
    {
      vec := [];
      var nstr := "";
      var i: nat := 0;
      assert pattern[0..] == pattern;
      while i < |pattern|
        invariant i <= |pattern|
        invariant vec + Group(Lex(pattern[i..]), nstr) == Group(Lex(pattern), "")
        invariant error || !Terminated(Lex(pattern[i..])) <==> !Terminated(Lex(pattern))
      {
        if pattern[i] != '%' {
          ScanLiteral(pattern, i, nstr);
          nstr := nstr + [pattern[i]];
          i := i + 1;
          continue;
        }
        if i + 1 < |pattern| {
          if pattern[i + 1] == '%' {
            ScanLiteral(pattern, i, nstr);
            nstr := nstr + ['%'];
            i := i + 1;
            continue;
          }
        }
        var n, fmtStatus, str, fmt := ScanDirective(i);
        if fmtStatus == 0 {
          ScanNamed(pattern, i, n, str, fmt, vec, nstr);
          if nstr != "" {
            vec := vec + [Literally(nstr)];
          }
          vec := vec + [Named(str, fmt)];
          nstr := "";
          i := n;
        } else {
          ScanUnterminated(pattern, i, vec, nstr);
          error := true;
          vec := vec + [Literally("<<pattern_error>>")];
          i := i + 1;
        }
      }
      assert pattern[i..] == "";
      if nstr != "" {
        vec := vec + [Literally(nstr)];
      }
    }

    /** The last loop: looks every directive up in the table. */
    method Resolve(vec: seq<Entry>)
      requires items == []
      modifies this
      ensures items == Items(vec) && error == (old(error) || !KnownEntries(vec))
    {
      for k := 0 to |vec|
        invariant items == Items(vec[..k])
        invariant error == (old(error) || !KnownEntries(vec[..k]))
      {
        OneMore(vec, k);
        match vec[k] {
          case Literally(text) =>
            items := items + [Text(text)];
          case Named(name, fmt) =>
            var it := Lookup(name, fmt);
            if it == None {
              items := items + [Text("<<error_format %" + name + ">>")];
              error := true;
            } else {
              items := items + [it.value];
            }
        }
      }
      assert vec[..|vec|] == vec;
    }

    /** `init`: scans the pattern, then looks every directive up. */
    method Init()
      requires items == [] && !error
      modifies this
      ensures items == Compile(pattern) && error == HasError(pattern)
    {
      var vec := Scan();
      GroupKnown(Lex(pattern), "");
      Resolve(vec);
    }

    /** `format`: the items write one after the other. */
    method Format(o: Occasion) returns (text: string)
      ensures text == Render(items, o)
    {
      text := "";
      for k := 0 to |items|
        invariant text == Render(items[..k], o)
      {
        text := text + RenderItem(items[k], o);
        assert items[..k + 1] == items[..k] + [items[k]] && [items[k]][1..] == [];
        RenderConcat(items[..k], [items[k]], o);
      }
      assert items[..|items|] == items;
    }
  }

  lemma OneMore(vec: seq<Entry>, k: nat)
    requires k < |vec|
    ensures Items(vec[..k + 1]) == Items(vec[..k]) + [ItemOf(vec[k])]
    ensures KnownEntries(vec[..k + 1]) <==> KnownEntries(vec[..k]) && KnownEntry(vec[k])
  {
    assert vec[..k + 1] == vec[..k] + [vec[k]];
    ItemsConcat(vec[..k], [vec[k]]);
    KnownConcat(vec[..k], [vec[k]]);
    assert KnownEntries([vec[k]]) <==> KnownEntry([vec[k]][0]);
  }

  lemma LexUnfolds(q: string)
    requires q != ""
    ensures Lex(q) == [Next(q).0] + Lex(Next(q).1)
    ensures Terminated(Lex(q)) <==> !Next(q).0.Unterminated? && Terminated(Lex(Next(q).1))
  {
    TerminatedCons(Next(q).0, Lex(Next(q).1));
  }

  lemma TerminatedCons(t: Token, rest: seq<Token>)
    ensures Terminated([t] + rest) <==> !t.Unterminated? && Terminated(rest)
  {
    assert ([t] + rest)[0] == t && forall u <- rest :: u in [t] + rest;
  }

  lemma GroupLiteral(c: char, rest: seq<Token>, pending: string)
    ensures Group([Char(c)] + rest, pending) == Group(rest, pending + [c])
  {
    assert ([Char(c)] + rest)[1..] == rest;
  }

  lemma GroupDirective(t: Token, rest: seq<Token>, pending: string)
    requires t.Directive?
    ensures Group([t] + rest, pending) == Flushed(pending) + [Named(t.name, BraceText(t.fmt))] + Group(rest, "")
  {
    assert ([t] + rest)[1..] == rest;
  }

  lemma GroupUnterminated(rest: seq<Token>, pending: string)
    ensures Group([Unterminated] + rest, pending) == [Literally("<<pattern_error>>")] + Group(rest, pending)
  {
    assert ([Unterminated] + rest)[1..] == rest;
  }
}
