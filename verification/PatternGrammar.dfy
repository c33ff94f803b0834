/**
 The log pattern language that `LogFormatter::init` reads (src/_log/log.cpp:334-453): its tokens, the recursive
 tokenizer, and the printer. The language has a few surprises, kept as they are: `%%` stands for one `%` and
 leaves the second one to be read again, `}` may be part of a name, and a brace that is never closed is skipped
 over with its `%` only.
 */
module PatternGrammar {
  import opened Options
  import opened Sequences

  datatype Token =
    | Char(c: char)                                      // literal text
    | Directive(name: string, fmt: Option<string>)       // %name or %name{fmt}
    | Unterminated                                       // the % of a directive whose brace is not closed

  predicate IsAlpha(c: char) { 'a' <= c <= 'z' || 'A' <= c <= 'Z' }

  predicate NameChar(c: char) { IsAlpha(c) || c == '}' }

  predicate AllName(s: string) { forall k :: 0 <= k < |s| ==> NameChar(s[k]) }

  /** The length of the longest prefix of name characters. */
  function NameLength(s: string): (n: nat)
    ensures n <= |s| && AllName(s[..n]) && (n < |s| ==> !NameChar(s[n]))
  {
    if s != [] && NameChar(s[0]) then
      var n := 1 + NameLength(s[1..]);
      assert forall k :: 1 <= k < n ==> s[k] == s[1..][k - 1];
      n
    else 0
  }

  /** The position of the first closing brace, or the length if there is none. */
  function FindClose(s: string): (n: nat)
    ensures n <= |s| && '}' !in s[..n] && (n < |s| ==> s[n] == '}')
  {
    if s == [] || s[0] == '}' then 0
    else
      var n := 1 + FindClose(s[1..]);
      assert s[..n] == [s[0]] + s[1..][..n - 1];
      n
  }

  /** The first character is literal text: it is no `%`, or another `%` follows. */
  predicate Literal(p: string)
    requires p != []
  {
    p[0] != '%' || (1 < |p| && p[1] == '%')
  }

  /** The first token of a pattern and what is left to read. */
  function Next(p: string): (r: (Token, string))
    requires p != ""
    ensures |r.1| < |p|
  {
    if Literal(p) then (Char(p[0]), p[1..])
    else
      var n := 1 + NameLength(p[1..]);
      if n < |p| && p[n] == '{' then
        var close := n + 1 + FindClose(p[n + 1..]);
        if close == |p| then (Unterminated, p[1..])
        else (Directive(p[1..n], Some(p[n + 1..close])), p[close + 1..])
      else (Directive(p[1..n], None), p[n..])
  }

  function Lex(p: string): (ts: seq<Token>)
    decreases |p|
  {
    if p == "" then [] else [Next(p).0] + Lex(Next(p).1)
  }

  function PrintToken(t: Token): string {
    match t
    case Char(c) => [c]
    case Directive(name, None) => "%" + name
    case Directive(name, Some(fmt)) => "%" + name + "{" + fmt + "}"
    case Unterminated => "%"
  }

  function Print(ts: seq<Token>): string {
    if ts == [] then "" else PrintToken(ts[0]) + Print(ts[1..])
  }

  predicate BracedAt(p: string, name: string, fmt: string, rest: string) {
    && |p| == |name| + |fmt| + |rest| + 3
    && p[0] == '%' && p[1..1 + |name|] == name && p[1 + |name|] == '{'
    && p[2 + |name|..2 + |name| + |fmt|] == fmt && p[2 + |name| + |fmt|] == '}'
    && p[3 + |name| + |fmt|..] == rest
  }

  /** `p` is the text of token `t` followed by `rest`, index by index. */
  predicate Spells(p: string, t: Token, rest: string) {
    match t
    case Char(c) => p != "" && p[0] == c && p[1..] == rest
    case Unterminated => p != "" && p[0] == '%' && p[1..] == rest
    case Directive(name, None) =>
      |p| == 1 + |name| + |rest| && p[0] == '%' && p[1..1 + |name|] == name && p[1 + |name|..] == rest
    case Directive(name, Some(fmt)) => BracedAt(p, name, fmt, rest)
  }

  lemma SpellsPrints(p: string, t: Token, rest: string)
    requires Spells(p, t, rest)
    ensures p == PrintToken(t) + rest
  {
    match t
    case Char(_) =>
    case Unterminated =>
    case Directive(name, None) =>
      assert p[..1 + |name|] == "%" + name;
      assert p == p[..1 + |name|] + p[1 + |name|..];
    case Directive(name, Some(fmt)) =>
      var n, close := 1 + |name|, 2 + |name| + |fmt|;
      assert p[..n] == "%" + name;
      assert p[..n + 1] == p[..n] + "{";
      assert p[..close] == p[..n + 1] + fmt;
      assert p[..close + 1] == p[..close] + "}";
      assert p == p[..close + 1] + rest;
  }

  lemma NextSpells(p: string)
    requires p != ""
    ensures Spells(p, Next(p).0, Next(p).1)
  {
    if !Literal(p) {
      var n := 1 + NameLength(p[1..]);
      if n < |p| && p[n] == '{' {
        var close := n + 1 + FindClose(p[n + 1..]);
        if close < |p| {
          assert p[n + 1..][close - n - 1] == p[close];
        }
      }
    }
  }

  /** Printing what was read gives back the pattern, with or without errors. */
  lemma {:induction false} PrintLex(p: string)
    ensures Print(Lex(p)) == p
    decreases |p|
  {
    if p != "" {
      NextSpells(p);
      SpellsPrints(p, Next(p).0, Next(p).1);
      PrintLex(Next(p).1);
      assert Lex(p)[0] == Next(p).0 && Lex(p)[1..] == Lex(Next(p).1);
    }
  }

  function Percents(k: nat): string { seq(k, i => '%') }

  function PercentChars(k: nat): seq<Token> { seq(k, i => Char('%')) }

  lemma LexChar(p: string, c: char, rest: string)
    requires p == [c] + rest && Literal(p)
    ensures Lex(p) == [Char(c)] + Lex(rest)
  {
    assert p[1..] == rest;
  }

  lemma OnePercentMore(k: nat, rest: string, ts: seq<Token>)
    requires k > 0
    ensures Percents(k) + ("%" + rest) == ['%'] + (Percents(k - 1) + ("%" + rest))
    ensures PercentChars(k) + ts == [Char('%')] + (PercentChars(k - 1) + ts)
    ensures Literal(['%'] + (Percents(k - 1) + ("%" + rest)))
  {
    assert Percents(k) == ['%'] + Percents(k - 1) && PercentChars(k) == [Char('%')] + PercentChars(k - 1);
  }

  /** A run of percent signs is literal up to its last one, which begins a directive. */
  lemma {:induction false} PercentRun(k: nat, rest: string)
    ensures Lex(Percents(k) + ("%" + rest)) == PercentChars(k) + Lex("%" + rest)
  {
    if k == 0 {
      assert Percents(0) + ("%" + rest) == "%" + rest;
    } else {
      OnePercentMore(k, rest, Lex("%" + rest));
      LexChar(['%'] + (Percents(k - 1) + ("%" + rest)), '%', Percents(k - 1) + ("%" + rest));
      PercentRun(k - 1, rest);
    }
  }

  // ---- Which token lists are the result of reading ------------------------------------------------------

  predicate StartsWithPercent(ts: seq<Token>) {
    ts != [] && (ts[0] == Char('%') || ts[0].Directive? || ts[0].Unterminated?)
  }

  /** A token can be followed by the tokens `rest` without being read differently. */
  predicate Fits(t: Token, rest: seq<Token>) {
    match t
    case Char(c) => c == '%' ==> StartsWithPercent(rest)
    case Directive(name, None) =>
      && AllName(name)
      && (name == "" ==> !StartsWithPercent(rest))
      && (rest != [] && rest[0].Char? ==> !NameChar(rest[0].c) && rest[0].c != '{')
    case Directive(name, Some(fmt)) => AllName(name) && '}' !in fmt
    case Unterminated => false
  }

  predicate Canonical(ts: seq<Token>) {
    ts != [] ==> Fits(ts[0], ts[1..]) && Canonical(ts[1..])
  }

  lemma PrintStart(ts: seq<Token>)
    ensures Print(ts) == "" <==> ts == []
    ensures ts != [] ==> Print(ts)[0] == (if ts[0].Char? then ts[0].c else '%')
  {
  }

  lemma {:induction false} NameLengthOf(s: string, n: nat)
    requires n <= |s| && AllName(s[..n]) && (n < |s| ==> !NameChar(s[n]))
    ensures NameLength(s) == n
  {
    if n != 0 {
      assert s[..n][0] == s[0];
      assert s[1..][..n - 1] == s[..n][1..];
      NameLengthOf(s[1..], n - 1);
    }
  }

  lemma {:induction false} FindCloseOf(s: string, n: nat)
    requires n < |s| && '}' !in s[..n] && s[n] == '}'
    ensures FindClose(s) == n
  {
    if n != 0 {
      assert s[..n][0] == s[0];
      assert s[..n][1..] == s[1..][..n - 1];
      FindCloseOf(s[1..], n - 1);
    }
  }

  lemma NextPlain(name: string, rest: string)
    requires AllName(name) && (name == "" ==> rest == "" || rest[0] != '%')
    requires rest != "" ==> !NameChar(rest[0]) && rest[0] != '{'
    ensures Next("%" + name + rest) == (Directive(name, None), rest)
  {
    var p := "%" + name + rest;
    assert p[1..] == name + rest && (name + rest)[..|name|] == name;
    NameLengthOf(p[1..], |name|);
    assert p[1..1 + |name|] == name && p[1 + |name|..] == rest;
    if name != "" {
      assert p[1] == name[0] && NameChar(name[0]);
    } else if rest != "" {
      assert p[1] == rest[0];
    }
  }

  lemma NextBracedAt(p: string, name: string, fmt: string, rest: string)
    requires AllName(name) && '}' !in fmt && BracedAt(p, name, fmt, rest)
    ensures Next(p) == (Directive(name, Some(fmt)), rest)
  {
    var n, close := 1 + |name|, 2 + |name| + |fmt|;
    assert p[1..][..n - 1] == name && p[1..][n - 1] == p[n];
    NameLengthOf(p[1..], n - 1);
    assert p[n + 1..][..|fmt|] == fmt && p[n + 1..][|fmt|] == p[close];
    FindCloseOf(p[n + 1..], |fmt|);
    assert n > 1 ==> p[1] == p[1..n][0] && NameChar(p[1]);
  }

  lemma BracedParts(name: string, fmt: string, rest: string)
    ensures BracedAt("%" + (name + ("{" + (fmt + ("}" + rest)))), name, fmt, rest)
  {
    var tail := fmt + ("}" + rest);
    var p := "%" + (name + ("{" + tail));
    var n := 1 + |name|;
    assert p[1..n] == name && p[n + 1..] == tail;
    assert p[n + 1..n + 1 + |fmt|] == tail[..|fmt|] == fmt;
    assert p[n + 2 + |fmt|..] == tail[|fmt| + 1..] == rest;
  }

  /** Reading a directive with a format, given as its parts after the `%`. */
  lemma NextBraced(name: string, fmt: string, rest: string)
    requires AllName(name) && '}' !in fmt
    ensures Next("%" + (name + ("{" + (fmt + ("}" + rest))))) == (Directive(name, Some(fmt)), rest)
  {
    BracedParts(name, fmt, rest);
    NextBracedAt("%" + (name + ("{" + (fmt + ("}" + rest)))), name, fmt, rest);
  }

  lemma Regroup(name: string, fmt: string, rest: string)
    ensures "%" + name + "{" + fmt + "}" + rest == "%" + (name + ("{" + (fmt + ("}" + rest))))
  {
    Associative("%" + name + "{" + fmt, "}", rest);
    Associative("%" + name + "{", fmt, "}" + rest);
    Associative("%" + name, "{", fmt + ("}" + rest));
    Associative("%", name, "{" + (fmt + ("}" + rest)));
  }

  /** `Fits` as a condition on the text that follows. */
  predicate FitsText(t: Token, text: string) {
    match t
    case Char(c) => c == '%' ==> text != "" && text[0] == '%'
    case Directive(name, None) =>
      && AllName(name)
      && (text != "" ==> !NameChar(text[0]) && text[0] != '{' && (name == "" ==> text[0] != '%'))
    case Directive(name, Some(fmt)) => AllName(name) && '}' !in fmt
    case Unterminated => false
  }

  lemma NextOfText(t: Token, text: string)
    requires FitsText(t, text)
    ensures Next(PrintToken(t) + text) == (t, text)
  {
    match t
    case Char(c) =>
      assert ([c] + text)[1..] == text;
    case Directive(name, None) => NextPlain(name, text);
    case Directive(name, Some(fmt)) =>
      NextBraced(name, fmt, text);
      Regroup(name, fmt, text);
  }

  /** Reading what was printed gives back the tokens. */
  lemma {:induction false} LexPrint(ts: seq<Token>)
    requires Canonical(ts)
    ensures Lex(Print(ts)) == ts
  {
    if ts != [] {
      LexPrint(ts[1..]);
      FitsPrinted(ts[0], ts[1..]);
      NextOfText(ts[0], Print(ts[1..]));
      LexNext(Print(ts), ts[0], Print(ts[1..]));
    }
  }

  lemma FitsPrinted(t: Token, rest: seq<Token>)
    requires Fits(t, rest)
    ensures FitsText(t, Print(rest))
  {
    PrintStart(rest);
  }

  lemma LexNext(p: string, t: Token, rest: string)
    requires p != "" && Next(p) == (t, rest)
    ensures Lex(p) == [t] + Lex(rest)
  {
  }

  // ---- The four ways of reading, character by character ---------------------------------------------------

  /** A character that begins no directive stands for itself; so does `%` before another `%`. */
  lemma ReadsLiteral(c: char, rest: string)
    requires c == '%' ==> rest != "" && rest[0] == '%'
    ensures Lex([c] + rest) == [Char(c)] + Lex(rest)
  {
    LexChar([c] + rest, c, rest);
  }

  /** A name goes as far as there are ASCII letters and closing braces, unless an opening brace follows. */
  lemma ReadsName(name: string, rest: string)
    requires forall c <- name :: 'a' <= c <= 'z' || 'A' <= c <= 'Z' || c == '}'
    requires rest != "" ==> !('a' <= rest[0] <= 'z') && !('A' <= rest[0] <= 'Z') && rest[0] != '}' && rest[0] != '{'
    requires name == "" && rest != "" ==> rest[0] != '%'
    ensures Lex("%" + name + rest) == [Directive(name, None)] + Lex(rest)
  {
    assert forall k :: 0 <= k < |name| ==> name[k] in name;
    NextPlain(name, rest);
    LexNext("%" + name + rest, Directive(name, None), rest);
  }

  /** An opening brace after the name begins a format, which ends at the next closing brace. */
  lemma ReadsFormat(name: string, fmt: string, rest: string)
    requires forall c <- name :: 'a' <= c <= 'z' || 'A' <= c <= 'Z' || c == '}'
    requires '}' !in fmt
    ensures Lex("%" + name + "{" + fmt + "}" + rest) == [Directive(name, Some(fmt))] + Lex(rest)
  {
    assert forall k :: 0 <= k < |name| ==> name[k] in name;
    NextBraced(name, fmt, rest);
    Regroup(name, fmt, rest);
    LexNext("%" + name + "{" + fmt + "}" + rest, Directive(name, Some(fmt)), rest);
  }

  /** Without a closing brace only the `%` is used up, with an error. */
  lemma ReadsOpenBrace(name: string, rest: string)
    requires forall c <- name :: 'a' <= c <= 'z' || 'A' <= c <= 'Z' || c == '}'
    requires '}' !in rest
    ensures Lex("%" + name + "{" + rest) == [Unterminated] + Lex(name + "{" + rest)
    ensures HasError("%" + name + "{" + rest)
  {
    assert forall k :: 0 <= k < |name| ==> name[k] in name;
    var p, n := "%" + name + "{" + rest, 1 + |name|;
    assert p[1..] == name + "{" + rest && p[1..][..|name|] == name && p[n] == '{' && p[n + 1..] == rest;
    NameLengthOf(p[1..], |name|);
    FindNothing(rest);
    assert name != "" ==> p[1] == name[0];
    assert Next(p) == (Unterminated, name + "{" + rest);
    LexNext(p, Unterminated, name + "{" + rest);
    assert Lex(p)[0] == Unterminated;
  }

  predicate Terminated(ts: seq<Token>) { Unterminated !in ts }

  lemma LexStart(p: string)
    ensures Lex(p) == [] <==> p == ""
    ensures StartsWithPercent(Lex(p)) <==> p != "" && p[0] == '%'
    ensures p != "" && Lex(p)[0].Char? ==> Lex(p)[0].c == p[0]
  {
  }

  /** The first token fits before the tokens read after it. */
  lemma NextFits(p: string)
    requires p != "" && !Next(p).0.Unterminated?
    ensures Fits(Next(p).0, Lex(Next(p).1))
  {
    LexStart(Next(p).1);
    if !Literal(p) {
      var n := 1 + NameLength(p[1..]);
      assert p[1..][..n - 1] == p[1..n];
      if n < |p| {
        assert p[1..][n - 1] == p[n] && p[n..][0] == p[n];
        if p[n] == '{' {
          var close := n + 1 + FindClose(p[n + 1..]);
          assert p[n + 1..][..close - n - 1] == p[n + 1..close];
        }
      }
    }
  }

  /** Reading gives a canonical list, unless a brace is not closed. */
  lemma {:induction false} LexCanonical(p: string)
    requires Terminated(Lex(p))
    ensures Canonical(Lex(p))
    decreases |p|
  {
    if p != "" {
      var ts := Lex(p);
      assert ts[0] == Next(p).0 && ts[1..] == Lex(Next(p).1);
      assert Terminated(ts[1..]) by {
        assert forall t <- ts[1..] :: t in ts;
      }
      NextFits(p);
      LexCanonical(Next(p).1);
    }
  }

  // ---- The table of names ---------------------------------------------------------------------------------

  /** The twelve entries of `s_format_items` (log.cpp:417-434). */
  const NAMES: set<string> := {"m", "p", "r", "c", "t", "n", "d", "f", "l", "T", "F", "N"}

  predicate Known(ts: seq<Token>) {
    forall k :: 0 <= k < |ts| && ts[k].Directive? ==> ts[k].name in NAMES
  }

  /** The pattern has an unterminated brace or a name that is not in the table. */
  predicate HasError(p: string) {
    !Terminated(Lex(p)) || !Known(Lex(p))
  }

  /** `%%` is not an escape: its second `%` begins a directive with no name. */
  lemma DoublePercentIsError()
    ensures Lex("%%") == [Char('%'), Directive("", None)] && HasError("%%")
  {
    NextPlain("", "");
    assert "%" + "" + "" == "%" && Lex("") == [];
    assert Lex("%") == [Directive("", None)];
    LexChar("%%", '%', "%");
    assert Lex("%%")[1] == Directive("", None);
    assert forall n <- NAMES :: n != "";
  }

  /** A pattern is free of errors exactly if it prints some canonical list with names from the table. */
  lemma ErrorFreeIff(p: string)
    ensures !HasError(p) <==> exists ts :: Canonical(ts) && Known(ts) && Print(ts) == p
  {
    if !HasError(p) {
      LexCanonical(p);
      PrintLex(p);
      assert Canonical(Lex(p)) && Known(Lex(p)) && Print(Lex(p)) == p;
    }
    forall ts | Canonical(ts) && Known(ts) && Print(ts) == p ensures !HasError(p) {
      LexPrint(ts);
      CanonicalTerminated(ts);
    }
  }

  lemma {:induction false} CanonicalTerminated(ts: seq<Token>)
    requires Canonical(ts)
    ensures Terminated(ts)
  {
    if ts != [] {
      CanonicalTerminated(ts[1..]);
      assert ts == [ts[0]] + ts[1..];
    }
  }

  // ---- Joining patterns -----------------------------------------------------------------------------------

  lemma {:induction false} PrintConcat(a: seq<Token>, b: seq<Token>)
    ensures Print(a + b) == Print(a) + Print(b)
  {
    if a == [] {
      assert a + b == b;
    } else {
      var t, rest := a[0], a[1..];
      PrintConcat(rest, b);
      ConsAppend(a, b);
      PrintCons(t, rest + b);
      PrintCons(t, rest);
      Associative(PrintToken(t), Print(rest), Print(b));
    }
  }

  lemma ConsAppend(a: seq<Token>, b: seq<Token>)
    requires a != []
    ensures a == [a[0]] + a[1..] && a + b == [a[0]] + (a[1..] + b)
  {
  }

  lemma PrintCons(t: Token, ts: seq<Token>)
    ensures Print([t] + ts) == PrintToken(t) + Print(ts)
  {
    assert ([t] + ts)[1..] == ts;
  }

  /** What `b` may begin with when it is put behind the tokens of `a`: a plain directive must not grow. */
  predicate Joinable(a: seq<Token>, b: string) {
    a != [] && a[|a| - 1].Directive? && a[|a| - 1].fmt.None? && b != "" ==>
      !('a' <= b[0] <= 'z') && !('A' <= b[0] <= 'Z') && b[0] != '}' && b[0] != '{'
  }

  lemma {:induction false} JoinCanonical(a: seq<Token>, b: seq<Token>)
    requires Canonical(a) && Known(a) && Canonical(b)
    ensures Canonical(a + b) <==> Joinable(a, Print(b))
  {
    if a == [] {
      assert a + b == b;
    } else {
      assert (a + b)[1..] == a[1..] + b && (a + b)[0] == a[0];
      JoinFits(a, b);
      JoinCanonical(a[1..], b);
    }
  }

  lemma JoinFits(a: seq<Token>, b: seq<Token>)
    requires a != [] && Canonical(a) && Known(a)
    ensures |a| > 1 ==> Fits(a[0], a[1..] + b)
    ensures |a| == 1 ==> (Fits(a[0], a[1..] + b) <==> Joinable(a, Print(b)))
    ensures Known(a[1..])
  {
    PrintStart(b);
    assert a[0].Directive? ==> a[0].name in NAMES && a[0].name != "";
    if |a| == 1 {
      assert a[1..] + b == b;
    }
  }

  /** The join prints both lists of tokens, which are canonical together exactly if they are joinable. */
  lemma JoinPrints(a: string, b: string)
    requires !HasError(a) && !HasError(b)
    ensures Print(Lex(a) + Lex(b)) == a + b && (Canonical(Lex(a) + Lex(b)) <==> Joinable(Lex(a), b))
  {
    LexCanonical(a);
    LexCanonical(b);
    PrintLex(a);
    PrintLex(b);
    JoinCanonical(Lex(a), Lex(b));
    PrintConcat(Lex(a), Lex(b));
  }

  lemma NoErrorTogether(a: string, b: string)
    requires !HasError(a) && !HasError(b) && Lex(a + b) == Lex(a) + Lex(b)
    ensures !HasError(a + b)
  {
    var ts, us := Lex(a), Lex(b);
    var both: seq<Token> := ts + us;
    forall k | 0 <= k < |both| && both[k].Directive? ensures both[k].name in NAMES {
      assert both[k] == if k < |ts| then ts[k] else us[k - |ts|];
    }
  }

  /**
   Error-free patterns keep their tokens when they are joined exactly if the second cannot extend a plain
   directive at the end of the first. A second pattern that starts with `%` never can.
   */
  lemma LexJoinIff(a: string, b: string)
    requires !HasError(a) && !HasError(b)
    ensures Lex(a + b) == Lex(a) + Lex(b) <==> Joinable(Lex(a), b)
    ensures Joinable(Lex(a), b) ==> !HasError(a + b)
    ensures b != "" && b[0] == '%' ==> Joinable(Lex(a), b)
  {
    JoinPrints(a, b);
    if Joinable(Lex(a), b) {
      LexPrint(Lex(a) + Lex(b));
      NoErrorTogether(a, b);
    } else if Lex(a + b) == Lex(a) + Lex(b) {
      NoErrorTogether(a, b);
      LexCanonical(a + b);
    }
  }

  // ---- What happens where patterns cannot be joined -------------------------------------------------------

  /** Tokens that fit before a directive are read the same before any text that starts with `%`. */
  lemma {:induction false} LexFront(front: seq<Token>, d: Token, text: string)
    requires d.Directive? && Canonical(front + [d]) && text != "" && text[0] == '%'
    ensures Lex(Print(front) + text) == front + Lex(text)
  {
    if front == [] {
      assert Print(front) + text == text;
    } else {
      CanonicalFront(front, d);
      LexFront(front[1..], d, text);
      FitsBefore(front[0], front[1..], d, text);
      LexOneMore(front, text);
    }
  }

  lemma CanonicalFront(front: seq<Token>, d: Token)
    requires front != [] && Canonical(front + [d])
    ensures Fits(front[0], front[1..] + [d]) && Canonical(front[1..] + [d])
  {
    assert (front + [d])[1..] == front[1..] + [d] && (front + [d])[0] == front[0];
  }

  lemma LexOneMore(front: seq<Token>, text: string)
    requires front != [] && FitsText(front[0], Print(front[1..]) + text)
    requires Lex(Print(front[1..]) + text) == front[1..] + Lex(text)
    ensures Lex(Print(front) + text) == front + Lex(text)
  {
    var t, after := front[0], Print(front[1..]) + text;
    NextOfText(t, after);
    LexNext(PrintToken(t) + after, t, after);
    Associative(PrintToken(t), Print(front[1..]), text);
    ConsAppend(front, Lex(text));
  }

  lemma FitsBefore(t: Token, rest: seq<Token>, d: Token, text: string)
    requires Fits(t, rest + [d]) && d.Directive? && text != "" && text[0] == '%'
    ensures FitsText(t, Print(rest) + text)
  {
    PrintStart(rest);
    PrintStart(rest + [d]);
    assert rest != [] ==> (rest + [d])[0] == rest[0];
  }

  lemma NamesAreLetters()
    ensures forall n <- NAMES :: |n| == 1 && IsAlpha(n[0])
  {
  }

  lemma ErrorAt(p: string, k: nat)
    requires k < |Lex(p)|
    requires Lex(p)[k].Unterminated? || (Lex(p)[k].Directive? && Lex(p)[k].name !in NAMES)
    ensures HasError(p)
  {
    assert Lex(p)[k] in Lex(p);
  }

  /** A directive that is followed by more name characters is no known one. */
  lemma NameGrows(name: string, b: string)
    requires AllName(name) && name != "" && b != "" && NameChar(b[0])
    ensures var p := "%" + name + b;
      Next(p).0.Unterminated? || (Next(p).0.Directive? && |Next(p).0.name| > |name|)
  {
    var p := "%" + name + b;
    assert p[1..] == name + b && p[1] == name[0] && NameChar(p[1]);
    assert (name + b)[..|name| + 1] == name + [b[0]];
    NameLengthAtLeast(name + b, |name| + 1);
  }

  lemma {:induction false} NameLengthAtLeast(s: string, k: nat)
    requires k <= |s| && AllName(s[..k])
    ensures NameLength(s) >= k
  {
    if k != 0 {
      assert s[..k][0] == s[0] && s[..k][1..] == s[1..][..k - 1];
      NameLengthAtLeast(s[1..], k - 1);
    }
  }

  lemma {:induction false} FindNothing(s: string)
    requires '}' !in s
    ensures FindClose(s) == |s|
  {
    if s != "" {
      FindNothing(s[1..]);
    }
  }

  /** A brace behind a directive that nothing closes. */
  lemma BraceStaysOpen(name: string, b: string)
    requires AllName(name) && b != "" && b[0] == '{' && '}' !in b
    ensures Next("%" + name + b).0.Unterminated?
  {
    var p := "%" + name + b;
    assert p[1..] == name + b && p[1 + |name|] == '{';
    NameLengthBefore(name, b);
    assert p[2 + |name|..] == b[1..];
    FindNothing(b[1..]);
    assert name != "" ==> p[1] == name[0] && NameChar(p[1]);
  }

  lemma NameLengthBefore(name: string, rest: string)
    requires AllName(name) && rest != "" && !NameChar(rest[0])
    ensures NameLength(name + rest) == |name|
  {
    assert (name + rest)[..|name|] == name;
    NameLengthOf(name + rest, |name|);
  }

  lemma TailIsErrorFree(p: string)
    requires p != "" && !HasError(p)
    ensures !HasError(Next(p).1) && !Next(p).0.Unterminated?
    ensures Next(p).0.Directive? ==> Next(p).0.name in NAMES
  {
    var ts, rest := Lex(p), Lex(Next(p).1);
    assert ts[0] == Next(p).0 && ts[0] in ts && ts[1..] == rest;
    assert forall k :: 0 <= k < |rest| ==> rest[k] == ts[k + 1];
    assert forall t <- rest :: t in ts;
  }

  /** A name that is in the table is one letter, so it ends before the first closing brace. */
  lemma ShortName(p: string, e: nat)
    requires !HasError(p) && p != "" && !Literal(p) && e < |p| && p[e] == '}' && '}' !in p[..e]
    ensures NameLength(p[1..]) == 1 && 2 <= e
  {
    TailIsErrorFree(p);
    NamesAreLetters();
    var m := 1 + NameLength(p[1..]);
    assert p[1..m] in NAMES && p[1] == p[1..m][0];
  }

  lemma CloseFrom(p: string, m: nat, e: nat)
    requires m < e < |p| && p[e] == '}' && '}' !in p[..e]
    ensures FindClose(p[m + 1..]) == e - m - 1
  {
    assert p[m + 1..][..e - m - 1] == p[..e][m + 1..];
    FindCloseOf(p[m + 1..], e - m - 1);
  }

  /** In an error-free pattern the first token does not reach beyond the first closing brace. */
  lemma NextStopsAtBrace(p: string, e: nat) returns (m: nat)
    requires !HasError(p) && e < |p| && p[e] == '}' && '}' !in p[..e]
    ensures 0 < m <= e + 1 && Next(p).1 == p[m..]
  {
    if Literal(p) {
      m := 1;
    } else {
      ShortName(p, e);
      m := 2;
      if m < |p| && p[m] == '{' {
        CloseFrom(p, m, e);
        m := e + 1;
      }
    }
  }

  /** What follows the first closing brace is read on its own. */
  lemma {:induction false} TailAfterBrace(p: string, e: nat) returns (front: seq<Token>)
    requires !HasError(p) && e < |p| && p[e] == '}' && '}' !in p[..e]
    ensures Lex(p) == front + Lex(p[e + 1..])
    decreases |p|
  {
    var m := NextStopsAtBrace(p, e);
    LexNext(p, Next(p).0, Next(p).1);
    front := [Next(p).0];
    if m <= e {
      TailIsErrorFree(p);
      assert p[m..][..e - m] == p[..e][m..] && p[m..][e - m + 1..] == p[e + 1..];
      var rest := TailAfterBrace(p[m..], e - m);
      Associative(front, rest, Lex(p[e + 1..]));
      front := front + rest;
    }
  }
}
