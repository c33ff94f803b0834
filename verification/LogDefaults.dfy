/**
 The pattern that every appender has at first (src/_log/LogAppender.h:51): it has no error, and this is the line
 that it writes for any event.
 */
module LogDefaults {
  import opened LogFormatters
  import opened LogLevels
  import opened Loggers
  import opened Options
  import opened PatternGrammar

  function Concat(parts: seq<string>): string {
    if parts == [] then "" else parts[0] + Concat(parts[1..])
  }

  /** The pattern has no error, and writes the parts one after the other. */
  ghost predicate Writes(p: string, o: Occasion, parts: seq<string>) {
    Terminated(Lex(p)) && Known(Lex(p)) && RenderTokens(Lex(p), o) == Concat(parts)
  }

  /** One more token in front. */
  lemma Put(p: string, rest: string, t: Token, o: Occasion, parts: seq<string>)
    requires Lex(p) == [t] + Lex(rest) && Writes(rest, o, parts)
    requires !t.Unterminated? && (t.Directive? ==> t.name in NAMES)
    ensures Writes(p, o, [RenderToken(t, o)] + parts)
  {
    var ts := Lex(rest);
    assert ([t] + ts)[1..] == ts;
    assert ([RenderToken(t, o)] + parts)[1..] == parts;
    assert forall k :: 1 <= k < |[t] + ts| ==> ([t] + ts)[k] == ts[k - 1];
  }

  lemma PutChar(c: char, rest: string, o: Occasion, parts: seq<string>) returns (p: string, more: seq<string>)
    requires c != '%' && Writes(rest, o, parts)
    ensures p == [c] + rest && more == [[c]] + parts && Writes(p, o, more)
    ensures p != "" && p[0] == c
  {
    p, more := [c] + rest, [[c]] + parts;
    ReadsLiteral(c, rest);
    Put(p, rest, Char(c), o, parts);
  }

  /** The letters of the table, and no name goes on with what follows. */
  predicate NameStops(c: char, rest: string) {
    && c in {'m', 'p', 'r', 'c', 't', 'n', 'd', 'f', 'l', 'T', 'F', 'N'}
    && (rest != "" ==> rest[0] in {'%', ':', '[', ']'})
  }

  lemma OneLetterName(c: char)
    requires NameStops(c, "")
    ensures [c] in NAMES && ('a' <= c <= 'z' || 'A' <= c <= 'Z')
  {
    assert [c] == "m" || [c] == "p" || [c] == "r" || [c] == "c" || [c] == "t" || [c] == "n" || [c] == "d" || [c] == "f"
        || [c] == "l" || [c] == "T" || [c] == "F" || [c] == "N";
  }

  lemma PutName(c: char, rest: string, o: Occasion, parts: seq<string>) returns (p: string, more: seq<string>)
    requires NameStops(c, rest) && Writes(rest, o, parts)
    ensures p == "%" + [c] + rest && more == [FieldText(c, "", o)] + parts && Writes(p, o, more)
    ensures p != "" && p[0] == '%'
  {
    p, more := "%" + [c] + rest, [FieldText(c, "", o)] + parts;
    OneLetterName(c);
    ReadsName([c], rest);
    OneLetter(c, "", o);
    Put(p, rest, Directive([c], None), o, parts);
  }

  lemma DateToken(fmt: string, rest: string, o: Occasion)
    requires fmt != "" && '}' !in fmt
    ensures Lex("%" + "d" + "{" + fmt + "}" + rest) == [Directive("d", Some(fmt))] + Lex(rest)
    ensures RenderToken(Directive("d", Some(fmt)), o) == o.date(fmt, o.event.time)
  {
    ReadsFormat("d", fmt, rest);
    OneLetter('d', fmt, o);
  }

  /** `%d{fmt}` with a format. */
  lemma PutDate(fmt: string, rest: string, o: Occasion, parts: seq<string>) returns (p: string, more: seq<string>)
    requires fmt != "" && '}' !in fmt && Writes(rest, o, parts)
    ensures p == "%" + "d" + "{" + fmt + "}" + rest && more == [o.date(fmt, o.event.time)] + parts
    ensures Writes(p, o, more)
  {
    p, more := "%" + "d" + "{" + fmt + "}" + rest, [o.date(fmt, o.event.time)] + parts;
    DateToken(fmt, rest, o);
    Put(p, rest, Directive("d", Some(fmt)), o, parts);
  }

  lemma TabText(c: char, rest: string)
    ensures "%" + ['T'] + ("%" + [c] + rest) == "%T%" + [c] + rest
  {
  }

  lemma TabField(c: char, o: Occasion, parts: seq<string>)
    ensures [FieldText('T', "", o)] + ([FieldText(c, "", o)] + parts) == ["\t", FieldText(c, "", o)] + parts
  {
  }

  /** `%T%c` with a letter `c`. */
  lemma PutTab(c: char, rest: string, o: Occasion, parts: seq<string>) returns (p: string, more: seq<string>)
    requires NameStops(c, rest) && Writes(rest, o, parts)
    ensures p == "%T%" + [c] + rest && more == ["\t", FieldText(c, "", o)] + parts && Writes(p, o, more)
    ensures p != "" && p[0] == '%'
  {
    p, more := PutName(c, rest, o, parts);
    p, more := PutName('T', p, o, more);
    TabText(c, rest);
    TabField(c, o, parts);
  }

  lemma BracketText(c: char, rest: string)
    ensures "%" + ['T'] + (['['] + ("%" + [c] + ([']'] + rest))) == "%T[%" + [c] + "]" + rest
  {
  }

  lemma BracketField(c: char, o: Occasion, parts: seq<string>)
    ensures [FieldText('T', "", o)] + ([['[']] + ([FieldText(c, "", o)] + ([[']']] + parts)))
         == ["\t", "[", FieldText(c, "", o), "]"] + parts
  {
  }

  /** `%T[%c]` with a letter `c`. */
  lemma PutBrackets(c: char, rest: string, o: Occasion, parts: seq<string>) returns (p: string, more: seq<string>)
    requires NameStops(c, "") && Writes(rest, o, parts)
    ensures p == "%T[%" + [c] + "]" + rest && more == ["\t", "[", FieldText(c, "", o), "]"] + parts
    ensures p != "" && p[0] == '%' && Writes(p, o, more)
  {
    p, more := PutChar(']', rest, o, parts);
    p, more := PutName(c, p, o, more);
    p, more := PutChar('[', p, o, more);
    p, more := PutName('T', p, o, more);
    BracketText(c, rest);
    BracketField(c, o, parts);
  }

  /** What the last part of the pattern writes. */
  function PlaceAndMessage(o: Occasion): seq<string> {
    ["\t", o.event.file, ":", o.event.line, "\t", o.event.content, "\n"]
  }

  lemma LastText()
    ensures "%T%" + ['f'] + ([':'] + ("%" + ['l'] + ("%T%" + ['m'] + ("%" + ['n'] + "")))) == "%T%f:%l%T%m%n"
  {
  }

  lemma LastFields(o: Occasion)
    ensures ["\t", FieldText('f', "", o)] + ([[':']] + ([FieldText('l', "", o)]
              + (["\t", FieldText('m', "", o)] + ([FieldText('n', "", o)] + []))))
         == PlaceAndMessage(o)
  {
  }

  lemma LastPart(o: Occasion) returns (p: string, more: seq<string>)
    ensures p == "%T%f:%l%T%m%n" && more == PlaceAndMessage(o) && Writes(p, o, more)
    ensures p != "" && p[0] == '%'
  {
    p, more := PutName('n', "", o, []);
    p, more := PutTab('m', p, o, more);
    p, more := PutName('l', p, o, more);
    p, more := PutChar(':', p, o, more);
    p, more := PutTab('f', p, o, more);
    LastText();
    LastFields(o);
  }

  /** What the middle of the pattern writes. */
  function ThreadToLogger(o: Occasion): seq<string> {
    ["\t", o.event.threadId, "\t", o.event.threadName, "\t", o.event.fiberId, "\t", "[", ToString(o.level), "]",
     "\t", "[", o.loggerName, "]"]
  }

  lemma MiddleText(rest: string)
    ensures "%T%" + ['t'] + ("%T%" + ['N'] + ("%T%" + ['F'] + ("%T[%" + ['p'] + "]" + ("%T[%" + ['c'] + "]" + rest))))
         == "%T%t%T%N%T%F%T[%p]%T[%c]" + rest
  {
  }

  lemma MiddleFields(o: Occasion, parts: seq<string>)
    ensures ["\t", FieldText('t', "", o)] + (["\t", FieldText('N', "", o)] + (["\t", FieldText('F', "", o)]
              + (["\t", "[", FieldText('p', "", o), "]"] + (["\t", "[", FieldText('c', "", o), "]"] + parts))))
         == ThreadToLogger(o) + parts
  {
  }

  lemma MiddlePart(rest: string, o: Occasion, parts: seq<string>) returns (p: string, more: seq<string>)
    requires Writes(rest, o, parts)
    ensures p == "%T%t%T%N%T%F%T[%p]%T[%c]" + rest && more == ThreadToLogger(o) + parts && Writes(p, o, more)
  {
    p, more := PutBrackets('c', rest, o, parts);
    p, more := PutBrackets('p', p, o, more);
    p, more := PutTab('F', p, o, more);
    p, more := PutTab('N', p, o, more);
    p, more := PutTab('t', p, o, more);
    MiddleText(rest);
    MiddleFields(o, parts);
  }

  const DATE := "%Y-%m-%d %H:%M:%S"

  lemma DateText()
    ensures "%" + "d" + "{" + DATE + "}" == "%d{%Y-%m-%d %H:%M:%S}"
  {
  }

  lemma NoClosingBrace()
    ensures DATE != "" && '}' !in DATE
  {
  }

  /**
   The default pattern has no error. Its line is the date, the thread with its name, the fiber, the level, the
   logger, the place in the source and the message, with tabs between them.
   */
  lemma DefaultLine(o: Occasion)
    ensures !HasError(DEFAULT_PATTERN)
    ensures Render(Compile(DEFAULT_PATTERN), o)
         == Concat([o.date("%Y-%m-%d %H:%M:%S", o.event.time)] + (ThreadToLogger(o) + PlaceAndMessage(o)))
  {
    var p, more := LastPart(o);
    p, more := MiddlePart(p, o, more);
    NoClosingBrace();
    p, more := PutDate(DATE, p, o, more);
    DateText();
    FormatWritesTokens(p, o);
  }

  /** The file gets that line, the console one more line end. */
  lemma DefaultDelivery(o: Occasion, level: LogLevel, path: string)
    ensures var line := Concat([o.date("%Y-%m-%d %H:%M:%S", o.event.time)] + (ThreadToLogger(o) + PlaceAndMessage(o)));
      && Written(Appender(File(path), level, DEFAULT_PATTERN), o) == Delivery(File(path), line)
      && Written(Appender(Stdout, level, DEFAULT_PATTERN), o) == Delivery(Stdout, line + "\n")
  {
    DefaultLine(o);
  }
}
