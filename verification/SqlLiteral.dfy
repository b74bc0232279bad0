/** Single-quoted SQL literals: the escaping of query.rs and the two ways an engine reads it back. */
module SqlLiteral {
  import opened Text

  /** How an engine reads a quoted literal: ClickHouse honours backslash escapes, while
      section 5.3 of ISO/IEC 9075-2 (Postgres' default) gives the backslash no meaning. */
  datatype Dialect = BackslashEscapes | PlainQuotes

  function DoubleBackslashes(s: string): string {
    ReplaceChar(s, '\\', "\\\\")
  }

  /** The two passes: double every backslash, then double every quote. */
  function Escape(raw: string): string {
    ReplaceChar(DoubleBackslashes(raw), '\'', "''")
  }

  function Quote(raw: string): string {
    "'" + Escape(raw) + "'"
  }

  /** The sanitised literal of an IN list: the spaces go before the value is escaped. */
  function Sanitize(raw: string): string {
    Quote(NoSpaces(raw))
  }

  /** The list text `'a', 'b', ...` of already space-free or trusted values. */
  function QuotedList(vs: seq<string>): string {
    Join(seq(|vs|, i requires 0 <= i < |vs| => Quote(vs[i])), ", ")
  }

  /** The operand that `add_filter_in_range_clause` builds from its values. */
  function SanitizedList(vs: seq<string>): string {
    Join(seq(|vs|, i requires 0 <= i < |vs| => Sanitize(vs[i])), ", ")
  }

  // ----- readers -----

  function Prepend(c: char, r: Option<(string, string)>): Option<(string, string)> {
    match r
    case None => None
    case Some((v, rest)) => Some(([c] + v, rest))
  }

  /** Reads the inside of a literal up to its closing quote; the value and what follows the quote.
      Escapes other than `\\` and `\'` are rejected: the printer emits none. */
  function ReadBody(s: string, d: Dialect): (r: Option<(string, string)>)
    ensures r.Some? ==> |r.value.1| < |s|
  {
    if s == "" then None
    else if s[0] == '\\' && d.BackslashEscapes? then
      if |s| < 2 || !(s[1] == '\\' || s[1] == '\'') then None
      else Prepend(s[1], ReadBody(s[2..], d))
    else if s[0] == '\'' then
      if |s| >= 2 && s[1] == '\'' then Prepend('\'', ReadBody(s[2..], d))
      else Some(("", s[1..]))
    else Prepend(s[0], ReadBody(s[1..], d))
  }

  function ReadLiteral(s: string, d: Dialect): (r: Option<(string, string)>)
    ensures r.Some? ==> |r.value.1| < |s|
  {
    if s != "" && s[0] == '\'' then ReadBody(s[1..], d) else None
  }

  /** One or more literals separated by a comma and any number of spaces. */
  function ReadLiterals(s: string, d: Dialect): (r: Option<(seq<string>, string)>)
    ensures r.Some? ==> |r.value.1| < |s|
    decreases |s|
  {
    match ReadLiteral(s, d)
    case None => None
    case Some((v, rest)) =>
      if rest == "" || rest[0] != ',' then Some(([v], rest))
      else
        var next := rest[1 + |Until(rest[1..], NotSpace)|..];
        match ReadLiterals(next, d)
        case None => None
        case Some((vs, rest')) => Some(([v] + vs, rest'))
  }

  // ----- what is read back -----

  /** The value an engine sees for a printed literal. */
  function Seen(raw: string, d: Dialect): string {
    if d.BackslashEscapes? then raw else DoubleBackslashes(raw)
  }

  function SeenAll(vs: seq<string>, d: Dialect): seq<string> {
    seq(|vs|, i requires 0 <= i < |vs| => Seen(vs[i], d))
  }

  function EscapedChar(c: char): string {
    if c == '\\' then "\\\\" else if c == '\'' then "''" else [c]
  }

  /** Escaping works one character at a time. */
  lemma {:induction false} EscapeHead(raw: string)
    requires raw != ""
    ensures Escape(raw) == EscapedChar(raw[0]) + Escape(raw[1..])
  {
    var t := DoubleBackslashes(raw[1..]);
    if raw[0] == '\\' {
      assert DoubleBackslashes(raw) == "\\\\" + t;
      assert ("\\\\" + t)[1..] == "\\" + t;
      assert ("\\" + t)[1..] == t;
      assert ReplaceChar("\\" + t, '\'', "''") == "\\" + ReplaceChar(t, '\'', "''");
    } else {
      assert DoubleBackslashes(raw) == [raw[0]] + t;
      assert ([raw[0]] + t)[1..] == t;
    }
  }

  lemma ReadBodyPair(c: char, t: string, d: Dialect)
    requires c == '\'' || (c == '\\' && d.BackslashEscapes?)
    ensures ReadBody([c, c] + t, d) == Prepend(c, ReadBody(t, d))
  {
    assert ([c, c] + t)[2..] == t;
  }

  lemma ReadBodyChar(c: char, t: string, d: Dialect)
    requires c != '\'' && (c != '\\' || d.PlainQuotes?)
    ensures ReadBody([c] + t, d) == Prepend(c, ReadBody(t, d))
  {
    assert ([c] + t)[1..] == t;
  }

  /** A backslash that the engine does not treat as an escape stays doubled. */
  predicate StaysDoubled(c: char, d: Dialect) {
    c == '\\' && d.PlainQuotes?
  }

  lemma ReadBodyEscaped(c: char, t: string, d: Dialect)
    ensures !StaysDoubled(c, d) ==> ReadBody(EscapedChar(c) + t, d) == Prepend(c, ReadBody(t, d))
    ensures StaysDoubled(c, d) ==> ReadBody(EscapedChar(c) + t, d) == Prepend(c, Prepend(c, ReadBody(t, d)))
  {
    if StaysDoubled(c, d) {
      Assoc([c], [c], t);
      assert EscapedChar(c) == [c] + [c];
      ReadBodyChar(c, [c] + t, d);
      ReadBodyChar(c, t, d);
    } else if c == '\'' || c == '\\' {
      assert EscapedChar(c) == [c, c];
      ReadBodyPair(c, t, d);
    } else {
      ReadBodyChar(c, t, d);
    }
  }

  lemma SeenHead(raw: string, d: Dialect)
    requires raw != ""
    ensures !StaysDoubled(raw[0], d) ==> Seen(raw, d) == [raw[0]] + Seen(raw[1..], d)
    ensures StaysDoubled(raw[0], d) ==> Seen(raw, d) == [raw[0]] + ([raw[0]] + Seen(raw[1..], d))
  {
    assert raw == [raw[0]] + raw[1..];
  }

  lemma {:induction false} ReadBodyEscape(raw: string, rest: string, d: Dialect)
    requires rest == "" || rest[0] != '\''
    ensures ReadBody(Escape(raw) + ("'" + rest), d) == Some((Seen(raw, d), rest))
  {
    var end := "'" + rest;
    if raw == "" {
      assert Escape(raw) + end == end;
      PrefixOfSum("'", rest);
    } else {
      ReadBodyEscape(raw[1..], rest, d);
      EscapeHead(raw);
      Assoc(EscapedChar(raw[0]), Escape(raw[1..]), end);
      ReadBodyEscaped(raw[0], Escape(raw[1..]) + end, d);
      SeenHead(raw, d);
    }
  }

  /** Whatever the value holds, both engines find the end of its literal at the same place;
      with backslash escapes they read the value itself, otherwise its backslashes doubled. */
  lemma LiteralRoundTrip(raw: string, rest: string, d: Dialect)
    requires rest == "" || rest[0] != '\''
    ensures ReadLiteral(Quote(raw) + rest, d) == Some((Seen(raw, d), rest))
  {
    Assoc("'" + Escape(raw), "'", rest);
    Assoc("'", Escape(raw), "'" + rest);
    PrefixOfSum("'", Escape(raw) + ("'" + rest));
    ReadBodyEscape(raw, rest, d);
  }

  lemma {:induction false} DoubledLength(s: string)
    ensures |DoubleBackslashes(s)| >= |s|
    ensures '\\' in s <==> |DoubleBackslashes(s)| > |s|
    ensures '\\' !in s ==> DoubleBackslashes(s) == s
  {
    if s == "" {
    } else {
      DoubledLength(s[1..]);
      assert s == [s[0]] + s[1..];
    }
  }

  /** Under the plain reading the value survives exactly when it has no backslash. */
  lemma PlainReadingExact(raw: string)
    ensures ReadLiteral(Quote(raw), PlainQuotes) == Some((raw, "")) <==> '\\' !in raw
  {
    LiteralRoundTrip(raw, "", PlainQuotes);
    assert Quote(raw) + "" == Quote(raw);
    DoubledLength(raw);
  }

  lemma ReadLiteralsStep(q: string, more: string, v: string, vs: seq<string>, rest: string, d: Dialect)
    requires ReadLiteral(q + (", " + more), d) == Some((v, ", " + more))
    requires more != "" && more[0] != ' ' && ReadLiterals(more, d) == Some((vs, rest))
    ensures ReadLiterals(q + (", " + more), d) == Some(([v] + vs, rest))
  {
    var after := ", " + more;
    assert after[1..] == " " + more;
    UntilRun(" ", more, NotSpace);
    assert after[2..] == more;
  }

  lemma {:induction false} ReadQuotedList(vs: seq<string>, rest: string, d: Dialect)
    requires vs != []
    requires rest == "" || (rest[0] != '\'' && rest[0] != ',')
    ensures ReadLiterals(QuotedList(vs) + rest, d) == Some((SeenAll(vs, d), rest))
  {
    if |vs| == 1 {
      ReadLastLiteral(vs[0], rest, d);
      assert vs == [vs[0]];
    } else {
      var more := QuotedList(vs[1..]) + rest;
      QuotedListCons(vs);
      Assoc(Quote(vs[0]) + ", ", QuotedList(vs[1..]), rest);
      Assoc(Quote(vs[0]), ", ", more);
      LiteralRoundTrip(vs[0], ", " + more, d);
      QuotedListStartsWithQuote(vs[1..]);
      ReadQuotedList(vs[1..], rest, d);
      ReadLiteralsStep(Quote(vs[0]), more, Seen(vs[0], d), SeenAll(vs[1..], d), rest, d);
      SeenAllCons(vs, d);
    }
  }

  lemma ReadLastLiteral(v: string, rest: string, d: Dialect)
    requires rest == "" || (rest[0] != '\'' && rest[0] != ',')
    ensures ReadLiterals(QuotedList([v]) + rest, d) == Some((SeenAll([v], d), rest))
  {
    LiteralRoundTrip(v, rest, d);
    assert QuotedList([v]) == Quote(v) && SeenAll([v], d) == [Seen(v, d)];
  }

  lemma SeenAllCons(vs: seq<string>, d: Dialect)
    requires vs != []
    ensures SeenAll(vs, d) == [Seen(vs[0], d)] + SeenAll(vs[1..], d)
  {
  }

  lemma QuotedListCons(vs: seq<string>)
    requires |vs| > 1
    ensures QuotedList(vs) == Quote(vs[0]) + ", " + QuotedList(vs[1..])
  {
    var tail := vs[1..];
    assert seq(|vs|, i requires 0 <= i < |vs| => Quote(vs[i]))[1..] == seq(|tail|, i requires 0 <= i < |tail| => Quote(tail[i]));
  }

  lemma QuotedListStartsWithQuote(vs: seq<string>)
    requires vs != []
    ensures QuotedList(vs) != "" && QuotedList(vs)[0] == '\''
  {
  }

  /** Reading the text built for an IN list gives back the same values in the same order,
      with their spaces removed and nothing else changed. */
  lemma InListRoundTrip(vs: seq<string>)
    requires vs != []
    ensures SanitizedList(vs) == QuotedList(MapNoSpaces(vs))
    ensures ReadLiterals(SanitizedList(vs), BackslashEscapes) == Some((MapNoSpaces(vs), ""))
    ensures var read := ReadLiterals(SanitizedList(vs), BackslashEscapes).value.0;
            |read| == |vs| && forall i :: 0 <= i < |vs| ==> LeavesOutSpaces(vs[i], read[i])
  {
    forall i | 0 <= i < |vs|
      ensures LeavesOutSpaces(vs[i], MapNoSpaces(vs)[i])
    {
      NoSpacesLeavesOut(vs[i]);
    }
    SanitizedIsQuoted(vs);
    ReadQuotedList(MapNoSpaces(vs), "", BackslashEscapes);
    assert QuotedList(MapNoSpaces(vs)) + "" == QuotedList(MapNoSpaces(vs));
    assert SeenAll(MapNoSpaces(vs), BackslashEscapes) == MapNoSpaces(vs);
  }

  lemma SanitizedIsQuoted(vs: seq<string>)
    ensures SanitizedList(vs) == QuotedList(MapNoSpaces(vs))
  {
    var ns := MapNoSpaces(vs);
    assert seq(|vs|, i requires 0 <= i < |vs| => Sanitize(vs[i])) == seq(|ns|, i requires 0 <= i < |ns| => Quote(ns[i]));
  }
}
