/** The filter tree of the analytics query builder, its SQL text, and a quote-aware reader of that text. */
module Filters {
  import opened Text
  import opened SqlLiteral

  datatype FilterType =
    Equal | NotEqual | EqualBool | In | Gte | Lte | Gt | Like | NotLike | IsNotNull

  datatype Combinator = And | Or

  datatype Filter =
    | Plain(lhs: string, op: FilterType, rhs: string)
    | Nested(combinator: Combinator, filters: seq<Filter>)

  // ----- printing -----

  /** The first word of the operator. */
  function OpWord(op: FilterType): string {
    match op
    case Equal => "="
    case EqualBool => "="
    case NotEqual => "!="
    case In => "IN"
    case Gte => ">="
    case Gt => ">"
    case Lte => "<="
    case Like => "LIKE"
    case NotLike => "NOT"
    case IsNotNull => "IS"
  }

  /** What follows that word: the rest of the operator and the operand. */
  function OpTail(op: FilterType, r: string): string {
    match op
    case EqualBool => " " + r
    case Equal => " '" + Escape(r) + "'"
    case NotEqual => " '" + Escape(r) + "'"
    case In => " (" + r + ")"
    case Gte => " '" + Escape(r) + "'"
    case Gt => " " + r
    case Lte => " '" + Escape(r) + "'"
    case Like => " '%" + Escape(r) + "%'"
    case NotLike => " LIKE '%" + Escape(r) + "%'"
    case IsNotNull => " NOT NULL"
  }

  function PlainSql(l: string, op: FilterType, r: string): string {
    l + " " + OpWord(op) + OpTail(op, r)
  }

  function CombinatorSql(c: Combinator): string {
    match c
    case And => " AND "
    case Or => " OR "
  }

  function FilterSql(f: Filter): string
    decreases f, 1
  {
    match f
    case Plain(l, op, r) => PlainSql(l, op, r)
    case Nested(c, fs) => "( " + ItemsSql(fs, CombinatorSql(c)) + " )"
  }

  /** The items' texts joined by the separator. */
  function ItemsSql(fs: seq<Filter>, sep: string): string
    decreases fs, 0
  {
    if fs == [] then ""
    else if |fs| == 1 then FilterSql(fs[0])
    else FilterSql(fs[0]) + sep + ItemsSql(fs[1..], sep)
  }

  // ----- what a filter means -----

  /** A row's column texts; a missing column is NULL. */
  type Row = map<string, string>

  /** An engine's `<=` on column texts. */
  type Order = (string, string) -> bool

  /** SQL LIKE: `%` any run, `_` any character, backslash takes the next character literally. */
  predicate LikeMatch(p: string, t: string)
    decreases |p| + |t|
  {
    if p == "" then t == ""
    else if p[0] == '%' then LikeMatch(p[1..], t) || (t != "" && LikeMatch(p, t[1..]))
    else if p[0] == '\\' && |p| > 1 then t != "" && t[0] == p[1] && LikeMatch(p[2..], t[1..])
    else t != "" && (p[0] == '_' || p[0] == t[0]) && LikeMatch(p[1..], t[1..])
  }

  ghost predicate IsListText(r: string) {
    exists vs :: r == QuotedList(vs)
  }

  /** The values whose list text is `r`; `InValuesUnique` shows there is only one choice. */
  ghost function InValues(r: string): (vs: seq<string>)
    requires IsListText(r)
    ensures r == QuotedList(vs)
  {
    var vs :| r == QuotedList(vs); vs
  }

  /** A condition is kept only when it is true, so a NULL column satisfies nothing. */
  ghost predicate PlainHolds(l: string, op: FilterType, r: string, row: Row, le: Order)
    requires op.In? ==> IsListText(r)
  {
    l in row &&
    match op
    case Equal => row[l] == r
    case EqualBool => row[l] == r
    case NotEqual => row[l] != r
    case In => row[l] in InValues(r)
    case Gte => le(r, row[l])
    case Lte => le(row[l], r)
    case Gt => !le(row[l], r)
    case Like => LikeMatch("%" + r + "%", row[l])
    case NotLike => !LikeMatch("%" + r + "%", row[l])
    case IsNotNull => true
  }

  ghost predicate Holds(f: Filter, row: Row, le: Order)
    requires Printable(f)
  {
    match f
    case Plain(l, op, r) => PlainHolds(l, op, r, row, le)
    case Nested(And, fs) => forall i :: 0 <= i < |fs| ==> Holds(fs[i], row, le)
    case Nested(Or, fs) => exists i :: 0 <= i < |fs| && Holds(fs[i], row, le)
  }

  // ----- reading -----

  datatype Comparison = Eq | Ne | Ge | Le | More

  /** What the reader recovers. */
  datatype Cond =
    | Compare(col: string, cmp: Comparison, value: string)
    | Member(col: string, values: seq<string>)
    | Pattern(col: string, pattern: string, negated: bool)
    | NotNull(col: string)
    | AllOf(conds: seq<Cond>)
    | AnyOf(conds: seq<Cond>)

  predicate CondHolds(c: Cond, row: Row, le: Order) {
    match c
    case Compare(col, cmp, v) =>
      col in row &&
      (match cmp
       case Eq => row[col] == v
       case Ne => row[col] != v
       case Ge => le(v, row[col])
       case Le => le(row[col], v)
       case More => !le(row[col], v))
    case Member(col, vs) => col in row && row[col] in vs
    case Pattern(col, p, negated) => col in row && LikeMatch(p, row[col]) != negated
    case NotNull(col) => col in row
    case AllOf(cs) => forall i :: 0 <= i < |cs| ==> CondHolds(cs[i], row, le)
    case AnyOf(cs) => exists i :: 0 <= i < |cs| && CondHolds(cs[i], row, le)
  }

  function ComparisonOf(word: string): Option<Comparison> {
    if word == "=" then Some(Eq)
    else if word == "!=" then Some(Ne)
    else if word == ">=" then Some(Ge)
    else if word == "<=" then Some(Le)
    else if word == ">" then Some(More)
    else None
  }

  /** A quoted literal, or a bare word running to the next space. */
  function ReadOperand(s: string, d: Dialect): (r: Option<(string, string)>)
    ensures r.Some? ==> |r.value.1| < |s|
  {
    if s != "" && s[0] == '\'' then ReadLiteral(s, d)
    else
      var w := Until(s, IsSpace);
      if w == "" then None else Some((w, s[|w|..]))
  }

  /** The part of a plain condition after its column, split at the operator word. */
  function ReadPredicate(col: string, word: string, tail: string, d: Dialect): (r: Option<(Cond, string)>)
    ensures r.Some? ==> |r.value.1| < |tail|
  {
    if word == "IS" then
      if " NOT NULL" <= tail then Some((NotNull(col), tail[9..])) else None
    else if word == "NOT" then
      if " LIKE " <= tail then
        match ReadLiteral(tail[6..], d)
        case None => None
        case Some((p, rest)) => Some((Pattern(col, p, true), rest))
      else None
    else if tail == "" then None
    else if word == "LIKE" then
      match ReadLiteral(tail[1..], d)
      case None => None
      case Some((p, rest)) => Some((Pattern(col, p, false), rest))
    else if word == "IN" then
      if " (" <= tail then
        match ReadLiterals(tail[2..], d)
        case None => None
        case Some((vs, rest)) => if rest != "" && rest[0] == ')' then Some((Member(col, vs), rest[1..])) else None
      else None
    else
      match ComparisonOf(word)
      case None => None
      case Some(cmp) =>
        match ReadOperand(tail[1..], d)
        case None => None
        case Some((v, rest)) => Some((Compare(col, cmp, v), rest))
  }

  /** The text up to the first space outside parentheses. */
  function ColumnText(s: string, depth: nat): (r: string)
    ensures r <= s
  {
    if s == "" || (s[0] == ' ' && depth == 0) then ""
    else
      var depth' := if s[0] == '(' then depth + 1 else if s[0] == ')' && depth > 0 then depth - 1 else depth;
      var r := [s[0]] + ColumnText(s[1..], depth');
      assert s == [s[0]] + s[1..];
      r
  }

  function ReadPlain(s: string, d: Dialect): (r: Option<(Cond, string)>)
    ensures r.Some? ==> |r.value.1| < |s|
  {
    var col := ColumnText(s, 0);
    if col == "" || |col| == |s| then None
    else
      var s1 := s[|col| + 1..];
      var word := Until(s1, IsSpace);
      ReadPredicate(col, word, s1[|word|..], d)
  }

  /** One condition: a parenthesised conjunction or disjunction, or a plain condition. */
  function ReadFilter(s: string, d: Dialect): (r: Option<(Cond, string)>)
    ensures r.Some? ==> |r.value.1| < |s|
    decreases |s|, 0
  {
    if "( " <= s then
      match ReadFilter(s[2..], d)
      case None => None
      case Some((c, rest)) =>
        if " OR " <= rest then
          match ReadMore(rest, " OR ", d)
          case None => None
          case Some((cs, rest')) => Some((AnyOf([c] + cs), rest'))
        else
          match ReadMore(rest, " AND ", d)
          case None => None
          case Some((cs, rest')) => Some((AllOf([c] + cs), rest'))
    else ReadPlain(s, d)
  }

  /** Further items, each after the separator, up to the closing parenthesis. */
  function ReadMore(s: string, sep: string, d: Dialect): (r: Option<(seq<Cond>, string)>)
    ensures r.Some? ==> |r.value.1| < |s|
    decreases |s|, 1
  {
    if " )" <= s then Some(([], s[2..]))
    else if sep <= s then
      match ReadFilter(s[|sep|..], d)
      case None => None
      case Some((c, rest)) =>
        match ReadMore(rest, sep, d)
        case None => None
        case Some((cs, rest')) => Some(([c] + cs, rest'))
    else None
  }

  // ----- which filters print readably -----

  /** Parentheses match and every space is inside one. */
  predicate Enclosed(l: string, depth: nat) {
    if l == "" then depth == 0
    else if l[0] == '(' then Enclosed(l[1..], depth + 1)
    else if l[0] == ')' then depth > 0 && Enclosed(l[1..], depth - 1)
    else (l[0] == ' ' ==> depth > 0) && Enclosed(l[1..], depth)
  }

  /** A column name or a function of columns such as `sum(sign * amount)`. */
  predicate ColumnOk(l: string) {
    l != "" && l[0] != '(' && Enclosed(l, 0)
  }

  /** An operand printed without quotes: one word that is not a literal. */
  predicate BareOk(r: string) {
    r != "" && r[0] != '\'' && ' ' !in r
  }

  ghost predicate PlainOk(l: string, op: FilterType, r: string) {
    && ColumnOk(l)
    && (op.EqualBool? || op.Gt? ==> BareOk(r))
    && (op.In? ==> IsListText(r))
  }

  ghost predicate Printable(f: Filter) {
    match f
    case Plain(l, op, r) => PlainOk(l, op, r)
    case Nested(_, fs) => forall i :: 0 <= i < |fs| ==> Printable(fs[i])
  }

  /** No node without items and no IN without values. */
  predicate Complete(f: Filter) {
    match f
    case Plain(_, op, r) => op.In? ==> r != ""
    case Nested(_, fs) => fs != [] && forall i :: 0 <= i < |fs| ==> Complete(fs[i])
  }

  /** The condition a filter is meant to print, as the dialect sees its values. */
  ghost function PlainCond(l: string, op: FilterType, r: string, d: Dialect): Cond
    requires op.In? ==> IsListText(r)
  {
    match op
    case Equal => Compare(l, Eq, Seen(r, d))
    case EqualBool => Compare(l, Eq, r)
    case NotEqual => Compare(l, Ne, Seen(r, d))
    case In => Member(l, SeenAll(InValues(r), d))
    case Gte => Compare(l, Ge, Seen(r, d))
    case Lte => Compare(l, Le, Seen(r, d))
    case Gt => Compare(l, More, r)
    case Like => Pattern(l, "%" + Seen(r, d) + "%", false)
    case NotLike => Pattern(l, "%" + Seen(r, d) + "%", true)
    case IsNotNull => NotNull(l)
  }

  /** A one-item node reads the same whichever its combinator. */
  ghost function FilterCond(f: Filter, d: Dialect): Cond
    requires Printable(f)
    decreases f, 1
  {
    match f
    case Plain(l, op, r) => PlainCond(l, op, r, d)
    case Nested(c, fs) => if c.Or? && |fs| != 1 then AnyOf(FilterConds(fs, d)) else AllOf(FilterConds(fs, d))
  }

  ghost function FilterConds(fs: seq<Filter>, d: Dialect): (cs: seq<Cond>)
    requires forall i :: 0 <= i < |fs| ==> Printable(fs[i])
    ensures |cs| == |fs|
    ensures forall i :: 0 <= i < |fs| ==> cs[i] == FilterCond(fs[i], d)
    decreases fs, 0
  {
    if fs == [] then [] else [FilterCond(fs[0], d)] + FilterConds(fs[1..], d)
  }

  predicate Boundary(rest: string) {
    rest == "" || rest[0] == ' '
  }

  // ----- plain conditions -----

  lemma SplitWord(w: string, rest: string)
    requires ' ' !in w && Boundary(rest)
    ensures Until(w + rest, IsSpace) == w
    ensures (w + rest)[|w|..] == rest
  {
    UntilRun(w, rest, IsSpace);
  }

  lemma {:induction false} ColumnEnds(l: string, rest: string, depth: nat)
    requires Enclosed(l, depth) && rest != "" && rest[0] == ' '
    ensures ColumnText(l + rest, depth) == l
  {
    if l != "" {
      assert (l + rest)[1..] == l[1..] + rest;
      ColumnEnds(l[1..], rest, if l[0] == '(' then depth + 1 else if l[0] == ')' then depth - 1 else depth);
    } else {
      assert l + rest == rest;
    }
  }

  lemma SplitColumnAndWord(l: string, word: string, tail: string)
    requires ColumnOk(l) && ' ' !in word && Boundary(tail)
    ensures var s := l + (" " + (word + tail));
            && ColumnText(s, 0) == l
            && |l| < |s|
            && s[|l| + 1..] == word + tail
            && Until(word + tail, IsSpace) == word
            && (word + tail)[|word|..] == tail
  {
    ColumnEnds(l, " " + (word + tail), 0);
    SplitWord(word, tail);
  }

  /** A column, a space, an operator word and the rest of the condition. */
  lemma ReadColumnAndWord(l: string, word: string, tail: string, d: Dialect)
    requires ColumnOk(l) && ' ' !in word && Boundary(tail)
    ensures ReadPlain(l + (" " + (word + tail)), d) == ReadPredicate(l, word, tail, d)
  {
    SplitColumnAndWord(l, word, tail);
  }

  lemma ReadQuoted(l: string, word: string, cmp: Comparison, r: string, rest: string, d: Dialect)
    requires Boundary(rest)
    requires word != "IS" && word != "NOT" && word != "LIKE" && word != "IN" && ComparisonOf(word) == Some(cmp)
    ensures ReadPredicate(l, word, " '" + Escape(r) + "'" + rest, d) == Some((Compare(l, cmp, Seen(r, d)), rest))
  {
    assert (" '" + Escape(r) + "'" + rest)[1..] == Quote(r) + rest;
    LiteralRoundTrip(r, rest, d);
  }

  lemma ReadBare(l: string, word: string, cmp: Comparison, r: string, rest: string, d: Dialect)
    requires Boundary(rest) && BareOk(r)
    requires word != "IS" && word != "NOT" && word != "LIKE" && word != "IN" && ComparisonOf(word) == Some(cmp)
    ensures ReadPredicate(l, word, " " + r + rest, d) == Some((Compare(l, cmp, r), rest))
  {
    assert (" " + r + rest)[1..] == r + rest;
    SplitWord(r, rest);
  }

  /** Escaping and the LIKE wildcards do not interfere. */
  lemma LikeLiteral(r: string, d: Dialect)
    ensures "'%" + Escape(r) + "%'" == Quote("%" + r + "%")
    ensures Seen("%" + r + "%", d) == "%" + Seen(r, d) + "%"
  {
    ReplaceWrapped(r, '\\', "\\\\");
    ReplaceWrapped(DoubleBackslashes(r), '\'', "''");
  }

  lemma ReplaceWrapped(r: string, c: char, with: string)
    requires c != '%'
    ensures ReplaceChar("%" + r + "%", c, with) == "%" + ReplaceChar(r, c, with) + "%"
  {
    assert ("%" + r + "%")[1..] == r + "%";
    ReplaceSuffix(r, c, with);
  }

  lemma {:induction false} ReplaceSuffix(r: string, c: char, with: string)
    requires c != '%'
    ensures ReplaceChar(r + "%", c, with) == ReplaceChar(r, c, with) + "%"
  {
    if r == "" {
    } else {
      ReplaceSuffix(r[1..], c, with);
      assert (r + "%")[1..] == r[1..] + "%";
    }
  }

  lemma LikeShape(open: string, r: string, rest: string)
    ensures open + "'%" + Escape(r) + "%'" + rest == open + (Quote("%" + r + "%") + rest)
  {
    LikeLiteral(r, BackslashEscapes);
    Assoc(open, "'%", Escape(r));
    Assoc(open, "'%" + Escape(r), "%'");
    Assoc(open, Quote("%" + r + "%"), rest);
  }

  lemma ReadLike(l: string, r: string, rest: string, d: Dialect)
    requires Boundary(rest)
    ensures ReadPredicate(l, "LIKE", " '%" + Escape(r) + "%'" + rest, d) == Some((Pattern(l, "%" + Seen(r, d) + "%", false), rest))
  {
    LikeLiteral(r, d);
    assert " '%" == " " + "'%";
    LikeShape(" ", r, rest);
    PrefixOfSum(" ", Quote("%" + r + "%") + rest);
    LiteralRoundTrip("%" + r + "%", rest, d);
  }

  lemma ReadNotLike(l: string, r: string, rest: string, d: Dialect)
    requires Boundary(rest)
    ensures ReadPredicate(l, "NOT", " LIKE '%" + Escape(r) + "%'" + rest, d) == Some((Pattern(l, "%" + Seen(r, d) + "%", true), rest))
  {
    LikeLiteral(r, d);
    assert " LIKE '%" == " LIKE " + "'%";
    LikeShape(" LIKE ", r, rest);
    PrefixOfSum(" LIKE ", Quote("%" + r + "%") + rest);
    LiteralRoundTrip("%" + r + "%", rest, d);
  }

  lemma ReadIn(l: string, r: string, rest: string, d: Dialect)
    requires Boundary(rest) && IsListText(r)
    ensures ReadPredicate(l, "IN", " (" + r + ")" + rest, d)
         == if r == "" then None else Some((Member(l, SeenAll(InValues(r), d)), rest))
  {
    var vs, close := InValues(r), ")" + rest;
    Assoc(" (" + r, ")", rest);
    Assoc(" (", r, close);
    PrefixOfSum(" (", r + close);
    if vs == [] {
      assert r == "" && r + close == close;
      assert ReadLiterals(close, d) == None;
    } else {
      QuotedListStartsWithQuote(vs);
      ReadQuotedList(vs, close, d);
      PrefixOfSum(")", rest);
    }
  }

  lemma PlainSqlShape(l: string, op: FilterType, r: string, rest: string)
    ensures PlainSql(l, op, r) + rest == l + (" " + (OpWord(op) + (OpTail(op, r) + rest)))
  {
    FourParts(l, " ", OpWord(op), OpTail(op, r), rest);
  }

  lemma FourParts(a: string, b: string, c: string, d: string, rest: string)
    ensures a + b + c + d + rest == a + (b + (c + (d + rest)))
  {
    Assoc(a + b + c, d, rest);
    Assoc(a + b, c, d + rest);
    Assoc(a, b, c + (d + rest));
  }

  lemma ReadOpTail(l: string, op: FilterType, r: string, rest: string, d: Dialect)
    requires PlainOk(l, op, r) && Boundary(rest)
    ensures ReadPredicate(l, OpWord(op), OpTail(op, r) + rest, d)
         == if op.In? && r == "" then None else Some((PlainCond(l, op, r, d), rest))
  {
    match op {
      case EqualBool => ReadBare(l, "=", Eq, r, rest, d);
      case Gt => ReadBare(l, ">", More, r, rest, d);
      case Equal => ReadQuoted(l, "=", Eq, r, rest, d);
      case NotEqual => ReadQuoted(l, "!=", Ne, r, rest, d);
      case Gte => ReadQuoted(l, ">=", Ge, r, rest, d);
      case Lte => ReadQuoted(l, "<=", Le, r, rest, d);
      case In => ReadIn(l, r, rest, d);
      case Like => ReadLike(l, r, rest, d);
      case NotLike => ReadNotLike(l, r, rest, d);
      case IsNotNull => assert (OpTail(op, r) + rest)[9..] == rest;
    }
  }

  /** A printed condition reads back as itself, up to the text that follows it;
      only an IN without values does not read. */
  lemma ReadPlainSql(l: string, op: FilterType, r: string, rest: string, d: Dialect)
    requires PlainOk(l, op, r) && Boundary(rest)
    ensures ReadPlain(PlainSql(l, op, r) + rest, d)
         == if op.In? && r == "" then None else Some((PlainCond(l, op, r, d), rest))
  {
    PlainSqlShape(l, op, r, rest);
    ReadColumnAndWord(l, OpWord(op), OpTail(op, r) + rest, d);
    ReadOpTail(l, op, r, rest, d);
  }

  // ----- whole trees -----

  /** Everything after the first item of a node: each further item behind its separator. */
  function MoreSql(fs: seq<Filter>, sep: string): string {
    if fs == [] then "" else sep + FilterSql(fs[0]) + MoreSql(fs[1..], sep)
  }

  lemma {:induction false} ItemsSplit(fs: seq<Filter>, sep: string)
    requires fs != []
    ensures ItemsSql(fs, sep) == FilterSql(fs[0]) + MoreSql(fs[1..], sep)
  {
    var a, tail := FilterSql(fs[0]), fs[1..];
    if tail == [] {
      assert a + "" == a;
    } else {
      ItemsSplit(tail, sep);
      var b, more := FilterSql(tail[0]), MoreSql(tail[1..], sep);
      Regroup(a, sep, b, more);
    }
  }

  lemma Regroup(a: string, sep: string, b: string, more: string)
    ensures a + sep + (b + more) == a + (sep + b + more)
  {
  }

  lemma PlainIsNotParenthesised(l: string, op: FilterType, r: string, rest: string)
    requires ColumnOk(l)
    ensures !("( " <= PlainSql(l, op, r) + rest)
  {
    assert (PlainSql(l, op, r) + rest)[0] == l[0];
  }

  /** The text of a node, opened up for the reader. */
  lemma NodeShape(c: Combinator, fs: seq<Filter>, rest: string)
    requires fs != []
    ensures var more := MoreSql(fs[1..], CombinatorSql(c)) + " )" + rest;
            FilterSql(Nested(c, fs)) + rest == "( " + (FilterSql(fs[0]) + more)
  {
    ItemsSplit(fs, CombinatorSql(c));
  }

  /** After an item the text goes on with the separator, or closes the node. */
  lemma MoreStart(c: Combinator, fs: seq<Filter>, rest: string)
    ensures var more := MoreSql(fs, CombinatorSql(c)) + " )" + rest;
            && Boundary(more)
            && (" OR " <= more <==> c.Or? && fs != [])
            && (" )" <= more <==> fs == [])
            && (fs != [] ==>
                more == CombinatorSql(c) + (FilterSql(fs[0]) + (MoreSql(fs[1..], CombinatorSql(c)) + " )" + rest)))
  {
    var sep := CombinatorSql(c);
    if fs == [] {
      assert MoreSql(fs, sep) + " )" + rest == " )" + rest;
      assert (" )" + rest)[1] == ')';
    } else {
      MoreShape(sep, FilterSql(fs[0]), MoreSql(fs[1..], sep), rest);
      SeparatorStarts(c, FilterSql(fs[0]) + (MoreSql(fs[1..], sep) + " )" + rest));
    }
  }

  lemma MoreShape(sep: string, item: string, more: string, rest: string)
    ensures sep + item + more + " )" + rest == sep + (item + (more + " )" + rest))
  {
    Assoc(sep + item, more, " )");
    Assoc(sep + item, more + " )", rest);
    Assoc(sep, item, more + " )" + rest);
  }

  lemma SeparatorStarts(c: Combinator, t: string)
    ensures var s := CombinatorSql(c) + t;
            Boundary(s) && (" OR " <= s <==> c.Or?) && !(" )" <= s)
  {
    assert (CombinatorSql(c) + t)[1] == CombinatorSql(c)[1];
  }

  /** A complete printable tree reads back as its own condition, leaving exactly what follows it. */
  lemma {:induction false} ReadFilterSql(f: Filter, rest: string, d: Dialect)
    requires Printable(f) && Complete(f) && Boundary(rest)
    ensures ReadFilter(FilterSql(f) + rest, d) == Some((FilterCond(f, d), rest))
    decreases f, 1
  {
    match f
    case Plain(l, op, r) =>
      PlainIsNotParenthesised(l, op, r, rest);
      ReadPlainSql(l, op, r, rest, d);
    case Nested(c, fs) =>
      var more := MoreSql(fs[1..], CombinatorSql(c)) + " )" + rest;
      NodeShape(c, fs, rest);
      MoreStart(c, fs[1..], rest);
      ReadFilterSql(fs[0], more, d);
      ReadMoreSql(fs[1..], c, rest, d);
      NodeReads(c, FilterSql(fs[0]), more, FilterCond(fs[0], d), FilterConds(fs[1..], d), rest, d);
      NodeCond(c, fs, d);
  }

  /** A node reads as its first item and the further ones. */
  lemma NodeReads(c: Combinator, first: string, more: string, cond: Cond, conds: seq<Cond>, rest: string, d: Dialect)
    requires ReadFilter(first + more, d) == Some((cond, more)) && (" OR " <= more <==> c.Or? && conds != [])
    requires ReadMore(more, if c.Or? && conds != [] then " OR " else " AND ", d) == Some((conds, rest))
    ensures ReadFilter("( " + (first + more), d)
         == Some((if c.Or? && conds != [] then AnyOf([cond] + conds) else AllOf([cond] + conds), rest))
  {
    PrefixOfSum("( ", first + more);
  }

  lemma NodeCond(c: Combinator, fs: seq<Filter>, d: Dialect)
    requires Printable(Nested(c, fs)) && fs != []
    ensures FilterCond(Nested(c, fs), d)
         == if c.Or? && fs[1..] != [] then AnyOf([FilterCond(fs[0], d)] + FilterConds(fs[1..], d))
            else AllOf([FilterCond(fs[0], d)] + FilterConds(fs[1..], d))
  {
  }

  /** The separator the reader uses for a node's further items; with none it does not matter. */
  lemma {:induction false} ReadMoreSql(fs: seq<Filter>, c: Combinator, rest: string, d: Dialect)
    requires forall i :: 0 <= i < |fs| ==> Printable(fs[i]) && Complete(fs[i])
    requires Boundary(rest)
    ensures fs != [] ==> ReadMore(MoreSql(fs, CombinatorSql(c)) + " )" + rest, CombinatorSql(c), d) == Some((FilterConds(fs, d), rest))
    ensures fs == [] ==> ReadMore(MoreSql(fs, CombinatorSql(c)) + " )" + rest, " AND ", d) == Some(([], rest))
    ensures fs == [] ==> ReadMore(MoreSql(fs, CombinatorSql(c)) + " )" + rest, CombinatorSql(c), d) == Some(([], rest))
    decreases fs, 0
  {
    var sep := CombinatorSql(c);
    var s := MoreSql(fs, sep) + " )" + rest;
    MoreStart(c, fs, rest);
    if fs == [] {
      assert s[2..] == rest;
    } else {
      var more := MoreSql(fs[1..], sep) + " )" + rest;
      MoreStart(c, fs[1..], rest);
      assert s[|sep|..] == FilterSql(fs[0]) + more;
      ReadFilterSql(fs[0], more, d);
      ReadMoreSql(fs[1..], c, rest, d);
    }
  }

  // ----- trees that do not read -----

  lemma EmptyNodeDoesNotRead(c: Combinator, rest: string, d: Dialect)
    ensures ReadFilter(FilterSql(Nested(c, [])) + rest, d) == None
  {
    var close := " )" + rest;
    assert FilterSql(Nested(c, [])) == "( " + " )";
    Assoc("( ", " )", rest);
    PrefixOfSum("( ", close);
    assert close[0] == ' ' && ColumnText(close, 0) == "";
  }

  lemma IncompleteIsLater(fs: seq<Filter>)
    requires fs != [] && Complete(fs[0]) && exists i :: 0 <= i < |fs| && !Complete(fs[i])
    ensures exists i :: 0 <= i < |fs[1..]| && !Complete(fs[1..][i])
  {
    var i :| 0 <= i < |fs| && !Complete(fs[i]);
    assert fs[1..][i - 1] == fs[i];
  }

  /** A tree with an empty node or an empty IN prints text that no reading accepts. */
  lemma {:induction false} IncompleteDoesNotRead(f: Filter, rest: string, d: Dialect)
    requires Printable(f) && !Complete(f) && Boundary(rest)
    ensures ReadFilter(FilterSql(f) + rest, d) == None
    decreases f, 1
  {
    match f
    case Plain(l, op, r) =>
      PlainIsNotParenthesised(l, op, r, rest);
      ReadPlainSql(l, op, r, rest, d);
    case Nested(c, fs) =>
      var s := FilterSql(f) + rest;
      if fs == [] {
        EmptyNodeDoesNotRead(c, rest, d);
      } else {
        var more := MoreSql(fs[1..], CombinatorSql(c)) + " )" + rest;
        NodeShape(c, fs, rest);
        assert s[2..] == FilterSql(fs[0]) + more;
        MoreStart(c, fs[1..], rest);
        if Complete(fs[0]) {
          ReadFilterSql(fs[0], more, d);
          IncompleteIsLater(fs);
          IncompleteMore(fs[1..], c, rest, d);
        } else {
          IncompleteDoesNotRead(fs[0], more, d);
        }
      }
  }

  lemma {:induction false} IncompleteMore(fs: seq<Filter>, c: Combinator, rest: string, d: Dialect)
    requires forall i :: 0 <= i < |fs| ==> Printable(fs[i])
    requires exists i :: 0 <= i < |fs| && !Complete(fs[i])
    requires Boundary(rest)
    ensures ReadMore(MoreSql(fs, CombinatorSql(c)) + " )" + rest, CombinatorSql(c), d) == None
    decreases fs, 0
  {
    var sep := CombinatorSql(c);
    var s := MoreSql(fs, sep) + " )" + rest;
    MoreStart(c, fs, rest);
    var more := MoreSql(fs[1..], sep) + " )" + rest;
    MoreStart(c, fs[1..], rest);
    assert s[|sep|..] == FilterSql(fs[0]) + more;
    if Complete(fs[0]) {
      ReadFilterSql(fs[0], more, d);
      IncompleteIsLater(fs);
      IncompleteMore(fs[1..], c, rest, d);
    } else {
      IncompleteDoesNotRead(fs[0], more, d);
    }
  }

  // ----- main results -----

  /** With backslash escapes the recovered condition and the filter agree on every row. */
  lemma {:induction false} FilterCondMeaning(f: Filter, row: Row, le: Order)
    requires Printable(f)
    ensures CondHolds(FilterCond(f, BackslashEscapes), row, le) == Holds(f, row, le)
  {
    match f
    case Plain(l, op, r) =>
      if op.In? {
        assert SeenAll(InValues(r), BackslashEscapes) == InValues(r);
      }
    case Nested(c, fs) =>
      forall i | 0 <= i < |fs| {
        FilterCondMeaning(fs[i], row, le);
      }
      var cs := FilterConds(fs, BackslashEscapes);
      assert forall i :: 0 <= i < |fs| ==> CondHolds(cs[i], row, le) == Holds(fs[i], row, le);
      if c.Or? && |fs| == 1 {
        assert Holds(f, row, le) == Holds(fs[0], row, le);
      }
  }

  /** The printer is undone by a reader that honours quotes: the text of a tree is consumed exactly and
      keeps the tree's truth value on every row, and this succeeds precisely for trees without an empty part. */
  lemma PrintedFilterMeansFilter(f: Filter)
    requires Printable(f)
    ensures Complete(f) <==> ReadFilter(FilterSql(f), BackslashEscapes).Some?
    ensures Complete(f) ==>
              var (c, rest) := ReadFilter(FilterSql(f), BackslashEscapes).value;
              rest == "" && forall row, le :: CondHolds(c, row, le) == Holds(f, row, le)
  {
    assert FilterSql(f) + "" == FilterSql(f);
    if Complete(f) {
      ReadFilterSql(f, "", BackslashEscapes);
      forall row, le {
        FilterCondMeaning(f, row, le);
      }
    } else {
      IncompleteDoesNotRead(f, "", BackslashEscapes);
    }
  }

  /** A list text determines its values. */
  lemma InValuesUnique(vs: seq<string>)
    ensures InValues(QuotedList(vs)) == vs
  {
    var us := InValues(QuotedList(vs));
    if us != [] && vs != [] {
      ReadQuotedList(us, "", BackslashEscapes);
      ReadQuotedList(vs, "", BackslashEscapes);
      assert SeenAll(us, BackslashEscapes) == us && SeenAll(vs, BackslashEscapes) == vs;
    } else if us != [] {
      QuotedListStartsWithQuote(us);
    } else if vs != [] {
      QuotedListStartsWithQuote(vs);
    }
  }

  /** No value inside quotes has a backslash. */
  ghost predicate NoQuotedBackslash(f: Filter)
    requires Printable(f)
  {
    match f
    case Plain(_, op, r) =>
      if op.In? then forall v :: v in InValues(r) ==> '\\' !in v
      else op.EqualBool? || op.Gt? || op.IsNotNull? || '\\' !in r
    case Nested(_, fs) => forall i :: 0 <= i < |fs| ==> NoQuotedBackslash(fs[i])
  }

  lemma SeenPlain(v: string)
    ensures Seen(v, PlainQuotes) == v <==> '\\' !in v
    ensures |Seen(v, PlainQuotes)| == |v| <==> '\\' !in v
  {
    DoubledLength(v);
  }

  lemma {:induction false} SameCondExact(f: Filter)
    requires Printable(f)
    ensures FilterCond(f, PlainQuotes) == FilterCond(f, BackslashEscapes) <==> NoQuotedBackslash(f)
  {
    match f
    case Plain(l, op, r) =>
      SeenPlain(r);
      if op.In? {
        var vs := InValues(r);
        var plain, escaped := SeenAll(vs, PlainQuotes), SeenAll(vs, BackslashEscapes);
        forall i | 0 <= i < |vs|
          ensures plain[i] == escaped[i] <==> '\\' !in vs[i]
        {
          SeenPlain(vs[i]);
        }
        if plain == escaped {
          assert forall i :: 0 <= i < |vs| ==> plain[i] == escaped[i];
        }
      } else if op.Like? || op.NotLike? {
        assert |"%" + Seen(r, PlainQuotes) + "%"| == |Seen(r, PlainQuotes)| + 2;
        assert |"%" + r + "%"| == |r| + 2;
      }
    case Nested(c, fs) =>
      var plain, escaped := FilterConds(fs, PlainQuotes), FilterConds(fs, BackslashEscapes);
      forall i | 0 <= i < |fs|
        ensures plain[i] == escaped[i] <==> NoQuotedBackslash(fs[i])
      {
        SameCondExact(fs[i]);
      }
      if plain == escaped {
        assert forall i :: 0 <= i < |fs| ==> plain[i] == escaped[i];
      }
  }

  /** Both engines consume the same text; they recover the same condition exactly when no quoted value
      has a backslash. */
  lemma EnginesReadAlikeExact(f: Filter)
    requires Printable(f) && Complete(f)
    ensures ReadFilter(FilterSql(f), PlainQuotes).Some? && ReadFilter(FilterSql(f), PlainQuotes).value.1 == ""
    ensures ReadFilter(FilterSql(f), PlainQuotes) == ReadFilter(FilterSql(f), BackslashEscapes) <==> NoQuotedBackslash(f)
  {
    assert FilterSql(f) + "" == FilterSql(f);
    ReadFilterSql(f, "", PlainQuotes);
    ReadFilterSql(f, "", BackslashEscapes);
    SameCondExact(f);
  }

  // ----- LIKE -----

  predicate NoWildcard(r: string) {
    '%' !in r && '_' !in r && '\\' !in r
  }

  lemma {:induction false} LikePercent(t: string)
    ensures LikeMatch("%", t)
  {
    if t == "" {
    } else {
      LikePercent(t[1..]);
    }
  }

  lemma {:induction false} LikePrefix(r: string, t: string)
    requires NoWildcard(r)
    ensures LikeMatch(r + "%", t) <==> r <= t
  {
    if r == "" {
      LikePercent(t);
      assert r + "%" == "%";
    } else {
      assert (r + "%")[1..] == r[1..] + "%";
      assert (r + "%")[0] == r[0] && r[0] in r;
      if t != "" {
        LikePrefix(r[1..], t[1..]);
        assert r == [r[0]] + r[1..] && t == [t[0]] + t[1..];
      }
    }
  }

  /** LIKE '%r%' on a value without wildcards is substring search. */
  lemma {:induction false} LikeIsContains(r: string, t: string)
    requires NoWildcard(r)
    ensures LikeMatch("%" + r + "%", t) <==> exists i :: 0 <= i <= |t| && r <= t[i..]
  {
    var p := "%" + r + "%";
    assert p[1..] == r + "%";
    LikePrefix(r, t);
    assert t[0..] == t;
    if t == "" {
    } else {
      LikeIsContains(r, t[1..]);
      if LikeMatch(p, t[1..]) {
        var i :| 0 <= i <= |t[1..]| && r <= t[1..][i..];
        assert t[1..][i..] == t[i + 1..];
      }
      if i :| 0 <= i <= |t| && r <= t[i..] {
        if i > 0 {
          assert t[1..][i - 1..] == t[i..];
        }
      }
    }
  }
}
