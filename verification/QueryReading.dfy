/** A reader for the query texts the builder emits, and the proof that it recovers every clause. */
module QueryReading {
  import opened Text
  import opened SqlLiteral
  import opened Filters
  import opened QueryBuilding

  datatype Select = Select(
    distinct: bool, items: seq<string>, table: string, where_: Cond,
    groupBy: seq<string>, having: seq<Cond>, tail: string)

  // ----- the reader -----

  /** The next select item: up to a comma or ` FROM ` outside parentheses. */
  function ItemText(s: string, depth: nat): (r: string)
    ensures r <= s
  {
    if s == "" || (depth == 0 && (s[0] == ',' || " FROM " <= s)) then ""
    else
      var depth' := if s[0] == '(' then depth + 1 else if s[0] == ')' && depth > 0 then depth - 1 else depth;
      var r := [s[0]] + ItemText(s[1..], depth');
      assert s == [s[0]] + s[1..];
      r
  }

  /** Select items up to and including ` FROM `. */
  function ReadItems(s: string): (r: Option<(seq<string>, string)>)
    decreases |s|
  {
    var item := ItemText(s, 0);
    var rest := s[|item|..];
    if item == "" then None
    else if " FROM " <= rest then Some(([item], rest[6..]))
    else if ", " <= rest then
      match ReadItems(rest[2..])
      case None => None
      case Some((items, rest')) => Some(([item] + items, rest'))
    else None
  }

  /** Grouping columns: words, all but the last ending in a comma. */
  function ReadColumns(s: string): Option<(seq<string>, string)>
    decreases |s|
  {
    var w := ColumnText(s, 0);
    var rest := s[|w|..];
    if w == "" then None
    else if w[|w| - 1] == ',' then
      if rest == "" then None
      else
        match ReadColumns(rest[1..])
        case None => None
        case Some((cs, rest')) => Some(([w[..|w| - 1]] + cs, rest'))
    else Some(([w], rest))
  }

  /** One or more plain conditions joined by AND. */
  function ReadConditions(s: string, d: Dialect): Option<(seq<Cond>, string)>
    decreases |s|
  {
    match ReadPlain(s, d)
    case None => None
    case Some((c, rest)) =>
      if " AND " <= rest then
        match ReadConditions(rest[5..], d)
        case None => None
        case Some((cs, rest')) => Some(([c] + cs, rest'))
      else Some(([c], rest))
  }

  function ReadGroup(s: string): Option<(seq<string>, string)> {
    if " GROUP BY " <= s then ReadColumns(s[10..]) else Some(([], s))
  }

  function ReadHaving(s: string, d: Dialect): Option<(seq<Cond>, string)> {
    if " HAVING " <= s then ReadConditions(s[8..], d) else Some(([], s))
  }

  /** Everything after the table name. */
  function ReadClauses(s: string, d: Dialect): Option<(Cond, seq<string>, seq<Cond>, string)> {
    if !(" WHERE " <= s) then None
    else
      match ReadFilter(s[7..], d)
      case None => None
      case Some((c, rest)) =>
        match ReadGroup(rest)
        case None => None
        case Some((groupBy, rest)) =>
          match ReadHaving(rest, d)
          case None => None
          case Some((having, tail)) => Some((c, groupBy, having, tail))
  }

  function ReadSelect(s: string, d: Dialect): Option<Select> {
    if !("SELECT " <= s) then None
    else
      var distinct := "DISTINCT " <= s[7..];
      match ReadItems(if distinct then s[16..] else s[7..])
      case None => None
      case Some((items, rest)) =>
        var table := Until(rest, IsSpace);
        match ReadClauses(rest[|table|..], d)
        case None => None
        case Some((c, groupBy, having, tail)) => Some(Select(distinct, items, table, c, groupBy, having, tail))
  }

  // ----- what prints readably -----

  /** No comma outside parentheses, and no space there that could start ` FROM `. */
  predicate ItemOk(l: string, depth: nat) {
    if l == "" then depth == 0
    else
      && (depth == 0 ==> l[0] != ',')
      && (depth == 0 && l[0] == ' ' ==> |l| > 1 && l[1] != 'F')
      && (l[0] == ')' ==> depth > 0)
      && ItemOk(l[1..], if l[0] == '(' then depth + 1 else if l[0] == ')' then depth - 1 else depth)
  }

  predicate GroupColumnOk(c: string) {
    c != "" && c[|c| - 1] != ',' && Enclosed(c, 0)
  }

  ghost predicate HavingOk(h: HavingEntry) {
    !h.op.In? && PlainOk(h.aggregate, h.op, h.value)
  }

  ghost predicate Readable(st: State) {
    && st.table.Some? && st.table.value != "" && ' ' !in st.table.value
    && st.columns != [] && !("DISTINCT" <= st.columns[0])
    && (forall i :: 0 <= i < |st.columns| ==> st.columns[i] != "" && ItemOk(st.columns[i], 0))
    && Printable(st.filters) && Complete(st.filters) && st.filters.Nested?
    && (forall i :: 0 <= i < |st.groupBy| ==> GroupColumnOk(st.groupBy[i]))
    && (st.having.Some? ==> st.having.value != [] && forall i :: 0 <= i < |st.having.value| ==> HavingOk(st.having.value[i]))
  }

  ghost function HavingConds(st: State, d: Dialect): seq<Cond>
    requires Readable(st)
  {
    if st.having.None? then []
    else EntryConds(st.having.value, d)
  }

  ghost function EntryConds(hs: seq<HavingEntry>, d: Dialect): seq<Cond>
    requires forall i :: 0 <= i < |hs| ==> HavingOk(hs[i])
  {
    if hs == [] then []
    else
      assert HavingOk(hs[0]);
      [PlainCond(hs[0].aggregate, hs[0].op, hs[0].value, d)] + EntryConds(hs[1..], d)
  }

  // ----- select items -----

  lemma {:induction false} ItemEnds(l: string, rest: string, depth: nat)
    requires ItemOk(l, depth)
    requires " FROM " <= rest || ", " <= rest
    ensures ItemText(l + rest, depth) == l
  {
    var s := l + rest;
    if l == "" {
      assert s == rest;
    } else {
      assert s[1..] == l[1..] + rest;
      if depth == 0 && l[0] == ' ' {
        assert s[1] == l[1];
      }
      ItemEnds(l[1..], rest, if l[0] == '(' then depth + 1 else if l[0] == ')' then depth - 1 else depth);
    }
  }

  lemma LastItem(item: string, rest: string)
    requires item != "" && ItemOk(item, 0)
    ensures ReadItems(item + (" FROM " + rest)) == Some(([item], rest))
  {
    ItemEnds(item, " FROM " + rest, 0);
    PrefixOfSum(item, " FROM " + rest);
    PrefixOfSum(" FROM ", rest);
  }

  lemma ItemStep(item: string, more: string, items: seq<string>, rest: string)
    requires item != "" && ItemOk(item, 0)
    requires ReadItems(more) == Some((items, rest))
    ensures ReadItems(item + (", " + more)) == Some(([item] + items, rest))
  {
    ItemEnds(item, ", " + more, 0);
    PrefixOfSum(item, ", " + more);
    PrefixOfSum(", ", more);
    assert (", " + more)[0] == ',';
  }

  lemma {:induction false} ReadJoinedItems(items: seq<string>, rest: string)
    requires items != [] && forall i :: 0 <= i < |items| ==> items[i] != "" && ItemOk(items[i], 0)
    ensures ReadItems(Join(items, ", ") + (" FROM " + rest)) == Some((items, rest))
  {
    if |items| == 1 {
      LastItem(items[0], rest);
      assert items == [items[0]];
    } else {
      JoinStep(items, ", ", " FROM " + rest);
      ReadJoinedItems(items[1..], rest);
      ItemStep(items[0], Join(items[1..], ", ") + (" FROM " + rest), items[1..], rest);
      assert items == [items[0]] + items[1..];
    }
  }

  lemma {:induction false} ItemWord(w: string, rest: string, depth: nat)
    requires '(' !in w && ')' !in w && (depth == 0 ==> ' ' !in w && ',' !in w)
    ensures ItemOk(w + rest, depth) == ItemOk(rest, depth)
  {
    if w == "" {
      assert w + rest == rest;
    } else {
      assert (w + rest)[1..] == w[1..] + rest;
      ItemWord(w[1..], rest, depth);
    }
  }

  // ----- grouping columns -----

  lemma {:induction false} EnclosedComma(c: string, depth: nat)
    requires Enclosed(c, depth)
    ensures Enclosed(c + ",", depth)
  {
    if c != "" {
      assert (c + ",")[1..] == c[1..] + ",";
      EnclosedComma(c[1..], if c[0] == '(' then depth + 1 else if c[0] == ')' then depth - 1 else depth);
    } else {
      assert c + "," == ",";
      assert ","[1..] == "";
    }
  }

  lemma {:induction false} ColumnAtEnd(c: string, depth: nat)
    requires Enclosed(c, depth)
    ensures ColumnText(c, depth) == c
  {
    if c == "" {
    } else {
      ColumnAtEnd(c[1..], if c[0] == '(' then depth + 1 else if c[0] == ')' then depth - 1 else depth);
    }
  }

  lemma ColumnBefore(c: string, rest: string)
    requires Enclosed(c, 0) && Boundary(rest)
    ensures ColumnText(c + rest, 0) == c && (c + rest)[|c|..] == rest
  {
    if rest == "" {
      assert c + rest == c;
      ColumnAtEnd(c, 0);
    } else {
      ColumnEnds(c, rest, 0);
    }
  }

  lemma CommaSpace(c: string, more: string)
    ensures c + (", " + more) == c + "," + (" " + more)
  {
    Assoc(c, ",", " " + more);
    assert ", " == "," + " ";
    Assoc(",", " ", more);
  }

  lemma ColumnStep(c: string, more: string, cs: seq<string>, rest: string)
    requires Enclosed(c, 0) && ReadColumns(more) == Some((cs, rest))
    ensures ReadColumns(c + (", " + more)) == Some(([c] + cs, rest))
  {
    var w := c + ",";
    CommaSpace(c, more);
    EnclosedComma(c, 0);
    ColumnBefore(w, " " + more);
    PrefixOfSum(" ", more);
    assert w[..|w| - 1] == c;
  }

  lemma {:induction false} ReadJoinedColumns(cs: seq<string>, rest: string)
    requires cs != [] && Boundary(rest) && forall i :: 0 <= i < |cs| ==> GroupColumnOk(cs[i])
    ensures ReadColumns(Join(cs, ", ") + rest) == Some((cs, rest))
  {
    if |cs| == 1 {
      ColumnBefore(cs[0], rest);
      assert cs == [cs[0]];
    } else {
      JoinStep(cs, ", ", rest);
      ReadJoinedColumns(cs[1..], rest);
      ColumnStep(cs[0], Join(cs[1..], ", ") + rest, cs[1..], rest);
      assert cs == [cs[0]] + cs[1..];
    }
  }

  // ----- HAVING -----

  /** The text reads as the condition wherever it ends. */
  ghost predicate ReadsAs(text: string, c: Cond, d: Dialect) {
    forall rest {:trigger ReadPlain(text + rest, d)} :: Boundary(rest) ==> ReadPlain(text + rest, d) == Some((c, rest))
  }

  lemma ConditionStep(text: string, more: string, c: Cond, cs: seq<Cond>, rest: string, d: Dialect)
    requires ReadPlain(text + (" AND " + more), d) == Some((c, " AND " + more))
    requires ReadConditions(more, d) == Some((cs, rest))
    ensures ReadConditions(text + (" AND " + more), d) == Some(([c] + cs, rest))
  {
    PrefixOfSum(" AND ", more);
  }

  lemma ReadsBefore(text: string, c: Cond, rest: string, d: Dialect)
    requires ReadsAs(text, c, d) && Boundary(rest)
    ensures ReadPlain(text + rest, d) == Some((c, rest))
  {
  }

  lemma ConditionLast(text: string, c: Cond, rest: string, d: Dialect)
    requires ReadsAs(text, c, d) && Boundary(rest) && !(" AND " <= rest)
    ensures ReadConditions(text + rest, d) == Some(([c], rest))
  {
  }

  lemma JoinStep(parts: seq<string>, sep: string, rest: string)
    requires |parts| > 1
    ensures Join(parts, sep) + rest == parts[0] + (sep + (Join(parts[1..], sep) + rest))
  {
    Assoc(parts[0] + sep, Join(parts[1..], sep), rest);
    Assoc(parts[0], sep, Join(parts[1..], sep) + rest);
  }

  ghost predicate AllReadAs(texts: seq<string>, cs: seq<Cond>, d: Dialect) {
    |texts| == |cs| && (texts != [] ==> ReadsAs(texts[0], cs[0], d) && AllReadAs(texts[1..], cs[1..], d))
  }

  lemma ConditionThen(text: string, c: Cond, more: string, cs: seq<Cond>, rest: string, d: Dialect)
    requires ReadsAs(text, c, d) && ReadConditions(more, d) == Some((cs, rest))
    ensures ReadConditions(text + (" AND " + more), d) == Some(([c] + cs, rest))
  {
    assert (" AND " + more)[0] == ' ';
    ReadsBefore(text, c, " AND " + more, d);
    ConditionStep(text, more, c, cs, rest, d);
  }

  lemma FirstReadsAs(texts: seq<string>, cs: seq<Cond>, d: Dialect)
    requires texts != [] && AllReadAs(texts, cs, d)
    ensures |cs| == |texts| && ReadsAs(texts[0], cs[0], d) && AllReadAs(texts[1..], cs[1..], d)
  {
  }

  lemma HeadAndTail(cs: seq<Cond>)
    requires cs != []
    ensures cs == [cs[0]] + cs[1..] && (|cs| == 1 ==> cs == [cs[0]])
  {
  }

  lemma {:induction false} ReadJoinedTexts(texts: seq<string>, cs: seq<Cond>, rest: string, d: Dialect)
    requires texts != [] && AllReadAs(texts, cs, d)
    requires Boundary(rest) && !(" AND " <= rest)
    ensures ReadConditions(Join(texts, " AND ") + rest, d) == Some((cs, rest))
  {
    FirstReadsAs(texts, cs, d);
    HeadAndTail(cs);
    if |texts| == 1 {
      ConditionLast(texts[0], cs[0], rest, d);
    } else {
      JoinStep(texts, " AND ", rest);
      ReadJoinedTexts(texts[1..], cs[1..], rest, d);
      ConditionThen(texts[0], cs[0], Join(texts[1..], " AND ") + rest, cs[1..], rest, d);
    }
  }

  lemma EntryReads(h: HavingEntry, d: Dialect)
    requires HavingOk(h)
    ensures ReadsAs(PlainSql(h.aggregate, h.op, h.value), PlainCond(h.aggregate, h.op, h.value, d), d)
  {
    forall rest | Boundary(rest) {
      ReadPlainSql(h.aggregate, h.op, h.value, rest, d);
    }
  }

  lemma {:induction false} EntriesRead(hs: seq<HavingEntry>, d: Dialect)
    requires forall i :: 0 <= i < |hs| ==> HavingOk(hs[i])
    ensures AllReadAs(HavingTexts(hs), EntryConds(hs, d), d)
  {
    if hs == [] {
    } else {
      EntryReads(hs[0], d);
      EntriesRead(hs[1..], d);
      EntriesTail(hs, d);
    }
  }

  lemma EntriesTail(hs: seq<HavingEntry>, d: Dialect)
    requires hs != [] && forall i :: 0 <= i < |hs| ==> HavingOk(hs[i])
    ensures HavingTexts(hs)[1..] == HavingTexts(hs[1..])
    ensures EntryConds(hs, d)[1..] == EntryConds(hs[1..], d)
  {
    TextsTail(hs);
    assert HavingOk(hs[0]);
    DropFirst(PlainCond(hs[0].aggregate, hs[0].op, hs[0].value, d), EntryConds(hs[1..], d));
  }

  lemma DropFirst(c: Cond, cs: seq<Cond>)
    ensures ([c] + cs)[1..] == cs
  {
  }

  lemma TextsTail(hs: seq<HavingEntry>)
    requires hs != []
    ensures HavingTexts(hs)[1..] == HavingTexts(hs[1..])
  {
    var rest, tail := HavingTexts(hs)[1..], HavingTexts(hs[1..]);
    assert |rest| == |tail|;
    forall i | 0 <= i < |rest|
      ensures rest[i] == tail[i]
    {
      assert hs[1..][i] == hs[i + 1];
    }
  }

  lemma ReadJoinedConditions(hs: seq<HavingEntry>, rest: string, d: Dialect)
    requires hs != [] && Boundary(rest) && !(" AND " <= rest) && forall i :: 0 <= i < |hs| ==> HavingOk(hs[i])
    ensures ReadConditions(Join(HavingTexts(hs), " AND ") + rest, d) == Some((EntryConds(hs, d), rest))
  {
    EntriesRead(hs, d);
    ReadJoinedTexts(HavingTexts(hs), EntryConds(hs, d), rest, d);
  }

  // ----- the clauses in order -----

  function TailSql(st: State): string {
    OrderSql(st) + LimitSql(st)
  }

  /** ORDER BY and LIMIT are not mistaken for an earlier clause. */
  lemma TailStart(st: State)
    ensures Boundary(TailSql(st))
    ensures !(" AND " <= TailSql(st)) && !(" HAVING " <= TailSql(st)) && !(" GROUP BY " <= TailSql(st))
  {
    var t := TailSql(st);
    if t != "" {
      assert t[1] == 'O' || t[1] == 'L';
    }
  }

  lemma HavingKeyword(body: string, rest: string, d: Dialect)
    ensures ReadHaving(" HAVING " + body + rest, d) == ReadConditions(body + rest, d)
  {
    Assoc(" HAVING ", body, rest);
    PrefixOfSum(" HAVING ", body + rest);
  }

  lemma HavingStart(body: string, rest: string)
    ensures var s := " HAVING " + body + rest; Boundary(s) && !(" GROUP BY " <= s)
  {
    var s := " HAVING " + body + rest;
    assert s[1] == 'H';
  }

  lemma HavingReads(st: State, d: Dialect)
    requires Readable(st)
    ensures ReadHaving(HavingSql(st) + TailSql(st), d) == Some((HavingConds(st, d), TailSql(st)))
    ensures Boundary(HavingSql(st) + TailSql(st)) && !(" GROUP BY " <= HavingSql(st) + TailSql(st))
  {
    var tail := TailSql(st);
    TailStart(st);
    if st.having.None? {
      assert HavingSql(st) + tail == tail;
    } else {
      HavingKeyword(Join(HavingTexts(st.having.value), " AND "), tail, d);
      HavingStart(Join(HavingTexts(st.having.value), " AND "), tail);
      ReadJoinedConditions(st.having.value, tail, d);
    }
  }

  lemma GroupKeyword(body: string, rest: string)
    ensures ReadGroup(" GROUP BY " + body + rest) == ReadColumns(body + rest)
    ensures Boundary(" GROUP BY " + body + rest)
  {
    Assoc(" GROUP BY ", body, rest);
    PrefixOfSum(" GROUP BY ", body + rest);
  }

  lemma GroupReads(st: State, rest: string)
    requires Readable(st) && Boundary(rest) && !(" GROUP BY " <= rest)
    ensures ReadGroup(GroupSql(st) + rest) == Some((st.groupBy, rest))
    ensures Boundary(GroupSql(st) + rest)
  {
    if st.groupBy == [] {
      assert GroupSql(st) + rest == rest;
    } else {
      GroupKeyword(Join(st.groupBy, ", "), rest);
      ReadJoinedColumns(st.groupBy, rest);
    }
  }

  lemma WhereKeyword(f: string, afterWhere: string, afterGroup: string, tail: string,
                     c: Cond, groupBy: seq<string>, having: seq<Cond>, d: Dialect)
    requires ReadFilter(f + afterWhere, d) == Some((c, afterWhere))
    requires ReadGroup(afterWhere) == Some((groupBy, afterGroup))
    requires ReadHaving(afterGroup, d) == Some((having, tail))
    ensures ReadClauses(" WHERE " + f + afterWhere, d) == Some((c, groupBy, having, tail))
  {
    Assoc(" WHERE ", f, afterWhere);
    PrefixOfSum(" WHERE ", f + afterWhere);
  }

  lemma ClausesRead(st: State, d: Dialect)
    requires Readable(st)
    ensures ReadClauses(WhereSql(st) + (GroupSql(st) + (HavingSql(st) + TailSql(st))), d)
         == Some((FilterCond(st.filters, d), st.groupBy, HavingConds(st, d), TailSql(st)))
    ensures WhereSql(st) == " WHERE " + FilterSql(st.filters)
  {
    var afterGroup := HavingSql(st) + TailSql(st);
    var afterWhere := GroupSql(st) + afterGroup;
    HavingReads(st, d);
    GroupReads(st, afterGroup);
    ReadFilterSql(st.filters, afterWhere, d);
    NodeIsNotEmpty(st.filters);
    WhereKeyword(FilterSql(st.filters), afterWhere, afterGroup, TailSql(st),
                 FilterCond(st.filters, d), st.groupBy, HavingConds(st, d), d);
  }

  lemma NodeIsNotEmpty(f: Filter)
    requires f.Nested?
    ensures FilterSql(f) != ""
  {
    assert FilterSql(f)[0] == '(';
  }

  lemma BaseShape(st: State)
    requires st.table.Some?
    ensures var clauses := WhereSql(st) + (GroupSql(st) + (HavingSql(st) + TailSql(st)));
            var items := Join(st.columns, ", ") + (" FROM " + (st.table.value + clauses));
            BaseSql(st) == "SELECT " + ((if st.distinct then "DISTINCT " else "") + items)
  {
    var w, g, h, o, l := WhereSql(st), GroupSql(st), HavingSql(st), OrderSql(st), LimitSql(st);
    RegroupClauses(SelectSql(st), w, g, h, o, l);
    RegroupSelect(if st.distinct then "DISTINCT " else "", Join(st.columns, ", "), st.table.value, w + (g + (h + (o + l))));
  }

  lemma RegroupClauses(q: string, w: string, g: string, h: string, o: string, l: string)
    ensures q + w + g + h + o + l == q + (w + (g + (h + (o + l))))
  {
    Assoc(h, o, l);
    Assoc(g, h + o, l);
    Assoc(g, h, o);
    Assoc(q + w, g, h);
    Assoc(q + w, g + h, o);
    Assoc(q + w, g + h + o, l);
    Assoc(q, w, g + (h + (o + l)));
  }

  lemma RegroupSelect(distinct: string, items: string, table: string, clauses: string)
    ensures "SELECT " + distinct + items + " FROM " + table + clauses
         == "SELECT " + (distinct + (items + (" FROM " + (table + clauses))))
  {
    Assoc("SELECT " + distinct + items + " FROM ", table, clauses);
    Assoc("SELECT " + distinct + items, " FROM ", table + clauses);
    Assoc("SELECT " + distinct, items, " FROM " + (table + clauses));
    Assoc("SELECT ", distinct, items + (" FROM " + (table + clauses)));
  }

  lemma SelectDistinct(rest: string)
    ensures "SELECT " + ("DISTINCT " + rest) == "SELECT DISTINCT " + rest
    ensures "" + rest == rest
  {
    assert "SELECT " + "DISTINCT " == "SELECT DISTINCT ";
    Assoc("SELECT ", "DISTINCT ", rest);
  }

  lemma SelectKeyword(distinct: bool, items: seq<string>, itemsText: string, table: string, clauses: string,
                      c: Cond, groupBy: seq<string>, having: seq<Cond>, tail: string, d: Dialect)
    requires ReadItems(itemsText) == Some((items, table + clauses))
    requires !distinct ==> !("DISTINCT " <= itemsText)
    requires ' ' !in table && Boundary(clauses)
    requires ReadClauses(clauses, d) == Some((c, groupBy, having, tail))
    ensures ReadSelect("SELECT " + ((if distinct then "DISTINCT " else "") + itemsText), d)
         == Some(Select(distinct, items, table, c, groupBy, having, tail))
  {
    PrefixOfSum("SELECT ", (if distinct then "DISTINCT " else "") + itemsText);
    PrefixOfSum("SELECT DISTINCT ", itemsText);
    SelectDistinct(itemsText);
    PrefixOfSum("DISTINCT ", itemsText);
    SplitWord(table, clauses);
  }

  /** The text of a query, read back, yields every clause the state holds: nothing in a value, a column
      or a condition can be taken for the start of another clause. */
  lemma BaseSqlReads(st: State, d: Dialect)
    requires Readable(st)
    ensures ReadSelect(BaseSql(st), d)
         == Some(Select(st.distinct, st.columns, st.table.value, FilterCond(st.filters, d), st.groupBy, HavingConds(st, d), TailSql(st)))
  {
    var clauses := WhereSql(st) + (GroupSql(st) + (HavingSql(st) + TailSql(st)));
    var itemsText := Join(st.columns, ", ") + (" FROM " + (st.table.value + clauses));
    BaseShape(st);
    ClausesRead(st, d);
    ReadJoinedItems(st.columns, st.table.value + clauses);
    NotDistinct(st.columns, " FROM " + (st.table.value + clauses));
    SelectKeyword(st.distinct, st.columns, itemsText, st.table.value, clauses,
                  FilterCond(st.filters, d), st.groupBy, HavingConds(st, d), TailSql(st), d);
  }

  lemma NotDistinct(columns: seq<string>, rest: string)
    requires columns != [] && columns[0] != "" && !("DISTINCT" <= columns[0])
    requires " FROM " <= rest
    ensures !("DISTINCT " <= Join(columns, ", ") + rest)
  {
    var s, c := Join(columns, ", ") + rest, columns[0];
    var k := |c|;
    assert c == s[..k];
    assert s[k] == ' ' || s[k] == ',';
    var word := "DISTINCT ";
    if k < 8 {
      assert word[k] != ' ' && word[k] != ',';
    } else {
      assert c[..8] == s[..8];
      assert "DISTINCT" == word[..8];
    }
  }

  // ----- building again -----

  lemma {:induction false} EntryCondsPush(hs: seq<HavingEntry>, e: HavingEntry, d: Dialect)
    requires (forall i :: 0 <= i < |hs| ==> HavingOk(hs[i])) && HavingOk(e)
    ensures forall i :: 0 <= i < |hs + [e]| ==> HavingOk((hs + [e])[i])
    ensures EntryConds(hs + [e], d) == EntryConds(hs, d) + [PlainCond(e.aggregate, e.op, e.value, d)]
    ensures e in hs ==> PlainCond(e.aggregate, e.op, e.value, d) in EntryConds(hs, d)
  {
    if hs == [] {
      assert [] + [e] == [e] && [e][1..] == [];
    } else {
      assert (hs + [e])[1..] == hs[1..] + [e] && (hs + [e])[0] == hs[0];
      EntryCondsPush(hs[1..], e, d);
    }
  }

  /** A repeated condition leaves every other clause and the set of conditions as they are. */
  lemma RepeatedHavingReads(st: State, e: HavingEntry, d: Dialect)
    requires Readable(st) && st.having.Some? && e in st.having.value
    ensures var first, second := ReadSelect(BaseSql(st), d), ReadSelect(BaseSql(PushHaving(st, e)), d);
            && first.Some? && second.Some?
            && second.value == first.value.(having := second.value.having)
            && forall c :: c in second.value.having <==> c in first.value.having
  {
    var i :| 0 <= i < |st.having.value| && st.having.value[i] == e;
    EntryCondsPush(st.having.value, e, d);
    PushIsReadable(st, e);
    BaseSqlReads(st, d);
    BaseSqlReads(PushHaving(st, e), d);
    assert TailSql(PushHaving(st, e)) == TailSql(st);
  }

  lemma PushIsReadable(st: State, e: HavingEntry)
    requires Readable(st) && st.having.Some? && HavingOk(e)
    ensures Readable(PushHaving(st, e))
  {
  }

  /** Building twice prints the sign condition twice, and the second text reads as the same query: every clause is
      the same and HAVING asks for the same conditions. */
  lemma BuildAgainReadsAlike(st: State, d: Dialect)
    requires Readable(AfterBuild(st))
    ensures var once, twice := AfterBuild(st), AfterBuild(AfterBuild(st));
            && twice.table.Some?
            && var first, second := ReadSelect(BaseSql(once), d), ReadSelect(BaseSql(twice), d);
               && first.Some? && second.Some?
               && second.value == first.value.(having := second.value.having)
               && forall c :: c in second.value.having <==> c in first.value.having
  {
    var once := AfterBuild(st);
    if AfterBuild(once) == once {
      BaseSqlReads(once, d);
    } else {
      assert SignEntry(once) == SignEntry(st) && SignEntry(st) in once.having.value;
      RepeatedHavingReads(once, SignEntry(once), d);
    }
  }
}
