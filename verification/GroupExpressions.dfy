/** The texts a granularity adds to GROUP BY on either client, and what an engine computes for them. */
module GroupExpressions {
  import opened Text
  import opened Decimal
  import opened Aggregates
  import opened TimeBuckets

  function LevelText(level: Level): string {
    match level
    case Minute => "minute"
    case Hour => "hour"
    case Day => "day"
  }

  function CallSql(name: string, arg: string): string {
    name + "(" + arg + ")"
  }

  function StartOfName(g: Granularity): string
    requires !g.ThirtyMin?
  {
    match g
    case OneMin => "toStartOfMinute"
    case FiveMin => "toStartOfFiveMinutes"
    case FifteenMin => "toStartOfFifteenMinutes"
    case OneHour => "toStartOfHour"
    case OneDay => "toStartOfDay"
  }

  /** The expressions `set_group_by_clause` adds. */
  function GranularityTexts(client: Client, g: Granularity): seq<string> {
    match client
    case Sqlx =>
      [CallSql("DATE_TRUNC", "'" + LevelText(LevelOf(g)) + "', created_at")] +
      (if BelowHour(g) then [CallSql("FLOOR", "DATE_PART('minute', created_at)/" + NatText(BucketSize(g)))] else [])
    case Clickhouse =>
      if g.ThirtyMin? then [CallSql("toStartOfInterval", "created_at, INTERVAL " + NatText(30) + " minute")]
      else [CallSql(StartOfName(g), "created_at")]
  }

  // ----- reading -----

  /** An expression over `created_at`; widths are in seconds. */
  datatype TimeExpr = Trunc(level: Level) | MinutePart(size: nat) | StartOf(width: nat)

  function ReadSize(s: string): Option<nat> {
    if s != "" && AllDigits(s) && NatValue(s) > 0 then Some(NatValue(s)) else None
  }

  function ReadStartOf(name: string, arg: string): Option<TimeExpr> {
    if arg != "created_at" then None
    else if name == "toStartOfMinute" then Some(StartOf(60))
    else if name == "toStartOfFiveMinutes" then Some(StartOf(300))
    else if name == "toStartOfFifteenMinutes" then Some(StartOf(900))
    else if name == "toStartOfHour" then Some(StartOf(3600))
    else if name == "toStartOfDay" then Some(StartOf(86400))
    else None
  }

  function ReadTrunc(arg: string): Option<TimeExpr> {
    match Strip(arg, "'", "', created_at")
    case None => None
    case Some(word) =>
      if word == "minute" then Some(Trunc(Minute))
      else if word == "hour" then Some(Trunc(Hour))
      else if word == "day" then Some(Trunc(Day))
      else None
  }

  function ReadMinutePart(arg: string): Option<TimeExpr> {
    match Strip(arg, "DATE_PART('minute', created_at)/", "")
    case None => None
    case Some(digits) => (match ReadSize(digits) case None => None case Some(n) => Some(MinutePart(n)))
  }

  function ReadInterval(arg: string): Option<TimeExpr> {
    match Strip(arg, "created_at, INTERVAL ", " minute")
    case None => None
    case Some(digits) => (match ReadSize(digits) case None => None case Some(n) => Some(StartOf(n * 60)))
  }

  function ReadTimeCall(name: string, arg: string): Option<TimeExpr> {
    if name == "DATE_TRUNC" then ReadTrunc(arg)
    else if name == "FLOOR" then ReadMinutePart(arg)
    else if name == "toStartOfInterval" then ReadInterval(arg)
    else ReadStartOf(name, arg)
  }

  /** A call of one of the time functions; anything else is not a time expression. */
  function ReadTimeExpr(s: string): Option<TimeExpr> {
    var name := Until(s, IsOpen);
    match Strip(s, name + "(", ")")
    case None => None
    case Some(arg) => ReadTimeCall(name, arg)
  }

  function TimeValue(e: TimeExpr, t: Time): int {
    match e
    case Trunc(level) => DateTrunc(level, t)
    case MinutePart(n) => if n == 0 then 0 else t.clock.minute / n
    case StartOf(w) => if w == 0 then 0 else FloorTo(Seconds(t), w)
  }

  // ----- what the texts read as -----

  lemma CallReads(name: string, arg: string)
    requires '(' !in name
    ensures ReadTimeExpr(CallSql(name, arg)) == ReadTimeCall(name, arg)
  {
    Assoc(name, "(", arg);
    Assoc(name, "(" + arg, ")");
    UntilRun(name, "(" + arg + ")", IsOpen);
    StripWrapped(arg, name + "(", ")");
  }

  lemma TruncReads(level: Level)
    ensures ReadTimeExpr(CallSql("DATE_TRUNC", "'" + LevelText(level) + "', created_at")) == Some(Trunc(level))
  {
    CallReads("DATE_TRUNC", "'" + LevelText(level) + "', created_at");
    StripWrapped(LevelText(level), "'", "', created_at");
  }

  lemma MinutePartReads(n: nat)
    requires n > 0
    ensures ReadTimeExpr(CallSql("FLOOR", "DATE_PART('minute', created_at)/" + NatText(n))) == Some(MinutePart(n))
  {
    var open, digits := "DATE_PART('minute', created_at)/", NatText(n);
    FloorIsNoTrunc(open + digits);
    CallReads("FLOOR", open + digits);
    SizeReads(n);
    StripWrapped(digits, open, "");
    assert open + digits + "" == open + digits;
  }

  lemma SizeReads(n: nat)
    requires n > 0
    ensures ReadSize(NatText(n)) == Some(n)
  {
    NatTextRoundTrip(n);
  }

  lemma FloorIsNoTrunc(arg: string)
    ensures ReadTimeCall("FLOOR", arg) == ReadMinutePart(arg)
    ensures ReadTimeCall("toStartOfInterval", arg) == ReadInterval(arg)
  {
    assert |"DATE_TRUNC"| == 10 && |"FLOOR"| == 5 && |"toStartOfInterval"| == 17;
  }

  lemma IntervalReads(n: nat)
    requires n > 0
    ensures ReadTimeExpr(CallSql("toStartOfInterval", "created_at, INTERVAL " + NatText(n) + " minute")) == Some(StartOf(n * 60))
  {
    var arg := "created_at, INTERVAL " + NatText(n) + " minute";
    FloorIsNoTrunc(arg);
    CallReads("toStartOfInterval", arg);
    SizeReads(n);
    StripWrapped(NatText(n), "created_at, INTERVAL ", " minute");
  }

  lemma StartOfReads(g: Granularity)
    requires !g.ThirtyMin?
    ensures ReadTimeExpr(CallSql(StartOfName(g), "created_at")) == Some(StartOf(Width(g)))
  {
    var name := StartOfName(g);
    StartOfNameReads(g);
    CallReads(name, "created_at");
  }

  lemma StartOfNameReads(g: Granularity)
    requires !g.ThirtyMin?
    ensures '(' !in StartOfName(g) && ReadTimeCall(StartOfName(g), "created_at") == Some(StartOf(Width(g)))
  {
  }

  lemma ClickhouseReads(g: Granularity)
    ensures |GranularityTexts(Clickhouse, g)| == 1
    ensures ReadTimeExpr(GranularityTexts(Clickhouse, g)[0]) == Some(StartOf(Width(g)))
  {
    if g.ThirtyMin? {
      IntervalReads(30);
    } else {
      StartOfReads(g);
    }
  }

  /** What an engine computes for each text of a granularity. */
  function TimeKey(texts: seq<string>, t: Time): seq<Option<int>> {
    seq(|texts|, i requires 0 <= i < |texts| =>
      match ReadTimeExpr(texts[i]) case None => None case Some(e) => Some(TimeValue(e, t)))
  }

  lemma OneKey(texts: seq<string>, e: TimeExpr, t: Time)
    requires |texts| == 1 && ReadTimeExpr(texts[0]) == Some(e)
    ensures TimeKey(texts, t) == [Some(TimeValue(e, t))]
  {
  }

  lemma TwoKeys(text: string, e: TimeExpr, text': string, e': TimeExpr, t: Time)
    requires ReadTimeExpr(text) == Some(e) && ReadTimeExpr(text') == Some(e')
    ensures TimeKey([text] + [text'], t) == [Some(TimeValue(e, t))] + [Some(TimeValue(e', t))]
  {
  }

  lemma ClickhouseKeyIs(g: Granularity, t: Time)
    ensures TimeKey(GranularityTexts(Clickhouse, g), t) == [Some(ClickhouseBucket(g, t))]
  {
    ClickhouseReads(g);
    OneKey(GranularityTexts(Clickhouse, g), StartOf(Width(g)), t);
  }

  lemma PostgresKeyIs(g: Granularity, t: Time)
    ensures var (trunc, part) := PostgresKey(g, t);
            TimeKey(GranularityTexts(Sqlx, g), t) == [Some(trunc)] + (if part.Some? then [part] else [])
  {
    var trunc := CallSql("DATE_TRUNC", "'" + LevelText(LevelOf(g)) + "', created_at");
    TruncReads(LevelOf(g));
    if BelowHour(g) {
      var part := CallSql("FLOOR", "DATE_PART('minute', created_at)/" + NatText(BucketSize(g)));
      MinutePartReads(BucketSize(g));
      TwoKeys(trunc, Trunc(LevelOf(g)), part, MinutePart(BucketSize(g)), t);
    } else {
      OneKey([trunc] + [], Trunc(LevelOf(g)), t);
    }
  }

  /** The texts of the two clients put the same pairs of times into one group. */
  lemma TextsGroupAlike(g: Granularity, a: Time, b: Time)
    ensures TimeKey(GranularityTexts(Clickhouse, g), a) == TimeKey(GranularityTexts(Clickhouse, g), b)
       <==> TimeKey(GranularityTexts(Sqlx, g), a) == TimeKey(GranularityTexts(Sqlx, g), b)
  {
    ClickhouseKeyIs(g, a);
    ClickhouseKeyIs(g, b);
    PostgresKeyIs(g, a);
    PostgresKeyIs(g, b);
    PostgresIsClickhouse(g, a, b);
    PairEqual(PostgresKey(g, a), PostgresKey(g, b));
  }

  lemma PairEqual(x: (int, Option<int>), y: (int, Option<int>))
    requires x.1.Some? <==> y.1.Some?
    ensures [Some(x.0)] + (if x.1.Some? then [x.1] else []) == [Some(y.0)] + (if y.1.Some? then [y.1] else []) <==> x == y
  {
    var s, t := [Some(x.0)] + (if x.1.Some? then [x.1] else []), [Some(y.0)] + (if y.1.Some? then [y.1] else []);
    assert s[0] == Some(x.0) && t[0] == Some(y.0);
    assert x.1.Some? ==> s[1] == x.1 && t[1] == y.1;
  }
}
