/** Time buckets: the clipping of result rows and the three grouping expressions. */
module TimeBuckets {
  import opened Text

  datatype Granularity = OneMin | FiveMin | FifteenMin | ThirtyMin | OneHour | OneDay

  datatype Level = Minute | Hour | Day

  /** A time of day down to the nanosecond. */
  datatype Clock = Clock(hour: nat, minute: nat, second: nat, nano: nat)

  datatype Stamp = Stamp(day: int, clock: Clock)

  const MIDNIGHT := Clock(0, 0, 0, 0)

  predicate ValidClock(c: Clock) {
    c.hour < 24 && c.minute < 60 && c.second < 60 && c.nano < 1_000_000_000
  }

  type Time = t: Stamp | ValidClock(t.clock) witness Stamp(0, MIDNIGHT)

  function LevelOf(g: Granularity): Level {
    match g
    case OneMin => Minute
    case FiveMin | FifteenMin | ThirtyMin | OneHour => Hour
    case OneDay => Day
  }

  function BucketSize(g: Granularity): nat {
    match g
    case OneMin => 60
    case FiveMin => 5
    case FifteenMin => 15
    case ThirtyMin => 30
    case OneHour => 60
    case OneDay => 24
  }

  // ----- checked arithmetic and the `replace_*` setters -----

  function ReplaceHour(c: Option<Clock>, h: Option<nat>): Option<Clock> {
    if c.Some? && h.Some? && h.value < 24 then Some(c.value.(hour := h.value)) else None
  }

  function ReplaceMinute(c: Option<Clock>, m: Option<nat>): Option<Clock> {
    if c.Some? && m.Some? && m.value < 60 then Some(c.value.(minute := m.value)) else None
  }

  function ReplaceSecond(c: Option<Clock>, s: Option<nat>): Option<Clock> {
    if c.Some? && s.Some? && s.value < 60 then Some(c.value.(second := s.value)) else None
  }

  /** `value - value % modulo` on `u8`. */
  function ClipDown(value: nat, modulo: nat): Option<nat> {
    if value > 255 || modulo == 0 then None else Some(value - value % modulo)
  }

  /** `value + modulo - 1 - value % modulo` on `u8`, absent when the sum overflows. */
  function ClipUp(value: nat, modulo: nat): Option<nat> {
    if modulo == 0 || value + modulo > 255 then None else Some(value + modulo - 1 - value % modulo)
  }

  function ClipToStart(g: Granularity, t: Stamp): (r: Option<Stamp>)
    ensures ValidClock(t.clock) ==> r.Some? && ValidClock(r.value.clock)
  {
    var i := BucketSize(g);
    var clock :=
      match LevelOf(g)
      case Minute =>
        ReplaceHour(ReplaceMinute(ReplaceSecond(Some(MIDNIGHT), ClipDown(t.clock.second, i)), Some(t.clock.minute)), Some(t.clock.hour))
      case Hour => ReplaceHour(ReplaceMinute(Some(MIDNIGHT), ClipDown(t.clock.minute, i)), Some(t.clock.hour))
      case Day => ReplaceHour(Some(MIDNIGHT), ClipDown(t.clock.hour, i));
    match clock case None => None case Some(c) => Some(Stamp(t.day, c))
  }

  function ClipToEnd(g: Granularity, t: Stamp): (r: Option<Stamp>)
    ensures ValidClock(t.clock) ==> r.Some? && ValidClock(r.value.clock)
  {
    var i := BucketSize(g);
    var clock :=
      match LevelOf(g)
      case Minute =>
        ReplaceHour(ReplaceMinute(ReplaceSecond(Some(MIDNIGHT), ClipUp(t.clock.second, i)), Some(t.clock.minute)), Some(t.clock.hour))
      case Hour => ReplaceHour(ReplaceMinute(Some(MIDNIGHT), ClipUp(t.clock.minute, i)), Some(t.clock.hour))
      case Day => ReplaceHour(Some(MIDNIGHT), ClipUp(t.clock.hour, i));
    match clock case None => None case Some(c) => Some(Stamp(t.day, c))
  }

  // ----- the grouping expressions -----

  /** Whole seconds since day zero. */
  function Seconds(t: Stamp): int {
    t.day * 86400 + t.clock.hour * 3600 + t.clock.minute * 60 + t.clock.second
  }

  /** Nanoseconds since day zero: the order of timestamps. */
  function Instant(t: Stamp): int {
    Seconds(t) * 1_000_000_000 + t.clock.nano
  }

  const SECOND := 1_000_000_000

  /** The start of the second. */
  function WholeSecond(t: Time): (w: Time)
    ensures Seconds(w) == Seconds(t) && Instant(w) == FloorTo(Instant(t), SECOND)
  {
    WholeIsFloor(Seconds(t), t.clock.nano);
    t.(clock := t.clock.(nano := 0))
  }

  lemma WholeIsFloor(s: int, nano: nat)
    requires nano < SECOND
    ensures FloorTo(s * SECOND + nano, SECOND) == s * SECOND
  {
  }

  /** The time of an instant. */
  function TimeAt(n: int): (t: Time)
    ensures Instant(t) == n
  {
    var s := n / 1_000_000_000;
    var rest := s % 86400;
    Stamp(s / 86400, Clock(rest / 3600, rest % 3600 / 60, rest % 60, n % 1_000_000_000))
  }

  function FloorTo(n: int, step: int): int
    requires step > 0
  {
    n / step * step
  }

  /** `DATE_TRUNC('minute'|'hour'|'day', created_at)`. */
  function DateTrunc(level: Level, t: Stamp): int {
    match level
    case Minute => FloorTo(Seconds(t), 60)
    case Hour => FloorTo(Seconds(t), 3600)
    case Day => FloorTo(Seconds(t), 86400)
  }

  /** The Postgres grouping: the truncated time and, below the hour, `FLOOR(DATE_PART('minute', created_at)/size)`. */
  function PostgresKey(g: Granularity, t: Stamp): (int, Option<int>) {
    (DateTrunc(LevelOf(g), t),
     if g.FiveMin? || g.FifteenMin? || g.ThirtyMin? then Some(t.clock.minute / BucketSize(g)) else None)
  }

  /** The bucket width in seconds. */
  function Width(g: Granularity): int {
    match g
    case OneMin => 60
    case FiveMin => 300
    case FifteenMin => 900
    case ThirtyMin => 1800
    case OneHour => 3600
    case OneDay => 86400
  }

  /** `toStartOfMinute`, `toStartOfFiveMinutes`, .. , `toStartOfDay`. */
  function ClickhouseBucket(g: Granularity, t: Stamp): int {
    FloorTo(Seconds(t), Width(g))
  }

  function IntervalMinutes(g: Granularity): int {
    match g
    case OneMin => 1
    case FiveMin => 5
    case FifteenMin => 15
    case ThirtyMin => 30
    case OneHour => 60
    case OneDay => 1440
  }

  /** `toStartOfInterval(created_at, INTERVAL n MINUTE)`: whole minutes floored to the interval. */
  function IntervalBucket(g: Granularity, t: Stamp): int {
    FloorTo(Seconds(t) / 60, IntervalMinutes(g)) * 60
  }

  /** One step of the clipped field, in seconds. */
  function Unit(g: Granularity): int {
    match LevelOf(g)
    case Minute => 1
    case Hour => 60
    case Day => 3600
  }

  // ----- results -----

  function StartClock(g: Granularity, c: Clock): Clock
    requires ValidClock(c)
  {
    match g
    case OneMin => Clock(c.hour, c.minute, 0, 0)
    case FiveMin => Clock(c.hour, c.minute / 5 * 5, 0, 0)
    case FifteenMin => Clock(c.hour, c.minute / 15 * 15, 0, 0)
    case ThirtyMin => Clock(c.hour, c.minute / 30 * 30, 0, 0)
    case OneHour => Clock(c.hour, 0, 0, 0)
    case OneDay => Clock(0, 0, 0, 0)
  }

  function EndClock(g: Granularity, c: Clock): Clock
    requires ValidClock(c)
  {
    match g
    case OneMin => Clock(c.hour, c.minute, 59, 0)
    case FiveMin => Clock(c.hour, c.minute / 5 * 5 + 4, 0, 0)
    case FifteenMin => Clock(c.hour, c.minute / 15 * 15 + 14, 0, 0)
    case ThirtyMin => Clock(c.hour, c.minute / 30 * 30 + 29, 0, 0)
    case OneHour => Clock(c.hour, 59, 0, 0)
    case OneDay => Clock(23, 0, 0, 0)
  }

  lemma StartClosedForm(g: Granularity, t: Stamp)
    requires ValidClock(t.clock)
    ensures ClipToStart(g, t) == Some(Stamp(t.day, StartClock(g, t.clock)))
  {
    match g
    case OneMin => SmallMod(t.clock.second, 60);
    case FiveMin => FloorAsMod(t.clock.minute, 5);
    case FifteenMin => FloorAsMod(t.clock.minute, 15);
    case ThirtyMin => FloorAsMod(t.clock.minute, 30);
    case OneHour => SmallMod(t.clock.minute, 60);
    case OneDay => SmallMod(t.clock.hour, 24);
  }

  lemma SmallMod(n: nat, k: nat)
    requires n < k
    ensures n % k == n
  {
  }

  lemma FloorAsMod(n: nat, k: nat)
    requires k > 0
    ensures n - n % k == n / k * k
  {
  }

  lemma EndClosedForm(g: Granularity, t: Stamp)
    requires ValidClock(t.clock)
    ensures ClipToEnd(g, t) == Some(Stamp(t.day, EndClock(g, t.clock)))
  {
    match g
    case OneMin => SmallMod(t.clock.second, 60);
    case FiveMin => FloorAsMod(t.clock.minute, 5);
    case FifteenMin => FloorAsMod(t.clock.minute, 15);
    case ThirtyMin => FloorAsMod(t.clock.minute, 30);
    case OneHour => SmallMod(t.clock.minute, 60);
    case OneDay => SmallMod(t.clock.hour, 24);
  }

  lemma MultipleNearZero(d: int, w: int)
    requires w > 0 && -w < d * w < w
    ensures d == 0
  {
  }

  lemma FloorIs(n: int, w: int, q: int, r: int)
    requires w > 0 && n == q * w + r && 0 <= r < w
    ensures n / w == q && FloorTo(n, w) == q * w
  {
    var d := n / w - q;
    assert d * w == (n / w) * w - q * w;
    MultipleNearZero(d, w);
  }

  lemma FloorLaws(n: int, w: int)
    requires w > 0
    ensures FloorTo(n, w) <= n < FloorTo(n, w) + w
  {
  }

  /** The offset of a timestamp inside its bucket. */
  function Offset(g: Granularity, t: Stamp): int {
    match g
    case OneMin => t.clock.second
    case FiveMin => t.clock.minute % 5 * 60 + t.clock.second
    case FifteenMin => t.clock.minute % 15 * 60 + t.clock.second
    case ThirtyMin => t.clock.minute % 30 * 60 + t.clock.second
    case OneHour => t.clock.minute * 60 + t.clock.second
    case OneDay => t.clock.hour * 3600 + t.clock.minute * 60 + t.clock.second
  }

  lemma BucketOffset(g: Granularity, t: Stamp)
    requires ValidClock(t.clock)
    ensures 0 <= Offset(g, t) < Width(g)
    ensures ClickhouseBucket(g, t) == Seconds(t) - Offset(g, t)
  {
    var s, c, d := Seconds(t), t.clock, t.day;
    match g
    case OneMin => FloorIs(s, 60, d * 1440 + c.hour * 60 + c.minute, Offset(g, t));
    case FiveMin => FloorIs(s, 300, d * 288 + c.hour * 12 + c.minute / 5, Offset(g, t));
    case FifteenMin => FloorIs(s, 900, d * 96 + c.hour * 4 + c.minute / 15, Offset(g, t));
    case ThirtyMin => FloorIs(s, 1800, d * 48 + c.hour * 2 + c.minute / 30, Offset(g, t));
    case OneHour => FloorIs(s, 3600, d * 24 + c.hour, Offset(g, t));
    case OneDay => FloorIs(s, 86400, d, Offset(g, t));
  }

  lemma ClippedSeconds(g: Granularity, t: Stamp)
    requires ValidClock(t.clock)
    ensures Seconds(ClipToStart(g, t).value) == ClickhouseBucket(g, t)
    ensures Seconds(ClipToEnd(g, t).value) + Unit(g) == ClickhouseBucket(g, t) + Width(g)
  {
    BucketOffset(g, t);
    StartClosedForm(g, t);
    EndClosedForm(g, t);
    ClosedSeconds(g, t);
  }

  lemma ClosedSeconds(g: Granularity, t: Stamp)
    requires ValidClock(t.clock)
    ensures Seconds(Stamp(t.day, StartClock(g, t.clock))) == Seconds(t) - Offset(g, t)
    ensures Seconds(Stamp(t.day, EndClock(g, t.clock))) + Unit(g) == Seconds(t) - Offset(g, t) + Width(g)
  {
  }

  lemma SecondsInjective(a: Stamp, b: Stamp)
    requires ValidClock(a.clock) && ValidClock(b.clock) && a.clock.nano == b.clock.nano
    requires Seconds(a) == Seconds(b)
    ensures a == b
  {
    assert a.day == Seconds(a) / 86400 && b.day == Seconds(b) / 86400;
    assert a.clock.hour == Seconds(a) / 3600 - a.day * 24 && b.clock.hour == Seconds(b) / 3600 - b.day * 24;
    assert a.clock.minute == Seconds(a) / 60 - a.day * 1440 - a.clock.hour * 60;
  }

  lemma InstantInjective(a: Time, b: Time)
    requires Instant(a) == Instant(b)
    ensures a == b
  {
    assert Seconds(a) == Instant(a) / 1_000_000_000 && Seconds(b) == Instant(b) / 1_000_000_000;
    SecondsInjective(a, b);
  }

  lemma IntervalIsClickhouse(g: Granularity, t: Stamp)
    requires ValidClock(t.clock)
    ensures IntervalBucket(g, t) == ClickhouseBucket(g, t)
  {
    var s := Seconds(t);
    match g
    case OneMin =>
    case FiveMin => assert s / 60 / 5 == s / 300;
    case FifteenMin => assert s / 60 / 15 == s / 900;
    case ThirtyMin => assert s / 60 / 30 == s / 1800;
    case OneHour => assert s / 60 / 60 == s / 3600;
    case OneDay => assert s / 60 / 1440 == s / 86400;
  }

  predicate BelowHour(g: Granularity) {
    g.FiveMin? || g.FifteenMin? || g.ThirtyMin?
  }

  lemma HourAndPart(g: Granularity, t: Stamp)
    requires ValidClock(t.clock)
    ensures DateTrunc(Hour, t) == t.day * 86400 + t.clock.hour * 3600
    ensures BelowHour(g) ==> ClickhouseBucket(g, t) == DateTrunc(Hour, t) + t.clock.minute / BucketSize(g) * Width(g)
    ensures !BelowHour(g) ==> ClickhouseBucket(g, t) == DateTrunc(LevelOf(g), t)
  {
    BucketOffset(g, t);
    BucketOffset(OneHour, t);
  }

  /** The minute's bucket is what refines the truncated hour to the ClickHouse bucket. */
  lemma PostgresIsClickhouse(g: Granularity, a: Stamp, b: Stamp)
    requires ValidClock(a.clock) && ValidClock(b.clock)
    ensures PostgresKey(g, a) == PostgresKey(g, b) <==> ClickhouseBucket(g, a) == ClickhouseBucket(g, b)
  {
    HourAndPart(g, a);
    HourAndPart(g, b);
    if BelowHour(g) {
      HourParts(a.day * 24 + a.clock.hour, b.day * 24 + b.clock.hour,
                a.clock.minute / BucketSize(g), b.clock.minute / BucketSize(g), g);
    }
  }

  lemma HourParts(h: int, h': int, part: int, part': int, g: Granularity)
    requires BelowHour(g) && 0 <= part < 60 / BucketSize(g) && 0 <= part' < 60 / BucketSize(g)
    ensures h * 3600 + part * Width(g) == h' * 3600 + part' * Width(g) <==> h == h' && part == part'
  {
  }

  /** Whether two rows fall in one bucket does not depend on who groups them: Postgres' key, ClickHouse's
      bucket, the minute interval and the clipped start all tell the same pairs apart. */
  lemma BucketsCoincide(g: Granularity, a: Stamp, b: Stamp)
    requires ValidClock(a.clock) && ValidClock(b.clock)
    ensures ClickhouseBucket(g, a) == ClickhouseBucket(g, b) <==> PostgresKey(g, a) == PostgresKey(g, b)
    ensures ClickhouseBucket(g, a) == ClickhouseBucket(g, b) <==> IntervalBucket(g, a) == IntervalBucket(g, b)
    ensures ClickhouseBucket(g, a) == ClickhouseBucket(g, b) <==> ClipToStart(g, a) == ClipToStart(g, b)
    ensures ClickhouseBucket(g, a) == ClickhouseBucket(g, b) <==> ClipToEnd(g, a) == ClipToEnd(g, b)
  {
    PostgresIsClickhouse(g, a, b);
    IntervalIsClickhouse(g, a);
    IntervalIsClickhouse(g, b);
    ClippedSeconds(g, a);
    ClippedSeconds(g, b);
    EndClosedForm(g, a);
    EndClosedForm(g, b);
    StartClosedForm(g, a);
    StartClosedForm(g, b);
    if ClickhouseBucket(g, a) == ClickhouseBucket(g, b) {
      SecondsInjective(ClipToStart(g, a).value, ClipToStart(g, b).value);
      SecondsInjective(ClipToEnd(g, a).value, ClipToEnd(g, b).value);
    }
  }

  /** Clipping to the start is idempotent, monotone and never later than its input. */
  lemma ClipToStartLaws(g: Granularity, a: Stamp, b: Stamp)
    requires ValidClock(a.clock) && ValidClock(b.clock)
    ensures var s := ClipToStart(g, a).value; ClipToStart(g, s) == Some(s)
    ensures Instant(ClipToStart(g, a).value) <= Instant(a)
    ensures Instant(a) <= Instant(b) ==> Instant(ClipToStart(g, a).value) <= Instant(ClipToStart(g, b).value)
  {
    var sa, sb := ClipToStart(g, a).value, ClipToStart(g, b).value;
    ClippedSeconds(g, a);
    ClippedSeconds(g, b);
    BucketOffset(g, a);
    assert Seconds(sa) <= Seconds(a);
    if Instant(a) <= Instant(b) {
      assert Seconds(a) <= Seconds(b);
      FloorMonotone(Seconds(a), Seconds(b), Width(g));
    }
    ClipAgain(g, a);
  }

  lemma ClipAgain(g: Granularity, t: Stamp)
    requires ValidClock(t.clock)
    ensures var s := ClipToStart(g, t).value; ClipToStart(g, s) == Some(s)
  {
    StartClosedForm(g, t);
    StartClosedForm(g, ClipToStart(g, t).value);
    ClosedAgain(g, t.clock);
  }

  lemma ClosedAgain(g: Granularity, c: Clock)
    requires ValidClock(c) && ValidClock(StartClock(g, c)) && ValidClock(EndClock(g, c))
    ensures StartClock(g, StartClock(g, c)) == StartClock(g, c)
    ensures StartClock(g, EndClock(g, c)) == StartClock(g, c)
  {
    match g
    case FiveMin => FloorAgain(c.minute, 5);
    case FifteenMin => FloorAgain(c.minute, 15);
    case ThirtyMin => FloorAgain(c.minute, 30);
    case _ =>
  }

  lemma FloorAgain(n: nat, k: nat)
    requires k > 0
    ensures n / k * k / k == n / k && (n / k * k + (k - 1)) / k == n / k
  {
    FloorIs(n / k * k, k, n / k, 0);
    FloorIs(n / k * k + (k - 1), k, n / k, k - 1);
  }

  lemma FloorMonotone(a: int, b: int, w: int)
    requires a <= b && w > 0
    ensures FloorTo(a, w) <= FloorTo(b, w)
  {
    var gap := b / w - a / w;
    FloorLaws(a, w);
    FloorLaws(b, w);
    assert gap * w == FloorTo(b, w) - FloorTo(a, w);
    AboveMinusOne(gap, w);
  }

  lemma AboveMinusOne(d: int, w: int)
    requires w > 0 && d * w > -w
    ensures d * w >= 0
  {
  }

  /** Clipping to the end gives the start of the bucket's last unit, one unit before the next bucket; it is
      earlier than its input exactly for inputs strictly inside that last unit. */
  lemma ClipToEndExact(g: Granularity, t: Stamp)
    requires ValidClock(t.clock)
    ensures var start, end := ClipToStart(g, t).value, ClipToEnd(g, t).value;
            && Seconds(end) + Unit(g) == Seconds(start) + Width(g)
            && ClipToStart(g, end) == Some(start)
            && end.clock.nano == 0
            && (Instant(end) < Instant(t) <==>
                  Offset(g, t) > Width(g) - Unit(g) || (Offset(g, t) == Width(g) - Unit(g) && t.clock.nano > 0))
  {
    ClippedSeconds(g, t);
    StartOfEnd(g, t);
    BucketOffset(g, t);
  }

  lemma StartOfEnd(g: Granularity, t: Stamp)
    requires ValidClock(t.clock)
    ensures var start, end := ClipToStart(g, t).value, ClipToEnd(g, t).value;
            ClipToStart(g, end) == Some(start) && end.clock.nano == 0
  {
    StartClosedForm(g, t);
    EndClosedForm(g, t);
    StartClosedForm(g, ClipToEnd(g, t).value);
    ClosedAgain(g, t.clock);
  }

  /** The end of a bucket can lie before the row it was computed from. */
  lemma ClipToEndCanBeEarlier()
    ensures var t := Stamp(0, Clock(10, 59, 30, 0));
            ClipToEnd(OneHour, t) == Some(Stamp(0, Clock(10, 59, 0, 0))) && Instant(ClipToEnd(OneHour, t).value) < Instant(t)
  {
  }
}
