/** Cron schedules: the five fields, and the search for the next firing. */
module Cron {
  import opened Calendar

  datatype Result<T> = Ok(value: T) | CronError

  // ---- Fields ----

  // One comma-separated part of a field, once `int` has read its numbers.
  datatype Base = Star | Range(first: int, last: int) | Single(value: int) | BadNumber
  datatype Step = NoStep | Every(n: int) | BadStep
  datatype Part = Part(base: Base, step: Step)

  function First(p: Part, lo: int): int {
    match p.base case Range(a, _) => a case Single(v) => v case _ => lo
  }

  function Last(p: Part, hi: int): int {
    match p.base case Range(_, b) => b case Single(v) => v case _ => hi
  }

  function StepOf(p: Part): int {
    if p.step.Every? then p.step.n else 1
  }

  predicate GoodPart(p: Part, lo: int, hi: int) {
    && !p.base.BadNumber? && !p.step.BadStep? && StepOf(p) >= 1
    && lo <= First(p, lo) <= Last(p, hi) <= hi
  }

  /** `v` is one of the values the part `p` names. */
  predicate Names(p: Part, lo: int, hi: int, v: int)
    requires GoodPart(p, lo, hi)
  {
    First(p, lo) <= v <= Last(p, hi) && (v - First(p, lo)) % StepOf(p) == 0
  }

  /** What the source accepts: a star, a number or an ascending range within the limits, and a step of
      at least one. */
  predicate Allowed(p: Part, lo: int, hi: int) {
    && (match p.base
        case Star => lo <= hi
        case Range(a, b) => lo <= a <= b <= hi
        case Single(v) => lo <= v <= hi
        case BadNumber => false)
    && match p.step
    case NoStep => true
    case Every(n) => 1 <= n
    case BadStep => false
  }

  /** `v` is `k` steps of `n` above `first`. */
  predicate StepsAbove(first: int, n: int, k: int, v: int) {
    v == first + k * n
  }

  /** `v` is some steps of `n` above `first` and not above `last`. */
  ghost predicate Steps(first: int, last: int, n: int, v: int) {
    v <= last && exists k: nat :: StepsAbove(first, n, k, v)
  }

  /** `v` is one of the values that a part stands for. */
  ghost predicate StandsFor(p: Part, lo: int, hi: int, v: int) {
    var n := if p.step.Every? then p.step.n else 1;
    match p.base
    case Star => Steps(lo, hi, n, v)
    case Range(a, b) => Steps(a, b, n, v)
    case Single(x) => v == x
    case BadNumber => false
  }

  /** `v` is one of the values that a field stands for. */
  ghost predicate InField(parts: seq<Part>, lo: int, hi: int, v: int) {
    exists p :: p in parts && StandsFor(p, lo, hi, v)
  }

  lemma GoodIsAllowed(p: Part, lo: int, hi: int)
    ensures GoodPart(p, lo, hi) <==> Allowed(p, lo, hi)
  {
  }

  lemma AllGoodAllowed(parts: seq<Part>, lo: int, hi: int)
    ensures (forall p | p in parts :: GoodPart(p, lo, hi)) <==> forall p | p in parts :: Allowed(p, lo, hi)
  {
    hide GoodPart, Allowed;
    forall p ensures GoodPart(p, lo, hi) <==> Allowed(p, lo, hi) {
      GoodIsAllowed(p, lo, hi);
    }
  }

  /** Whole steps are what leaves no remainder. */
  lemma StepsRemainder(first: int, last: int, n: int, v: int)
    requires n >= 1
    ensures Steps(first, last, n, v) <==> first <= v <= last && (v - first) % n == 0
  {
    if Steps(first, last, n, v) {
      var k: nat :| StepsAbove(first, n, k, v);
      Multiple(k, n);
    }
    if first <= v <= last && (v - first) % n == 0 {
      var k: nat := (v - first) / n;
      assert StepsAbove(first, n, k, v);
    }
  }

  lemma Multiple(k: nat, n: int)
    requires n >= 1
    ensures k * n >= 0 && (k * n) % n == 0
  {
    var q, r := (k * n) / n, (k * n) % n;
    var d := k - q;
    assert d * n == r by { assert k * n == q * n + r; }
  }

  lemma NamesStandsFor(p: Part, lo: int, hi: int, v: int)
    requires GoodPart(p, lo, hi)
    ensures Names(p, lo, hi, v) <==> StandsFor(p, lo, hi, v)
  {
    StepsRemainder(First(p, lo), Last(p, hi), StepOf(p), v);
    hide Steps;
  }

  /** `values` are those that the field stands for. */
  ghost predicate IsField(parts: seq<Part>, lo: int, hi: int, values: set<int>) {
    forall v :: v in values <==> InField(parts, lo, hi, v)
  }

  ghost predicate Within(s: set<int>, lo: int, hi: int) {
    (exists v :: v in s) && forall v | v in s :: lo <= v <= hi
  }

  /** `values` are the values the parts of a field name. */
  ghost predicate IsNamed(parts: seq<Part>, lo: int, hi: int, values: set<int>)
    requires forall p | p in parts :: GoodPart(p, lo, hi)
  {
    forall v :: v in values <==> exists p :: p in parts && Names(p, lo, hi, v)
  }

  lemma NamedIsField(parts: seq<Part>, lo: int, hi: int, values: set<int>)
    requires forall p | p in parts :: GoodPart(p, lo, hi)
    requires IsNamed(parts, lo, hi, values)
    ensures IsField(parts, lo, hi, values)
  {
    hide GoodPart, Names, StandsFor;
    forall v ensures v in values <==> InField(parts, lo, hi, v) {
      forall p | p in parts ensures Names(p, lo, hi, v) <==> StandsFor(p, lo, hi, v) {
        NamesStandsFor(p, lo, hi, v);
      }
    }
  }

  /** `range(first, last + 1, step)`. */
  function Values(p: Part, lo: int, hi: int): set<int>
    requires GoodPart(p, lo, hi)
  {
    set v | lo <= v <= hi && Names(p, lo, hi, v)
  }

  /** `_parse_field`: refused exactly when some part is malformed or out of range, and otherwise
      the values named by any part. `split` never yields an empty list of parts. */
  method ParseField(parts: seq<Part>, lo: int, hi: int) returns (r: Result<set<int>>)
    requires parts != []
    ensures r.Ok? <==> forall p | p in parts :: Allowed(p, lo, hi)
    ensures r.Ok? ==> IsField(parts, lo, hi, r.value)
    ensures r.Ok? <==> forall p | p in parts :: GoodPart(p, lo, hi)
    ensures r.Ok? ==> IsNamed(parts, lo, hi, r.value) && Within(r.value, lo, hi)
  {
    hide Allowed, IsField;
    AllGoodAllowed(parts, lo, hi);
    var values: set<int> := {};
    for i := 0 to |parts|
      invariant forall p | p in parts[..i] :: GoodPart(p, lo, hi)
      invariant forall v :: v in values <==> exists p :: p in parts[..i] && Names(p, lo, hi, v)
    {
      var p := parts[i];
      if !GoodPart(p, lo, hi) { return CronError; }
      values := values + Values(p, lo, hi);
      assert parts[..i + 1] == parts[..i] + [p];
    }
    assert parts[..|parts|] == parts;
    assert parts[0] in parts;
    assert Names(parts[0], lo, hi, First(parts[0], lo)) && First(parts[0], lo) in values;
    NamedIsField(parts, lo, hi, values);
    return Ok(values);
  }

  datatype Schedule = Schedule(
    minute: set<int>, hour: set<int>, dom: set<int>, month: set<int>, dow: set<int>,
    domRestricted: bool, dowRestricted: bool)

  /** What a parsed expression guarantees; an unrestricted day field names every day. */
  ghost predicate WellFormed(c: Schedule) {
    && Within(c.minute, 0, 59) && Within(c.hour, 0, 23) && Within(c.dom, 1, 31)
    && Within(c.month, 1, 12) && Within(c.dow, 0, 6)
    && (!c.domRestricted ==> forall d :: 1 <= d <= 31 ==> d in c.dom)
    && (!c.dowRestricted ==> forall w :: 0 <= w <= 6 ==> w in c.dow)
  }

  const ANY: seq<Part> := [Part(Star, NoStep)]

  predicate FieldsGood(fields: seq<seq<Part>>)
    requires |fields| == 5
  {
    && (forall p | p in fields[0] :: GoodPart(p, 0, 59))
    && (forall p | p in fields[1] :: GoodPart(p, 0, 23))
    && (forall p | p in fields[2] :: GoodPart(p, 1, 31))
    && (forall p | p in fields[3] :: GoodPart(p, 1, 12))
    && (forall p | p in fields[4] :: GoodPart(p, 0, 7))
  }

  function SundayIsZero(dow: set<int>): set<int> {
    if 7 in dow then dow - {7} + {0} else dow
  }

  /** Five fields, each within its limits. */
  ghost predicate FieldsAllowed(fields: seq<seq<Part>>) {
    && |fields| == 5
    && (forall p | p in fields[0] :: Allowed(p, 0, 59)) && (forall p | p in fields[1] :: Allowed(p, 0, 23))
    && (forall p | p in fields[2] :: Allowed(p, 1, 31)) && (forall p | p in fields[3] :: Allowed(p, 1, 12))
    && (forall p | p in fields[4] :: Allowed(p, 0, 7))
  }

  /** The field is a star and nothing else. */
  predicate BareStar(parts: seq<Part>) {
    |parts| == 1 && parts[0].base.Star? && parts[0].step.NoStep?
  }

  /** `w` is a day of the week that the field stands for, 7 being Sunday as 0 is. */
  ghost predicate InWeek(parts: seq<Part>, w: int) {
    exists v :: InField(parts, 0, 7, v) && w == if v == 7 then 0 else v
  }

  /** The schedule is the one of the five fields. */
  ghost predicate Denotes(fields: seq<seq<Part>>, c: Schedule)
    requires |fields| == 5
  {
    && IsField(fields[0], 0, 59, c.minute) && IsField(fields[1], 0, 23, c.hour)
    && IsField(fields[2], 1, 31, c.dom) && IsField(fields[3], 1, 12, c.month)
    && (forall w :: w in c.dow <==> InWeek(fields[4], w))
    && (c.domRestricted <==> !BareStar(fields[2])) && (c.dowRestricted <==> !BareStar(fields[4]))
  }

  /** `CronSchedule.__init__`. Day of week 7 is Sunday again. */
  method Parse(fields: seq<seq<Part>>) returns (r: Result<Schedule>)
    requires forall f | f in fields :: f != []
    ensures r.Ok? <==> FieldsAllowed(fields)
    ensures r.Ok? ==> Denotes(fields, r.value) && WellFormed(r.value)
    ensures r.Ok? <==> |fields| == 5 && FieldsGood(fields)
    ensures r.Ok? ==> (r.value.domRestricted <==> fields[2] != ANY) && (r.value.dowRestricted <==> fields[4] != ANY)
    ensures r.Ok? ==>
      && IsNamed(fields[0], 0, 59, r.value.minute) && IsNamed(fields[1], 0, 23, r.value.hour)
      && IsNamed(fields[2], 1, 31, r.value.dom) && IsNamed(fields[3], 1, 12, r.value.month)
      && forall w :: w in r.value.dow <==> exists p, v :: p in fields[4] && Names(p, 0, 7, v) && w == v % 7
  {
    hide GoodPart, Names, IsNamed, Allowed, IsField, InWeek;
    if |fields| != 5 { return CronError; }
    assert fields[0] in fields && fields[1] in fields && fields[2] in fields && fields[3] in fields
      && fields[4] in fields;
    var minute := ParseField(fields[0], 0, 59);
    var hour := ParseField(fields[1], 0, 23);
    var dom := ParseField(fields[2], 1, 31);
    var month := ParseField(fields[3], 1, 12);
    var dow := ParseField(fields[4], 0, 7);
    if minute.CronError? || hour.CronError? || dom.CronError? || month.CronError? || dow.CronError? {
      return CronError;
    }
    AnyDay(fields[2], 1, 31, dom.value);
    AnyDay(fields[4], 0, 7, dow.value);
    SundayIsZeroDays(fields[4], dow.value);
    SundayInWeek(fields[4], dow.value);
    r := Ok(Schedule(minute.value, hour.value, dom.value, month.value, SundayIsZero(dow.value),
                     fields[2] != ANY, fields[4] != ANY));
    hide Within;
  }

  lemma AnyDay(parts: seq<Part>, lo: int, hi: int, values: set<int>)
    requires lo <= hi && (forall p | p in parts :: GoodPart(p, lo, hi)) && IsNamed(parts, lo, hi, values)
    ensures parts == ANY ==> forall v | lo <= v <= hi :: v in values
  {
    if parts == ANY {
      assert parts[0] in parts;
      forall v | lo <= v <= hi ensures v in values {
        assert Names(parts[0], lo, hi, v);
      }
    }
  }

  lemma SundayIsZeroDays(parts: seq<Part>, dow: set<int>)
    requires Within(dow, 0, 7) && (forall p | p in parts :: GoodPart(p, 0, 7)) && IsNamed(parts, 0, 7, dow)
    ensures Within(SundayIsZero(dow), 0, 6)
    ensures forall w :: w in SundayIsZero(dow) <==> exists p, v :: p in parts && Names(p, 0, 7, v) && w == v % 7
  {
    hide GoodPart, Names;
    var days := SundayIsZero(dow);
    forall w ensures w in days <==> exists p, v :: p in parts && Names(p, 0, 7, v) && w == v % 7 {
      if w in days {
        var v := if w in dow && w < 7 then w else 7;
        var p :| p in parts && Names(p, 0, 7, v);
        assert w == v % 7;
      }
      if p, v :| p in parts && Names(p, 0, 7, v) && w == v % 7 {
        assert v in dow;
      }
    }
    var v :| v in dow;
    assert (if v == 7 then 0 else v) in days;
  }

  lemma SundayInWeek(parts: seq<Part>, dow: set<int>)
    requires Within(dow, 0, 7) && IsField(parts, 0, 7, dow)
    ensures forall w :: w in SundayIsZero(dow) <==> InWeek(parts, w)
  {
    hide InField;
    forall w ensures w in SundayIsZero(dow) <==> InWeek(parts, w) {
      if w in SundayIsZero(dow) {
        assert InField(parts, 0, 7, if w in dow && w < 7 then w else 7);
      }
    }
  }

  // ---- Matching ----

  predicate DayMatches(c: Schedule, d: Date) {
    if c.domRestricted && c.dowRestricted then d.day in c.dom || Weekday(d) in c.dow
    else d.day in c.dom && Weekday(d) in c.dow
  }

  predicate Matches(c: Schedule, t: Moment) {
    t.minute in c.minute && t.hour in c.hour && t.date.month in c.month && DayMatches(c, t.date)
  }

  /** What the five fields ask of a moment: minute, hour and month as they say, and the day of the month
      and of the week too, a bare star asking nothing; if neither is a bare star, one of the two days is
      enough. */
  ghost predicate Asked(fields: seq<seq<Part>>, t: Moment)
    requires |fields| == 5
  {
    && InField(fields[0], 0, 59, t.minute) && InField(fields[1], 0, 23, t.hour)
    && InField(fields[3], 1, 12, t.date.month)
    && (var dom, dow := InField(fields[2], 1, 31, t.date.day), InWeek(fields[4], Weekday(t.date));
        if BareStar(fields[2]) then BareStar(fields[4]) || dow
        else if BareStar(fields[4]) then dom
        else dom || dow)
  }

  lemma WeekdayRange(d: Date)
    ensures 0 <= Weekday(d) <= 6
  {
  }

  /** A schedule matches exactly the moments that its fields ask for. */
  lemma MatchesAsked(fields: seq<seq<Part>>, c: Schedule, t: Moment)
    requires |fields| == 5 && Denotes(fields, c) && WellFormed(c) && ValidMoment(t)
    ensures Matches(c, t) <==> Asked(fields, t)
  {
    WeekdayRange(t.date);
    assert 1 <= t.date.day <= 31;
    hide InField, InWeek, Weekday;
  }

  lemma FiveFields(fields: seq<seq<Part>>)
    requires FieldsAllowed(fields)
    ensures |fields| == 5
  {
  }

  /** No moment from `t` up to and not including `u` matches. */
  ghost predicate Quiet(c: Schedule, t: Moment, u: Moment) {
    forall x {:trigger Matches(c, x)} | ValidMoment(x) && !Before(x, t) && Before(x, u) :: !Matches(c, x)
  }

  lemma QuietTrans(c: Schedule, t: Moment, u: Moment, w: Moment)
    requires Quiet(c, t, u) && Quiet(c, u, w)
    ensures Quiet(c, t, w)
  {
  }

  /** The first element of `sorted(s)` above `x`, if any, with `s` bounded by `hi`. */
  function FirstAbove(s: set<int>, x: int, hi: int): (r: int)
    requires forall v | v in s :: v <= hi
    ensures r == x <==> forall v | v in s :: v <= x
    ensures r != x ==> r in s && x < r && forall v | v in s && x < v :: r <= v
    decreases hi - x
  {
    if x >= hi then x
    else if x + 1 in s then x + 1
    else
      var r := FirstAbove(s, x + 1, hi);
      if r == x + 1 then x else r
  }

  // ---- The jumps ----

  function NextMonth(t: Moment): Moment {
    Moment(if t.date.month == 12 then Date(t.date.year + 1, 1, 1) else Date(t.date.year, t.date.month + 1, 1), 0, 0)
  }

  lemma MonthJump(c: Schedule, t: Moment)
    requires ValidMoment(t) && t.date.month !in c.month
    ensures ValidMoment(NextMonth(t)) && Before(t, NextMonth(t)) && Quiet(c, t, NextMonth(t))
  {
  }

  lemma DayJump(c: Schedule, t: Moment, u: Moment)
    requires ValidMoment(t) && !DayMatches(c, t.date)
    requires u == Moment(NextDay(t.date), 0, 0)
    ensures ValidMoment(u) && Before(t, u) && Quiet(c, t, u)
  {
  }

  /** Hours: to the next hour named, or to the first one tomorrow. */
  function HourJump(c: Schedule, t: Moment): Moment
    requires WellFormed(c)
  {
    var h := FirstAbove(c.hour, t.hour, 23);
    var m := FirstAbove(c.minute, -1, 59);
    if h != t.hour then Moment(t.date, h, m)
    else Moment(NextDay(t.date), FirstAbove(c.hour, -1, 23), m)
  }

  lemma HourJumps(c: Schedule, t: Moment)
    requires WellFormed(c) && ValidMoment(t) && t.hour !in c.hour
    ensures var u := HourJump(c, t); ValidMoment(u) && Before(t, u) && Quiet(c, t, u)
  {
    hide DayMatches;
  }

  /** Minutes: to the next minute named, or to the first one of the next hour. */
  function MinuteJump(c: Schedule, t: Moment): Moment
    requires WellFormed(c)
  {
    var m := FirstAbove(c.minute, t.minute, 59);
    if m != t.minute then t.(minute := m) else AddHour(t.(minute := FirstAbove(c.minute, -1, 59)))
  }

  lemma MinuteJumps(c: Schedule, t: Moment)
    requires WellFormed(c) && ValidMoment(t) && t.minute !in c.minute
    ensures var u := MinuteJump(c, t); ValidMoment(u) && Before(t, u) && Quiet(c, t, u)
  {
    hide DayMatches;
  }

  // ---- The horizon ----

  const HORIZON_DAYS := 366 * 8

  predicate MonthDayExists(month: int, day: int) {
    day <= if month == 2 then 29 else DaysInMonth(1, month)
  }

  /** Only the day of the month is restricted, and no month named ever has such a day. */
  ghost predicate Impossible(c: Schedule) {
    c.domRestricted && !c.dowRestricted && forall m, d | m in c.month && d in c.dom :: !MonthDayExists(m, d)
  }

  lemma ImpossibleNeverMatches(c: Schedule, t: Moment)
    requires Impossible(c) && ValidMoment(t)
    ensures !Matches(c, t)
  {
    assert MonthDayExists(t.date.month, t.date.day);
  }

  lemma WeekdayOf(q: int, w: int)
    requires 0 <= w <= 6
    ensures ((7 * q + w + 6) % 7 + 1) % 7 == w
  {
  }

  lemma WeekdaySoon(year: int, month: int, w: int) returns (d: Date)
    requires 1 <= year && 1 <= month <= 12 && 0 <= w <= 6
    ensures ValidDate(d) && d.year == year && d.month == month && Weekday(d) == w
  {
    var o := Ordinal(Date(year, month, 1));
    var q, k := o / 7, w - o % 7;
    if k < 0 {
      q, k := q + 1, k + 7;
    }
    d := Date(year, month, 1 + k);
    assert Ordinal(d) == o + k == 7 * q + w by { hide DaysBeforeYear, DaysBeforeMonth; }
    WeekdayOf(q, w);
    hide Ordinal;
  }

  /** A 29 February comes within eight years and never later than the horizon allows, century
      years included. */
  lemma LeapDaySoon(d: Date) returns (e: Date)
    requires ValidDate(d)
    ensures ValidDate(e) && e.month == 2 && e.day == 29
    ensures DateBefore(d, e) && Ordinal(e) - Ordinal(d) < HORIZON_DAYS
  {
    var y := d.year;
    var z := NextLeapYear(y);
    if z <= y + 7 {
      e := Date(z, 2, 29);
      LeapDayNear(d, e);
    } else if DateBefore(d, Date(y, 2, 29)) {
      e := Date(y, 2, 29);
      SameYear(d, e);
    } else {
      e := Date(y + 8, 2, 29);
      LeapDayGap(d);
    }
  }

  /** The next leap year is at most seven years away, or eight after a leap year. */
  lemma NextLeapYear(y: int) returns (z: int)
    ensures y < z && IsLeap(z) && (z <= y + 7 || (z == y + 8 && IsLeap(y) && !IsLeap(y + 4)))
  {
    var k := 4 - y % 4;
    assert (y + k) % 4 == 0;
    hide IsLeap;
    LeapEither(y + k);
    z := if IsLeap(y + k) then y + k else y + k + 4;
    if k == 4 { LeapEither(y); }
  }

  /** Of two years four apart one is a leap year. */
  lemma LeapEither(y: int)
    requires y % 4 == 0
    ensures IsLeap(y) || IsLeap(y + 4)
  {
    var c := y % 100;
    assert c == 0 ==> (y + 4) % 100 == 4;
    assert (y + 4) % 4 == 0;
  }

  lemma LeapDayNear(d: Date, e: Date)
    requires ValidDate(d) && ValidDate(e) && e.month == 2 && d.year < e.year <= d.year + 7
    ensures Ordinal(e) - Ordinal(d) < HORIZON_DAYS
  {
    DayOfYear(d);
    MonthTable(e.year);
    YearsApart(d.year, e.year);
    hide DaysBeforeYear;
  }

  lemma SameYear(d: Date, e: Date)
    requires ValidDate(d) && ValidDate(e) && e.year == d.year
    ensures Ordinal(e) - Ordinal(d) < HORIZON_DAYS
  {
    DayOfYear(d);
    DayOfYear(e);
    YearLength(d.year);
    hide Ordinal, DaysBeforeYear;
  }

  lemma LeapDayGap(d: Date)
    requires ValidDate(d) && IsLeap(d.year) && !IsLeap(d.year + 4) && !DateBefore(d, Date(d.year, 2, 29))
    ensures Ordinal(Date(d.year + 8, 2, 29)) - Ordinal(d) < HORIZON_DAYS
  {
    var a, b := Date(d.year, 2, 29), Date(d.year + 8, 2, 29);
    assert Ordinal(a) <= Ordinal(d) by { OrdinalOrder(a, d); }
    EightYears(d.year);
    MonthTable(d.year);
    MonthTable(d.year + 8);
    hide DaysBeforeYear, DaysBeforeMonth;
    assert Ordinal(b) == Ordinal(a) + 2921;
  }

  lemma NotLeap(y: int, r: int)
    requires y % 4 == r && r != 0
    ensures !IsLeap(y)
  {
  }

  lemma LeapPattern(y: int)
    requires y % 4 == 0
    ensures !IsLeap(y + 1) && !IsLeap(y + 2) && !IsLeap(y + 3)
  {
    hide IsLeap;
    NotLeap(y + 1, 1);
    NotLeap(y + 2, 2);
    NotLeap(y + 3, 3);
  }

  lemma FourYears(y: int)
    requires y % 4 == 0
    ensures DaysBeforeYear(y + 4) == DaysBeforeYear(y) + 1460 + if IsLeap(y) then 1 else 0
  {
    hide DaysBeforeYear, IsLeap;
    LeapPattern(y);
    YearLength(y);
    YearLength(y + 1);
    YearLength(y + 2);
    YearLength(y + 3);
  }

  lemma EightYears(y: int)
    requires IsLeap(y) && !IsLeap(y + 4)
    ensures DaysBeforeYear(y + 8) == DaysBeforeYear(y) + 2921
  {
    hide DaysBeforeYear;
    FourYears(y);
    FourYears(y + 4);
  }

  /** From any day on, a possible expression names a later day before the horizon. */
  lemma DaySoon(c: Schedule, d: Date) returns (e: Date)
    requires WellFormed(c) && !Impossible(c) && ValidDate(d)
    ensures ValidDate(e) && e.month in c.month && DayMatches(c, e)
    ensures DateBefore(d, e) && Ordinal(e) - Ordinal(d) < HORIZON_DAYS
  {
    if c.dowRestricted || !c.domRestricted {
      var m :| m in c.month;
      var w :| w in c.dow;
      e := WeekdaySoon(d.year + 1, m, w);
      NextYear(d, e);
    } else {
      var m, day :| m in c.month && day in c.dom && MonthDayExists(m, day);
      if m == 2 && day == 29 {
        e := LeapDaySoon(d);
      } else {
        e := Date(d.year + 1, m, day);
        NextYear(d, e);
      }
      WeekdayRange(e);
    }
  }

  lemma NextYear(d: Date, e: Date)
    requires ValidDate(d) && ValidDate(e) && e.year == d.year + 1
    ensures DateBefore(d, e) && Ordinal(e) - Ordinal(d) < HORIZON_DAYS
  {
    DayOfYear(d);
    DayOfYear(e);
    YearLength(d.year);
    YearLength(e.year);
  }

  // ---- next_after ----

  /** A time and how far into its minute it is. */
  datatype Instant = Instant(minute: Moment, seconds: real)

  predicate Earlier(a: Instant, b: Instant) {
    Before(a.minute, b.minute) || (a.minute == b.minute && a.seconds < b.seconds)
  }

  /** The firing at the start of minute `t` is strictly after `a`. */
  predicate FiresAfter(t: Moment, a: Instant) {
    Earlier(a, Instant(t, 0.0))
  }

  /** The first matching minute strictly after `after`; an error exactly for the expressions
      that no date ever matches. */
  method NextAfter(c: Schedule, after: Instant) returns (r: Result<Moment>)
    requires WellFormed(c) && ValidMoment(after.minute) && 0.0 <= after.seconds < 60.0
    ensures r.Ok? ==> ValidMoment(r.value) && Matches(c, r.value) && FiresAfter(r.value, after)
    ensures r.Ok? ==> forall x | ValidMoment(x) && FiresAfter(x, after) && Before(x, r.value) :: !Matches(c, x)
    ensures r.CronError? <==> Impossible(c)
    ensures r.CronError? <==> forall x | ValidMoment(x) :: !Matches(c, x)
  {
    hide *;
    var t := AddMinute(after.minute);
    AddMinuteMinutes(after.minute);
    ghost var start := t;
    QuietSelf(c, t);
    var horizon := Minutes(t) + HORIZON_DAYS * 24 * 60;
    while Minutes(t) < horizon
      invariant ValidMoment(t) && Quiet(c, start, t) && Minutes(t) >= Minutes(start)
      decreases horizon - Minutes(t)
    {
      ghost var t0 := t;
      if t.date.month !in c.month {
        MonthJump(c, t);
        t := NextMonth(t);
      } else if !DayMatches(c, t.date) {
        t := Moment(NextDay(t.date), 0, 0);
        DayJump(c, t0, t);
      } else if t.hour !in c.hour {
        HourJumps(c, t);
        t := HourJump(c, t);
      } else if t.minute !in c.minute {
        MinuteJumps(c, t);
        t := MinuteJump(c, t);
      } else {
        Found(c, after, t);
        return Ok(t);
      }
      QuietTrans(c, start, t0, t);
      MinutesOrder(t0, t);
    }
    NotFound(c, start, t);
    return CronError;
  }

  lemma QuietSelf(c: Schedule, t: Moment)
    ensures Quiet(c, t, t)
  {
  }

  lemma Found(c: Schedule, after: Instant, t: Moment)
    requires WellFormed(c) && ValidMoment(after.minute) && 0.0 <= after.seconds && ValidMoment(t)
    requires t.date.month in c.month && DayMatches(c, t.date) && t.hour in c.hour && t.minute in c.minute
    requires Quiet(c, AddMinute(after.minute), t) && Minutes(t) >= Minutes(AddMinute(after.minute))
    ensures Matches(c, t) && !Impossible(c) && FiresAfter(t, after)
    ensures forall x | ValidMoment(x) && FiresAfter(x, after) && Before(x, t) :: !Matches(c, x)
  {
    hide Minutes, AddMinute, Before, Impossible;
    if Impossible(c) { ImpossibleNeverMatches(c, t); }
    AddMinuteMinutes(after.minute);
    MinutesOrder(after.minute, t);
    QuietAfter(c, after, t);
  }

  lemma NotFound(c: Schedule, start: Moment, t: Moment)
    requires WellFormed(c) && ValidMoment(start) && ValidMoment(t)
    requires Quiet(c, start, t) && Minutes(t) >= Minutes(start) + HORIZON_DAYS * 24 * 60
    ensures Impossible(c) && forall x | ValidMoment(x) :: !Matches(c, x)
  {
    hide Minutes, Matches, Before;
    if Impossible(c) {
      forall x | ValidMoment(x) ensures !Matches(c, x) {
        ImpossibleNeverMatches(c, x);
      }
    } else {
      var x := MatchSoon(c, start);
      MinutesOrder(x, t);
      MinutesOrder(x, start);
      assert false;
    }
  }

  lemma QuietAfter(c: Schedule, after: Instant, u: Moment)
    requires ValidMoment(after.minute) && 0.0 <= after.seconds && Quiet(c, AddMinute(after.minute), u)
    ensures forall x | ValidMoment(x) && FiresAfter(x, after) && Before(x, u) :: !Matches(c, x)
  {
  }

  /** The horizon is far enough: before it every possible expression matches. */
  lemma MatchSoon(c: Schedule, start: Moment) returns (x: Moment)
    requires WellFormed(c) && !Impossible(c) && ValidMoment(start)
    ensures ValidMoment(x) && Matches(c, x)
    ensures Minutes(start) <= Minutes(x) < Minutes(start) + HORIZON_DAYS * 24 * 60
  {
    var e := DaySoon(c, start.date);
    var h :| h in c.hour;
    var m :| m in c.minute;
    x := Moment(e, h, m);
    OrdinalOrder(start.date, e);
    hide Ordinal, DayMatches;
  }

  /** A cron line and the time of the next firing: an error exactly if the line is malformed or asks for
      no moment at all, and otherwise the first moment it asks for strictly after `after`. */
  method NextFiring(fields: seq<seq<Part>>, after: Instant) returns (r: Result<Moment>)
    requires (forall f | f in fields :: f != []) && ValidMoment(after.minute) && 0.0 <= after.seconds < 60.0
    ensures r.Ok? ==> FieldsAllowed(fields) && ValidMoment(r.value) && Asked(fields, r.value)
    ensures r.Ok? ==> FiresAfter(r.value, after)
    ensures r.Ok? ==> forall x | ValidMoment(x) && FiresAfter(x, after) && Before(x, r.value) :: !Asked(fields, x)
    ensures r.CronError? <==> (FieldsAllowed(fields) ==> forall x | ValidMoment(x) :: !Asked(fields, x))
  {
    hide *;
    r := CronError;
    var parsed := Parse(fields);
    if parsed.Ok? {
      FiveFields(fields);
      var c := parsed.value;
      forall x | ValidMoment(x) ensures Matches(c, x) <==> Asked(fields, x) {
        MatchesAsked(fields, c, x);
      }
      r := NextAfter(c, after);
    }
  }
}
