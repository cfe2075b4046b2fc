/** UTC date helpers of src/presentation/utils/date-utils.ts. An instant is an
    integer number of milliseconds since 1970-01-01T00:00:00Z, as a JavaScript
    Date holds it; every helper copies its argument, so each one is a function
    of instants. The JavaScript setters are written out as ECMA-262 defines
    them (setUTCHours with three arguments keeps the milliseconds). */
module DateUtils {
  import opened Wrappers
  import opened Digits
  import opened Calendar

  const MsPerSecond: int := 1000
  const MsPerMinute: int := 60000
  const MsPerHour: int := 3600000
  const MsPerDay: int := 86400000

  /** The day number of an instant (floor division, also before 1970). */
  function Day(t: int): int {
    t / MsPerDay
  }

  function TimeWithinDay(t: int): (r: int)
    ensures 0 <= r < MsPerDay
  {
    t % MsPerDay
  }

  function UtcHours(t: int): (h: int)
    ensures 0 <= h < 24
  {
    TimeWithinDay(t) / MsPerHour
  }

  function UtcMinutes(t: int): (m: int)
    ensures 0 <= m < 60
  {
    (t % MsPerHour) / MsPerMinute
  }

  function UtcSeconds(t: int): (s: int)
    ensures 0 <= s < 60
  {
    (t % MsPerMinute) / MsPerSecond
  }

  function UtcMilliseconds(t: int): (ms: int)
    ensures 0 <= ms < 1000
  {
    t % MsPerSecond
  }

  /** getUTCFullYear, getUTCMonth and getUTCDate together. */
  function UtcDate(t: int): (c: Civil)
    ensures ValidCivil(c)
  {
    CivilFromDays(Day(t))
  }

  function MakeTime(h: int, m: int, s: int, ms: int): int {
    h * MsPerHour + m * MsPerMinute + s * MsPerSecond + ms
  }

  /** date.setUTCHours(h, m, s): the milliseconds of the date are kept. */
  function SetUtcHours(t: int, h: int, m: int, s: int): int {
    Day(t) * MsPerDay + MakeTime(h, m, s, UtcMilliseconds(t))
  }

  /** date.setUTCHours(h, m, s, ms). */
  function SetUtcHoursMs(t: int, h: int, m: int, s: int, ms: int): int {
    Day(t) * MsPerDay + MakeTime(h, m, s, ms)
  }

  /** date.setUTCDate(d): same year, month and time of day, day of month d. */
  function SetUtcDate(t: int, d: int): int {
    var c := UtcDate(t);
    MakeDay(c.year, c.month, d) * MsPerDay + TimeWithinDay(t)
  }

  /** date.setUTCFullYear(y, m, d): same time of day. */
  function SetUtcFullYear(t: int, y: int, m: int, d: int): int {
    MakeDay(y, m, d) * MsPerDay + TimeWithinDay(t)
  }

  /** Splitting an instant into its day and its time of day. */
  lemma SplitInstant(n: int, x: int)
    requires 0 <= x < MsPerDay
    ensures Day(n * MsPerDay + x) == n && TimeWithinDay(n * MsPerDay + x) == x
  {
  }

  lemma InstantFromParts(t: int)
    ensures t == Day(t) * MsPerDay + TimeWithinDay(t)
  {
  }

  /** startOfDayUTC: midnight of the same UTC day. */
  function StartOfDayUTC(t: int): (r: int)
    ensures Day(r) == Day(t) && TimeWithinDay(r) == 0
    ensures r <= t < r + MsPerDay
  {
    SplitInstant(Day(t), 0);
    SetUtcHoursMs(t, 0, 0, 0, 0)
  }

  lemma StartOfDayIdempotent(t: int)
    ensures StartOfDayUTC(StartOfDayUTC(t)) == StartOfDayUTC(t)
  {
    var s := StartOfDayUTC(t);
    InstantFromParts(s);
  }

  /** endOfDayUTC: the last millisecond of the same UTC day. */
  function EndOfDayUTC(t: int): (r: int)
    ensures r == StartOfDayUTC(t) + 86399999
    ensures Day(r) == Day(t) && t <= r
  {
    SplitInstant(Day(t), 86399999);
    SetUtcHoursMs(t, 23, 59, 59, 999)
  }

  /** addDaysUTC: n whole days later, at the same time of day. */
  function AddDaysUTC(t: int, n: int): (r: int)
    ensures Day(r) == Day(t) + n && TimeWithinDay(r) == TimeWithinDay(t)
  {
    InstantFromParts(t);
    SplitInstant(Day(t) + n, TimeWithinDay(t));
    t + n * MsPerDay
  }

  /** What addDaysUTC does, setUTCDate(getUTCDate() + n), moves the instant by
      exactly n days, also across month and year ends. */
  lemma AddDaysIsSetUtcDate(t: int, n: int)
    ensures SetUtcDate(t, UtcDate(t).day + n) == AddDaysUTC(t, n)
  {
    var c := UtcDate(t);
    MakeDayOfCivil(c, n);
    InstantFromParts(t);
  }

  lemma AddDaysCompose(t: int, a: int, b: int)
    ensures AddDaysUTC(AddDaysUTC(t, a), b) == AddDaysUTC(t, a + b)
  {
  }

  /** getUTCDay: 0 is Sunday; day 0 (1970-01-01) was a Thursday. */
  function GetDayOfWeekUTC(t: int): (w: int)
    ensures 0 <= w < 7
  {
    (Day(t) + 4) % 7
  }

  lemma EpochWasThursday()
    ensures GetDayOfWeekUTC(0) == 4
  {
  }

  lemma DayOfWeekAdvances(t: int)
    ensures GetDayOfWeekUTC(AddDaysUTC(t, 1)) == (GetDayOfWeekUTC(t) + 1) % 7
  {
    var u := AddDaysUTC(t, 1);
    assert Day(u) == Day(t) + 1;
    ModSevenStep(Day(t) + 4);
  }

  lemma ModSevenStep(a: int)
    ensures (a + 1) % 7 == (a % 7 + 1) % 7
  {
    var q, r := a / 7, a % 7;
    assert a == 7 * q + r;
    if r < 6 {
      assert a + 1 == 7 * q + (r + 1);
    } else {
      assert a + 1 == 7 * (q + 1) + 0;
    }
  }

  /** Seven days later is the same weekday. */
  lemma DayOfWeekWeekly(t: int, k: int)
    ensures GetDayOfWeekUTC(AddDaysUTC(t, 7 * k)) == GetDayOfWeekUTC(t)
  {
    var a := Day(t) + 4;
    assert a == 7 * (a / 7) + a % 7;
    assert a + 7 * k == 7 * (a / 7 + k) + a % 7;
  }

  /** The year field of Date.prototype.toISOString: four digits for years
      0..9999, otherwise a sign and six digits. */
  function IsoYear(y: int): (s: string)
    ensures |s| == (if 0 <= y <= 9999 then 4 else 7)
  {
    if 0 <= y <= 9999 then PadDigits(y, 4)
    else (if y < 0 then "-" else "+") + PadDigits(if y < 0 then -y else y, 6)
  }

  /** The date part (before 'T') of toISOString for a calendar date. */
  function IsoDate(c: Civil): string
    requires ValidCivil(c)
  {
    IsoYear(c.year) + "-" + PadDigits(c.month + 1, 2) + "-" + PadDigits(c.day, 2)
  }

  /** formatUTC: the instant is first moved by the process's timezone offset
      (in minutes) when that offset is not 0, then its ISO date part is taken. */
  function FormatUTC(t: int, offsetMinutes: int): (s: string)
    ensures offsetMinutes == 0 ==> (|s| == 10 <==> 0 <= UtcDate(t).year <= 9999)
  {
    var u := if offsetMinutes != 0 then t + offsetMinutes * MsPerMinute else t;
    IsoDate(UtcDate(u))
  }

  /** With offset 0 the text depends only on the UTC day. */
  lemma FormatUTCConstantOnDay(t1: int, t2: int)
    requires Day(t1) == Day(t2)
    ensures FormatUTC(t1, 0) == FormatUTC(t2, 0)
  {
  }

  /** The characters JavaScript's `\s` matches. */
  predicate IsJsWhitespace(c: char) {
    || c == ' ' || c == '\t' || c == '\n' || c == '\U{000B}' || c == '\U{000C}' || c == '\r'
    || c == '\U{00A0}' || c == '\U{1680}' || ('\U{2000}' <= c <= '\U{200A}')
    || c == '\U{2028}' || c == '\U{2029}' || c == '\U{202F}' || c == '\U{205F}'
    || c == '\U{3000}' || c == '\U{FEFF}'
  }

  predicate AllJsWhitespace(s: string) {
    forall i :: 0 <= i < |s| ==> IsJsWhitespace(s[i])
  }

  /** How many characters `^\d{1,max}` takes from the start of s: the
      longest run of at most `max` digits (0 when there is no match). */
  function LeadingDigits(s: string, max: nat): (k: nat)
    ensures k <= max && k <= |s| && AllDigits(s[..k])
    ensures k < max && k < |s| ==> !IsDigit(s[k])
  {
    var run := DigitRun(s);
    if run < max then run else max
  }

  /** The pieces of a text that date-fns reads with 'yyyy-MM-dd'. */
  datatype DateText = DateText(year: string, month: string, day: string, trailing: string)

  /** s is one to four digits, '-', one or two digits, '-', one or two
      digits, and then whitespace only. */
  predicate Shapes(s: string, f: DateText) {
    && s == f.year + ("-" + (f.month + ("-" + (f.day + f.trailing))))
    && 1 <= |f.year| <= 4 && 1 <= |f.month| <= 2 && 1 <= |f.day| <= 2
    && AllDigits(f.year) && AllDigits(f.month) && AllDigits(f.day) && AllJsWhitespace(f.trailing)
  }

  /** A numeric token of at most `max` digits followed by the '-' literal:
      the digits and what follows the '-'. */
  function DashField(s: string, max: nat): (r: Option<(string, string)>)
    ensures r.Some? ==> var (d, rest) := r.value;
      s == d + ("-" + rest) && 1 <= |d| <= max && AllDigits(d)
  {
    var a := LeadingDigits(s, max);
    if a == 0 || a == |s| || s[a] != '-' then None
    else
      assert s == s[..a] + ("-" + s[a + 1..]);
      Some((s[..a], s[a + 1..]))
  }

  lemma DashFieldOf(d: string, rest: string, max: nat)
    requires 1 <= |d| <= max && AllDigits(d)
    ensures DashField(d + ("-" + rest), max) == Some((d, rest))
  {
    var s := d + ("-" + rest);
    DigitRunPrefix(d, "-" + rest);
    assert s[..|d|] == d && s[|d|] == '-' && s[|d| + 1..] == rest;
  }

  /** The last numeric token and the text after it, which may hold
      whitespace only. */
  function LastField(s: string, max: nat): (r: Option<(string, string)>)
    ensures r.Some? ==> var (d, rest) := r.value;
      s == d + rest && 1 <= |d| <= max && AllDigits(d) && AllJsWhitespace(rest)
  {
    var c := LeadingDigits(s, max);
    if c == 0 || !AllJsWhitespace(s[c..]) then None
    else
      assert s == s[..c] + s[c..];
      Some((s[..c], s[c..]))
  }

  lemma LastFieldOf(d: string, rest: string, max: nat)
    requires 1 <= |d| <= max && AllDigits(d) && AllJsWhitespace(rest)
    ensures LastField(d + rest, max) == Some((d, rest))
  {
    assert rest == [] || !IsDigit(rest[0]);
    DigitRunPrefix(d, rest);
    assert (d + rest)[..|d|] == d && (d + rest)[|d|..] == rest;
  }

  /** The token walk: the year parser takes `^\d{1,4}`, each '-' literal
      must come next, the month and day parsers take `^\d{1,2}`, and what
      is left may not hold a non-whitespace character. */
  function SplitDateText(s: string): (r: Option<DateText>)
    ensures r.Some? ==> Shapes(s, r.value)
  {
    match DashField(s, 4)
    case None => None
    case Some((year, s1)) =>
      match DashField(s1, 2)
      case None => None
      case Some((month, s2)) =>
        match LastField(s2, 2)
        case None => None
        case Some((day, trailing)) => Some(DateText(year, month, day, trailing))
  }

  /** The split is the only one: every decomposition of that shape is the
      one the token walk finds. */
  lemma SplitDateTextComplete(s: string, f: DateText)
    requires Shapes(s, f)
    ensures SplitDateText(s) == Some(f)
  {
    DashFieldOf(f.year, f.month + ("-" + (f.day + f.trailing)), 4);
    DashFieldOf(f.month, f.day + f.trailing, 2);
    LastFieldOf(f.day, f.trailing, 2);
  }

  /** The year, month and day validators of date-fns: a positive year, a
      month in 1..12 and a day that exists in that month. */
  predicate ValidFields(f: DateText)
    requires AllDigits(f.year) && AllDigits(f.month) && AllDigits(f.day)
  {
    var y, m, d := DigitsValue(f.year), DigitsValue(f.month), DigitsValue(f.day);
    y >= 1 && 1 <= m <= 12 && 1 <= d <= DaysInMonth(y, m - 1)
  }

  /** Midnight of the date the fields name. */
  function FieldsMidnight(f: DateText): int
    requires AllDigits(f.year) && AllDigits(f.month) && AllDigits(f.day) && ValidFields(f)
  {
    DaysFromCivil(DigitsValue(f.year), DigitsValue(f.month) - 1, DigitsValue(f.day)) * MsPerDay
  }

  lemma MidnightOfFields(f: DateText)
    requires AllDigits(f.year) && AllDigits(f.month) && AllDigits(f.day) && ValidFields(f)
    ensures TimeWithinDay(FieldsMidnight(f)) == 0
  {
    SplitInstant(DaysFromCivil(DigitsValue(f.year), DigitsValue(f.month) - 1, DigitsValue(f.day)), 0);
  }

  /** date-fns parse(text, 'yyyy-MM-dd', reference) with the process timezone
      at UTC: midnight of that date, or None for an Invalid Date. */
  function ParseIsoDate(s: string): (r: Option<int>)
    ensures r.Some? ==> TimeWithinDay(r.value) == 0
    ensures r.Some? ==> exists f :: Shapes(s, f) && ValidFields(f) && r.value == FieldsMidnight(f)
  {
    match SplitDateText(s)
    case None => None
    case Some(f) =>
      if ValidFields(f) then
        MidnightOfFields(f);
        Some(FieldsMidnight(f))
      else None
  }

  /** Every text of the accepted shape parses, to its date's midnight, when
      its fields are valid, and to None otherwise. */
  lemma ParseIsoDateMeaning(s: string, f: DateText)
    requires Shapes(s, f)
    ensures ValidFields(f) ==> ParseIsoDate(s) == Some(FieldsMidnight(f))
    ensures !ValidFields(f) ==> ParseIsoDate(s).None?
  {
    SplitDateTextComplete(s, f);
  }

  /** Parsing the formatted date gives back midnight of the same UTC day. */
  lemma ParseFormatRoundTrip(t: int)
    requires 1 <= UtcDate(t).year <= 9999
    ensures ParseIsoDate(FormatUTC(t, 0)) == Some(StartOfDayUTC(t))
  {
    var c := UtcDate(t);
    IsoDateFields(c);
    assert FormatUTC(t, 0) == IsoDate(c);
    assert DaysFromCivil(c.year, c.month, c.day) == Day(t);
    assert StartOfDayUTC(t) == Day(t) * MsPerDay;
  }

  /** The pieces of the ISO text of a date of years 0-9999 and their values. */
  lemma IsoDateText(c: Civil)
    requires ValidCivil(c) && 0 <= c.year <= 9999
    ensures var f := DateText(PadDigits(c.year, 4), PadDigits(c.month + 1, 2), PadDigits(c.day, 2), "");
      && Shapes(IsoDate(c), f)
      && DigitsValue(f.year) == c.year && DigitsValue(f.month) == c.month + 1 && DigitsValue(f.day) == c.day
  {
    var f := DateText(PadDigits(c.year, 4), PadDigits(c.month + 1, 2), PadDigits(c.day, 2), "");
    assert IsoDate(c) == f.year + ("-" + (f.month + ("-" + (f.day + f.trailing))));
    Pow10Small();
    PadDigitsRoundTrip(c.year, 4);
    PadDigitsRoundTrip(c.month + 1, 2);
    PadDigitsRoundTrip(c.day, 2);
  }

  /** date-fns refuses year 0, so the date formatUTC writes for an instant
      of that year does not parse. */
  lemma YearZeroDoesNotParse(t: int)
    requires UtcDate(t).year == 0
    ensures ParseIsoDate(FormatUTC(t, 0)).None?
  {
    var c := UtcDate(t);
    IsoDateText(c);
    ParseIsoDateMeaning(IsoDate(c), DateText(PadDigits(0, 4), PadDigits(c.month + 1, 2), PadDigits(c.day, 2), ""));
  }

  /** The three fields of a four-digit ISO date read back as its parts. */
  lemma IsoDateFields(c: Civil)
    requires ValidCivil(c) && 1 <= c.year <= 9999
    ensures ParseIsoDate(IsoDate(c)) == Some(DaysFromCivil(c.year, c.month, c.day) * MsPerDay)
  {
    IsoDateText(c);
    ParseIsoDateMeaning(IsoDate(c), DateText(PadDigits(c.year, 4), PadDigits(c.month + 1, 2), PadDigits(c.day, 2), ""));
  }

  lemma Pow10Small()
    ensures Pow10(2) == 100 && Pow10(4) == 10000
  {
    assert Pow10(1) == 10;
    assert Pow10(3) == 1000;
  }

  /** createUTCDate(year, month, day, hours, minutes): setUTCFullYear and then
      setUTCHours(hours, minutes, 0, 0) on `now`, the instant `new Date()`
      returned. */
  function CreateUTCDate(now: int, year: int, month: int, day: int, hours: int, minutes: int): int {
    SetUtcHoursMs(SetUtcFullYear(now, year, month, day), hours, minutes, 0, 0)
  }

  /** For in-range arguments the result has exactly those UTC components,
      with seconds and milliseconds 0, whatever `now` was. */
  lemma CreateUTCDateComponents(now: int, year: int, month: int, day: int, hours: int, minutes: int)
    requires ValidCivil(Civil(year, month, day))
    requires 0 <= hours < 24 && 0 <= minutes < 60
    ensures var r := CreateUTCDate(now, year, month, day, hours, minutes);
      && UtcDate(r) == Civil(year, month, day)
      && UtcHours(r) == hours && UtcMinutes(r) == minutes
      && UtcSeconds(r) == 0 && UtcMilliseconds(r) == 0
  {
    var n := DaysFromCivil(year, month, day);
    FullYearDay(now, year, month, day);
    var r := CreateUTCDate(now, year, month, day, hours, minutes);
    assert r == n * MsPerDay + hours * MsPerHour + minutes * MsPerMinute + 0;
    TimeFields(n, hours, minutes, 0);
    CivilRoundTrip(Civil(year, month, day));
  }

  /** setUTCFullYear with a valid date moves the instant to that date's day. */
  lemma FullYearDay(now: int, year: int, month: int, day: int)
    requires ValidCivil(Civil(year, month, day))
    ensures Day(SetUtcFullYear(now, year, month, day)) == DaysFromCivil(year, month, day)
  {
    var n := DaysFromCivil(year, month, day);
    MakeDayOfCivil(Civil(year, month, 1), day - 1);
    assert MakeDay(year, month, day) == n;
    SplitInstant(n, TimeWithinDay(now));
  }

  /** A multiple of a positive number is 0 or at least that number away from 0. */
  lemma MultipleBounds(k: int, d: int)
    requires d > 0
    ensures k >= 1 ==> k * d >= d
    ensures k <= -1 ==> k * d <= -d
  {
  }

  /** Euclidean division is unique: a quotient and a remainder in range are
      the ones `/` and `%` compute. */
  lemma DivModUnique(a: int, d: int, q: int, r: int)
    requires d > 0 && 0 <= r < d && a == q * d + r
    ensures a / d == q && a % d == r
  {
    var k := q - a / d;
    assert k * d == a % d - r;
    MultipleBounds(k, d);
  }

  /** The fields of the instant hh:mm:00 plus ms milliseconds on day n. */
  lemma TimeFields(n: int, hours: int, minutes: int, ms: int)
    requires 0 <= hours < 24 && 0 <= minutes < 60 && 0 <= ms < 1000
    ensures var r := n * MsPerDay + hours * MsPerHour + minutes * MsPerMinute + ms;
      && Day(r) == n
      && UtcHours(r) == hours && UtcMinutes(r) == minutes
      && UtcSeconds(r) == 0 && UtcMilliseconds(r) == ms
  {
    var y := minutes * MsPerMinute + ms;
    var x := hours * MsPerHour + y;
    var r := n * MsPerDay + x;
    DivModUnique(r, MsPerDay, n, x);
    DivModUnique(x, MsPerHour, hours, y);
    DivModUnique(r, MsPerHour, 24 * n + hours, y);
    DivModUnique(y, MsPerMinute, minutes, ms);
    DivModUnique(r, MsPerMinute, 1440 * n + 60 * hours + minutes, ms);
    DivModUnique(ms, MsPerSecond, 0, ms);
    DivModUnique(r, MsPerSecond, 86400 * n + 3600 * hours + 60 * minutes, ms);
  }

  /** The time of day of an instant split into its UTC hour, its UTC minute
      and what is left of the minute. */
  lemma ClockParts(t: int)
    ensures TimeWithinDay(t) == UtcHours(t) * MsPerHour + UtcMinutes(t) * MsPerMinute + t % MsPerMinute
    ensures t % MsPerMinute == UtcSeconds(t) * MsPerSecond + UtcMilliseconds(t)
  {
    var x := TimeWithinDay(t);
    var y := t % MsPerHour;
    var z := t % MsPerMinute;
    DivModUnique(t, MsPerHour, Day(t) * 24 + x / MsPerHour, x % MsPerHour);
    assert y == x % MsPerHour;
    DivModUnique(t, MsPerMinute, (Day(t) * 24 + x / MsPerHour) * 60 + y / MsPerMinute, y % MsPerMinute);
    assert z == y % MsPerMinute;
    DivModUnique(t, MsPerSecond, ((Day(t) * 24 + x / MsPerHour) * 60 + y / MsPerMinute) * 60 + z / MsPerSecond, z % MsPerSecond);
  }
}
