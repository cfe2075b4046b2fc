/** The two text formats a route template stores: departure and arrival times
    as 'H:MM' / 'HH:MM' (hour 0-23, minute 00-59), read back with
    parseInt on the parts around the colon; and the running weekdays as the
    JSON text of an array of naturals, as JSON.stringify writes it. */
module TemplateFormats {
  import opened Wrappers
  import opened Digits
  import opened Entities

  /** An hour field: one digit, or 00-19, or 20-23. */
  predicate HourText(h: string) {
    (|h| == 1 && IsDigit(h[0]))
    || (|h| == 2 && IsDigit(h[1]) && ('0' <= h[0] <= '1' || (h[0] == '2' && h[1] <= '3')))
  }

  /** A minute field: 00-59. */
  predicate MinuteText(m: string) {
    |m| == 2 && '0' <= m[0] <= '5' && IsDigit(m[1])
  }

  /** The pattern ^([0-1]?[0-9]|2[0-3]):[0-5][0-9]$ of the template schema. */
  predicate ClockPattern(s: string) {
    (|s| == 4 && s[1] == ':' && HourText(s[..1]) && MinuteText(s[2..]))
    || (|s| == 5 && s[2] == ':' && HourText(s[..2]) && MinuteText(s[3..]))
  }

  /** Where the colon of a pattern-conforming time is. */
  function ColonAt(s: string): (k: nat)
    requires ClockPattern(s)
    ensures k < |s| && s[k] == ':'
    ensures HourText(s[..k]) && MinuteText(s[k + 1..])
  {
    if s[1] == ':' then 1 else 2
  }

  /** parseInt(s.split(':')[0]) and parseInt(s.split(':')[1]). */
  function ClockOf(s: string): (c: Clock)
    requires ClockPattern(s)
    ensures 0 <= c.hour < 24 && 0 <= c.minute < 60
  {
    var k := ColonAt(s);
    HourValue(s[..k]);
    MinuteValue(s[k + 1..]);
    Clock(DigitsValue(s[..k]), DigitsValue(s[k + 1..]))
  }

  lemma HourValue(h: string)
    requires HourText(h)
    ensures DigitsValue(h) < 24
  {
    if |h| == 2 {
      TwoDigits(h);
    }
  }

  lemma MinuteValue(m: string)
    requires MinuteText(m)
    ensures DigitsValue(m) < 60
  {
    TwoDigits(m);
  }

  /** The canonical 'HH:MM' text of a time of day. */
  function ShowClock(c: Clock): string
    requires 0 <= c.hour < 24 && 0 <= c.minute < 60
  {
    PadDigits(c.hour, 2) + ":" + PadDigits(c.minute, 2)
  }

  /** Every time of day has a text the pattern accepts, and it reads back as
      that time; with ClockOf's range this makes the pattern accept exactly
      the times 00:00-23:59. */
  lemma ShowClockRoundTrip(c: Clock)
    requires 0 <= c.hour < 24 && 0 <= c.minute < 60
    ensures ClockPattern(ShowClock(c)) && ClockOf(ShowClock(c)) == c
  {
    var s := ShowClock(c);
    var h, m := PadDigits(c.hour, 2), PadDigits(c.minute, 2);
    assert s[..2] == h && s[3..] == m;
    assert Pow10(2) == 100 by {
      assert Pow10(1) == 10;
    }
    PadDigitsRoundTrip(c.hour, 2);
    PadDigitsRoundTrip(c.minute, 2);
    TwoDigits(h);
    TwoDigits(m);
    assert h[0] == DigitChar(c.hour / 10);
    assert m[0] == DigitChar(c.minute / 10);
  }

  lemma TwoDigits(s: string)
    requires |s| == 2 && AllDigits(s)
    ensures DigitsValue(s) == DigitValue(s[0]) * 10 + DigitValue(s[1])
  {
    assert s[..1][..0] == [];
    assert DigitsValue(s[..1]) == DigitValue(s[0]);
  }

  /** JSON.stringify of an array of naturals. */
  function ShowDays(ds: seq<nat>): string {
    "[" + ShowItems(ds) + "]"
  }

  function ShowItems(ds: seq<nat>): string {
    if |ds| == 0 then ""
    else if |ds| == 1 then ShowNat(ds[0])
    else ShowNat(ds[0]) + "," + ShowItems(ds[1..])
  }

  /** A JSON number that is a natural: digits with no leading zero. */
  predicate NaturalText(d: string) {
    |d| >= 1 && AllDigits(d) && (|d| > 1 ==> d[0] != '0')
  }

  /** The comma-separated naturals of an array body, or None. */
  function ParseItems(t: string): (r: Option<seq<nat>>)
    ensures r.Some? ==> |r.value| >= 1
    decreases |t|
  {
    var k := DigitRun(t);
    if !NaturalText(t[..k]) then None
    else if k == |t| then Some([DigitsValue(t)])
    else if t[k] == ',' then
      match ParseItems(t[k + 1..])
      case Some(rest) => Some([DigitsValue(t[..k])] + rest)
      case None => None
    else None
  }

  /** JSON.parse restricted to arrays of naturals (no whitespace): None stands
      for every text it does not accept. */
  function ParseDays(s: string): Option<seq<nat>> {
    if |s| >= 2 && s[0] == '[' && s[|s| - 1] == ']' then
      var body := s[1..|s| - 1];
      if body == [] then Some([]) else ParseItems(body)
    else None
  }

  /** tryParseJson(text, []) for the daysOfWeek text: the parsed array, or
      the default when the text does not parse. */
  function TryParseDays(s: string, default: seq<nat>): (r: seq<nat>)
    ensures ParseDays(s).Some? ==> r == ParseDays(s).value
    ensures ParseDays(s).None? ==> r == default
  {
    ParseDays(s).GetOr(default)
  }

  lemma DigitRunOfNumber(n: nat, rest: string)
    requires rest == [] || !IsDigit(rest[0])
    ensures DigitRun(ShowNat(n) + rest) == |ShowNat(n)|
  {
    DigitRunPrefix(ShowNat(n), rest);
  }

  lemma {:induction false} ShowItemsRoundTrip(ds: seq<nat>)
    requires |ds| >= 1
    ensures ParseItems(ShowItems(ds)) == Some(ds)
    decreases |ds|
  {
    var n := ShowNat(ds[0]);
    ShowNatRoundTrip(ds[0]);
    if |ds| == 1 {
      DigitRunOfNumber(ds[0], []);
      assert ShowItems(ds) == n;
      assert n + [] == n;
      assert n[..|n|] == n;
      assert ds == [ds[0]];
    } else {
      var rest := "," + ShowItems(ds[1..]);
      assert ShowItems(ds) == n + rest;
      DigitRunOfNumber(ds[0], rest);
      assert (n + rest)[..|n|] == n;
      assert (n + rest)[|n| + 1..] == ShowItems(ds[1..]);
      ShowItemsRoundTrip(ds[1..]);
      assert [ds[0]] + ds[1..] == ds;
    }
  }

  /** The array stored by JSON.stringify parses back to itself, so the client
      always sees the weekdays it sent. */
  lemma DaysRoundTrip(ds: seq<nat>)
    ensures ParseDays(ShowDays(ds)) == Some(ds)
    ensures TryParseDays(ShowDays(ds), []) == ds
  {
    var s := ShowDays(ds);
    assert s[1..|s| - 1] == ShowItems(ds);
    if |ds| >= 1 {
      ShowItemsRoundTrip(ds);
    }
  }
}
