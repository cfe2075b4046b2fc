/** DynamicRouteGenerationService: the dated occurrences of weekly route
    templates. generateRoutes turns the templates running on a date into a
    list of routes, each either an existing physical route of that template
    or a virtual one that only exists in the answer; materializeRoute turns a
    virtual route's id back into a physical route, reusing an existing one
    when the store has it. */
module RouteGeneration {
  import opened Wrappers
  import opened Text
  import opened DateUtils
  import opened Entities
  import opened TemplateFormats
  import opened VirtualIds
  import opened Stores

  function Abs(x: int): nat {
    if x < 0 then -x else x
  }

  /** The time of day of a clock, in milliseconds. */
  function ClockMs(c: Clock): int {
    c.hour * MsPerHour + c.minute * MsPerMinute
  }

  predicate InRange(c: Clock) {
    0 <= c.hour < 24 && 0 <= c.minute < 60
  }

  /** The find predicate of both operations: a route matches a template
      departing at clock c when it belongs to the same company, departs in
      the same UTC hour and at most five minutes apart within that hour. */
  predicate Matches(r: Route, companyId: string, c: Clock) {
    UtcHours(r.departureTime) == c.hour
    && Abs(UtcMinutes(r.departureTime) - c.minute) <= 5
    && r.companyId == companyId
  }

  /** A matched route departs less than six minutes from the template's time
      on its own day. */
  lemma MatchIsClose(r: Route, companyId: string, c: Clock)
    requires Matches(r, companyId, c)
    ensures Abs(TimeWithinDay(r.departureTime) - ClockMs(c)) < 6 * MsPerMinute
  {
    ClockParts(r.departureTime);
  }

  /** The window does not cross an hour: a route four minutes after a
      template's time can still fail to match it (08:58 against 09:02). */
  lemma HourBoundaryNeverMatches(r: Route, companyId: string)
    requires UtcHours(r.departureTime) == 9 && UtcMinutes(r.departureTime) == 2
    ensures TimeWithinDay(r.departureTime) / MsPerMinute - ClockMs(Clock(8, 58)) / MsPerMinute == 4
    ensures !Matches(r, companyId, Clock(8, 58))
  {
    var t := r.departureTime;
    ClockParts(t);
    DivModUnique(TimeWithinDay(t), MsPerMinute, 542, t % MsPerMinute);
  }

  /** The index of the first route matching, |routes| if there is none. */
  function FirstMatch(routes: seq<Route>, companyId: string, c: Clock): (k: nat)
    ensures k <= |routes|
    ensures forall j :: 0 <= j < k ==> !Matches(routes[j], companyId, c)
    ensures k < |routes| ==> Matches(routes[k], companyId, c)
    decreases |routes|
  {
    if routes == [] then 0
    else if Matches(routes[0], companyId, c) then 0
    else 1 + FirstMatch(routes[1..], companyId, c)
  }

  /** Array.prototype.find with the match predicate. */
  function FindMatch(routes: seq<Route>, companyId: string, c: Clock): (r: Option<Route>)
    ensures r.None? <==> forall x | x in routes :: !Matches(x, companyId, c)
    ensures r.Some? ==> r.value == routes[FirstMatch(routes, companyId, c)]
    ensures r.Some? ==> r.value in routes && Matches(r.value, companyId, c)
  {
    var k := FirstMatch(routes, companyId, c);
    if k < |routes| then Some(routes[k]) else None
  }

  /** JSON.parse(daysOfWeek).includes(weekday), false when the text does not
      parse. */
  predicate RunsOn(t: RouteTemplate, weekday: int) {
    match ParseDays(t.daysOfWeek)
    case Some(days) => weekday in days
    case None => false
  }

  /** templates.filter(RunsOn): the templates running on the weekday, in order. */
  function FilterByWeekday(ts: seq<RouteTemplate>, weekday: int): (r: seq<RouteTemplate>)
    ensures |r| <= |ts|
    ensures forall t :: t in r <==> t in ts && RunsOn(t, weekday)
  {
    if ts == [] then []
    else
      var rest := FilterByWeekday(ts[..|ts| - 1], weekday);
      var t := ts[|ts| - 1];
      assert ts == ts[..|ts| - 1] + [t];
      if RunsOn(t, weekday) then rest + [t] else rest
  }

  lemma {:induction false} FilterAppend(a: seq<RouteTemplate>, b: seq<RouteTemplate>, weekday: int)
    ensures FilterByWeekday(a + b, weekday) == FilterByWeekday(a, weekday) + FilterByWeekday(b, weekday)
    decreases |b|
  {
    if b == [] {
      assert a + b == a;
    } else {
      var b' := b[..|b| - 1];
      assert (a + b)[..|a + b| - 1] == a + b';
      assert (a + b)[|a + b| - 1] == b[|b| - 1];
      FilterAppend(a, b', weekday);
    }
  }

  /** The departure and arrival instants of a template's occurrence on the
      day of `date`: setUTCHours(h, m, 0) on copies of the date (the
      milliseconds of the date are kept), and the arrival moved one day on
      when it would fall before the departure. */
  function OccurrenceTimes(date: int, dep: Clock, arr: Clock): (int, int) {
    var departure := SetUtcHours(date, dep.hour, dep.minute, 0);
    var arrival := SetUtcHours(date, arr.hour, arr.minute, 0);
    if arrival < departure then (departure, AddDaysUTC(arrival, 1)) else (departure, arrival)
  }

  /** The departure is at the template's clock on the date's day; the
      arrival at its clock on that day or, when that clock is earlier, the
      next one; both keep the date's milliseconds, and the trip lasts less
      than a day. */
  lemma OccurrenceTimesFields(date: int, dep: Clock, arr: Clock)
    requires InRange(dep) && InRange(arr)
    ensures var r := OccurrenceTimes(date, dep, arr);
      && Day(r.0) == Day(date) && UtcHours(r.0) == dep.hour && UtcMinutes(r.0) == dep.minute
      && UtcSeconds(r.0) == 0 && UtcMilliseconds(r.0) == UtcMilliseconds(date)
      && Day(r.1) == Day(date) + (if ClockMs(arr) < ClockMs(dep) then 1 else 0)
      && UtcHours(r.1) == arr.hour && UtcMinutes(r.1) == arr.minute
      && UtcSeconds(r.1) == 0 && UtcMilliseconds(r.1) == UtcMilliseconds(date)
      && r.0 <= r.1 < r.0 + MsPerDay
  {
    var ms := UtcMilliseconds(date);
    TimeFields(Day(date), dep.hour, dep.minute, ms);
    TimeFields(Day(date), arr.hour, arr.minute, ms);
    TimeFields(Day(date) + 1, arr.hour, arr.minute, ms);
  }

  /** The virtual route of template t on the day of `date`, whose
      formatUTC text is `dateText`. */
  function VirtualRoute(t: RouteTemplate, date: int, dateText: string): (r: Route)
    requires WellFormedTemplate(t)
    ensures r.isVirtual && r.active
    ensures r.id == EncodeVirtualId(t.id, dateText)
    ensures r.companyId == t.companyId && r.origin == t.origin && r.destination == t.destination
    ensures r.price == t.price && r.transport == t.transport && r.totalSeats == t.totalSeats
  {
    var times := OccurrenceTimes(date, ClockOf(t.departureTime), ClockOf(t.arrivalTime));
    Route(EncodeVirtualId(t.id, dateText), t.companyId, t.origin, t.destination,
          times.0, times.1, t.price, t.transport, t.totalSeats, true, true)
  }

  /** A virtual route departs on the date's day at the template's departure
      time, arrives at its arrival time (the next day exactly when that time
      is the earlier one), and matches its own template, so a later search
      finds the route once it is materialised. */
  lemma VirtualRouteTimes(t: RouteTemplate, date: int, dateText: string)
    requires WellFormedTemplate(t)
    ensures var r := VirtualRoute(t, date, dateText);
      var dep, arr := ClockOf(t.departureTime), ClockOf(t.arrivalTime);
      && Day(r.departureTime) == Day(date)
      && UtcHours(r.departureTime) == dep.hour && UtcMinutes(r.departureTime) == dep.minute
      && UtcHours(r.arrivalTime) == arr.hour && UtcMinutes(r.arrivalTime) == arr.minute
      && (Day(r.arrivalTime) == Day(date) + 1 <==> ClockMs(arr) < ClockMs(dep))
      && r.departureTime <= r.arrivalTime < r.departureTime + MsPerDay
      && Matches(r, t.companyId, dep)
  {
    OccurrenceTimesFields(date, ClockOf(t.departureTime), ClockOf(t.arrivalTime));
  }

  /** The inputs of one generateRoutes call besides the templates: the
      search instant and its formatUTC text, the number of passengers, the
      existing routes of the day and the tickets that hold their seats. */
  datatype Search = Search(date: int, dateText: string, passengers: int,
                           existing: seq<Route>, tickets: map<string, Ticket>)

  function SearchOf(date: int, passengers: int, existing: seq<Route>, tickets: map<string, Ticket>): (s: Search)
    ensures s.date == date && s.passengers == passengers && s.existing == existing && s.tickets == tickets
    ensures s.dateText == FormatUTC(date, 0)
  {
    Search(date, FormatUTC(date, 0), passengers, existing, tickets)
  }

  /** What one weekday-matching template contributes: its first matching
      existing route if that route has enough free seats, nothing if it has
      fewer, and the virtual route if no existing route matches. */
  function Entry(t: RouteTemplate, s: Search): Option<Route>
    requires WellFormedTemplate(t)
  {
    match FindMatch(s.existing, t.companyId, ClockOf(t.departureTime))
    case Some(route) =>
      if AvailableSeats(route, s.tickets) >= s.passengers then Some(route) else None
    case None => Some(VirtualRoute(t, s.date, s.dateText))
  }

  /** A template's entry is missing exactly when its first matching existing
      route has too few free seats; otherwise it is a matching existing route
      with enough free seats, or, when nothing matches, the template's
      virtual route. */
  lemma EntryMeaning(t: RouteTemplate, s: Search)
    requires WellFormedTemplate(t)
    ensures var c := ClockOf(t.departureTime);
      Entry(t, s).None? <==>
        exists i :: 0 <= i < |s.existing| && Matches(s.existing[i], t.companyId, c)
          && (forall j :: 0 <= j < i ==> !Matches(s.existing[j], t.companyId, c))
          && AvailableSeats(s.existing[i], s.tickets) < s.passengers
    ensures var c := ClockOf(t.departureTime);
      var r := Entry(t, s);
      r.Some? ==>
        || (r.value in s.existing && Matches(r.value, t.companyId, c) && AvailableSeats(r.value, s.tickets) >= s.passengers)
        || (r.value == VirtualRoute(t, s.date, s.dateText) && forall x | x in s.existing :: !Matches(x, t.companyId, c))
  {
    var c := ClockOf(t.departureTime);
    var existing := s.existing;
    var k := FirstMatch(existing, t.companyId, c);
    var e := Entry(t, s);
    if e.None? {
      assert k < |existing|;
    } else if k < |existing| {
      forall i | 0 <= i < |existing| && Matches(existing[i], t.companyId, c)
          && (forall j :: 0 <= j < i ==> !Matches(existing[j], t.companyId, c))
        ensures i == k
      {
      }
    } else {
      forall i | 0 <= i < |existing|
        ensures !Matches(existing[i], t.companyId, c)
      {
      }
    }
  }

  /** The present values of a sequence of optional values, in order. */
  function Flatten<T>(os: seq<Option<T>>): (r: seq<T>)
    ensures |r| <= |os|
  {
    if os == [] then []
    else
      var last := os[|os| - 1];
      Flatten(os[..|os| - 1]) + (if last.Some? then [last.value] else [])
  }

  lemma {:induction false} FlattenAppend<T>(a: seq<Option<T>>, b: seq<Option<T>>)
    ensures Flatten(a + b) == Flatten(a) + Flatten(b)
    decreases |b|
  {
    if b == [] {
      assert a + b == a;
    } else {
      var ab := a + b;
      assert ab[..|ab| - 1] == a + b[..|b| - 1] && ab[|ab| - 1] == b[|b| - 1];
      FlattenAppend(a, b[..|b| - 1]);
    }
  }

  lemma FlattenSnoc<T>(os: seq<Option<T>>, o: Option<T>)
    ensures Flatten(os + [o]) == Flatten(os) + (if o.Some? then [o.value] else [])
  {
    assert (os + [o])[..|os|] == os;
  }

  lemma {:induction false} FlattenMembers<T>(os: seq<Option<T>>, x: T)
    ensures x in Flatten(os) <==> Some(x) in os
    decreases |os|
  {
    if os != [] {
      var init := os[..|os| - 1];
      assert os == init + [os[|os| - 1]];
      FlattenMembers(init, x);
    }
  }

  /** Flattening the images of a sequence under f keeps exactly the present
      images. */
  lemma FlattenImages<T, U>(xs: seq<T>, os: seq<Option<U>>, f: T --> Option<U>, x: U)
    requires |os| == |xs|
    requires forall i :: 0 <= i < |xs| ==> f.requires(xs[i]) && os[i] == f(xs[i])
    ensures x in Flatten(os) <==> exists y | y in xs :: f.requires(y) && f(y) == Some(x)
  {
    FlattenMembers(os, x);
    if Some(x) in os {
      var i :| 0 <= i < |os| && os[i] == Some(x);
      assert xs[i] in xs;
    }
    if exists y | y in xs :: f.requires(y) && f(y) == Some(x) {
      var y :| y in xs && f.requires(y) && f(y) == Some(x);
      var i :| 0 <= i < |xs| && xs[i] == y;
      assert os[i] == Some(x);
    }
  }

  predicate AllWellFormed(ts: seq<RouteTemplate>) {
    forall t | t in ts :: WellFormedTemplate(t)
  }

  lemma WellFormedParts(a: seq<RouteTemplate>, b: seq<RouteTemplate>)
    ensures AllWellFormed(a + b) <==> AllWellFormed(a) && AllWellFormed(b)
  {
    assert forall t :: t in a + b <==> t in a || t in b;
  }

  /** The entry of each template, in template order. */
  function Entries(ts: seq<RouteTemplate>, s: Search): (es: seq<Option<Route>>)
    requires AllWellFormed(ts)
    ensures |es| == |ts|
  {
    if ts == [] then []
    else
      assert ts[|ts| - 1] in ts;
      Entries(ts[..|ts| - 1], s) + [Entry(ts[|ts| - 1], s)]
  }

  lemma {:induction false} EntriesAt(ts: seq<RouteTemplate>, i: int, s: Search)
    requires AllWellFormed(ts) && 0 <= i < |ts|
    ensures WellFormedTemplate(ts[i])
    ensures Entries(ts, s)[i] == Entry(ts[i], s)
    decreases |ts|
  {
    assert ts[i] in ts;
    if i < |ts| - 1 {
      var init := ts[..|ts| - 1];
      assert init[i] == ts[i];
      assert init[i] in init;
      EntriesAt(init, i, s);
    }
  }

  /** What generateRoutes returns for the templates of the search. */
  function Generated(templates: seq<RouteTemplate>, s: Search): seq<Route>
    requires AllWellFormed(templates)
  {
    Flatten(Entries(FilterByWeekday(templates, GetDayOfWeekUTC(s.date)), s))
  }

  /** A route is in the answer iff some template running on the date's UTC
      weekday yields it. */
  lemma GeneratedMembers(templates: seq<RouteTemplate>, s: Search, r: Route)
    requires AllWellFormed(templates)
    ensures r in Generated(templates, s)
        <==> exists t | t in templates :: RunsOn(t, GetDayOfWeekUTC(s.date)) && Entry(t, s) == Some(r)
  {
    var m := FilterByWeekday(templates, GetDayOfWeekUTC(s.date));
    var f := t requires WellFormedTemplate(t) => Entry(t, s);
    var es := Entries(m, s);
    forall i | 0 <= i < |m|
      ensures f.requires(m[i]) && es[i] == f(m[i])
    {
      EntriesAt(m, i, s);
    }
    FlattenImages(m, es, f, r);
  }

  /** At most one entry per template running on the date. */
  lemma GeneratedLength(templates: seq<RouteTemplate>, s: Search)
    requires AllWellFormed(templates)
    ensures |Generated(templates, s)| <= |FilterByWeekday(templates, GetDayOfWeekUTC(s.date))|
    ensures |Generated(templates, s)| <= |templates|
  {
  }

  /** A template that does not run on the date, because its weekday list
      lacks the weekday or does not parse, contributes nothing, and the other
      templates' entries are produced as without it. */
  lemma IdleTemplateContributesNothing(before: seq<RouteTemplate>, t: RouteTemplate, after: seq<RouteTemplate>, s: Search)
    requires AllWellFormed(before + [t] + after)
    requires !RunsOn(t, GetDayOfWeekUTC(s.date))
    ensures AllWellFormed(before + after)
    ensures Generated(before + [t] + after, s) == Generated(before + after, s)
  {
    WellFormedParts(before + [t], after);
    WellFormedParts(before, [t]);
    WellFormedParts(before, after);
    var w := GetDayOfWeekUTC(s.date);
    FilterAppend(before + [t], after, w);
    FilterAppend(before, [t], w);
    FilterAppend(before, after, w);
    assert FilterByWeekday([t], w) == [] by {
      assert [t][..0] == [];
    }
    assert FilterByWeekday(before + [t], w) == FilterByWeekday(before, w);
  }

  /** The body of step 4 for one template: an existing matching route
      when it has the seats, nothing when it has fewer, and the virtual route
      built from the template's times when none matches. */
  method TemplateEntry(template: RouteTemplate, s: Search) returns (entry: Option<Route>)
    requires WellFormedTemplate(template)
    ensures entry == Entry(template, s)
  {
    var departure := ClockOf(template.departureTime);
    var existingRoute := FindMatch(s.existing, template.companyId, departure);
    if existingRoute.Some? {
      var availableSeats := AvailableSeats(existingRoute.value, s.tickets);
      if availableSeats >= s.passengers {
        return Some(existingRoute.value);
      }
      return None;
    }
    var arrival := ClockOf(template.arrivalTime);
    var departureTime := SetUtcHours(s.date, departure.hour, departure.minute, 0);
    var arrivalTime := SetUtcHours(s.date, arrival.hour, arrival.minute, 0);
    if arrivalTime < departureTime {
      arrivalTime := AddDaysUTC(arrivalTime, 1);
    }
    var virtualRoute := Route(EncodeVirtualId(template.id, s.dateText), template.companyId,
                              template.origin, template.destination, departureTime, arrivalTime,
                              template.price, template.transport, template.totalSeats, true, true);
    assert virtualRoute == VirtualRoute(template, s.date, s.dateText);
    entry := Some(virtualRoute);
  }

  /** Step 4 of generateRoutes: one pass over the templates running on the
      date, collecting each template's entry in order. */
  method CollectRoutes(matching: seq<RouteTemplate>, s: Search) returns (routes: seq<Route>)
    requires AllWellFormed(matching)
    ensures routes == Flatten(Entries(matching, s))
  {
    ghost var entries := Entries(matching, s);
    routes := [];
    var i := 0;
    while i < |matching|
      invariant 0 <= i <= |matching|
      invariant routes == Flatten(entries[..i])
    {
      assert entries[..i + 1] == entries[..i] + [entries[i]];
      FlattenSnoc(entries[..i], entries[i]);
      EntriesAt(matching, i, s);
      var entry := TemplateEntry(matching[i], s);
      if entry.Some? {
        routes := routes + [entry.value];
      }
      i := i + 1;
    }
    assert entries[..|matching|] == entries;
  }

  /** generateRoutes with the templates the repository found for the
      search: no templates, or none running on the date's UTC weekday, give
      no routes; otherwise step 4 collects them. numberOfPassengers defaults
      to 1. */
  method GenerateRoutes(templates: seq<RouteTemplate>, date: int, numberOfPassengers: Option<int>,
                        existing: seq<Route>, tickets: map<string, Ticket>) returns (routes: seq<Route>)
    requires AllWellFormed(templates)
    ensures routes == Generated(templates, SearchOf(date, numberOfPassengers.GetOr(1), existing, tickets))
  {
    var s := SearchOf(date, numberOfPassengers.GetOr(1), existing, tickets);
    if |templates| == 0 {
      return [];
    }
    var dayOfWeek := GetDayOfWeekUTC(date);
    var matching := FilterByWeekday(templates, dayOfWeek);
    if |matching| == 0 {
      return [];
    }
    assert forall t | t in matching :: t in templates;
    routes := CollectRoutes(matching, s);
  }

  /** The store search of materializeRoute: active routes whose origin and
      destination names contain the template's, ignoring case, departing
      within the UTC day of `day`. */
  predicate InDaySearch(r: Route, origin: string, destination: string, day: int) {
    r.active && ContainsIgnoringCase(r.origin.name, origin) && ContainsIgnoringCase(r.destination.name, destination)
    && StartOfDayUTC(day) <= r.departureTime <= EndOfDayUTC(day)
  }

  /** A stored route materializeRoute accepts for template t on `day`. */
  predicate Candidate(r: Route, t: RouteTemplate, day: int)
    requires WellFormedTemplate(t)
  {
    InDaySearch(r, t.origin.name, t.destination.name, day) && Matches(r, t.companyId, ClockOf(t.departureTime))
  }

  const InvalidDate: string := "Invalid time value"
  const CreateFailed: string := "Falha ao criar rota física a partir do template"

  /** The template and the day (UTC midnight) a virtual id designates, or
      the error materializeRoute raises before searching. */
  function Plan(virtualId: string, templates: map<string, RouteTemplate>): (r: Result<(RouteTemplate, int)>)
    ensures r.Ok? ==> TimeWithinDay(r.value.1) == 0
    ensures r.Ok? ==> DecodeVirtualId(virtualId).Ok? && DecodeVirtualId(virtualId).value.0 in templates
                      && r.value.0 == ReturnedTemplate(templates[DecodeVirtualId(virtualId).value.0])
  {
    var (templateId, dateText) :- DecodeVirtualId(virtualId);
    if templateId !in templates then Fail("Template de rota não encontrado")
    else match ParseIsoDate(dateText)
      case None => Fail(InvalidDate)
      case Some(day) => Ok((ReturnedTemplate(templates[templateId]), day))
  }

  /** The physical route materializeRoute creates for template t on `day`. */
  function MaterializedRoute(t: RouteTemplate, id: string, day: int): (r: Route)
    requires WellFormedTemplate(t) && TimeWithinDay(day) == 0
    ensures r.id == id && r.active && !r.isVirtual
    ensures r.companyId == t.companyId && r.origin == t.origin && r.destination == t.destination
    ensures r.price == t.price && r.transport == t.transport && r.totalSeats == t.totalSeats
    ensures Candidate(r, t, day)
    ensures r.departureTime <= r.arrivalTime < r.departureTime + MsPerDay
  {
    var times := OccurrenceTimes(day, ClockOf(t.departureTime), ClockOf(t.arrivalTime));
    OccurrenceTimesFields(day, ClockOf(t.departureTime), ClockOf(t.arrivalTime));
    ContainsIgnoringCaseSelf(t.origin.name);
    ContainsIgnoringCaseSelf(t.destination.name);
    InstantFromParts(day);
    Route(id, t.companyId, t.origin, t.destination, times.0, times.1,
          t.price, t.transport, t.totalSeats, true, false)
  }

  /** Setting the clock on the day's midnight gives the same instant as on
      the date itself, less the date's milliseconds. */
  lemma SetHoursOnMidnight(t: int, h: int, m: int)
    ensures SetUtcHours(StartOfDayUTC(t), h, m, 0) == SetUtcHours(t, h, m, 0) - UtcMilliseconds(t)
  {
    var d := StartOfDayUTC(t);
    assert d == Day(t) * MsPerDay;
    DivModUnique(d, MsPerSecond, Day(t) * 86400, 0);
  }

  lemma OccurrenceTimesOnMidnight(date: int, dep: Clock, arr: Clock)
    requires InRange(dep) && InRange(arr)
    ensures var g := OccurrenceTimes(date, dep, arr);
      OccurrenceTimes(StartOfDayUTC(date), dep, arr) == (g.0 - UtcMilliseconds(date), g.1 - UtcMilliseconds(date))
  {
    SetHoursOnMidnight(date, dep.hour, dep.minute);
    SetHoursOnMidnight(date, arr.hour, arr.minute);
  }

  /** The id of a route generated for a date of years 1-9999 plans back to
      its template and the UTC midnight of that date. */
  lemma PlanOfVirtualId(t: RouteTemplate, date: int, templates: map<string, RouteTemplate>)
    requires t.id in templates && ReturnedTemplate(templates[t.id]) == t
    requires 1 <= UtcDate(date).year <= 9999
    ensures Plan(EncodeVirtualId(t.id, FormatUTC(date, 0)), templates) == Ok((t, StartOfDayUTC(date)))
  {
    DecodeEncode(t.id, FormatUTC(date, 0));
    ParseFormatRoundTrip(date);
  }

  /** materializeRoute on the id of a route generated for a date of years
      1-9999 finds that template and that date's day, and the route it
      creates is the virtual route with the new id, isVirtual false, and the
      search instant's milliseconds dropped. */
  lemma MaterializeAgreesWithGeneration(t: RouteTemplate, date: int, templates: map<string, RouteTemplate>, id: string)
    requires WellFormedTemplate(t) && t.id in templates && ReturnedTemplate(templates[t.id]) == t
    requires 1 <= UtcDate(date).year <= 9999
    ensures Plan(VirtualRoute(t, date, FormatUTC(date, 0)).id, templates) == Ok((t, StartOfDayUTC(date)))
    ensures var v := VirtualRoute(t, date, FormatUTC(date, 0));
      MaterializedRoute(t, id, StartOfDayUTC(date))
        == v.(id := id, isVirtual := false,
              departureTime := v.departureTime - UtcMilliseconds(date),
              arrivalTime := v.arrivalTime - UtcMilliseconds(date))
  {
    PlanOfVirtualId(t, date, templates);
    OccurrenceTimesOnMidnight(date, ClockOf(t.departureTime), ClockOf(t.arrivalTime));
  }

  /** DynamicRouteGenerationService.materializeRoute. `newId` is the id the database
      gives the new route. */
  method MaterializeRoute(templates: TemplateStore, store: RouteStore, virtualId: string, newId: string) returns (res: Result<Route>)
    requires templates.Valid() && store.Valid()
    modifies store
    ensures store.Valid() && store.amenities == old(store.amenities)
    ensures Plan(virtualId, templates.templates).Err? ==>
      res == Err(Plan(virtualId, templates.templates).error) && store.routes == old(store.routes)
    ensures Plan(virtualId, templates.templates).Ok? ==>
      var (t, day) := Plan(virtualId, templates.templates).value;
      if exists r | r in old(store.routes).Values :: Candidate(r, t, day) then
        res.Ok? && res.value in old(store.routes).Values && Candidate(res.value, t, day)
        && store.routes == old(store.routes)
      else if newId in old(store.routes) then
        res == Fail(CreateFailed) && store.routes == old(store.routes)
      else
        res == Ok(MaterializedRoute(t, newId, day)) && store.routes == old(store.routes)[newId := res.value]
    ensures res.Ok? ==> res.value.id in store.routes && store.routes[res.value.id] == res.value
  {
    var decoded := DecodeVirtualId(virtualId);
    if decoded.Err? {
      return Err(decoded.error);
    }
    var (templateId, dateStr) := decoded.value;
    var found := templates.FindById(templateId);
    if found.None? {
      return Fail("Template de rota não encontrado");
    }
    var template := found.value;
    var parsed := ParseIsoDate(dateStr);
    if parsed.None? {
      return Fail(InvalidDate);
    }
    var departureDate := parsed.value;
    var departure := ClockOf(template.departureTime);
    var arrival := ClockOf(template.arrivalTime);
    var departureTime := SetUtcHours(departureDate, departure.hour, departure.minute, 0);
    var arrivalTime := SetUtcHours(departureDate, arrival.hour, arrival.minute, 0);
    if arrivalTime < departureTime {
      arrivalTime := AddDaysUTC(arrivalTime, 1);
    }
    if exists r | r in store.routes.Values :: Candidate(r, template, departureDate) {
      var existingRoute :| existingRoute in store.routes.Values && Candidate(existingRoute, template, departureDate);
      return Ok(existingRoute);
    }
    var route := Route(newId, template.companyId, template.origin, template.destination,
                       departureTime, arrivalTime, template.price, template.transport,
                       template.totalSeats, true, false);
    assert route == MaterializedRoute(template, newId, departureDate);
    var created := store.Create(route);
    if created.Err? {
      return Fail(CreateFailed);
    }
    return created;
  }
}
