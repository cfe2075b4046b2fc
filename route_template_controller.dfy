/** RouteTemplateController: the zod schemas of a route template, the
    company and ownership checks of create, update and delete, the
    daysOfWeek JSON round trip and the paginated listings. The user's
    companyId comes from the token and is a parameter, as is the id the
    database gives a new template; the two paginated reads are queries and
    are parameters too. */
module RouteTemplateController {
  import opened Wrappers
  import opened Text
  import opened Entities
  import opened TemplateFormats
  import opened Stores
  import opened Pagination

  const CompaniesOnly: string := "Acesso permitido apenas para empresas"
  const InvalidData: string := "Dados inválidos"
  const InvalidParams: string := "Parâmetros inválidos"
  const TemplateNotFound: string := "Template de rota não encontrado"
  const CannotUpdate: string := "Você não tem permissão para atualizar este template"
  const CannotDelete: string := "Você não tem permissão para remover este template"

  /** The body of a create request, field by field as the schema names
      them; `transport` is the schema's `type`. */
  datatype TemplateBody = TemplateBody(
    origin: string,
    originState: Option<string>,
    originCountry: string,
    originType: string,
    destination: string,
    destinationState: Option<string>,
    destinationCountry: string,
    destinationType: string,
    departureTime: string,
    arrivalTime: string,
    daysOfWeek: seq<int>,
    price: int,
    transport: string,
    totalSeats: int,
    active: Option<bool>)

  predicate PlaceType(s: string) {
    s == "city" || s == "terminal" || s == "airport" || s == "port"
  }

  /** z.enum([BUS, BOAT, FERRY]). */
  function ParseTransport(s: string): (t: Option<TransportType>)
    ensures t.Some? <==> s == "BUS" || s == "BOAT" || s == "FERRY"
  {
    if s == "BUS" then Some(Bus) else if s == "BOAT" then Some(Boat) else if s == "FERRY" then Some(Ferry) else None
  }

  /** A non-empty array of weekdays, each in [0, 6]. */
  predicate ValidDays(ds: seq<int>) {
    |ds| >= 1 && forall i :: 0 <= i < |ds| ==> 0 <= ds[i] <= 6
  }

  /** createRouteTemplateSchema. */
  predicate ValidBody(b: TemplateBody) {
    && |b.origin| >= 1 && |b.originCountry| >= 2 && PlaceType(b.originType)
    && |b.destination| >= 1 && |b.destinationCountry| >= 2 && PlaceType(b.destinationType)
    && ClockPattern(b.departureTime) && ClockPattern(b.arrivalTime)
    && ValidDays(b.daysOfWeek)
    && b.price > 0
    && ParseTransport(b.transport).Some?
    && b.totalSeats > 0
  }

  function Naturals(ds: seq<int>): (ns: seq<nat>)
    requires forall i :: 0 <= i < |ds| ==> ds[i] >= 0
    ensures |ns| == |ds| && forall i :: 0 <= i < |ds| ==> ns[i] == ds[i]
  {
    if ds == [] then [] else [ds[0] as nat] + Naturals(ds[1..])
  }

  /** JSON.stringify(daysOfWeek). */
  function DaysJson(ds: seq<int>): string
    requires ValidDays(ds)
  {
    ShowDays(Naturals(ds))
  }

  /** The record repository.create receives: the body, the weekdays as JSON
      text, the caller's company, active defaulting to true. */
  function NewTemplate(id: string, companyId: string, b: TemplateBody): (t: RouteTemplate)
    requires ValidBody(b)
    ensures WellFormedTemplate(t)
    ensures t.id == id && t.companyId == companyId && t.active == b.active.GetOr(true)
    ensures t.departureTime == b.departureTime && t.arrivalTime == b.arrivalTime
    ensures t.price == b.price && t.totalSeats == b.totalSeats && Some(t.transport) == ParseTransport(b.transport)
    ensures t.origin == Place(b.origin, b.originState, b.originCountry, b.originType)
    ensures t.destination == Place(b.destination, b.destinationState, b.destinationCountry, b.destinationType)
  {
    RouteTemplate(id, companyId,
      Place(b.origin, b.originState, b.originCountry, b.originType),
      Place(b.destination, b.destinationState, b.destinationCountry, b.destinationType),
      b.departureTime, b.arrivalTime, DaysJson(b.daysOfWeek), b.price,
      ParseTransport(b.transport).value, b.totalSeats, b.active.GetOr(true))
  }

  /** A template as the controller sends it, daysOfWeek parsed with
      tryParseJson(text, []). */
  datatype TemplateView = TemplateView(template: RouteTemplate, days: seq<nat>)

  function View(t: RouteTemplate): (v: TemplateView)
    ensures v.template == t
    ensures v.days == TryParseDays(t.daysOfWeek, [])
  {
    TemplateView(t, TryParseDays(t.daysOfWeek, []))
  }

  /** The weekdays a client sends are the weekdays it gets back. */
  lemma DaysSurviveStorage(ds: seq<int>)
    requires ValidDays(ds)
    ensures TryParseDays(DaysJson(ds), []) == Naturals(ds)
    ensures |Naturals(ds)| == |ds| && forall i :: 0 <= i < |ds| ==> Naturals(ds)[i] == ds[i]
  {
    DaysRoundTrip(Naturals(ds));
  }

  datatype Reply =
    | Refused(status: int, message: string)
    | Sent(status: int, view: TemplateView)
    | NoContent(status: int)
    | Listed(status: int, views: seq<TemplateView>, meta: Meta)
    | ListedStored(status: int, templates: seq<RouteTemplate>, meta: Meta)

  /** `!companyId`: no company in the token, or an empty one. */
  predicate NoCompany(companyId: Option<string>) {
    companyId.None? || companyId.value == ""
  }

  /** create. */
  method Create(store: TemplateStore, companyId: Option<string>, body: TemplateBody, newId: string) returns (reply: Reply)
    requires store.Valid()
    modifies store
    ensures store.Valid()
    ensures NoCompany(companyId) ==> reply == Refused(403, CompaniesOnly) && store.templates == old(store.templates)
    ensures !NoCompany(companyId) && !ValidBody(body) ==> reply == Refused(400, InvalidData) && store.templates == old(store.templates)
    ensures !NoCompany(companyId) && ValidBody(body) ==>
      if newId in old(store.templates) then
        reply == Refused(400, UniqueViolation) && store.templates == old(store.templates)
      else
        var t := NewTemplate(newId, companyId.value, body);
        store.templates == old(store.templates)[newId := t] && reply == Sent(201, View(ReturnedTemplate(t)))
    // the client gets back the weekdays it sent
    ensures reply.Sent? ==>
      && |reply.view.days| == |body.daysOfWeek|
      && forall i :: 0 <= i < |body.daysOfWeek| ==> reply.view.days[i] == body.daysOfWeek[i]
  {
    if NoCompany(companyId) {
      return Refused(403, CompaniesOnly);
    }
    if !ValidBody(body) {
      return Refused(400, InvalidData);
    }
    var daysOfWeekJson := DaysJson(body.daysOfWeek);
    var created := store.Create(NewTemplate(newId, companyId.value, body));
    if created.Err? {
      return Refused(400, created.error.message);
    }
    DaysSurviveStorage(body.daysOfWeek);
    reply := Sent(201, View(created.value));
  }

  /** The body of an update: updateRouteTemplateSchema is the create schema
      with every field optional. */
  datatype TemplatePatch = TemplatePatch(
    origin: Option<string>,
    originState: Option<string>,
    originCountry: Option<string>,
    originType: Option<string>,
    destination: Option<string>,
    destinationState: Option<string>,
    destinationCountry: Option<string>,
    destinationType: Option<string>,
    departureTime: Option<string>,
    arrivalTime: Option<string>,
    daysOfWeek: Option<seq<int>>,
    price: Option<int>,
    transport: Option<string>,
    totalSeats: Option<int>,
    active: Option<bool>)

  /** Every field that is present passes the create schema's rule. */
  predicate ValidPatch(p: TemplatePatch) {
    && (p.origin.Some? ==> |p.origin.value| >= 1)
    && (p.originCountry.Some? ==> |p.originCountry.value| >= 2)
    && (p.originType.Some? ==> PlaceType(p.originType.value))
    && (p.destination.Some? ==> |p.destination.value| >= 1)
    && (p.destinationCountry.Some? ==> |p.destinationCountry.value| >= 2)
    && (p.destinationType.Some? ==> PlaceType(p.destinationType.value))
    && (p.departureTime.Some? ==> ClockPattern(p.departureTime.value))
    && (p.arrivalTime.Some? ==> ClockPattern(p.arrivalTime.value))
    && (p.daysOfWeek.Some? ==> ValidDays(p.daysOfWeek.value))
    && (p.price.Some? ==> p.price.value > 0)
    && (p.transport.Some? ==> ParseTransport(p.transport.value).Some?)
    && (p.totalSeats.Some? ==> p.totalSeats.value > 0)
  }

  function PatchPlace(pl: Place, name: Option<string>, state: Option<string>, country: Option<string>, kind: Option<string>): Place {
    Place(name.GetOr(pl.name), if state.Some? then state else pl.state, country.GetOr(pl.country), kind.GetOr(pl.kind))
  }

  /** repository.update(id, dataToUpdate): each present field replaces the
      stored one (daysOfWeek as its JSON text); the id and the company stay. */
  function ApplyPatch(t: RouteTemplate, p: TemplatePatch): (u: RouteTemplate)
    requires ValidPatch(p)
    ensures u.id == t.id && u.companyId == t.companyId
    ensures u.departureTime == p.departureTime.GetOr(t.departureTime)
    ensures u.arrivalTime == p.arrivalTime.GetOr(t.arrivalTime)
    ensures u.daysOfWeek == (if p.daysOfWeek.Some? then DaysJson(p.daysOfWeek.value) else t.daysOfWeek)
    ensures u.price == p.price.GetOr(t.price) && u.totalSeats == p.totalSeats.GetOr(t.totalSeats)
    ensures u.active == p.active.GetOr(t.active)
    ensures u.transport == (if p.transport.Some? then ParseTransport(p.transport.value).value else t.transport)
    ensures WellFormedTemplate(t) ==> WellFormedTemplate(u)
  {
    t.(origin := PatchPlace(t.origin, p.origin, p.originState, p.originCountry, p.originType),
       destination := PatchPlace(t.destination, p.destination, p.destinationState, p.destinationCountry, p.destinationType),
       departureTime := p.departureTime.GetOr(t.departureTime),
       arrivalTime := p.arrivalTime.GetOr(t.arrivalTime),
       daysOfWeek := if p.daysOfWeek.Some? then DaysJson(p.daysOfWeek.value) else t.daysOfWeek,
       price := p.price.GetOr(t.price),
       transport := if p.transport.Some? then ParseTransport(p.transport.value).value else t.transport,
       totalSeats := p.totalSeats.GetOr(t.totalSeats),
       active := p.active.GetOr(t.active))
  }

  /** An empty patch changes nothing. */
  lemma EmptyPatch(t: RouteTemplate)
    ensures var none := TemplatePatch(None, None, None, None, None, None, None, None, None, None, None, None, None, None, None);
      ApplyPatch(t, none) == t
  {
  }

  /** update. */
  method Update(store: TemplateStore, companyId: Option<string>, id: string, patch: TemplatePatch) returns (reply: Reply)
    requires store.Valid()
    modifies store
    ensures store.Valid()
    ensures NoCompany(companyId) ==> reply == Refused(403, CompaniesOnly)
    ensures !NoCompany(companyId) && (!IsUuid(id) || !ValidPatch(patch)) ==> reply == Refused(400, InvalidData)
    ensures !NoCompany(companyId) && IsUuid(id) && ValidPatch(patch) ==>
      if id !in old(store.templates) then reply == Refused(404, TemplateNotFound)
      else if old(store.templates)[id].companyId != companyId.value then reply == Refused(403, CannotUpdate)
      else
        var u := ApplyPatch(old(store.templates)[id], patch);
        store.templates == old(store.templates)[id := u] && reply == Sent(200, View(ReturnedTemplate(u)))
    // whenever the call is refused the store is as it was
    ensures !reply.Sent? ==> store.templates == old(store.templates)
  {
    if NoCompany(companyId) {
      return Refused(403, CompaniesOnly);
    }
    if !IsUuid(id) || !ValidPatch(patch) {
      return Refused(400, InvalidData);
    }
    var existing := store.FindById(id);
    if existing.None? {
      return Refused(404, TemplateNotFound);
    }
    if existing.value.companyId != companyId.value {
      return Refused(403, CannotUpdate);
    }
    var updated := ApplyPatch(store.templates[id], patch);
    store.Update(id, updated);
    reply := Sent(200, View(ReturnedTemplate(updated)));
  }

  /** delete. */
  method Delete(store: TemplateStore, companyId: Option<string>, id: string) returns (reply: Reply)
    requires store.Valid()
    modifies store
    ensures store.Valid()
    ensures NoCompany(companyId) ==> reply == Refused(403, CompaniesOnly)
    ensures !NoCompany(companyId) && !IsUuid(id) ==> reply == Refused(400, InvalidParams)
    ensures !NoCompany(companyId) && IsUuid(id) ==>
      if id !in old(store.templates) then reply == Refused(404, TemplateNotFound)
      else if old(store.templates)[id].companyId != companyId.value then reply == Refused(403, CannotDelete)
      else store.templates == old(store.templates) - {id} && reply == NoContent(204)
    ensures !reply.NoContent? ==> store.templates == old(store.templates)
  {
    if NoCompany(companyId) {
      return Refused(403, CompaniesOnly);
    }
    if !IsUuid(id) {
      return Refused(400, InvalidParams);
    }
    var existing := store.FindById(id);
    if existing.None? {
      return Refused(404, TemplateNotFound);
    }
    if existing.value.companyId != companyId.value {
      return Refused(403, CannotDelete);
    }
    store.Delete(id);
    reply := NoContent(204);
  }

  /** findById. */
  function Find(store: TemplateStore, id: string): (reply: Reply)
    reads store
    ensures !IsUuid(id) ==> reply == Refused(400, InvalidParams)
    ensures IsUuid(id) && id !in store.templates ==> reply == Refused(404, TemplateNotFound)
    ensures IsUuid(id) && id in store.templates ==> reply == Sent(200, View(ReturnedTemplate(store.templates[id])))
  {
    if !IsUuid(id) then Refused(400, InvalidParams)
    else match store.FindById(id)
      case None => Refused(404, TemplateNotFound)
      case Some(t) => Sent(200, View(t))
  }

  /** A query-string value after z.coerce.number(): absent, an integer, or
      anything else (NaN, a fraction, Infinity). */
  datatype QueryValue = Absent | Integer(n: int) | NotInteger

  /** paginationSchema's page: a positive integer, 1 when absent. */
  function ParsePage(v: QueryValue): (r: Option<int>)
    ensures v.Absent? ==> r == Some(1)
    ensures v.Integer? ==> (r.Some? <==> v.n > 0) && (r.Some? ==> r.value == v.n)
    ensures v.NotInteger? ==> r.None?
  {
    match v
    case Absent => Some(1)
    case Integer(n) => if n > 0 then Some(n) else None
    case NotInteger => None
  }

  /** paginationSchema's limit: an integer in [1, 50], 10 when absent. */
  function ParseLimit(v: QueryValue): (r: Option<int>)
    ensures v.Absent? ==> r == Some(10)
    ensures v.Integer? ==> (r.Some? <==> 0 < v.n <= 50) && (r.Some? ==> r.value == v.n)
    ensures v.NotInteger? ==> r.None?
  {
    match v
    case Absent => Some(10)
    case Integer(n) => if 0 < n <= 50 then Some(n) else None
    case NotInteger => None
  }

  datatype TemplatePage = TemplatePage(templates: seq<RouteTemplate>, total: nat)

  function Views(ts: seq<RouteTemplate>): (vs: seq<TemplateView>)
    ensures |vs| == |ts| && forall i :: 0 <= i < |ts| ==> vs[i] == View(ts[i])
  {
    if ts == [] then [] else [View(ts[0])] + Views(ts[1..])
  }

  /** findAll: the page of templates exactly as the repository returns it
      (daysOfWeek left as its JSON text), and the page metadata. */
  function FindAll(page: QueryValue, limit: QueryValue, findAll: (int, int) -> TemplatePage): (reply: Reply)
    ensures ParsePage(page).None? || ParseLimit(limit).None? ==> reply == Refused(400, InvalidParams)
    ensures ParsePage(page).Some? && ParseLimit(limit).Some? ==>
      var p, l := ParsePage(page).value, ParseLimit(limit).value;
      && reply == ListedStored(200, findAll(p, l).templates, PageMeta(findAll(p, l).total, p, l))
      && (reply.meta.hasMore <==> p * l < findAll(p, l).total)
  {
    match (ParsePage(page), ParseLimit(limit))
    case (Some(p), Some(l)) =>
      var result := findAll(p, l);
      HasMoreMeaning(result.total, p, l);
      ListedStored(200, result.templates, PageMeta(result.total, p, l))
    case _ => Refused(400, InvalidParams)
  }

  /** findByCompany: only the caller's templates, each with its weekdays
      parsed. */
  function FindByCompany(companyId: Option<string>, page: QueryValue, limit: QueryValue,
                         findByCompanyId: (string, int, int) -> TemplatePage): (reply: Reply)
    ensures NoCompany(companyId) ==> reply == Refused(403, CompaniesOnly)
    ensures !NoCompany(companyId) && (ParsePage(page).None? || ParseLimit(limit).None?) ==> reply == Refused(400, InvalidParams)
    ensures !NoCompany(companyId) && ParsePage(page).Some? && ParseLimit(limit).Some? ==>
      var p, l := ParsePage(page).value, ParseLimit(limit).value;
      var result := findByCompanyId(companyId.value, p, l);
      && reply == Listed(200, Views(result.templates), PageMeta(result.total, p, l))
      && (reply.meta.hasMore <==> p * l < result.total)
  {
    if NoCompany(companyId) then Refused(403, CompaniesOnly)
    else match (ParsePage(page), ParseLimit(limit))
      case (Some(p), Some(l)) =>
        var result := findByCompanyId(companyId.value, p, l);
        HasMoreMeaning(result.total, p, l);
        Listed(200, Views(result.templates), PageMeta(result.total, p, l))
      case _ => Refused(400, InvalidParams)
  }
}
