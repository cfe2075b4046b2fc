/** The route use cases of a company: CreateRoute, UpdateRoute and
    DeleteRoute (src/application/useCases/routes). Each checks that a route
    arrives after it departs; update and delete first make sure that the route
    exists and belongs to the calling company. */
module RouteUseCases {
  import opened Wrappers
  import opened Entities
  import opened Stores

  const ArrivalNotAfterDeparture: string := "A data/hora de chegada deve ser posterior à data/hora de partida"
  const DepartureNotBeforeArrival: string := "A nova data/hora de partida deve ser anterior à data/hora de chegada existente"
  const ArrivalNotAfterExisting: string := "A nova data/hora de chegada deve ser posterior à data/hora de partida existente"
  const RouteNotFound: string := "Rota não encontrada"
  const CannotUpdate: string := "Você não tem permissão para atualizar esta rota"
  const CannotDelete: string := "Você não tem permissão para excluir esta rota"

  /** A route arrives strictly after it departs. */
  predicate Ordered(r: Route) {
    r.departureTime < r.arrivalTime
  }

  datatype CreateRouteRequest = CreateRouteRequest(
    companyId: string,
    origin: Place,
    destination: Place,
    departureTime: int,
    arrivalTime: int,
    price: int,
    transport: TransportType,
    totalSeats: int,
    amenities: Option<seq<string>>,
    active: Option<bool>)

  /** The record CreateRouteUseCase hands to the repository under a new id:
      the request's fields, `active` defaulting to true, never virtual. */
  function NewRoute(id: string, req: CreateRouteRequest): (r: Route)
    ensures r.id == id && r.companyId == req.companyId
    ensures r.origin == req.origin && r.destination == req.destination
    ensures r.departureTime == req.departureTime && r.arrivalTime == req.arrivalTime
    ensures r.price == req.price && r.transport == req.transport && r.totalSeats == req.totalSeats
    ensures r.active == (req.active != Some(false)) && !r.isVirtual
  {
    Route(id, req.companyId, req.origin, req.destination, req.departureTime, req.arrivalTime,
          req.price, req.transport, req.totalSeats, req.active.GetOr(true), false)
  }

  /** `amenities && amenities.length > 0`: a list to attach. */
  predicate HasAmenities(amenities: Option<seq<string>>) {
    amenities.Some? && |amenities.value| > 0
  }

  /** CreateRouteUseCase.execute; newId is the id the database generates. A
      route that does not arrive after it departs is refused before anything
      is written; the amenity list is attached only when it is non-empty. */
  method CreateRoute(store: RouteStore, req: CreateRouteRequest, newId: string) returns (res: Result<Route>)
    modifies store
    ensures req.arrivalTime <= req.departureTime ==>
      res == Fail(ArrivalNotAfterDeparture) && store.routes == old(store.routes) && store.amenities == old(store.amenities)
    ensures req.arrivalTime > req.departureTime && newId in old(store.routes) ==>
      res == Fail(UniqueViolation) && store.routes == old(store.routes) && store.amenities == old(store.amenities)
    ensures req.arrivalTime > req.departureTime && newId !in old(store.routes) ==>
      && res == Ok(NewRoute(newId, req))
      && store.routes == old(store.routes)[newId := NewRoute(newId, req)]
      && store.amenities == (if HasAmenities(req.amenities) then old(store.amenities)[newId := req.amenities.value]
                             else old(store.amenities))
    ensures res.Ok? ==> Ordered(res.value) && res.value.id in store.routes
    ensures old(store.Valid()) ==> store.Valid()
  {
    if req.arrivalTime <= req.departureTime {
      return Fail(ArrivalNotAfterDeparture);
    }
    res := store.Create(NewRoute(newId, req));
    if res.Ok? && HasAmenities(req.amenities) {
      store.SetAmenities(res.value.id, req.amenities.value);
    }
  }

  /** The optional fields of an update; None leaves the field as stored. */
  datatype RoutePatch = RoutePatch(
    origin: Option<string>,
    originState: Option<string>,
    originCountry: Option<string>,
    originType: Option<string>,
    destination: Option<string>,
    destinationState: Option<string>,
    destinationCountry: Option<string>,
    destinationType: Option<string>,
    departureTime: Option<int>,
    arrivalTime: Option<int>,
    price: Option<int>,
    transport: Option<TransportType>,
    totalSeats: Option<int>,
    amenities: Option<seq<string>>,
    active: Option<bool>)

  /** The patch that gives no field. */
  const NoChange: RoutePatch := RoutePatch(None, None, None, None, None, None, None, None, None, None,
                                           None, None, None, None, None)

  function PatchPlace(p: Place, name: Option<string>, state: Option<string>, country: Option<string>, kind: Option<string>): (q: Place)
    ensures q.name == name.GetOr(p.name) && q.country == country.GetOr(p.country) && q.kind == kind.GetOr(p.kind)
    ensures q.state == (if state.Some? then state else p.state)
  {
    Place(name.GetOr(p.name), if state.Some? then state else p.state, country.GetOr(p.country), kind.GetOr(p.kind))
  }

  /** routeRepository.update(id, data without amenities): the given fields
      replace the stored ones; the id, the company and the virtual marker
      cannot change. */
  function ApplyPatch(r: Route, patch: RoutePatch): (u: Route)
    ensures u.id == r.id && u.companyId == r.companyId && u.isVirtual == r.isVirtual
    ensures u.origin == PatchPlace(r.origin, patch.origin, patch.originState, patch.originCountry, patch.originType)
    ensures u.destination == PatchPlace(r.destination, patch.destination, patch.destinationState,
                                        patch.destinationCountry, patch.destinationType)
    ensures u.departureTime == patch.departureTime.GetOr(r.departureTime)
    ensures u.arrivalTime == patch.arrivalTime.GetOr(r.arrivalTime)
    ensures u.price == patch.price.GetOr(r.price) && u.transport == patch.transport.GetOr(r.transport)
    ensures u.totalSeats == patch.totalSeats.GetOr(r.totalSeats) && u.active == patch.active.GetOr(r.active)
    ensures patch.(amenities := None) == NoChange ==> u == r
  {
    r.(origin := PatchPlace(r.origin, patch.origin, patch.originState, patch.originCountry, patch.originType),
       destination := PatchPlace(r.destination, patch.destination, patch.destinationState,
                                 patch.destinationCountry, patch.destinationType),
       departureTime := patch.departureTime.GetOr(r.departureTime),
       arrivalTime := patch.arrivalTime.GetOr(r.arrivalTime),
       price := patch.price.GetOr(r.price),
       transport := patch.transport.GetOr(r.transport),
       totalSeats := patch.totalSeats.GetOr(r.totalSeats),
       active := patch.active.GetOr(r.active))
  }

  /** The three time guards of UpdateRouteUseCase, in their order: both times
      given, only the departure, only the arrival. */
  function CheckTimes(r: Route, patch: RoutePatch): (res: Result<()>)
    ensures patch.departureTime.Some? && patch.arrivalTime.Some? && patch.arrivalTime.value <= patch.departureTime.value
      ==> res == Fail(ArrivalNotAfterDeparture)
    ensures patch.departureTime.Some? && patch.arrivalTime.None? && patch.departureTime.value >= r.arrivalTime
      ==> res == Fail(DepartureNotBeforeArrival)
    ensures patch.departureTime.None? && patch.arrivalTime.Some? && patch.arrivalTime.value <= r.departureTime
      ==> res == Fail(ArrivalNotAfterExisting)
    ensures res.Err? ==> res.error.kind == PlainError
    // When a time is given, the guards pass exactly when the patched route
    // arrives after it departs; with no time given they always pass.
    ensures patch.departureTime.Some? || patch.arrivalTime.Some? ==> (res.Ok? <==> Ordered(ApplyPatch(r, patch)))
    ensures patch.departureTime.None? && patch.arrivalTime.None? ==> res.Ok?
  {
    if patch.departureTime.Some? && patch.arrivalTime.Some? && patch.arrivalTime.value <= patch.departureTime.value then
      Fail(ArrivalNotAfterDeparture)
    else if patch.departureTime.Some? && patch.arrivalTime.None? && patch.departureTime.value >= r.arrivalTime then
      Fail(DepartureNotBeforeArrival)
    else if patch.departureTime.None? && patch.arrivalTime.Some? && patch.arrivalTime.value <= r.departureTime then
      Fail(ArrivalNotAfterExisting)
    else
      Ok(())
  }

  /** UpdateRouteUseCase.execute: not found, then not the company's, then the
      time guards; an accepted update replaces the given fields, and the
      amenity list when one is given (even an empty one). */
  method UpdateRoute(store: RouteStore, id: string, companyId: string, patch: RoutePatch) returns (res: Result<Route>)
    requires store.Valid()
    modifies store
    ensures id !in old(store.routes) ==> res == Err(Error(ResourceNotFound, RouteNotFound))
    ensures id in old(store.routes) && old(store.routes)[id].companyId != companyId ==>
      res == Err(Error(Unauthorized, CannotUpdate))
    ensures id in old(store.routes) && old(store.routes)[id].companyId == companyId && CheckTimes(old(store.routes)[id], patch).Err? ==>
      res == Err(CheckTimes(old(store.routes)[id], patch).error)
    ensures res.Err? ==> store.routes == old(store.routes) && store.amenities == old(store.amenities)
    ensures res.Ok? <==> id in old(store.routes) && old(store.routes)[id].companyId == companyId
                         && CheckTimes(old(store.routes)[id], patch).Ok?
    ensures res.Ok? ==>
      && res == Ok(ApplyPatch(old(store.routes)[id], patch))
      && store.routes == old(store.routes)[id := res.value]
      && store.amenities == (if patch.amenities.Some? then old(store.amenities)[id := patch.amenities.value]
                             else old(store.amenities))
    ensures store.Valid()
  {
    var existing := store.FindById(id);
    if existing.None? {
      return Err(Error(ResourceNotFound, RouteNotFound));
    }
    var route := existing.value;
    if route.companyId != companyId {
      return Err(Error(Unauthorized, CannotUpdate));
    }
    var guard := CheckTimes(route, patch);
    if guard.Err? {
      return Err(guard.error);
    }
    var updated := ApplyPatch(route, patch);
    store.Update(id, updated);
    if patch.amenities.Some? {
      store.SetAmenities(id, patch.amenities.value);
    }
    res := Ok(updated);
  }

  /** DeleteRouteUseCase.execute. hasActiveTickets is the repository's
      answer for the route: a route with tickets is only deactivated, so it
      stays resolvable for them; one without is removed. */
  method DeleteRoute(store: RouteStore, id: string, companyId: string, hasActiveTickets: bool) returns (res: Result<()>)
    requires store.Valid()
    modifies store
    ensures id !in old(store.routes) ==> res == Err(Error(ResourceNotFound, RouteNotFound))
    ensures id in old(store.routes) && old(store.routes)[id].companyId != companyId ==>
      res == Err(Error(Unauthorized, CannotDelete))
    ensures res.Err? ==> store.routes == old(store.routes)
    ensures res.Ok? <==> id in old(store.routes) && old(store.routes)[id].companyId == companyId
    ensures res.Ok? && hasActiveTickets ==>
      store.routes == old(store.routes)[id := old(store.routes)[id].(active := false)] && id in store.routes
    ensures res.Ok? && !hasActiveTickets ==> store.routes == old(store.routes) - {id} && id !in store.routes
    ensures store.amenities == old(store.amenities)
    ensures store.Valid()
  {
    var existing := store.FindById(id);
    if existing.None? {
      return Err(Error(ResourceNotFound, RouteNotFound));
    }
    if existing.value.companyId != companyId {
      return Err(Error(Unauthorized, CannotDelete));
    }
    if hasActiveTickets {
      store.Update(id, existing.value.(active := false));
    } else {
      store.Delete(id);
    }
    res := Ok(());
  }
}
