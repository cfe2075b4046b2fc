/** ReserveTicketUseCase.execute: resolves the route id of the request (a
    virtual id is materialised first, any other id is looked up), refuses a
    route with no seat left and stores one RESERVED ticket. The random UUID
    of the ticket code and the ids the database would generate are inputs. */
module ReserveTicket {
  import opened Wrappers
  import opened Text
  import opened Entities
  import opened VirtualIds
  import opened Stores
  import opened RouteGeneration

  datatype ReserveRequest = ReserveRequest(
    routeId: string,
    userId: string,
    passenger: string,
    passengerCpf: string,
    seatNumber: Option<string>)

  const MaterializeErrorPrefix: string := "Erro ao materializar rota virtual: "
  const RouteNotFound: string := "Rota não encontrada."
  const NoSeatsLeft: string := "Não há assentos disponíveis para esta rota."
  const TicketCodePrefix: string := "TKT-"

  /** `TKT-${uuid.slice(0, 8).toUpperCase()}`. */
  function TicketCode(uuid: string): (code: string)
    ensures StartsWith(code, TicketCodePrefix)
    ensures |code| == 4 + (if |uuid| < 8 then |uuid| else 8)
    ensures forall i :: 4 <= i < |code| ==> code[i] == UpperChar(uuid[i - 4])
    ensures forall i :: 0 <= i < |code| ==> !IsLower(code[i])
  {
    TicketCodePrefix + ToUpper(JsSlice(uuid, 0, 8))
  }

  /** With a UUID from randomUUID the code is "TKT-" and eight upper-case
      hexadecimal characters. */
  lemma TicketCodeOfUuid(uuid: string)
    requires IsUuid(uuid)
    ensures var code := TicketCode(uuid);
      |code| == 12 && forall i :: 4 <= i < 12 ==> IsHex(code[i]) && !IsLower(code[i])
  {
    var code := TicketCode(uuid);
    forall i | 4 <= i < 12
      ensures IsHex(code[i])
    {
      assert HexRun(uuid, 0, 8);
      assert IsHex(uuid[i - 4]);
    }
  }

  /** The ticket the use case hands to ticketRepository.create. */
  function NewTicket(id: string, routeId: string, req: ReserveRequest, uuid: string): (t: Ticket)
    ensures t.id == id && t.routeId == routeId && t.status == Reserved
    ensures t.userId == req.userId && t.passenger == req.passenger
    ensures t.passengerCpf == req.passengerCpf && t.seatNumber == req.seatNumber
    ensures t.ticketCode == TicketCode(uuid) && t.paymentId.None?
  {
    Ticket(id, routeId, req.userId, Reserved, TicketCode(uuid), req.passenger,
           req.passengerCpf, req.seatNumber, None)
  }

  /** The outcome of the use case once the route is resolved: the availability
      gate and then the insert. */
  function Book(route: Route, req: ReserveRequest, tickets: map<string, Ticket>, ticketId: string, uuid: string): (r: Result<Ticket>)
    ensures r.Ok? <==> AvailableSeats(route, tickets) > 0 && ticketId !in tickets
    ensures AvailableSeats(route, tickets) <= 0 ==> r == Fail(NoSeatsLeft)
    ensures r.Ok? ==> r.value == NewTicket(ticketId, route.id, req, uuid)
  {
    if AvailableSeats(route, tickets) <= 0 then Fail(NoSeatsLeft)
    else if ticketId in tickets then Fail(UniqueViolation)
    else Ok(NewTicket(ticketId, route.id, req, uuid))
  }

  /** A successful booking takes exactly one seat of its route, so a gate on
      availability > 0 never drives the availability below zero: a store in
      which no route is overbooked stays so. */
  lemma BookingKeepsCapacity(route: Route, req: ReserveRequest, tickets: map<string, Ticket>, ticketId: string, uuid: string, other: Route)
    requires Book(route, req, tickets, ticketId, uuid).Ok?
    requires other.id != route.id
    ensures var t := Book(route, req, tickets, ticketId, uuid).value;
      && AvailableSeats(route, tickets[ticketId := t]) == AvailableSeats(route, tickets) - 1 >= 0
      && AvailableSeats(other, tickets[ticketId := t]) == AvailableSeats(other, tickets)
  {
    var t := Book(route, req, tickets, ticketId, uuid).value;
    NewTicketTakesOneSeat(route, tickets, t);
    OtherRouteKeepsSeats(other, tickets, t);
  }

  /** execute(request). `newRouteId` is the id a materialised route gets,
      `newTicketId` the id of the ticket, `uuid` the value of randomUUID(). */
  method Reserve(templates: TemplateStore, routes: RouteStore, tickets: TicketStore, req: ReserveRequest,
                 newRouteId: string, newTicketId: string, uuid: string) returns (res: Result<Ticket>)
    requires templates.Valid() && routes.Valid() && tickets.Valid()
    modifies routes, tickets
    ensures routes.Valid() && tickets.Valid() && routes.amenities == old(routes.amenities)
    // a physical id is only looked up
    ensures !StartsWith(req.routeId, VirtualPrefix) ==>
      && routes.routes == old(routes.routes)
      && (req.routeId !in old(routes.routes) ==> res == Fail(RouteNotFound))
      && (req.routeId in old(routes.routes) ==>
            res == Book(old(routes.routes)[req.routeId], req, old(tickets.tickets), newTicketId, uuid))
    // a virtual id goes through materializeRoute, whose errors are rethrown with a prefix
    ensures StartsWith(req.routeId, VirtualPrefix) && Plan(req.routeId, templates.templates).Err? ==>
      var e := Plan(req.routeId, templates.templates).error;
      res == Fail(MaterializeErrorPrefix + e.message) && routes.routes == old(routes.routes)
    // ... and otherwise books the stored candidate, or the route it creates
    ensures StartsWith(req.routeId, VirtualPrefix) && Plan(req.routeId, templates.templates).Ok? ==>
      var (t, day) := Plan(req.routeId, templates.templates).value;
      if exists r | r in old(routes.routes).Values :: Candidate(r, t, day) then
        && routes.routes == old(routes.routes)
        && exists r | r in old(routes.routes).Values ::
             Candidate(r, t, day) && res == Book(r, req, old(tickets.tickets), newTicketId, uuid)
      else if newRouteId in old(routes.routes) then
        res == Fail(MaterializeErrorPrefix + CreateFailed) && routes.routes == old(routes.routes)
      else
        var created := MaterializedRoute(t, newRouteId, day);
        && routes.routes == old(routes.routes)[newRouteId := created]
        && res == Book(created, req, old(tickets.tickets), newTicketId, uuid)
    ensures StartsWith(req.routeId, VirtualPrefix) ==>
      || routes.routes == old(routes.routes)
      || (newRouteId !in old(routes.routes) && newRouteId in routes.routes
          && routes.routes == old(routes.routes)[newRouteId := routes.routes[newRouteId]])
    // the ticket refers to the resolved, stored route and copies the request
    ensures res.Ok? ==>
      && res.value.routeId in routes.routes
      && res == Book(routes.routes[res.value.routeId], req, old(tickets.tickets), newTicketId, uuid)
      && tickets.tickets == old(tickets.tickets)[newTicketId := res.value]
    ensures res.Err? ==> tickets.tickets == old(tickets.tickets)
    // never the virtual id, as long as stored ids and the new id are not virtual ids
    ensures res.Ok? && StartsWith(req.routeId, VirtualPrefix) && !StartsWith(newRouteId, VirtualPrefix)
            && (forall id | id in old(routes.routes) :: !StartsWith(id, VirtualPrefix)) ==>
      res.value.routeId != req.routeId
  {
    var route: Route;
    if StartsWith(req.routeId, VirtualPrefix) {
      var materialized := MaterializeRoute(templates, routes, req.routeId, newRouteId);
      if materialized.Err? {
        return Fail(MaterializeErrorPrefix + materialized.error.message);
      }
      route := materialized.value;
    } else {
      var found := routes.FindById(req.routeId);
      if found.None? {
        return Fail(RouteNotFound);
      }
      route := found.value;
    }
    assert route.id in routes.routes && routes.routes[route.id] == route;
    var availableSeats := AvailableSeats(route, tickets.tickets);
    if availableSeats <= 0 {
      res := Fail(NoSeatsLeft);
      assert res == Book(route, req, old(tickets.tickets), newTicketId, uuid);
      return;
    }
    var ticketCode := TicketCode(uuid);
    res := tickets.Create(Ticket(newTicketId, route.id, req.userId, Reserved, ticketCode,
                                 req.passenger, req.passengerCpf, req.seatNumber, None));
    assert res == Book(route, req, old(tickets.tickets), newTicketId, uuid);
  }
}
