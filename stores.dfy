/** The repositories the core calls, as in-memory stores keyed by id
    (src/domain/repositories). Ids the database would generate are passed in
    by the caller; creating a record whose id is taken fails, as a database
    insert on a unique key does. Seat availability is derived from the
    tickets: a route's total seats minus its tickets that are not CANCELLED. */
module Stores {
  import opened Wrappers
  import opened Entities
  import opened TemplateFormats

  const UniqueViolation: string := "Unique constraint failed"

  /** Tickets in these states occupy a seat. */
  predicate HoldsSeat(s: TicketStatus) {
    s != Cancelled
  }

  function SeatHolders(routeId: string, tickets: map<string, Ticket>): set<string> {
    set id | id in tickets && tickets[id].routeId == routeId && HoldsSeat(tickets[id].status)
  }

  /** getAvailableSeats(routeId). */
  function AvailableSeats(r: Route, tickets: map<string, Ticket>): (n: int)
    ensures n <= r.totalSeats
  {
    r.totalSeats - |SeatHolders(r.id, tickets)|
  }

  /** A new seat-holding ticket on route r takes exactly one seat of r. */
  lemma NewTicketTakesOneSeat(r: Route, tickets: map<string, Ticket>, t: Ticket)
    requires t.id !in tickets && t.routeId == r.id && HoldsSeat(t.status)
    ensures AvailableSeats(r, tickets[t.id := t]) == AvailableSeats(r, tickets) - 1
  {
    assert SeatHolders(r.id, tickets[t.id := t]) == SeatHolders(r.id, tickets) + {t.id};
  }

  /** A new ticket on another route leaves r's availability as it was. */
  lemma OtherRouteKeepsSeats(r: Route, tickets: map<string, Ticket>, t: Ticket)
    requires t.id !in tickets && t.routeId != r.id
    ensures AvailableSeats(r, tickets[t.id := t]) == AvailableSeats(r, tickets)
  {
    assert SeatHolders(r.id, tickets[t.id := t]) == SeatHolders(r.id, tickets);
  }

  class RouteStore {
    var routes: map<string, Route>
    var amenities: map<string, seq<string>>

    ghost predicate Valid()
      reads this
    {
      forall id | id in routes :: routes[id].id == id
    }

    constructor ()
      ensures routes == map[] && amenities == map[] && Valid()
    {
      routes := map[];
      amenities := map[];
    }

    function FindById(id: string): (r: Option<Route>)
      reads this
      ensures r.Some? <==> id in routes
      ensures r.Some? ==> r.value == routes[id]
    {
      if id in routes then Some(routes[id]) else None
    }

    method Create(r: Route) returns (res: Result<Route>)
      modifies this
      ensures r.id in old(routes) ==> res == Fail(UniqueViolation) && routes == old(routes)
      ensures r.id !in old(routes) ==> res == Ok(r) && routes == old(routes)[r.id := r]
      ensures amenities == old(amenities)
      ensures old(Valid()) ==> Valid()
    {
      if r.id in routes {
        res := Fail(UniqueViolation);
      } else {
        routes := routes[r.id := r];
        res := Ok(r);
      }
    }

    /** Replaces the record of an id that was just found. */
    method Update(id: string, r: Route)
      requires id in routes && r.id == id
      modifies this
      ensures routes == old(routes)[id := r] && amenities == old(amenities)
      ensures old(Valid()) ==> Valid()
    {
      routes := routes[id := r];
    }

    method Delete(id: string)
      requires id in routes
      modifies this
      ensures routes == old(routes) - {id} && amenities == old(amenities)
      ensures old(Valid()) ==> Valid()
    {
      routes := routes - {id};
    }

    /** setRouteAmenities(routeId, amenityIds): replaces the route's list. */
    method SetAmenities(id: string, list: seq<string>)
      modifies this
      ensures amenities == old(amenities)[id := list] && routes == old(routes)
    {
      amenities := amenities[id := list];
    }
  }

  class TicketStore {
    var tickets: map<string, Ticket>

    ghost predicate Valid()
      reads this
    {
      forall id | id in tickets :: tickets[id].id == id
    }

    constructor ()
      ensures tickets == map[] && Valid()
    {
      tickets := map[];
    }

    function FindById(id: string): (r: Option<Ticket>)
      reads this
      ensures r.Some? <==> id in tickets
      ensures r.Some? ==> r.value == tickets[id]
    {
      if id in tickets then Some(tickets[id]) else None
    }

    method Create(t: Ticket) returns (res: Result<Ticket>)
      modifies this
      ensures t.id in old(tickets) ==> res == Fail(UniqueViolation) && tickets == old(tickets)
      ensures t.id !in old(tickets) ==> res == Ok(t) && tickets == old(tickets)[t.id := t]
      ensures old(Valid()) ==> Valid()
    {
      if t.id in tickets {
        res := Fail(UniqueViolation);
      } else {
        tickets := tickets[t.id := t];
        res := Ok(t);
      }
    }

    method UpdateStatus(id: string, status: TicketStatus)
      requires id in tickets
      modifies this
      ensures tickets == old(tickets)[id := old(tickets)[id].(status := status)]
      ensures old(Valid()) ==> Valid()
    {
      tickets := tickets[id := tickets[id].(status := status)];
    }

    method UpdatePaymentId(id: string, paymentId: string)
      requires id in tickets
      modifies this
      ensures tickets == old(tickets)[id := old(tickets)[id].(paymentId := Some(paymentId))]
      ensures old(Valid()) ==> Valid()
    {
      tickets := tickets[id := tickets[id].(paymentId := Some(paymentId))];
    }
  }

  /** getTicketRoute(ticketId): the route the ticket refers to. */
  function TicketRoute(ticketId: string, tickets: map<string, Ticket>, routes: map<string, Route>): (r: Result<Route>)
    ensures r.Ok? <==> ticketId in tickets && tickets[ticketId].routeId in routes
    ensures r.Ok? ==> r.value == routes[tickets[ticketId].routeId]
  {
    if ticketId in tickets && tickets[ticketId].routeId in routes
    then Ok(routes[tickets[ticketId].routeId])
    else Fail("Rota n√£o encontrada para este ticket")
  }

  /** `text || undefined`: an empty text reads back as absent. */
  function NonEmpty(text: Option<string>): (r: Option<string>)
    ensures r != Some("")
    ensures text != Some("") ==> r == text
    ensures r.None? <==> text.None? || text == Some("")
  {
    if text == Some("") then None else text
  }

  /** A template as the repository returns it: an empty origin or
      destination state reads back as absent, every other field as stored. */
  function ReturnedTemplate(t: RouteTemplate): (r: RouteTemplate)
    ensures r.origin.state != Some("") && r.destination.state != Some("")
    ensures r.origin.state == NonEmpty(t.origin.state) && r.destination.state == NonEmpty(t.destination.state)
    ensures r.(origin := t.origin, destination := t.destination) == t
    ensures r.origin.(state := t.origin.state) == t.origin && r.destination.(state := t.destination.state) == t.destination
    ensures t.origin.state != Some("") && t.destination.state != Some("") ==> r == t
    ensures WellFormedTemplate(r) == WellFormedTemplate(t)
  {
    t.(origin := t.origin.(state := NonEmpty(t.origin.state)),
       destination := t.destination.(state := NonEmpty(t.destination.state)))
  }

  /** A template whose times and weekdays are in the stored formats. */
  predicate WellFormedTemplate(t: RouteTemplate) {
    ClockPattern(t.departureTime) && ClockPattern(t.arrivalTime)
  }

  class TemplateStore {
    var templates: map<string, RouteTemplate>

    /** Every stored template is keyed by its id and has 'H:MM' times. */
    ghost predicate Valid()
      reads this
    {
      forall id | id in templates :: templates[id].id == id && WellFormedTemplate(templates[id])
    }

    constructor ()
      ensures templates == map[] && Valid()
    {
      templates := map[];
    }

    function FindById(id: string): (r: Option<RouteTemplate>)
      reads this
      ensures r.Some? <==> id in templates
      ensures r.Some? ==> r.value == ReturnedTemplate(templates[id])
    {
      if id in templates then Some(ReturnedTemplate(templates[id])) else None
    }

    method Create(t: RouteTemplate) returns (res: Result<RouteTemplate>)
      modifies this
      ensures t.id in old(templates) ==> res == Fail(UniqueViolation) && templates == old(templates)
      ensures t.id !in old(templates) ==> res == Ok(ReturnedTemplate(t)) && templates == old(templates)[t.id := t]
      ensures old(Valid()) && WellFormedTemplate(t) ==> Valid()
    {
      if t.id in templates {
        res := Fail(UniqueViolation);
      } else {
        templates := templates[t.id := t];
        res := Ok(ReturnedTemplate(t));
      }
    }

    method Update(id: string, t: RouteTemplate)
      requires id in templates && t.id == id
      modifies this
      ensures templates == old(templates)[id := t]
      ensures old(Valid()) && WellFormedTemplate(t) ==> Valid()
    {
      templates := templates[id := t];
    }

    method Delete(id: string)
      requires id in templates
      modifies this
      ensures templates == old(templates) - {id}
      ensures old(Valid()) ==> Valid()
    {
      templates := templates - {id};
    }
  }

  class CompanyStore {
    var companies: map<string, Company>

    /** Keyed by id, and no two companies share a CNPJ. */
    ghost predicate Valid()
      reads this
    {
      && (forall id | id in companies :: companies[id].id == id)
      && (forall a, b | a in companies && b in companies && companies[a].cnpj == companies[b].cnpj :: a == b)
    }

    constructor ()
      ensures companies == map[] && Valid()
    {
      companies := map[];
    }

    function FindById(id: string): (r: Option<Company>)
      reads this
      ensures r.Some? <==> id in companies
      ensures r.Some? ==> r.value == companies[id]
    {
      if id in companies then Some(companies[id]) else None
    }

    /** findByCNPJ(cnpj) found a company. */
    predicate CnpjTaken(cnpj: string)
      reads this
    {
      exists id | id in companies :: companies[id].cnpj == cnpj
    }

    /** Both the id and the CNPJ are unique keys of the table. */
    method Create(c: Company) returns (res: Result<Company>)
      modifies this
      ensures c.id in old(companies) || old(CnpjTaken(c.cnpj)) ==> res == Fail(UniqueViolation) && companies == old(companies)
      ensures c.id !in old(companies) && !old(CnpjTaken(c.cnpj)) ==> res == Ok(c) && companies == old(companies)[c.id := c]
      ensures old(Valid()) ==> Valid()
    {
      if c.id in companies || CnpjTaken(c.cnpj) {
        res := Fail(UniqueViolation);
      } else {
        companies := companies[c.id := c];
        res := Ok(c);
      }
    }

    method Update(id: string, c: Company)
      requires id in companies && c.id == id
      modifies this
      ensures companies == old(companies)[id := c]
      ensures old(Valid()) && c.cnpj == old(companies)[id].cnpj ==> Valid()
    {
      companies := companies[id := c];
    }
  }

  class PaymentStore {
    var payments: map<string, Payment>

    constructor ()
      ensures payments == map[]
    {
      payments := map[];
    }

    method Create(p: Payment) returns (res: Result<Payment>)
      modifies this
      ensures p.id in old(payments) ==> res == Fail(UniqueViolation) && payments == old(payments)
      ensures p.id !in old(payments) ==> res == Ok(p) && payments == old(payments)[p.id := p]
    {
      if p.id in payments {
        res := Fail(UniqueViolation);
      } else {
        payments := payments[p.id := p];
        res := Ok(p);
      }
    }
  }

  /** What the payment gateway was asked to charge. */
  datatype Charge = Charge(amount: int, paymentMethod: PaymentMethod, ticketIds: seq<string>, userId: string)

  /** The gateway's answer: a status and a transaction id. */
  datatype GatewayResult = GatewayResult(status: PaymentStatus, transactionId: string)

  /** The external payment gateway. Its decision is not modelled: the answer
      it gives is a parameter; the model records each charge it receives. */
  class PaymentGateway {
    var charges: seq<Charge>

    constructor ()
      ensures charges == []
    {
      charges := [];
    }

    method ProcessPayment(charge: Charge, answer: GatewayResult) returns (result: GatewayResult)
      modifies this
      ensures charges == old(charges) + [charge]
      ensures result == answer
    {
      charges := charges + [charge];
      result := answer;
    }
  }
}
