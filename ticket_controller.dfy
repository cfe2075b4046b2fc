/** The ticket endpoints of TicketController: the zod schemas of the request
    bodies, the payment-data refinement shared by payTicketSchema and
    payMultipleTicketsSchema, and the two handlers. reserveMultiple reserves
    one ticket per passenger in order, with no rollback when a reservation
    fails part-way. The authenticated user's id comes from the token and is a
    parameter; so are the ids and UUIDs the database and crypto supply. */
module TicketController {
  import opened Wrappers
  import opened Digits
  import opened Text
  import opened Entities
  import opened VirtualIds
  import opened Stores
  import opened ReserveTicket
  import opened PayMultipleTickets

  const InvalidInput: string := "Dados de entrada inválidos."

  datatype PassengerInput = PassengerInput(name: string, cpf: string, seatNumber: Option<string>)

  datatype ReserveBody = ReserveBody(routeId: string, passengers: seq<PassengerInput>)

  /** reserveMultipleTicketsSchema: a UUID route id and at least one
      passenger, each with a name of at least 3 and a CPF of at least 11
      characters. */
  predicate ValidReserveBody(b: ReserveBody) {
    && IsUuid(b.routeId)
    && |b.passengers| >= 1
    && forall i :: 0 <= i < |b.passengers| ==> |b.passengers[i].name| >= 3 && |b.passengers[i].cpf| >= 11
  }

  /** A UUID never carries the virtual prefix ('v' is not a hexadecimal
      digit), so this endpoint only ever books physical routes. */
  lemma UuidIsNotVirtual(s: string)
    requires IsUuid(s)
    ensures !StartsWith(s, VirtualPrefix)
  {
    assert HexRun(s, 0, 8) && IsHex(s[0]);
    assert VirtualPrefix[0] == 'v';
  }

  /** The payment data sent with a payment method; an absent or non-string
      field is None. */
  datatype PaymentData = PaymentData(
    cardNumber: Option<string>,
    cardHolder: Option<string>,
    expirationDate: Option<string>,
    cvv: Option<string>,
    pixKey: Option<string>,
    cpf: Option<string>)

  predicate LengthBetween(o: Option<string>, lo: nat, hi: nat) {
    o.Some? && lo <= |o.value| <= hi
  }

  predicate LengthAtLeast(o: Option<string>, lo: nat) {
    o.Some? && lo <= |o.value|
  }

  /** The regular expression ^\d{2}\/\d{2}$. */
  predicate ExpirationText(s: string) {
    |s| == 5 && IsDigit(s[0]) && IsDigit(s[1]) && s[2] == '/' && IsDigit(s[3]) && IsDigit(s[4])
  }

  /** Every month/year pair of two-digit numbers written as MM/YY is
      accepted, and its fields read back as the numbers. */
  lemma ExpirationRoundTrip(month: nat, year: nat)
    requires month < 100 && year < 100
    ensures var s := PadDigits(month, 2) + "/" + PadDigits(year, 2);
      ExpirationText(s) && DigitsValue(s[..2]) == month && DigitsValue(s[3..]) == year
  {
    var mm, yy := PadDigits(month, 2), PadDigits(year, 2);
    var s := mm + "/" + yy;
    assert s[..2] == mm && s[3..] == yy;
    assert Pow10(2) == 100 by {
      assert Pow10(1) == 10;
    }
    PadDigitsRoundTrip(month, 2);
    PadDigitsRoundTrip(year, 2);
  }

  /** cardPaymentDataSchema. */
  predicate ValidCard(d: PaymentData) {
    && LengthBetween(d.cardNumber, 13, 19)
    && LengthAtLeast(d.cardHolder, 3)
    && d.expirationDate.Some? && ExpirationText(d.expirationDate.value)
    && LengthBetween(d.cvv, 3, 4)
  }

  /** pixPaymentDataSchema. */
  predicate ValidPix(d: PaymentData) {
    LengthAtLeast(d.pixKey, 1)
  }

  /** boletoPaymentDataSchema. */
  predicate ValidBoleto(d: PaymentData) {
    LengthBetween(d.cpf, 11, 14)
  }

  /** An issue zod records: the path of the offending field and a message. */
  datatype Issue = Issue(path: string, message: string)

  const InvalidEnumValue: string := "Invalid enum value"

  /** z.nativeEnum(PaymentMethod) on the method text. */
  function ParseMethod(s: string): (m: Option<PaymentMethod>)
    ensures m == Some(CreditCard) <==> s == "CREDIT_CARD"
    ensures m == Some(DebitCard) <==> s == "DEBIT_CARD"
    ensures m == Some(Pix) <==> s == "PIX"
    ensures m == Some(Boleto) <==> s == "BOLETO"
  {
    if s == "CREDIT_CARD" then Some(CreditCard)
    else if s == "DEBIT_CARD" then Some(DebitCard)
    else if s == "PIX" then Some(Pix)
    else if s == "BOLETO" then Some(Boleto)
    else None
  }

  /** The superRefine of the payment schemas: at most one issue, on
      paymentData, when the data does not fit the schema of its method. */
  function DataIssue(m: PaymentMethod, d: PaymentData): (r: Option<Issue>)
    ensures r.Some? ==> r.value.path == "paymentData"
    ensures m.CreditCard? || m.DebitCard? ==>
      (r.None? <==> ValidCard(d)) && (r.Some? ==> r.value.message == "Dados de cartão inválidos")
    ensures m.Pix? ==> (r.None? <==> ValidPix(d)) && (r.Some? ==> r.value.message == "Dados de PIX inválidos")
    ensures m.Boleto? ==> (r.None? <==> ValidBoleto(d)) && (r.Some? ==> r.value.message == "Dados de boleto inválidos")
  {
    match m
    case CreditCard | DebitCard =>
      if ValidCard(d) then None else Some(Issue("paymentData", "Dados de cartão inválidos"))
    case Pix =>
      if ValidPix(d) then None else Some(Issue("paymentData", "Dados de PIX inválidos"))
    case Boleto =>
      if ValidBoleto(d) then None else Some(Issue("paymentData", "Dados de boleto inválidos"))
  }

  /** The issues of payTicketSchema: a method that is not one of the enum
      names is an issue on paymentMethod and stops the parse before the
      refinement; otherwise the refinement's issue, if any. */
  function PaymentIssues(methodText: string, d: PaymentData): (issues: seq<Issue>)
    ensures |issues| <= 1
    ensures issues == [] <==> ParseMethod(methodText).Some? && DataIssue(ParseMethod(methodText).value, d).None?
    ensures ParseMethod(methodText).None? ==> issues == [Issue("paymentMethod", InvalidEnumValue)]
  {
    match ParseMethod(methodText)
    case None => [Issue("paymentMethod", InvalidEnumValue)]
    case Some(m) => match DataIssue(m, d) case None => [] case Some(i) => [i]
  }

  datatype PayBody = PayBody(ticketIds: seq<string>, paymentMethod: string, paymentData: PaymentData)

  /** payMultipleTicketsSchema accepts the body: every ticket id is a UUID
      and the payment method and its data pass. */
  predicate ValidPayBody(b: PayBody) {
    (forall i :: 0 <= i < |b.ticketIds| ==> IsUuid(b.ticketIds[i])) && PaymentIssues(b.paymentMethod, b.paymentData) == []
  }

  /** What a handler sends: a status and a body. */
  datatype ReserveReply =
    | ReserveFailed(status: int, message: string)
    | ReserveCreated(status: int, tickets: seq<Ticket>, ticket: Option<Ticket>)

  datatype PayReply =
    | PayFailed(status: int, message: string)
    | PayDone(status: int, response: PayResponse)

  /** The use-case request for one passenger. */
  function PassengerRequest(routeId: string, userId: string, p: PassengerInput): ReserveRequest {
    ReserveRequest(routeId, userId, p.name, p.cpf, p.seatNumber)
  }

  /** One reservation on a physical route id: the lookup, then the booking. */
  function ReserveOne(route: Option<Route>, req: ReserveRequest, tickets: map<string, Ticket>, ticketId: string, uuid: string): (r: Result<Ticket>)
    ensures route.None? ==> r == Fail(RouteNotFound)
    ensures r.Ok? <==> route.Some? && AvailableSeats(route.value, tickets) > 0 && ticketId !in tickets
    ensures r.Ok? ==> r.value == NewTicket(ticketId, route.value.id, req, uuid) && r.value.id == ticketId
  {
    match route
    case None => Fail(RouteNotFound)
    case Some(r) => Book(r, req, tickets, ticketId, uuid)
  }

  /** The tickets reserved in order, the error that stopped the loop (if
      any) and the ticket store at that point. */
  datatype Outcome = Outcome(created: seq<Ticket>, failure: Option<Error>, tickets: map<string, Ticket>)

  /** The reservation loop, one passenger after another, each seeing the
      tickets the previous ones created. */
  function ReserveAll(route: Option<Route>, routeId: string, userId: string, ps: seq<PassengerInput>,
                      tickets: map<string, Ticket>, ids: seq<string>, uuids: seq<string>): Outcome
    requires |ids| >= |ps| && |uuids| >= |ps|
  {
    if ps == [] then Outcome([], None, tickets)
    else match ReserveOne(route, PassengerRequest(routeId, userId, ps[0]), tickets, ids[0], uuids[0])
      case Err(e) => Outcome([], Some(e), tickets)
      case Ok(t) =>
        var rest := ReserveAll(route, routeId, userId, ps[1..], tickets[t.id := t], ids[1..], uuids[1..]);
        Outcome([t] + rest.created, rest.failure, rest.tickets)
  }

  /** Ticket i belongs to passenger i, in order, and every passenger gets
      one unless a reservation fails. */
  lemma {:induction false} ReserveAllOrder(route: Option<Route>, routeId: string, userId: string, ps: seq<PassengerInput>,
                                           tickets: map<string, Ticket>, ids: seq<string>, uuids: seq<string>)
    requires |ids| >= |ps| && |uuids| >= |ps|
    ensures var o := ReserveAll(route, routeId, userId, ps, tickets, ids, uuids);
      && |o.created| <= |ps|
      && (o.failure.None? <==> |o.created| == |ps|)
      && (|o.created| > 0 ==> route.Some?)
      && (forall i :: 0 <= i < |o.created| ==>
            o.created[i] == NewTicket(ids[i], route.value.id, PassengerRequest(routeId, userId, ps[i]), uuids[i]))
    decreases |ps|
  {
    if ps != [] {
      var one := ReserveOne(route, PassengerRequest(routeId, userId, ps[0]), tickets, ids[0], uuids[0]);
      if one.Ok? {
        var after := tickets[one.value.id := one.value];
        ReserveAllOrder(route, routeId, userId, ps[1..], after, ids[1..], uuids[1..]);
        var rest := ReserveAll(route, routeId, userId, ps[1..], after, ids[1..], uuids[1..]);
        var o := ReserveAll(route, routeId, userId, ps, tickets, ids, uuids);
        forall i | 0 < i < |o.created|
          ensures o.created[i] == NewTicket(ids[i], route.value.id, PassengerRequest(routeId, userId, ps[i]), uuids[i])
        {
          assert o.created[i] == rest.created[i - 1];
          assert ids[1..][i - 1] == ids[i] && ps[1..][i - 1] == ps[i] && uuids[1..][i - 1] == uuids[i];
        }
      }
    }
  }

  /** The store after the loop: the tickets that were there are untouched,
      each created ticket is stored under its fresh id, and nothing else is
      added. The tickets created before a failure stay (there is no
      rollback). */
  lemma ReserveAllStore(route: Option<Route>, routeId: string, userId: string, ps: seq<PassengerInput>,
                        tickets: map<string, Ticket>, ids: seq<string>, uuids: seq<string>)
    requires |ids| >= |ps| && |uuids| >= |ps|
    ensures var o := ReserveAll(route, routeId, userId, ps, tickets, ids, uuids);
      && |o.created| <= |ps|
      && (forall id :: id in o.tickets <==> id in tickets || id in ids[..|o.created|])
      && (forall id | id in tickets :: o.tickets[id] == tickets[id])
      && (forall i :: 0 <= i < |o.created| ==> ids[i] !in tickets && o.tickets[ids[i]] == o.created[i])
  {
    ReserveAllKeys(route, routeId, userId, ps, tickets, ids, uuids);
    ReserveAllKeepsOld(route, routeId, userId, ps, tickets, ids, uuids);
    ReserveAllStoresCreated(route, routeId, userId, ps, tickets, ids, uuids);
  }

  lemma {:induction false} ReserveAllKeys(route: Option<Route>, routeId: string, userId: string, ps: seq<PassengerInput>,
                                          tickets: map<string, Ticket>, ids: seq<string>, uuids: seq<string>)
    requires |ids| >= |ps| && |uuids| >= |ps|
    ensures var o := ReserveAll(route, routeId, userId, ps, tickets, ids, uuids);
      |o.created| <= |ps| && forall id :: id in o.tickets <==> id in tickets || id in ids[..|o.created|]
    decreases |ps|
  {
    if ps != [] {
      var one := ReserveOne(route, PassengerRequest(routeId, userId, ps[0]), tickets, ids[0], uuids[0]);
      if one.Ok? {
        var t := one.value;
        var after := tickets[t.id := t];
        ReserveAllKeys(route, routeId, userId, ps[1..], after, ids[1..], uuids[1..]);
        var rest := ReserveAll(route, routeId, userId, ps[1..], after, ids[1..], uuids[1..]);
        assert ids[..1 + |rest.created|] == [ids[0]] + ids[1..][..|rest.created|];
      }
    }
  }

  lemma {:induction false} ReserveAllKeepsOld(route: Option<Route>, routeId: string, userId: string, ps: seq<PassengerInput>,
                                              tickets: map<string, Ticket>, ids: seq<string>, uuids: seq<string>)
    requires |ids| >= |ps| && |uuids| >= |ps|
    ensures var o := ReserveAll(route, routeId, userId, ps, tickets, ids, uuids);
      forall id | id in tickets :: id in o.tickets && o.tickets[id] == tickets[id]
    decreases |ps|
  {
    if ps != [] {
      var one := ReserveOne(route, PassengerRequest(routeId, userId, ps[0]), tickets, ids[0], uuids[0]);
      if one.Ok? {
        var t := one.value;
        ReserveAllKeepsOld(route, routeId, userId, ps[1..], tickets[t.id := t], ids[1..], uuids[1..]);
      }
    }
  }

  lemma {:induction false} ReserveAllStoresCreated(route: Option<Route>, routeId: string, userId: string, ps: seq<PassengerInput>,
                                                   tickets: map<string, Ticket>, ids: seq<string>, uuids: seq<string>)
    requires |ids| >= |ps| && |uuids| >= |ps|
    ensures var o := ReserveAll(route, routeId, userId, ps, tickets, ids, uuids);
      |o.created| <= |ps| && forall i :: 0 <= i < |o.created| ==> ids[i] !in tickets && ids[i] in o.tickets && o.tickets[ids[i]] == o.created[i]
    decreases |ps|
  {
    if ps != [] {
      var one := ReserveOne(route, PassengerRequest(routeId, userId, ps[0]), tickets, ids[0], uuids[0]);
      if one.Ok? {
        var t := one.value;
        var after := tickets[t.id := t];
        ReserveAllStoresCreated(route, routeId, userId, ps[1..], after, ids[1..], uuids[1..]);
        ReserveAllKeepsOld(route, routeId, userId, ps[1..], after, ids[1..], uuids[1..]);
        var rest := ReserveAll(route, routeId, userId, ps[1..], after, ids[1..], uuids[1..]);
        var o := ReserveAll(route, routeId, userId, ps, tickets, ids, uuids);
        forall i | 0 < i < |o.created|
          ensures ids[i] !in tickets && ids[i] in o.tickets && o.tickets[ids[i]] == o.created[i]
        {
          assert o.created[i] == rest.created[i - 1];
          assert ids[1..][i - 1] == ids[i];
        }
      }
    }
  }

  /** The route loses exactly one seat per ticket created, and the gate keeps
      its availability from going below zero. */
  lemma {:induction false} ReserveAllSeats(route: Option<Route>, routeId: string, userId: string, ps: seq<PassengerInput>,
                                           tickets: map<string, Ticket>, ids: seq<string>, uuids: seq<string>)
    requires |ids| >= |ps| && |uuids| >= |ps|
    requires route.Some?
    ensures var o := ReserveAll(route, routeId, userId, ps, tickets, ids, uuids);
      && AvailableSeats(route.value, o.tickets) == AvailableSeats(route.value, tickets) - |o.created|
      && (|o.created| > 0 ==> AvailableSeats(route.value, o.tickets) >= 0)
    decreases |ps|
  {
    if ps != [] {
      var one := ReserveOne(route, PassengerRequest(routeId, userId, ps[0]), tickets, ids[0], uuids[0]);
      if one.Ok? {
        var t := one.value;
        NewTicketTakesOneSeat(route.value, tickets, t);
        ReserveAllSeats(route, routeId, userId, ps[1..], tickets[t.id := t], ids[1..], uuids[1..]);
      }
    }
  }

  /** The reservation loop from passenger i on is passenger i's reservation
      followed, when it succeeds, by the loop from passenger i + 1. */
  lemma ReserveAllAt(route: Option<Route>, routeId: string, userId: string, ps: seq<PassengerInput>,
                     tickets: map<string, Ticket>, ids: seq<string>, uuids: seq<string>, i: nat)
    requires i < |ps| && |ids| >= |ps| && |uuids| >= |ps|
    ensures var one := ReserveOne(route, PassengerRequest(routeId, userId, ps[i]), tickets, ids[i], uuids[i]);
      var whole := ReserveAll(route, routeId, userId, ps[i..], tickets, ids[i..], uuids[i..]);
      && (one.Err? ==> whole == Outcome([], Some(one.error), tickets))
      && (one.Ok? ==>
            var rest := ReserveAll(route, routeId, userId, ps[i + 1..], tickets[ids[i] := one.value], ids[i + 1..], uuids[i + 1..]);
            whole == Outcome([one.value] + rest.created, rest.failure, rest.tickets))
  {
    assert ps[i..][0] == ps[i] && ids[i..][0] == ids[i] && uuids[i..][0] == uuids[i];
    assert ps[i..][1..] == ps[i + 1..] && ids[i..][1..] == ids[i + 1..] && uuids[i..][1..] == uuids[i + 1..];
  }

  /** One pass of the reservation loop: the reservation use case on a
      route id that is not a virtual id. */
  method ReserveStep(templates: TemplateStore, routes: RouteStore, tickets: TicketStore,
                     req: ReserveRequest, ticketId: string, uuid: string) returns (res: Result<Ticket>)
    requires templates.Valid() && routes.Valid() && tickets.Valid()
    requires !StartsWith(req.routeId, VirtualPrefix)
    modifies routes, tickets
    ensures routes.routes == old(routes.routes) && routes.amenities == old(routes.amenities)
    ensures routes.Valid() && tickets.Valid()
    ensures res == ReserveOne(old(routes.FindById(req.routeId)), req, old(tickets.tickets), ticketId, uuid)
    ensures tickets.tickets == (if res.Ok? then old(tickets.tickets)[ticketId := res.value] else old(tickets.tickets))
  {
    res := Reserve(templates, routes, tickets, req, "", ticketId, uuid);
  }

  /** The loop of reserveMultiple: one reservation per passenger, in order,
      stopping at the first error. */
  method ReserveEach(templates: TemplateStore, routes: RouteStore, tickets: TicketStore, routeId: string, userId: string,
                     passengers: seq<PassengerInput>, ticketIds: seq<string>, uuids: seq<string>)
    returns (created: seq<Ticket>, failure: Option<Error>)
    requires templates.Valid() && routes.Valid() && tickets.Valid()
    requires !StartsWith(routeId, VirtualPrefix)
    requires |ticketIds| >= |passengers| && |uuids| >= |passengers|
    modifies routes, tickets
    ensures routes.routes == old(routes.routes) && routes.Valid() && tickets.Valid()
    ensures ReserveAll(old(routes.FindById(routeId)), routeId, userId, passengers, old(tickets.tickets), ticketIds, uuids)
            == Outcome(created, failure, tickets.tickets)
  {
    ghost var route := routes.FindById(routeId);
    ghost var whole := ReserveAll(route, routeId, userId, passengers, tickets.tickets, ticketIds, uuids);
    created := [];
    var i := 0;
    while i < |passengers|
      invariant 0 <= i <= |passengers|
      invariant routes.routes == old(routes.routes) && routes.Valid() && tickets.Valid()
      invariant route == routes.FindById(routeId)
      invariant whole == (var rest := ReserveAll(route, routeId, userId, passengers[i..], tickets.tickets, ticketIds[i..], uuids[i..]);
                          Outcome(created + rest.created, rest.failure, rest.tickets))
    {
      ReserveAllAt(route, routeId, userId, passengers, tickets.tickets, ticketIds, uuids, i);
      var res := ReserveStep(templates, routes, tickets, PassengerRequest(routeId, userId, passengers[i]), ticketIds[i], uuids[i]);
      if res.Err? {
        assert created + [] == created;
        return created, Some(res.error);
      }
      created := created + [res.value];
      i := i + 1;
    }
    assert created + [] == created;
    failure := None;
  }

  /** reserveMultiple: validate the body, reserve for each passenger in
      order, answer 201 with the tickets (and `ticket` when there is exactly
      one) or 400 with the message of the first failure. */
  method ReserveMultiple(templates: TemplateStore, routes: RouteStore, tickets: TicketStore, userId: string,
                         body: ReserveBody, ticketIds: seq<string>, uuids: seq<string>) returns (reply: ReserveReply)
    requires templates.Valid() && routes.Valid() && tickets.Valid()
    requires |ticketIds| >= |body.passengers| && |uuids| >= |body.passengers|
    modifies routes, tickets
    ensures routes.routes == old(routes.routes) && routes.Valid() && tickets.Valid()
    ensures !ValidReserveBody(body) ==> reply == ReserveFailed(400, InvalidInput) && tickets.tickets == old(tickets.tickets)
    ensures ValidReserveBody(body) ==>
      var o := ReserveAll(routes.FindById(body.routeId), body.routeId, userId, body.passengers,
                          old(tickets.tickets), ticketIds, uuids);
      && tickets.tickets == o.tickets
      && reply == (if o.failure.Some? then ReserveFailed(400, o.failure.value.message)
                   else ReserveCreated(201, o.created, if |o.created| == 1 then Some(o.created[0]) else None))
  {
    if !ValidReserveBody(body) {
      return ReserveFailed(400, InvalidInput);
    }
    UuidIsNotVirtual(body.routeId);
    var created, failure := ReserveEach(templates, routes, tickets, body.routeId, userId, body.passengers, ticketIds, uuids);
    if failure.Some? {
      return ReserveFailed(400, failure.value.message);
    }
    reply := ReserveCreated(201, created, if |created| == 1 then Some(created[0]) else None);
  }

  /** payMultiple: validate the body, run the use case, answer 200 with its
      result or 400 with its error message. */
  method PayMultiple(tickets: TicketStore, routes: RouteStore, payments: PaymentStore, gateway: PaymentGateway,
                     userId: string, body: PayBody, answer: GatewayResult, paymentId: string) returns (reply: PayReply)
    requires tickets.Valid()
    modifies tickets, payments, gateway
    ensures tickets.Valid()
    ensures !ValidPayBody(body) ==>
      && reply == PayFailed(400, InvalidInput)
      && tickets.tickets == old(tickets.tickets) && payments.payments == old(payments.payments)
      && gateway.charges == old(gateway.charges)
    ensures ValidPayBody(body) ==>
      var check := CheckTickets(body.ticketIds, userId, old(tickets.tickets), routes.routes);
      && (check.Err? ==> reply == PayFailed(400, check.error.message) && tickets.tickets == old(tickets.tickets)
                         && payments.payments == old(payments.payments) && gateway.charges == old(gateway.charges))
      && (check.Ok? ==>
            var paymentMethod := ParseMethod(body.paymentMethod).value;
            var payment := Payment(paymentId, userId, check.value, paymentMethod, answer.status, answer.transactionId);
            // the gateway is asked once, for the total
            && gateway.charges == old(gateway.charges) + [Charge(check.value, paymentMethod, body.ticketIds, userId)]
            && (paymentId in old(payments.payments) ==>
                  reply == PayFailed(400, UniqueViolation) && payments.payments == old(payments.payments)
                  && tickets.tickets == old(tickets.tickets))
            && (paymentId !in old(payments.payments) ==>
                  && payments.payments == old(payments.payments)[paymentId := payment]
                  // the tickets move to PAID only when the payment is PAID
                  && tickets.tickets == (if answer.status == PaymentStatus.Paid
                                         then MarkPaid(body.ticketIds, old(tickets.tickets), paymentId)
                                         else old(tickets.tickets))
                  && reply == PayDone(200, PayResponse(Lookup(body.ticketIds, tickets.tickets), payment))))
  {
    if !ValidPayBody(body) {
      return PayFailed(400, InvalidInput);
    }
    var paymentMethod := ParseMethod(body.paymentMethod).value;
    var res := Pay(tickets, routes, payments, gateway, PayRequest(body.ticketIds, userId, paymentMethod), answer, paymentId);
    match res
    case Err(e) => reply := PayFailed(400, e.message);
    case Ok(r) => reply := PayDone(200, r);
  }
}
