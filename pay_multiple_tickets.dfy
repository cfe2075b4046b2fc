/** PayMultipleTicketsUseCase.execute: checks every listed ticket (it exists,
    belongs to the user and is RESERVED) while summing the prices of their
    routes, charges the total through the gateway once, records the payment
    whatever the gateway answered, and marks the tickets PAID, with the
    payment's id, only when the answer is PAID. The gateway's answer and the
    id the database gives the payment are inputs. */
module PayMultipleTickets {
  import opened Wrappers
  import opened Entities
  import opened Stores

  datatype PayRequest = PayRequest(ticketIds: seq<string>, userId: string, paymentMethod: PaymentMethod)

  datatype PayResponse = PayResponse(tickets: seq<Option<Ticket>>, payment: Payment)

  function NotFound(id: string): string { "Ticket " + id + " não encontrado" }
  function NotOwned(id: string): string { "Ticket " + id + " não pertence ao usuário" }
  function NotReserved(id: string): string { "Ticket " + id + " não está em estado de reserva" }

  /** The validations on one ticket, in the order the loop makes them, and the
      price it adds to the total. */
  function CheckTicket(id: string, userId: string, tickets: map<string, Ticket>, routes: map<string, Route>): (r: Result<int>)
    ensures r.Ok? <==> Payable(id, userId, tickets, routes)
    ensures r.Ok? ==> r.value == routes[tickets[id].routeId].price
  {
    if id !in tickets then Fail(NotFound(id))
    else if tickets[id].userId != userId then Fail(NotOwned(id))
    else if tickets[id].status != Reserved then Fail(NotReserved(id))
    else match TicketRoute(id, tickets, routes)
      case Ok(route) => Ok(route.price)
      case Err(e) => Err(e)
  }

  /** A ticket the user may pay for: it exists, is theirs, is RESERVED and
      its route is stored. */
  predicate Payable(id: string, userId: string, tickets: map<string, Ticket>, routes: map<string, Route>) {
    id in tickets && tickets[id].userId == userId && tickets[id].status == Reserved
    && tickets[id].routeId in routes
  }

  /** The sum of the route prices of the listed tickets. */
  function TotalPrice(ids: seq<string>, tickets: map<string, Ticket>, routes: map<string, Route>): int
    requires forall i :: 0 <= i < |ids| ==> ids[i] in tickets && tickets[ids[i]].routeId in routes
  {
    if ids == [] then 0
    else TotalPrice(ids[..|ids| - 1], tickets, routes) + routes[tickets[ids[|ids| - 1]].routeId].price
  }

  /** The validation loop over ticketIds: the error of the first ticket that
      fails a validation, or the total amount. */
  function CheckTickets(ids: seq<string>, userId: string, tickets: map<string, Ticket>, routes: map<string, Route>): (r: Result<int>)
  {
    if ids == [] then Ok(0)
    else match CheckTickets(ids[..|ids| - 1], userId, tickets, routes)
      case Err(e) => Err(e)
      case Ok(total) =>
        match CheckTicket(ids[|ids| - 1], userId, tickets, routes)
        case Err(e) => Err(e)
        case Ok(price) => Ok(total + price)
  }

  /** The validations pass exactly when every listed ticket is payable, and then
      the total is the sum of their prices; otherwise the error is the one of
      the first ticket that is not. */
  lemma {:induction false} CheckTicketsMeaning(ids: seq<string>, userId: string, tickets: map<string, Ticket>, routes: map<string, Route>)
    ensures CheckTickets(ids, userId, tickets, routes).Ok? <==>
      forall i :: 0 <= i < |ids| ==> Payable(ids[i], userId, tickets, routes)
    ensures CheckTickets(ids, userId, tickets, routes).Ok? ==>
      CheckTickets(ids, userId, tickets, routes).value == TotalPrice(ids, tickets, routes)
    ensures CheckTickets(ids, userId, tickets, routes).Err? ==>
      exists k :: (0 <= k < |ids| && !Payable(ids[k], userId, tickets, routes)
        && (forall i :: 0 <= i < k ==> Payable(ids[i], userId, tickets, routes))
        && CheckTickets(ids, userId, tickets, routes) == CheckTicket(ids[k], userId, tickets, routes))
    decreases |ids|
  {
    if ids != [] {
      var init := ids[..|ids| - 1];
      CheckTicketsMeaning(init, userId, tickets, routes);
      assert forall i :: 0 <= i < |init| ==> init[i] == ids[i];
    }
  }

  /** The tickets after the update loop when the payment is PAID (an id
      that is not stored is skipped; the validations rule that out). */
  function MarkPaid(ids: seq<string>, tickets: map<string, Ticket>, paymentId: string): (m: map<string, Ticket>)
    ensures m.Keys == tickets.Keys
  {
    if ids == [] then tickets
    else
      var m := MarkPaid(ids[..|ids| - 1], tickets, paymentId);
      var id := ids[|ids| - 1];
      if id in m then m[id := m[id].(status := TicketStatus.Paid, paymentId := Some(paymentId))] else m
  }

  /** Every listed ticket becomes PAID with the payment's id, and every other
      ticket is left as it was. */
  lemma {:induction false} MarkPaidMeaning(ids: seq<string>, tickets: map<string, Ticket>, paymentId: string, id: string)
    requires id in tickets
    ensures MarkPaid(ids, tickets, paymentId)[id] ==
      if id in ids then tickets[id].(status := TicketStatus.Paid, paymentId := Some(paymentId)) else tickets[id]
    decreases |ids|
  {
    if ids != [] {
      var init := ids[..|ids| - 1];
      MarkPaidMeaning(init, tickets, paymentId, id);
      assert id in ids <==> id in init || id == ids[|ids| - 1];
    }
  }

  /** After the validations pass, the tickets returned are the listed tickets in
      order: PAID with the payment's id when the payment is PAID, and still
      RESERVED otherwise. */
  lemma ReturnedTickets(ids: seq<string>, userId: string, tickets: map<string, Ticket>, routes: map<string, Route>,
                        paymentId: string, status: PaymentStatus)
    requires CheckTickets(ids, userId, tickets, routes).Ok?
    ensures var after := if status == PaymentStatus.Paid then MarkPaid(ids, tickets, paymentId) else tickets;
      forall i :: 0 <= i < |ids| ==>
        && ids[i] in after
        && after[ids[i]].status == (if status == PaymentStatus.Paid then TicketStatus.Paid else Reserved)
        && (status == PaymentStatus.Paid ==> after[ids[i]] == tickets[ids[i]].(status := TicketStatus.Paid, paymentId := Some(paymentId)))
        && (status != PaymentStatus.Paid ==> after[ids[i]] == tickets[ids[i]])
  {
    CheckTicketsMeaning(ids, userId, tickets, routes);
    forall i | 0 <= i < |ids|
      ensures ids[i] in MarkPaid(ids, tickets, paymentId)
      ensures MarkPaid(ids, tickets, paymentId)[ids[i]] == tickets[ids[i]].(status := TicketStatus.Paid, paymentId := Some(paymentId))
    {
      MarkPaidMeaning(ids, tickets, paymentId, ids[i]);
    }
  }

  /** findById of each id of ticketIds, in order. */
  function Lookup(ids: seq<string>, tickets: map<string, Ticket>): (ts: seq<Option<Ticket>>)
    ensures |ts| == |ids|
    ensures forall i :: 0 <= i < |ids| ==> ts[i] == (if ids[i] in tickets then Some(tickets[ids[i]]) else None)
  {
    if ids == [] then [] else
      var id := ids[|ids| - 1];
      Lookup(ids[..|ids| - 1], tickets) + [if id in tickets then Some(tickets[id]) else None]
  }

  /** The validation loop: it reads the stores and changes nothing. */
  method CheckAll(tickets: TicketStore, routes: RouteStore, ticketIds: seq<string>, userId: string) returns (r: Result<int>)
    ensures r == CheckTickets(ticketIds, userId, tickets.tickets, routes.routes)
  {
    var totalAmount := 0;
    var i := 0;
    while i < |ticketIds|
      invariant 0 <= i <= |ticketIds|
      invariant CheckTickets(ticketIds[..i], userId, tickets.tickets, routes.routes) == Ok(totalAmount)
    {
      assert ticketIds[..i + 1][..i] == ticketIds[..i];
      var ticketId := ticketIds[i];
      var ticket := tickets.FindById(ticketId);
      if ticket.None? {
        PrefixFails(ticketIds, i, userId, tickets.tickets, routes.routes);
        return Fail(NotFound(ticketId));
      }
      if ticket.value.userId != userId {
        PrefixFails(ticketIds, i, userId, tickets.tickets, routes.routes);
        return Fail(NotOwned(ticketId));
      }
      if ticket.value.status != Reserved {
        PrefixFails(ticketIds, i, userId, tickets.tickets, routes.routes);
        return Fail(NotReserved(ticketId));
      }
      var route := TicketRoute(ticketId, tickets.tickets, routes.routes);
      if route.Err? {
        PrefixFails(ticketIds, i, userId, tickets.tickets, routes.routes);
        return Err(route.error);
      }
      totalAmount := totalAmount + route.value.price;
      i := i + 1;
    }
    assert ticketIds[..i] == ticketIds;
    r := Ok(totalAmount);
  }

  /** The update loop: updateStatus(PAID) and updatePaymentId per ticket. */
  method MarkTicketsPaid(tickets: TicketStore, ticketIds: seq<string>, paymentId: string)
    requires tickets.Valid()
    requires forall i :: 0 <= i < |ticketIds| ==> ticketIds[i] in tickets.tickets
    modifies tickets
    ensures tickets.Valid()
    ensures tickets.tickets == MarkPaid(ticketIds, old(tickets.tickets), paymentId)
  {
    var j := 0;
    while j < |ticketIds|
      invariant 0 <= j <= |ticketIds|
      invariant tickets.Valid()
      invariant tickets.tickets == MarkPaid(ticketIds[..j], old(tickets.tickets), paymentId)
    {
      assert ticketIds[..j + 1][..j] == ticketIds[..j];
      tickets.UpdateStatus(ticketIds[j], TicketStatus.Paid);
      tickets.UpdatePaymentId(ticketIds[j], paymentId);
      j := j + 1;
    }
    assert ticketIds[..j] == ticketIds;
  }

  /** The loop that fetches the updated tickets. */
  method Refetch(tickets: TicketStore, ticketIds: seq<string>) returns (updated: seq<Option<Ticket>>)
    ensures updated == Lookup(ticketIds, tickets.tickets)
  {
    updated := [];
    var k := 0;
    while k < |ticketIds|
      invariant 0 <= k <= |ticketIds|
      invariant updated == Lookup(ticketIds[..k], tickets.tickets)
    {
      assert ticketIds[..k + 1][..k] == ticketIds[..k];
      updated := updated + [tickets.FindById(ticketIds[k])];
      k := k + 1;
    }
    assert ticketIds[..k] == ticketIds;
  }

  /** execute(request): `answer` is what the gateway decides, `paymentId` the
      id the payment record gets. */
  method Pay(tickets: TicketStore, routes: RouteStore, payments: PaymentStore, gateway: PaymentGateway,
             req: PayRequest, answer: GatewayResult, paymentId: string) returns (res: Result<PayResponse>)
    requires tickets.Valid()
    modifies tickets, payments, gateway
    ensures tickets.Valid()
    // a failed validation stops everything before the gateway
    ensures CheckTickets(req.ticketIds, req.userId, old(tickets.tickets), routes.routes).Err? ==>
      && res == Err(CheckTickets(req.ticketIds, req.userId, old(tickets.tickets), routes.routes).error)
      && tickets.tickets == old(tickets.tickets) && payments.payments == old(payments.payments)
      && gateway.charges == old(gateway.charges)
    ensures CheckTickets(req.ticketIds, req.userId, old(tickets.tickets), routes.routes).Ok? ==>
      var total := CheckTickets(req.ticketIds, req.userId, old(tickets.tickets), routes.routes).value;
      var payment := Payment(paymentId, req.userId, total, req.paymentMethod, answer.status, answer.transactionId);
      // the gateway is asked once, for the total
      && gateway.charges == old(gateway.charges) + [Charge(total, req.paymentMethod, req.ticketIds, req.userId)]
      // a payment is recorded with the gateway's status
      && (paymentId in old(payments.payments) ==>
            res == Fail(UniqueViolation) && payments.payments == old(payments.payments)
            && tickets.tickets == old(tickets.tickets))
      && (paymentId !in old(payments.payments) ==>
            && payments.payments == old(payments.payments)[paymentId := payment]
            // the tickets move to PAID only when the payment is PAID
            && tickets.tickets == (if answer.status == PaymentStatus.Paid
                                   then MarkPaid(req.ticketIds, old(tickets.tickets), paymentId)
                                   else old(tickets.tickets))
            && res == Ok(PayResponse(Lookup(req.ticketIds, tickets.tickets), payment)))
  {
    var checked := CheckAll(tickets, routes, req.ticketIds, req.userId);
    if checked.Err? {
      return Err(checked.error);
    }
    var totalAmount := checked.value;
    CheckTicketsMeaning(req.ticketIds, req.userId, tickets.tickets, routes.routes);

    var paymentResult := gateway.ProcessPayment(Charge(totalAmount, req.paymentMethod, req.ticketIds, req.userId), answer);

    var created := payments.Create(Payment(paymentId, req.userId, totalAmount, req.paymentMethod,
                                           paymentResult.status, paymentResult.transactionId));
    if created.Err? {
      return Err(created.error);
    }
    var payment := created.value;

    if paymentResult.status == PaymentStatus.Paid {
      MarkTicketsPaid(tickets, req.ticketIds, payment.id);
    }

    var updated := Refetch(tickets, req.ticketIds);
    res := Ok(PayResponse(updated, payment));
  }

  /** When the prefix before position i passes and the ticket at i does not,
      the whole list fails with that ticket's error. */
  lemma {:induction false} PrefixFails(ids: seq<string>, i: nat, userId: string, tickets: map<string, Ticket>, routes: map<string, Route>)
    requires i < |ids|
    requires CheckTickets(ids[..i], userId, tickets, routes).Ok?
    requires CheckTicket(ids[i], userId, tickets, routes).Err?
    ensures CheckTickets(ids, userId, tickets, routes) == CheckTicket(ids[i], userId, tickets, routes)
    decreases |ids|
  {
    if i == |ids| - 1 {
      assert ids[..|ids| - 1] == ids[..i];
    } else {
      var init := ids[..|ids| - 1];
      assert init[..i] == ids[..i] && init[i] == ids[i];
      PrefixFails(init, i, userId, tickets, routes);
    }
  }
}
