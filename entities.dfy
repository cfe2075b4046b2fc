/** The records the core reads and writes (src/domain/entities). Instants are
    milliseconds since the epoch, prices are integer cents. Creation and
    update timestamps are not part of the model. */
module Entities {
  import opened Wrappers

  datatype TransportType = Bus | Boat | Ferry

  datatype TicketStatus = Reserved | Paid | Cancelled | Used

  datatype PaymentStatus = Pending | Paid | Refunded | Failed

  datatype PaymentMethod = CreditCard | DebitCard | Pix | Boleto

  /** One end of a route: the name the searches use, and the optional state,
      the country and the location type ('city', 'terminal', ...). */
  datatype Place = Place(name: string, state: Option<string>, country: string, kind: string)

  /** A physical route (or a virtual one, which is never stored), with the
      fields the route engine fills. */
  datatype Route = Route(
    id: string,
    companyId: string,
    origin: Place,
    destination: Place,
    departureTime: int,
    arrivalTime: int,
    price: int,
    transport: TransportType,
    totalSeats: int,
    active: bool,
    isVirtual: bool)

  /** A weekly timetable entry: times as 'H:MM' text, the running weekdays as
      the JSON text of an array (0 is Sunday). */
  datatype RouteTemplate = RouteTemplate(
    id: string,
    companyId: string,
    origin: Place,
    destination: Place,
    departureTime: string,
    arrivalTime: string,
    daysOfWeek: string,
    price: int,
    transport: TransportType,
    totalSeats: int,
    active: bool)

  datatype Ticket = Ticket(
    id: string,
    routeId: string,
    userId: string,
    status: TicketStatus,
    ticketCode: string,
    passenger: string,
    passengerCpf: string,
    seatNumber: Option<string>,
    paymentId: Option<string>)

  /** The company's review status; only REJECTED is inspected. */
  datatype CompanyStatus = Rejected | OtherStatus(name: string)

  datatype Company = Company(
    id: string,
    cnpj: string,
    tradingName: string,
    legalName: string,
    logo: Option<string>,
    document: Option<string>,
    approved: bool,
    status: CompanyStatus,
    rejectionReason: Option<string>,
    rejectedAt: Option<int>)

  /** A payment covering several tickets. */
  datatype Payment = Payment(
    id: string,
    userId: string,
    amount: int,
    paymentMethod: PaymentMethod,
    status: PaymentStatus,
    externalId: string)

  /** A wall-clock time of day, as parsed from a template's 'H:MM' text. */
  datatype Clock = Clock(hour: int, minute: int)
}
