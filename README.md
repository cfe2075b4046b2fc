# API Marketplace Passagens — a Dafny model of the booking core

API-Marketplace-Passagens is a TypeScript back end for selling bus, boat and
ferry tickets. Companies publish routes and weekly route templates. Travellers
search, reserve and pay. This project models the core of that back end in
Dafny and proves properties of the model:

- **Dynamic routes.** A route template says "every Monday and Friday at 8:30".
  A search for a date turns each template running on that date's UTC weekday
  into either an existing physical route of that template (same company,
  same UTC hour, at most five minutes apart, enough free seats) or a virtual
  route. A virtual route's id, `virtual-<template id>-<YYYY-MM-DD>`, is later
  materialised back into a physical route. The model proves that
  materialising a generated id finds the same template and day. It also
  proves that the physical route created is the virtual one with three
  differences: it has the database's id, `isVirtual` is false, and the
  milliseconds of the search instant are dropped.
- **Reservations and payments.** Reserving books one RESERVED ticket when the
  route has a free seat. Availability is defined as the total seats minus the
  tickets that are not CANCELLED. Paying checks every listed ticket, charges
  the sum of their route prices once, records the payment and marks the
  tickets PAID only when the gateway says PAID. The controller reserves one
  ticket per passenger in order, with no rollback.
- **Template and route administration.** The zod schemas are modelled as
  predicates. The ownership checks, the three time guards of a route update
  and the soft delete of a ticketed route are modelled. The JSON weekday
  list round-trips through storage.
- **Companies.** A CNPJ (the Brazilian company registration number) is
  registered at most once. Approval and rejection are modelled, with the
  default rejection reason.
- **Listings.** Pagination metadata follows JavaScript number rules:
  `Math.ceil(total / limit)`, `page < totalPages`, and `Infinity`/`NaN` when
  the limit is 0.

Instants are integers of milliseconds since 1970-01-01 UTC, as a JavaScript
`Date` holds them. The calendar arithmetic of ECMA-262 (section 21.4.1) is
written out. The process timezone is taken as UTC. The database is modelled
as in-memory stores: one class per repository, with `map` fields. Ids the
database or `crypto.randomUUID` would produce, the clock's reading, the
payment gateway's decision and the results of database queries are
parameters.

## Model

| member | source | states |
|---|---|---|
| DateUtils.StartOfDayUTC | src/presentation/utils/date-utils.ts:37-41 | midnight of the same UTC day: same day number, time of day 0, and `r <= t < r + 1 day` |
| DateUtils.StartOfDayIdempotent | src/presentation/utils/date-utils.ts:37-41 | applying startOfDayUTC twice gives the same instant as once |
| DateUtils.EndOfDayUTC | src/presentation/utils/date-utils.ts:49-53 | the last millisecond of the same UTC day: start of day + 86399999, never before t |
| DateUtils.FormatUTC | src/presentation/utils/date-utils.ts:61-75 | with offset 0 the ISO date text has ten characters exactly when the year is 0..9999 |
| DateUtils.FormatUTCConstantOnDay | src/presentation/utils/date-utils.ts:61-75 | two instants of one UTC day format to the same text |
| DateUtils.IsoYear | src/presentation/utils/date-utils.ts:74 | the toISOString year field has 4 characters for years 0..9999 and 7 otherwise |
| DateUtils.CreateUTCDate | src/presentation/utils/date-utils.ts:97-108 | setUTCFullYear(year, month, day) and then setUTCHours(hours, minutes, 0, 0) on the reading of the clock |
| DateUtils.CreateUTCDateComponents | src/presentation/utils/date-utils.ts:97-108 | for in-range arguments the instant has exactly that UTC date, hour and minute, seconds and milliseconds 0, whatever `new Date()` was |
| DateUtils.GetDayOfWeekUTC | src/presentation/utils/date-utils.ts:116-118 | the weekday is in 0..6 |
| DateUtils.EpochWasThursday | src/presentation/utils/date-utils.ts:116-118 | 1970-01-01 has weekday 4 (Thursday) |
| DateUtils.DayOfWeekAdvances | src/presentation/utils/date-utils.ts:116-131 | one day later the weekday is the next one, mod 7 |
| DateUtils.DayOfWeekWeekly | src/presentation/utils/date-utils.ts:116-131 | any whole number of weeks later the weekday is the same |
| DateUtils.AddDaysUTC | src/presentation/utils/date-utils.ts:127-131 | the result is n days later in day number at the same time of day |
| DateUtils.AddDaysIsSetUtcDate | src/presentation/utils/date-utils.ts:127-131 | `setUTCDate(getUTCDate() + n)` (with ECMA-262 MakeDay carrying across months and years) equals adding n days |
| DateUtils.AddDaysCompose | src/presentation/utils/date-utils.ts:127-131 | adding a days and then b days is adding a + b days |
| DateUtils.SetUtcHours | src/application/services/DynamicRouteGenerationService.ts:104 | setUTCHours(h, m, 0) keeps the UTC day and the milliseconds and sets the hour, minute and second |
| DateUtils.LeadingDigits | src/application/services/DynamicRouteGenerationService.ts:178 | what `^\d{1,max}` takes: a digit run of at most `max` characters that stops before a digit only at `max` |
| DateUtils.SplitDateText | src/application/services/DynamicRouteGenerationService.ts:178 | the date-fns token walk for 'yyyy-MM-dd': whatever it accepts is 1-4 digits, '-', 1-2 digits, '-', 1-2 digits and then whitespace only |
| DateUtils.SplitDateTextComplete | src/application/services/DynamicRouteGenerationService.ts:178 | every text of that shape is accepted, split exactly at its own pieces |
| DateUtils.ParseIsoDate | src/application/services/DynamicRouteGenerationService.ts:178 | a parsed date is a UTC midnight, of a text of the accepted shape whose fields are valid |
| DateUtils.ParseIsoDateMeaning | src/application/services/DynamicRouteGenerationService.ts:178 | a text of the accepted shape parses to its date's midnight when the year is positive, the month 1..12 and the day in that month, and is an Invalid Date otherwise; padding and trailing whitespace do not matter |
| DateUtils.IsoDateFields | src/application/services/DynamicRouteGenerationService.ts:178 | the ISO text of a date of years 1..9999 parses to that date's midnight |
| DateUtils.ParseFormatRoundTrip | src/application/services/DynamicRouteGenerationService.ts:178 | parsing the formatUTC text of an instant (years 1..9999) gives the midnight of its UTC day |
| DateUtils.YearZeroDoesNotParse | src/application/services/DynamicRouteGenerationService.ts:178 | the formatUTC text of an instant of year 0 does not parse, as date-fns refuses year 0 |
| Calendar.CivilFromDays | src/presentation/utils/date-utils.ts:127-131 | the calendar date of a day number is a valid date that maps back to that day number |
| Calendar.CivilRoundTrip | src/presentation/utils/date-utils.ts:97-108 | converting a valid date to a day number and back gives the same date |
| Calendar.MakeDayOfCivil | src/presentation/utils/date-utils.ts:127-131 | MakeDay moves by whole days in its day argument, also past the end of the month |
| Digits.PadDigitsRoundTrip | src/presentation/utils/date-utils.ts:74 | a zero-padded field reads back as its number when the number fits the width |
| Digits.ShowNatRoundTrip | src/presentation/controllers/RouteTemplateController.ts:115 | the decimal text JSON.stringify writes for a natural reads back as that natural |
| Text.JsSubstring | src/application/services/DynamicRouteGenerationService.ts:161-167 | the result is never longer than the text; with in-range bounds it is exactly `s[start..end]` |
| Text.JsSlice | src/application/useCases/tickets/ReserveTicketUseCase.ts:54 | `slice(start, end)` is `s[start..min(end, \|s\|)]` when start is before both end and \|s\|, and empty otherwise |
| Text.ToUpper | src/application/useCases/tickets/ReserveTicketUseCase.ts:54 | same length; every character is upper-cased in place |
| Text.UpperChar | src/application/useCases/tickets/ReserveTicketUseCase.ts:54 | the result is never a lower-case letter; lower-case letters shift by 32, all other characters are kept |
| TemplateFormats.ClockPattern | src/presentation/controllers/RouteTemplateController.ts:16-17 | the regex `^([0-1]?[0-9]\|2[0-3]):[0-5][0-9]$` as a predicate on the text |
| TemplateFormats.ColonAt | src/presentation/controllers/RouteTemplateController.ts:16-17 | a time the pattern accepts has its colon at position 1 or 2, with an hour field before and a minute field after |
| TemplateFormats.ClockOf | src/application/services/DynamicRouteGenerationService.ts:80-81 | `parseInt` of the two parts of a pattern-conforming time gives an hour in 0..23 and a minute in 0..59 |
| TemplateFormats.ShowClockRoundTrip | src/presentation/controllers/RouteTemplateController.ts:16-17 | every time of day has a text the pattern accepts that reads back as it, so the pattern accepts exactly 00:00-23:59 |
| TemplateFormats.ParseDays | src/application/services/DynamicRouteGenerationService.ts:43 | JSON.parse of a daysOfWeek text, for arrays of naturals written without whitespace |
| TemplateFormats.TryParseDays | src/presentation/controllers/RouteTemplateController.ts:274-281 | the parsed array when the text parses, the default otherwise |
| TemplateFormats.DaysRoundTrip | src/presentation/controllers/RouteTemplateController.ts:115-127 | JSON.parse of JSON.stringify of a weekday array gives it back, and tryParseJson does too |
| VirtualIds.EncodeVirtualId | src/application/services/DynamicRouteGenerationService.ts:119 | the id starts with "virtual-" and is 9 characters longer than its two parts |
| VirtualIds.DecodeVirtualId | src/application/services/DynamicRouteGenerationService.ts:154-167 | fails with 'ID de rota virtual inválido' exactly when the prefix is missing; the date part has ten characters once the id is long enough |
| VirtualIds.DecodeEncode | src/application/services/DynamicRouteGenerationService.ts:154-167 | decoding an encoded id with a ten-character date gives back the template id and the date, even when the template id holds hyphens |
| VirtualIds.EncodeDecode | src/application/services/DynamicRouteGenerationService.ts:160-167 | a decoded id is the prefix, the template id, one separator character (not checked) and the date |
| VirtualIds.DecodedDateIsSuffix | src/application/services/DynamicRouteGenerationService.ts:163-164 | the date text is the last ten characters of the id |
| RouteGeneration.Matches | src/application/services/DynamicRouteGenerationService.ts:84-93 | the `find` predicate: same UTC hour, minutes at most five apart, same company |
| RouteGeneration.MatchIsClose | src/application/services/DynamicRouteGenerationService.ts:84-93 | a matched route departs less than six minutes from the template's time within its day |
| RouteGeneration.HourBoundaryNeverMatches | src/application/services/DynamicRouteGenerationService.ts:84-93 | the five-minute window does not cross an hour: a 09:02 departure is four minutes from a 08:58 template yet does not match it |
| RouteGeneration.FirstMatch | src/application/services/DynamicRouteGenerationService.ts:84-93 | the index of the first matching route: nothing before it matches, and it matches when in range |
| RouteGeneration.FindMatch | src/application/services/DynamicRouteGenerationService.ts:84-93 | `find` returns nothing exactly when no route matches, and otherwise the first match |
| RouteGeneration.RunsOn | src/application/services/DynamicRouteGenerationService.ts:40-49 | a template runs on a weekday when its weekday list parses and holds it; a list that does not parse means it does not run |
| RouteGeneration.FilterByWeekday | src/application/services/DynamicRouteGenerationService.ts:39-49 | keeps exactly the templates whose weekday list parses and holds the date's UTC weekday |
| RouteGeneration.FilterAppend | src/application/services/DynamicRouteGenerationService.ts:40-49 | filtering distributes over concatenation, so the filter keeps template order |
| RouteGeneration.OccurrenceTimes | src/application/services/DynamicRouteGenerationService.ts:103-115 | the departure and arrival instants a template's clocks give on a date |
| RouteGeneration.OccurrenceTimesFields | src/application/services/DynamicRouteGenerationService.ts:103-115 | the departure is on the date's day at the template clock; the arrival is on the same day or, when its clock is earlier, the next day; both keep the date's milliseconds; the trip lasts under a day |
| RouteGeneration.VirtualRoute | src/application/services/DynamicRouteGenerationService.ts:118-138 | a virtual, active route with the encoded id and the template's company, places, price, transport and seats |
| RouteGeneration.VirtualRouteTimes | src/application/services/DynamicRouteGenerationService.ts:103-138 | a virtual route departs and arrives at the template clocks, arrives the next day exactly when the arrival clock is earlier, and matches its own template |
| RouteGeneration.Entry | src/application/services/DynamicRouteGenerationService.ts:95-141 | what one template adds to the answer: the first matching route if it has the seats, nothing if it lacks them, otherwise its virtual route |
| RouteGeneration.EntryMeaning | src/application/services/DynamicRouteGenerationService.ts:95-141 | a template yields nothing exactly when its first matching route lacks the seats; otherwise it yields a matching route with the seats or, when none matches, its virtual route |
| RouteGeneration.Generated | src/application/services/DynamicRouteGenerationService.ts:75-144 | the entries of the templates running on the date's UTC weekday, in order, flattened |
| RouteGeneration.GeneratedMembers | src/application/services/DynamicRouteGenerationService.ts:75-144 | a route is returned iff some template running on the weekday yields it |
| RouteGeneration.GeneratedLength | src/application/services/DynamicRouteGenerationService.ts:75-144 | at most one route per running template |
| RouteGeneration.IdleTemplateContributesNothing | src/application/services/DynamicRouteGenerationService.ts:40-49 | a template not running on the date, or with an unparseable weekday list, leaves the answer as without it |
| RouteGeneration.TemplateEntry | src/application/services/DynamicRouteGenerationService.ts:79-141 | the loop body for one template computes exactly its entry: the first matching route with the seats, nothing, or the virtual route |
| RouteGeneration.CollectRoutes | src/application/services/DynamicRouteGenerationService.ts:76-144 | the loop returns the flattened entries of the running templates in order |
| RouteGeneration.GenerateRoutes | src/application/services/DynamicRouteGenerationService.ts:24-145 | the routes returned are the generated entries of the templates running on the date's weekday, in template order, with numberOfPassengers defaulting to 1 |
| RouteGeneration.InDaySearch | src/infrastructure/database/prisma/repositories/PrismaRouteRepository.ts:88-117 | the duplicate search's filter: active, origin and destination names containing the template's ignoring case, departing within the UTC day |
| RouteGeneration.Candidate | src/application/services/DynamicRouteGenerationService.ts:198-215 | a stored route the duplicate search finds and the `find` predicate accepts for the template's departure clock |
| RouteGeneration.Plan | src/application/services/DynamicRouteGenerationService.ts:154-178 | when it succeeds, the id decodes, its template is stored and comes back as the repository returns it, and the day is a UTC midnight |
| RouteGeneration.MaterializedRoute | src/application/services/DynamicRouteGenerationService.ts:221-239 | an active, non-virtual route with the template's fields that the duplicate search of the same day would find |
| RouteGeneration.PlanOfVirtualId | src/application/services/DynamicRouteGenerationService.ts:150-178 | the id of a route generated for a date of years 1..9999 plans back to its template as returned and that date's midnight |
| RouteGeneration.MaterializeAgreesWithGeneration | src/application/services/DynamicRouteGenerationService.ts:177-239 | materialising a generated id creates that virtual route with the new id, isVirtual false, and the search instant's milliseconds dropped |
| RouteGeneration.MaterializeRoute | src/application/services/DynamicRouteGenerationService.ts:150-246 | decode, template and date errors leave the store unchanged; an existing candidate of that day is returned; otherwise the route MaterializedRoute builds is stored under the new id, or creation fails with 'Falha ao criar rota física a partir do template' |
| Stores.AvailableSeats | src/domain/repositories/RouteRepository.ts:48 | free seats never exceed the route's total |
| Stores.NewTicketTakesOneSeat | src/application/useCases/tickets/ReserveTicketUseCase.ts:47-65 | a new seat-holding ticket lowers its route's availability by exactly one |
| Stores.OtherRouteKeepsSeats | src/domain/repositories/RouteRepository.ts:48 | a new ticket on another route leaves this route's availability unchanged |
| Stores.RouteStore.FindById | src/domain/repositories/RouteRepository.ts:12 | a route is found iff it is stored under that id |
| Stores.RouteStore.Create | src/domain/repositories/RouteRepository.ts:13 | stores the route under a fresh id, or fails with a unique violation and changes nothing |
| Stores.RouteStore.Update | src/domain/repositories/RouteRepository.ts:14 | replaces the record under its id |
| Stores.RouteStore.Delete | src/domain/repositories/RouteRepository.ts:15 | removes the id and nothing else |
| Stores.RouteStore.SetAmenities | src/domain/repositories/RouteRepository.ts:54 | replaces the route's amenity list |
| Stores.TicketStore.FindById | src/domain/repositories/TicketRepository.ts:4 | a ticket is found iff it is stored under that id |
| Stores.TicketStore.Create | src/domain/repositories/TicketRepository.ts:6 | stores the ticket under a fresh id, or fails and changes nothing |
| Stores.TicketStore.UpdateStatus | src/domain/repositories/TicketRepository.ts:8 | changes that ticket's status only |
| Stores.TicketStore.UpdatePaymentId | src/application/useCases/tickets/PayMultipleTicketsUseCase.ts:96 | links that ticket to the payment and changes nothing else |
| Stores.TicketRoute | src/infrastructure/database/prisma/repositories/PrismaTicketRepository.ts:105-133 | the ticket's route when both are stored, else the repository's error |
| Stores.NonEmpty | src/infrastructure/database/prisma/repositories/PrismaCompanyRepository.ts:15-16 | `text \|\| undefined`: an empty text reads back as absent, anything else as itself |
| Stores.ReturnedTemplate | src/infrastructure/database/prisma/repositories/PrismaRouteTemplateRepository.ts:7-18 | a template as the repository returns it: empty origin and destination states read back as absent, every other field as stored |
| Stores.TemplateStore.FindById | src/infrastructure/database/prisma/repositories/PrismaRouteTemplateRepository.ts:7-18 | a template is found iff it is stored under that id, and comes back with empty states absent |
| Stores.TemplateStore.Create | src/infrastructure/database/prisma/repositories/PrismaRouteTemplateRepository.ts:42-53 | stores the template under a fresh id and returns it read back, or fails; well-formed templates keep the store valid |
| Stores.TemplateStore.Update | src/domain/repositories/RouteTemplateRepository.ts:7 | replaces the record; a well-formed record keeps the store valid |
| Stores.TemplateStore.Delete | src/domain/repositories/RouteTemplateRepository.ts:8 | removes the id and nothing else |
| Stores.CompanyStore.FindById | src/domain/repositories/CompanyRepository.ts:4 | a company is found iff it is stored under that id |
| Stores.CompanyStore.Create | src/domain/repositories/CompanyRepository.ts:6 | a taken id or CNPJ fails with a unique violation; otherwise the company is added and CNPJ uniqueness is kept |
| Stores.CompanyStore.Update | src/domain/repositories/CompanyRepository.ts:7 | replaces the record; keeping the CNPJ keeps the store valid |
| Stores.PaymentStore.Create | src/infrastructure/database/prisma/repositories/PrismaPaymentRepository.ts:105-128 | records the payment under a fresh id, or fails and changes nothing |
| Stores.PaymentGateway.ProcessPayment | src/domain/gateways/PaymentGateway.ts:10-21 | records the charge it was asked for and returns the gateway's answer |
| ReserveTicket.TicketCode | src/application/useCases/tickets/ReserveTicketUseCase.ts:54 | "TKT-" followed by the first (up to) eight characters of the UUID upper-cased; no lower-case letter anywhere |
| ReserveTicket.TicketCodeOfUuid | src/application/useCases/tickets/ReserveTicketUseCase.ts:54 | for a real UUID the code has 12 characters, the last eight upper-case hexadecimal |
| ReserveTicket.NewTicket | src/application/useCases/tickets/ReserveTicketUseCase.ts:57-65 | a RESERVED ticket on the resolved route with the request's passenger data and no payment |
| ReserveTicket.Book | src/application/useCases/tickets/ReserveTicketUseCase.ts:47-65 | succeeds iff a seat is free and the ticket id is fresh; no seat gives 'Não há assentos disponíveis para esta rota.' |
| ReserveTicket.BookingKeepsCapacity | src/application/useCases/tickets/ReserveTicketUseCase.ts:47-65 | a booking takes exactly one seat of its route, never goes below zero, and leaves other routes' availability as it was |
| ReserveTicket.Reserve | src/application/useCases/tickets/ReserveTicketUseCase.ts:25-71 | physical ids are looked up ('Rota não encontrada.') and booked; a virtual id books a stored candidate of its template and day, or the route materializeRoute creates for them, and its errors (a create failure included) come back prefixed 'Erro ao materializar rota virtual: '; the seat gate applies to the resolved route; a created ticket is the only change to the tickets |
| PayMultipleTickets.TotalPrice | src/application/useCases/tickets/PayMultipleTicketsUseCase.ts:63-67 | the sum of the route prices of the listed tickets |
| PayMultipleTickets.CheckTickets | src/application/useCases/tickets/PayMultipleTicketsUseCase.ts:45-69 | the ticket checks in order, stopping at the first failure, with the running total |
| PayMultipleTickets.CheckTicket | src/application/useCases/tickets/PayMultipleTicketsUseCase.ts:45-68 | passes iff the ticket exists, is the user's, is RESERVED and has a stored route; yields that route's price |
| PayMultipleTickets.CheckTicketsMeaning | src/application/useCases/tickets/PayMultipleTicketsUseCase.ts:45-69 | the validations pass iff every ticket is payable, the total is the sum of their prices, and a failure is the first failing ticket's error |
| PayMultipleTickets.PrefixFails | src/application/useCases/tickets/PayMultipleTicketsUseCase.ts:45-69 | the loop's early exit at the first failing ticket returns the same error as the whole validation |
| PayMultipleTickets.CheckAll | src/application/useCases/tickets/PayMultipleTicketsUseCase.ts:41-69 | the validation loop returns exactly the result of the validations |
| PayMultipleTickets.MarkPaid | src/application/useCases/tickets/PayMultipleTicketsUseCase.ts:90-98 | the same ticket ids before and after |
| PayMultipleTickets.MarkPaidMeaning | src/application/useCases/tickets/PayMultipleTicketsUseCase.ts:90-98 | every listed ticket becomes PAID with the payment id; every other ticket is untouched |
| PayMultipleTickets.MarkTicketsPaid | src/application/useCases/tickets/PayMultipleTicketsUseCase.ts:90-98 | the update loop leaves the store equal to MarkPaid |
| PayMultipleTickets.Lookup | src/application/useCases/tickets/PayMultipleTicketsUseCase.ts:100-105 | one entry per listed id, in order: the stored ticket or nothing |
| PayMultipleTickets.Refetch | src/application/useCases/tickets/PayMultipleTicketsUseCase.ts:100-105 | the fetch loop returns Lookup of the ids |
| PayMultipleTickets.ReturnedTickets | src/application/useCases/tickets/PayMultipleTicketsUseCase.ts:89-109 | after passing checks, the returned tickets are PAID with the payment id when the payment is PAID, and unchanged and RESERVED otherwise |
| PayMultipleTickets.Pay | src/application/useCases/tickets/PayMultipleTicketsUseCase.ts:40-111 | a failed validation stops before the gateway and changes nothing; otherwise one charge of the total, the payment recorded with the gateway's status, tickets marked only on PAID, and the refetched tickets returned |
| TicketController.ValidReserveBody | src/presentation/controllers/TicketController.ts:9-16 | reserveMultipleTicketsSchema: a UUID route id and at least one passenger with a name of 3 and a CPF of 11 characters or more |
| TicketController.UuidIsNotVirtual | src/presentation/controllers/TicketController.ts:9-10 | a UUID never begins with "virtual-", so this endpoint only books physical routes |
| TicketController.ExpirationRoundTrip | src/presentation/controllers/TicketController.ts:22 | every two-digit MM/YY pair is accepted by the expiry pattern and reads back |
| TicketController.ParseMethod | src/presentation/controllers/TicketController.ts:95 | exactly the four enum names are accepted, each as its method |
| TicketController.ValidCard | src/presentation/controllers/TicketController.ts:19-24 | cardPaymentDataSchema field by field |
| TicketController.ValidPix | src/presentation/controllers/TicketController.ts:27-29 | pixPaymentDataSchema: a non-empty PIX key |
| TicketController.ValidBoleto | src/presentation/controllers/TicketController.ts:32-34 | boletoPaymentDataSchema: a CPF of 11 to 14 characters |
| TicketController.DataIssue | src/presentation/controllers/TicketController.ts:97-147 | an issue on paymentData, with its method's message, exactly when the data fails that method's schema |
| TicketController.PaymentIssues | src/presentation/controllers/TicketController.ts:93-147 | no issue iff the method is valid and its data passes; an unknown method is a single issue on paymentMethod |
| TicketController.ValidPayBody | src/presentation/controllers/TicketController.ts:93-147 | payMultipleTicketsSchema: every ticket id a UUID and no issue on the method or its data |
| TicketController.ReserveAll | src/presentation/controllers/TicketController.ts:210-220 | the reservation loop on values: each passenger in turn, seeing the tickets before it, stopping at the first failure |
| TicketController.ReserveOne | src/presentation/controllers/TicketController.ts:210-220 | one reservation on a physical id: 'Rota não encontrada.' without the route; otherwise it succeeds iff a seat is free and the id is fresh, giving the new ticket under that id |
| TicketController.ReserveAllAt | src/presentation/controllers/TicketController.ts:210-220 | the loop from passenger i is passenger i's reservation, then the loop from i + 1 when it succeeds |
| TicketController.ReserveStep | src/presentation/controllers/TicketController.ts:210-220 | one loop pass leaves the routes alone and either adds the reserved ticket under its id or changes nothing, as ReserveOne says |
| TicketController.ReserveAllOrder | src/presentation/controllers/TicketController.ts:210-220 | ticket i is passenger i's; every passenger gets one unless a reservation fails |
| TicketController.ReserveAllStore | src/presentation/controllers/TicketController.ts:210-220 | old tickets are kept, each created ticket is stored under its fresh id, nothing else is added, and there is no rollback |
| TicketController.ReserveAllSeats | src/presentation/controllers/TicketController.ts:210-220 | the route loses one seat per created ticket and never goes below zero |
| TicketController.ReserveEach | src/presentation/controllers/TicketController.ts:210-220 | the passenger loop leaves the routes alone, and its tickets, its first failure and the store afterwards are those of ReserveAll |
| TicketController.ReserveMultiple | src/presentation/controllers/TicketController.ts:195-239 | an invalid body gives 400 'Dados de entrada inválidos.'; otherwise the store and reply follow the reservation loop: 400 with the first failure, or 201 with the tickets and `ticket` iff there is exactly one |
| TicketController.PayMultiple | src/presentation/controllers/TicketController.ts:161-190 | an invalid body gives 400 and no change; a failed validation gives 400 with its message and no change; otherwise one charge of the total, a payment id collision gives 400 with the store's error and no ticket change, and else the payment is recorded, the tickets are marked PAID exactly when the payment is PAID, and 200 carries the refetched tickets and the payment |
| Pagination.TotalPages | src/application/useCases/routes/SearchRoutesUseCase.ts:38 | finite and non-negative for a positive limit; NaN or Infinity for a zero limit; non-positive for a negative one |
| Pagination.PageMeta | src/application/useCases/routes/SearchRoutesUseCase.ts:38-48 | the metadata carries total, page, limit, totalPages and `hasMore = page < totalPages` |
| Pagination.TotalPagesIsCeiling | src/application/useCases/routes/SearchRoutesUseCase.ts:38 | with a positive limit totalPages is the least page count that holds the total |
| Pagination.HasMoreMeaning | src/application/useCases/routes/SearchRoutesUseCase.ts:38-48 | with a positive limit, hasMore iff `page * limit < total`; no rows means zero pages |
| Pagination.ZeroLimit | src/application/useCases/companies/ListCompaniesUseCase.ts:9-18 | with limit 0, hasMore iff there is any row |
| Listings.DateObject | src/application/useCases/routes/SearchRoutesUseCase.ts:22-27 | an absent or empty date text gives no date; other texts are parsed; a Date is kept |
| Listings.SearchRoutes | src/application/useCases/routes/SearchRoutesUseCase.ts:18-50 | the filters reach the query with page 1 and limit 10 by default; rows and total come back unchanged, with the page metadata |
| Listings.SearchHasMore | src/application/useCases/routes/SearchRoutesUseCase.ts:38-48 | with a positive limit a search's hasMore iff rows remain after the page |
| Listings.AdvancedSearchRoutes | src/application/useCases/routes/AdvancedSearchRoutesUseCase.ts:36-79 | every filter is forwarded unchanged with the same defaults; rows, total and page metadata as for SearchRoutes |
| Listings.ListCompanyRoutes | src/application/useCases/routes/ListCompanyRoutesUseCase.ts:27-44 | only the caller's company is queried; defaults 1 and 10; the page metadata |
| Listings.ListCompanies | src/application/useCases/companies/ListCompaniesUseCase.ts:6-21 | page and limit go to the query with no default or range test; the page metadata |
| RouteTemplateController.ValidDays | src/presentation/controllers/RouteTemplateController.ts:18 | a non-empty weekday array with every entry in 0..6 |
| RouteTemplateController.ValidBody | src/presentation/controllers/RouteTemplateController.ts:7-23 | createRouteTemplateSchema field by field |
| RouteTemplateController.ParseTransport | src/presentation/controllers/RouteTemplateController.ts:20 | exactly BUS, BOAT and FERRY are accepted |
| RouteTemplateController.NewTemplate | src/presentation/controllers/RouteTemplateController.ts:112-121 | the stored template copies the body, stores the weekdays as JSON, gets the caller's company, defaults active to true and is well formed |
| RouteTemplateController.View | src/presentation/controllers/RouteTemplateController.ts:124-127 | the template is sent with its weekdays parsed by tryParseJson(text, []) |
| RouteTemplateController.DaysSurviveStorage | src/presentation/controllers/RouteTemplateController.ts:115-127 | the weekdays read back from storage are the ones the client sent |
| RouteTemplateController.Create | src/presentation/controllers/RouteTemplateController.ts:104-141 | 403 without a company, 400 'Dados inválidos' for a bad body, otherwise 201 with the stored template as the repository returns it and the client's own weekdays |
| RouteTemplateController.ApplyPatch | src/presentation/controllers/RouteTemplateController.ts:165-171 | present fields replace stored ones (weekdays as JSON); id and company stay; well-formedness is kept |
| RouteTemplateController.ValidPatch | src/presentation/controllers/RouteTemplateController.ts:26 | updateRouteTemplateSchema: every field that is present passes the create schema's rule |
| RouteTemplateController.EmptyPatch | src/presentation/controllers/RouteTemplateController.ts:26 | a patch with no field changes nothing |
| RouteTemplateController.Update | src/presentation/controllers/RouteTemplateController.ts:143-191 | 403 without a company, 400 for a bad id or patch, 404 when missing, 403 for another company's template, else 200 with the patched template as the repository returns it; no change unless it succeeds |
| RouteTemplateController.Delete | src/presentation/controllers/RouteTemplateController.ts:193-228 | 403, 400 'Parâmetros inválidos', 404 and 403 leave the store as it was; otherwise the template is removed and 204 sent |
| RouteTemplateController.Find | src/presentation/controllers/RouteTemplateController.ts:74-102 | 400 for a non-UUID id, 404 when missing, else 200 with the template as the repository returns it and its weekdays |
| RouteTemplateController.ParsePage | src/presentation/controllers/RouteTemplateController.ts:35 | page defaults to 1 and must be a positive integer |
| RouteTemplateController.ParseLimit | src/presentation/controllers/RouteTemplateController.ts:36 | limit defaults to 10 and must be an integer in 1..50 |
| RouteTemplateController.Views | src/presentation/controllers/RouteTemplateController.ts:244-247 | one view per template, in order |
| RouteTemplateController.FindAll | src/presentation/controllers/RouteTemplateController.ts:44-72 | 400 for bad page parameters; otherwise the stored page as it is and the metadata, with hasMore iff rows remain |
| RouteTemplateController.FindByCompany | src/presentation/controllers/RouteTemplateController.ts:230-270 | 403 without a company, 400 for bad parameters, otherwise the company's page with days parsed and hasMore iff rows remain |
| RouteUseCases.NewRoute | src/application/useCases/routes/CreateRouteUseCase.ts:34-75 | the request's fields under the new id, active defaulting to true, never virtual |
| RouteUseCases.CreateRoute | src/application/useCases/routes/CreateRouteUseCase.ts:33-85 | a route not arriving after it departs is refused with nothing written; otherwise it is stored, and the amenity list is attached iff non-empty; a created route is ordered |
| RouteUseCases.ApplyPatch | src/application/useCases/routes/UpdateRouteUseCase.ts:68-71 | given fields replace stored ones; id, company and virtual flag stay; a patch with no field changes nothing |
| RouteUseCases.CheckTimes | src/application/useCases/routes/UpdateRouteUseCase.ts:53-65 | the three guards with their messages; when a time is given they pass iff the patched route arrives after it departs |
| RouteUseCases.UpdateRoute | src/application/useCases/routes/UpdateRouteUseCase.ts:38-81 | missing gives ResourceNotFound, another company's route gives Unauthorized, then the time guards; an accepted update stores the patched route and replaces the amenities iff a list is given |
| RouteUseCases.DeleteRoute | src/application/useCases/routes/DeleteRouteUseCase.ts:16-41 | missing or foreign routes are refused with no change; a route with active tickets is only deactivated and stays stored; one without is removed |
| CompanyUseCases.Returned | src/infrastructure/database/prisma/repositories/PrismaCompanyRepository.ts:39-43 | the returned company never has an empty logo or document and is otherwise the stored one |
| CompanyUseCases.NewCompany | src/application/useCases/companies/CreateCompanyUseCase.ts:29-36 | the request's fields, not approved, initial status, never rejected |
| CompanyUseCases.CreateCompany | src/application/useCases/companies/CreateCompanyUseCase.ts:18-39 | a registered CNPJ is refused with 'Já existe uma empresa cadastrada com este CNPJ.'; otherwise the company is stored unapproved; CNPJs stay unique |
| CompanyUseCases.ApproveCompany | src/application/useCases/companies/ApproveCompanyUseCase.ts:7-21 | missing gives 'Empresa não encontrada.'; otherwise only the approved flag changes, to true |
| CompanyUseCases.RejectionReason | src/application/useCases/companies/RejectCompanyUseCase.ts:20 | an absent or empty reason becomes 'Não especificado'; any other reason is kept |
| CompanyUseCases.Rejected | src/application/useCases/companies/RejectCompanyUseCase.ts:18-22 | status REJECTED, the reason and the instant set; every other field, approval included, unchanged |
| CompanyUseCases.RejectCompany | src/application/useCases/companies/RejectCompanyUseCase.ts:7-28 | missing gives 'Empresa não encontrada', already rejected gives 'Empresa já está rejeitada', both without change; otherwise the rejection is stored and returned as `{ company }` |

## Left out

- Database queries: the repository's search, advancedSearch, findByCompany, findAll, findByCompanyId and listAll are function parameters. Their filters (case-insensitive matching, ordering, skip/take) are not modelled.
- RouteGeneration.GenerateRoutes: takes the existing routes of the day and the templates found for origin and destination as inputs. The repository queries that produce them (findByOriginAndDestination, the `limit: 100` search, the unused `existingRoutesInput` switch) are not modelled.
- RouteGeneration.MaterializeRoute: the duplicate search is over every stored route of that day, not the first 100 ordered by departure time, and which candidate is returned when several match is left open. The case-insensitive name match folds ASCII letters only.
- RouteGeneration.MaterializeRoute: the message of an invalid date is modelled as "Invalid time value". materializeRoute itself does not check the date; the error comes from formatting or storing an Invalid Date.
- Stores.AvailableSeats: getAvailableSeats is not part of this model. Availability is defined as total seats minus the route's tickets that are not CANCELLED.
- RouteUseCases.DeleteRoute: hasActiveTickets is a parameter, as its query is not part of this model. Amenity links of a deleted route are left in place.
- TicketController.ReserveMultiple: each reservation passes "" as the id a materialised route would get. A UUID route id is never virtual, so it is never used.
- TicketController.PaymentIssues: the message zod gives an unknown enum value is modelled as "Invalid enum value". The `errors: error.format()` payload of a 400 is not modelled.
- RouteTemplateController.ValidBody: weekdays, prices and seat counts are integers. Fractional JSON numbers that the schema accepts for daysOfWeek and price are not modelled.
- RouteTemplateController.View: JSON.parse is modelled only for arrays of naturals without whitespace. Any other text counts as not parsing and gives the default.
- RouteGeneration.RunsOn: the same JSON subset; a weekday list in any other JSON form counts as not parsing, so the template does not run.
- RouteGeneration.FilterByWeekday: keeps a template by RunsOn, with the same JSON subset.
- RouteTemplateController.FindAll and RouteTemplateController.FindByCompany: the page of templates is a query parameter, taken as the repository returns it (with the empty states read back as absent).
- Listings.DateObject: `new Date(text)` is a parameter; its string parsing is not modelled.
- PaymentData: an absent or non-string field is None. zod's distinction between the two is not kept.
- 500 replies: every error the model raises is an `Error`, so the 500 branches cannot be reached and are not modelled.
- Concurrency: every operation runs alone. The for-loops over awaits make no atomicity promise, and the model makes none either.
- Prices are integers (cents). Decimal conversion and floating-point sums are not modelled.
- DateUtils.parseToUTC, parseTimeToUTC and formatTimeUTC: they depend on `new Date(text)` parsing and on the local timezone, and the core does not call them.
- FormatUTC is used with timezone offset 0: the process is assumed to run in UTC, as the service's day arithmetic does. The same assumption makes the local day window of the route search (setHours(0, 0, 0, 0) to setHours(23, 59, 59, 999), PrismaRouteRepository.ts:106-117) the UTC day, and the local midnight that date-fns parse returns (DynamicRouteGenerationService.ts:178) a UTC midnight.
- CompanyUseCases.InitialStatus: the database's default status of a new company is not part of this model. It is taken as PENDING.
- Timestamps: createdAt and updatedAt are not modelled. rejectedAt comes from a clock-reading parameter.
- Company deletion, company update, route details and location search are not part of this model.
