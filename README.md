# Cinema tickets purchase service, modelled in Dafny

This project models the ticket service of the cinema-tickets exercise. A caller passes an
account id and a list of ticket requests. The service does the following in a fixed order:

1. It rejects a missing or non-positive account id.
2. It rejects a missing or empty request list.
3. It rejects more than 25 tickets in all.
4. It adds up the adult, child and infant quantities.
5. It rejects children or infants with no adult, then more infants than adults.
6. It charges 2500 pence per adult and 1500 per child, and reserves one seat per adult and child.
   Infants are free and sit on an adult's lap.

The payment service is called first and the seat reservation service second. Each is called
only when its value is positive.

A ticket request is an immutable value: one of three categories and a quantity. Its
constructor throws for a null category, or for a quantity below one, in that order.

Files:

- `results.dfy`: `Option` (a Java reference that may be null) and `Result` (return or throw).
- `ticket_type_request.dfy`: module `TicketTypeRequests`. It holds the `Type` enumeration,
  the `TicketTypeRequest` value with its getters, the subset type `ValidRequest`, the
  checking constructor `New`, and `NewAll`, which builds a variable-argument list left to right.
- `ticket_service.dfy`: module `TicketService`. It holds the constants, the error kinds and the
  value-level specification (`TotalTickets`, `CountOf`, `CostOf`, `SeatsOf`, `Purchase`,
  `CollaboratorCalls`). `ValidAccount` is the account guard that `Purchase` applies first; what it
  promises is stated by `PurchaseProperties.InvalidAccountRejectedFirst`. `Collaborators` is the two outside services as a shared log of calls.
  `TicketServiceImpl.PurchaseTickets` is the imperative routine with its counting loop, proved
  to do what `Purchase` says.
- `purchase_properties.dfy`: module `PurchaseProperties`, the lemmas about a purchase.
- `int32_overflow.dfy`: module `Int32Overflow`, the same purchase with Java's 32-bit wrap-around
  (see Findings).
- `scenarios.dfy`: module `Scenarios`, the repository's unit tests written as client methods of
  `PurchaseTickets`.

The two outside services appear only as the calls they receive. A call to `makePayment` appends
`Payment(account, pence)` to `Collaborators.calls`, and `reserveSeat` appends
`Reservation(account, seats)`. The contract of `PurchaseTickets` gives the exact calls, in order,
and says that a rejected purchase appends nothing.

The test `purchaseTickets_withNullRequest` (TicketServiceImplTest.java:177-183) is named for a
null request list. Its single `null` argument binds to the account id, though, so the
code reports an invalid account. `Scenarios.InvalidAccountIdRejected` models this.

## Model

| member | source | states |
|---|---|---|
| `TicketTypeRequests.New` | cinema-tickets-java/src/main/java/uk/gov/dwp/uc/pairtest/domain/TicketTypeRequest.java:14-19 | construction succeeds exactly when the category is non-null and the quantity is at least 1; a null category is reported before the quantity (so null with 0 reports the category); the getters of a built request return the constructor's arguments |
| `TicketTypeRequests.NewFromGetters` | cinema-tickets-java/src/main/java/uk/gov/dwp/uc/pairtest/domain/TicketTypeRequest.java:9-27 | every valid request is exactly what the constructor builds from its own type and quantity, so the values with quantity at least 1 are exactly the constructible ones |
| `TicketTypeRequests.NewAll` | cinema-tickets-java/src/test/java/TicketServiceImplTest.java:139-159 | building the argument list succeeds exactly when every argument is well formed, then yields one request per argument in order; otherwise it reports the defect of the first malformed argument |
| `TicketService.TotalTickets` | cinema-tickets-java/src/main/java/uk/gov/dwp/uc/pairtest/TicketServiceImpl.java:31-33 | the summed quantity is at least the number of requests, since every quantity is at least 1 |
| `TicketService.CountOf` | cinema-tickets-java/src/main/java/uk/gov/dwp/uc/pairtest/TicketServiceImpl.java:39-52 | a category's count lies between 0 and the total |
| `TicketService.CountOfZeroIff` | cinema-tickets-java/src/main/java/uk/gov/dwp/uc/pairtest/TicketServiceImpl.java:39-56 | a category's count is 0 exactly when no request has that category, which is what makes the zero-adult test at :54 the same as "no adult request" |
| `TicketService.CountOfAppend` | cinema-tickets-java/src/main/java/uk/gov/dwp/uc/pairtest/TicketServiceImpl.java:40-51 | one more request raises only the counter of its own category, by its quantity |
| `TicketService.PurchaseWithArguments` | cinema-tickets-java/src/test/java/TicketServiceImplTest.java:139-159 | a call fails with `InvalidTicketRequest` exactly when some argument is malformed; a successful call had a non-empty list of well-formed arguments |
| `TicketService.Collaborators.constructor` | cinema-tickets-java/src/test/java/TicketServiceImplTest.java:25-29 | a fresh pair of recording services has received no call |
| `TicketService.Collaborators.MakePayment` | cinema-tickets-java/src/main/java/uk/gov/dwp/uc/pairtest/TicketServiceImpl.java:65 | a payment call appends exactly one `Payment(account, amount)` event |
| `TicketService.Collaborators.ReserveSeat` | cinema-tickets-java/src/main/java/uk/gov/dwp/uc/pairtest/TicketServiceImpl.java:66 | a reservation call appends exactly one `Reservation(account, seats)` event |
| `TicketService.TicketServiceImpl.constructor` | cinema-tickets-java/src/main/java/uk/gov/dwp/uc/pairtest/TicketServiceImpl.java:15-21 | the service keeps the services it is given |
| `TicketService.TicketServiceImpl.PurchaseTickets` | cinema-tickets-java/src/main/java/uk/gov/dwp/uc/pairtest/TicketServiceImpl.java:24-73 | the method returns normally exactly when `Purchase` succeeds and otherwise throws `Purchase`'s error; a throw leaves the call log unchanged, and a success appends exactly the payment and reservation calls of the charge, in that order; the loop keeps each counter equal to the category sum of the requests seen so far |
| `PurchaseProperties.CountsPartitionTotal` | cinema-tickets-java/src/main/java/uk/gov/dwp/uc/pairtest/TicketServiceImpl.java:31-52 | the adult, child and infant counts add up to the total that the cap is checked against |
| `PurchaseProperties.CostAndSeatsFromCounts` | cinema-tickets-java/src/main/java/uk/gov/dwp/uc/pairtest/TicketServiceImpl.java:62-63 | pricing each request from the price list (infants 0) and summing gives 2500·adults + 1500·children; seats summed per request give adults + children |
| `PurchaseProperties.InvalidAccountRejectedFirst` | cinema-tickets-java/src/main/java/uk/gov/dwp/uc/pairtest/TicketServiceImpl.java:69-73 | a null or non-positive account id fails with `InvalidAccount` whatever the requests are, and no service is called |
| `PurchaseProperties.NoRequestsRejected` | cinema-tickets-java/src/main/java/uk/gov/dwp/uc/pairtest/TicketServiceImpl.java:26-28 | with a valid account, a null or empty request list fails with `NoRequests` and no service is called |
| `PurchaseProperties.TooManyTicketsRejected` | cinema-tickets-java/src/main/java/uk/gov/dwp/uc/pairtest/TicketServiceImpl.java:31-36 | with a valid account and some requests, a total over 25 fails with `TooManyTickets` whatever the mix of categories, so the cap comes before the composition rules |
| `PurchaseProperties.MissingAdultIff` | cinema-tickets-java/src/main/java/uk/gov/dwp/uc/pairtest/TicketServiceImpl.java:54-56 | within the cap, the purchase fails with `MissingAdult` exactly when no request is for adults |
| `PurchaseProperties.TooManyInfantsIff` | cinema-tickets-java/src/main/java/uk/gov/dwp/uc/pairtest/TicketServiceImpl.java:58-60 | within the cap and with an adult present, the purchase fails with `TooManyInfants` exactly when infants outnumber adults |
| `PurchaseProperties.SucceedsIff` | cinema-tickets-java/src/main/java/uk/gov/dwp/uc/pairtest/TicketServiceImpl.java:24-67 | a purchase succeeds exactly when the account is valid, the list is non-empty, the total is at most 25, some request is for adults, and infants do not outnumber adults |
| `PurchaseProperties.SuccessfulCharge` | cinema-tickets-java/src/main/java/uk/gov/dwp/uc/pairtest/TicketServiceImpl.java:62-63 | a success is for the given account, charges the price-list cost of the requests (infants 0) and reserves one seat per adult and child ticket |
| `PurchaseProperties.SuccessfulChargeBounds` | cinema-tickets-java/src/main/java/uk/gov/dwp/uc/pairtest/TicketServiceImpl.java:54-63 | a success reserves every ticket but the infants'; seats lie in 1..25 and the amount in 2500..62500 pence |
| `PurchaseProperties.SuccessfulChargeCalls` | cinema-tickets-java/src/main/java/uk/gov/dwp/uc/pairtest/TicketServiceImpl.java:54-66 | a success calls payment and then reservation, each exactly once, with the account and the charge's values |
| `PurchaseProperties.InfantsAreFree` | cinema-tickets-java/src/main/java/uk/gov/dwp/uc/pairtest/TicketServiceImpl.java:48-63 | adding an infant request to a successful order, when that order still succeeds, changes neither the amount nor the seats |
| `PurchaseProperties.CollaboratorCallsOrder` | cinema-tickets-java/src/main/java/uk/gov/dwp/uc/pairtest/TicketServiceImpl.java:65-66 | at most two calls; payment is made iff the amount is positive and reservation iff the seats are positive, each with the account and its value; payment always precedes reservation |
| `PurchaseProperties.MalformedArgumentReportedFirst` | cinema-tickets-java/src/test/java/TicketServiceImplTest.java:139-159 | a malformed request among the call's arguments fails with `InvalidTicketRequest` whatever the account, and no service is called |
| `PurchaseProperties.WellFormedArgumentsPurchase` | cinema-tickets-java/src/test/java/TicketServiceImplTest.java:35-104 | when every argument is well formed, the call is exactly the purchase of the requests they build |
| `Int32Overflow.Wrap` | cinema-tickets-java/src/main/java/uk/gov/dwp/uc/pairtest/TicketServiceImpl.java:31-33 | a 32-bit result lies in the `int` range and differs from the exact value by a multiple of 2^32 (wrap-around, not saturation), so in-range values are unchanged |
| `Int32Overflow.TotalTicketsAsWritten` | cinema-tickets-java/src/main/java/uk/gov/dwp/uc/pairtest/TicketServiceImpl.java:31-33 | the stream sum with `int` additions is an `int` that differs from the true total by a multiple of 2^32 |
| `Int32Overflow.CountOfAsWritten` | cinema-tickets-java/src/main/java/uk/gov/dwp/uc/pairtest/TicketServiceImpl.java:39-52 | each `+=` counter is an `int` that differs from the true category count by a multiple of 2^32 |
| `Int32Overflow.PurchaseAsWritten` | cinema-tickets-java/src/main/java/uk/gov/dwp/uc/pairtest/TicketServiceImpl.java:24-67 | the purchase with 32-bit arithmetic still rejects a bad account first; a success is for the given account, passes the cap on the wrapped total, and charges `int`-range amounts and seats |
| `Int32Overflow.CapBypassedByWrapAround` | cinema-tickets-java/src/main/java/uk/gov/dwp/uc/pairtest/TicketServiceImpl.java:31-36 | with 32-bit sums, adult requests of 2147483647, 2147483647 and 4 (true total 2^32 + 2) pass the cap and are charged 5000 pence for 2 seats; the corrected purchase rejects them |
| `Int32Overflow.SmallOrdersDoNotWrap` | cinema-tickets-java/src/main/java/uk/gov/dwp/uc/pairtest/TicketServiceImpl.java:31-52 | while the true total fits in an `int`, the wrapped total and counters equal the mathematical ones |
| `Int32Overflow.AsWrittenAgreesWithoutOverflow` | cinema-tickets-java/src/main/java/uk/gov/dwp/uc/pairtest/TicketServiceImpl.java:24-67 | for every order whose true total fits in an `int`, the 32-bit purchase and the model's purchase have the same outcome |

## Left out

- The real payment and seat reservation services are not modelled. They appear only as the calls they receive. A failure inside either one would propagate uncaught, and no compensation is done. The model does not cover that path.
- The two services are separate objects in the original. Here one `Collaborators` object receives both kinds of call, so that their relative order is visible in one log.
- The 32-bit `int` arithmetic of the sums and products (TicketServiceImpl.java:31-33, 43-49, 62-63) is not in the main model, which uses mathematical integers. `Int32Overflow` models it separately. The 64-bit range of the `Long` account id is not modelled.
- `TicketService.TicketServiceImpl.PurchaseTickets` takes already-built requests. A malformed request throws while the caller builds its arguments, before the service runs. `PurchaseWithArguments` and `NewAll` model that step.
- A null element inside the request array is not modelled: the original dereferences it and fails with a null-pointer error.
- Exception message texts are not modelled. The exceptions are distinguished only by kind.
- The original's constructor is private and is filled by a test framework's injection. Here it is an ordinary constructor.
- Concurrency is not modelled, and neither is deduplication across calls. The service keeps no state between calls, so two identical calls charge twice.

## Findings

| source | as written | input that shows it | evidently intended | confidence | as-written member | corrected member |
|---|---|---|---|---|---|---|
| cinema-tickets-java/src/main/java/uk/gov/dwp/uc/pairtest/TicketServiceImpl.java:31-36 | the total and the per-category counters are 32-bit `int` sums that wrap around | adult requests of 2147483647, 2147483647 and 4: the wrapped total is 2, so the purchase passes the 25-ticket cap and is charged 5000 pence for 2 seats | more than 25 tickets in all are rejected, whatever their size | not executed; follows from Java's `int` addition semantics | `Int32Overflow.CapBypassedByWrapAround` | `PurchaseProperties.SucceedsIff` |
