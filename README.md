# Cinema tickets: purchase validation and pricing

A Dafny model of `TicketServiceImpl.purchaseTickets` from the Cinema-Tickets
Java repository. One call takes an account id and an array of
(ticket type, quantity) lines. It either throws an `InvalidPurchaseException`
carrying exactly one `PurchaseErrorCode`, or pays the total price through the
payment port and then reserves the seats through the seat-reservation port.

Files and modules:

- `java_ints.dfy` (`JavaInts`): Java `int` and `long` as the newtypes `int32`
  and `int64`, and `Wrap32`, the 32-bit wrap-around of an `int` expression.
- `domain.dfy` (`Domain`): the closed `TicketType` enumeration, the immutable
  `TicketTypeRequest` line and the five `PurchaseErrorCode`s. `Option` stands
  for a possibly-null request array. `Outcome` stands for a `void` call that
  returns or throws, and `Result` for a computed value or a thrown code.
- `purchase_spec.dfy` (`PurchaseSpec`): a closed-form reference definition of
  the decision.
  - `TicketPrice` is the price table (INFANT 0, CHILD 10, ADULT 20).
  - `PriceSum` and `SeatSum` are the sums over the lines.
  - `LineAccepted(s, i)` holds when line i passes both per-line checks: its
    quantity is not negative, and the seats of the earlier lines plus its
    own raw quantity stay within `MAX_TICKETS_PER_PURCHASE` = 20.
  - `ScanRequests` gives the outcome of the loop and the adult check.
  - `PurchaseOutcome` gives the outcome of the whole call.
  - `PortCallsOf` lists the port calls that an outcome makes.
- `purchase_properties.dfy` (`PurchaseProperties`): the purchase rules as
  lemmas over `PurchaseOutcome`. Each error code gets an if-and-only-if
  characterisation, in both directions, over every account id and every request
  array, null and empty included. Further lemmas state the totals on success and their
  breakdown by ticket type.
- `ticket_service.dfy` (`TicketService`): the class `TicketServiceImpl`.
  - `PurchaseTickets` keeps the source's loop, its four local variables and
    its early exits.
  - It is proved to return exactly the error `PurchaseOutcome` names, or
    `Pass`.
  - It is proved to append exactly `PortCallsOf` its outcome to the ghost
    trace `portCalls`: payment then reservation on success, nothing on an
    error.
- `overflow.dfy` (`Overflow`): the same scan in Java 32-bit arithmetic, as
  written. It backs the finding below.
- `scenarios.dfy` (`Scenarios`): the unit tests' cases and the edge cases of
  the limit test, as lemmas.

The arithmetic of the main model is unbounded. `AcceptedPrefixBounds` shows
that while every line is accepted, the seats stay within 20 and the price
within 400. So every value handed to a port is a genuine Java `int`. The only
place where Java's 32-bit arithmetic changes the outcome is the limit test
itself (see Findings).

The code's rules differ from the plainer reading "at most 20 tickets, in any
order", and the model follows the code:

- **Line order matters.** The code checks the limit line by line against the running seat
  count. `[ADULT×10, INFANT×15]` is rejected, but `[INFANT×15, ADULT×10]` is
  accepted (`Scenarios.LineOrderMatters`). The first rejected line also
  decides between two per-line errors (`Scenarios.FirstViolationDecides`).
- **Infants can exceed the total.** An accepted order may hold more than 20
  tickets. The code caps only seats, plus each single line's
  raw quantity. `[ADULT×10, INFANT×10, INFANT×10]` buys 30 tickets
  (`Scenarios.InfantsNotCountedTowardsLimit`).
- **Zero-quantity lines count.** An ADULT line of quantity 0 satisfies the
  adult rule (`Scenarios.ZeroAdultLineCountsAsAdult`).

## Model

| member | source | states |
|---|---|---|
| JavaInts.Wrap32 | cinema-tickets-java/src/main/java/uk/gov/dwp/uc/pairtest/TicketServiceImpl.java:54 | a Java `int` sum is congruent to the exact sum modulo 2^32, and equal to it when the exact sum fits in an `int` |
| PurchaseSpec.FirstRejectedFrom | cinema-tickets-java/src/main/java/uk/gov/dwp/uc/pairtest/TicketServiceImpl.java:44-57 | finds the first line that fails the quantity or limit check, with every earlier line accepted; it finds none exactly when every line is accepted |
| PurchaseSpec.SumsAppend | cinema-tickets-java/src/main/java/uk/gov/dwp/uc/pairtest/TicketServiceImpl.java:59-72 | processing one more line adds its quantity times its unit price to the price, and its quantity (0 for an infant) to the seats |
| PurchaseSpec.FlagsAppend | cinema-tickets-java/src/main/java/uk/gov/dwp/uc/pairtest/TicketServiceImpl.java:63-71 | processing one more line sets the adult flag for an ADULT line and the child-or-infant flag for any other, whatever its quantity, and leaves the other flag as it was |
| PurchaseSpec.AcceptedPrefixBounds | cinema-tickets-java/src/main/java/uk/gov/dwp/uc/pairtest/TicketServiceImpl.java:49-72 | while every line so far is accepted, the running seats lie in 0..20 and the running price in 0..20 × seats |
| PurchaseProperties.AccountIdCheckedFirst | cinema-tickets-java/src/main/java/uk/gov/dwp/uc/pairtest/TicketServiceImpl.java:87-93 | INVALID_ACCOUNT_ID is thrown if and only if the account id is not positive, whatever the requests are, null and empty included; then no port is called |
| PurchaseProperties.MissingRequestsRejected | cinema-tickets-java/src/main/java/uk/gov/dwp/uc/pairtest/TicketServiceImpl.java:95-98 | MISSING_TICKET_REQUEST is thrown if and only if the account id is positive and the request array is null or empty; then no port is called |
| PurchaseProperties.ScanNeverThrowsUpFrontCodes | cinema-tickets-java/src/main/java/uk/gov/dwp/uc/pairtest/TicketServiceImpl.java:44-78 | the loop and the adult check never throw INVALID_ACCOUNT_ID or MISSING_TICKET_REQUEST, which only the guard of lines 87-99 throws |
| PurchaseProperties.FirstRejectedLineWins | cinema-tickets-java/src/main/java/uk/gov/dwp/uc/pairtest/TicketServiceImpl.java:44-57 | the first rejected line decides the error, whatever later lines and the adult rule say; a negative quantity is reported before the limit |
| PurchaseProperties.ScanRejectsIff | cinema-tickets-java/src/main/java/uk/gov/dwp/uc/pairtest/TicketServiceImpl.java:44-57 | the scan stops at a line exactly when some line is a first rejected line, and it stops at that line |
| PurchaseProperties.InvalidQuantityIff | cinema-tickets-java/src/main/java/uk/gov/dwp/uc/pairtest/TicketServiceImpl.java:48-51 | for every account id and every request array, null and empty included, INVALID_TICKET_QUANTITY is thrown if and only if the id is positive, the array is present, and some line has a negative quantity while every line before it was accepted |
| PurchaseProperties.MaxTicketsExceededIff | cinema-tickets-java/src/main/java/uk/gov/dwp/uc/pairtest/TicketServiceImpl.java:53-57 | for every account id and every request array, null and empty included, MAX_TICKETS_EXCEEDED is thrown if and only if the id is positive, the array is present, and its first rejected line has a non-negative quantity, that is, earlier ADULT and CHILD quantities plus its raw quantity exceed 20 |
| PurchaseProperties.MissingAdultIff | cinema-tickets-java/src/main/java/uk/gov/dwp/uc/pairtest/TicketServiceImpl.java:63-78 | for every account id and every request array, null and empty included, MISSING_ADULT_TICKET is thrown if and only if the id is positive, the array is present, every line was accepted, some CHILD or INFANT line exists and no ADULT line exists, quantity-zero lines included |
| PurchaseProperties.SuccessIff | cinema-tickets-java/src/main/java/uk/gov/dwp/uc/pairtest/TicketServiceImpl.java:31-85 | a purchase goes through if and only if the account id is positive, the array is present and non-empty, every line is accepted and the adult rule holds |
| PurchaseProperties.SuccessTotals | cinema-tickets-java/src/main/java/uk/gov/dwp/uc/pairtest/TicketServiceImpl.java:59-72 | on success the ports get the price sum and the seat sum, seats ≤ 20, price ≤ 20 × seats, and no line, infants included, asked for more than 20 |
| PurchaseProperties.TotalsByType | cinema-tickets-java/src/main/java/uk/gov/dwp/uc/pairtest/TicketServiceImpl.java:28-29 | the price is 20 per adult plus 10 per child, infants are free, and the seats are the adults plus the children |
| TicketService.ValidatePurchaseRequest | cinema-tickets-java/src/main/java/uk/gov/dwp/uc/pairtest/TicketServiceImpl.java:87-99 | a failing guard throws exactly the purchase's error; it passes if and only if the account id is positive and the array is present and non-empty, and then the outcome is left to the scan of the lines |
| TicketService.TicketServiceImpl.constructor | cinema-tickets-java/src/main/java/uk/gov/dwp/uc/pairtest/TicketServiceImpl.java:22-25 | a new service has made no port calls |
| TicketService.TicketServiceImpl.MakePayment | cinema-tickets-java/src/main/java/uk/gov/dwp/uc/pairtest/TicketServiceImpl.java:80-81 | a payment call is appended to the port trace |
| TicketService.TicketServiceImpl.ReserveSeat | cinema-tickets-java/src/main/java/uk/gov/dwp/uc/pairtest/TicketServiceImpl.java:83-84 | a reservation call is appended to the port trace |
| TicketService.TicketServiceImpl.PurchaseTickets | cinema-tickets-java/src/main/java/uk/gov/dwp/uc/pairtest/TicketServiceImpl.java:31-85 | throws exactly the error `PurchaseOutcome` names; on success makes exactly two port calls, payment with the total price and then reservation with the seats; on an error makes none |
| Overflow.ScanAsWrittenFrom | cinema-tickets-java/src/main/java/uk/gov/dwp/uc/pairtest/TicketServiceImpl.java:44-78 | runs the loop from a given line and loop state with every `int` sum and product wrapped to 32 bits, then the adult check; even so it throws only its three codes, every INVALID_TICKET_QUANTITY has a negative line behind it, and a success has no negative line and keeps the adult rule |
| Overflow.ScanAsWritten | cinema-tickets-java/src/main/java/uk/gov/dwp/uc/pairtest/TicketServiceImpl.java:35-78 | the as-written loop from its initial state; a success means no negative quantity and the adult rule held |
| Overflow.OverflowBypassesLimit | cinema-tickets-java/src/main/java/uk/gov/dwp/uc/pairtest/TicketServiceImpl.java:53-57 | as written, ADULT×1 then ADULT×(2^31−1) passes the limit test, pays 0 and reserves −2^31 seats; the unbounded check rejects it with MAX_TICKETS_EXCEEDED |
| Overflow.AsWrittenStep | cinema-tickets-java/src/main/java/uk/gov/dwp/uc/pairtest/TicketServiceImpl.java:59-72 | in 32-bit arithmetic an accepted line advances the loop with the exact sums: nothing wraps while the seats stay within 20 |
| Overflow.AsWrittenAgreesFrom | cinema-tickets-java/src/main/java/uk/gov/dwp/uc/pairtest/TicketServiceImpl.java:44-78 | from any point reached by accepting every earlier line, the 32-bit and the unbounded scan decide the same if no quantity exceeds 2^31−21 |
| Overflow.AsWrittenAgrees | cinema-tickets-java/src/main/java/uk/gov/dwp/uc/pairtest/TicketServiceImpl.java:44-78 | the 32-bit and the unbounded scan agree on every order whose quantities are at most 2^31−21 |
| Scenarios.NullRequestsRejected | cinema-tickets-java/src/test/java/uk/gov/dwp/uc/pairtest/TicketServiceImplTest.java:57-77 | a null array fails with MISSING_TICKET_REQUEST and calls no port |
| Scenarios.EmptyRequestsRejected | cinema-tickets-java/src/test/java/uk/gov/dwp/uc/pairtest/TicketServiceImplTest.java:79-98 | an empty array fails with MISSING_TICKET_REQUEST and calls no port |
| Scenarios.MoreThanMaxTicketsRejected | cinema-tickets-java/src/test/java/uk/gov/dwp/uc/pairtest/TicketServiceImplTest.java:100-124 | ADULT×20, CHILD×1, INFANT×1 fails with MAX_TICKETS_EXCEEDED |
| Scenarios.ChildAndInfantWithoutAdultRejected | cinema-tickets-java/src/test/java/uk/gov/dwp/uc/pairtest/TicketServiceImplTest.java:126-149 | CHILD×1, INFANT×1 fails with MISSING_ADULT_TICKET |
| Scenarios.ChildWithoutAdultRejected | cinema-tickets-java/src/test/java/uk/gov/dwp/uc/pairtest/TicketServiceImplTest.java:151-173 | CHILD×1 fails with MISSING_ADULT_TICKET |
| Scenarios.InfantWithoutAdultRejected | cinema-tickets-java/src/test/java/uk/gov/dwp/uc/pairtest/TicketServiceImplTest.java:175-197 | INFANT×1 fails with MISSING_ADULT_TICKET |
| Scenarios.AdultAndChildAccepted | cinema-tickets-java/src/test/java/uk/gov/dwp/uc/pairtest/TicketServiceImplTest.java:199-209 | account 123 with ADULT×2, CHILD×1 pays 50, then reserves 3 |
| Scenarios.AdultAndInfantAccepted | cinema-tickets-java/src/test/java/uk/gov/dwp/uc/pairtest/TicketServiceImplTest.java:211-221 | account 123 with ADULT×2, INFANT×1 pays 40, then reserves 2 |
| Scenarios.AdultChildAndInfantAccepted | cinema-tickets-java/src/test/java/uk/gov/dwp/uc/pairtest/TicketServiceImplTest.java:223-234 | account 123 with ADULT×2, CHILD×1, INFANT×1 pays 50, then reserves 3 |
| Scenarios.ZeroAccountIdRejected | cinema-tickets-java/src/test/java/uk/gov/dwp/uc/pairtest/TicketServiceImplTest.java:236-259 | account 0 with ADULT×2 fails with INVALID_ACCOUNT_ID |
| Scenarios.InfantsNotCountedTowardsLimit | cinema-tickets-java/src/main/java/uk/gov/dwp/uc/pairtest/TicketServiceImpl.java:53-72 | ADULT×10, INFANT×10, INFANT×10 (30 tickets) pays 200 and reserves 10 |
| Scenarios.InfantLineAboveLimitRejected | cinema-tickets-java/src/main/java/uk/gov/dwp/uc/pairtest/TicketServiceImpl.java:53-57 | a lone INFANT×21 line fails with MAX_TICKETS_EXCEEDED, before the adult rule is looked at; ADULT×0, INFANT×20 sits on the limit and pays 0, reserving 0 seats |
| Scenarios.ZeroAdultLineCountsAsAdult | cinema-tickets-java/src/main/java/uk/gov/dwp/uc/pairtest/TicketServiceImpl.java:63-78 | ADULT×0, CHILD×1 succeeds, paying 10 and reserving 1 |
| Scenarios.LineOrderMatters | cinema-tickets-java/src/main/java/uk/gov/dwp/uc/pairtest/TicketServiceImpl.java:53-72 | ADULT×10, INFANT×15 fails with MAX_TICKETS_EXCEEDED, but INFANT×15, ADULT×10 pays 200 and reserves 10 |
| Scenarios.FirstViolationDecides | cinema-tickets-java/src/main/java/uk/gov/dwp/uc/pairtest/TicketServiceImpl.java:48-57 | ADULT×21, CHILD×−1 fails with MAX_TICKETS_EXCEEDED; CHILD×−1, ADULT×21 fails with INVALID_TICKET_QUANTITY |

## Left out

- Exception messages and the two constructors of `InvalidPurchaseException`
  that set no error code: only the code is modelled.
- A request line whose type is null. The Java constructor accepts one; it
  passes the checks at lines 49 and 54 and then fails with a
  NullPointerException at line 60 or at the `switch` of line 63. The closed
  `TicketType` datatype has no null value.
- A null `accountId` and a null array element. Both fail inside the JVM
  (unboxing at line 91, dereference at line 45), not by a modelled check.
- The payment and seat-reservation services are external. Each call is
  recorded in one shared ghost trace on the service object, instead of on two
  separate collaborator objects, so that the relative order of the calls is
  kept.
- Failures thrown by the ports themselves are not modelled. The source
  propagates them unchanged, and a reservation failure after a payment is not
  compensated.
- The `TicketService` interface and the `getOrDefault` fallback of the price
  map. The fallback cannot be reached for the closed enumeration, so the price
  table is a total function.
- TicketService.TicketServiceImpl.PurchaseTickets: uses unbounded arithmetic
  in the limit test at line 54, not Java's 32-bit sum. It therefore rejects
  the orders that the overflow in Findings lets through.

## Findings

| source | as written | input that shows it | evidently intended | confidence | as-written member | corrected member |
|---|---|---|---|---|---|---|
| cinema-tickets-java/src/main/java/uk/gov/dwp/uc/pairtest/TicketServiceImpl.java:54 | `numSeats + numTickets` is a 32-bit `int` sum, and the line's price and the seat count are accumulated in `int` | account 1, [ADULT×1, ADULT×2147483647]: the sum wraps to −2^31 and passes the limit; the call pays 0 and reserves −2^31 seats | the order is rejected with MAX_TICKETS_EXCEEDED, and an accepted order never reserves more than 20 seats | high (not executed) | Overflow.OverflowBypassesLimit | PurchaseProperties.SuccessTotals |
