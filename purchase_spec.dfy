/** A closed-form reference definition of what one purchase call decides:
    the error it throws, or the totals it hands to the payment and
    seat-reservation ports. The imperative service in TicketService is
    proved to agree with it; the lemmas below state the purchase rules in
    terms of it. */
module PurchaseSpec {
  import opened JavaInts
  import opened Domain

  /** MAX_TICKETS_PER_PURCHASE. */
  const MAX_TICKETS_PER_PURCHASE: int := 20

  /** TICKET_PRICES, a total function on the closed set of types. */
  function TicketPrice(t: TicketType): nat {
    match t
    case Infant => 0
    case Child => 10
    case Adult => 20
  }

  /** Unit price times seats: the dearest ticket per seat is an adult's. */
  const MAX_PRICE_PER_SEAT: int := 20

  function Quantity(r: TicketTypeRequest): int {
    r.noOfTickets as int
  }

  /** Seats a line occupies: infants sit on an adult's lap. */
  function SeatsOf(r: TicketTypeRequest): int {
    if r.ticketType == Infant then 0 else Quantity(r)
  }

  function LinePrice(r: TicketTypeRequest): int {
    Quantity(r) * TicketPrice(r.ticketType)
  }

  /** Sum over the lines of quantity times unit price. */
  function PriceSum(s: seq<TicketTypeRequest>): int {
    if s == [] then 0 else PriceSum(s[..|s| - 1]) + LinePrice(s[|s| - 1])
  }

  /** Sum of the ADULT and CHILD quantities. */
  function SeatSum(s: seq<TicketTypeRequest>): int {
    if s == [] then 0 else SeatSum(s[..|s| - 1]) + SeatsOf(s[|s| - 1])
  }

  /** Some line is an ADULT line, whatever its quantity. */
  predicate HasAdult(s: seq<TicketTypeRequest>) {
    exists j :: 0 <= j < |s| && s[j].ticketType == Adult
  }

  /** Some line is a CHILD or INFANT line, whatever its quantity. */
  predicate HasChildOrInfant(s: seq<TicketTypeRequest>) {
    exists j :: 0 <= j < |s| && s[j].ticketType != Adult
  }

  /** Line i passes both per-line checks: its quantity is not negative, and
      the seats taken by the lines before it plus its own raw quantity (of
      whatever type) do not exceed the limit. */
  predicate LineAccepted(s: seq<TicketTypeRequest>, i: nat)
    requires i < |s|
  {
    Quantity(s[i]) >= 0 && SeatSum(s[..i]) + Quantity(s[i]) <= MAX_TICKETS_PER_PURCHASE
  }

  /** The code a rejected line throws: the quantity check runs first. */
  function LineError(r: TicketTypeRequest): PurchaseErrorCode {
    if Quantity(r) < 0 then InvalidTicketQuantity else MaxTicketsExceeded
  }

  /** The first rejected line at or after i, if there is one. */
  function FirstRejectedFrom(s: seq<TicketTypeRequest>, i: nat): (r: Option<nat>)
    requires i <= |s|
    ensures r.Some? ==> i <= r.value < |s| && !LineAccepted(s, r.value)
    ensures r.Some? ==> forall j :: i <= j < r.value ==> LineAccepted(s, j)
    ensures r.None? ==> forall j :: i <= j < |s| ==> LineAccepted(s, j)
    decreases |s| - i
  {
    if i == |s| then None
    else if !LineAccepted(s, i) then Some(i)
    else FirstRejectedFrom(s, i + 1)
  }

  /** The totals handed to the ports on success. */
  datatype Totals = Totals(totalPrice: int32, numSeats: int32)

  /** The decision taken after the up-front checks: the first rejected line
      wins, then the adult rule, and otherwise the summed totals. */
  function ScanRequests(s: seq<TicketTypeRequest>): Result<Totals> {
    match FirstRejectedFrom(s, 0)
    case Some(i) => Failure(LineError(s[i]))
    case None =>
      if HasChildOrInfant(s) && !HasAdult(s) then Failure(MissingAdultTicket)
      else
        AcceptedPrefixBounds(s, |s|);
        assert s[..|s|] == s;
        Success(Totals(PriceSum(s) as int32, SeatSum(s) as int32))
  }

  /** The whole purchase call: the account id is checked first, then the
      presence of the request array (None stands for a null array). */
  function PurchaseOutcome(accountId: int64, requests: Option<seq<TicketTypeRequest>>): Result<Totals> {
    if accountId <= 0 then Failure(InvalidAccountId)
    else if requests.None? || |requests.value| == 0 then Failure(MissingTicketRequest)
    else ScanRequests(requests.value)
  }

  /** A call on one of the two external ports. */
  datatype PortCall =
    | Payment(accountId: int64, amountToPay: int32)
    | Reservation(accountId: int64, totalSeatsToAllocate: int32)

  /** The port calls a purchase with this outcome makes: payment, then
      reservation, on success; none on an error. */
  function PortCallsOf(accountId: int64, r: Result<Totals>): seq<PortCall> {
    match r
    case Success(t) => [Payment(accountId, t.totalPrice), Reservation(accountId, t.numSeats)]
    case Failure(_) => []
  }

  /** Adding one line to a sequence adds its price and its seats. */
  lemma SumsAppend(s: seq<TicketTypeRequest>, n: nat)
    requires n < |s|
    ensures PriceSum(s[..n + 1]) == PriceSum(s[..n]) + LinePrice(s[n])
    ensures SeatSum(s[..n + 1]) == SeatSum(s[..n]) + SeatsOf(s[n])
  {
    assert s[..n + 1][..n] == s[..n];
  }

  /** Adding one line sets the adult flag or the child-or-infant flag by
      its type, whatever its quantity. */
  lemma FlagsAppend(s: seq<TicketTypeRequest>, n: nat)
    requires n < |s|
    ensures HasAdult(s[..n + 1]) == (HasAdult(s[..n]) || s[n].ticketType == Adult)
    ensures HasChildOrInfant(s[..n + 1]) == (HasChildOrInfant(s[..n]) || s[n].ticketType != Adult)
  {
    var p, q := s[..n], s[..n + 1];
    assert forall j :: 0 <= j < n ==> q[j] == p[j];
    assert q[n] == s[n];
  }

  /** While every line so far was accepted, the seats stay within the limit
      and the price is at most twenty per seat; in particular both fit in a
      Java int. */
  lemma {:induction false} AcceptedPrefixBounds(s: seq<TicketTypeRequest>, n: nat)
    requires n <= |s|
    requires forall j :: 0 <= j < n ==> LineAccepted(s, j)
    ensures 0 <= SeatSum(s[..n]) <= MAX_TICKETS_PER_PURCHASE
    ensures 0 <= PriceSum(s[..n]) <= MAX_PRICE_PER_SEAT * SeatSum(s[..n])
  {
    if n > 0 {
      AcceptedPrefixBounds(s, n - 1);
      SumsAppend(s, n - 1);
      assert LineAccepted(s, n - 1);
    }
  }
}
