/** The purchase rules stated over the reference definition: which error a
    call throws and when, what a successful call hands to the ports, and
    why those totals are what they are. */
module PurchaseProperties {
  import opened JavaInts
  import opened Domain
  import opened PurchaseSpec

  /** An order that passes every check after the account id. */
  predicate Admissible(s: seq<TicketTypeRequest>) {
    |s| > 0
    && (forall j :: 0 <= j < |s| ==> LineAccepted(s, j))
    && (HasAdult(s) || !HasChildOrInfant(s))
  }

  /** Line i is the first line a scan rejects. */
  predicate FirstRejected(s: seq<TicketTypeRequest>, i: int) {
    0 <= i < |s| && !LineAccepted(s, i) && forall j :: 0 <= j < i ==> LineAccepted(s, j)
  }

  /** The account id is checked before anything else: a null or empty
      request array does not change the error, and no port is called.
      Conversely, the scan of the lines never throws INVALID_ACCOUNT_ID. */
  lemma AccountIdCheckedFirst(accountId: int64, requests: Option<seq<TicketTypeRequest>>)
    ensures accountId <= 0 ==> PurchaseOutcome(accountId, requests) == Failure(InvalidAccountId)
    ensures accountId <= 0 ==> PortCallsOf(accountId, PurchaseOutcome(accountId, requests)) == []
    ensures PurchaseOutcome(accountId, requests) == Failure(InvalidAccountId) ==> accountId <= 0
  {
    if accountId > 0 && requests.Some? && requests.value != [] {
      ScanNeverThrowsUpFrontCodes(requests.value);
    }
  }

  /** With a valid account id, a null or empty request array is rejected
      before any line is looked at. Conversely, the scan of the lines never
      throws MISSING_TICKET_REQUEST. */
  lemma MissingRequestsRejected(accountId: int64, requests: Option<seq<TicketTypeRequest>>)
    ensures accountId > 0 && (requests.None? || requests.value == []) ==>
      PurchaseOutcome(accountId, requests) == Failure(MissingTicketRequest)
    ensures accountId > 0 && (requests.None? || requests.value == []) ==>
      PortCallsOf(accountId, PurchaseOutcome(accountId, requests)) == []
    ensures PurchaseOutcome(accountId, requests) == Failure(MissingTicketRequest) ==>
      accountId > 0 && (requests.None? || requests.value == [])
  {
    if accountId > 0 && requests.Some? && requests.value != [] {
      ScanNeverThrowsUpFrontCodes(requests.value);
    }
  }

  /** The loop of purchaseTickets and the adult check after it throw only
      their own three codes, never those of the guard. */
  lemma ScanNeverThrowsUpFrontCodes(s: seq<TicketTypeRequest>)
    ensures ScanRequests(s) != Failure(InvalidAccountId)
    ensures ScanRequests(s) != Failure(MissingTicketRequest)
  {
    match FirstRejectedFrom(s, 0)
    case Some(i) =>
      assert ScanRequests(s) == Failure(LineError(s[i]));
    case None =>
  }

  /** The first rejected line decides the error, whatever the later lines
      hold and even if no adult is present; within that line a negative
      quantity is reported before the limit. */
  lemma FirstRejectedLineWins(accountId: int64, s: seq<TicketTypeRequest>, i: int)
    requires accountId > 0
    requires FirstRejected(s, i)
    ensures PurchaseOutcome(accountId, Some(s)) ==
      Failure(if Quantity(s[i]) < 0 then InvalidTicketQuantity else MaxTicketsExceeded)
  {
    assert FirstRejectedFrom(s, 0) == Some(i);
  }

  /** A scan rejects some line exactly when the order is not admissible for
      a reason other than the adult rule. */
  lemma ScanRejectsIff(s: seq<TicketTypeRequest>)
    ensures FirstRejectedFrom(s, 0).Some? <==> exists i :: FirstRejected(s, i)
    ensures FirstRejectedFrom(s, 0).Some? ==> FirstRejected(s, FirstRejectedFrom(s, 0).value)
  {
    var k := FirstRejectedFrom(s, 0);
    if k.Some? {
      assert FirstRejected(s, k.value);
    }
  }

  /** INVALID_TICKET_QUANTITY is thrown exactly when the account id is
      positive, the array is present and some line has a negative quantity
      while every line before it passed both checks. */
  lemma InvalidQuantityIff(accountId: int64, requests: Option<seq<TicketTypeRequest>>)
    ensures PurchaseOutcome(accountId, requests) == Failure(InvalidTicketQuantity) <==>
      accountId > 0 && requests.Some? && exists i :: FirstRejected(requests.value, i) && Quantity(requests.value[i]) < 0
  {
    if accountId > 0 && requests.Some? && |requests.value| > 0 {
      var s := requests.value;
      ScanRejectsIff(s);
      if exists i :: FirstRejected(s, i) && Quantity(s[i]) < 0 {
        var i :| FirstRejected(s, i) && Quantity(s[i]) < 0;
        FirstRejectedLineWins(accountId, s, i);
      } else if FirstRejectedFrom(s, 0).Some? {
        FirstRejectedLineWins(accountId, s, FirstRejectedFrom(s, 0).value);
      }
    }
  }

  /** MAX_TICKETS_EXCEEDED is thrown exactly when the account id is
      positive, the array is present and its first rejected line has a
      quantity that is not negative: the seats of the earlier lines (adults
      and children only) plus this line's raw quantity, of any type, exceed
      20. */
  lemma MaxTicketsExceededIff(accountId: int64, requests: Option<seq<TicketTypeRequest>>)
    ensures PurchaseOutcome(accountId, requests) == Failure(MaxTicketsExceeded) <==>
      accountId > 0 && requests.Some? && exists i :: FirstRejected(requests.value, i) && Quantity(requests.value[i]) >= 0
    ensures PurchaseOutcome(accountId, requests) == Failure(MaxTicketsExceeded) ==>
      exists i :: 0 <= i < |requests.value| &&
        SeatSum(requests.value[..i]) + Quantity(requests.value[i]) > MAX_TICKETS_PER_PURCHASE
  {
    if accountId > 0 && requests.Some? && |requests.value| > 0 {
      var s := requests.value;
      ScanRejectsIff(s);
      if exists i :: FirstRejected(s, i) && Quantity(s[i]) >= 0 {
        var i :| FirstRejected(s, i) && Quantity(s[i]) >= 0;
        FirstRejectedLineWins(accountId, s, i);
      } else if FirstRejectedFrom(s, 0).Some? {
        FirstRejectedLineWins(accountId, s, FirstRejectedFrom(s, 0).value);
      }
    }
  }

  /** MISSING_ADULT_TICKET is thrown exactly when the account id is
      positive, the array is present, every line passed, and some CHILD or
      INFANT line but no ADULT line is present, counting lines of quantity
      zero. */
  lemma MissingAdultIff(accountId: int64, requests: Option<seq<TicketTypeRequest>>)
    ensures PurchaseOutcome(accountId, requests) == Failure(MissingAdultTicket) <==>
      accountId > 0 && requests.Some? &&
      (forall j :: 0 <= j < |requests.value| ==> LineAccepted(requests.value, j)) &&
      HasChildOrInfant(requests.value) && !HasAdult(requests.value)
  {
    if accountId > 0 && requests.Some? && |requests.value| > 0 {
      var s := requests.value;
      ScanRejectsIff(s);
      if FirstRejectedFrom(s, 0).Some? {
        FirstRejectedLineWins(accountId, s, FirstRejectedFrom(s, 0).value);
      }
    }
  }

  /** A purchase succeeds exactly when the account id is positive, the
      request array is present and the order is admissible. */
  lemma SuccessIff(accountId: int64, requests: Option<seq<TicketTypeRequest>>)
    ensures PurchaseOutcome(accountId, requests).Success? <==>
      accountId > 0 && requests.Some? && Admissible(requests.value)
  {
    if accountId > 0 && requests.Some? && |requests.value| > 0 {
      ScanRejectsIff(requests.value);
      if FirstRejectedFrom(requests.value, 0).Some? {
        assert !LineAccepted(requests.value, FirstRejectedFrom(requests.value, 0).value);
      }
    }
  }

  /** On success the ports receive the exact sums over the order: total
      price and seats; seats stay within the limit, the price within twenty
      per seat, and no single line asked for more than 20 tickets, infants
      included. */
  lemma SuccessTotals(accountId: int64, s: seq<TicketTypeRequest>)
    requires PurchaseOutcome(accountId, Some(s)).Success?
    ensures PurchaseOutcome(accountId, Some(s)).value.totalPrice as int == PriceSum(s)
    ensures PurchaseOutcome(accountId, Some(s)).value.numSeats as int == SeatSum(s)
    ensures 0 <= SeatSum(s) <= MAX_TICKETS_PER_PURCHASE
    ensures 0 <= PriceSum(s) <= MAX_PRICE_PER_SEAT * SeatSum(s)
    ensures forall j :: 0 <= j < |s| ==> 0 <= Quantity(s[j]) <= MAX_TICKETS_PER_PURCHASE
  {
    SuccessIff(accountId, Some(s));
    AcceptedPrefixBounds(s, |s|);
    assert s[..|s|] == s;
    forall j | 0 <= j < |s|
      ensures 0 <= Quantity(s[j]) <= MAX_TICKETS_PER_PURCHASE
    {
      assert LineAccepted(s, j);
      AcceptedPrefixBounds(s, j);
    }
  }

  /** Sum of the quantities of the lines of type t. */
  function TypeCount(s: seq<TicketTypeRequest>, t: TicketType): int {
    if s == [] then 0
    else TypeCount(s[..|s| - 1], t) + (if s[|s| - 1].ticketType == t then Quantity(s[|s| - 1]) else 0)
  }

  /** The totals by ticket type: the price is 20 per adult and 10 per child,
      infants are free, and the seats are the adults plus the children. */
  lemma {:induction false} TotalsByType(s: seq<TicketTypeRequest>)
    ensures PriceSum(s) == 20 * TypeCount(s, Adult) + 10 * TypeCount(s, Child)
    ensures SeatSum(s) == TypeCount(s, Adult) + TypeCount(s, Child)
  {
    if s != [] {
      TotalsByType(s[..|s| - 1]);
    }
  }
}
