/** TicketServiceImpl: validates an order, prices it in one pass over its
    lines, and only then calls the payment port and the seat-reservation
    port, in that order. The two ports are external; their calls are
    recorded, in order, in a ghost trace. */
module TicketService {
  import opened JavaInts
  import opened Domain
  import opened PurchaseSpec

  /** validatePurchaseRequest: the account id first, then the presence of
      at least one request line. A failed guard decides the purchase; a
      passed one leaves the decision to the scan of the lines. */
  function ValidatePurchaseRequest(accountId: int64, ticketTypeRequests: Option<seq<TicketTypeRequest>>): (r: Outcome)
    ensures r.Fail? ==> r == OutcomeOf(PurchaseOutcome(accountId, ticketTypeRequests))
    ensures r.Pass? <==> ticketTypeRequests.Some? && ticketTypeRequests.value != [] &&
                         PurchaseOutcome(accountId, ticketTypeRequests) == ScanRequests(ticketTypeRequests.value)
    ensures r.Pass? <==> accountId > 0 && ticketTypeRequests.Some? && ticketTypeRequests.value != []
  {
    if accountId <= 0 then Fail(InvalidAccountId)
    else if ticketTypeRequests.None? || |ticketTypeRequests.value| == 0 then Fail(MissingTicketRequest)
    else Pass
  }

  /** Pass when the purchase went through, otherwise the code it threw. */
  function OutcomeOf(r: Result<Totals>): Outcome {
    match r
    case Success(_) => Pass
    case Failure(e) => Fail(e)
  }

  class TicketServiceImpl {
    /** Every call made on the payment and seat-reservation ports so far. */
    ghost var portCalls: seq<PortCall>

    constructor ()
      ensures portCalls == []
    {
      portCalls := [];
    }

    /** paymentService.makePayment */
    method MakePayment(accountId: int64, amountToPay: int32)
      modifies this
      ensures portCalls == old(portCalls) + [Payment(accountId, amountToPay)]
    {
      portCalls := portCalls + [Payment(accountId, amountToPay)];
    }

    /** reservationService.reserveSeat */
    method ReserveSeat(accountId: int64, totalSeatsToAllocate: int32)
      modifies this
      ensures portCalls == old(portCalls) + [Reservation(accountId, totalSeatsToAllocate)]
    {
      portCalls := portCalls + [Reservation(accountId, totalSeatsToAllocate)];
    }

    /** purchaseTickets: throws exactly the error PurchaseOutcome names, and
        calls the ports exactly when it names no error, with its totals. */
    method PurchaseTickets(accountId: int64, ticketTypeRequests: Option<seq<TicketTypeRequest>>)
      returns (outcome: Outcome)
      modifies this
      ensures outcome == OutcomeOf(PurchaseOutcome(accountId, ticketTypeRequests))
      ensures portCalls == old(portCalls) + PortCallsOf(accountId, PurchaseOutcome(accountId, ticketTypeRequests))
    {
      var hasAdultTicket := false;
      var hasChildOrInfantTicket := false;
      var totalPrice := 0;
      var numSeats := 0;

      var valid := ValidatePurchaseRequest(accountId, ticketTypeRequests);
      if valid.Fail? {
        return valid;
      }
      var requests := ticketTypeRequests.value;

      for i := 0 to |requests|
        invariant numSeats == SeatSum(requests[..i])
        invariant totalPrice == PriceSum(requests[..i])
        invariant 0 <= numSeats <= MAX_TICKETS_PER_PURCHASE
        invariant 0 <= totalPrice <= MAX_PRICE_PER_SEAT * numSeats
        invariant hasAdultTicket == HasAdult(requests[..i])
        invariant hasChildOrInfantTicket == HasChildOrInfant(requests[..i])
        invariant forall j :: 0 <= j < i ==> LineAccepted(requests, j)
        invariant portCalls == old(portCalls)
      {
        var numTickets := requests[i].noOfTickets as int;
        var ticketType := requests[i].ticketType;

        if numTickets < 0 {
          assert !LineAccepted(requests, i);
          assert FirstRejectedFrom(requests, 0) == Some(i);
          return Fail(InvalidTicketQuantity);
        }

        if numSeats + numTickets > MAX_TICKETS_PER_PURCHASE {
          assert !LineAccepted(requests, i);
          assert FirstRejectedFrom(requests, 0) == Some(i);
          return Fail(MaxTicketsExceeded);
        }

        SumsAppend(requests, i);
        FlagsAppend(requests, i);
        totalPrice := totalPrice + numTickets * TicketPrice(ticketType);

        match ticketType
        case Adult =>
          hasAdultTicket := true;
          numSeats := numSeats + numTickets;
        case Child | Infant =>
          hasChildOrInfantTicket := true;
          numSeats := numSeats + if ticketType == Child then numTickets else 0;
      }

      assert requests[..|requests|] == requests;
      assert FirstRejectedFrom(requests, 0) == None;
      if hasChildOrInfantTicket && !hasAdultTicket {
        return Fail(MissingAdultTicket);
      }

      MakePayment(accountId, totalPrice as int32);
      ReserveSeat(accountId, numSeats as int32);
      outcome := Pass;
    }
  }
}
