/** The scan of the request lines as written, in Java `int` arithmetic.
    The limit test adds the running seat count to the line's quantity in 32
    bits, so a quantity near the top of the `int` range wraps the sum
    negative and slips past the limit. The rest of the model evaluates the
    same test on unbounded integers; the two agree whenever no quantity is
    within 20 of the largest `int`. */
module Overflow {
  import opened JavaInts
  import opened Domain
  import opened PurchaseSpec

  /** Lines i.. of the loop with its four variables as they stand, every
      sum and product wrapped to 32 bits, followed by the adult check. Even
      as written, the scan throws only its own three codes, rejects every
      negative quantity it reaches, and keeps the adult rule: only the
      limit test is exposed to the wrap. */
  function ScanAsWrittenFrom(s: seq<TicketTypeRequest>, i: nat, numSeats: int32, totalPrice: int32,
                             hasAdultTicket: bool, hasChildOrInfantTicket: bool): (r: Result<Totals>)
    requires i <= |s|
    ensures r.Failure? ==> r.error != InvalidAccountId && r.error != MissingTicketRequest
    ensures r == Failure(InvalidTicketQuantity) ==> exists j :: i <= j < |s| && Quantity(s[j]) < 0
    ensures r.Success? ==> forall j :: i <= j < |s| ==> Quantity(s[j]) >= 0
    ensures r.Success? ==>
      hasAdultTicket || (exists j :: i <= j < |s| && s[j].ticketType == Adult) ||
      !(hasChildOrInfantTicket || exists j :: i <= j < |s| && s[j].ticketType != Adult)
    decreases |s| - i
  {
    if i == |s| then
      if hasChildOrInfantTicket && !hasAdultTicket then Failure(MissingAdultTicket)
      else Success(Totals(totalPrice, numSeats))
    else
      var numTickets := s[i].noOfTickets as int;
      var ticketType := s[i].ticketType;
      if numTickets < 0 then Failure(InvalidTicketQuantity)
      else if Wrap32(numSeats as int + numTickets) as int > MAX_TICKETS_PER_PURCHASE then Failure(MaxTicketsExceeded)
      else
        var price := Wrap32(totalPrice as int + Wrap32(numTickets * TicketPrice(ticketType)) as int);
        var seats := Wrap32(numSeats as int + if ticketType == Infant then 0 else numTickets);
        ScanAsWrittenFrom(s, i + 1, seats, price,
                          hasAdultTicket || ticketType == Adult,
                          hasChildOrInfantTicket || ticketType != Adult)
  }

  /** The loop of purchaseTickets and the adult check after it, as written,
      from the loop's initial state. */
  function ScanAsWritten(s: seq<TicketTypeRequest>): (r: Result<Totals>)
    ensures r.Success? ==> (forall j :: 0 <= j < |s| ==> Quantity(s[j]) >= 0) && (HasAdult(s) || !HasChildOrInfant(s))
  {
    ScanAsWrittenFrom(s, 0, 0, 0, false, false)
  }

  /** One adult and then 2^31 - 1 adults: the 32-bit sum 1 + (2^31 - 1)
      wraps to -2^31, which passes the limit test; the price wraps to 0 and
      the seat count to -2^31. With unbounded sums the order is rejected. */
  lemma OverflowBypassesLimit()
    ensures ScanAsWritten([TicketTypeRequest(Adult, 1), TicketTypeRequest(Adult, 0x7FFF_FFFF)])
         == Success(Totals(0, -0x8000_0000))
    ensures ScanRequests([TicketTypeRequest(Adult, 1), TicketTypeRequest(Adult, 0x7FFF_FFFF)])
         == Failure(MaxTicketsExceeded)
  {
    var s := [TicketTypeRequest(Adult, 1), TicketTypeRequest(Adult, 0x7FFF_FFFF)];
    assert s[..1] == [s[0]];
    assert !LineAccepted(s, 1);
  }

  /** From any point of the loop reached by accepting every earlier line,
      the as-written scan and the unbounded one decide the same, provided no
      quantity comes within 20 of the largest Java int. */
  lemma {:induction false} AsWrittenAgreesFrom(s: seq<TicketTypeRequest>, i: nat, numSeats: int32, totalPrice: int32,
                                               hasAdultTicket: bool, hasChildOrInfantTicket: bool)
    requires i <= |s|
    requires forall j :: 0 <= j < |s| ==> Quantity(s[j]) <= INT32_MAX - MAX_TICKETS_PER_PURCHASE
    requires forall j :: 0 <= j < i ==> LineAccepted(s, j)
    requires numSeats as int == SeatSum(s[..i]) && totalPrice as int == PriceSum(s[..i])
    requires hasAdultTicket == HasAdult(s[..i])
    requires hasChildOrInfantTicket == HasChildOrInfant(s[..i])
    ensures ScanAsWrittenFrom(s, i, numSeats, totalPrice, hasAdultTicket, hasChildOrInfantTicket) == ScanRequests(s)
    decreases |s| - i
  {
    AcceptedPrefixBounds(s, i);
    if i == |s| {
      assert s[..|s|] == s;
      assert FirstRejectedFrom(s, 0) == None;
    } else if !LineAccepted(s, i) {
      assert FirstRejectedFrom(s, 0) == Some(i);
    } else {
      var t := s[i].ticketType;
      SumsAppend(s, i);
      FlagsAppend(s, i);
      AcceptedPrefixBounds(s, i + 1);
      var seats := SeatSum(s[..i + 1]) as int32;
      var price := PriceSum(s[..i + 1]) as int32;
      AsWrittenStep(s, i, numSeats, totalPrice, hasAdultTicket, hasChildOrInfantTicket, seats, price);
      AsWrittenAgreesFrom(s, i + 1, seats, price, hasAdultTicket || t == Adult, hasChildOrInfantTicket || t != Adult);
    }
  }

  /** An accepted line, as written, moves the loop to the next line with
      the exact sums: nothing wraps while the seats stay within 20. */
  lemma AsWrittenStep(s: seq<TicketTypeRequest>, i: nat, numSeats: int32, totalPrice: int32,
                      hasAdultTicket: bool, hasChildOrInfantTicket: bool, seats: int32, price: int32)
    requires i < |s| && LineAccepted(s, i)
    requires numSeats as int == SeatSum(s[..i]) && 0 <= numSeats as int
    requires 0 <= totalPrice as int <= MAX_PRICE_PER_SEAT * MAX_TICKETS_PER_PURCHASE
    requires seats as int == numSeats as int + SeatsOf(s[i])
    requires price as int == totalPrice as int + LinePrice(s[i])
    ensures ScanAsWrittenFrom(s, i, numSeats, totalPrice, hasAdultTicket, hasChildOrInfantTicket)
         == ScanAsWrittenFrom(s, i + 1, seats, price,
                              hasAdultTicket || s[i].ticketType == Adult,
                              hasChildOrInfantTicket || s[i].ticketType != Adult)
  {
    var q := Quantity(s[i]);
    assert 0 <= q <= MAX_TICKETS_PER_PURCHASE;
    assert Wrap32(numSeats as int + q) as int == numSeats as int + q;
    assert 0 <= LinePrice(s[i]) <= MAX_PRICE_PER_SEAT * MAX_TICKETS_PER_PURCHASE;
    assert Wrap32(LinePrice(s[i])) as int == LinePrice(s[i]);
    assert Wrap32(totalPrice as int + LinePrice(s[i])) == price;
    assert Wrap32(numSeats as int + SeatsOf(s[i])) == seats;
  }

  /** The as-written scan and the unbounded one decide the same on every
      order whose quantities stay 20 below the largest Java int. */
  lemma AsWrittenAgrees(s: seq<TicketTypeRequest>)
    requires forall j :: 0 <= j < |s| ==> Quantity(s[j]) <= INT32_MAX - MAX_TICKETS_PER_PURCHASE
    ensures ScanAsWritten(s) == ScanRequests(s)
  {
    assert s[..0] == [];
    AsWrittenAgreesFrom(s, 0, 0, 0, false, false);
  }
}
