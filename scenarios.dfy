/** Concrete orders: the cases the repository's unit tests check, and the
    edge cases of the seat-based, line-by-line limit test. */
module Scenarios {
  import opened JavaInts
  import opened Domain
  import opened PurchaseSpec
  import TicketService

  function Line(t: TicketType, n: int32): TicketTypeRequest {
    TicketTypeRequest(t, n)
  }

  lemma NullRequestsRejected()
    ensures PurchaseOutcome(1, None) == Failure(MissingTicketRequest)
    ensures PortCallsOf(1, PurchaseOutcome(1, None)) == []
  {
  }

  lemma EmptyRequestsRejected()
    ensures PurchaseOutcome(1, Some([])) == Failure(MissingTicketRequest)
    ensures PortCallsOf(1, PurchaseOutcome(1, Some([]))) == []
  {
  }

  /** Twenty adults fill the limit, so the child line after them is
      rejected. */
  lemma MoreThanMaxTicketsRejected()
    ensures PurchaseOutcome(1, Some([Line(Adult, 20), Line(Child, 1), Line(Infant, 1)]))
         == Failure(MaxTicketsExceeded)
  {
    var s := [Line(Adult, 20), Line(Child, 1), Line(Infant, 1)];
    assert s[..1] == [s[0]];
    assert LineAccepted(s, 0) && !LineAccepted(s, 1);
  }

  lemma ChildAndInfantWithoutAdultRejected()
    ensures PurchaseOutcome(1, Some([Line(Child, 1), Line(Infant, 1)])) == Failure(MissingAdultTicket)
  {
    var s := [Line(Child, 1), Line(Infant, 1)];
    assert s[..1] == [s[0]];
    assert LineAccepted(s, 0) && LineAccepted(s, 1);
  }

  lemma ChildWithoutAdultRejected()
    ensures PurchaseOutcome(1, Some([Line(Child, 1)])) == Failure(MissingAdultTicket)
  {
    assert LineAccepted([Line(Child, 1)], 0);
  }

  lemma InfantWithoutAdultRejected()
    ensures PurchaseOutcome(1, Some([Line(Infant, 1)])) == Failure(MissingAdultTicket)
  {
    assert LineAccepted([Line(Infant, 1)], 0);
  }

  lemma AdultAndChildAccepted()
    ensures PortCallsOf(123, PurchaseOutcome(123, Some([Line(Adult, 2), Line(Child, 1)])))
         == [Payment(123, 50), Reservation(123, 3)]
  {
    var s := [Line(Adult, 2), Line(Child, 1)];
    assert s[..1] == [s[0]];
    assert LineAccepted(s, 0) && LineAccepted(s, 1);
  }

  lemma AdultAndInfantAccepted()
    ensures PortCallsOf(123, PurchaseOutcome(123, Some([Line(Adult, 2), Line(Infant, 1)])))
         == [Payment(123, 40), Reservation(123, 2)]
  {
    var s := [Line(Adult, 2), Line(Infant, 1)];
    assert s[..1] == [s[0]];
    assert LineAccepted(s, 0) && LineAccepted(s, 1);
  }

  lemma AdultChildAndInfantAccepted()
    ensures PortCallsOf(123, PurchaseOutcome(123, Some([Line(Adult, 2), Line(Child, 1), Line(Infant, 1)])))
         == [Payment(123, 50), Reservation(123, 3)]
  {
    var s := [Line(Adult, 2), Line(Child, 1), Line(Infant, 1)];
    assert s[..1] == [s[0]] && s[..2] == [s[0], s[1]] && s[..2][..1] == [s[0]];
    assert LineAccepted(s, 0) && LineAccepted(s, 1) && LineAccepted(s, 2);
  }

  lemma ZeroAccountIdRejected()
    ensures PurchaseOutcome(0, Some([Line(Adult, 2)])) == Failure(InvalidAccountId)
  {
  }

  /** Infant lines are capped one at a time but never add to the running
      total: thirty tickets go through. */
  lemma InfantsNotCountedTowardsLimit()
    ensures PortCallsOf(1, PurchaseOutcome(1, Some([Line(Adult, 10), Line(Infant, 10), Line(Infant, 10)])))
         == [Payment(1, 200), Reservation(1, 10)]
  {
    var s := [Line(Adult, 10), Line(Infant, 10), Line(Infant, 10)];
    assert s[..1] == [s[0]] && s[..2] == [s[0], s[1]] && s[..2][..1] == [s[0]];
    assert LineAccepted(s, 0) && LineAccepted(s, 1) && LineAccepted(s, 2);
  }

  /** A lone infant line is held to the limit by its raw quantity, and
      that check comes before the adult rule; twenty infants behind a
      zero-quantity adult line go through. */
  lemma InfantLineAboveLimitRejected()
    ensures PurchaseOutcome(1, Some([Line(Infant, 21)])) == Failure(MaxTicketsExceeded)
    ensures PortCallsOf(1, PurchaseOutcome(1, Some([Line(Adult, 0), Line(Infant, 20)])))
         == [Payment(1, 0), Reservation(1, 0)]
  {
    assert !LineAccepted([Line(Infant, 21)], 0);
    var s := [Line(Adult, 0), Line(Infant, 20)];
    assert s[..1] == [s[0]];
    assert LineAccepted(s, 0) && LineAccepted(s, 1);
  }

  /** An adult line of quantity zero still satisfies the adult rule. */
  lemma ZeroAdultLineCountsAsAdult()
    ensures PortCallsOf(1, PurchaseOutcome(1, Some([Line(Adult, 0), Line(Child, 1)])))
         == [Payment(1, 10), Reservation(1, 1)]
  {
    var s := [Line(Adult, 0), Line(Child, 1)];
    assert s[..1] == [s[0]];
    assert LineAccepted(s, 0) && LineAccepted(s, 1);
  }

  /** The order of the lines matters: the infants are checked against the
      adults' seats only when they come after them. */
  lemma LineOrderMatters()
    ensures PurchaseOutcome(1, Some([Line(Adult, 10), Line(Infant, 15)])) == Failure(MaxTicketsExceeded)
    ensures PortCallsOf(1, PurchaseOutcome(1, Some([Line(Infant, 15), Line(Adult, 10)])))
         == [Payment(1, 200), Reservation(1, 10)]
  {
    var s := [Line(Adult, 10), Line(Infant, 15)];
    assert s[..1] == [s[0]];
    assert LineAccepted(s, 0) && !LineAccepted(s, 1);
    var r := [Line(Infant, 15), Line(Adult, 10)];
    assert r[..1] == [r[0]];
    assert LineAccepted(r, 0) && LineAccepted(r, 1);
  }

  /** The first rejected line decides: a negative quantity after an
      over-limit line is never looked at, and the reverse. */
  lemma FirstViolationDecides()
    ensures PurchaseOutcome(1, Some([Line(Adult, 21), Line(Child, -1)])) == Failure(MaxTicketsExceeded)
    ensures PurchaseOutcome(1, Some([Line(Child, -1), Line(Adult, 21)])) == Failure(InvalidTicketQuantity)
  {
    assert !LineAccepted([Line(Adult, 21), Line(Child, -1)], 0);
    assert !LineAccepted([Line(Child, -1), Line(Adult, 21)], 0);
  }

  /** The first valid-purchase unit test, run against the class: from the
      contract of PurchaseTickets alone (and the matching lemma above), a
      caller learns that the call returned normally and that the ports saw
      exactly a payment of 50 and then a reservation of 3 seats. */
  method PurchaseAdultAndChild() {
    var service := new TicketService.TicketServiceImpl();
    var outcome := service.PurchaseTickets(123, Some([Line(Adult, 2), Line(Child, 1)]));
    AdultAndChildAccepted();
    assert outcome == Pass;
    assert service.portCalls == [Payment(123, 50), Reservation(123, 3)];
  }
}
