/** The value types of the ticket service: the closed set of ticket types,
    the immutable request line, the five purchase error codes, and the
    success-or-error wrappers that stand for Java's exceptions and nulls. */
module Domain {
  import opened JavaInts

  /** TicketTypeRequest.Type: a closed enumeration. */
  datatype TicketType = Adult | Child | Infant

  /** One line of an order: a ticket type and a requested quantity (a Java
      `int`, so it may be negative). Immutable, like the Java class. */
  datatype TicketTypeRequest = TicketTypeRequest(ticketType: TicketType, noOfTickets: int32)

  /** The codes an InvalidPurchaseException carries. */
  datatype PurchaseErrorCode =
    | InvalidAccountId
    | MissingTicketRequest
    | InvalidTicketQuantity
    | MaxTicketsExceeded
    | MissingAdultTicket

  /** A possibly-null reference (the request array may be null). */
  datatype Option<+T> = None | Some(value: T)

  /** A `void` call that either returns normally or throws with a code. */
  datatype Outcome = Pass | Fail(error: PurchaseErrorCode)

  /** A computation that either yields a value or throws with a code. */
  datatype Result<+T> = Success(value: T) | Failure(error: PurchaseErrorCode)
}
