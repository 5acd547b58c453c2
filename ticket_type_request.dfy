/**
 * The immutable ticket request value: a closed category and a quantity, checked once
 * when it is built.
 */
module TicketTypeRequests {
  import opened Results

  /** The three ticket categories; the enumeration is closed, so every `match` on it is exhaustive. */
  datatype Type = Adult | Child | Infant

  /**
   * A ticket request. Both fields are final and there are no setters, so a request is a value:
   * nothing can change it after construction.
   */
  datatype TicketTypeRequest = TicketTypeRequest(ticketType: Type, noOfTickets: int)
  {
    function GetNoOfTickets(): int { noOfTickets }

    function GetTicketType(): Type { ticketType }
  }

  /** The requests the constructor lets through: the quantity is at least one. */
  type ValidRequest = r: TicketTypeRequest | r.noOfTickets >= 1 witness TicketTypeRequest(Adult, 1)

  /** Why the constructor threw its invalid-request exception. */
  datatype Defect = NullTicketType | QuantityBelowOne

  /**
   * The constructor. A null category is reported before the quantity is looked at, so a null
   * category with quantity 0 reports the null category.
   */
  function New(ticketType: Option<Type>, noOfTickets: int): (r: Result<ValidRequest, Defect>)
    ensures r.Ok? <==> ticketType.Some? && noOfTickets >= 1
    ensures r.Ok? ==> r.value.GetTicketType() == ticketType.value && r.value.GetNoOfTickets() == noOfTickets
    ensures ticketType.None? ==> r == Err(NullTicketType)
    ensures ticketType.Some? && noOfTickets < 1 ==> r == Err(QuantityBelowOne)
  {
    if ticketType.None? then Err(NullTicketType)
    else if noOfTickets < 1 then Err(QuantityBelowOne)
    else Ok(TicketTypeRequest(ticketType.value, noOfTickets))
  }

  /** Every valid request is exactly what the constructor builds from its own getters. */
  lemma NewFromGetters(r: ValidRequest)
    ensures New(Some(r.GetTicketType()), r.GetNoOfTickets()) == Ok(r)
  {
  }

  /** A constructor argument list: a possibly null category and a quantity. */
  type Argument = (Option<Type>, int)

  /**
   * Builds the requests of a variable-argument call, left to right, as the caller evaluates
   * its `new` expressions: the first malformed argument throws and stops the rest.
   */
  function NewAll(args: seq<Argument>): (r: Result<seq<ValidRequest>, Defect>)
    ensures r.Ok? <==> forall k :: 0 <= k < |args| ==> New(args[k].0, args[k].1).Ok?
    ensures r.Ok? ==> |r.value| == |args|
    ensures r.Ok? ==> forall k :: 0 <= k < |args| ==> Ok(r.value[k]) == New(args[k].0, args[k].1)
    ensures r.Err? ==> exists k :: 0 <= k < |args| && New(args[k].0, args[k].1) == Err(r.error)
                                   && forall j :: 0 <= j < k ==> New(args[j].0, args[j].1).Ok?
  {
    if args == [] then Ok([])
    else
      match New(args[0].0, args[0].1)
      case Err(d) => Err(d)
      case Ok(first) =>
        match NewAll(args[1..])
        case Err(d) =>
          Err(d)
        case Ok(rest) => Ok([first] + rest)
  }
}
