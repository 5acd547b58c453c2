/**
 * The purchase validator and orchestrator: it checks the account and the requests, adds up
 * the tickets per category, works out seats and price, then asks the payment service and the
 * seat reservation service to act.
 *
 * Quantities and prices are mathematical integers here; the 32-bit `int` arithmetic of the
 * original can wrap around for huge quantities, which `Int32Overflow.PurchaseAsWritten` models.
 */
module TicketService {
  import opened Results
  import opened TicketTypeRequests

  const MAX_TICKETS := 25
  const PRICE_ADULT_PENCE := 2500
  const PRICE_CHILD_PENCE := 1500

  /** The errors a purchase can end with; the last is thrown while its arguments are built. */
  datatype Error =
    | InvalidAccount
    | NoRequests
    | TooManyTickets
    | MissingAdult
    | TooManyInfants
    | InvalidTicketRequest(defect: Defect)

  /** One call into a third-party service: a payment in pence, or a seat reservation. */
  datatype Call = Payment(accountId: int, amountInPence: int) | Reservation(accountId: int, seats: int)

  /** What a valid purchase asks the outside services to do. */
  datatype Charge = Charge(accountId: int, seatsToReserve: int, amountToPay: int)

  /** An account id must be present and strictly positive. */
  predicate ValidAccount(accountId: Option<int>)
  {
    accountId.Some? && accountId.value > 0
  }

  /** The sum of all quantities, whatever their category. */
  function TotalTickets(requests: seq<ValidRequest>): (total: int)
    ensures total >= |requests|
  {
    if requests == [] then 0
    else TotalTickets(requests[..|requests| - 1]) + requests[|requests| - 1].GetNoOfTickets()
  }

  /** The sum of the quantities of category `t`. */
  function CountOf(requests: seq<ValidRequest>, t: Type): (count: int)
    ensures 0 <= count <= TotalTickets(requests)
  {
    if requests == [] then 0
    else
      var last := requests[|requests| - 1];
      CountOf(requests[..|requests| - 1], t) + if last.GetTicketType() == t then last.GetNoOfTickets() else 0
  }

  /** Appending a request adds its quantity to the count of its own category only. */
  lemma CountOfAppend(requests: seq<ValidRequest>, r: ValidRequest, t: Type)
    ensures CountOf(requests + [r], t) == CountOf(requests, t) + if r.GetTicketType() == t then r.GetNoOfTickets() else 0
  {
    assert (requests + [r])[..|requests|] == requests;
  }

  /** A category's count is zero exactly when no request has that category. */
  lemma {:induction false} CountOfZeroIff(requests: seq<ValidRequest>, t: Type)
    ensures CountOf(requests, t) == 0 <==> forall k :: 0 <= k < |requests| ==> requests[k].GetTicketType() != t
  {
    if requests != [] {
      var prefix := requests[..|requests| - 1];
      CountOfZeroIff(prefix, t);
      assert forall k :: 0 <= k < |prefix| ==> prefix[k] == requests[k];
    }
  }

  /** The price list in pence: infants pay nothing. */
  function Price(t: Type): int
  {
    match t
    case Adult => PRICE_ADULT_PENCE
    case Child => PRICE_CHILD_PENCE
    case Infant => 0
  }

  /** Seats per ticket: an infant sits on an adult's lap. */
  function SeatsPerTicket(t: Type): int
  {
    match t
    case Adult => 1
    case Child => 1
    case Infant => 0
  }

  /** The price of an order, request by request from the price list. */
  function CostOf(requests: seq<ValidRequest>): int
  {
    if requests == [] then 0
    else
      var last := requests[|requests| - 1];
      CostOf(requests[..|requests| - 1]) + Price(last.GetTicketType()) * last.GetNoOfTickets()
  }

  /** The seats an order occupies, request by request. */
  function SeatsOf(requests: seq<ValidRequest>): int
  {
    if requests == [] then 0
    else
      var last := requests[|requests| - 1];
      SeatsOf(requests[..|requests| - 1]) + SeatsPerTicket(last.GetTicketType()) * last.GetNoOfTickets()
  }

  /**
   * The outcome of a purchase, as a value: the checks in their fixed order, then the charge.
   * `PurchaseTickets` is proved to behave as this says.
   */
  function Purchase(accountId: Option<int>, ticketTypeRequests: Option<seq<ValidRequest>>): Result<Charge, Error>
  {
    if !ValidAccount(accountId) then Err(InvalidAccount)
    else if ticketTypeRequests.None? || |ticketTypeRequests.value| == 0 then Err(NoRequests)
    else
      var requests := ticketTypeRequests.value;
      if TotalTickets(requests) > MAX_TICKETS then Err(TooManyTickets)
      else
        var adults, children, infants := CountOf(requests, Adult), CountOf(requests, Child), CountOf(requests, Infant);
        if (children > 0 || infants > 0) && adults == 0 then Err(MissingAdult)
        else if infants > adults then Err(TooManyInfants)
        else Ok(Charge(accountId.value, adults + children, adults * PRICE_ADULT_PENCE + children * PRICE_CHILD_PENCE))
  }

  /** The service calls a charge leads to: payment first, then reservation, each only for a positive value. */
  function CollaboratorCalls(charge: Charge): seq<Call>
  {
    (if charge.amountToPay > 0 then [Payment(charge.accountId, charge.amountToPay)] else [])
    + (if charge.seatsToReserve > 0 then [Reservation(charge.accountId, charge.seatsToReserve)] else [])
  }

  /** The service calls a purchase outcome leads to: none when it failed. */
  function Effects(r: Result<Charge, Error>): seq<Call>
  {
    if r.Ok? then CollaboratorCalls(r.value) else []
  }

  /**
   * A call as the caller writes it, with the requests built in its argument list: a malformed
   * request throws before the purchase starts, so it is reported whatever the account is.
   */
  function PurchaseWithArguments(accountId: Option<int>, args: seq<Argument>): (r: Result<Charge, Error>)
    ensures (r.Err? && r.error.InvalidTicketRequest?) <==> exists k :: 0 <= k < |args| && New(args[k].0, args[k].1).Err?
    ensures r.Ok? ==> |args| > 0 && forall k :: 0 <= k < |args| ==> New(args[k].0, args[k].1).Ok?
  {
    match NewAll(args)
    case Err(d) => Err(InvalidTicketRequest(d))
    case Ok(requests) => Purchase(accountId, Some(requests))
  }

  /** How a call ends in Java: it returns normally, or it throws. */
  datatype Outcome = Returned | Threw(error: Error)

  /**
   * The payment service and the seat reservation service as their caller sees them: every
   * call is appended to one shared log, so the order of the two kinds of call is observable.
   */
  class Collaborators {
    var calls: seq<Call>

    constructor ()
      ensures calls == []
    {
      calls := [];
    }

    method MakePayment(accountId: int, totalAmountToPay: int)
      modifies this
      ensures calls == old(calls) + [Payment(accountId, totalAmountToPay)]
    {
      calls := calls + [Payment(accountId, totalAmountToPay)];
    }

    method ReserveSeat(accountId: int, totalSeatsToAllocate: int)
      modifies this
      ensures calls == old(calls) + [Reservation(accountId, totalSeatsToAllocate)]
    {
      calls := calls + [Reservation(accountId, totalSeatsToAllocate)];
    }
  }

  class TicketServiceImpl {
    const services: Collaborators

    constructor (services: Collaborators)
      ensures this.services == services
    {
      this.services := services;
    }

    /**
     * Validates a purchase and, when it is valid, pays and reserves. Every failure is thrown
     * before any service is called, so it leaves the log as it was.
     */
    method PurchaseTickets(accountId: Option<int>, ticketTypeRequests: Option<seq<ValidRequest>>) returns (outcome: Outcome)
      modifies services
      ensures outcome == Returned <==> Purchase(accountId, ticketTypeRequests).Ok?
      ensures outcome.Threw? ==> Purchase(accountId, ticketTypeRequests) == Err(outcome.error)
      ensures outcome.Threw? ==> services.calls == old(services.calls)
      ensures services.calls == old(services.calls) + Effects(Purchase(accountId, ticketTypeRequests))
    {
      if !ValidAccount(accountId) {
        return Threw(InvalidAccount);
      }
      if ticketTypeRequests.None? || |ticketTypeRequests.value| == 0 {
        return Threw(NoRequests);
      }
      var requests := ticketTypeRequests.value;

      var totalTickets := TotalTickets(requests);
      if totalTickets > MAX_TICKETS {
        return Threw(TooManyTickets);
      }

      var adultCount, childCount, infantCount := 0, 0, 0;
      for i := 0 to |requests|
        invariant adultCount == CountOf(requests[..i], Adult)
        invariant childCount == CountOf(requests[..i], Child)
        invariant infantCount == CountOf(requests[..i], Infant)
        invariant services.calls == old(services.calls)
      {
        var req := requests[i];
        assert requests[..i + 1] == requests[..i] + [req];
        CountOfAppend(requests[..i], req, Adult);
        CountOfAppend(requests[..i], req, Child);
        CountOfAppend(requests[..i], req, Infant);
        match req.GetTicketType()
        case Adult =>
          adultCount := adultCount + req.GetNoOfTickets();
        case Child =>
          childCount := childCount + req.GetNoOfTickets();
        case Infant =>
          infantCount := infantCount + req.GetNoOfTickets();
      }
      assert requests[..|requests|] == requests;
      assert adultCount == CountOf(requests, Adult) && childCount == CountOf(requests, Child)
        && infantCount == CountOf(requests, Infant);

      if (childCount > 0 || infantCount > 0) && adultCount == 0 {
        return Threw(MissingAdult);
      }
      if infantCount > adultCount {
        return Threw(TooManyInfants);
      }

      var seatsToReserve := adultCount + childCount;
      var amountToPay := adultCount * PRICE_ADULT_PENCE + childCount * PRICE_CHILD_PENCE;

      if amountToPay > 0 {
        services.MakePayment(accountId.value, amountToPay);
      }
      if seatsToReserve > 0 {
        services.ReserveSeat(accountId.value, seatsToReserve);
      }
      assert Purchase(accountId, ticketTypeRequests) == Ok(Charge(accountId.value, seatsToReserve, amountToPay));
      outcome := Returned;
    }
  }
}
