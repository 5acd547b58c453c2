/** What a purchase promises, stated over the value-level model of `TicketService`. */
module PurchaseProperties {
  import opened Results
  import opened TicketTypeRequests
  import opened TicketService

  /** The three per-category counts add up to the total that the cap is checked against. */
  lemma {:induction false} CountsPartitionTotal(requests: seq<ValidRequest>)
    ensures CountOf(requests, Adult) + CountOf(requests, Child) + CountOf(requests, Infant) == TotalTickets(requests)
  {
    if requests != [] {
      CountsPartitionTotal(requests[..|requests| - 1]);
    }
  }

  /** Summing the price list and the seats request by request agrees with the per-category formula. */
  lemma {:induction false} CostAndSeatsFromCounts(requests: seq<ValidRequest>)
    ensures CostOf(requests) == CountOf(requests, Adult) * PRICE_ADULT_PENCE + CountOf(requests, Child) * PRICE_CHILD_PENCE
    ensures SeatsOf(requests) == CountOf(requests, Adult) + CountOf(requests, Child)
  {
    if requests != [] {
      CostAndSeatsFromCounts(requests[..|requests| - 1]);
    }
  }

  /** A missing or non-positive account id is rejected before anything else is looked at. */
  lemma InvalidAccountRejectedFirst(accountId: Option<int>, ticketTypeRequests: Option<seq<ValidRequest>>)
    requires accountId.None? || accountId.value <= 0
    ensures Purchase(accountId, ticketTypeRequests) == Err(InvalidAccount)
    ensures Effects(Purchase(accountId, ticketTypeRequests)) == []
  {
  }

  /** With a valid account, an absent or empty request list is rejected. */
  lemma NoRequestsRejected(accountId: Option<int>, ticketTypeRequests: Option<seq<ValidRequest>>)
    requires ValidAccount(accountId)
    requires ticketTypeRequests.None? || ticketTypeRequests.value == []
    ensures Purchase(accountId, ticketTypeRequests) == Err(NoRequests)
    ensures Effects(Purchase(accountId, ticketTypeRequests)) == []
  {
  }

  /** More than 25 tickets is rejected whatever the mix of categories. */
  lemma TooManyTicketsRejected(accountId: Option<int>, requests: seq<ValidRequest>)
    requires ValidAccount(accountId) && requests != []
    requires TotalTickets(requests) > MAX_TICKETS
    ensures Purchase(accountId, Some(requests)) == Err(TooManyTickets)
    ensures Effects(Purchase(accountId, Some(requests))) == []
  {
  }

  /**
   * Within the cap, the purchase fails for a missing adult exactly when no request is for
   * adults: every request has a quantity of at least one, so such an order always holds a
   * child or an infant.
   */
  lemma MissingAdultIff(accountId: Option<int>, requests: seq<ValidRequest>)
    requires ValidAccount(accountId) && requests != []
    requires TotalTickets(requests) <= MAX_TICKETS
    ensures Purchase(accountId, Some(requests)) == Err(MissingAdult)
            <==> forall k :: 0 <= k < |requests| ==> requests[k].GetTicketType() != Adult
  {
    CountsPartitionTotal(requests);
    CountOfZeroIff(requests, Adult);
  }

  /** With at least one adult, the purchase fails for infants exactly when they outnumber the adults. */
  lemma TooManyInfantsIff(accountId: Option<int>, requests: seq<ValidRequest>)
    requires ValidAccount(accountId) && requests != []
    requires TotalTickets(requests) <= MAX_TICKETS
    requires exists k :: 0 <= k < |requests| && requests[k].GetTicketType() == Adult
    ensures Purchase(accountId, Some(requests)) == Err(TooManyInfants)
            <==> CountOf(requests, Infant) > CountOf(requests, Adult)
  {
    CountOfZeroIff(requests, Adult);
  }

  /** The purchase succeeds exactly when every rule holds. */
  lemma SucceedsIff(accountId: Option<int>, ticketTypeRequests: Option<seq<ValidRequest>>)
    ensures Purchase(accountId, ticketTypeRequests).Ok?
            <==> && ValidAccount(accountId)
                 && ticketTypeRequests.Some? && ticketTypeRequests.value != []
                 && TotalTickets(ticketTypeRequests.value) <= MAX_TICKETS
                 && (exists k :: 0 <= k < |ticketTypeRequests.value| && ticketTypeRequests.value[k].GetTicketType() == Adult)
                 && CountOf(ticketTypeRequests.value, Infant) <= CountOf(ticketTypeRequests.value, Adult)
  {
    if ValidAccount(accountId) && ticketTypeRequests.Some? && ticketTypeRequests.value != [] {
      CountsPartitionTotal(ticketTypeRequests.value);
      CountOfZeroIff(ticketTypeRequests.value, Adult);
    }
  }

  /** A successful purchase charges the price list and reserves one seat per ticket that takes one. */
  lemma SuccessfulCharge(accountId: Option<int>, requests: seq<ValidRequest>, charge: Charge)
    requires Purchase(accountId, Some(requests)) == Ok(charge)
    ensures accountId == Some(charge.accountId)
    ensures charge.amountToPay == CostOf(requests)
    ensures charge.seatsToReserve == SeatsOf(requests)
  {
    CostAndSeatsFromCounts(requests);
  }

  /** A successful purchase lies within the cap and reserves every ticket but the infants'. */
  lemma SuccessfulChargeBounds(accountId: Option<int>, requests: seq<ValidRequest>, charge: Charge)
    requires Purchase(accountId, Some(requests)) == Ok(charge)
    ensures charge.seatsToReserve == TotalTickets(requests) - CountOf(requests, Infant)
    ensures 1 <= charge.seatsToReserve <= MAX_TICKETS
    ensures PRICE_ADULT_PENCE <= charge.amountToPay <= MAX_TICKETS * PRICE_ADULT_PENCE
  {
    var adults, children := CountOf(requests, Adult), CountOf(requests, Child);
    assert charge.seatsToReserve == adults + children;
    assert charge.amountToPay == adults * 2500 + children * 1500;
    CountsPartitionTotal(requests);
  }

  /** A successful purchase calls both services exactly once, payment first. */
  lemma SuccessfulChargeCalls(accountId: Option<int>, requests: seq<ValidRequest>, charge: Charge)
    requires Purchase(accountId, Some(requests)) == Ok(charge)
    ensures CollaboratorCalls(charge) == [Payment(charge.accountId, charge.amountToPay), Reservation(charge.accountId, charge.seatsToReserve)]
  {
    SuccessfulChargeBounds(accountId, requests, charge);
  }

  /** Adding infants to a successful order changes neither the price nor the seats. */
  lemma InfantsAreFree(accountId: Option<int>, requests: seq<ValidRequest>, infants: ValidRequest)
    requires infants.GetTicketType() == Infant
    requires Purchase(accountId, Some(requests)).Ok?
    requires Purchase(accountId, Some(requests + [infants])).Ok?
    ensures Purchase(accountId, Some(requests + [infants])) == Purchase(accountId, Some(requests))
  {
    CountOfAppend(requests, infants, Adult);
    CountOfAppend(requests, infants, Child);
  }

  /** Payment comes before reservation, each at most once, each with the account and a positive value. */
  lemma CollaboratorCallsOrder(charge: Charge)
    ensures var calls := CollaboratorCalls(charge);
            && |calls| <= 2
            && (Payment(charge.accountId, charge.amountToPay) in calls <==> charge.amountToPay > 0)
            && (Reservation(charge.accountId, charge.seatsToReserve) in calls <==> charge.seatsToReserve > 0)
            && (forall i :: 0 <= i < |calls| ==> calls[i] in {Payment(charge.accountId, charge.amountToPay), Reservation(charge.accountId, charge.seatsToReserve)})
            && (forall i, j :: 0 <= i < j < |calls| ==> calls[i].Payment? && calls[j].Reservation?)
  {
  }

  /** A malformed request in the argument list is reported whatever the account, and nothing is called. */
  lemma MalformedArgumentReportedFirst(accountId: Option<int>, args: seq<Argument>, k: nat)
    requires k < |args| && New(args[k].0, args[k].1).Err?
    ensures PurchaseWithArguments(accountId, args).Err?
    ensures PurchaseWithArguments(accountId, args).error.InvalidTicketRequest?
    ensures Effects(PurchaseWithArguments(accountId, args)) == []
  {
  }

  /** When every argument is well formed, the call is the purchase of the requests they build. */
  lemma WellFormedArgumentsPurchase(accountId: Option<int>, args: seq<Argument>)
    requires forall k :: 0 <= k < |args| ==> New(args[k].0, args[k].1).Ok?
    ensures NewAll(args).Ok?
    ensures PurchaseWithArguments(accountId, args) == Purchase(accountId, Some(NewAll(args).value))
  {
  }
}
