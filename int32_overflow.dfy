/**
 * The purchase as the original computes it, with Java's 32-bit `int` arithmetic: every sum
 * and product wraps around modulo 2^32. For ordinary quantities it is the purchase of
 * `TicketService`; for huge ones the wrapped total can slip under the cap.
 */
module Int32Overflow {
  import opened Results
  import opened TicketTypeRequests
  import opened TicketService

  const INT_MIN := -0x8000_0000
  const INT_MAX := 0x7fff_ffff

  const INT_RANGE := 0x1_0000_0000

  /**
   * A Java `int` result: the one value in [INT_MIN, INT_MAX] that differs from the
   * mathematical value by a multiple of 2^32 (wrap-around, not saturation).
   */
  function Wrap(x: int): (r: int)
    ensures INT_MIN <= r <= INT_MAX
    ensures (x - r) % INT_RANGE == 0
    ensures INT_MIN <= x <= INT_MAX ==> r == x
  {
    (x - INT_MIN) % 0x1_0000_0000 + INT_MIN
  }

  /** Differing by a multiple of 2^32 is preserved by adding the same amount to both sides. */
  lemma CongruentStep(wrapped: int, exact: int, q: int, r: int)
    requires (wrapped - exact) % INT_RANGE == 0
    requires (wrapped + q - r) % INT_RANGE == 0
    ensures (r - (exact + q)) % INT_RANGE == 0
  {
    var k1, k2 := (wrapped - exact) / INT_RANGE, (wrapped + q - r) / INT_RANGE;
    assert wrapped - exact == INT_RANGE * k1;
    assert wrapped + q - r == INT_RANGE * k2;
    assert r - (exact + q) == INT_RANGE * (k1 - k2);
  }

  /**
   * The stream sum of the quantities, wrapping at each addition: an `int` that differs from
   * the true total by a multiple of 2^32.
   */
  function TotalTicketsAsWritten(requests: seq<ValidRequest>): (total: int)
    ensures INT_MIN <= total <= INT_MAX
    ensures (total - TotalTickets(requests)) % INT_RANGE == 0
  {
    if requests == [] then 0
    else
      var prefix, last := requests[..|requests| - 1], requests[|requests| - 1];
      var total := Wrap(TotalTicketsAsWritten(prefix) + last.GetNoOfTickets());
      CongruentStep(TotalTicketsAsWritten(prefix), TotalTickets(prefix), last.GetNoOfTickets(), total);
      total
  }

  /**
   * A per-category counter updated with `+=`, wrapping at each addition: an `int` that differs
   * from the true count by a multiple of 2^32.
   */
  function CountOfAsWritten(requests: seq<ValidRequest>, t: Type): (count: int)
    ensures INT_MIN <= count <= INT_MAX
    ensures (count - CountOf(requests, t)) % INT_RANGE == 0
  {
    if requests == [] then 0
    else
      var prefix, last := requests[..|requests| - 1], requests[|requests| - 1];
      var q := if last.GetTicketType() == t then last.GetNoOfTickets() else 0;
      var count := Wrap(CountOfAsWritten(prefix, t) + q);
      CongruentStep(CountOfAsWritten(prefix, t), CountOf(prefix, t), q, count);
      count
  }

  /** The purchase with every integer operation of the original wrapped to 32 bits. */
  function PurchaseAsWritten(accountId: Option<int>, ticketTypeRequests: Option<seq<ValidRequest>>): (r: Result<Charge, Error>)
    ensures !ValidAccount(accountId) ==> r == Err(InvalidAccount)
    ensures r.Ok? ==> accountId == Some(r.value.accountId)
    ensures r.Ok? ==> INT_MIN <= r.value.seatsToReserve <= INT_MAX && INT_MIN <= r.value.amountToPay <= INT_MAX
    ensures r.Ok? ==> ticketTypeRequests.Some? && ticketTypeRequests.value != []
                      && TotalTicketsAsWritten(ticketTypeRequests.value) <= MAX_TICKETS
  {
    if !ValidAccount(accountId) then Err(InvalidAccount)
    else if ticketTypeRequests.None? || |ticketTypeRequests.value| == 0 then Err(NoRequests)
    else
      var requests := ticketTypeRequests.value;
      if TotalTicketsAsWritten(requests) > MAX_TICKETS then Err(TooManyTickets)
      else
        var adults, children, infants :=
          CountOfAsWritten(requests, Adult), CountOfAsWritten(requests, Child), CountOfAsWritten(requests, Infant);
        if (children > 0 || infants > 0) && adults == 0 then Err(MissingAdult)
        else if infants > adults then Err(TooManyInfants)
        else Ok(Charge(accountId.value, Wrap(adults + children),
                       Wrap(Wrap(adults * PRICE_ADULT_PENCE) + Wrap(children * PRICE_CHILD_PENCE))))
  }

  /**
   * Two requests of INT_MAX adults and one of 4 adults: the wrapped total is 2, so the
   * original takes 5000 pence for 2^32 + 2 adult tickets, where the cap should refuse them.
   */
  lemma CapBypassedByWrapAround()
    ensures var requests: seq<ValidRequest> :=
              [TicketTypeRequest(Adult, INT_MAX), TicketTypeRequest(Adult, INT_MAX), TicketTypeRequest(Adult, 4)];
            && TotalTickets(requests) == 0x1_0000_0002
            && PurchaseAsWritten(Some(1), Some(requests)) == Ok(Charge(1, 2, 5000))
            && Purchase(Some(1), Some(requests)) == Err(TooManyTickets)
  {
    var requests: seq<ValidRequest> :=
      [TicketTypeRequest(Adult, INT_MAX), TicketTypeRequest(Adult, INT_MAX), TicketTypeRequest(Adult, 4)];
    var one, two := requests[..1], requests[..2];
    assert two[..1] == one && one[..0] == [];
    assert TotalTickets(one) == INT_MAX && TotalTickets(two) == 2 * INT_MAX;
    assert TotalTicketsAsWritten(one) == INT_MAX;
    assert TotalTicketsAsWritten(two) == Wrap(2 * INT_MAX) == -2;
    assert TotalTicketsAsWritten(requests) == 2;
    forall t ensures CountOfAsWritten(requests, t) == if t == Adult then 2 else 0 {
      assert CountOfAsWritten(one, t) == if t == Adult then INT_MAX else 0;
      assert CountOfAsWritten(two, t) == if t == Adult then -2 else 0;
    }
  }

  /** While partial sums stay small, the wrapped counters are the mathematical ones. */
  lemma {:induction false} SmallOrdersDoNotWrap(requests: seq<ValidRequest>)
    requires TotalTickets(requests) <= INT_MAX
    ensures TotalTicketsAsWritten(requests) == TotalTickets(requests)
    ensures forall t :: CountOfAsWritten(requests, t) == CountOf(requests, t)
  {
    if requests != [] {
      var prefix := requests[..|requests| - 1];
      SmallOrdersDoNotWrap(prefix);
      forall t ensures CountOfAsWritten(requests, t) == CountOf(requests, t) {
        assert CountOf(requests, t) <= TotalTickets(requests);
      }
    }
  }

  /** For every order whose true total fits in an `int`, the original behaves as the model says. */
  lemma AsWrittenAgreesWithoutOverflow(accountId: Option<int>, ticketTypeRequests: Option<seq<ValidRequest>>)
    requires ticketTypeRequests.Some? ==> TotalTickets(ticketTypeRequests.value) <= INT_MAX
    ensures PurchaseAsWritten(accountId, ticketTypeRequests) == Purchase(accountId, ticketTypeRequests)
  {
    if ticketTypeRequests.Some? {
      SmallOrdersDoNotWrap(ticketTypeRequests.value);
    }
  }
}
