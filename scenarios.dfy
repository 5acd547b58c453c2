/**
 * The repository's test scenarios, checked against the contract of `PurchaseTickets`: each method
 * builds a fresh call log, makes one purchase and states what the log holds afterwards.
 */
module Scenarios {
  import opened Results
  import opened TicketTypeRequests
  import opened TicketService

  const VALID_ID := 1
  const INVALID_ID := 0

  method SuccessfulPurchaseAdultsOnly()
  {
    var services := new Collaborators();
    var ticketService := new TicketServiceImpl(services);
    var outcome := ticketService.PurchaseTickets(Some(VALID_ID), Some([TicketTypeRequest(Adult, 3)]));
    assert outcome == Returned;
    assert services.calls == [Payment(VALID_ID, 3 * 2500), Reservation(VALID_ID, 3)];
  }

  method SuccessfulPurchaseMaxTickets()
  {
    var services := new Collaborators();
    var ticketService := new TicketServiceImpl(services);
    var outcome := ticketService.PurchaseTickets(Some(VALID_ID), Some([TicketTypeRequest(Adult, 25)]));
    assert outcome == Returned;
    assert services.calls == [Payment(VALID_ID, 25 * 2500), Reservation(VALID_ID, 25)];
  }

  method SuccessfulPurchaseAdultsChildrenAndInfants()
  {
    var services := new Collaborators();
    var ticketService := new TicketServiceImpl(services);
    var requests: seq<ValidRequest> :=
      [TicketTypeRequest(Adult, 2), TicketTypeRequest(Child, 3), TicketTypeRequest(Infant, 2)];
    assert requests[..1] == [requests[0]] && requests[..2][..1] == requests[..1] && requests[..3][..2] == requests[..2];
    assert requests[..3] == requests;
    assert TotalTickets(requests[..1]) == 2 && TotalTickets(requests[..2]) == 5 && TotalTickets(requests) == 7;
    assert CountOf(requests[..1], Adult) == 2 && CountOf(requests[..1], Child) == 0 && CountOf(requests[..1], Infant) == 0;
    assert CountOf(requests[..2], Adult) == 2 && CountOf(requests[..2], Child) == 3 && CountOf(requests[..2], Infant) == 0;
    assert CountOf(requests, Adult) == 2 && CountOf(requests, Child) == 3 && CountOf(requests, Infant) == 2;
    var outcome := ticketService.PurchaseTickets(Some(VALID_ID), Some(requests));
    assert outcome == Returned;
    assert services.calls == [Payment(VALID_ID, 2 * 2500 + 3 * 1500), Reservation(VALID_ID, 5)];
  }

  method InfantsDoNotPayOrRequireSeats()
  {
    var services := new Collaborators();
    var ticketService := new TicketServiceImpl(services);
    var requests: seq<ValidRequest> := [TicketTypeRequest(Adult, 1), TicketTypeRequest(Infant, 1)];
    assert requests[..1] == [requests[0]];
    var outcome := ticketService.PurchaseTickets(Some(VALID_ID), Some(requests));
    assert outcome == Returned;
    assert services.calls == [Payment(VALID_ID, 2500), Reservation(VALID_ID, 1)];
  }

  method CannotBuyWithoutAdult()
  {
    var services := new Collaborators();
    var ticketService := new TicketServiceImpl(services);
    var outcome := ticketService.PurchaseTickets(Some(VALID_ID), Some([TicketTypeRequest(Child, 1)]));
    assert outcome == Threw(MissingAdult);
    outcome := ticketService.PurchaseTickets(Some(VALID_ID), Some([TicketTypeRequest(Infant, 1)]));
    assert outcome == Threw(MissingAdult);
    var requests: seq<ValidRequest> := [TicketTypeRequest(Child, 1), TicketTypeRequest(Infant, 1)];
    assert requests[..1] == [requests[0]];
    outcome := ticketService.PurchaseTickets(Some(VALID_ID), Some(requests));
    assert outcome == Threw(MissingAdult);
    assert services.calls == [];
  }

  method CannotBuyMoreThanMaxTickets()
  {
    var services := new Collaborators();
    var ticketService := new TicketServiceImpl(services);
    var outcome := ticketService.PurchaseTickets(Some(VALID_ID), Some([TicketTypeRequest(Adult, 26)]));
    assert outcome == Threw(TooManyTickets);
    assert services.calls == [];
  }

  method InvalidAccountIdRejected()
  {
    var services := new Collaborators();
    var ticketService := new TicketServiceImpl(services);
    var outcome := ticketService.PurchaseTickets(Some(INVALID_ID), Some([TicketTypeRequest(Adult, 1)]));
    assert outcome == Threw(InvalidAccount);
    // A single null argument binds to the account id and leaves the request array empty.
    outcome := ticketService.PurchaseTickets(None, Some([]));
    assert outcome == Threw(InvalidAccount);
    assert services.calls == [];
  }

  method PurchaseWithNoRequests()
  {
    var services := new Collaborators();
    var ticketService := new TicketServiceImpl(services);
    var outcome := ticketService.PurchaseTickets(Some(VALID_ID), Some([]));
    assert outcome == Threw(NoRequests);
    outcome := ticketService.PurchaseTickets(Some(VALID_ID), None);
    assert outcome == Threw(NoRequests);
    assert services.calls == [];
  }

  /** Requests with quantity 0, quantity -1 or no category throw while the arguments are built. */
  method MalformedRequestsRejected()
  {
    assert PurchaseWithArguments(Some(VALID_ID), [(Some(Adult), 0)]) == Err(InvalidTicketRequest(QuantityBelowOne));
    assert PurchaseWithArguments(Some(VALID_ID), [(Some(Adult), -1)]) == Err(InvalidTicketRequest(QuantityBelowOne));
    assert PurchaseWithArguments(Some(VALID_ID), [(None, 1)]) == Err(InvalidTicketRequest(NullTicketType));
    assert PurchaseWithArguments(Some(VALID_ID), []) == Err(NoRequests);
  }
}
