/** The ticket repository (src/repositories/ticketRepository.js): the base
    repository over the ticket list, with ticket defaults on `create`, finders
    by user, raffle and payment status, and `markAsWinner`. */
module TicketRepository {
  import opened Common
  import opened Repository
  import opened Entities

  /** The record `create` stores. The generated id `ticket_<time>_<random>` is
      `"ticket_" + suffix`; `isWinner`, `paymentDate` and `transactionId` are
      forced to their initial values whatever the caller supplied, and
      `createdAt` is the creation time. */
  function NewTicket(data: TicketFields, suffix: string, now: int): (t: Ticket)
    ensures t.id == "ticket_" + suffix && t.createdAt == Some(now) && t.updatedAt == None
    ensures !t.body.isWinner && t.body.paymentDate == None && t.body.transactionId == None
    ensures t.body.raffle == data.raffle && t.body.user == data.user
    ensures t.body.ticketNumbers == data.ticketNumbers && t.body.quantity == data.quantity
    ensures t.body.totalAmount == data.totalAmount && t.body.paymentStatus == data.paymentStatus
    ensures t.body.paymentMethod == data.paymentMethod
  {
    Row("ticket_" + suffix, Some(now), None,
        data.(isWinner := false, paymentDate := None, transactionId := None))
  }

  /** `create(ticketData)`: the base `create` keeps the ticket's own id and
      creation time, so the stored record is exactly `NewTicket`. */
  method CreateTicket(repo: Repository<TicketFields>, data: TicketFields, suffix: string, now: int)
    returns (t: Ticket)
    modifies repo
    ensures t == NewTicket(data, suffix, now)
    ensures repo.items == old(repo.items) + [t]
  {
    t := repo.Create(NewTicket(data, suffix, now), true, "", now);
  }

  /** `findByUser(userId)`. */
  function FindByUser(tickets: seq<Ticket>, userId: string): (r: seq<Ticket>)
    ensures forall j :: 0 <= j < |r| ==> r[j] in tickets && r[j].body.user == userId
    ensures forall j :: 0 <= j < |tickets| && tickets[j].body.user == userId ==> tickets[j] in r
  {
    Filter(tickets, (t: Ticket) => t.body.user == userId)
  }

  /** `findByUserAndRaffle(userId, raffleId)`: exactly the tickets of that user
      on that raffle. */
  function FindByUserAndRaffle(tickets: seq<Ticket>, userId: string, raffleId: string): (r: seq<Ticket>)
    ensures forall j :: 0 <= j < |r| ==> r[j] in tickets && r[j].body.user == userId && r[j].body.raffle == raffleId
    ensures forall j :: 0 <= j < |tickets| && tickets[j].body.user == userId && tickets[j].body.raffle == raffleId ==>
              tickets[j] in r
  {
    Filter(tickets, (t: Ticket) => t.body.user == userId && t.body.raffle == raffleId)
  }

  /** The user's tickets on a raffle are the raffle's tickets that belong to
      the user, in the same order: filtering by both criteria at once is
      filtering by raffle and then by user. */
  lemma {:induction false} FindByUserAndRaffleSplits(tickets: seq<Ticket>, userId: string, raffleId: string)
    ensures FindByUserAndRaffle(tickets, userId, raffleId) == FindByUser(TicketsOfRaffle(tickets, raffleId), userId)
  {
    if tickets != [] {
      var init := tickets[..|tickets| - 1];
      var last := tickets[|tickets| - 1];
      var both := (t: Ticket) => t.body.user == userId && t.body.raffle == raffleId;
      var byUser := (t: Ticket) => t.body.user == userId;
      FindByUserAndRaffleSplits(init, userId, raffleId);
      FilterLast(tickets, both);
      TicketsOfRaffleAppend(init, last, raffleId);
      assert tickets == init + [last];
      var ofRaffle := TicketsOfRaffle(init, raffleId);
      if last.body.raffle == raffleId {
        FilterLast(ofRaffle + [last], byUser);
        assert (ofRaffle + [last])[..|ofRaffle|] == ofRaffle;
      }
    }
  }

  /** The `markAsWinner` patch: `{ isWinner: true }`. */
  function SetWinner(b: TicketFields): (r: TicketFields)
    ensures r.isWinner && r.(isWinner := b.isWinner) == b
  {
    b.(isWinner := true)
  }

  /** `markAsWinner(ticketId)`: the one ticket becomes a winner and is stamped;
      every other record is unchanged. */
  method MarkAsWinner(repo: Repository<TicketFields>, ticketId: string, now: int) returns (r: Option<Ticket>)
    modifies repo
    ensures repo.items == UpdateRows(old(repo.items), ticketId, SetWinner, Some(now))
    ensures r == UpdatedRow(old(repo.items), ticketId, SetWinner, Some(now))
  {
    r := repo.Update(ticketId, SetWinner, now);
  }

  /** The patch `confirmTicketPayment` applies: `{ paymentStatus: 'paid',
      paymentDate: now, transactionId }`. */
  function PayPatch(transactionId: Option<string>, now: int): TicketFields -> TicketFields {
    (b: TicketFields) => b.(paymentStatus := Paid, paymentDate := Some(now), transactionId := transactionId)
  }

  /** The patch `cancelTicket` applies: `{ paymentStatus: 'cancelled' }`. */
  function CancelPatch(b: TicketFields): (r: TicketFields)
    ensures r.paymentStatus == PaymentStatus.Cancelled && r.(paymentStatus := b.paymentStatus) == b
  {
    b.(paymentStatus := PaymentStatus.Cancelled)
  }
}
