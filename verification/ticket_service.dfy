/** The ticket service (src/services/ticketService.js): buying tickets,
    cancelling a reservation, reading one ticket and confirming its payment.
    Each state-changing operation is a function from the store before to the
    answer and the store after, and a method over the repositories proved to
    compute it. The service's repository is taken as wired (see
    base_service.dfy). */
module TicketService {
  import opened Common
  import opened Repository
  import opened Entities
  import opened TicketNumbers
  import opened TicketRepository
  import opened Stats

  /** What `buyTickets` answers: the reserved ticket and the next step. */
  datatype Purchase = Purchase(ticket: Ticket, nextStep: string)

  /** The per-person cap, when `raffle.settings?.maxTicketsPerPerson` is truthy. */
  function CapOf(settings: Settings): (cap: Option<int>)
    ensures cap.Some? <==> settings.maxTicketsPerPerson.Some? && settings.maxTicketsPerPerson.value != 0
    ensures cap.Some? ==> cap.value == settings.maxTicketsPerPerson.value
  {
    if settings.maxTicketsPerPerson.Some? && settings.maxTicketsPerPerson.value != 0
    then settings.maxTicketsPerPerson else None
  }

  /** How many tickets the user already holds on the raffle: only paid
      tickets count. */
  function HeldByUser(tickets: seq<Ticket>, userId: string, raffleId: string): int {
    SumQuantity(PaidTickets(FindByUserAndRaffle(tickets, userId, raffleId)))
  }

  /** `ticketNumbers.filter(num => !availableNumbers.includes(num))`. */
  function Unavailable(numbers: seq<string>, available: seq<string>): (r: seq<string>)
    ensures forall i :: 0 <= i < |r| ==> r[i] in numbers && r[i] !in available
    ensures forall i :: 0 <= i < |numbers| && numbers[i] !in available ==> numbers[i] in r
  {
    if numbers == [] then []
    else
      var init := Unavailable(numbers[..|numbers| - 1], available);
      var last := numbers[|numbers| - 1];
      assert numbers == numbers[..|numbers| - 1] + [last];
      if last !in available then init + [last] else init
  }

  /** The ticket `buyTickets` creates from the checked request. */
  function ReservedTicket(raffle: Raffle, quantity: int, paymentMethod: string, userId: string,
                          numbers: seq<string>, suffix: string, now: int): Ticket
  {
    NewTicket(TicketFields(raffle.id, userId, numbers, quantity, quantity * raffle.body.ticketPrice,
                           PaymentStatus.Pending, paymentMethod, false, None, None), suffix, now)
  }

  /** The checks `buyTickets` makes on a raffle it found, in their order: not
      on sale, too few numbers left (reporting how many are left), the
      per-person cap, and drawn numbers no longer free. The first failing one
      is the answer; `None` when all pass. */
  function BuyCheck(status: RaffleStatus, cap: Option<int>, available: seq<string>, held: int,
                    quantity: int, numbers: seq<string>): Option<Error>
  {
    if status != RaffleStatus.Active then Some(RaffleNotOnSale)
    else if |available| < quantity then Some(InsufficientTickets(|available|))
    else if cap.Some? && held + quantity > cap.value then Some(PerPersonLimit(cap.value))
    else if |Unavailable(numbers, available)| > 0 then Some(NumbersUnavailable)
    else None
  }

  /** Each check is reported exactly when every earlier one passed and it
      fails; all pass exactly when the raffle is on sale, enough numbers are
      left, the cap allows the quantity, and every drawn number is free. */
  lemma BuyCheckOrder(status: RaffleStatus, cap: Option<int>, available: seq<string>, held: int,
                      quantity: int, numbers: seq<string>)
    ensures var e := BuyCheck(status, cap, available, held, quantity, numbers);
            (e == Some(RaffleNotOnSale) <==> status != RaffleStatus.Active) &&
            (e == Some(InsufficientTickets(|available|)) <==> status == RaffleStatus.Active && |available| < quantity) &&
            (e.Some? && e.value.PerPersonLimit? <==>
               status == RaffleStatus.Active && |available| >= quantity && cap.Some? && held + quantity > cap.value) &&
            (e == Some(NumbersUnavailable) <==>
               status == RaffleStatus.Active && |available| >= quantity && !(cap.Some? && held + quantity > cap.value) &&
               exists i :: 0 <= i < |numbers| && numbers[i] !in available) &&
            (e.None? <==>
               status == RaffleStatus.Active && |available| >= quantity && !(cap.Some? && held + quantity > cap.value) &&
               forall i :: 0 <= i < |numbers| ==> numbers[i] in available)
  {
    var u := Unavailable(numbers, available);
    if |u| > 0 {
      var k :| 0 <= k < |numbers| && numbers[k] == u[0];
    }
    if exists i :: 0 <= i < |numbers| && numbers[i] !in available {
      var i :| 0 <= i < |numbers| && numbers[i] !in available;
      assert numbers[i] in u;
    }
  }

  /** The check over the store: the raffle's availability and the buyer's
      paid holdings. */
  function BuyCheckIn(db: Db, raffle: Raffle, quantity: int, userId: string, numbers: seq<string>): Option<Error> {
    BuyCheck(raffle.body.status, CapOf(raffle.body.settings),
             Available(db.tickets, raffle.id, raffle.body.totalTickets),
             HeldByUser(db.tickets, userId, raffle.id), quantity, numbers)
  }

  /** `buyTickets({ raffle, quantity, paymentMethod }, userId)`. `numbers` is
      what the generator drew; it is only consulted once the first four checks
      have passed. A missing raffle is reported first; a failure changes
      nothing; a success appends exactly the reserved ticket. */
  function BuySpec(db: Db, raffleId: string, quantity: int, paymentMethod: string, userId: string,
                   numbers: seq<string>, suffix: string, now: int): (out: (Result<Purchase>, Db))
    ensures FindFirst(db.raffles, raffleId).None? ==> out.0 == Err(RaffleNotFound)
    ensures FindFirst(db.raffles, raffleId).Some? ==>
              var raffle := FindFirst(db.raffles, raffleId).value;
              (out.0.Err? <==> BuyCheckIn(db, raffle, quantity, userId, numbers).Some?) &&
              (out.0.Err? ==> out.0.error == BuyCheckIn(db, raffle, quantity, userId, numbers).value) &&
              (out.0.Ok? ==>
                 out.0.value.ticket == ReservedTicket(raffle, quantity, paymentMethod, userId, numbers, suffix, now))
    ensures out.0.Err? ==> out.1 == db
    ensures out.0.Ok? ==> out.1 == db.(tickets := db.tickets + [out.0.value.ticket]) && out.0.value.nextStep == "payment"
  {
    match FindFirst(db.raffles, raffleId)
    case None => (Err(RaffleNotFound), db)
    case Some(raffle) =>
      match BuyCheckIn(db, raffle, quantity, userId, numbers)
      case Some(e) => (Err(e), db)
      case None =>
        var t := ReservedTicket(raffle, quantity, paymentMethod, userId, numbers, suffix, now);
        (Ok(Purchase(t, "payment")), db.(tickets := db.tickets + [t]))
  }

  /** A successful purchase reserves a pending ticket of the buyer on that
      raffle, priced at quantity times the ticket price, whose numbers were all
      still for sale when checked; the ticket takes none of them off sale and
      adds nothing to the raffle's figures. */
  lemma BuySuccess(db: Db, raffleId: string, quantity: int, paymentMethod: string, userId: string,
                   numbers: seq<string>, suffix: string, now: int)
    requires BuySpec(db, raffleId, quantity, paymentMethod, userId, numbers, suffix, now).0.Ok?
    ensures var out := BuySpec(db, raffleId, quantity, paymentMethod, userId, numbers, suffix, now);
            var t := out.0.value.ticket;
            var raffle := FindFirst(db.raffles, raffleId).value.body;
            raffle.status == RaffleStatus.Active &&
            t.body.raffle == raffleId && t.body.user == userId && t.body.paymentStatus == PaymentStatus.Pending &&
            t.body.quantity == quantity && t.body.totalAmount == quantity * raffle.ticketPrice &&
            t.body.ticketNumbers == numbers && !t.body.isWinner &&
            (forall i :: 0 <= i < |numbers| ==> numbers[i] in Available(db.tickets, raffleId, raffle.totalTickets)) &&
            Available(out.1.tickets, raffleId, raffle.totalTickets) == Available(db.tickets, raffleId, raffle.totalTickets) &&
            SoldOf(out.1.tickets, raffleId) == SoldOf(db.tickets, raffleId) &&
            RevenueOf(out.1.tickets, raffleId) == RevenueOf(db.tickets, raffleId)
  {
    var out := BuySpec(db, raffleId, quantity, paymentMethod, userId, numbers, suffix, now);
    var t := out.0.value.ticket;
    var raffle := FindFirst(db.raffles, raffleId).value;
    var available := Available(db.tickets, raffleId, raffle.body.totalTickets);
    BuyCheckOrder(raffle.body.status, CapOf(raffle.body.settings), available,
                  HeldByUser(db.tickets, userId, raffleId), quantity, numbers);
    UnpaidTicketReservesNothing(db.tickets, t, raffleId, raffle.body.totalTickets);
    UnpaidTicketCountsNothing(db.tickets, t, raffleId);
  }

  /** `buyTickets`, over the store: `numbers` is what the generator drew. */
  method BuyTickets(store: Store, raffleId: string, quantity: int, paymentMethod: string, userId: string,
                    suffix: string, now: int) returns (r: Result<Purchase>, numbers: seq<string>)
    modifies store.tickets
    ensures (r, store.Snapshot()) ==
              BuySpec(old(store.Snapshot()), raffleId, quantity, paymentMethod, userId, numbers, suffix, now)
    ensures r.Ok? ==>
              |numbers| == (if quantity <= 0 then 0 else quantity) && Distinct(numbers) && LexSorted(numbers) &&
              AllTicketNumbers(numbers, FindFirst(old(store.raffles.items), raffleId).value.body.totalTickets)
  {
    numbers := [];
    var found := store.raffles.FindById(raffleId);
    if found.None? {
      return Err(RaffleNotFound), numbers;
    }
    var raffle := found.value;
    if raffle.body.status != RaffleStatus.Active {
      return Err(RaffleNotOnSale), numbers;
    }
    var available := GetAvailableTicketNumbers(store.tickets.items, raffleId, raffle.body.totalTickets);
    assert |available| <= if raffle.body.totalTickets <= 0 then 0 else raffle.body.totalTickets;
    if |available| < quantity {
      return Err(InsufficientTickets(|available|)), numbers;
    }
    var cap := CapOf(raffle.body.settings);
    if cap.Some? {
      var held := HeldByUser(store.tickets.items, userId, raffleId);
      if held + quantity > cap.value {
        return Err(PerPersonLimit(cap.value)), numbers;
      }
    }
    numbers := GenerateTicketNumbers(quantity, raffle.body.totalTickets);
    if |Unavailable(numbers, available)| > 0 {
      return Err(NumbersUnavailable), numbers;
    }
    var data := TicketFields(raffleId, userId, numbers, quantity, quantity * raffle.body.ticketPrice,
                             PaymentStatus.Pending, paymentMethod, false, None, None);
    var ticket := CreateTicket(store.tickets, data, suffix, now);
    r := Ok(Purchase(ticket, "payment"));
  }

  /** `cancelTicket(ticketId, userId)`: only the owner, only a pending ticket;
      the ticket becomes cancelled and is stamped. */
  function CancelSpec(db: Db, ticketId: string, userId: string, now: int): (out: (Result<Option<Ticket>>, Db))
    ensures out.0.Err? ==> out.1 == db
    ensures out.0.Ok? ==>
              out.1 == db.(tickets := UpdateRows(db.tickets, ticketId, CancelPatch, Some(now))) &&
              out.0.value == UpdatedRow(db.tickets, ticketId, CancelPatch, Some(now))
  {
    match FindFirst(db.tickets, ticketId)
    case None => (Err(NotFound), db)
    case Some(t) =>
      if t.body.user != userId then (Err(AccessDenied), db)
      else if t.body.paymentStatus != PaymentStatus.Pending then (Err(TicketAlreadyPaid), db)
      else (Ok(UpdatedRow(db.tickets, ticketId, CancelPatch, Some(now))),
            db.(tickets := UpdateRows(db.tickets, ticketId, CancelPatch, Some(now))))
  }

  /** A cancel succeeds exactly for the owner of a pending ticket; it turns
      that ticket to cancelled and nothing else, so no number is taken or
      released and no statistic moves. */
  lemma CancelEffect(db: Db, ticketId: string, userId: string, now: int, raffleId: string, total: int)
    ensures var out := CancelSpec(db, ticketId, userId, now);
            var found := FindFirst(db.tickets, ticketId);
            (out.0 == Err(NotFound) <==> found.None?) &&
            (out.0 == Err(AccessDenied) <==> found.Some? && found.value.body.user != userId) &&
            (out.0.Ok? <==>
               found.Some? && found.value.body.user == userId && found.value.body.paymentStatus == PaymentStatus.Pending) &&
            (out.0.Ok? ==>
               out.0.value.Some? && out.0.value.value.body.paymentStatus == PaymentStatus.Cancelled &&
               Available(out.1.tickets, raffleId, total) == Available(db.tickets, raffleId, total) &&
               SoldOf(out.1.tickets, raffleId) == SoldOf(db.tickets, raffleId) &&
               RevenueOf(out.1.tickets, raffleId) == RevenueOf(db.tickets, raffleId))
  {
    var out := CancelSpec(db, ticketId, userId, now);
    if out.0.Ok? {
      var k := IndexOf(db.tickets, ticketId);
      var t := Merged(db.tickets[k], CancelPatch, Some(now));
      assert out.1.tickets == db.tickets[k := t];
      ReplaceTicket(db.tickets, k, t, raffleId);
      ReplaceUnpaidKeepsAvailable(db.tickets, k, t, raffleId, total);
    }
  }

  /** `cancelTicket`, over the store. */
  method CancelTicket(store: Store, ticketId: string, userId: string, now: int) returns (r: Result<Option<Ticket>>)
    modifies store.tickets
    ensures (r, store.Snapshot()) == CancelSpec(old(store.Snapshot()), ticketId, userId, now)
  {
    var found := store.tickets.FindById(ticketId);
    if found.None? {
      return Err(NotFound);
    }
    var ticket := found.value;
    if ticket.body.user != userId {
      return Err(AccessDenied);
    }
    if ticket.body.paymentStatus != PaymentStatus.Pending {
      return Err(TicketAlreadyPaid);
    }
    var updated := store.tickets.Update(ticketId, CancelPatch, now);
    r := Ok(updated);
  }

  /** The raffle part of `getTicketDetails`: `{ id, title, description, status }`. */
  datatype RaffleSummary = RaffleSummary(id: string, title: string, description: string, status: RaffleStatus)

  datatype TicketDetails = TicketDetails(ticket: Ticket, raffle: Option<RaffleSummary>)

  /** `getTicketDetails(ticketId, userId)`: not found and access denied are
      reported before anything is returned; otherwise the ticket and a summary
      of its raffle, or null when the raffle is gone. */
  function GetTicketDetails(db: Db, ticketId: string, userId: string): (r: Result<TicketDetails>)
    ensures r == Err(TicketNotFound) <==> FindFirst(db.tickets, ticketId).None?
    ensures r == Err(AccessDenied) <==>
              FindFirst(db.tickets, ticketId).Some? && FindFirst(db.tickets, ticketId).value.body.user != userId
    ensures r.Ok? ==>
              r.value.ticket == FindFirst(db.tickets, ticketId).value && r.value.ticket.body.user == userId &&
              (r.value.raffle.Some? <==> FindFirst(db.raffles, r.value.ticket.body.raffle).Some?) &&
              (r.value.raffle.Some? ==> r.value.raffle.value.id == r.value.ticket.body.raffle)
  {
    match FindFirst(db.tickets, ticketId)
    case None => Err(TicketNotFound)
    case Some(t) =>
      if t.body.user != userId then Err(AccessDenied)
      else
        var summary := match FindFirst(db.raffles, t.body.raffle)
          case None => None
          case Some(raffle) =>
            Some(RaffleSummary(raffle.id, raffle.body.title, raffle.body.description, raffle.body.status));
        Ok(TicketDetails(t, summary))
  }

  /** `confirmTicketPayment(ticketId, transactionId)`: that ticket becomes
      paid with its payment date and transaction id; nothing else changes. */
  method ConfirmTicketPayment(repo: Repository<TicketFields>, ticketId: string, transactionId: Option<string>, now: int)
    returns (r: Option<Ticket>)
    modifies repo
    ensures repo.items == UpdateRows(old(repo.items), ticketId, PayPatch(transactionId, now), Some(now))
    ensures r == UpdatedRow(old(repo.items), ticketId, PayPatch(transactionId, now), Some(now))
  {
    r := repo.Update(ticketId, PayPatch(transactionId, now), now);
  }

  /** Confirming a ticket's payment makes exactly that ticket paid, with the
      transaction id recorded, and adds its quantity and amount to its raffle's
      figures when it was not paid before. */
  lemma ConfirmTicketPaymentEffect(tickets: seq<Ticket>, ticketId: string, transactionId: Option<string>, now: int, raffleId: string)
    requires FindFirst(tickets, ticketId).Some?
    ensures var t := FindFirst(tickets, ticketId).value;
            var after := UpdateRows(tickets, ticketId, PayPatch(transactionId, now), Some(now));
            var u := UpdatedRow(tickets, ticketId, PayPatch(transactionId, now), Some(now)).value;
            u.body.paymentStatus == Paid && u.body.transactionId == transactionId && u.body.paymentDate == Some(now) &&
            u.body.quantity == t.body.quantity && u.body.totalAmount == t.body.totalAmount && u.body.raffle == t.body.raffle &&
            (!t.body.paymentStatus.Paid? && t.body.raffle == raffleId ==>
               SoldOf(after, raffleId) == SoldOf(tickets, raffleId) + t.body.quantity &&
               RevenueOf(after, raffleId) == RevenueOf(tickets, raffleId) + t.body.totalAmount)
  {
    var k := IndexOf(tickets, ticketId);
    var u := Merged(tickets[k], PayPatch(transactionId, now), Some(now));
    assert UpdateRows(tickets, ticketId, PayPatch(transactionId, now), Some(now)) == tickets[k := u];
    ReplaceTicket(tickets, k, u, raffleId);
  }
}
