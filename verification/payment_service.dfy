/** The payment service (src/services/paymentService.js): PIX payment records,
    payment confirmation with its lookup chain and the incremental raffle and
    user counters, and the payment status query. */
module PaymentService {
  import opened Common
  import opened Repository
  import opened Entities
  import opened TicketRepository
  import opened PaymentRepository
  import opened TicketService
  import opened Stats

  // ---------------------------------------------------------------------------
  // Incremental statistics

  /** `{ soldTickets: (soldTickets || 0) + quantity, revenue: (revenue || 0) + amount }`. */
  function AddSale(quantity: int, amount: int): RaffleFields -> RaffleFields {
    (b: RaffleFields) => b.(soldTickets := Some(OrZero(b.soldTickets) + quantity),
                            revenue := Some(OrZero(b.revenue) + amount))
  }

  /** `updateRaffleStats(raffleId, quantity, amount)`: the data manager's merge
      on the first raffle with that id; nothing when there is none. */
  method UpdateRaffleStats(raffles: Repository<RaffleFields>, raffleId: string, quantity: int, amount: int)
    modifies raffles
    ensures raffles.items == UpdateRows(old(raffles.items), raffleId, AddSale(quantity, amount), None)
  {
    var found := raffles.FindById(raffleId);
    if found.Some? {
      var _ := raffles.Merge(raffleId, AddSale(quantity, amount));
    }
  }

  /** The raffle's counters grow by exactly the sale, a missing counter
      counting as 0; every other field and every other raffle stay as they
      were, and a missing raffle leaves the list unchanged. */
  lemma UpdateRaffleStatsEffect(raffles: seq<Raffle>, raffleId: string, quantity: int, amount: int)
    ensures var after := UpdateRows(raffles, raffleId, AddSale(quantity, amount), None);
            var k := IndexOf(raffles, raffleId);
            (k < 0 ==> after == raffles) &&
            (k >= 0 ==>
               OrZero(after[k].body.soldTickets) == OrZero(raffles[k].body.soldTickets) + quantity &&
               OrZero(after[k].body.revenue) == OrZero(raffles[k].body.revenue) + amount &&
               after[k].body.(soldTickets := raffles[k].body.soldTickets, revenue := raffles[k].body.revenue) == raffles[k].body &&
               after[k].id == raffles[k].id && after[k].updatedAt == raffles[k].updatedAt &&
               forall j :: 0 <= j < |raffles| && j != k ==> after[j] == raffles[j])
  {
  }

  /** `{ totalSpent: (totalSpent || 0) + amount, lastPurchase: now }`. */
  function AddSpend(amount: int, now: int): UserFields -> UserFields {
    (b: UserFields) => b.(totalSpent := Some(OrZero(b.totalSpent) + amount), lastPurchase := Some(now))
  }

  /** `updateUserStats(userId, amount)`: the user is looked up first and only a
      stored user is updated (so `updateUser`'s unknown-id error cannot arise);
      a missing user changes nothing. */
  method UpdateUserStats(users: Repository<UserFields>, userId: string, amount: int, now: int)
    modifies users
    ensures users.items == UpdateRows(old(users.items), userId, AddSpend(amount, now), None)
  {
    var found := users.FindById(userId);
    if found.Some? {
      var _ := users.Merge(userId, AddSpend(amount, now));
    }
  }

  // ---------------------------------------------------------------------------
  // Confirmation

  /** What `confirmPayment` answers: the payment, the ticket, and whether the
      payment had already been confirmed. */
  datatype Confirmation = Confirmation(payment: Option<Payment>, ticket: Option<Ticket>, alreadyConfirmed: bool)

  /** Step 3 of the lookup: the first pending or processing payment of the user
      whose id or ticket is the given id. */
  function PendingOfUser(payments: seq<Payment>, paymentId: string, userId: string): (r: Option<Payment>)
    ensures r.Some? ==> r.value in payments && r.value.body.user == userId &&
                        (r.value.id == paymentId || r.value.body.ticket == paymentId)
  {
    var candidates := Filter(PaymentRepository.FindByUser(payments, userId),
                             (p: Payment) => (p.body.status == PaymentStatus.Pending || p.body.status == Processing) &&
                                             (p.id == paymentId || p.body.ticket == paymentId));
    if |candidates| > 0 then Some(candidates[0]) else None
  }

  /** The lookup chain: by payment id, then by ticket id, then among the user's
      pending payments. */
  function LocatePayment(payments: seq<Payment>, paymentId: string, userId: string): (r: Option<Payment>)
    ensures r.Some? ==> r.value in payments
  {
    match FindFirst(payments, paymentId)
    case Some(p) => Some(p)
    case None =>
      match FindByTicket(payments, paymentId)
      case Some(p) => Some(p)
      case None => PendingOfUser(payments, paymentId, userId)
  }

  /** Step 3 never finds anything: whatever it could match, step 1 (by id) or
      step 2 (by ticket) would already have found. */
  lemma PendingOfUserUnreachable(payments: seq<Payment>, paymentId: string, userId: string)
    requires FindFirst(payments, paymentId).None? && FindByTicket(payments, paymentId).None?
    ensures PendingOfUser(payments, paymentId, userId).None?
  {
    forall x | x in payments
      ensures x.body.ticket != paymentId
    {
      var j :| 0 <= j < |payments| && payments[j] == x;
    }
  }

  /** The payment step 4 creates from a ticket with no payment. */
  function AutoPaymentFields(t: Ticket, userId: string): PaymentFields {
    PaymentFields(t.id, userId, t.body.raffle, t.body.totalAmount,
                  if t.body.paymentMethod != "" then t.body.paymentMethod else "pix",
                  Processing, None, None, None)
  }

  /** The lookup and, failing it, the creation: the caller's id is required;
      then the chain; then a payment is made from the ticket with that id,
      which must exist and belong to the caller. Only the creation writes. */
  function LocateSpec(db: Db, paymentId: string, userId: string, suffix: string, now: int): (out: (Result<Payment>, Db))
    ensures out.0.Err? ==> out.1 == db
    ensures out.0.Ok? ==> out.0.value in out.1.payments
    ensures out.1 != db ==>
              out.0.Ok? && out.0.value.body.user == userId && out.1 == db.(payments := db.payments + [out.0.value])
  {
    if userId == "" then (Err(UserIdRequired), db)
    else
      match LocatePayment(db.payments, paymentId, userId)
      case Some(p) => (Ok(p), db)
      case None =>
        match FindFirst(db.tickets, paymentId)
        case None => (Err(TicketNotFoundForPayment), db)
        case Some(t) =>
          if t.body.user != userId then (Err(AccessDenied), db)
          else
            var p := NewPayment(AutoPaymentFields(t, userId), suffix, now);
            (Ok(p), db.(payments := db.payments + [p]))
  }

  /** The lookup and creation, over the store. */
  method Locate(store: Store, paymentId: string, userId: string, suffix: string, now: int) returns (r: Result<Payment>)
    modifies store.payments
    ensures (r, store.Snapshot()) == LocateSpec(old(store.Snapshot()), paymentId, userId, suffix, now)
  {
    if userId == "" {
      return Err(UserIdRequired);
    }
    var payment := store.payments.FindById(paymentId);
    if payment.None? {
      payment := FindByTicket(store.payments.items, paymentId);
    }
    if payment.None? {
      payment := PendingOfUser(store.payments.items, paymentId, userId);
    }
    if payment.Some? {
      return Ok(payment.value);
    }
    var ticket := store.tickets.FindById(paymentId);
    if ticket.None? {
      return Err(TicketNotFoundForPayment);
    }
    if ticket.value.body.user != userId {
      return Err(AccessDenied);
    }
    var created := CreatePayment(store.payments, AutoPaymentFields(ticket.value, userId), suffix, now);
    r := Ok(created);
  }

  /** Everything after the lookup: the final ownership check, the early answer
      for a payment already completed, then the writes in the source's order
      (payment, ticket, raffle counters, user counters). A ticket that is gone
      makes the counter update throw, which the service catches: the counters
      are then left alone. A payment of another user is refused before any
      write; a completed one is answered as such, with its ticket, and nothing
      changes; any other stored payment comes back completed with the
      transaction id. */
  function Settle(db: Db, p: Payment, transactionId: Option<string>, userId: string, now: int): (out: (Result<Confirmation>, Db))
    ensures out.0.Err? <==> p.body.user != userId
    ensures out.0.Err? ==> out == (Err(AccessDenied), db)
    ensures out.0.Ok? ==> (out.0.value.alreadyConfirmed <==> p.body.status == PaymentStatus.Completed)
    ensures out.0.Ok? && out.0.value.alreadyConfirmed ==>
              out.1 == db && out.0.value == Confirmation(Some(p), FindFirst(db.tickets, p.body.ticket), true)
    ensures p in db.payments && out.0.Ok? && !out.0.value.alreadyConfirmed ==>
              out.0.value.payment.Some? && out.0.value.payment.value.body.status == PaymentStatus.Completed &&
              out.0.value.payment.value.body.transactionId == transactionId
    ensures out.0.Ok? && !out.0.value.alreadyConfirmed ==>
              out.1.payments == UpdateRows(db.payments, p.id, CompletePatch(transactionId, now), Some(now))
  {
    if p.body.user != userId then (Err(AccessDenied), db)
    else if p.body.status == PaymentStatus.Completed then
      (Ok(Confirmation(Some(p), FindFirst(db.tickets, p.body.ticket), true)), db)
    else
      var payments := UpdateRows(db.payments, p.id, CompletePatch(transactionId, now), Some(now));
      var payment := UpdatedRow(db.payments, p.id, CompletePatch(transactionId, now), Some(now));
      var tickets := UpdateRows(db.tickets, p.body.ticket, PayPatch(transactionId, now), Some(now));
      var ticket := UpdatedRow(db.tickets, p.body.ticket, PayPatch(transactionId, now), Some(now));
      var db1 := db.(payments := payments, tickets := tickets);
      if ticket.None? then (Ok(Confirmation(payment, ticket, false)), db1)
      else
        (Ok(Confirmation(payment, ticket, false)),
         db1.(raffles := UpdateRows(db.raffles, p.body.raffle, AddSale(ticket.value.body.quantity, p.body.amount), None),
              users := UpdateRows(db.users, p.body.user, AddSpend(p.body.amount, now), None)))
  }

  /** The settling steps, over the store. */
  method SettleIn(store: Store, p: Payment, transactionId: Option<string>, userId: string, now: int)
    returns (r: Result<Confirmation>)
    modifies store.payments, store.tickets, store.raffles, store.users
    ensures (r, store.Snapshot()) == Settle(old(store.Snapshot()), p, transactionId, userId, now)
  {
    if p.body.user != userId {
      return Err(AccessDenied);
    }
    if p.body.status == PaymentStatus.Completed {
      var ticket := store.tickets.FindById(p.body.ticket);
      return Ok(Confirmation(Some(p), ticket, true));
    }
    var updatedPayment := MarkAsCompleted(store.payments, p.id, transactionId, now);
    var ticket := ConfirmTicketPayment(store.tickets, p.body.ticket, transactionId, now);
    if ticket.Some? {
      UpdateRaffleStats(store.raffles, p.body.raffle, ticket.value.body.quantity, p.body.amount);
      UpdateUserStats(store.users, p.body.user, p.body.amount, now);
    }
    r := Ok(Confirmation(updatedPayment, ticket, false));
  }

  /** `confirmPayment(paymentId, transactionId, userId)`. `suffix` names the
      payment the lookup would create. Every failure leaves the store as it
      was, and so does an answer that the payment was already confirmed;
      otherwise the payment returned is completed with the transaction id. */
  function ConfirmSpec(db: Db, paymentId: string, transactionId: Option<string>, userId: string,
                       suffix: string, now: int): (out: (Result<Confirmation>, Db))
    ensures userId == "" ==> out == (Err(UserIdRequired), db)
    ensures out.0.Err? ==> out.1 == db
    ensures out.0.Ok? && out.0.value.alreadyConfirmed ==> out.1 == db
    ensures out.0.Ok? && !out.0.value.alreadyConfirmed ==>
              out.0.value.payment.Some? && out.0.value.payment.value.body.status == PaymentStatus.Completed &&
              out.0.value.payment.value.body.transactionId == transactionId
  {
    match LocateSpec(db, paymentId, userId, suffix, now)
    case (Err(e), db1) => (Err(e), db1)
    case (Ok(p), db1) => Settle(db1, p, transactionId, userId, now)
  }

  /** `confirmPayment`, over the store. */
  method ConfirmPayment(store: Store, paymentId: string, transactionId: Option<string>, userId: string,
                        suffix: string, now: int) returns (r: Result<Confirmation>)
    modifies store.payments, store.tickets, store.raffles, store.users
    ensures (r, store.Snapshot()) == ConfirmSpec(old(store.Snapshot()), paymentId, transactionId, userId, suffix, now)
  {
    var located := Locate(store, paymentId, userId, suffix, now);
    if located.Err? {
      return Err(located.error);
    }
    r := SettleIn(store, located.value, transactionId, userId, now);
  }

  /** The lookup order: a payment with that id wins; failing that, the first
      payment of the ticket with that id; failing both, a payment is created
      from that ticket, owned by the caller, for the ticket's amount, in
      processing, and then confirmed. */
  lemma ConfirmLookupOrder(db: Db, paymentId: string, transactionId: Option<string>, userId: string,
                           suffix: string, now: int)
    requires userId != ""
    ensures var out := ConfirmSpec(db, paymentId, transactionId, userId, suffix, now);
            var byId := FindFirst(db.payments, paymentId);
            var byTicket := FindByTicket(db.payments, paymentId);
            (byId.Some? ==> out == Settle(db, byId.value, transactionId, userId, now)) &&
            (byId.None? && byTicket.Some? ==> out == Settle(db, byTicket.value, transactionId, userId, now)) &&
            (byId.None? && byTicket.None? ==>
               (FindFirst(db.tickets, paymentId).None? ==> out.0 == Err(TicketNotFoundForPayment)) &&
               (FindFirst(db.tickets, paymentId).Some? && FindFirst(db.tickets, paymentId).value.body.user != userId ==>
                  out.0 == Err(AccessDenied)) &&
               (FindFirst(db.tickets, paymentId).Some? && FindFirst(db.tickets, paymentId).value.body.user == userId ==>
                  var t := FindFirst(db.tickets, paymentId).value;
                  var p := NewPayment(AutoPaymentFields(t, userId), suffix, now);
                  p.body.amount == t.body.totalAmount && p.body.status == Processing && p.body.user == userId &&
                  out == Settle(db.(payments := db.payments + [p]), p, transactionId, userId, now)))
  {
    if FindFirst(db.payments, paymentId).None? && FindByTicket(db.payments, paymentId).None? {
      PendingOfUserUnreachable(db.payments, paymentId, userId);
    }
  }

  /** After settling a payment the lookup chain finds it again, completed. */
  lemma CompletedStaysLocated(payments: seq<Payment>, paymentId: string, userId: string, p: Payment,
                              transactionId: Option<string>, now: int)
    requires UniqueIds(payments)
    requires LocatePayment(payments, paymentId, userId) == Some(p)
    ensures LocatePayment(UpdateRows(payments, p.id, CompletePatch(transactionId, now), Some(now)), paymentId, userId) ==
            UpdatedRow(payments, p.id, CompletePatch(transactionId, now), Some(now)) ==
            Some(Merged(p, CompletePatch(transactionId, now), Some(now)))
  {
    var patch := CompletePatch(transactionId, now);
    UpdateRowsKeepsIndex(payments, p.id, patch, Some(now), paymentId);
    if FindFirst(payments, paymentId).None? {
      if FindByTicket(payments, paymentId).Some? {
        var k :| 0 <= k < |payments| && payments[k] == p && p.body.ticket == paymentId &&
                 forall j :: 0 <= j < k ==> payments[j].body.ticket != paymentId;
        IndexOfUnique(payments, k);
        UpdateKeepsTicketPayment(payments, paymentId, p, patch, now);
      } else {
        PendingOfUserUnreachable(payments, paymentId, userId);
      }
    }
    var k :| 0 <= k < |payments| && payments[k] == p;
    IndexOfUnique(payments, k);
  }

  /** After settling a payment the lookup created, the lookup finds it, completed. */
  lemma CreatedStaysLocated(payments: seq<Payment>, paymentId: string, userId: string, p: Payment,
                            transactionId: Option<string>, now: int)
    requires FindFirst(payments, paymentId).None? && FindByTicket(payments, paymentId).None?
    requires p.body.ticket == paymentId && FindFirst(payments, p.id).None?
    ensures LocatePayment(UpdateRows(payments + [p], p.id, CompletePatch(transactionId, now), Some(now)), paymentId, userId) ==
            Some(Merged(p, CompletePatch(transactionId, now), Some(now)))
  {
    var q := Merged(p, CompletePatch(transactionId, now), Some(now));
    forall j | 0 <= j < |payments|
      ensures (payments + [p])[j].id != p.id
    {
      assert payments[j] in payments;
    }
    assert (payments + [p])[|payments|].id == p.id;
    assert IndexOf(payments + [p], p.id) == |payments|;
    assert UpdateRows(payments + [p], p.id, CompletePatch(transactionId, now), Some(now)) == payments + [q];
    if paymentId != p.id {
      assert FindFirst(payments + [q], paymentId).None?;
      AppendIsTicketPayment(payments, paymentId, q);
    }
  }

  /** Confirming twice counts the sale once: once a confirmation has gone
      through, confirming the same id again answers that the payment was
      already confirmed and changes nothing. Payment ids are taken to be
      unique, and the id a confirmation would give a created payment to be
      unused. */
  lemma ConfirmTwice(db: Db, paymentId: string, transactionId: Option<string>, userId: string, suffix: string, now: int,
                     transactionId2: Option<string>, suffix2: string, now2: int)
    requires UniqueIds(db.payments)
    requires FindFirst(db.payments, "payment_" + suffix).None?
    requires ConfirmSpec(db, paymentId, transactionId, userId, suffix, now).0.Ok?
    ensures var first := ConfirmSpec(db, paymentId, transactionId, userId, suffix, now);
            var second := ConfirmSpec(first.1, paymentId, transactionId2, userId, suffix2, now2);
            second.0.Ok? && second.0.value.alreadyConfirmed && second.1 == first.1
  {
    var loc := LocateSpec(db, paymentId, userId, suffix, now);
    var p := loc.0.value;
    var db1 := loc.1;
    var first := ConfirmSpec(db, paymentId, transactionId, userId, suffix, now);
    assert first == Settle(db1, p, transactionId, userId, now);
    var located := LocatePayment(db.payments, paymentId, userId);
    if p.body.status == PaymentStatus.Completed {
      assert located == Some(p) && db1 == db;
      ConfirmCompleted(first.1, paymentId, transactionId2, userId, suffix2, now2, p);
    } else {
      var q := Merged(p, CompletePatch(transactionId, now), Some(now));
      LocateCases(db, paymentId, userId, suffix, now, p);
      ConfirmWritesPayment(db, paymentId, transactionId, userId, suffix, now, p);
      SettledStaysLocated(db.payments, db1.payments, paymentId, userId, p, transactionId, now);
      ConfirmCompleted(first.1, paymentId, transactionId2, userId, suffix2, now2, q);
    }
  }

  /** The two ways the lookup yields a payment: found in the list, which is
      left as it was, or created from the caller's ticket and appended. */
  lemma LocateCases(db: Db, paymentId: string, userId: string, suffix: string, now: int, p: Payment)
    requires FindFirst(db.payments, "payment_" + suffix).None?
    requires LocateSpec(db, paymentId, userId, suffix, now).0 == Ok(p)
    ensures var payments1 := LocateSpec(db, paymentId, userId, suffix, now).1.payments;
            (LocatePayment(db.payments, paymentId, userId) == Some(p) && payments1 == db.payments) ||
            (FindFirst(db.payments, paymentId).None? && FindByTicket(db.payments, paymentId).None? &&
             payments1 == db.payments + [p] && p.body.ticket == paymentId && FindFirst(db.payments, p.id).None?)
  {
    if LocatePayment(db.payments, paymentId, userId).None? {
      var ticket := FindFirst(db.tickets, paymentId).value;
      assert p == NewPayment(AutoPaymentFields(ticket, userId), suffix, now);
    }
  }

  /** After a payment the lookup yielded is completed, the same lookup finds
      the completed payment. */
  lemma SettledStaysLocated(payments: seq<Payment>, payments1: seq<Payment>, paymentId: string, userId: string,
                            p: Payment, transactionId: Option<string>, now: int)
    requires UniqueIds(payments)
    requires (LocatePayment(payments, paymentId, userId) == Some(p) && payments1 == payments) ||
             (FindFirst(payments, paymentId).None? && FindByTicket(payments, paymentId).None? &&
              payments1 == payments + [p] && p.body.ticket == paymentId && FindFirst(payments, p.id).None?)
    ensures LocatePayment(UpdateRows(payments1, p.id, CompletePatch(transactionId, now), Some(now)), paymentId, userId) ==
            Some(Merged(p, CompletePatch(transactionId, now), Some(now)))
  {
    if LocatePayment(payments, paymentId, userId) == Some(p) && payments1 == payments {
      CompletedStaysLocated(payments, paymentId, userId, p, transactionId, now);
    } else {
      CreatedStaysLocated(payments, paymentId, userId, p, transactionId, now);
    }
  }

  /** A confirmation that settles a located payment writes the completed payment. */
  lemma ConfirmWritesPayment(db: Db, paymentId: string, transactionId: Option<string>, userId: string,
                             suffix: string, now: int, p: Payment)
    requires LocateSpec(db, paymentId, userId, suffix, now).0 == Ok(p)
    requires p.body.status != PaymentStatus.Completed && p.body.user == userId
    ensures ConfirmSpec(db, paymentId, transactionId, userId, suffix, now).1.payments ==
            UpdateRows(LocateSpec(db, paymentId, userId, suffix, now).1.payments, p.id, CompletePatch(transactionId, now), Some(now))
  {
    var db1 := LocateSpec(db, paymentId, userId, suffix, now).1;
    assert ConfirmSpec(db, paymentId, transactionId, userId, suffix, now) == Settle(db1, p, transactionId, userId, now);
  }

  /** A confirmation that finds a completed payment of the caller answers that
      it was already confirmed and changes nothing. */
  lemma ConfirmCompleted(db: Db, paymentId: string, transactionId: Option<string>, userId: string, suffix: string,
                         now: int, q: Payment)
    requires userId != "" && LocatePayment(db.payments, paymentId, userId) == Some(q)
    requires q.body.user == userId && q.body.status == PaymentStatus.Completed
    ensures var out := ConfirmSpec(db, paymentId, transactionId, userId, suffix, now);
            out.0.Ok? && out.0.value.alreadyConfirmed && out.1 == db
  {
    assert LocateSpec(db, paymentId, userId, suffix, now) == (Ok(q), db);
  }

  /** Settling a payment that is not yet completed completes it with the transaction id, its
      ticket becomes paid, the raffle's counters grow by the ticket's quantity
      and the payment's amount, and the user's total spent by the amount. */
  lemma SettleWrites(db: Db, p: Payment, transactionId: Option<string>, userId: string, now: int)
    requires p.body.user == userId && p.body.status != PaymentStatus.Completed
    requires FindFirst(db.tickets, p.body.ticket).Some?
    ensures var out := Settle(db, p, transactionId, userId, now);
            var t := FindFirst(db.tickets, p.body.ticket).value;
            out.0.Ok? && !out.0.value.alreadyConfirmed &&
            out.1.payments == UpdateRows(db.payments, p.id, CompletePatch(transactionId, now), Some(now)) &&
            out.1.tickets == UpdateRows(db.tickets, p.body.ticket, PayPatch(transactionId, now), Some(now)) &&
            out.1.raffles == UpdateRows(db.raffles, p.body.raffle, AddSale(t.body.quantity, p.body.amount), None) &&
            out.1.users == UpdateRows(db.users, p.body.user, AddSpend(p.body.amount, now), None) &&
            out.0.value.ticket.Some? && out.0.value.ticket.value.body.paymentStatus == Paid
  {
  }

  /** The raffle's incremental counters agree with the figures recomputed from
      its paid tickets. */
  predicate InSync(db: Db, raffleId: string) {
    FindFirst(db.raffles, raffleId).Some? &&
    OrZero(FindFirst(db.raffles, raffleId).value.body.soldTickets) == SoldOf(db.tickets, raffleId) &&
    OrZero(FindFirst(db.raffles, raffleId).value.body.revenue) == RevenueOf(db.tickets, raffleId)
  }

  /** Confirming a payment of an unpaid ticket of the payment's raffle, for the
      ticket's amount, keeps the counters in step with the paid tickets. */
  lemma SettleKeepsSync(db: Db, p: Payment, transactionId: Option<string>, userId: string, now: int)
    requires p.body.user == userId && p.body.status != PaymentStatus.Completed
    requires FindFirst(db.tickets, p.body.ticket).Some?
    requires var t := FindFirst(db.tickets, p.body.ticket).value;
             !t.body.paymentStatus.Paid? && t.body.raffle == p.body.raffle && t.body.totalAmount == p.body.amount
    requires InSync(db, p.body.raffle)
    ensures InSync(Settle(db, p, transactionId, userId, now).1, p.body.raffle)
  {
    var t := FindFirst(db.tickets, p.body.ticket).value;
    SettleWrites(db, p, transactionId, userId, now);
    ConfirmTicketPaymentEffect(db.tickets, p.body.ticket, transactionId, now, p.body.raffle);
    UpdateRaffleStatsEffect(db.raffles, p.body.raffle, t.body.quantity, p.body.amount);
    UpdateRowsKeepsIndex(db.raffles, p.body.raffle, AddSale(t.body.quantity, p.body.amount), None, p.body.raffle);
  }

  /** Confirming a payment that is not completed but whose ticket is already
      paid counts the sale a second time: the counters run ahead of the paid
      tickets by the ticket's quantity and the payment's amount. */
  lemma SettlePaidTicketDrifts(db: Db, p: Payment, transactionId: Option<string>, userId: string, now: int)
    requires p.body.user == userId && p.body.status != PaymentStatus.Completed
    requires FindFirst(db.tickets, p.body.ticket).Some?
    requires FindFirst(db.tickets, p.body.ticket).value.body.paymentStatus.Paid?
    requires InSync(db, p.body.raffle)
    ensures var after := Settle(db, p, transactionId, userId, now).1;
            var t := FindFirst(db.tickets, p.body.ticket).value;
            var r := FindFirst(after.raffles, p.body.raffle);
            r.Some? &&
            OrZero(r.value.body.soldTickets) == SoldOf(after.tickets, p.body.raffle) + t.body.quantity &&
            OrZero(r.value.body.revenue) == RevenueOf(after.tickets, p.body.raffle) + p.body.amount &&
            (t.body.quantity != 0 || p.body.amount != 0 ==> !InSync(after, p.body.raffle))
  {
    var t := FindFirst(db.tickets, p.body.ticket).value;
    SettleWrites(db, p, transactionId, userId, now);
    ConfirmTicketPaymentEffect(db.tickets, p.body.ticket, transactionId, now, p.body.raffle);
    var k := IndexOf(db.tickets, p.body.ticket);
    var u := Merged(db.tickets[k], PayPatch(transactionId, now), Some(now));
    assert UpdateRows(db.tickets, p.body.ticket, PayPatch(transactionId, now), Some(now)) == db.tickets[k := u];
    ReplaceTicket(db.tickets, k, u, p.body.raffle);
    UpdateRaffleStatsEffect(db.raffles, p.body.raffle, t.body.quantity, p.body.amount);
    UpdateRowsKeepsIndex(db.raffles, p.body.raffle, AddSale(t.body.quantity, p.body.amount), None, p.body.raffle);
  }

  // ---------------------------------------------------------------------------
  // Status query

  /** `getPaymentStatus(paymentId, userId)`. */
  function GetPaymentStatus(payments: seq<Payment>, paymentId: string, userId: string): (r: Result<Payment>)
    ensures r == Err(PaymentNotFound) <==> FindFirst(payments, paymentId).None?
    ensures r == Err(AccessDenied) <==>
              FindFirst(payments, paymentId).Some? && FindFirst(payments, paymentId).value.body.user != userId
    ensures r.Ok? ==> r.value == FindFirst(payments, paymentId).value && r.value.body.user == userId
  {
    match FindFirst(payments, paymentId)
    case None => Err(PaymentNotFound)
    case Some(p) => if p.body.user != userId then Err(AccessDenied) else Ok(p)
  }

  // ---------------------------------------------------------------------------
  // PIX

  /** The payment part of `generatePix`'s answer. */
  datatype PixPayment = PixPayment(id: string, amount: int, pixData: Option<PixData>)

  /** The key in the PIX string: the raffle owner's own key, else the
      configured key, else the built-in address. */
  function PixKey(ownerKey: string, configuredKey: string): (k: string)
    ensures ownerKey != "" ==> k == ownerKey
    ensures ownerKey == "" && configuredKey != "" ==> k == configuredKey
    ensures ownerKey == "" && configuredKey == "" ==> k == "trabachjonathan@gmail.com"
  {
    if ownerKey != "" then ownerKey else if configuredKey != "" then configuredKey else "trabachjonathan@gmail.com"
  }

  /** `s.slice(-4)`. */
  function Last4(s: string): (r: string)
    ensures |r| == if |s| < 4 then |s| else 4
    ensures r == s[|s| - |r|..]
  {
    if |s| <= 4 then s else s[|s| - 4..]
  }

  /** The payment fields `generatePix` writes; the update keeps an existing
      payment's `transactionId` and `processedAt`, which the data does not name. */
  function PixPatch(ticketId: string, userId: string, t: Ticket, pix: PixData): PaymentFields -> PaymentFields {
    (p: PaymentFields) => p.(ticket := ticketId, user := userId, raffle := t.body.raffle, amount := t.body.totalAmount,
                             paymentMethod := "pix", status := PaymentStatus.Pending, pixData := Some(pix))
  }

  /** `getUserById(id)`, where `id` may be undefined. */
  function UserOf(users: seq<User>, id: Option<string>): (r: Option<User>)
    ensures r.Some? ==> id.Some? && r.value in users && r.value.id == id.value
  {
    match id
    case None => None
    case Some(u) => FindFirst(users, u)
  }

  /** `raffle.owner` on the summary `getTicketDetails` returns: the summary
      has no owner field, so this is undefined whatever the raffle. */
  function SummaryOwner(summary: Option<RaffleSummary>): Option<string> {
    None
  }

  /** `generatePix(ticketId, userId)` as written: the owner is looked up by
      `raffle.owner` on the summary `getTicketDetails` returns, which carries
      no owner, so the lookup finds no user and reading its payment settings
      throws. */
  function GeneratePixAsWritten(db: Db, ticketId: string, userId: string): (r: Result<PixPayment>)
    ensures r.Err?
  {
    match GetTicketDetails(db, ticketId, userId)
    case Err(e) => Err(e)
    case Ok(details) =>
      if details.ticket.body.paymentStatus != PaymentStatus.Pending then Err(TicketNotPending)
      else
        var owner := UserOf(db.users, SummaryOwner(details.raffle));
        if owner.None? then Err(Internal)
        else Ok(PixPayment("", 0, None))
  }

  /** As written but with the ticket service's repository wired (without it the
      call fails even earlier, in `getTicketDetails`), a pending ticket of the
      caller, whose raffle and owner are both stored, still gets no PIX
      payment. */
  lemma GeneratePixAsWrittenFails(db: Db, ticketId: string, userId: string)
    requires FindFirst(db.tickets, ticketId).Some?
    requires FindFirst(db.tickets, ticketId).value.body.user == userId
    requires FindFirst(db.tickets, ticketId).value.body.paymentStatus == PaymentStatus.Pending
    ensures GeneratePixAsWritten(db, ticketId, userId) == Err(Internal)
  {
  }

  /** `generatePix` with the owner read from the stored raffle. `qrCode` is
      the image the QR library renders and `configuredKey` the `PIX_KEY`
      setting. The payment for the ticket is updated if there is one and
      created otherwise, so a ticket never gets a second payment from here. */
  function GeneratePixSpec(db: Db, ticketId: string, userId: string, configuredKey: string, qrCode: string,
                           suffix: string, now: int): (out: (Result<PixPayment>, Db))
    ensures out.0.Err? ==> out.1 == db
    ensures out.0.Ok? ==>
              FindFirst(db.tickets, ticketId).Some? &&
              FindFirst(db.tickets, ticketId).value.body.user == userId &&
              FindFirst(db.tickets, ticketId).value.body.paymentStatus == PaymentStatus.Pending &&
              out.0.value.amount == FindFirst(db.tickets, ticketId).value.body.totalAmount &&
              out.1.tickets == db.tickets && out.1.raffles == db.raffles && out.1.users == db.users
  {
    match GetTicketDetails(db, ticketId, userId)
    case Err(e) => (Err(e), db)
    case Ok(details) =>
      var t := details.ticket;
      if t.body.paymentStatus != PaymentStatus.Pending then (Err(TicketNotPending), db)
      else
        match FindFirst(db.raffles, t.body.raffle)
        case None => (Err(Internal), db)
        case Some(raffle) =>
          match FindFirst(db.users, raffle.body.owner)
          case None => (Err(Internal), db)
          case Some(owner) =>
            var pix := PixData(qrCode, PixKey(owner.body.pixKey, configuredKey),
                               "RIFA" + Last4(raffle.id) + Last4(t.id), now + 30 * 60 * 1000);
            match FindByTicket(db.payments, ticketId)
            case Some(existing) =>
              var patch := PixPatch(ticketId, userId, t, pix);
              var updated := UpdatedRow(db.payments, existing.id, patch, Some(now)).value;
              (Ok(PixPayment(updated.id, updated.body.amount, updated.body.pixData)),
               db.(payments := UpdateRows(db.payments, existing.id, patch, Some(now))))
            case None =>
              var created := NewPayment(PaymentFields(ticketId, userId, t.body.raffle, t.body.totalAmount, "pix",
                                                      PaymentStatus.Pending, None, None, Some(pix)), suffix, now);
              (Ok(PixPayment(created.id, created.body.amount, created.body.pixData)),
               db.(payments := db.payments + [created]))
  }

  /** `generatePix` (with the owner read from the stored raffle), over the store. */
  method GeneratePix(store: Store, ticketId: string, userId: string, configuredKey: string, qrCode: string,
                     suffix: string, now: int) returns (r: Result<PixPayment>)
    modifies store.payments
    ensures (r, store.Snapshot()) == GeneratePixSpec(old(store.Snapshot()), ticketId, userId, configuredKey, qrCode, suffix, now)
  {
    ghost var db := store.Snapshot();
    var details := GetTicketDetails(store.Snapshot(), ticketId, userId);
    if details.Err? {
      return Err(details.error);
    }
    var t := details.value.ticket;
    if t.body.paymentStatus != PaymentStatus.Pending {
      return Err(TicketNotPending);
    }
    var raffle := store.raffles.FindById(t.body.raffle);
    if raffle.None? {
      return Err(Internal);
    }
    var owner := store.users.FindById(raffle.value.body.owner);
    if owner.None? {
      return Err(Internal);
    }
    var pix := PixData(qrCode, PixKey(owner.value.body.pixKey, configuredKey),
                       "RIFA" + Last4(raffle.value.id) + Last4(t.id), now + 30 * 60 * 1000);
    var existing := FindByTicket(store.payments.items, ticketId);
    if existing.Some? {
      var updated := store.payments.Update(existing.value.id, PixPatch(ticketId, userId, t, pix), now);
      assert store.Snapshot() == db.(payments := UpdateRows(db.payments, existing.value.id, PixPatch(ticketId, userId, t, pix), Some(now)));
      r := Ok(PixPayment(updated.value.id, updated.value.body.amount, updated.value.body.pixData));
    } else {
      var data := PaymentFields(ticketId, userId, t.body.raffle, t.body.totalAmount, "pix",
                                PaymentStatus.Pending, None, None, Some(pix));
      var created := CreatePayment(store.payments, data, suffix, now);
      assert store.Snapshot() == db.(payments := db.payments + [created]);
      r := Ok(PixPayment(created.id, created.body.amount, created.body.pixData));
    }
  }

  /** The PIX payment is for the ticket's amount; the identifier is `RIFA`
      followed by the last four characters of the raffle id and of the ticket
      id; it expires thirty minutes after it was made; and afterwards the
      ticket's payment, as `findByTicket` finds it, is that pending PIX
      payment. */
  lemma GeneratePixRecord(db: Db, ticketId: string, userId: string, configuredKey: string, qrCode: string,
                          suffix: string, now: int)
    requires GeneratePixSpec(db, ticketId, userId, configuredKey, qrCode, suffix, now).0.Ok?
    ensures var out := GeneratePixSpec(db, ticketId, userId, configuredKey, qrCode, suffix, now);
            var t := FindFirst(db.tickets, ticketId).value;
            var raffle := FindFirst(db.raffles, t.body.raffle).value;
            var found := FindByTicket(out.1.payments, ticketId);
            out.0.value.pixData.Some? &&
            out.0.value.pixData.value.identifier == "RIFA" + Last4(raffle.id) + Last4(t.id) &&
            out.0.value.pixData.value.expiresAt == now + 1800000 &&
            found.Some? && found.value.id == out.0.value.id && found.value.body.pixData == out.0.value.pixData &&
            found.value.body.status == PaymentStatus.Pending && found.value.body.amount == t.body.totalAmount
  {
    var out := GeneratePixSpec(db, ticketId, userId, configuredKey, qrCode, suffix, now);
    var t := FindFirst(db.tickets, ticketId).value;
    var raffle := FindFirst(db.raffles, t.body.raffle).value;
    var owner := FindFirst(db.users, raffle.body.owner).value;
    var pix := PixData(qrCode, PixKey(owner.body.pixKey, configuredKey),
                       "RIFA" + Last4(raffle.id) + Last4(t.id), now + 30 * 60 * 1000);
    match FindByTicket(db.payments, ticketId)
    case Some(existing) =>
      UpdateKeepsTicketPayment(db.payments, ticketId, existing, PixPatch(ticketId, userId, t, pix), now);
    case None =>
      var created := NewPayment(PaymentFields(ticketId, userId, t.body.raffle, t.body.totalAmount, "pix",
                                              PaymentStatus.Pending, None, None, Some(pix)), suffix, now);
      AppendIsTicketPayment(db.payments, ticketId, created);
  }

  /** Updating a ticket's payment with a patch that keeps it on the ticket
      leaves the updated row as the ticket's payment: the row updated is the
      first with that id, which stands no later than the ticket's first
      payment. */
  lemma UpdateKeepsTicketPayment(payments: seq<Payment>, ticketId: string, existing: Payment,
                                 patch: PaymentFields -> PaymentFields, now: int)
    requires FindByTicket(payments, ticketId) == Some(existing)
    requires patch(payments[IndexOf(payments, existing.id)].body).ticket == ticketId
    ensures FindByTicket(UpdateRows(payments, existing.id, patch, Some(now)), ticketId) ==
            UpdatedRow(payments, existing.id, patch, Some(now))
  {
    var after := UpdateRows(payments, existing.id, patch, Some(now));
    var k :| 0 <= k < |payments| && payments[k] == existing && existing.body.ticket == ticketId &&
             forall j :: 0 <= j < k ==> payments[j].body.ticket != ticketId;
    var i := IndexOf(payments, existing.id);
    assert 0 <= i <= k;
    assert after[i].body.ticket == ticketId;
    var found := FindByTicket(after, ticketId);
    var m :| 0 <= m < |after| && found.value == after[m] && found.value.body.ticket == ticketId &&
             forall j :: 0 <= j < m ==> after[j].body.ticket != ticketId;
    assert m == i;
  }

  /** A payment appended for a ticket that had none becomes its payment. */
  lemma AppendIsTicketPayment(payments: seq<Payment>, ticketId: string, created: Payment)
    requires FindByTicket(payments, ticketId).None? && created.body.ticket == ticketId
    ensures FindByTicket(payments + [created], ticketId) == Some(created)
  {
    var after := payments + [created];
    var found := FindByTicket(after, ticketId);
    assert after[|payments|].body.ticket == ticketId;
    var m :| 0 <= m < |after| && found.value == after[m] && found.value.body.ticket == ticketId &&
             forall j :: 0 <= j < m ==> after[j].body.ticket != ticketId;
    assert m == |payments|;
  }
}
