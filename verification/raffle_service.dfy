/** The raffle service (src/services/raffleService.js): the status machine,
    the owner's edits and deletion, and the draw. Each state-changing
    operation is a function from the store before to the answer and the store
    after, and a method over the repositories proved to compute it. The
    service's repository is taken as wired (see base_service.dfy). */
module RaffleService {
  import opened Common
  import opened Repository
  import opened Entities
  import opened TicketRepository
  import opened Draw

  // ---------------------------------------------------------------------------
  // Status machine

  /** The `validTransitions` table. */
  function Successors(current: RaffleStatus): seq<RaffleStatus> {
    match current
    case Pending => [RaffleStatus.Active, RaffleStatus.Cancelled]
    case Active => [Paused, RaffleStatus.Completed, RaffleStatus.Cancelled]
    case Paused => [RaffleStatus.Active, RaffleStatus.Cancelled]
    case Completed => []
    case Cancelled => []
  }

  predicate CanMove(current: RaffleStatus, next: RaffleStatus) {
    next in Successors(current)
  }

  /** `validateStatusTransition(currentStatus, newStatus, raffle)`: the table
      first, then the rule that a raffle is only activated with an end date. */
  function ValidateStatusTransition(current: RaffleStatus, next: RaffleStatus, endDate: Option<int>): (r: Option<Error>)
    ensures r.None? <==> CanMove(current, next) && (next == RaffleStatus.Active ==> endDate.Some?)
    ensures r == Some(InvalidTransition) <==> !CanMove(current, next)
    ensures r == Some(EndDateRequired) <==> CanMove(current, next) && next == RaffleStatus.Active && endDate.None?
  {
    if !CanMove(current, next) then Some(InvalidTransition)
    else if next == RaffleStatus.Active && endDate.None? then Some(EndDateRequired)
    else None
  }

  /** Completed and cancelled are final, nothing returns to pending, every
      state that is not final can be cancelled, and active and paused are each
      reachable from the other. */
  lemma TransitionTableShape(current: RaffleStatus, next: RaffleStatus)
    ensures current == RaffleStatus.Completed || current == RaffleStatus.Cancelled ==> !CanMove(current, next)
    ensures !CanMove(current, RaffleStatus.Pending)
    ensures !CanMove(current, current)
    ensures current != RaffleStatus.Completed && current != RaffleStatus.Cancelled ==> CanMove(current, RaffleStatus.Cancelled)
    ensures CanMove(RaffleStatus.Active, Paused) && CanMove(Paused, RaffleStatus.Active)
    ensures CanMove(current, RaffleStatus.Completed) <==> current == RaffleStatus.Active
  {
  }

  /** Along any run of allowed transitions, only the last state can be final
      and only the first can be pending. */
  lemma {:induction false} RunShape(run: seq<RaffleStatus>)
    requires forall i :: 0 <= i < |run| - 1 ==> CanMove(run[i], run[i + 1])
    ensures forall i :: 0 <= i < |run| - 1 ==> run[i] != RaffleStatus.Completed && run[i] != RaffleStatus.Cancelled
    ensures forall i :: 0 < i < |run| ==> run[i] != RaffleStatus.Pending
  {
    if |run| > 1 {
      RunShape(run[1..]);
      assert CanMove(run[0], run[1]);
      forall i | 0 < i < |run| - 1
        ensures run[i] != RaffleStatus.Completed && run[i] != RaffleStatus.Cancelled
      {
        assert run[1..][i - 1] == run[i];
      }
      forall i | 1 < i < |run|
        ensures run[i] != RaffleStatus.Pending
      {
        assert run[1..][i - 1] == run[i];
      }
    }
  }

  /** The `{ status: newStatus }` patch. */
  function SetStatus(next: RaffleStatus): RaffleFields -> RaffleFields {
    (b: RaffleFields) => b.(status := next)
  }

  /** The owner's lookup every owner operation starts with: not found, then
      not the owner. */
  function OwnedRaffle(raffles: seq<Raffle>, raffleId: string, userId: string): (r: Result<Raffle>)
    ensures r == Err(NotFound) <==> FindFirst(raffles, raffleId).None?
    ensures r == Err(AccessDenied) <==>
              FindFirst(raffles, raffleId).Some? && FindFirst(raffles, raffleId).value.body.owner != userId
    ensures r.Ok? ==> FindFirst(raffles, raffleId) == Some(r.value) && r.value.body.owner == userId
  {
    match FindFirst(raffles, raffleId)
    case None => Err(NotFound)
    case Some(raffle) => if raffle.body.owner != userId then Err(AccessDenied) else Ok(raffle)
  }

  /** `updateStatus(raffleId, newStatus, userId)`: after the owner check and the
      transition check, only the status changes (and the record is stamped). */
  function UpdateStatusSpec(db: Db, raffleId: string, next: RaffleStatus, userId: string, now: int)
    : (out: (Result<Option<Raffle>>, Db))
    ensures out.0.Err? ==> out.1 == db
    ensures out.0.Ok? <==>
              OwnedRaffle(db.raffles, raffleId, userId).Ok? &&
              ValidateStatusTransition(FindFirst(db.raffles, raffleId).value.body.status, next,
                                       FindFirst(db.raffles, raffleId).value.body.endDate).None?
    ensures out.0.Ok? ==>
              out.1 == db.(raffles := UpdateRows(db.raffles, raffleId, SetStatus(next), Some(now))) &&
              out.0.value.Some? && out.0.value.value.body == FindFirst(db.raffles, raffleId).value.body.(status := next)
  {
    match OwnedRaffle(db.raffles, raffleId, userId)
    case Err(e) => (Err(e), db)
    case Ok(raffle) =>
      match ValidateStatusTransition(raffle.body.status, next, raffle.body.endDate)
      case Some(e) => (Err(e), db)
      case None =>
        (Ok(UpdatedRow(db.raffles, raffleId, SetStatus(next), Some(now))),
         db.(raffles := UpdateRows(db.raffles, raffleId, SetStatus(next), Some(now))))
  }

  /** `updateStatus`, over the store. */
  method UpdateStatus(store: Store, raffleId: string, next: RaffleStatus, userId: string, now: int)
    returns (r: Result<Option<Raffle>>)
    modifies store.raffles
    ensures (r, store.Snapshot()) == UpdateStatusSpec(old(store.Snapshot()), raffleId, next, userId, now)
  {
    var owned := OwnedRaffle(store.raffles.items, raffleId, userId);
    if owned.Err? {
      return Err(owned.error);
    }
    var raffle := owned.value;
    var problem := ValidateStatusTransition(raffle.body.status, next, raffle.body.endDate);
    if problem.Some? {
      return Err(problem.value);
    }
    var updated := store.raffles.Update(raffleId, SetStatus(next), now);
    r := Ok(updated);
  }

  // ---------------------------------------------------------------------------
  // Editing and deleting

  /** The fields `updateRaffle` may receive; `None` is a field left out of the
      request. */
  datatype RafflePatch = RafflePatch(
    title: Option<string>,
    description: Option<string>,
    ticketPrice: Option<int>,
    totalTickets: Option<int>,
    endDate: Option<int>,
    settings: Option<Settings>)

  /** `{ ...raffle, ...updateData }` for a patch. */
  function ApplyPatch(p: RafflePatch): RaffleFields -> RaffleFields {
    (b: RaffleFields) =>
      b.(title := p.title.GetOr(b.title),
         description := p.description.GetOr(b.description),
         ticketPrice := p.ticketPrice.GetOr(b.ticketPrice),
         totalTickets := p.totalTickets.GetOr(b.totalTickets),
         endDate := if p.endDate.Some? then p.endDate else b.endDate,
         settings := p.settings.GetOr(b.settings))
  }

  /** The restricted-field rule: on an active raffle with sales, a request that
      names `totalTickets` and then one that names `ticketPrice` is refused. */
  function RestrictedCheck(raffle: RaffleFields, p: RafflePatch): (r: Option<Error>)
    ensures r.None? <==>
              !(raffle.status == RaffleStatus.Active && OrZero(raffle.soldTickets) > 0) ||
              (p.totalTickets.None? && p.ticketPrice.None?)
    ensures r.Some? ==>
              r.value == RestrictedField(if p.totalTickets.Some? then "totalTickets" else "ticketPrice")
  {
    if raffle.status == RaffleStatus.Active && OrZero(raffle.soldTickets) > 0 then
      if p.totalTickets.Some? then Some(RestrictedField("totalTickets"))
      else if p.ticketPrice.Some? then Some(RestrictedField("ticketPrice"))
      else None
    else None
  }

  /** `updateRaffle(raffleId, updateData, userId)`. */
  function UpdateRaffleSpec(db: Db, raffleId: string, p: RafflePatch, userId: string, now: int)
    : (out: (Result<Option<Raffle>>, Db))
    ensures out.0.Err? ==> out.1 == db
    ensures out.0.Ok? <==>
              OwnedRaffle(db.raffles, raffleId, userId).Ok? &&
              RestrictedCheck(FindFirst(db.raffles, raffleId).value.body, p).None?
    ensures out.0.Ok? ==> out.1 == db.(raffles := UpdateRows(db.raffles, raffleId, ApplyPatch(p), Some(now)))
  {
    match OwnedRaffle(db.raffles, raffleId, userId)
    case Err(e) => (Err(e), db)
    case Ok(raffle) =>
      match RestrictedCheck(raffle.body, p)
      case Some(e) => (Err(e), db)
      case None =>
        (Ok(UpdatedRow(db.raffles, raffleId, ApplyPatch(p), Some(now))),
         db.(raffles := UpdateRows(db.raffles, raffleId, ApplyPatch(p), Some(now))))
  }

  /** `updateRaffle`, over the store. */
  method UpdateRaffle(store: Store, raffleId: string, p: RafflePatch, userId: string, now: int)
    returns (r: Result<Option<Raffle>>)
    modifies store.raffles
    ensures (r, store.Snapshot()) == UpdateRaffleSpec(old(store.Snapshot()), raffleId, p, userId, now)
  {
    var owned := OwnedRaffle(store.raffles.items, raffleId, userId);
    if owned.Err? {
      return Err(owned.error);
    }
    var problem := RestrictedCheck(owned.value.body, p);
    if problem.Some? {
      return Err(problem.value);
    }
    var updated := store.raffles.Update(raffleId, ApplyPatch(p), now);
    r := Ok(updated);
  }

  /** An edit keeps an active raffle's price and size once it has sales, and
      no edit touches the status, the owner, the counters or the draw result:
      those change only through their own operations. */
  lemma UpdateRaffleKeeps(db: Db, raffleId: string, p: RafflePatch, userId: string, now: int)
    requires UpdateRaffleSpec(db, raffleId, p, userId, now).0.Ok?
    ensures var before := FindFirst(db.raffles, raffleId).value;
            var after := UpdateRaffleSpec(db, raffleId, p, userId, now).1;
            var k := IndexOf(db.raffles, raffleId);
            0 <= k && after.raffles[k].id == raffleId && before == db.raffles[k] &&
            after.raffles[k].body.status == before.body.status && after.raffles[k].body.owner == before.body.owner &&
            after.raffles[k].body.soldTickets == before.body.soldTickets &&
            after.raffles[k].body.revenue == before.body.revenue &&
            after.raffles[k].body.winner == before.body.winner &&
            (before.body.status == RaffleStatus.Active && OrZero(before.body.soldTickets) > 0 ==>
               after.raffles[k].body.ticketPrice == before.body.ticketPrice &&
               after.raffles[k].body.totalTickets == before.body.totalTickets)
  {
  }

  /** `deleteRaffle(raffleId, userId)`: only the owner, only without sales; the
      first record with that id is spliced out. */
  function DeleteSpec(db: Db, raffleId: string, userId: string): (out: (Result<bool>, Db))
    ensures out.0.Err? ==> out.1 == db
    ensures out.0 == Err(HasSoldTickets) <==>
              OwnedRaffle(db.raffles, raffleId, userId).Ok? && OrZero(FindFirst(db.raffles, raffleId).value.body.soldTickets) > 0
    ensures out.0.Ok? <==>
              OwnedRaffle(db.raffles, raffleId, userId).Ok? && OrZero(FindFirst(db.raffles, raffleId).value.body.soldTickets) <= 0
    ensures out.0.Ok? ==> out.0.value && out.1 == db.(raffles := RemoveRow(db.raffles, raffleId))
  {
    match OwnedRaffle(db.raffles, raffleId, userId)
    case Err(e) => (Err(e), db)
    case Ok(raffle) =>
      if OrZero(raffle.body.soldTickets) > 0 then (Err(HasSoldTickets), db)
      else (Ok(IndexOf(db.raffles, raffleId) >= 0), db.(raffles := RemoveRow(db.raffles, raffleId)))
  }

  /** `deleteRaffle`, over the store. */
  method DeleteRaffle(store: Store, raffleId: string, userId: string) returns (r: Result<bool>)
    modifies store.raffles
    ensures (r, store.Snapshot()) == DeleteSpec(old(store.Snapshot()), raffleId, userId)
  {
    var owned := OwnedRaffle(store.raffles.items, raffleId, userId);
    if owned.Err? {
      return Err(owned.error);
    }
    if OrZero(owned.value.body.soldTickets) > 0 {
      return Err(HasSoldTickets);
    }
    var deleted := store.raffles.Delete(raffleId);
    r := Ok(deleted);
  }

  /** With unique ids, a deleted raffle is gone and every other raffle is still
      there; its tickets and payments are left as they were. */
  lemma DeleteRemovesOnlyIt(db: Db, raffleId: string, userId: string, otherId: string)
    requires UniqueIds(db.raffles)
    requires DeleteSpec(db, raffleId, userId).0.Ok?
    ensures var after := DeleteSpec(db, raffleId, userId).1;
            FindFirst(after.raffles, raffleId).None? &&
            (otherId != raffleId ==> FindFirst(after.raffles, otherId) == FindFirst(db.raffles, otherId)) &&
            after.tickets == db.tickets && after.payments == db.payments
  {
    RemoveRowRemoves(db.raffles, raffleId);
    if otherId != raffleId {
      RemoveRowKeepsOthers(db.raffles, raffleId, otherId);
    }
  }

  // ---------------------------------------------------------------------------
  // Draw

  /** `if (raffle.winner)`: an empty winner is falsy. */
  predicate HasWinner(raffle: RaffleFields) {
    raffle.winner.Some? && raffle.winner.value != ""
  }

  /** The raffle patch the draw applies. */
  function WinPatch(w: Winner, now: int): RaffleFields -> RaffleFields {
    (b: RaffleFields) => b.(status := RaffleStatus.Completed, winner := Some(w.winnerUserId),
                            winnerTicket := Some(w.winnerTicketNumber), drawDate := Some(now))
  }

  /** The winner part of `drawRaffle`'s answer. */
  datatype WinnerInfo = WinnerInfo(id: string, name: string, email: string, ticketNumber: string)

  datatype DrawOutcome = DrawOutcome(raffle: Option<Raffle>, winner: WinnerInfo)

  /** The draw's guards in their order: not found, not the owner, not active,
      already drawn, no paid ticket. */
  function DrawCheck(db: Db, raffleId: string, userId: string): (r: Result<Raffle>)
    ensures r.Ok? ==> FindFirst(db.raffles, raffleId) == Some(r.value)
  {
    match OwnedRaffle(db.raffles, raffleId, userId)
    case Err(e) => Err(e)
    case Ok(raffle) =>
      if raffle.body.status != RaffleStatus.Active then Err(RaffleNotActive)
      else if HasWinner(raffle.body) then Err(AlreadyDrawn)
      else if |PaidTickets(TicketsOfRaffle(db.tickets, raffleId))| == 0 then Err(NoPaidTickets)
      else Ok(raffle)
  }

  /** `drawRaffle(raffleId, userId)`; `u` is the value of `Math.random()`.
      After the guards, the winner is drawn from the pool of the paid tickets'
      numbers; the raffle is completed with the winner and stamped, and the
      winning ticket flagged (without a stamp). A winner whose user record is
      missing makes the answer fail after those writes. */
  function DrawSpec(db: Db, raffleId: string, userId: string, u: real, now: int): (out: (Result<DrawOutcome>, Db))
    requires 0.0 <= u < 1.0
    ensures out.0.Err? && out.0.error != Internal ==> out.1 == db
    ensures var drawn := DrawFrom(PaidTickets(TicketsOfRaffle(db.tickets, raffleId)), u);
            out.0.Ok? <==>
              DrawCheck(db, raffleId, userId).Ok? && drawn.Ok? && FindFirst(db.users, drawn.value.winnerUserId).Some?
    // an empty pool fails before any write
    ensures DrawCheck(db, raffleId, userId).Ok? &&
            DrawFrom(PaidTickets(TicketsOfRaffle(db.tickets, raffleId)), u).Err? ==>
              out == (Err(Internal), db)
    // a winner without a user record fails after the raffle and ticket writes
    ensures var drawn := DrawFrom(PaidTickets(TicketsOfRaffle(db.tickets, raffleId)), u);
            DrawCheck(db, raffleId, userId).Ok? && drawn.Ok? && FindFirst(db.users, drawn.value.winnerUserId).None? ==>
              out.0 == Err(Internal) &&
              out.1 == db.(raffles := UpdateRows(db.raffles, raffleId, WinPatch(drawn.value, now), Some(now)),
                           tickets := UpdateRows(db.tickets, drawn.value.winnerTicketId, SetWinner, None))
    // and those are the only ways to fail with an internal error
    ensures var drawn := DrawFrom(PaidTickets(TicketsOfRaffle(db.tickets, raffleId)), u);
            out.0 == Err(Internal) <==>
              DrawCheck(db, raffleId, userId).Ok? &&
              (drawn.Err? || FindFirst(db.users, drawn.value.winnerUserId).None?)
  {
    match DrawCheck(db, raffleId, userId)
    case Err(e) => (Err(e), db)
    case Ok(raffle) =>
      match DrawFrom(PaidTickets(TicketsOfRaffle(db.tickets, raffleId)), u)
      case Err(e) => (Err(e), db)
      case Ok(w) =>
        var db1 := db.(raffles := UpdateRows(db.raffles, raffleId, WinPatch(w, now), Some(now)),
                       tickets := UpdateRows(db.tickets, w.winnerTicketId, SetWinner, None));
        match FindFirst(db.users, w.winnerUserId)
        case None => (Err(Internal), db1)
        case Some(user) =>
          (Ok(DrawOutcome(UpdatedRow(db.raffles, raffleId, WinPatch(w, now), Some(now)),
                          WinnerInfo(user.id, user.body.name, user.body.email, w.winnerTicketNumber))),
           db1)
  }

  /** `drawRaffle`, over the store. */
  method DrawRaffle(store: Store, raffleId: string, userId: string, u: real, now: int) returns (r: Result<DrawOutcome>)
    requires 0.0 <= u < 1.0
    modifies store.raffles, store.tickets
    ensures (r, store.Snapshot()) == DrawSpec(old(store.Snapshot()), raffleId, userId, u, now)
  {
    ghost var db := store.Snapshot();
    var checked := DrawCheck(store.Snapshot(), raffleId, userId);
    if checked.Err? {
      return Err(checked.error);
    }
    var paid := PaidTickets(TicketsOfRaffle(store.tickets.items, raffleId));
    var drawn := PerformDraw(paid, u);
    if drawn.Err? {
      return Err(drawn.error);
    }
    var w := drawn.value;
    var updatedRaffle := store.raffles.Update(raffleId, WinPatch(w, now), now);
    var _ := store.tickets.Merge(w.winnerTicketId, SetWinner);
    assert store.Snapshot() == db.(raffles := UpdateRows(db.raffles, raffleId, WinPatch(w, now), Some(now)),
                                   tickets := UpdateRows(db.tickets, w.winnerTicketId, SetWinner, None));
    var user := store.users.FindById(w.winnerUserId);
    if user.None? {
      return Err(Internal);
    }
    r := Ok(DrawOutcome(updatedRaffle, WinnerInfo(user.value.id, user.value.body.name, user.value.body.email,
                                                  w.winnerTicketNumber)));
  }

  /** Each guard is reported exactly when the earlier ones pass and it fails. */
  lemma DrawGuardOrder(db: Db, raffleId: string, userId: string)
    ensures var r := DrawCheck(db, raffleId, userId);
            var found := FindFirst(db.raffles, raffleId);
            (r == Err(NotFound) <==> found.None?) &&
            (r == Err(AccessDenied) <==> found.Some? && found.value.body.owner != userId) &&
            (r == Err(RaffleNotActive) <==>
               found.Some? && found.value.body.owner == userId && found.value.body.status != RaffleStatus.Active) &&
            (r == Err(AlreadyDrawn) <==>
               found.Some? && found.value.body.owner == userId && found.value.body.status == RaffleStatus.Active &&
               HasWinner(found.value.body)) &&
            (r == Err(NoPaidTickets) <==>
               found.Some? && found.value.body.owner == userId && found.value.body.status == RaffleStatus.Active &&
               !HasWinner(found.value.body) &&
               forall i :: 0 <= i < |db.tickets| && db.tickets[i].body.raffle == raffleId ==>
                 !db.tickets[i].body.paymentStatus.Paid?)
  {
    var paid := PaidTickets(TicketsOfRaffle(db.tickets, raffleId));
    var ofRaffle := TicketsOfRaffle(db.tickets, raffleId);
    if |paid| > 0 {
      assert paid[0] in ofRaffle;
      var k :| 0 <= k < |ofRaffle| && ofRaffle[k] == paid[0];
      var i :| 0 <= i < |db.tickets| && db.tickets[i] == ofRaffle[k];
    } else {
      forall i | 0 <= i < |db.tickets| && db.tickets[i].body.raffle == raffleId
        ensures !db.tickets[i].body.paymentStatus.Paid?
      {
        var k :| 0 <= k < |ofRaffle| && ofRaffle[k] == db.tickets[i];
      }
    }
  }

  /** The drawn number is a number of a paid ticket of that raffle, reported
      with that ticket's id and user. */
  lemma DrawnFromPaidTicket(tickets: seq<Ticket>, raffleId: string, u: real)
    requires 0.0 <= u < 1.0
    requires DrawFrom(PaidTickets(TicketsOfRaffle(tickets, raffleId)), u).Ok?
    ensures var w := DrawFrom(PaidTickets(TicketsOfRaffle(tickets, raffleId)), u).value;
            exists i :: 0 <= i < |tickets| && tickets[i].body.raffle == raffleId &&
              tickets[i].body.paymentStatus.Paid? && tickets[i].id == w.winnerTicketId &&
              tickets[i].body.user == w.winnerUserId && w.winnerTicketNumber in tickets[i].body.ticketNumbers
  {
    var ofRaffle := TicketsOfRaffle(tickets, raffleId);
    var paid := PaidTickets(ofRaffle);
    var w := DrawFrom(paid, u).value;
    var j :| 0 <= j < |paid| && w.winnerTicketId == paid[j].id &&
             w.winnerUserId == paid[j].body.user && w.winnerTicketNumber in paid[j].body.ticketNumbers;
    assert paid[j] in ofRaffle;
    var k :| 0 <= k < |ofRaffle| && ofRaffle[k] == paid[j];
    var i :| 0 <= i < |tickets| && tickets[i] == ofRaffle[k];
  }

  /** After a successful draw the raffle is completed with the winner, the
      number and the draw date, the winning ticket is flagged, the answer
      names the winner and the number, and nothing else in the store changes. */
  lemma DrawResult(db: Db, raffleId: string, userId: string, u: real, now: int)
    requires 0.0 <= u < 1.0
    requires DrawSpec(db, raffleId, userId, u, now).0.Ok?
    ensures var out := DrawSpec(db, raffleId, userId, u, now);
            var w := DrawFrom(PaidTickets(TicketsOfRaffle(db.tickets, raffleId)), u).value;
            var k := IndexOf(db.raffles, raffleId);
            0 <= k && out.1.raffles[k].body.status == RaffleStatus.Completed &&
            out.1.raffles[k].body.winner == Some(w.winnerUserId) &&
            out.1.raffles[k].body.winnerTicket == Some(w.winnerTicketNumber) &&
            out.1.raffles[k].body.drawDate == Some(now) &&
            out.0.value.winner.ticketNumber == w.winnerTicketNumber && out.0.value.winner.id == w.winnerUserId &&
            IndexOf(db.tickets, w.winnerTicketId) >= 0 &&
            out.1.tickets[IndexOf(db.tickets, w.winnerTicketId)].body.isWinner &&
            out.1 == db.(raffles := UpdateRows(db.raffles, raffleId, WinPatch(w, now), Some(now)),
                         tickets := UpdateRows(db.tickets, w.winnerTicketId, SetWinner, None))
  {
    DrawnFromPaidTicket(db.tickets, raffleId, u);
  }

  /** A raffle cannot be drawn twice: after a draw has written its result,
      drawing again is refused because the raffle is no longer active. */
  lemma SecondDrawRefused(db: Db, raffleId: string, userId: string, u: real, now: int, u2: real, now2: int)
    requires 0.0 <= u < 1.0 && 0.0 <= u2 < 1.0
    requires DrawCheck(db, raffleId, userId).Ok?
    requires DrawFrom(PaidTickets(TicketsOfRaffle(db.tickets, raffleId)), u).Ok?
    ensures var after := DrawSpec(db, raffleId, userId, u, now).1;
            DrawSpec(after, raffleId, userId, u2, now2).0 == Err(RaffleNotActive)
  {
    var w := DrawFrom(PaidTickets(TicketsOfRaffle(db.tickets, raffleId)), u).value;
    var after := DrawSpec(db, raffleId, userId, u, now).1;
    UpdateRowsKeepsIndex(db.raffles, raffleId, WinPatch(w, now), Some(now), raffleId);
    assert after.raffles == UpdateRows(db.raffles, raffleId, WinPatch(w, now), Some(now));
    assert DrawCheck(after, raffleId, userId) == Err(RaffleNotActive);
  }
}
