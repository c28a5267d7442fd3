/** Raffle statistics recomputed from the ticket list: `calculateRaffleStats`
    in src/utils/helpers.js and src/controllers/raffleController.js, and
    `getRaffleStats` in src/services/raffleService.js. */
module Stats {
  import opened Common
  import opened Repository
  import opened Entities

  /** `tickets.reduce((sum, t) => sum + t.quantity, 0)`. */
  function SumQuantity(tickets: seq<Ticket>): int {
    if tickets == [] then 0
    else SumQuantity(tickets[..|tickets| - 1]) + tickets[|tickets| - 1].body.quantity
  }

  /** `tickets.reduce((sum, t) => sum + t.totalAmount, 0)`. */
  function SumAmount(tickets: seq<Ticket>): int {
    if tickets == [] then 0
    else SumAmount(tickets[..|tickets| - 1]) + tickets[|tickets| - 1].body.totalAmount
  }

  /** What one ticket adds to a raffle's sold count: its quantity when it is
      a paid ticket of that raffle. */
  function SoldBy(t: Ticket, raffleId: string): int {
    if t.body.raffle == raffleId && t.body.paymentStatus.Paid? then t.body.quantity else 0
  }

  function EarnedBy(t: Ticket, raffleId: string): int {
    if t.body.raffle == raffleId && t.body.paymentStatus.Paid? then t.body.totalAmount else 0
  }

  /** Tickets sold on a raffle: the quantities of its paid tickets. */
  function SoldOf(tickets: seq<Ticket>, raffleId: string): int {
    if tickets == [] then 0
    else SoldOf(tickets[..|tickets| - 1], raffleId) + SoldBy(tickets[|tickets| - 1], raffleId)
  }

  /** Revenue of a raffle: the amounts of its paid tickets. */
  function RevenueOf(tickets: seq<Ticket>, raffleId: string): int {
    if tickets == [] then 0
    else RevenueOf(tickets[..|tickets| - 1], raffleId) + EarnedBy(tickets[|tickets| - 1], raffleId)
  }

  lemma SumAppend(tickets: seq<Ticket>, t: Ticket)
    ensures SumQuantity(tickets + [t]) == SumQuantity(tickets) + t.body.quantity
    ensures SumAmount(tickets + [t]) == SumAmount(tickets) + t.body.totalAmount
  {
    assert (tickets + [t])[..|tickets|] == tickets;
  }

  /** The paid tickets of a raffle after one more ticket is appended. */
  lemma PaidOfRaffleAppend(tickets: seq<Ticket>, t: Ticket, raffleId: string)
    ensures PaidTickets(TicketsOfRaffle(tickets + [t], raffleId)) ==
              PaidTickets(TicketsOfRaffle(tickets, raffleId)) +
              (if t.body.raffle == raffleId && t.body.paymentStatus.Paid? then [t] else [])
  {
    TicketsOfRaffleAppend(tickets, t, raffleId);
    if t.body.raffle == raffleId {
      PaidTicketsAppend(TicketsOfRaffle(tickets, raffleId), t);
    } else {
      assert TicketsOfRaffle(tickets + [t], raffleId) == TicketsOfRaffle(tickets, raffleId);
    }
  }

  /** The per-ticket sums are the source's filter-then-reduce: the raffle's
      tickets, then the paid ones, then the sum. */
  lemma {:induction false} SoldOfIsFilterReduce(tickets: seq<Ticket>, raffleId: string)
    ensures SoldOf(tickets, raffleId) == SumQuantity(PaidTickets(TicketsOfRaffle(tickets, raffleId)))
  {
    if tickets != [] {
      var init := tickets[..|tickets| - 1];
      var last := tickets[|tickets| - 1];
      assert tickets == init + [last];
      SoldOfIsFilterReduce(init, raffleId);
      AppendTicket(init, last, raffleId);
      PaidOfRaffleAppend(init, last, raffleId);
      var paid := PaidTickets(TicketsOfRaffle(init, raffleId));
      if last.body.raffle == raffleId && last.body.paymentStatus.Paid? {
        SumAppend(paid, last);
      } else {
        assert paid + [] == paid;
      }
    }
  }

  lemma {:induction false} RevenueOfIsFilterReduce(tickets: seq<Ticket>, raffleId: string)
    ensures RevenueOf(tickets, raffleId) == SumAmount(PaidTickets(TicketsOfRaffle(tickets, raffleId)))
  {
    if tickets != [] {
      var init := tickets[..|tickets| - 1];
      var last := tickets[|tickets| - 1];
      assert tickets == init + [last];
      RevenueOfIsFilterReduce(init, raffleId);
      AppendTicket(init, last, raffleId);
      PaidOfRaffleAppend(init, last, raffleId);
      var paid := PaidTickets(TicketsOfRaffle(init, raffleId));
      if last.body.raffle == raffleId && last.body.paymentStatus.Paid? {
        SumAppend(paid, last);
      } else {
        assert paid + [] == paid;
      }
    }
  }

  lemma PaidTicketsAppend(tickets: seq<Ticket>, t: Ticket)
    ensures PaidTickets(tickets + [t]) == PaidTickets(tickets) + (if t.body.paymentStatus.Paid? then [t] else [])
  {
    assert (tickets + [t])[..|tickets|] == tickets;
  }

  /** Replacing one ticket changes the sold count and revenue of a raffle by
      the difference of the two tickets' contributions, and by nothing else. */
  lemma {:induction false} ReplaceTicket(tickets: seq<Ticket>, k: int, t: Ticket, raffleId: string)
    requires 0 <= k < |tickets|
    ensures SoldOf(tickets[k := t], raffleId) == SoldOf(tickets, raffleId) - SoldBy(tickets[k], raffleId) + SoldBy(t, raffleId)
    ensures RevenueOf(tickets[k := t], raffleId) == RevenueOf(tickets, raffleId) - EarnedBy(tickets[k], raffleId) + EarnedBy(t, raffleId)
  {
    var n := |tickets|;
    var updated := tickets[k := t];
    assert updated[..n - 1] == if k == n - 1 then tickets[..n - 1] else tickets[..n - 1][k := t];
    if k < n - 1 {
      ReplaceTicket(tickets[..n - 1], k, t, raffleId);
    }
  }

  /** Appending a ticket adds its own contribution. */
  lemma AppendTicket(tickets: seq<Ticket>, t: Ticket, raffleId: string)
    ensures SoldOf(tickets + [t], raffleId) == SoldOf(tickets, raffleId) + SoldBy(t, raffleId)
    ensures RevenueOf(tickets + [t], raffleId) == RevenueOf(tickets, raffleId) + EarnedBy(t, raffleId)
  {
    assert (tickets + [t])[..|tickets|] == tickets;
  }

  /** The statistics of helpers' `calculateRaffleStats(raffle, tickets)`;
      `completionPercentage` is `None` where the source divides by zero. */
  datatype RaffleStats = RaffleStats(soldTickets: int, availableTickets: int, revenue: int, completionPercentage: Option<real>)

  function CalculateRaffleStats(raffle: RaffleFields, tickets: seq<Ticket>): (r: RaffleStats)
    ensures r.soldTickets == SumQuantity(PaidTickets(tickets))
    ensures r.revenue == SumAmount(PaidTickets(tickets))
    ensures r.soldTickets + r.availableTickets == raffle.totalTickets
    ensures r.completionPercentage.Some? <==> raffle.totalTickets != 0
    ensures r.completionPercentage.Some? ==>
              r.completionPercentage.value * (raffle.totalTickets as real) == 100.0 * r.soldTickets as real
  {
    var paid := PaidTickets(tickets);
    var sold := SumQuantity(paid);
    RaffleStats(sold, raffle.totalTickets - sold, SumAmount(paid),
                if raffle.totalTickets == 0 then None
                else Some(Percent(sold as real, raffle.totalTickets as real)))
  }

  /** `(sold / total) * 100`. */
  function Percent(sold: real, total: real): (p: real)
    requires total != 0.0
    ensures p * total == 100.0 * sold
  {
    var q := sold / total;
    assert q * total == sold;
    q * 100.0
  }

  /** `getRaffleStats(raffleId)`: `null` for an unknown raffle, otherwise the
      same figures over the raffle's tickets. */
  function GetRaffleStats(db: Db, raffleId: string): (r: Option<RaffleStats>)
    ensures r.None? <==> FindFirst(db.raffles, raffleId).None?
    ensures r.Some? ==>
              r.value.soldTickets == SoldOf(db.tickets, raffleId) &&
              r.value.revenue == RevenueOf(db.tickets, raffleId) &&
              r.value.availableTickets == FindFirst(db.raffles, raffleId).value.body.totalTickets - SoldOf(db.tickets, raffleId)
  {
    SoldOfIsFilterReduce(db.tickets, raffleId);
    RevenueOfIsFilterReduce(db.tickets, raffleId);
    match FindFirst(db.raffles, raffleId)
    case None => None
    case Some(raffle) => Some(CalculateRaffleStats(raffle.body, TicketsOfRaffle(db.tickets, raffleId)))
  }

  /** `Math.round(progress * 100) / 100` in hundredths of a percent:
      10000 * sold / total rounded half up, and 0 when total is not positive. */
  function ProgressHundredths(sold: int, total: int): (p: int)
    ensures total <= 0 ==> p == 0
    ensures total > 0 ==> 2 * total * p <= 20000 * sold + total < 2 * total * (p + 1)
  {
    if total > 0 then (20000 * sold + total) / (2 * total) else 0
  }

  /** The controller's statistics; `progress` in hundredths of a percent. */
  datatype ControllerStats = ControllerStats(soldTickets: int, availableTickets: int, progress: int, revenue: int)

  /** The controller's `calculateRaffleStats(raffleId)`. `ticketList` is the
      stored ticket list, `None` when the store has none: the `filter` on it
      throws and the catch answers all zeros. */
  function ControllerRaffleStats(ticketList: Option<seq<Ticket>>, raffles: seq<Raffle>, raffleId: string): (r: ControllerStats)
    ensures ticketList.None? ==> r == ControllerStats(0, 0, 0, 0)
    ensures ticketList.Some? ==>
              r.soldTickets == SoldOf(ticketList.value, raffleId) &&
              r.revenue == RevenueOf(ticketList.value, raffleId) &&
              r.soldTickets + r.availableTickets == (if FindFirst(raffles, raffleId).Some? then FindFirst(raffles, raffleId).value.body.totalTickets else 0)
  {
    match ticketList
    case None => ControllerStats(0, 0, 0, 0)
    case Some(tickets) =>
      SoldOfIsFilterReduce(tickets, raffleId);
      RevenueOfIsFilterReduce(tickets, raffleId);
      var paid := PaidTickets(TicketsOfRaffle(tickets, raffleId));
      var sold := SumQuantity(paid);
      var raffle := FindFirst(raffles, raffleId);
      var total := if raffle.Some? then raffle.value.body.totalTickets else 0;
      ControllerStats(sold, total - sold, ProgressHundredths(sold, total), SumAmount(paid))
  }

  /** The three computations agree on a stored raffle: the controller, the
      service and the helper report the same sold, available and revenue. */
  lemma StatsAgree(db: Db, raffleId: string)
    requires FindFirst(db.raffles, raffleId).Some?
    ensures GetRaffleStats(db, raffleId).Some?
    ensures var s := GetRaffleStats(db, raffleId).value;
            var c := ControllerRaffleStats(Some(db.tickets), db.raffles, raffleId);
            c.soldTickets == s.soldTickets && c.availableTickets == s.availableTickets && c.revenue == s.revenue
  {
  }

  /** A ticket that is not paid changes no statistic. */
  lemma UnpaidTicketCountsNothing(tickets: seq<Ticket>, t: Ticket, raffleId: string)
    requires !t.body.paymentStatus.Paid?
    ensures SoldOf(tickets + [t], raffleId) == SoldOf(tickets, raffleId)
    ensures RevenueOf(tickets + [t], raffleId) == RevenueOf(tickets, raffleId)
  {
    AppendTicket(tickets, t, raffleId);
  }
}
