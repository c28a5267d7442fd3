/** The draw (`performDraw` in src/services/raffleService.js and `drawWinner`
    in src/utils/helpers.js): every number of every paid ticket goes into one
    pool, in order, and `Math.floor(Math.random() * pool.length)` picks one. */
module Draw {
  import opened Common
  import opened Repository
  import opened Entities

  /** One pool entry: `{ number, ticketId, userId }`. */
  datatype Entry = Entry(number: string, ticketId: string, userId: string)

  /** The result of a draw: `{ winnerTicketNumber, winnerTicketId, winnerUserId }`. */
  datatype Winner = Winner(winnerTicketNumber: string, winnerTicketId: string, winnerUserId: string)

  /** The entries one ticket contributes, one per number, in order. */
  function EntriesOf(t: Ticket): (r: seq<Entry>)
    ensures |r| == |t.body.ticketNumbers|
    ensures forall k :: 0 <= k < |r| ==> r[k] == Entry(t.body.ticketNumbers[k], t.id, t.body.user)
  {
    seq(|t.body.ticketNumbers|, k requires 0 <= k < |t.body.ticketNumbers| => Entry(t.body.ticketNumbers[k], t.id, t.body.user))
  }

  /** How many numbers the tickets carry together. */
  function NumberCount(tickets: seq<Ticket>): nat {
    if tickets == [] then 0
    else NumberCount(tickets[..|tickets| - 1]) + |tickets[|tickets| - 1].body.ticketNumbers|
  }

  /** The pool: the tickets' entries one after another. */
  function Pool(tickets: seq<Ticket>): (r: seq<Entry>)
    ensures |r| == NumberCount(tickets)
  {
    if tickets == [] then []
    else Pool(tickets[..|tickets| - 1]) + EntriesOf(tickets[|tickets| - 1])
  }

  lemma PoolPrefix(tickets: seq<Ticket>, j: int)
    requires 0 <= j < |tickets|
    ensures Pool(tickets[..j + 1]) == Pool(tickets[..j]) + EntriesOf(tickets[j])
  {
    assert tickets[..j + 1][..j] == tickets[..j];
  }

  /** Number k of ticket j sits at position NumberCount(tickets[..j]) + k of
      the pool: the pool is the in-order flattening, and each number of each
      ticket has exactly one place in it. */
  lemma {:induction false} PoolPosition(tickets: seq<Ticket>, j: int, k: int)
    requires 0 <= j < |tickets| && 0 <= k < |tickets[j].body.ticketNumbers|
    ensures NumberCount(tickets[..j]) + k < |Pool(tickets)|
    ensures Pool(tickets)[NumberCount(tickets[..j]) + k] == Entry(tickets[j].body.ticketNumbers[k], tickets[j].id, tickets[j].body.user)
  {
    var n := |tickets|;
    var init := tickets[..n - 1];
    if j == n - 1 {
      assert init == tickets[..j];
    } else {
      PoolPosition(init, j, k);
      assert init[..j] == tickets[..j];
      assert init[j] == tickets[j];
    }
  }

  /** Every entry of the pool is a number of one of the tickets, with that
      ticket's id and user. */
  lemma {:induction false} PoolEntryOrigin(tickets: seq<Ticket>, i: int)
    requires 0 <= i < |Pool(tickets)|
    ensures exists j :: 0 <= j < |tickets| && Pool(tickets)[i].ticketId == tickets[j].id &&
              Pool(tickets)[i].userId == tickets[j].body.user && Pool(tickets)[i].number in tickets[j].body.ticketNumbers
  {
    var n := |tickets|;
    var init := tickets[..n - 1];
    if i < |Pool(init)| {
      PoolEntryOrigin(init, i);
      var j :| 0 <= j < |init| && Pool(init)[i].ticketId == init[j].id &&
                Pool(init)[i].userId == init[j].body.user && Pool(init)[i].number in init[j].body.ticketNumbers;
      assert tickets[j] == init[j];
    } else {
      var k := i - |Pool(init)|;
      assert Pool(tickets)[i] == EntriesOf(tickets[n - 1])[k];
    }
  }

  /** `Math.floor(u * n)` for the draw `u` of `Math.random()`. */
  function PickIndex(u: real, n: int): (i: int)
    requires 0.0 <= u < 1.0 && n > 0
    ensures 0 <= i < n
  {
    var x := u * n as real;
    ScaledBelow(u, n as real);
    var f := x.Floor;
    assert f as real <= x < f as real + 1.0;
    assert 0.0 <= x < n as real;
    assert -1.0 < f as real < n as real;
    f
  }

  lemma ScaledBelow(u: real, m: real)
    requires 0.0 <= u < 1.0 && m > 0.0
    ensures 0.0 <= u * m < m
  {
    var d := 1.0 - u;
    assert d > 0.0;
    assert d * m > 0.0;
    assert m - u * m == d * m;
  }

  /** Position i is picked exactly when u falls in [i/n, (i+1)/n): every
      position, and so every sold number, owns an interval of the same width. */
  lemma PickIndexInterval(u: real, n: int, i: int)
    requires 0.0 <= u < 1.0 && n > 0
    ensures PickIndex(u, n) == i <==> (i as real) / (n as real) <= u < ((i + 1) as real) / (n as real)
  {
    var x := u * n as real;
    assert (i as real) / (n as real) <= u <==> i as real <= x;
    assert u < ((i + 1) as real) / (n as real) <==> x < (i + 1) as real;
  }

  /** The draw among the given paid tickets; an empty pool leaves `winnerTicket`
      undefined and the property read throws. */
  function DrawFrom(paid: seq<Ticket>, u: real): (r: Result<Winner>)
    requires 0.0 <= u < 1.0
    ensures r.Ok? <==> NumberCount(paid) > 0
    ensures r.Err? ==> r.error == Internal
    ensures r.Ok? ==>
              exists j :: 0 <= j < |paid| && r.value.winnerTicketId == paid[j].id &&
                r.value.winnerUserId == paid[j].body.user && r.value.winnerTicketNumber in paid[j].body.ticketNumbers
  {
    var pool := Pool(paid);
    if |pool| == 0 then Err(Internal)
    else
      var i := PickIndex(u, |pool|);
      PoolEntryOrigin(paid, i);
      Ok(Winner(pool[i].number, pool[i].ticketId, pool[i].userId))
  }

  /** The nested `forEach` that fills the pool. */
  method BuildPool(paid: seq<Ticket>) returns (pool: seq<Entry>)
    ensures pool == Pool(paid)
  {
    pool := [];
    var i := 0;
    while i < |paid|
      invariant 0 <= i <= |paid|
      invariant pool == Pool(paid[..i])
    {
      var ticket := paid[i];
      var numbers := ticket.body.ticketNumbers;
      var j := 0;
      while j < |numbers|
        invariant 0 <= j <= |numbers|
        invariant pool == Pool(paid[..i]) + EntriesOf(ticket)[..j]
      {
        assert EntriesOf(ticket)[..j + 1] == EntriesOf(ticket)[..j] + [Entry(numbers[j], ticket.id, ticket.body.user)];
        pool := pool + [Entry(numbers[j], ticket.id, ticket.body.user)];
        j := j + 1;
      }
      assert EntriesOf(ticket)[..j] == EntriesOf(ticket);
      PoolPrefix(paid, i);
      i := i + 1;
    }
    assert paid[..i] == paid;
  }

  /** `performDraw(paidTickets)`. */
  method PerformDraw(paid: seq<Ticket>, u: real) returns (r: Result<Winner>)
    requires 0.0 <= u < 1.0
    ensures r == DrawFrom(paid, u)
  {
    var pool := BuildPool(paid);
    if |pool| == 0 {
      return Err(Internal);
    }
    var winner := pool[PickIndex(u, |pool|)];
    r := Ok(Winner(winner.number, winner.ticketId, winner.userId));
  }

  /** `drawWinner(raffleId)`: fails when the raffle has no paid ticket;
      otherwise it is the draw among the raffle's paid tickets, so it succeeds
      exactly when they carry a number (paid tickets without numbers leave the
      pool empty and the property read throws), and the winning number is a
      number of a paid ticket of that raffle, reported with that ticket's id
      and user. */
  method DrawWinner(tickets: seq<Ticket>, raffleId: string, u: real) returns (r: Result<Winner>)
    requires 0.0 <= u < 1.0
    ensures r == Err(NoPaidTickets) <==>
              forall i :: 0 <= i < |tickets| && tickets[i].body.raffle == raffleId ==> !tickets[i].body.paymentStatus.Paid?
    ensures r.Ok? ==>
              exists i :: 0 <= i < |tickets| && tickets[i].body.raffle == raffleId &&
                tickets[i].body.paymentStatus.Paid? && tickets[i].id == r.value.winnerTicketId &&
                tickets[i].body.user == r.value.winnerUserId && r.value.winnerTicketNumber in tickets[i].body.ticketNumbers
    ensures r != Err(NoPaidTickets) ==> r == DrawFrom(PaidTickets(TicketsOfRaffle(tickets, raffleId)), u)
    ensures r.Ok? <==> NumberCount(PaidTickets(TicketsOfRaffle(tickets, raffleId))) > 0
  {
    var ofRaffle := TicketsOfRaffle(tickets, raffleId);
    var paid := PaidTickets(ofRaffle);
    if |paid| == 0 {
      forall i | 0 <= i < |tickets| && tickets[i].body.raffle == raffleId
        ensures !tickets[i].body.paymentStatus.Paid?
      {
        var k :| 0 <= k < |ofRaffle| && ofRaffle[k] == tickets[i];
      }
      return Err(NoPaidTickets);
    }
    assert paid[0] in ofRaffle && paid[0] in tickets;
    r := PerformDraw(paid, u);
    if r.Ok? {
      var j :| 0 <= j < |paid| && r.value.winnerTicketId == paid[j].id &&
                r.value.winnerUserId == paid[j].body.user && r.value.winnerTicketNumber in paid[j].body.ticketNumbers;
      assert paid[j] in ofRaffle;
      var k :| 0 <= k < |ofRaffle| && ofRaffle[k] == paid[j];
      var i :| 0 <= i < |tickets| && tickets[i] == ofRaffle[k];
    }
  }
}
