/** The records of the raffle backend and the in-memory store that holds them
    (the lists the data manager loads and saves). Money is in integer cents,
    timestamps are integer milliseconds. */
module Entities {
  import opened Common
  import opened Repository

  /** PAYMENT_STATUS: shared by a ticket's `paymentStatus` and a payment's `status`. */
  datatype PaymentStatus = Pending | Processing | Completed | Paid | Failed | Cancelled

  /** RAFFLE_STATUS. */
  datatype RaffleStatus = Pending | Active | Paused | Completed | Cancelled

  datatype Settings = Settings(maxTicketsPerPerson: Option<int>, allowComments: bool, autoApprovePayments: bool)

  datatype RaffleFields = RaffleFields(
    title: string,
    description: string,
    ticketPrice: int,
    totalTickets: int,
    soldTickets: Option<int>,
    revenue: Option<int>,
    status: RaffleStatus,
    owner: string,
    endDate: Option<int>,
    winner: Option<string>,
    winnerTicket: Option<string>,
    drawDate: Option<int>,
    settings: Settings)

  datatype TicketFields = TicketFields(
    raffle: string,
    user: string,
    ticketNumbers: seq<string>,
    quantity: int,
    totalAmount: int,
    paymentStatus: PaymentStatus,
    paymentMethod: string,
    isWinner: bool,
    paymentDate: Option<int>,
    transactionId: Option<string>)

  datatype PixData = PixData(qrCode: string, pixKey: string, identifier: string, expiresAt: int)

  datatype PaymentFields = PaymentFields(
    ticket: string,
    user: string,
    raffle: string,
    amount: int,
    paymentMethod: string,
    status: PaymentStatus,
    transactionId: Option<string>,
    processedAt: Option<int>,
    pixData: Option<PixData>)

  datatype UserFields = UserFields(
    name: string,
    email: string,
    password: string,
    role: string,
    isActive: bool,
    pixKey: string,
    totalSpent: Option<int>,
    lastPurchase: Option<int>,
    lastLogin: Option<int>,
    registeredAt: Option<int>)

  type Raffle = Row<RaffleFields>
  type Ticket = Row<TicketFields>
  type Payment = Row<PaymentFields>
  type User = Row<UserFields>

  /** The whole store as a value. */
  datatype Db = Db(raffles: seq<Raffle>, tickets: seq<Ticket>, payments: seq<Payment>, users: seq<User>)

  /** The data manager's `getTicketsByRaffle`. */
  function TicketsOfRaffle(tickets: seq<Ticket>, raffleId: string): (r: seq<Ticket>)
    ensures forall j :: 0 <= j < |r| ==> r[j] in tickets && r[j].body.raffle == raffleId
    ensures forall j :: 0 <= j < |tickets| && tickets[j].body.raffle == raffleId ==> tickets[j] in r
  {
    Filter(tickets, (t: Ticket) => t.body.raffle == raffleId)
  }

  /** A ticket appended to the list joins its own raffle's list, at the end. */
  lemma TicketsOfRaffleAppend(tickets: seq<Ticket>, t: Ticket, raffleId: string)
    ensures TicketsOfRaffle(tickets + [t], raffleId) ==
              TicketsOfRaffle(tickets, raffleId) + (if t.body.raffle == raffleId then [t] else [])
  {
    assert (tickets + [t])[..|tickets|] == tickets;
  }

  /** The tickets whose `paymentStatus` is `paid`, in list order (`findPaidTickets`,
      and the `filter` on paid status in the helpers and the services). */
  function PaidTickets(tickets: seq<Ticket>): (r: seq<Ticket>)
    ensures forall j :: 0 <= j < |r| ==> r[j] in tickets && r[j].body.paymentStatus.Paid?
    ensures forall j :: 0 <= j < |tickets| && tickets[j].body.paymentStatus.Paid? ==> tickets[j] in r
  {
    Filter(tickets, (t: Ticket) => t.body.paymentStatus.Paid?)
  }

  /** The four repositories over one shared data manager. */
  class Store {
    const raffles: Repository<RaffleFields>
    const tickets: Repository<TicketFields>
    const payments: Repository<PaymentFields>
    const users: Repository<UserFields>

    constructor (db: Db)
      ensures Snapshot() == db
      ensures fresh(raffles) && fresh(tickets) && fresh(payments) && fresh(users)
    {
      raffles := new Repository(db.raffles);
      tickets := new Repository(db.tickets);
      payments := new Repository(db.payments);
      users := new Repository(db.users);
    }

    function Snapshot(): Db
      reads raffles, tickets, payments, users
    {
      Db(raffles.items, tickets.items, payments.items, users.items)
    }
  }
}
