/** The raffle controller's own logic (src/controllers/raffleController.js):
    the public list's filter and `createRaffle`'s checks and initial record.
    Its statistics helper is `Stats.ControllerRaffleStats`. */
module RaffleController {
  import opened Common
  import opened Repository
  import opened Entities
  import TicketService
  import RaffleService

  /** The public list: `getRaffles().filter(raffle => raffle.status === 'active')`. */
  function ActiveRaffles(raffles: seq<Raffle>): (r: seq<Raffle>)
    ensures forall j :: 0 <= j < |r| ==> r[j] in raffles && r[j].body.status == RaffleStatus.Active
    ensures forall j :: 0 <= j < |raffles| && raffles[j].body.status == RaffleStatus.Active ==> raffles[j] in r
  {
    Filter(raffles, (x: Raffle) => x.body.status == RaffleStatus.Active)
  }

  /** The `settings` of the request body; `None` is a key left out. */
  datatype SettingsInput = SettingsInput(
    maxTicketsPerPerson: Option<int>,
    allowComments: Option<bool>,
    autoApprovePayments: Option<bool>)

  /** The request body of `createRaffle`. Money is in cents; a missing or empty
      text is `""`, a missing number 0, a missing end date `None`. */
  datatype RaffleInput = RaffleInput(
    title: string,
    description: string,
    ticketPrice: int,
    totalTickets: int,
    endDate: Option<int>,
    settings: SettingsInput)

  /** `{ maxTicketsPerPerson: s.maxTicketsPerPerson || 10, allowComments:
      s.allowComments !== false, autoApprovePayments: s.autoApprovePayments
      === true, ...s }`: the defaults are written first and every key the
      request gives overrides them. */
  function InitialSettings(s: SettingsInput): (r: Settings)
    ensures r.maxTicketsPerPerson == if s.maxTicketsPerPerson.Some? then s.maxTicketsPerPerson else Some(10)
    ensures r.allowComments == s.allowComments.GetOr(true)
    ensures r.autoApprovePayments == s.autoApprovePayments.GetOr(false)
  {
    var defaults := Settings(Some(if s.maxTicketsPerPerson.Some? && s.maxTicketsPerPerson.value != 0
                                  then s.maxTicketsPerPerson.value else 10),
                             !(s.allowComments == Some(false)),
                             s.autoApprovePayments == Some(true));
    defaults.(maxTicketsPerPerson := if s.maxTicketsPerPerson.Some? then s.maxTicketsPerPerson else defaults.maxTicketsPerPerson,
              allowComments := s.allowComments.GetOr(defaults.allowComments),
              autoApprovePayments := s.autoApprovePayments.GetOr(defaults.autoApprovePayments))
  }

  /** Because the request's keys come last, an explicit cap of 0 is stored as
      is, and buying then applies no per-person cap; leaving the key out gives
      the cap of 10. */
  lemma ExplicitZeroCapMeansNoCap(s: SettingsInput)
    ensures s.maxTicketsPerPerson == Some(0) ==> TicketService.CapOf(InitialSettings(s)).None?
    ensures s.maxTicketsPerPerson.None? ==> TicketService.CapOf(InitialSettings(s)) == Some(10)
  {
  }

  /** The checks in their order: a required field missing or falsy, then a
      price or total that is not positive, then an end date not in the future. */
  function CreateCheck(input: RaffleInput, now: int): (r: Option<Error>)
    ensures r.None? <==>
              input.title != "" && input.description != "" && input.endDate.Some? &&
              input.ticketPrice > 0 && input.totalTickets > 0 && input.endDate.value > now
    ensures r == Some(MissingFields) <==>
              input.title == "" || input.description == "" || input.ticketPrice == 0 ||
              input.totalTickets == 0 || input.endDate.None?
    ensures r == Some(NonPositiveValues) <==>
              !(input.title == "" || input.description == "" || input.ticketPrice == 0 ||
                input.totalTickets == 0 || input.endDate.None?) &&
              (input.ticketPrice < 0 || input.totalTickets < 0)
  {
    if input.title == "" || input.description == "" || input.ticketPrice == 0 ||
       input.totalTickets == 0 || input.endDate.None? then Some(MissingFields)
    else if input.ticketPrice <= 0 || input.totalTickets <= 0 then Some(NonPositiveValues)
    else if input.endDate.value <= now then Some(EndDateNotInFuture)
    else None
  }

  /** The record `createRaffle` stores: id `"raffle_" + suffix`, pending, no
      sales yet, owned by the caller, created and updated now. */
  function NewRaffle(input: RaffleInput, ownerId: string, suffix: string, now: int): Raffle {
    Row("raffle_" + suffix, Some(now), Some(now),
        RaffleFields(input.title, input.description, input.ticketPrice, input.totalTickets, Some(0), None,
                     RaffleStatus.Pending, ownerId, input.endDate, None, None, None, InitialSettings(input.settings)))
  }

  /** `createRaffle`: a refused request changes nothing; an accepted one
      appends the new raffle. */
  function CreateRaffleSpec(db: Db, input: RaffleInput, ownerId: string, suffix: string, now: int)
    : (out: (Result<Raffle>, Db))
    ensures out.0.Err? <==> CreateCheck(input, now).Some?
    ensures out.0.Err? ==> out.0.error == CreateCheck(input, now).value && out.1 == db
    ensures out.0.Ok? ==>
              var r := out.0.value;
              out.1 == db.(raffles := db.raffles + [r]) &&
              r.body.status == RaffleStatus.Pending && r.body.owner == ownerId &&
              r.body.soldTickets == Some(0) && r.body.winner.None? &&
              r.body.ticketPrice > 0 && r.body.totalTickets > 0 &&
              r.body.endDate.Some? && r.body.endDate.value > now
  {
    match CreateCheck(input, now)
    case Some(e) => (Err(e), db)
    case None =>
      var r := NewRaffle(input, ownerId, suffix, now);
      (Ok(r), db.(raffles := db.raffles + [r]))
  }

  /** `createRaffle`, over the store. */
  method CreateRaffle(store: Store, input: RaffleInput, ownerId: string, suffix: string, now: int)
    returns (r: Result<Raffle>)
    modifies store.raffles
    ensures (r, store.Snapshot()) == CreateRaffleSpec(old(store.Snapshot()), input, ownerId, suffix, now)
  {
    var problem := CreateCheck(input, now);
    if problem.Some? {
      return Err(problem.value);
    }
    var raffle := NewRaffle(input, ownerId, suffix, now);
    store.raffles.Push(raffle);
    r := Ok(raffle);
  }

  /** A new raffle is not on sale: buying from it is refused until its owner
      activates it, which the status machine then allows, since it has an end
      date. (The raffle's id is taken to be new.) */
  lemma NewRaffleNeedsActivation(db: Db, input: RaffleInput, ownerId: string, suffix: string, now: int,
                                 quantity: int, paymentMethod: string, buyer: string, numbers: seq<string>,
                                 ticketSuffix: string, later: int)
    requires CreateRaffleSpec(db, input, ownerId, suffix, now).0.Ok?
    requires FindFirst(db.raffles, "raffle_" + suffix).None?
    ensures var after := CreateRaffleSpec(db, input, ownerId, suffix, now).1;
            TicketService.BuySpec(after, "raffle_" + suffix, quantity, paymentMethod, buyer, numbers, ticketSuffix, later).0 ==
              Err(RaffleNotOnSale) &&
            RaffleService.UpdateStatusSpec(after, "raffle_" + suffix, RaffleStatus.Active, ownerId, later).0.Ok?
  {
    var after := CreateRaffleSpec(db, input, ownerId, suffix, now).1;
    var r := NewRaffle(input, ownerId, suffix, now);
    forall j | 0 <= j < |db.raffles|
      ensures after.raffles[j].id != r.id
    {
      assert db.raffles[j] in db.raffles;
    }
    assert after.raffles[|db.raffles|] == r;
    assert FindFirst(after.raffles, r.id) == Some(r);
  }
}
