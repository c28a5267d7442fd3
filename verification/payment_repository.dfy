/** The payment repository (src/repositories/paymentRepository.js): payment
    defaults on `create`, finders by ticket, user and status, `markAsCompleted`
    and the date-range report filter. */
module PaymentRepository {
  import opened Common
  import opened Repository
  import opened Entities

  /** The record `create` stores: a generated id `"payment_" + suffix`, the
      creation time, and `processedAt` and `transactionId` forced to null even
      when the caller supplied them. */
  function NewPayment(data: PaymentFields, suffix: string, now: int): (p: Payment)
    ensures p.id == "payment_" + suffix && p.createdAt == Some(now) && p.updatedAt == None
    ensures p.body.processedAt == None && p.body.transactionId == None
    ensures p.body.(processedAt := data.processedAt, transactionId := data.transactionId) == data
  {
    Row("payment_" + suffix, Some(now), None, data.(processedAt := None, transactionId := None))
  }

  /** `create(paymentData)`. */
  method CreatePayment(repo: Repository<PaymentFields>, data: PaymentFields, suffix: string, now: int)
    returns (p: Payment)
    modifies repo
    ensures p == NewPayment(data, suffix, now)
    ensures repo.items == old(repo.items) + [p]
  {
    p := repo.Create(NewPayment(data, suffix, now), true, "", now);
  }

  /** `findByTicket(ticketId)`: the head of `findBy({ ticket })`, or null; it
      is the first payment of that ticket in list order. */
  function FindByTicket(payments: seq<Payment>, ticketId: string): (r: Option<Payment>)
    ensures r.None? <==> forall j :: 0 <= j < |payments| ==> payments[j].body.ticket != ticketId
    ensures r.Some? ==>
              var k := FirstMatch(payments, (p: Payment) => p.body.ticket == ticketId);
              0 <= k && r.value == payments[k] && r.value.body.ticket == ticketId
    ensures r.Some? ==> FirstOfTicket(payments, ticketId, r.value)
  {
    var found := Filter(payments, (p: Payment) => p.body.ticket == ticketId);
    FilterHead(payments, (p: Payment) => p.body.ticket == ticketId);
    if |found| > 0 then
      var k := FirstMatch(payments, (p: Payment) => p.body.ticket == ticketId);
      assert payments[k] == found[0] && forall j :: 0 <= j < k ==> payments[j].body.ticket != ticketId;
      Some(found[0])
    else None
  }

  /** `p` stands at a position of `payments` before which no payment is for the ticket. */
  ghost predicate FirstOfTicket(payments: seq<Payment>, ticketId: string, p: Payment) {
    exists k :: 0 <= k < |payments| && payments[k] == p && p.body.ticket == ticketId &&
                forall j :: 0 <= j < k ==> payments[j].body.ticket != ticketId
  }

  /** `findByUser(userId)`. */
  function FindByUser(payments: seq<Payment>, userId: string): (r: seq<Payment>)
    ensures forall j :: 0 <= j < |r| ==> r[j] in payments && r[j].body.user == userId
    ensures forall j :: 0 <= j < |payments| && payments[j].body.user == userId ==> payments[j] in r
  {
    Filter(payments, (p: Payment) => p.body.user == userId)
  }

  /** `findByStatus(status)`: exactly the payments in that status. */
  function FindByStatus(payments: seq<Payment>, status: PaymentStatus): (r: seq<Payment>)
    ensures forall j :: 0 <= j < |r| ==> r[j] in payments && r[j].body.status == status
    ensures forall j :: 0 <= j < |payments| && payments[j].body.status == status ==> payments[j] in r
  {
    Filter(payments, (p: Payment) => p.body.status == status)
  }

  /** The patch `markAsCompleted` applies. */
  function CompletePatch(transactionId: Option<string>, now: int): PaymentFields -> PaymentFields {
    (p: PaymentFields) => p.(status := PaymentStatus.Completed, processedAt := Some(now), transactionId := transactionId)
  }

  /** `markAsCompleted(paymentId, transactionId)`: status, processing time and
      transaction id of the one payment, plus its `updatedAt`. */
  method MarkAsCompleted(repo: Repository<PaymentFields>, paymentId: string, transactionId: Option<string>, now: int)
    returns (r: Option<Payment>)
    modifies repo
    ensures repo.items == UpdateRows(old(repo.items), paymentId, CompletePatch(transactionId, now), Some(now))
    ensures r == UpdatedRow(old(repo.items), paymentId, CompletePatch(transactionId, now), Some(now))
  {
    r := repo.Update(paymentId, CompletePatch(transactionId, now), now);
  }

  /** A completed payment differs from the one before only in the three fields
      `markAsCompleted` names and in `updatedAt`. */
  lemma MarkAsCompletedFields(p: Payment, transactionId: Option<string>, now: int)
    ensures var q := Merged(p, CompletePatch(transactionId, now), Some(now));
            q.body.status == PaymentStatus.Completed && q.body.processedAt == Some(now) &&
            q.body.transactionId == transactionId && q.updatedAt == Some(now) &&
            q.id == p.id && q.createdAt == p.createdAt &&
            q.body.(status := p.body.status, processedAt := p.body.processedAt, transactionId := p.body.transactionId) == p.body
  {
  }

  /** `payment.processedAt || payment.createdAt`. */
  function PaymentDate(p: Payment): Option<int> {
    if p.body.processedAt.Some? then p.body.processedAt else p.createdAt
  }

  /** The filter `findByDateRange` applies to one payment. */
  predicate InRange(p: Payment, startDate: int, endDate: int) {
    PaymentDate(p).Some? && startDate <= PaymentDate(p).value <= endDate
  }

  /** `findByDateRange(startDate, endDate)`. */
  function FindByDateRange(payments: seq<Payment>, startDate: int, endDate: int): (r: seq<Payment>)
    ensures forall j :: 0 <= j < |r| ==> r[j] in payments && InRange(r[j], startDate, endDate)
    ensures forall j :: 0 <= j < |payments| && InRange(payments[j], startDate, endDate) ==> payments[j] in r
  {
    Filter(payments, (p: Payment) => InRange(p, startDate, endDate))
  }

  /** The range is inclusive at both ends, a processed payment is dated by its
      processing and not its creation, and a payment with neither date is
      never reported. */
  lemma DateRangeRules(p: Payment, startDate: int, endDate: int)
    ensures p in FindByDateRange([p], startDate, endDate) <==>
              (p.body.processedAt.Some? && startDate <= p.body.processedAt.value <= endDate) ||
              (p.body.processedAt.None? && p.createdAt.Some? && startDate <= p.createdAt.value <= endDate)
  {
    FilterLast([p], (q: Payment) => InRange(q, startDate, endDate));
    assert [p][..0] == [];
  }
}
