/** Ticket numbers (src/utils/helpers.js): the four-digit, zero-padded decimal
    form of a number in [1, totalTickets], the string order JavaScript's
    default `sort()` uses, the random generator and the availability list. */
module TicketNumbers {
  import opened Common
  import opened Repository
  import opened Entities

  // ---------------------------------------------------------------------------
  // Decimal formatting: `num.toString().padStart(4, '0')`

  function DigitChar(d: int): (c: char)
    requires 0 <= d < 10
    ensures '0' <= c <= '9'
  {
    ('0' as int + d) as char
  }

  function DigitValue(c: char): (d: nat)
    ensures d < 10
  {
    if '0' <= c <= '9' then (c as int - '0' as int) else 0
  }

  /** `n.toString()` for a non-negative integer. */
  function Digits(n: nat): (s: string)
    ensures |s| >= 1
    ensures forall i :: 0 <= i < |s| ==> '0' <= s[i] <= '9'
    ensures n > 0 ==> s[0] != '0'
  {
    if n < 10 then [DigitChar(n)] else Digits(n / 10) + [DigitChar(n % 10)]
  }

  function Repeat(c: char, k: nat): (s: string)
    ensures |s| == k
    ensures forall i :: 0 <= i < k ==> s[i] == c
  {
    if k == 0 then [] else [c] + Repeat(c, k - 1)
  }

  /** `s.padStart(width, c)`. */
  function PadStart(s: string, width: nat, c: char): (r: string)
    ensures |r| == if |s| >= width then |s| else width
    ensures r[|r| - |s|..] == s
    ensures forall i :: 0 <= i < |r| - |s| ==> r[i] == c
  {
    if |s| >= width then s else Repeat(c, width - |s|) + s
  }

  /** A ticket number as the helpers write it. */
  function Format(n: nat): (s: string)
    ensures |s| >= 4
  {
    PadStart(Digits(n), 4, '0')
  }

  /** The value of a string of decimal digits (Horner's rule, from the right). */
  function Parse(s: string): nat {
    if s == [] then 0 else 10 * Parse(s[..|s| - 1]) + DigitValue(s[|s| - 1])
  }

  lemma {:induction false} ParseDigits(n: nat)
    ensures Parse(Digits(n)) == n
  {
    if n >= 10 {
      var s := Digits(n / 10) + [DigitChar(n % 10)];
      assert s[..|s| - 1] == Digits(n / 10);
      ParseDigits(n / 10);
    }
  }

  lemma {:induction false} ParseLeadingZero(s: string)
    ensures Parse(['0'] + s) == Parse(s)
  {
    var z := ['0'] + s;
    if s == [] {
      assert z[..0] == [];
    } else {
      var init := s[..|s| - 1];
      assert z[..|z| - 1] == ['0'] + init;
      assert z[|z| - 1] == s[|s| - 1];
      ParseLeadingZero(init);
    }
  }

  lemma {:induction false} ParseLeadingZeros(k: nat, s: string)
    ensures Parse(Repeat('0', k) + s) == Parse(s)
  {
    if k > 0 {
      assert Repeat('0', k) + s == ['0'] + (Repeat('0', k - 1) + s);
      ParseLeadingZero(Repeat('0', k - 1) + s);
      ParseLeadingZeros(k - 1, s);
    } else {
      assert Repeat('0', k) + s == s;
    }
  }

  /** Reading a formatted number back gives the number. */
  lemma ParseFormat(n: nat)
    ensures Parse(Format(n)) == n
  {
    var d := Digits(n);
    if |d| < 4 {
      ParseLeadingZeros(4 - |d|, d);
    }
    ParseDigits(n);
  }

  /** So two different numbers never share a ticket number. */
  lemma FormatInjective(a: nat, b: nat)
    requires Format(a) == Format(b)
    ensures a == b
  {
    ParseFormat(a);
    ParseFormat(b);
  }

  /** `s` is the ticket number of some n in [1, total]. */
  predicate IsTicketNumber(s: string, total: int) {
    1 <= Parse(s) <= total && Format(Parse(s)) == s
  }

  lemma FormatIsTicketNumber(n: nat, total: int)
    requires 1 <= n <= total
    ensures IsTicketNumber(Format(n), total)
  {
    ParseFormat(n);
  }

  /** The images of 1..n under `g`. */
  ghost function Image(g: nat -> string, n: nat): set<string> {
    set k: nat | 1 <= k <= n :: g(k)
  }

  /** The ticket numbers of 1..n. */
  ghost function AllNumbers(n: nat): set<string> {
    Image(Format, n)
  }

  /** An injective function has n images of 1..n. */
  lemma {:induction false} ImageSize(g: nat -> string, n: nat)
    requires forall a: nat, b: nat :: g(a) == g(b) ==> a == b
    ensures |Image(g, n)| == n
  {
    if n > 0 {
      ImageSize(g, n - 1);
      assert g(n) !in Image(g, n - 1);
      assert Image(g, n) == Image(g, n - 1) + {g(n)};
    }
  }

  lemma AllNumbersSize(n: nat)
    ensures |AllNumbers(n)| == n
  {
    forall a: nat, b: nat | Format(a) == Format(b)
      ensures a == b
    {
      FormatInjective(a, b);
    }
    ImageSize(Format, n);
  }

  lemma SubsetSmaller<T>(a: set<T>, b: set<T>)
    requires a <= b && |a| < |b|
    ensures exists x :: x in b && x !in a
  {
    var d := b - a;
    assert b == a + d && a !! d;
    assert |d| > 0;
    var x :| x in d;
  }

  // ---------------------------------------------------------------------------
  // JavaScript's default `sort()`: comparison of the strings' code units

  predicate LexLe(a: string, b: string) {
    if a == [] then true
    else if b == [] then false
    else if a[0] != b[0] then a[0] < b[0]
    else LexLe(a[1..], b[1..])
  }

  lemma {:induction false} LexLeRefl(a: string)
    ensures LexLe(a, a)
  {
    if a != [] {
      LexLeRefl(a[1..]);
    }
  }

  lemma {:induction false} LexLeTotal(a: string, b: string)
    ensures LexLe(a, b) || LexLe(b, a)
  {
    if a != [] && b != [] && a[0] == b[0] {
      LexLeTotal(a[1..], b[1..]);
    }
  }

  lemma {:induction false} LexLeTrans(a: string, b: string, c: string)
    requires LexLe(a, b) && LexLe(b, c)
    ensures LexLe(a, c)
  {
    if a != [] && b != [] && c != [] && a[0] == b[0] && b[0] == c[0] {
      LexLeTrans(a[1..], b[1..], c[1..]);
    }
  }

  lemma {:induction false} LexLeAntisym(a: string, b: string)
    requires LexLe(a, b) && LexLe(b, a)
    ensures a == b
  {
    if a != [] && b != [] {
      LexLeAntisym(a[1..], b[1..]);
      assert a == [a[0]] + a[1..];
      assert b == [b[0]] + b[1..];
    }
  }

  predicate LexSorted(s: seq<string>) {
    forall i, j :: 0 <= i < j < |s| ==> LexLe(s[i], s[j])
  }

  function Insert(x: string, s: seq<string>): (r: seq<string>)
    requires LexSorted(s)
    ensures LexSorted(r)
    ensures multiset(r) == multiset(s) + multiset{x}
    ensures forall y :: y in r ==> y == x || y in s
  {
    if s == [] then [x]
    else if LexLe(x, s[0]) then
      assert forall j :: 0 <= j < |s| ==> LexLe(x, s[j]) by {
        forall j | 0 < j < |s|
          ensures LexLe(x, s[j])
        {
          LexLeTrans(x, s[0], s[j]);
        }
      }
      [x] + s
    else
      LexLeTotal(x, s[0]);
      assert LexSorted(s[1..]) by {
        forall i, j | 0 <= i < j < |s| - 1
          ensures LexLe(s[1..][i], s[1..][j])
        {
          assert s[1..][i] == s[i + 1] && s[1..][j] == s[j + 1];
        }
      }
      var tail := Insert(x, s[1..]);
      assert s == [s[0]] + s[1..];
      assert forall y :: y in tail ==> LexLe(s[0], y);
      [s[0]] + tail
  }

  /** `numbers.sort()` with no comparator. */
  function SortLex(s: seq<string>): (r: seq<string>)
    ensures LexSorted(r)
    ensures multiset(r) == multiset(s)
  {
    if s == [] then []
    else
      assert s == s[..|s| - 1] + [s[|s| - 1]];
      Insert(s[|s| - 1], SortLex(s[..|s| - 1]))
  }

  predicate Distinct(s: seq<string>) {
    forall i, j :: 0 <= i < j < |s| ==> s[i] != s[j]
  }

  lemma DistinctMultiset(a: seq<string>, b: seq<string>)
    requires multiset(a) == multiset(b) && Distinct(a)
    ensures Distinct(b)
  {
    forall i, j | 0 <= i < j < |b|
      ensures b[i] != b[j]
    {
      CountAtMostOne(a, b[i]);
      if b[i] == b[j] {
        TwoOccurrences(b, i, j);
      }
    }
  }

  lemma TwoOccurrences(b: seq<string>, i: int, j: int)
    requires 0 <= i < j < |b| && b[i] == b[j]
    ensures multiset(b)[b[i]] >= 2
  {
    assert b == b[..i] + [b[i]] + b[i + 1..j] + [b[j]] + b[j + 1..];
  }

  lemma {:induction false} CountAtMostOne(a: seq<string>, x: string)
    requires Distinct(a)
    ensures multiset(a)[x] <= 1
  {
    if a != [] {
      var init := a[..|a| - 1];
      assert a == init + [a[|a| - 1]];
      CountAtMostOne(init, x);
      if a[|a| - 1] == x {
        assert x !in init;
      }
    }
  }

  // ---------------------------------------------------------------------------
  // generateTicketNumbers

  /** Every element is a ticket number of [1, total]. */
  predicate AllTicketNumbers(s: seq<string>, total: int) {
    forall i :: 0 <= i < |s| ==> IsTicketNumber(s[i], total)
  }

  /** While fewer than `total` numbers are taken, an untaken one is left. */
  lemma FreshNumberExists(picked: seq<string>, total: int)
    requires AllTicketNumbers(picked, total) && |Elements(picked)| < total
    ensures exists num :: 1 <= num <= total && Format(num) !in Elements(picked)
  {
    var used := Elements(picked);
    forall x | x in used
      ensures x in AllNumbers(total)
    {
      var i :| 0 <= i < |picked| && picked[i] == x;
      assert IsTicketNumber(picked[i], total);
    }
    AllNumbersSize(total);
    SubsetSmaller(used, AllNumbers(total));
    var x :| x in AllNumbers(total) && x !in used;
    var num :| 1 <= num <= total && Format(num) == x;
  }

  /** One round of the generator keeps the picked numbers distinct and in range. */
  lemma PickStep(picked: seq<string>, num: int, total: int)
    requires Distinct(picked) && AllTicketNumbers(picked, total)
    requires 1 <= num <= total && Format(num) !in Elements(picked)
    ensures Distinct(picked + [Format(num)]) && AllTicketNumbers(picked + [Format(num)], total)
    ensures Elements(picked + [Format(num)]) == Elements(picked) + {Format(num)}
  {
    FormatIsTicketNumber(num, total);
    AppendInRange(picked, Format(num), total);
    AppendDistinct(picked, Format(num));
  }

  lemma AppendInRange(picked: seq<string>, f: string, total: int)
    requires AllTicketNumbers(picked, total) && IsTicketNumber(f, total)
    ensures AllTicketNumbers(picked + [f], total)
  {
    var s := picked + [f];
    forall i | 0 <= i < |s|
      ensures IsTicketNumber(s[i], total)
    {
      if i < |picked| {
        assert s[i] == picked[i];
      }
    }
  }

  lemma AppendDistinct(picked: seq<string>, f: string)
    requires Distinct(picked) && f !in Elements(picked)
    ensures Distinct(picked + [f])
    ensures Elements(picked + [f]) == Elements(picked) + {f}
  {
    var s := picked + [f];
    assert f !in picked;
    forall i, j | 0 <= i < j < |s|
      ensures s[i] != s[j]
    {
      if j < |picked| {
        assert s[i] == picked[i] && s[j] == picked[j];
      } else {
        assert s[i] == picked[i];
      }
    }
  }

  lemma SortedKeepsNumbers(s: seq<string>, r: seq<string>, total: int)
    requires multiset(r) == multiset(s) && Distinct(s) && AllTicketNumbers(s, total)
    ensures |r| == |s| && Distinct(r) && AllTicketNumbers(r, total)
  {
    assert |r| == |multiset(r)|;
    DistinctMultiset(s, r);
    forall i | 0 <= i < |r|
      ensures IsTicketNumber(r[i], total)
    {
      assert r[i] in multiset(s);
    }
  }

  /** `generateTicketNumbers(quantity, totalTickets)`: `quantity` distinct
      ticket numbers in [1, totalTickets], in string order. Each round of the
      loop picks a number not picked before; the source's draws that repeat
      an earlier number change nothing and are not modelled. With
      `quantity > totalTickets >= 1` the source's loop never ends; a positive
      quantity with a non-positive `totalTickets` is outside the model too. */
  method GenerateTicketNumbers(quantity: int, totalTickets: int) returns (numbers: seq<string>)
    requires quantity <= 0 || quantity <= totalTickets
    ensures |numbers| == if quantity <= 0 then 0 else quantity
    ensures Distinct(numbers)
    ensures AllTicketNumbers(numbers, totalTickets)
    ensures LexSorted(numbers)
  {
    var picked: seq<string> := [];
    var used: set<string> := {};
    while |picked| < quantity
      invariant |picked| <= if quantity <= 0 then 0 else quantity
      invariant used == Elements(picked) && |used| == |picked|
      invariant Distinct(picked)
      invariant AllTicketNumbers(picked, totalTickets)
      decreases quantity - |picked|
    {
      FreshNumberExists(picked, totalTickets);
      var num: int :| 1 <= num <= totalTickets && Format(num) !in used;
      var formatted := Format(num);
      PickStep(picked, num, totalTickets);
      used := used + {formatted};
      picked := picked + [formatted];
    }
    numbers := SortLex(picked);
    SortedKeepsNumbers(picked, numbers, totalTickets);
  }

  // ---------------------------------------------------------------------------
  // getAvailableTicketNumbers

  function Elements(s: seq<string>): set<string> {
    set x | x in s
  }

  /** Every number carried by a `paid` ticket of the list. */
  function PaidNumbers(tickets: seq<Ticket>): set<string> {
    if tickets == [] then {}
    else
      PaidNumbers(tickets[..|tickets| - 1]) +
      (if tickets[|tickets| - 1].body.paymentStatus.Paid? then Elements(tickets[|tickets| - 1].body.ticketNumbers) else {})
  }

  /** A number is taken exactly when some paid ticket of the list carries it;
      pending and cancelled tickets take nothing. */
  lemma {:induction false} PaidNumbersMembers(tickets: seq<Ticket>, x: string)
    ensures x in PaidNumbers(tickets) <==>
              exists i :: 0 <= i < |tickets| && tickets[i].body.paymentStatus.Paid? && x in tickets[i].body.ticketNumbers
  {
    if tickets != [] {
      var init := tickets[..|tickets| - 1];
      PaidNumbersMembers(init, x);
      assert forall i :: 0 <= i < |init| ==> init[i] == tickets[i];
    }
  }

  /** The ticket numbers of 1..n that are not in `used`, ascending. */
  function AvailableUpTo(used: set<string>, n: int): (r: seq<string>)
    ensures |r| <= if n <= 0 then 0 else n
    ensures forall i :: 0 <= i < |r| ==> IsTicketNumber(r[i], n) && r[i] !in used
    ensures forall i, j :: 0 <= i < j < |r| ==> Parse(r[i]) < Parse(r[j])
    decreases if n <= 0 then 0 else n
  {
    if n <= 0 then []
    else
      var init := AvailableUpTo(used, n - 1);
      var f := Format(n);
      AvailableExtend(init, used, n, f !in used);
      if f in used then init else init + [f]
  }

  /** One more number of the range keeps the list in range, unreserved and
      ascending. */
  lemma AvailableExtend(init: seq<string>, used: set<string>, n: int, add: bool)
    requires n >= 1 && |init| <= n - 1
    requires forall i :: 0 <= i < |init| ==> IsTicketNumber(init[i], n - 1) && init[i] !in used
    requires forall i, j :: 0 <= i < j < |init| ==> Parse(init[i]) < Parse(init[j])
    requires add ==> Format(n) !in used
    ensures var r := if add then init + [Format(n)] else init;
            |r| <= n &&
            (forall i :: 0 <= i < |r| ==> IsTicketNumber(r[i], n) && r[i] !in used) &&
            (forall i, j :: 0 <= i < j < |r| ==> Parse(r[i]) < Parse(r[j]))
  {
    FormatIsTicketNumber(n, n);
    ParseFormat(n);
    WidenTicketNumbers(init, n);
    if add {
      AppendTicketNumber(init, used, n, Format(n));
      AscendingAppend(init, n, Format(n));
    }
  }

  lemma WidenTicketNumbers(s: seq<string>, n: int)
    requires forall i :: 0 <= i < |s| ==> IsTicketNumber(s[i], n - 1)
    ensures forall i :: 0 <= i < |s| ==> IsTicketNumber(s[i], n)
  {
  }

  lemma AppendTicketNumber(init: seq<string>, used: set<string>, n: int, f: string)
    requires forall i :: 0 <= i < |init| ==> IsTicketNumber(init[i], n) && init[i] !in used
    requires IsTicketNumber(f, n) && f !in used
    ensures forall i :: 0 <= i < |init + [f]| ==> IsTicketNumber((init + [f])[i], n) && (init + [f])[i] !in used
  {
    var r := init + [f];
    forall i | 0 <= i < |r|
      ensures IsTicketNumber(r[i], n) && r[i] !in used
    {
      if i < |init| {
        assert r[i] == init[i];
      } else {
        assert r[i] == f;
      }
    }
  }

  lemma AscendingAppend(init: seq<string>, n: int, f: string)
    requires forall i :: 0 <= i < |init| ==> Parse(init[i]) <= n - 1
    requires forall i, j :: 0 <= i < j < |init| ==> Parse(init[i]) < Parse(init[j])
    requires Parse(f) == n
    ensures forall i, j :: 0 <= i < j < |init + [f]| ==> Parse((init + [f])[i]) < Parse((init + [f])[j])
  {
    var r := init + [f];
    forall i, j | 0 <= i < j < |r|
      ensures Parse(r[i]) < Parse(r[j])
    {
      assert r[i] == init[i];
      if j < |init| {
        assert r[j] == init[j];
      }
    }
  }

  /** Membership in the availability list: exactly the unreserved numbers in range. */
  lemma {:induction false} AvailableMembers(used: set<string>, n: int, x: string)
    ensures x in AvailableUpTo(used, n) <==> IsTicketNumber(x, n) && x !in used
    decreases if n <= 0 then 0 else n
  {
    if n > 0 {
      AvailableMembers(used, n - 1, x);
      TicketNumberStep(x, n);
      var init := AvailableUpTo(used, n - 1);
      var f := Format(n);
      assert AvailableUpTo(used, n) == if f in used then init else init + [f];
    }
  }

  /** The ticket numbers of [1, n] are those of [1, n - 1] and that of n. */
  lemma TicketNumberStep(x: string, n: int)
    requires n >= 1
    ensures IsTicketNumber(x, n) <==> IsTicketNumber(x, n - 1) || x == Format(n)
  {
    var f := Format(n);
    ParseFormat(n);
    if x == f {
      assert Parse(x) == n && Format(Parse(x)) == x;
    } else if IsTicketNumber(x, n) {
      assert Parse(x) != n;
    }
  }

  /** The numbers still for sale on a raffle. */
  function Available(tickets: seq<Ticket>, raffleId: string, totalTickets: int): seq<string> {
    AvailableUpTo(PaidNumbers(TicketsOfRaffle(tickets, raffleId)), totalTickets)
  }

  lemma PaidNumbersStep(tickets: seq<Ticket>, i: int)
    requires 0 <= i < |tickets|
    ensures PaidNumbers(tickets[..i + 1]) ==
              PaidNumbers(tickets[..i]) +
              (if tickets[i].body.paymentStatus.Paid? then Elements(tickets[i].body.ticketNumbers) else {})
  {
    assert tickets[..i + 1][..i] == tickets[..i];
  }

  lemma ElementsStep(s: seq<string>, j: int)
    requires 0 <= j < |s|
    ensures Elements(s[..j + 1]) == Elements(s[..j]) + {s[j]}
  {
    assert s[..j + 1] == s[..j] + [s[j]];
  }

  /** The `forEach` of `getAvailableTicketNumbers`: the numbers of every paid
      ticket of the list, gathered into a set. */
  method CollectPaidNumbers(allTickets: seq<Ticket>) returns (used: set<string>)
    ensures used == PaidNumbers(allTickets)
  {
    used := {};
    var i := 0;
    while i < |allTickets|
      invariant 0 <= i <= |allTickets|
      invariant used == PaidNumbers(allTickets[..i])
    {
      var ticket := allTickets[i];
      PaidNumbersStep(allTickets, i);
      if ticket.body.paymentStatus.Paid? {
        var numbers := ticket.body.ticketNumbers;
        var j := 0;
        while j < |numbers|
          invariant 0 <= j <= |numbers|
          invariant used == PaidNumbers(allTickets[..i]) + Elements(numbers[..j])
        {
          ElementsStep(numbers, j);
          used := used + {numbers[j]};
          j := j + 1;
        }
        assert numbers[..j] == numbers;
      }
      i := i + 1;
    }
    assert allTickets[..i] == allTickets;
  }

  /** `getAvailableTicketNumbers(raffleId, totalTickets)`: the numbers of the
      raffle's paid tickets are collected, then a count from 1 to
      `totalTickets` keeps the numbers not collected. */
  method GetAvailableTicketNumbers(tickets: seq<Ticket>, raffleId: string, totalTickets: int)
    returns (available: seq<string>)
    ensures available == Available(tickets, raffleId, totalTickets)
  {
    var allTickets := TicketsOfRaffle(tickets, raffleId);
    var used := CollectPaidNumbers(allTickets);
    available := [];
    var n := 1;
    while n <= totalTickets
      invariant 1 <= n <= if totalTickets <= 0 then 1 else totalTickets + 1
      invariant available == AvailableUpTo(used, n - 1)
    {
      var formatted := Format(n);
      if formatted !in used {
        available := available + [formatted];
      }
      n := n + 1;
    }
    assert totalTickets > 0 ==> n - 1 == totalTickets;
  }

  /** A ticket that is not paid never takes a number off sale: appending one
      leaves the availability of every raffle unchanged. */
  lemma UnpaidTicketReservesNothing(tickets: seq<Ticket>, t: Ticket, raffleId: string, totalTickets: int)
    requires !t.body.paymentStatus.Paid?
    ensures Available(tickets + [t], raffleId, totalTickets) == Available(tickets, raffleId, totalTickets)
  {
    TicketsOfRaffleAppend(tickets, t, raffleId);
    var before := TicketsOfRaffle(tickets, raffleId);
    var after := TicketsOfRaffle(tickets + [t], raffleId);
    if t.body.raffle == raffleId {
      assert after[..|after| - 1] == before;
      assert PaidNumbers(after) == PaidNumbers(before);
    } else {
      assert after == before;
    }
  }

  lemma PaidNumbersAppend(tickets: seq<Ticket>, t: Ticket)
    ensures PaidNumbers(tickets + [t]) ==
              PaidNumbers(tickets) + (if t.body.paymentStatus.Paid? then Elements(t.body.ticketNumbers) else {})
  {
    assert (tickets + [t])[..|tickets|] == tickets;
  }

  /** The numbers taken on a raffle do not move when one unpaid ticket is
      replaced by another unpaid ticket. */
  lemma {:induction false} ReplaceUnpaidKeepsPaidNumbers(tickets: seq<Ticket>, k: int, t: Ticket, raffleId: string)
    requires 0 <= k < |tickets|
    requires !tickets[k].body.paymentStatus.Paid? && !t.body.paymentStatus.Paid?
    ensures PaidNumbers(TicketsOfRaffle(tickets[k := t], raffleId)) == PaidNumbers(TicketsOfRaffle(tickets, raffleId))
  {
    var n := |tickets|;
    var init := tickets[..n - 1];
    var last := tickets[n - 1];
    assert tickets == init + [last];
    if k == n - 1 {
      assert tickets[k := t] == init + [t];
      AppendUnpaidKeepsPaidNumbers(init, t, raffleId);
      AppendUnpaidKeepsPaidNumbers(init, last, raffleId);
    } else {
      assert tickets[k := t] == init[k := t] + [last];
      ReplaceUnpaidKeepsPaidNumbers(init, k, t, raffleId);
      AppendKeepsEqualPaidNumbers(init[k := t], init, last, raffleId);
    }
  }

  lemma AppendUnpaidKeepsPaidNumbers(tickets: seq<Ticket>, t: Ticket, raffleId: string)
    requires !t.body.paymentStatus.Paid?
    ensures PaidNumbers(TicketsOfRaffle(tickets + [t], raffleId)) == PaidNumbers(TicketsOfRaffle(tickets, raffleId))
  {
    TicketsOfRaffleAppend(tickets, t, raffleId);
    if t.body.raffle == raffleId {
      PaidNumbersAppend(TicketsOfRaffle(tickets, raffleId), t);
    }
  }

  lemma AppendKeepsEqualPaidNumbers(a: seq<Ticket>, b: seq<Ticket>, t: Ticket, raffleId: string)
    requires PaidNumbers(TicketsOfRaffle(a, raffleId)) == PaidNumbers(TicketsOfRaffle(b, raffleId))
    ensures PaidNumbers(TicketsOfRaffle(a + [t], raffleId)) == PaidNumbers(TicketsOfRaffle(b + [t], raffleId))
  {
    TicketsOfRaffleAppend(a, t, raffleId);
    TicketsOfRaffleAppend(b, t, raffleId);
    if t.body.raffle == raffleId {
      PaidNumbersAppend(TicketsOfRaffle(a, raffleId), t);
      PaidNumbersAppend(TicketsOfRaffle(b, raffleId), t);
    }
  }

  /** Replacing an unpaid ticket by an unpaid one (a cancellation, a winner
      mark on an unpaid ticket) leaves every raffle's availability unchanged. */
  lemma ReplaceUnpaidKeepsAvailable(tickets: seq<Ticket>, k: int, t: Ticket, raffleId: string, totalTickets: int)
    requires 0 <= k < |tickets|
    requires !tickets[k].body.paymentStatus.Paid? && !t.body.paymentStatus.Paid?
    ensures Available(tickets[k := t], raffleId, totalTickets) == Available(tickets, raffleId, totalTickets)
  {
    ReplaceUnpaidKeepsPaidNumbers(tickets, k, t, raffleId);
  }
}
