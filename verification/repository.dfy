/** The generic repository every service reads and writes: a list of records
    with find-first by id, filter by criteria, append, merge-update and
    splice-delete (src/repositories/baseRepository.js). */
module Repository {
  import opened Common

  /** A stored record: the fields the base repository itself manages, around
      the entity's own fields. A missing `createdAt`/`updatedAt` is `None`. */
  datatype Row<B> = Row(id: string, createdAt: Option<int>, updatedAt: Option<int>, body: B)

  /** `items.findIndex(item => item.id === id)`: the first position holding
      `id`, or -1. */
  function IndexOf<B>(items: seq<Row<B>>, id: string): (k: int)
    ensures -1 <= k < |items|
    ensures k >= 0 ==> items[k].id == id
    ensures forall j :: 0 <= j < |items| && (k < 0 || j < k) ==> items[j].id != id
  {
    if |items| == 0 then -1
    else if items[0].id == id then 0
    else
      var k := IndexOf(items[1..], id);
      if k < 0 then -1 else k + 1
  }

  /** `items.find(item => item.id === id)`. */
  function FindFirst<B>(items: seq<Row<B>>, id: string): (r: Option<Row<B>>)
    ensures r.Some? ==> r.value in items && r.value.id == id
    ensures r.None? <==> forall x :: x in items ==> x.id != id
  {
    var k := IndexOf(items, id);
    if k < 0 then None else Some(items[k])
  }

  /** Every criterion of `findBy` is one field-equality test on the body. */
  predicate Matches<B>(b: B, criteria: seq<B -> bool>) {
    forall i :: 0 <= i < |criteria| ==> criteria[i](b)
  }

  /** `items.filter(item => keep(item))`: the rows kept, in list order. */
  function Filter<B>(items: seq<Row<B>>, keep: Row<B> -> bool): (r: seq<Row<B>>)
    ensures |r| <= |items|
    ensures forall j :: 0 <= j < |r| ==> r[j] in items && keep(r[j])
    ensures forall j :: 0 <= j < |items| && keep(items[j]) ==> items[j] in r
  {
    if items == [] then []
    else
      var init := Filter(items[..|items| - 1], keep);
      var last := items[|items| - 1];
      assert items == items[..|items| - 1] + [last];
      if keep(last) then init + [last] else init
  }

  /** One filter step: the last row joins the result exactly when it is kept. */
  lemma FilterLast<B>(items: seq<Row<B>>, keep: Row<B> -> bool)
    requires items != []
    ensures Filter(items, keep) ==
              Filter(items[..|items| - 1], keep) + (if keep(items[|items| - 1]) then [items[|items| - 1]] else [])
  {
  }

  /** The position of the first row kept by `keep`, or -1. */
  function FirstMatch<B>(items: seq<Row<B>>, keep: Row<B> -> bool): (k: int)
    ensures -1 <= k < |items|
    ensures k >= 0 ==> keep(items[k])
    ensures forall j :: 0 <= j < |items| && (k < 0 || j < k) ==> !keep(items[j])
  {
    if |items| == 0 then -1
    else if keep(items[0]) then 0
    else
      var k := FirstMatch(items[1..], keep);
      if k < 0 then -1 else k + 1
  }

  /** The head of a filter is the first matching row of the list. */
  lemma {:induction false} FilterHead<B>(items: seq<Row<B>>, keep: Row<B> -> bool)
    ensures |Filter(items, keep)| > 0 <==> FirstMatch(items, keep) >= 0
    ensures |Filter(items, keep)| > 0 ==> Filter(items, keep)[0] == items[FirstMatch(items, keep)]
  {
    if items != [] {
      var init := items[..|items| - 1];
      FilterHead(init, keep);
      assert items == init + [items[|items| - 1]];
      if FirstMatch(init, keep) >= 0 {
        FirstMatchPrefix(init, items, keep);
      }
    }
  }

  /** Extending a list at the end does not move an existing first match. */
  lemma FirstMatchPrefix<B>(init: seq<Row<B>>, items: seq<Row<B>>, keep: Row<B> -> bool)
    requires |init| <= |items| && init == items[..|init|]
    requires FirstMatch(init, keep) >= 0
    ensures FirstMatch(items, keep) == FirstMatch(init, keep)
  {
    var k := FirstMatch(init, keep);
    assert items[k] == init[k];
    var k' := FirstMatch(items, keep);
    assert forall j :: 0 <= j < k ==> items[j] == init[j];
  }

  /** Filtering distributes over concatenation, so the filter keeps list order. */
  lemma {:induction false} FilterAppend<B>(a: seq<Row<B>>, b: seq<Row<B>>, keep: Row<B> -> bool)
    ensures Filter(a + b, keep) == Filter(a, keep) + Filter(b, keep)
  {
    if b == [] {
      assert a + b == a;
    } else {
      var b' := b[..|b| - 1];
      assert (a + b)[..|a + b| - 1] == a + b';
      assert (a + b)[|a + b| - 1] == b[|b| - 1];
      FilterAppend(a, b', keep);
    }
  }

  /** The record `create` stores. `hasId` says whether the input carries an `id`
      key: the spread after `id: itemData.id || gen` puts that key back, so a
      supplied id is kept whatever its value (an empty one included) and only a
      missing one is generated. A missing or empty createdAt is stamped. */
  function WithDefaults<B>(data: Row<B>, hasId: bool, freshId: string, now: int): Row<B> {
    data.(id := if hasId then data.id else freshId,
          createdAt := if data.createdAt.Some? then data.createdAt else Some(now))
  }

  /** The row after `{ ...row, ...updateData }`, stamped with `updatedAt` when
      `stamp` is given. */
  function Merged<B>(row: Row<B>, patch: B -> B, stamp: Option<int>): Row<B> {
    row.(body := patch(row.body), updatedAt := if stamp.Some? then stamp else row.updatedAt)
  }

  /** The list after merging `patch` into the first row holding `id`. */
  function UpdateRows<B>(items: seq<Row<B>>, id: string, patch: B -> B, stamp: Option<int>): (r: seq<Row<B>>)
    ensures |r| == |items|
    ensures forall j :: 0 <= j < |items| ==> r[j].id == items[j].id
    ensures forall j :: 0 <= j < |items| && j != IndexOf(items, id) ==> r[j] == items[j]
    ensures IndexOf(items, id) >= 0 ==> r[IndexOf(items, id)] == Merged(items[IndexOf(items, id)], patch, stamp)
  {
    var k := IndexOf(items, id);
    if k < 0 then items else items[k := Merged(items[k], patch, stamp)]
  }

  /** An update keeps every id where it was, so every lookup by id lands on
      the same position. */
  lemma UpdateRowsKeepsIndex<B>(items: seq<Row<B>>, id: string, patch: B -> B, stamp: Option<int>, x: string)
    ensures IndexOf(UpdateRows(items, id, patch, stamp), x) == IndexOf(items, x)
  {
    var a := IndexOf(UpdateRows(items, id, patch, stamp), x);
    var b := IndexOf(items, x);
    if a >= 0 {
      assert items[a].id == x;
    }
    if b >= 0 {
      assert UpdateRows(items, id, patch, stamp)[b].id == x;
    }
  }

  /** What `update` returns: the merged record, or nothing when the id is absent. */
  function UpdatedRow<B>(items: seq<Row<B>>, id: string, patch: B -> B, stamp: Option<int>): (r: Option<Row<B>>)
    ensures r.None? <==> IndexOf(items, id) < 0
    ensures r.Some? ==> r.value.id == id && r.value == UpdateRows(items, id, patch, stamp)[IndexOf(items, id)]
  {
    var k := IndexOf(items, id);
    if k < 0 then None else Some(Merged(items[k], patch, stamp))
  }

  /** The list after splicing out the first row holding `id`. */
  function RemoveRow<B>(items: seq<Row<B>>, id: string): (r: seq<Row<B>>)
    ensures IndexOf(items, id) < 0 ==> r == items
    ensures IndexOf(items, id) >= 0 ==>
              |r| == |items| - 1 &&
              (forall j :: 0 <= j < IndexOf(items, id) ==> r[j] == items[j]) &&
              (forall j :: IndexOf(items, id) <= j < |r| ==> r[j] == items[j + 1])
  {
    var k := IndexOf(items, id);
    if k < 0 then items else items[..k] + items[k + 1..]
  }

  /** Splicing out a row leaves every lookup of another id where it was. */
  lemma RemoveRowKeepsOthers<B>(items: seq<Row<B>>, id: string, other: string)
    requires other != id
    ensures FindFirst(RemoveRow(items, id), other) == FindFirst(items, other)
  {
    var after := RemoveRow(items, id);
    var k := IndexOf(items, id);
    if k >= 0 {
      var a := IndexOf(items, other);
      if a < 0 {
        forall j | 0 <= j < |after|
          ensures after[j].id != other
        {
          if j < k {
            assert after[j] == items[j];
          } else {
            assert after[j] == items[j + 1];
          }
        }
        assert IndexOf(after, other) < 0;
      } else if a < k {
        forall j | 0 <= j < a
          ensures after[j].id != other
        {
          assert after[j] == items[j];
        }
        assert after[a] == items[a];
        assert IndexOf(after, other) == a;
      } else {
        forall j | 0 <= j < a - 1
          ensures after[j].id != other
        {
          if j < k {
            assert after[j] == items[j];
          } else {
            assert after[j] == items[j + 1];
          }
        }
        assert after[a - 1] == items[a];
        assert IndexOf(after, other) == a - 1;
      }
    }
  }

  /** No two rows share an id. */
  predicate UniqueIds<B>(items: seq<Row<B>>) {
    forall i, j :: 0 <= i < j < |items| ==> items[i].id != items[j].id
  }

  /** With unique ids, splicing out the row with an id leaves none with it. */
  lemma RemoveRowRemoves<B>(items: seq<Row<B>>, id: string)
    requires UniqueIds(items)
    ensures FindFirst(RemoveRow(items, id), id).None?
  {
    var after := RemoveRow(items, id);
    var k := IndexOf(items, id);
    forall j | 0 <= j < |after|
      ensures after[j].id != id
    {
      if k >= 0 && j >= k {
        assert after[j] == items[j + 1];
      }
    }
  }

  lemma IndexOfUnique<B>(items: seq<Row<B>>, i: int)
    requires UniqueIds(items) && 0 <= i < |items|
    ensures IndexOf(items, items[i].id) == i
  {
  }

  /** A repository and the list it loads and saves. */
  class Repository<B> {
    var items: seq<Row<B>>

    constructor (initial: seq<Row<B>>)
      ensures items == initial
    {
      items := initial;
    }

    function FindById(id: string): (r: Option<Row<B>>)
      reads this
      ensures r.Some? ==> r.value in items && r.value.id == id
      ensures r.None? <==> forall x :: x in items ==> x.id != id
    {
      FindFirst(items, id)
    }

    function FindBy(criteria: seq<B -> bool>): (r: seq<Row<B>>)
      reads this
      ensures forall j :: 0 <= j < |r| ==> r[j] in items && Matches(r[j].body, criteria)
      ensures forall j :: 0 <= j < |items| && Matches(items[j].body, criteria) ==> items[j] in r
    {
      Filter(items, (x: Row<B>) => Matches(x.body, criteria))
    }

    /** `create`: append exactly one record; every earlier record is kept. */
    method Create(data: Row<B>, hasId: bool, freshId: string, now: int) returns (item: Row<B>)
      modifies this
      ensures item == WithDefaults(data, hasId, freshId, now)
      ensures items == old(items) + [item]
    {
      item := WithDefaults(data, hasId, freshId, now);
      items := items + [item];
    }

    /** The data manager's own create (`createUser`): push the record exactly
        as given. */
    method Push(data: Row<B>)
      modifies this
      ensures items == old(items) + [data]
    {
      items := items + [data];
    }

    /** `update`: merge into the first matching record and stamp `updatedAt`;
        `None` and no change when the id is absent. */
    method Update(id: string, patch: B -> B, now: int) returns (r: Option<Row<B>>)
      modifies this
      ensures items == UpdateRows(old(items), id, patch, Some(now))
      ensures r == UpdatedRow(old(items), id, patch, Some(now))
    {
      var k := IndexOf(items, id);
      if k != -1 {
        items := items[k := Merged(items[k], patch, Some(now))];
        r := Some(items[k]);
      } else {
        r := None;
      }
    }

    /** The data manager's own update (`updateTicket`, `updateRaffle`): the
        same merge, without an `updatedAt` stamp, and `None` with no change for
        an unknown id. (`updateUser` throws for an unknown id instead; its one
        modelled caller looks the user up first.) */
    method Merge(id: string, patch: B -> B) returns (r: Option<Row<B>>)
      modifies this
      ensures items == UpdateRows(old(items), id, patch, None)
      ensures r == UpdatedRow(old(items), id, patch, None)
    {
      var k := IndexOf(items, id);
      if k != -1 {
        items := items[k := Merged(items[k], patch, None)];
        r := Some(items[k]);
      } else {
        r := None;
      }
    }

    /** `delete`: splice out the first matching record. */
    method Delete(id: string) returns (deleted: bool)
      modifies this
      ensures deleted <==> IndexOf(old(items), id) >= 0
      ensures items == RemoveRow(old(items), id)
    {
      var k := IndexOf(items, id);
      if k != -1 {
        items := items[..k] + items[k + 1..];
        deleted := true;
      } else {
        deleted := false;
      }
    }
  }
}
