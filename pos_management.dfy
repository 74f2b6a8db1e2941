/**
 * The order page's draft: a sparse object `itemId -> quantity` that the
 * quantity inputs overwrite one entry at a time, and the order request built
 * from it with `Object.entries(...).filter(...).map(...)`.
 *
 * Item ids are integer-like property keys. ECMAScript lists such keys (array
 * indices, 0 .. 2^32 - 2) in ascending numeric order (OrdinaryOwnPropertyKeys,
 * section 10.1.11.1 of ECMAScript 2022), so the lines come out sorted by item
 * id, not in the order the quantities were set.
 */
module PosManagement {
  import opened Wrappers
  import opened JsValues
  import opened Requests

  /** An integer-like property key: an array index. */
  type ItemId = k: int | 0 <= k < 0xFFFF_FFFF

  /** The draft order: item id to the quantity last entered for it (possibly 0, negative or NaN). */
  type Draft = map<ItemId, Number>

  datatype OrderLine = OrderLine(itemId: Number, quantity: Number)

  /** The POST body `{ items }` and the Authorization header it is sent with. */
  datatype OrderPost = OrderPost(items: seq<OrderLine>, authorization: string)

  ghost predicate Ascending(ks: seq<ItemId>)
  {
    forall i, j :: 0 <= i < j < |ks| ==> ks[i] < ks[j]
  }

  predicate IsLeast(k: ItemId, ks: set<ItemId>)
  {
    k in ks && forall j :: j in ks ==> k <= j
  }

  lemma {:induction false} MinimumExists(ks: set<ItemId>)
    requires ks != {}
    ensures exists k :: IsLeast(k, ks)
    decreases |ks|
  {
    var x :| x in ks;
    if ks == {x} {
      assert IsLeast(x, ks);
    } else {
      var rest := ks - {x};
      MinimumExists(rest);
      var m :| IsLeast(m, rest);
      var k := if x < m then x else m;
      forall j | j in ks ensures k <= j {
        if j != x {
          assert j in rest;
        }
      }
      assert IsLeast(k, ks);
    }
  }

  function Minimum(ks: set<ItemId>): (k: ItemId)
    requires ks != {}
    ensures k in ks && forall j :: j in ks ==> k <= j
  {
    MinimumExists(ks);
    var k :| IsLeast(k, ks);
    k
  }

  /** The keys of an object whose keys are all array indices, in the order `Object.entries` visits them. */
  function SortedKeys(ks: set<ItemId>): (r: seq<ItemId>)
    ensures Ascending(r)
    ensures |r| == |ks|
    ensures forall i :: 0 <= i < |r| ==> r[i] in ks
    ensures forall k :: k in r <==> k in ks
    decreases |ks|
  {
    if ks == {} then []
    else
      var k := Minimum(ks);
      [k] + SortedKeys(ks - {k})
  }

  /** `[key, value]` pairs for the keys `ks`; a property key is the string `String(id)`. */
  function EntriesOf(draft: Draft, ks: seq<ItemId>): (es: seq<(string, Number)>)
    requires forall i :: 0 <= i < |ks| ==> ks[i] in draft
    ensures |es| == |ks|
    ensures forall i :: 0 <= i < |ks| ==> es[i] == (IntToString(ks[i]), draft[ks[i]])
  {
    if ks == [] then [] else [(IntToString(ks[0]), draft[ks[0]])] + EntriesOf(draft, ks[1..])
  }

  /** `Object.entries(itemQuantities)`: one pair per draft entry, keys in ascending id order. */
  function Entries(draft: Draft): (es: seq<(string, Number)>)
    ensures |es| == |draft|
    ensures var ks := SortedKeys(draft.Keys);
      forall i :: 0 <= i < |es| ==> es[i] == (IntToString(ks[i]), draft[ks[i]])
  {
    EntriesOf(draft, SortedKeys(draft.Keys))
  }

  /** `.filter(([_, quantity]) => quantity > 0)`: keeps exactly the pairs whose quantity is positive. */
  function PositiveEntries(es: seq<(string, Number)>): (r: seq<(string, Number)>)
    ensures |r| <= |es|
    ensures forall e :: e in r <==> e in es && IsPositive(e.1)
  {
    if es == [] then []
    else if IsPositive(es[0].1) then [es[0]] + PositiveEntries(es[1..])
    else PositiveEntries(es[1..])
  }

  /** `.map(([itemId, quantity]) => ({ itemId: parseInt(itemId), quantity }))`: one line per pair, in order. */
  function ToLines(es: seq<(string, Number)>): (ls: seq<OrderLine>)
    ensures |ls| == |es|
    ensures forall i :: 0 <= i < |es| ==> ls[i] == OrderLine(ParseInt(es[i].0), es[i].1)
  {
    if es == [] then [] else [OrderLine(ParseInt(es[0].0), es[0].1)] + ToLines(es[1..])
  }

  /** The order lines `handlePlaceOrder` posts: at most one per draft entry, each with a positive quantity. */
  function BuildOrderLines(draft: Draft): (ls: seq<OrderLine>)
    ensures |ls| <= |draft|
    ensures forall i :: 0 <= i < |ls| ==> IsPositive(ls[i].quantity)
  {
    var kept := PositiveEntries(Entries(draft));
    KeptPositive(kept, Entries(draft));
    ToLines(kept)
  }

  /** Every pair a filter on positive quantities kept carries a positive quantity, read by index. */
  lemma KeptPositive(kept: seq<(string, Number)>, es: seq<(string, Number)>)
    requires forall e :: e in kept <==> e in es && IsPositive(e.1)
    ensures forall i :: 0 <= i < |kept| ==> IsPositive(kept[i].1)
  {
    forall i | 0 <= i < |kept|
      ensures IsPositive(kept[i].1)
    {
      assert kept[i] in kept;
    }
  }

  // ----- Reference definition of the order lines -----

  /** The ids the draft selects: those whose quantity is a positive number. */
  ghost function Selected(draft: Draft): set<ItemId>
  {
    set k | k in draft && IsPositive(draft[k])
  }

  /** One line per key of `ks`, carrying the id as a number and the draft's quantity. */
  ghost function LinesFor(draft: Draft, ks: seq<ItemId>): (ls: seq<OrderLine>)
    requires forall i :: 0 <= i < |ks| ==> ks[i] in draft
    ensures |ls| == |ks|
    ensures forall i :: 0 <= i < |ks| ==> ls[i] == OrderLine(Int(ks[i]), draft[ks[i]])
  {
    if ks == [] then [] else [OrderLine(Int(ks[0]), draft[ks[0]])] + LinesFor(draft, ks[1..])
  }

  /** The keys of `ks` whose draft quantity is positive, in the order of `ks`. */
  ghost function KeepPositive(draft: Draft, ks: seq<ItemId>): (r: seq<ItemId>)
    requires forall i :: 0 <= i < |ks| ==> ks[i] in draft
    ensures forall i :: 0 <= i < |r| ==> r[i] in draft && IsPositive(draft[r[i]])
    ensures forall k :: k in r <==> k in ks && IsPositive(draft[k])
  {
    if ks == [] then []
    else if IsPositive(draft[ks[0]]) then [ks[0]] + KeepPositive(draft, ks[1..])
    else KeepPositive(draft, ks[1..])
  }

  lemma ConsAscending(x: ItemId, r: seq<ItemId>)
    requires Ascending(r)
    requires forall k :: k in r ==> x < k
    ensures Ascending([x] + r)
  {
    forall i, j | 0 <= i < j < |[x] + r| ensures ([x] + r)[i] < ([x] + r)[j] {
      assert ([x] + r)[j] == r[j - 1] && r[j - 1] in r;
      if i > 0 {
        assert ([x] + r)[i] == r[i - 1];
      }
    }
  }

  lemma {:induction false} KeepPositiveAscending(draft: Draft, ks: seq<ItemId>)
    requires forall i :: 0 <= i < |ks| ==> ks[i] in draft
    requires Ascending(ks)
    ensures Ascending(KeepPositive(draft, ks))
  {
    if ks != [] {
      AscendingSplit(ks);
      KeepPositiveAscending(draft, ks[1..]);
      if IsPositive(draft[ks[0]]) {
        ConsAscending(ks[0], KeepPositive(draft, ks[1..]));
      }
    }
  }

  /** The head of an ascending sequence is its least member, and the tail holds the other members. */
  lemma AscendingSplit(a: seq<ItemId>)
    requires Ascending(a) && a != []
    ensures Ascending(a[1..])
    ensures forall k :: k in a ==> a[0] <= k
    ensures forall k :: k in a[1..] <==> k in a && k != a[0]
  {
    forall k | k in a ensures a[0] <= k {
      var n :| 0 <= n < |a| && a[n] == k;
    }
    forall k | k in a && k != a[0] ensures k in a[1..] {
      var n :| 0 <= n < |a| && a[n] == k;
      assert a[1..][n - 1] == k;
    }
    forall k | k in a[1..] ensures k != a[0] {
      var n :| 0 <= n < |a[1..]| && a[1..][n] == k;
      assert a[n + 1] == k;
    }
  }

  lemma SameMembersBothEmpty(a: seq<ItemId>, b: seq<ItemId>)
    requires forall k :: k in a <==> k in b
    ensures a == [] <==> b == []
  {
    if a != [] {
      assert a[0] in b;
    }
    if b != [] {
      assert b[0] in a;
    }
  }

  /** Two ascending key sequences with the same members are the same sequence. */
  lemma {:induction false} AscendingUnique(a: seq<ItemId>, b: seq<ItemId>)
    requires Ascending(a) && Ascending(b)
    requires forall k :: k in a <==> k in b
    ensures a == b
  {
    SameMembersBothEmpty(a, b);
    if a != [] {
      AscendingSplit(a);
      AscendingSplit(b);
      assert a[0] in b && b[0] in a;
      assert a[0] == b[0];
      AscendingUnique(a[1..], b[1..]);
      assert a == [a[0]] + a[1..] && b == [b[0]] + b[1..];
    }
  }

  /** Filtering and mapping the entries of `ks` is mapping the kept keys; `parseInt(String(id))` gives back `id`. */
  lemma {:induction false} FilterMapEntries(draft: Draft, ks: seq<ItemId>)
    requires forall i :: 0 <= i < |ks| ==> ks[i] in draft
    ensures ToLines(PositiveEntries(EntriesOf(draft, ks))) == LinesFor(draft, KeepPositive(draft, ks))
  {
    if ks != [] {
      FilterMapEntries(draft, ks[1..]);
      var es := EntriesOf(draft, ks);
      assert es[1..] == EntriesOf(draft, ks[1..]);
      if IsPositive(draft[ks[0]]) {
        ParseIntToString(ks[0]);
        assert PositiveEntries(es) == [es[0]] + PositiveEntries(es[1..]);
      }
    }
  }

  /**
   * The built request is exactly one line per selected id, in ascending id
   * order, each carrying the id and the draft's quantity for it.
   */
  lemma BuildOrderLinesSpec(draft: Draft)
    ensures BuildOrderLines(draft) == LinesFor(draft, SortedKeys(Selected(draft)))
  {
    var all := SortedKeys(draft.Keys);
    FilterMapEntries(draft, all);
    KeepPositiveAscending(draft, all);
    AscendingUnique(KeepPositive(draft, all), SortedKeys(Selected(draft)));
  }

  lemma LinesForOrdered(draft: Draft, ks: seq<ItemId>)
    requires Ascending(ks)
    requires forall i :: 0 <= i < |ks| ==> ks[i] in draft && IsPositive(draft[ks[i]])
    ensures var ls := LinesFor(draft, ks);
      && (forall i :: 0 <= i < |ls| ==> ls[i].itemId.Int? && IsPositive(ls[i].quantity))
      && (forall i, j :: 0 <= i < j < |ls| ==> ls[i].itemId.value < ls[j].itemId.value)
  {
  }

  lemma LinesForComplete(draft: Draft, ks: seq<ItemId>, k: ItemId)
    requires forall i :: 0 <= i < |ks| ==> ks[i] in draft
    requires k in draft
    ensures k in ks <==> OrderLine(Int(k), draft[k]) in LinesFor(draft, ks)
  {
    var ls := LinesFor(draft, ks);
    if OrderLine(Int(k), draft[k]) in ls {
      var i :| 0 <= i < |ls| && ls[i] == OrderLine(Int(k), draft[k]);
      assert ks[i] == k;
    }
    if k in ks {
      var i :| 0 <= i < |ks| && ks[i] == k;
      assert ls[i] == OrderLine(Int(k), draft[k]);
    }
  }

  /** One line per selected id; every line carries a numeric id and a positive quantity; ids strictly ascend, so none repeats. */
  lemma OrderLinesOrdered(draft: Draft)
    ensures var ls := BuildOrderLines(draft);
      && |ls| == |Selected(draft)|
      && (forall i :: 0 <= i < |ls| ==> ls[i].itemId.Int? && IsPositive(ls[i].quantity))
      && (forall i, j :: 0 <= i < j < |ls| ==> ls[i].itemId.value < ls[j].itemId.value)
  {
    var ks := SortedKeys(Selected(draft));
    BuildOrderLinesSpec(draft);
    LinesForOrdered(draft, ks);
  }

  lemma OrderLineFor(draft: Draft, k: ItemId)
    requires k in draft
    ensures IsPositive(draft[k]) <==> OrderLine(Int(k), draft[k]) in BuildOrderLines(draft)
  {
    var ks := SortedKeys(Selected(draft));
    BuildOrderLinesSpec(draft);
    LinesForComplete(draft, ks, k);
  }

  /** A draft entry becomes a line, carrying its id and quantity, exactly when its quantity is positive. */
  lemma OrderLinesComplete(draft: Draft)
    ensures forall k: ItemId :: k in draft ==> (IsPositive(draft[k]) <==> OrderLine(Int(k), draft[k]) in BuildOrderLines(draft))
  {
    forall k: ItemId | k in draft
      ensures IsPositive(draft[k]) <==> OrderLine(Int(k), draft[k]) in BuildOrderLines(draft)
    {
      OrderLineFor(draft, k);
    }
  }

  /** A draft with no positive quantity, the empty draft included, yields an empty line list. */
  lemma NothingSelectedNoLines(draft: Draft)
    requires forall k :: k in draft ==> !IsPositive(draft[k])
    ensures BuildOrderLines(draft) == []
  {
    OrderLinesOrdered(draft);
    assert Selected(draft) == {};
  }

  /** `{1: 0, 2: -1, 3: 5}` yields the single line `{itemId: 3, quantity: 5}`. */
  lemma BuildOrderLinesExample()
    ensures BuildOrderLines(map[1 := Int(0), 2 := Int(-1), 3 := Int(5)]) == [OrderLine(Int(3), Int(5))]
  {
    var draft: Draft := map[1 := Int(0), 2 := Int(-1), 3 := Int(5)];
    assert Selected(draft) == {3};
    var ks := SortedKeys({3});
    assert 3 in ks;
    assert ks == [3];
    BuildOrderLinesSpec(draft);
  }

  /** The order page's draft. */
  class PosPage {
    var itemQuantities: Draft

    constructor ()
      ensures itemQuantities == map[]
    {
      itemQuantities := map[];
    }

    /** Overwrites the entry for `itemId`; zero, negative and NaN quantities are kept in the draft. */
    method HandleQuantityChange(itemId: ItemId, quantity: Number)
      modifies this
      ensures itemQuantities == old(itemQuantities)[itemId := quantity]
      ensures itemId in itemQuantities
    {
      itemQuantities := itemQuantities[itemId := quantity];
    }

    /**
     * Posts the lines built from the draft with the in-memory token, whatever
     * it is; on success asks for the order list again and empties the draft,
     * on failure keeps the draft as it was.
     */
    method HandlePlaceOrder(jwtToken: Option<string>, outcome: Outcome) returns (post: OrderPost, refetchOrders: bool)
      modifies this
      ensures post == OrderPost(BuildOrderLines(old(itemQuantities)), BearerHeader(jwtToken))
      ensures refetchOrders <==> outcome == Succeeded
      ensures outcome == Succeeded ==> itemQuantities == map[]
      ensures outcome == Failed ==> itemQuantities == old(itemQuantities)
    {
      var orderItems := BuildOrderLines(itemQuantities);
      post := OrderPost(orderItems, BearerHeader(jwtToken));
      refetchOrders := false;
      if outcome == Succeeded {
        refetchOrders := true;
        itemQuantities := map[];
      }
    }
  }
}
