/**
 * The cart store of the lending client (vue-app/src/stores/cart.js): an
 * ordered list of lines keyed by catalogue item id, with stock-bounded
 * quantity operations.
 *
 * Two stock ceilings are kept apart on purpose. `addItem` checks against the
 * stock of the item it is handed (`Item.totalStock`); `updateQuantity` checks
 * against the ceiling captured in the line when it was first added
 * (`Line.totalStock`). The two need not agree.
 */
module Cart {
  import Seqs

  /** Catalogue item identity, compared with === in the store. */
  type ItemId = int

  /** A catalogue item as passed to addItem; `totalStock` is its stock count
      after numeric coercion. */
  datatype Item = Item(id: ItemId, name: string, totalStock: int)

  /** A cart line: the item's fields, the quantity held and the stock ceiling
      captured when the line was created. */
  datatype Line = Line(id: ItemId, name: string, quantity: int, totalStock: int)

  // ---------------------------------------------------------------------
  // Specification of the list of lines
  // ---------------------------------------------------------------------

  /** Position of the first line carrying `id`, or -1 when there is none
      (what `find` and `findIndex` select). */
  function IndexOf(items: seq<Line>, id: ItemId): (r: int)
    ensures -1 <= r < |items|
    ensures r == -1 <==> forall k :: 0 <= k < |items| ==> items[k].id != id
    ensures 0 <= r ==> items[r].id == id && forall k :: 0 <= k < r ==> items[k].id != id
  {
    Seqs.FirstIndex(items, (l: Line) => l.id, id)
  }

  /** No two lines share an id. */
  ghost predicate UniqueIds(items: seq<Line>)
  {
    forall j, k :: 0 <= j < k < |items| ==> items[j].id != items[k].id
  }

  /** Every line holds at most its stored stock ceiling. */
  ghost predicate WithinStock(items: seq<Line>)
  {
    forall k :: 0 <= k < |items| ==> items[k].quantity <= items[k].totalStock
  }

  /** The sum of the quantities, folded from the left as `reduce` does. */
  function Total(items: seq<Line>): int
  {
    if items == [] then 0 else Total(items[..|items| - 1]) + items[|items| - 1].quantity
  }

  /** Quantity already held for `id`: that of the first matching line, or 0. */
  function Held(items: seq<Line>, id: ItemId): int
  {
    var i := IndexOf(items, id);
    if i == -1 then 0 else items[i].quantity
  }

  /** addItem refuses, and warns, when what is held plus what is requested
      exceeds the stock of the item handed in. */
  predicate AddRefused(items: seq<Line>, item: Item, quantity: int)
  {
    Held(items, item.id) + quantity > item.totalStock
  }

  /** The list after addItem(item, quantity). */
  function Added(items: seq<Line>, item: Item, quantity: int): seq<Line>
  {
    var i := IndexOf(items, item.id);
    if AddRefused(items, item, quantity) then items
    else if i >= 0 then items[i := items[i].(quantity := items[i].quantity + quantity)]
    else items + [Line(item.id, item.name, quantity, item.totalStock)]
  }

  /** The list after removeItem(id): the first matching line is spliced out. */
  function Removed(items: seq<Line>, id: ItemId): seq<Line>
  {
    var i := IndexOf(items, id);
    if i == -1 then items else items[..i] + items[i + 1..]
  }

  /** updateQuantity warns when the line exists, the new quantity is at least
      1 and it exceeds the line's stored ceiling. */
  predicate UpdateWarns(items: seq<Line>, id: ItemId, newQty: int)
  {
    var i := IndexOf(items, id);
    i != -1 && newQty >= 1 && newQty > items[i].totalStock
  }

  /** The list after updateQuantity(id, newQty). */
  function Updated(items: seq<Line>, id: ItemId, newQty: int): seq<Line>
  {
    var i := IndexOf(items, id);
    if i == -1 || newQty < 1 then items
    else if newQty > items[i].totalStock then items[i := items[i].(quantity := items[i].totalStock)]
    else items[i := items[i].(quantity := newQty)]
  }

  /** Reference definition of deletion by id: every line with `id` dropped,
      the others kept in order. */
  function Without(items: seq<Line>, id: ItemId): (r: seq<Line>)
    ensures |r| <= |items|
    ensures forall k :: 0 <= k < |r| ==> r[k].id != id
  {
    if items == [] then []
    else if items[0].id == id then Without(items[1..], id)
    else [items[0]] + Without(items[1..], id)
  }

  // ---------------------------------------------------------------------
  // The store
  // ---------------------------------------------------------------------

  /** The cart store. `items` is the reactive list the source mutates in place. */
  class CartStore {
    var items: seq<Line>

    /** No two lines share an id; every operation keeps this. */
    ghost predicate Valid()
      reads this
    {
      UniqueIds(items)
    }

    /** The store starts with an empty list. */
    constructor ()
      ensures Valid() && items == []
    {
      items := [];
    }

    /** totalItems: the sum of the line quantities. */
    function TotalItems(): (n: int)
      reads this
      ensures items == [] ==> n == 0
      ensures (forall k :: 0 <= k < |items| ==> items[k].quantity >= 1) ==> n >= |items|
    {
      TotalAtLeastLength(items);
      Total(items)
    }

    /** addItem: merge into the line with the same id, or append a new line,
        unless the incoming item's stock would be exceeded. The quantity
        defaults to 1. */
    method AddItem(item: Item, quantity: int := 1) returns (warned: bool)
      requires Valid()
      modifies this
      ensures Valid()
      ensures warned == AddRefused(old(items), item, quantity)
      ensures items == Added(old(items), item, quantity)
    {
      var i := IndexOf(items, item.id);
      var currentQty := if i >= 0 then items[i].quantity else 0;
      var stock := item.totalStock;
      if currentQty + quantity > stock {
        warned := true;
        return;
      }
      warned := false;
      if i >= 0 {
        items := items[i := items[i].(quantity := items[i].quantity + quantity)];
      } else {
        items := items + [Line(item.id, item.name, quantity, stock)];
      }
      AddKeepsIdsUnique(old(items), item, quantity);
    }

    /** removeItem: splice out the line with this id, if any. */
    method RemoveItem(itemId: ItemId)
      requires Valid()
      modifies this
      ensures Valid()
      ensures items == Removed(old(items), itemId)
    {
      var index := IndexOf(items, itemId);
      if index > -1 {
        items := items[..index] + items[index + 1..];
      }
      RemoveKeepsInvariants(old(items), itemId);
    }

    /** updateQuantity: ignore values below 1, clamp values above the line's
        stored ceiling, otherwise set the quantity exactly. */
    method UpdateQuantity(itemId: ItemId, newQty: int) returns (warned: bool)
      requires Valid()
      modifies this
      ensures Valid()
      ensures warned == UpdateWarns(old(items), itemId, newQty)
      ensures items == Updated(old(items), itemId, newQty)
    {
      warned := false;
      var i := IndexOf(items, itemId);
      if i == -1 {
        return;
      }
      var stock := items[i].totalStock;
      if newQty < 1 {
        return;
      }
      if newQty > stock {
        warned := true;
        items := items[i := items[i].(quantity := stock)];
        UpdateKeepsInvariants(old(items), itemId, newQty);
        return;
      }
      items := items[i := items[i].(quantity := newQty)];
      UpdateKeepsInvariants(old(items), itemId, newQty);
    }

    /** clearCart: the list becomes empty, so totalItems is 0. */
    method ClearCart()
      modifies this
      ensures Valid()
      ensures items == [] && TotalItems() == 0
    {
      items := [];
    }
  }

  // ---------------------------------------------------------------------
  // Properties of the operations
  // ---------------------------------------------------------------------

  /** With quantities of at least 1, the total is at least the number of lines. */
  lemma {:induction false} TotalAtLeastLength(items: seq<Line>)
    ensures (forall k :: 0 <= k < |items| ==> items[k].quantity >= 1) ==> Total(items) >= |items|
  {
    if items != [] {
      var init := items[..|items| - 1];
      assert forall k :: 0 <= k < |init| ==> init[k] == items[k];
      TotalAtLeastLength(init);
    }
  }

  /** Changing one line's quantity changes the total by the difference. */
  lemma {:induction false} TotalAfterSet(items: seq<Line>, i: nat, q: int)
    requires i < |items|
    ensures Total(items[i := items[i].(quantity := q)]) == Total(items) - items[i].quantity + q
  {
    var r := items[i := items[i].(quantity := q)];
    var n := |items| - 1;
    if i < n {
      assert r[..n] == items[..n][i := items[i].(quantity := q)];
      TotalAfterSet(items[..n], i, q);
    } else {
      assert r[..n] == items[..n];
    }
  }

  /** Splicing out one line takes its quantity off the total. */
  lemma {:induction false} TotalAfterSplice(items: seq<Line>, i: nat)
    requires i < |items|
    ensures Total(items[..i] + items[i + 1..]) == Total(items) - items[i].quantity
  {
    var r := items[..i] + items[i + 1..];
    var n := |items| - 1;
    if i < n {
      var init := items[..n];
      assert r[..|r| - 1] == init[..i] + init[i + 1..];
      assert r[|r| - 1] == items[n];
      TotalAfterSplice(init, i);
    } else {
      assert r == items[..n];
    }
  }

  /** A refused addItem leaves the list exactly as it was. */
  lemma AddRefusedKeepsCart(items: seq<Line>, item: Item, quantity: int)
    requires Held(items, item.id) + quantity > item.totalStock
    ensures Added(items, item, quantity) == items
  {
  }

  /** An accepted addItem for an id already present adds `quantity` to that
      line only: same length, same ceiling, every other line untouched. */
  lemma AddMergesIntoExisting(items: seq<Line>, item: Item, quantity: int)
    requires !AddRefused(items, item, quantity)
    requires IndexOf(items, item.id) >= 0
    ensures var r, i := Added(items, item, quantity), IndexOf(items, item.id);
      |r| == |items| &&
      r[i] == Line(items[i].id, items[i].name, items[i].quantity + quantity, items[i].totalStock) &&
      forall k :: 0 <= k < |r| && k != i ==> r[k] == items[k]
  {
  }

  /** An accepted addItem for an absent id appends one line at the end,
      carrying the requested quantity and the incoming item's stock. */
  lemma AddAppendsNewLine(items: seq<Line>, item: Item, quantity: int)
    requires forall k :: 0 <= k < |items| ==> items[k].id != item.id
    requires quantity <= item.totalStock
    ensures Added(items, item, quantity) == items + [Line(item.id, item.name, quantity, item.totalStock)]
  {
  }

  /** addItem never introduces a second line for an id. */
  lemma AddKeepsIdsUnique(items: seq<Line>, item: Item, quantity: int)
    requires UniqueIds(items)
    ensures UniqueIds(Added(items, item, quantity))
  {
  }

  /** The incoming stock does not exceed the ceiling stored in the matching line. */
  predicate StockNotRaised(items: seq<Line>, item: Item)
  {
    var i := IndexOf(items, item.id);
    i == -1 || item.totalStock <= items[i].totalStock
  }

  /** addItem keeps every line within its stored ceiling provided the item
      handed in does not report more stock than the line captured. */
  lemma AddKeepsWithinStock(items: seq<Line>, item: Item, quantity: int)
    requires WithinStock(items) && StockNotRaised(items, item)
    ensures WithinStock(Added(items, item, quantity))
  {
  }

  /** Because addItem checks the incoming stock and not the stored ceiling, a
      line can end above its stored ceiling: 3 held of a stored 5, then 4
      more of an item now reporting 10, leaves 7. */
  lemma AddCanExceedStoredCeiling()
    ensures var items := [Line(1, "projector", 3, 5)];
      WithinStock(items) &&
      Added(items, Item(1, "projector", 10), 4) == [Line(1, "projector", 7, 5)] &&
      !WithinStock(Added(items, Item(1, "projector", 10), 4))
  {
    FirstAfterPrefix([Line(1, "projector", 3, 5)], 1, 0);
    var after := Added([Line(1, "projector", 3, 5)], Item(1, "projector", 10), 4);
    assert after[0].quantity > after[0].totalStock;
  }

  /** addItem does not reject a quantity below 1: a zero-quantity line is
      appended, and a negative quantity lowers an existing line. */
  lemma AddAcceptsNonPositive()
    ensures Added([], Item(1, "cable", 5), 0) == [Line(1, "cable", 0, 5)]
    ensures Added([Line(1, "cable", 2, 5)], Item(1, "cable", 5), -3) == [Line(1, "cable", -1, 5)]
  {
  }

  /** updateQuantity does not raise a quantity to 1: a line accepted with 0
      of a ceiling of 0 is clamped back to 0, with a warning, when asked
      for 3. */
  lemma UpdateCanLeaveZero()
    ensures Added([], Item(1, "tripod", 0), 0) == [Line(1, "tripod", 0, 0)]
    ensures Updated([Line(1, "tripod", 0, 0)], 1, 3) == [Line(1, "tripod", 0, 0)]
    ensures UpdateWarns([Line(1, "tripod", 0, 0)], 1, 3)
  {
    FirstAfterPrefix([Line(1, "tripod", 0, 0)], 1, 0);
  }

  /** Adding the same new item twice with quantity q under ceiling c: both
      calls are accepted and 2q is held when 2q <= c; when q <= c < 2q the
      second call is refused and q is held. */
  lemma AddTwice(items: seq<Line>, item: Item, q: int)
    requires forall k :: 0 <= k < |items| ==> items[k].id != item.id
    requires q <= item.totalStock
    ensures var once := Added(items, item, q);
      !AddRefused(items, item, q) && Held(once, item.id) == q &&
      (2 * q <= item.totalStock ==>
        !AddRefused(once, item, q) && Held(Added(once, item, q), item.id) == 2 * q) &&
      (item.totalStock < 2 * q ==>
        AddRefused(once, item, q) && Added(once, item, q) == once)
  {
    var once := Added(items, item, q);
    assert once == items + [Line(item.id, item.name, q, item.totalStock)];
    FirstAfterPrefix(once, item.id, |items|);
    if 2 * q <= item.totalStock {
      var twice := Added(once, item, q);
      assert twice == once[|items| := once[|items|].(quantity := 2 * q)];
      FirstAfterPrefix(twice, item.id, |items|);
    }
  }

  /** A line carrying `id` at position `n`, after `n` lines that do not, is
      the first match. */
  lemma FirstAfterPrefix(items: seq<Line>, id: ItemId, n: nat)
    requires n < |items| && items[n].id == id
    requires forall k :: 0 <= k < n ==> items[k].id != id
    ensures IndexOf(items, id) == n
  {
  }

  /** totalItems grows by exactly the quantity of an accepted addItem. */
  lemma AddTotal(items: seq<Line>, item: Item, quantity: int)
    ensures Total(Added(items, item, quantity)) ==
      Total(items) + (if AddRefused(items, item, quantity) then 0 else quantity)
  {
    var i := IndexOf(items, item.id);
    if !AddRefused(items, item, quantity) {
      if i >= 0 {
        TotalAfterSet(items, i, items[i].quantity + quantity);
      } else {
        var r := items + [Line(item.id, item.name, quantity, item.totalStock)];
        assert r[..|r| - 1] == items;
      }
    }
  }

  /** removeItem of an absent id changes nothing. */
  lemma RemoveAbsentKeepsCart(items: seq<Line>, id: ItemId)
    requires forall k :: 0 <= k < |items| ==> items[k].id != id
    ensures Removed(items, id) == items
  {
  }

  /** removeItem drops the matching line and keeps the rest in order: with
      unique ids it equals deleting every line with that id. */
  lemma {:induction false} RemoveIsWithout(items: seq<Line>, id: ItemId)
    requires UniqueIds(items)
    ensures Removed(items, id) == Without(items, id)
  {
    if items != [] {
      var tail := items[1..];
      assert UniqueIds(tail) by {
        forall j, k | 0 <= j < k < |tail| ensures tail[j].id != tail[k].id {
          assert tail[j] == items[j + 1] && tail[k] == items[k + 1];
        }
      }
      if items[0].id == id {
        assert forall k :: 0 <= k < |tail| ==> tail[k].id != id by {
          forall k | 0 <= k < |tail| ensures tail[k].id != id {
            assert tail[k] == items[k + 1];
          }
        }
        WithoutAbsent(tail, id);
      } else {
        RemoveIsWithout(tail, id);
        var i := IndexOf(items, id);
        if i != -1 {
          IndexOfTail(items, id);
          assert items[..i] + items[i + 1..] == [items[0]] + (tail[..i - 1] + tail[i..]);
        }
      }
    }
  }

  /** Past a first line without `id`, the search continues one position on. */
  lemma IndexOfTail(items: seq<Line>, id: ItemId)
    requires items != [] && items[0].id != id
    ensures IndexOf(items, id) ==
      (if IndexOf(items[1..], id) == -1 then -1 else IndexOf(items[1..], id) + 1)
  {
    var tail := items[1..];
    var t := IndexOf(tail, id);
    if t == -1 {
      forall k | 0 <= k < |items| ensures items[k].id != id {
        if k > 0 { assert items[k] == tail[k - 1]; }
      }
    } else {
      forall k | 0 <= k < t + 1 ensures items[k].id != id {
        if k > 0 { assert items[k] == tail[k - 1]; }
      }
      FirstAfterPrefix(items, id, t + 1);
    }
  }

  /** Deleting an id nobody carries keeps the list. */
  lemma {:induction false} WithoutAbsent(items: seq<Line>, id: ItemId)
    requires forall k :: 0 <= k < |items| ==> items[k].id != id
    ensures Without(items, id) == items
  {
    if items != [] {
      WithoutAbsent(items[1..], id);
    }
  }

  /** removeItem keeps ids unique and every line within its stored ceiling. */
  lemma RemoveKeepsInvariants(items: seq<Line>, id: ItemId)
    ensures UniqueIds(items) ==> UniqueIds(Removed(items, id))
    ensures WithinStock(items) ==> WithinStock(Removed(items, id))
  {
    var i := IndexOf(items, id);
    if i != -1 {
      var r := Removed(items, id);
      forall k | 0 <= k < |r| ensures r[k] == items[Skip(k, i)] {
      }
      if UniqueIds(items) {
        forall j, k | 0 <= j < k < |r| ensures r[j].id != r[k].id {
          assert Skip(j, i) < Skip(k, i);
        }
      }
    }
  }

  /** Position in the original list of position `k` after splicing out `i`. */
  function Skip(k: nat, i: nat): (r: nat)
    ensures r == k || r == k + 1
  {
    if k < i then k else k + 1
  }

  /** totalItems loses exactly the quantity of the removed line. */
  lemma RemoveTotal(items: seq<Line>, id: ItemId)
    ensures Total(Removed(items, id)) ==
      Total(items) - (if IndexOf(items, id) == -1 then 0 else items[IndexOf(items, id)].quantity)
  {
    var i := IndexOf(items, id);
    if i != -1 {
      TotalAfterSplice(items, i);
    }
  }

  /** updateQuantity changes nothing for an absent id or a value below 1. */
  lemma UpdateIgnored(items: seq<Line>, id: ItemId, newQty: int)
    requires IndexOf(items, id) == -1 || newQty < 1
    ensures Updated(items, id, newQty) == items && !UpdateWarns(items, id, newQty)
  {
  }

  /** Otherwise the matching line gets newQty, clamped to its stored ceiling
      (with a warning exactly when clamped); nothing else changes. */
  lemma UpdateSetsClamped(items: seq<Line>, id: ItemId, newQty: int)
    requires IndexOf(items, id) != -1 && newQty >= 1
    ensures var r, i := Updated(items, id, newQty), IndexOf(items, id);
      var ceiling := items[i].totalStock;
      |r| == |items| &&
      r[i] == items[i].(quantity := if newQty > ceiling then ceiling else newQty) &&
      r[i].quantity <= r[i].totalStock &&
      (UpdateWarns(items, id, newQty) <==> newQty > ceiling) &&
      forall k :: 0 <= k < |r| && k != i ==> r[k] == items[k]
  {
  }

  /** updateQuantity keeps ids unique and every line within its stored ceiling. */
  lemma UpdateKeepsInvariants(items: seq<Line>, id: ItemId, newQty: int)
    ensures UniqueIds(items) ==> UniqueIds(Updated(items, id, newQty))
    ensures WithinStock(items) ==> WithinStock(Updated(items, id, newQty))
  {
  }

  /** totalItems changes by the difference between the new and old quantity. */
  lemma UpdateTotal(items: seq<Line>, id: ItemId, newQty: int)
    ensures var r, i := Updated(items, id, newQty), IndexOf(items, id);
      Total(r) == Total(items) + (if i == -1 then 0 else r[i].quantity - items[i].quantity)
  {
    var i := IndexOf(items, id);
    if i != -1 && newQty >= 1 {
      var q := if newQty > items[i].totalStock then items[i].totalStock else newQty;
      TotalAfterSet(items, i, q);
    }
  }
}
