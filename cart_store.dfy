/**
 * The shopping-cart store of hooks/use-cart.ts: an ordered sequence of line
 * items, where a line is identified by product id, size and the topping list
 * compared after sorting.
 */
module CartStore {
  import opened ListOps
  import opened Text

  datatype Customizations = Customizations(size: string, toppings: seq<string>)

  datatype CartItem = CartItem(
    id: int,
    name: string,
    price: real,
    quantity: int,
    image: string,
    customizations: Customizations)

  /** `toppings.sort()` with the default comparator: code-point order. */
  function SortedToppings(toppings: seq<string>): seq<string>
  {
    Sort(toppings, StrLe)
  }

  /** The topping test of the line identity: the two lists are equal once sorted. */
  predicate SameToppings(a: seq<string>, b: seq<string>)
  {
    SortedToppings(a) == SortedToppings(b)
  }

  /** Comparing sorted lists is comparing multisets: topping order never matters. */
  lemma SameToppingsIffSameMultiset(a: seq<string>, b: seq<string>)
    ensures SameToppings(a, b) <==> multiset(a) == multiset(b)
  {
    StrLeTotalOrder();
    if multiset(a) == multiset(b) {
      SortSorted(a, StrLe);
      SortSorted(b, StrLe);
      SortedUnique(SortedToppings(a), SortedToppings(b), StrLe);
    }
  }

  /** The identity test shared by `addItem`, `removeItem` and `updateQuantity`. */
  predicate Matches(item: CartItem, id: int, c: Customizations)
  {
    && item.id == id
    && item.customizations.size == c.size
    && SameToppings(item.customizations.toppings, c.toppings)
  }

  predicate SameLine(a: CartItem, b: CartItem)
  {
    Matches(a, b.id, b.customizations)
  }

  predicate DistinctLines(a: CartItem, b: CartItem)
  {
    !SameLine(a, b)
  }

  /** No two lines of the cart share an identity. */
  ghost predicate Distinct(items: seq<CartItem>)
  {
    Pairwise(items, DistinctLines)
  }

  /** Every line has a positive quantity. */
  ghost predicate PositiveQuantities(items: seq<CartItem>)
  {
    forall i :: 0 <= i < |items| ==> items[i].quantity >= 1
  }

  /** The identity test as the callback `findIndex` is given. */
  function LineTest(id: int, c: Customizations): CartItem -> bool
  {
    (item: CartItem) => Matches(item, id, c)
  }

  /** `findIndex` with the identity test: the first matching position, or -1. */
  function FindLine(items: seq<CartItem>, id: int, c: Customizations): (k: int)
    ensures -1 <= k < |items|
  {
    FindIndex(items, LineTest(id, c))
  }

  /** `FindLine` returns the first matching position, and -1 exactly when no line matches. */
  lemma FindLineIsFirstMatch(items: seq<CartItem>, id: int, c: Customizations)
    ensures var k := FindLine(items, id, c);
      k >= 0 ==> Matches(items[k], id, c) && forall j :: 0 <= j < k ==> !Matches(items[j], id, c)
    ensures FindLine(items, id, c) == -1 <==> forall j :: 0 <= j < |items| ==> !Matches(items[j], id, c)
  {
    FindIndexIsFirst(items, LineTest(id, c));
  }

  /** The lines after `addItem(newItem)`: merge into the first matching line, or append. */
  function AddLine(items: seq<CartItem>, newItem: CartItem): seq<CartItem>
  {
    AddAt(items, FindLine(items, newItem.id, newItem.customizations), newItem)
  }

  /** Merge `newItem` into line `k`, or append it when `k` is -1. */
  function AddAt(items: seq<CartItem>, k: int, newItem: CartItem): seq<CartItem>
    requires -1 <= k < |items|
  {
    if k > -1 then items[k := items[k].(quantity := items[k].quantity + newItem.quantity)]
    else items + [newItem]
  }

  /** The lines after `removeItem(id, c)`: every matching line filtered out. */
  function RemoveLines(items: seq<CartItem>, id: int, c: Customizations): seq<CartItem>
  {
    Filter(items, (item: CartItem) => !Matches(item, id, c))
  }

  /** The `map` branch of `updateQuantity`: matching lines get quantity `q`. */
  function SetQuantity(items: seq<CartItem>, id: int, c: Customizations, q: int): seq<CartItem>
  {
    seq(|items|, i requires 0 <= i < |items| =>
      if Matches(items[i], id, c) then items[i].(quantity := q) else items[i])
  }

  /** The lines after `updateQuantity(id, c, q)`. */
  function UpdateLines(items: seq<CartItem>, id: int, c: Customizations, q: int): seq<CartItem>
  {
    if q <= 0 then RemoveLines(items, id, c) else SetQuantity(items, id, c, q)
  }

  function LinePrice(item: CartItem): real
  {
    item.price * item.quantity as real
  }

  /** `getTotalPrice`: the sum of price times quantity over all lines. */
  function TotalPrice(items: seq<CartItem>): (r: real)
    ensures items == [] ==> r == 0.0
  {
    if items == [] then 0.0 else LinePrice(items[0]) + TotalPrice(items[1..])
  }

  /** A cart whose prices and quantities are non-negative never totals below zero. */
  lemma {:induction false} TotalPriceNonNegative(items: seq<CartItem>)
    requires forall i :: 0 <= i < |items| ==> items[i].price >= 0.0 && items[i].quantity >= 0
    ensures TotalPrice(items) >= 0.0
  {
    if items != [] {
      var p, q := items[0].price, items[0].quantity as real;
      assert p * q >= 0.0;
      TotalPriceNonNegative(items[1..]);
    }
  }

  /** `getTotalItems`: the sum of the quantities. */
  function TotalItems(items: seq<CartItem>): (r: int)
    ensures items == [] ==> r == 0
    ensures PositiveQuantities(items) ==> r >= |items|
  {
    if items == [] then 0 else items[0].quantity + TotalItems(items[1..])
  }

  // ----- totals over appends and single-line updates -----

  lemma {:induction false} TotalPriceOfAppend(items: seq<CartItem>, x: CartItem)
    ensures TotalPrice(items + [x]) == TotalPrice(items) + LinePrice(x)
  {
    if items != [] {
      assert (items + [x])[1..] == items[1..] + [x];
      TotalPriceOfAppend(items[1..], x);
    }
  }

  lemma {:induction false} TotalItemsOfAppend(items: seq<CartItem>, x: CartItem)
    ensures TotalItems(items + [x]) == TotalItems(items) + x.quantity
  {
    if items != [] {
      assert (items + [x])[1..] == items[1..] + [x];
      TotalItemsOfAppend(items[1..], x);
    }
  }

  lemma {:induction false} TotalPriceOfUpdate(items: seq<CartItem>, k: nat, y: CartItem)
    requires k < |items|
    ensures TotalPrice(items[k := y]) == TotalPrice(items) - LinePrice(items[k]) + LinePrice(y)
  {
    if k > 0 {
      assert items[k := y][1..] == items[1..][k - 1 := y];
      TotalPriceOfUpdate(items[1..], k - 1, y);
    }
  }

  lemma {:induction false} TotalItemsOfUpdate(items: seq<CartItem>, k: nat, y: CartItem)
    requires k < |items|
    ensures TotalItems(items[k := y]) == TotalItems(items) - items[k].quantity + y.quantity
  {
    if k > 0 {
      assert items[k := y][1..] == items[1..][k - 1 := y];
      TotalItemsOfUpdate(items[1..], k - 1, y);
    }
  }

  /** Raising a line's quantity by `q` adds `q` units at that line's price. */
  lemma LinePriceOfMerge(line: CartItem, q: int)
    ensures LinePrice(line.(quantity := line.quantity + q)) == LinePrice(line) + LinePrice(line.(quantity := q))
  {
    var p, a, b := line.price, line.quantity as real, q as real;
    assert (line.quantity + q) as real == a + b;
    assert p * (a + b) == p * a + p * b;
  }

  /** Merging into an existing line `k` is a point update of that line's quantity. */
  lemma MergeAtIsUpdate(items: seq<CartItem>, k: nat, newItem: CartItem)
    requires k < |items|
    ensures AddAt(items, k, newItem) == items[k := items[k].(quantity := items[k].quantity + newItem.quantity)]
  {
  }

  /** Merging `newItem` into line `k` raises the item count by its quantity. */
  lemma TotalItemsOfMergeAt(items: seq<CartItem>, k: nat, newItem: CartItem)
    requires k < |items|
    ensures TotalItems(AddAt(items, k, newItem)) == TotalItems(items) + newItem.quantity
  {
    MergeAtIsUpdate(items, k, newItem);
    TotalItemsOfUpdate(items, k, items[k].(quantity := items[k].quantity + newItem.quantity));
  }

  /** Merging `newItem` into line `k` raises the total by its quantity at that line's price. */
  lemma {:induction false} TotalPriceOfMergeAt(items: seq<CartItem>, k: nat, newItem: CartItem)
    requires k < |items|
    ensures TotalPrice(AddAt(items, k, newItem)) == TotalPrice(items) + LinePrice(items[k].(quantity := newItem.quantity))
  {
    var r := AddAt(items, k, newItem);
    if k == 0 {
      assert r[1..] == items[1..];
      LinePriceOfMerge(items[0], newItem.quantity);
    } else {
      assert r[1..] == AddAt(items[1..], k - 1, newItem);
      TotalPriceOfMergeAt(items[1..], k - 1, newItem);
    }
  }

  // ----- addItem -----

  /**
   * Adding a selection whose identity an existing line has raises that line's
   * quantity by the new quantity; the line keeps its own price, name and image,
   * and no other line and not the length change.
   */
  lemma AddMergesExistingLine(items: seq<CartItem>, newItem: CartItem, k: nat)
    requires Distinct(items)
    requires k < |items| && SameLine(items[k], newItem)
    ensures |AddLine(items, newItem)| == |items|
    ensures AddLine(items, newItem)[k] == items[k].(quantity := items[k].quantity + newItem.quantity)
    ensures forall j :: 0 <= j < |items| && j != k ==> AddLine(items, newItem)[j] == items[j]
  {
    forall j | 0 <= j < k
      ensures !Matches(items[j], newItem.id, newItem.customizations)
    {
      assert DistinctLines(items[j], items[k]);
    }
    FindLineIsFirstMatch(items, newItem.id, newItem.customizations);
    assert FindLine(items, newItem.id, newItem.customizations) == k;
    MergeAtIsUpdate(items, k, newItem);
  }

  /** Adding a selection that matches no line appends it; earlier lines are untouched. */
  lemma AddAppendsNewLine(items: seq<CartItem>, newItem: CartItem)
    requires forall j :: 0 <= j < |items| ==> !SameLine(items[j], newItem)
    ensures AddLine(items, newItem) == items + [newItem]
  {
    FindLineIsFirstMatch(items, newItem.id, newItem.customizations);
  }

  /** Adding always raises the item count by the added quantity. */
  lemma AddTotalItems(items: seq<CartItem>, newItem: CartItem)
    ensures TotalItems(AddLine(items, newItem)) == TotalItems(items) + newItem.quantity
  {
    var k := FindLine(items, newItem.id, newItem.customizations);
    if k > -1 {
      TotalItemsOfMergeAt(items, k, newItem);
    } else {
      TotalItemsOfAppend(items, newItem);
    }
  }

  /**
   * Adding a selection that lands on line `k` raises the total price by the
   * added quantity at that line's own price: the incoming price is discarded.
   */
  lemma AddMergedTotalPrice(items: seq<CartItem>, newItem: CartItem, k: nat)
    requires k < |items| && k == FindLine(items, newItem.id, newItem.customizations)
    ensures TotalPrice(AddLine(items, newItem)) == TotalPrice(items) + LinePrice(items[k].(quantity := newItem.quantity))
  {
    TotalPriceOfMergeAt(items, k, newItem);
  }

  /** Adding a selection that matches no line raises the total price by its own line price. */
  lemma AddAppendedTotalPrice(items: seq<CartItem>, newItem: CartItem)
    requires FindLine(items, newItem.id, newItem.customizations) == -1
    ensures TotalPrice(AddLine(items, newItem)) == TotalPrice(items) + LinePrice(newItem)
  {
    TotalPriceOfAppend(items, newItem);
  }

  lemma AddPreservesDistinct(items: seq<CartItem>, newItem: CartItem)
    requires Distinct(items)
    ensures Distinct(AddLine(items, newItem))
  {
    var r := AddLine(items, newItem);
    var k := FindLine(items, newItem.id, newItem.customizations);
    FindLineIsFirstMatch(items, newItem.id, newItem.customizations);
    forall i, j | 0 <= i < j < |r| ensures DistinctLines(r[i], r[j]) {
      if k == -1 && j == |items| {
        assert r[i] == items[i] && r[j] == newItem;
      } else {
        assert r[i].id == items[i].id && r[i].customizations == items[i].customizations;
        assert r[j].id == items[j].id && r[j].customizations == items[j].customizations;
        assert DistinctLines(items[i], items[j]);
      }
    }
  }

  lemma AddKeepsQuantitiesPositive(items: seq<CartItem>, newItem: CartItem)
    requires PositiveQuantities(items) && newItem.quantity >= 1
    ensures PositiveQuantities(AddLine(items, newItem))
  {
  }

  /**
   * The same selection added twice, with its toppings listed in different
   * orders, ends up as a single line carrying both quantities.
   */
  lemma MergeIgnoresToppingOrder(first: CartItem, second: CartItem)
    requires first.id == second.id && first.customizations.size == second.customizations.size
    requires multiset(first.customizations.toppings) == multiset(second.customizations.toppings)
    ensures AddLine(AddLine([], first), second) == [first.(quantity := first.quantity + second.quantity)]
  {
    SameToppingsIffSameMultiset(first.customizations.toppings, second.customizations.toppings);
    assert AddLine([], first) == [first];
    assert Matches(first, second.id, second.customizations);
  }

  /** After adding an item, a line with its identity is always present. */
  lemma AddedLineIsFound(items: seq<CartItem>, newItem: CartItem)
    ensures FindLine(AddLine(items, newItem), newItem.id, newItem.customizations) >= 0
  {
    var k := FindLine(items, newItem.id, newItem.customizations);
    var r := AddLine(items, newItem);
    FindLineIsFirstMatch(items, newItem.id, newItem.customizations);
    FindLineIsFirstMatch(r, newItem.id, newItem.customizations);
    if k > -1 {
      assert Matches(r[k], newItem.id, newItem.customizations);
    } else {
      assert r[|items|] == newItem;
      assert Matches(r[|items|], newItem.id, newItem.customizations);
    }
  }

  /** Adding the same item twice merges the second copy: no further line appears. */
  lemma AddTwiceAddsAtMostOneLine(items: seq<CartItem>, newItem: CartItem)
    ensures |AddLine(AddLine(items, newItem), newItem)| == |AddLine(items, newItem)|
    ensures |AddLine(items, newItem)| <= |items| + 1
    ensures TotalItems(AddLine(AddLine(items, newItem), newItem)) == TotalItems(items) + 2 * newItem.quantity
  {
    AddedLineIsFound(items, newItem);
    AddTotalItems(items, newItem);
    AddTotalItems(AddLine(items, newItem), newItem);
  }

  // ----- removeItem -----

  /**
   * `removeItem` drops exactly the matching lines and keeps every other line,
   * as often as it occurs and in its original order.
   */
  lemma RemoveDropsExactlyMatches(items: seq<CartItem>, id: int, c: Customizations)
    ensures forall item :: item in RemoveLines(items, id, c) <==> item in items && !Matches(item, id, c)
    ensures IsSubsequence(RemoveLines(items, id, c), items)
    ensures (forall j :: 0 <= j < |items| ==> !Matches(items[j], id, c)) ==> RemoveLines(items, id, c) == items
    ensures forall item ::
      multiset(RemoveLines(items, id, c))[item] == (if Matches(item, id, c) then 0 else multiset(items)[item])
  {
    var p := (item: CartItem) => !Matches(item, id, c);
    FilterIsSubsequence(items, p);
    forall item ensures multiset(RemoveLines(items, id, c))[item] ==
      (if Matches(item, id, c) then 0 else multiset(items)[item])
    {
      FilterCount(items, p, item);
    }
    if forall j :: 0 <= j < |items| ==> !Matches(items[j], id, c) {
      FilterKeepsAll(items, p);
    }
  }

  lemma RemovePreservesDistinct(items: seq<CartItem>, id: int, c: Customizations)
    requires Distinct(items)
    ensures Distinct(RemoveLines(items, id, c))
  {
    FilterPairwise(items, (item: CartItem) => !Matches(item, id, c), DistinctLines);
  }

  lemma RemoveKeepsQuantitiesPositive(items: seq<CartItem>, id: int, c: Customizations)
    requires PositiveQuantities(items)
    ensures PositiveQuantities(RemoveLines(items, id, c))
  {
    var r := RemoveLines(items, id, c);
    forall i | 0 <= i < |r| ensures r[i].quantity >= 1 {
      assert r[i] in r;
    }
  }

  // ----- updateQuantity -----

  /** A quantity of zero or less removes the line instead, as `removeItem` does. */
  lemma UpdateNonPositiveRemoves(items: seq<CartItem>, id: int, c: Customizations, q: int)
    requires q <= 0
    ensures UpdateLines(items, id, c, q) == RemoveLines(items, id, c)
  {
  }

  /**
   * A positive quantity is written into every matching line and nowhere else;
   * no other field and not the length change, and with no match nothing changes.
   */
  lemma UpdatePositiveSetsQuantity(items: seq<CartItem>, id: int, c: Customizations, q: int)
    requires q > 0
    ensures |UpdateLines(items, id, c, q)| == |items|
    ensures forall i :: 0 <= i < |items| ==>
      UpdateLines(items, id, c, q)[i].quantity == (if Matches(items[i], id, c) then q else items[i].quantity)
    ensures forall i :: 0 <= i < |items| ==>
      UpdateLines(items, id, c, q)[i].(quantity := items[i].quantity) == items[i]
    ensures (forall j :: 0 <= j < |items| ==> !Matches(items[j], id, c)) ==> UpdateLines(items, id, c, q) == items
  {
  }

  lemma UpdatePreservesDistinct(items: seq<CartItem>, id: int, c: Customizations, q: int)
    requires Distinct(items)
    ensures Distinct(UpdateLines(items, id, c, q))
  {
    if q <= 0 {
      RemovePreservesDistinct(items, id, c);
    } else {
      var r := SetQuantity(items, id, c, q);
      forall i, j | 0 <= i < j < |r| ensures DistinctLines(r[i], r[j]) {
        assert DistinctLines(items[i], items[j]);
      }
    }
  }

  /** The cart never ends up with a zero or negative quantity through `updateQuantity`. */
  lemma UpdateKeepsQuantitiesPositive(items: seq<CartItem>, id: int, c: Customizations, q: int)
    requires PositiveQuantities(items)
    ensures PositiveQuantities(UpdateLines(items, id, c, q))
  {
    if q <= 0 {
      RemoveKeepsQuantitiesPositive(items, id, c);
    }
  }

  /** The store object: its `items` field is replaced by every operation. */
  class Cart {
    var items: seq<CartItem>

    constructor ()
      ensures items == []
    {
      items := [];
    }

    method AddItem(newItem: CartItem)
      modifies this
      ensures items == AddLine(old(items), newItem)
      ensures Distinct(old(items)) ==> Distinct(items)
    {
      var k := FindLine(items, newItem.id, newItem.customizations);
      if k > -1 {
        var updatedItems := items;
        updatedItems := updatedItems[k := updatedItems[k].(quantity := updatedItems[k].quantity + newItem.quantity)];
        items := updatedItems;
      } else {
        items := items + [newItem];
      }
      if Distinct(old(items)) {
        AddPreservesDistinct(old(items), newItem);
      }
    }

    method RemoveItem(id: int, c: Customizations)
      modifies this
      ensures items == RemoveLines(old(items), id, c)
      ensures Distinct(old(items)) ==> Distinct(items)
    {
      items := RemoveLines(items, id, c);
      if Distinct(old(items)) {
        RemovePreservesDistinct(old(items), id, c);
      }
    }

    method UpdateQuantity(id: int, c: Customizations, quantity: int)
      modifies this
      ensures items == UpdateLines(old(items), id, c, quantity)
      ensures Distinct(old(items)) ==> Distinct(items)
    {
      if quantity <= 0 {
        RemoveItem(id, c);
        return;
      }
      items := SetQuantity(items, id, c, quantity);
      if Distinct(old(items)) {
        UpdatePreservesDistinct(old(items), id, c, quantity);
      }
    }

    method ClearCart()
      modifies this
      ensures items == []
    {
      items := [];
    }

    /** `getTotalPrice`: zero for the empty cart. */
    function GetTotalPrice(): (r: real)
      reads this
      ensures items == [] ==> r == 0.0
    {
      TotalPrice(items)
    }

    /** `getTotalItems`: zero for the empty cart, at least one per line while quantities are positive. */
    function GetTotalItems(): (r: int)
      reads this
      ensures items == [] ==> r == 0
      ensures PositiveQuantities(items) ==> r >= |items|
    {
      TotalItems(items)
    }
  }
}
