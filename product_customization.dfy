/**
 * The product customization dialog of components/product-customization.tsx:
 * size and topping surcharge tables, the unit and total prices they give,
 * the dialog's selection state, and the cart line it hands to the store.
 */
module ProductCustomization {
  import opened ListOps
  import opened CartStore
  import opened Text

  /** A menu product as the catalogue and the dialog see it. */
  datatype Product = Product(
    id: int,
    name: string,
    description: string,
    price: real,
    image: string,
    rating: real,
    category: string,
    isVegetarian: bool,
    sizes: seq<string>,
    toppings: seq<string>)

  /** `sizePrices`. */
  const SizePrices: map<string, real> := map[
    "Small" := 0.0,
    "Medium" := 3.0,
    "Large" := 6.0]

  /** `toppingPrices`. */
  const ToppingPrices: map<string, real> := map[
    "Extra Cheese" := 2.5,
    "Extra Pepperoni" := 3.0,
    "Extra Chicken" := 3.5,
    "Extra Meat" := 4.0,
    "Mushrooms" := 1.5,
    "Bell Peppers" := 1.5,
    "Red Onions" := 1.5,
    "Olives" := 2.0,
    "Basil" := 1.0,
    "Jalape\U{00F1}os" := 1.5,
    "Pineapple" := 2.0,
    "Bacon" := 3.0,
    "Ham" := 3.0,
    "Spinach" := 1.5,
    "Feta Cheese" := 2.5,
    "Extra Veggies" := 2.0]

  /** Every surcharge in either table is non-negative. */
  lemma TablesNonNegative()
    ensures forall s :: s in SizePrices ==> SizePrices[s] >= 0.0
    ensures forall t :: t in ToppingPrices ==> ToppingPrices[t] >= 0.0
  {
  }

  /** `table[key] || 0`: a key missing from the table contributes nothing. */
  function Surcharge(table: map<string, real>, key: string): (r: real)
    ensures key in table ==> r == table[key]
    ensures key !in table ==> r == 0.0
  {
    if key in table then table[key] else 0.0
  }

  /** `basePrice`: the product price plus the size surcharge. */
  function BasePrice(product: Product, size: string): real
  {
    product.price + Surcharge(SizePrices, size)
  }

  /** The three sizes of the table and the fallback for any other name. */
  lemma BasePriceBySize(product: Product, size: string)
    ensures size == "Small" ==> BasePrice(product, size) == product.price
    ensures size == "Medium" ==> BasePrice(product, size) == product.price + 3.0
    ensures size == "Large" ==> BasePrice(product, size) == product.price + 6.0
    ensures size !in SizePrices ==> BasePrice(product, size) == product.price
    ensures BasePrice(product, size) >= product.price
  {
  }

  /** Every price in `table` is non-negative. */
  predicate NonNegativeTable(table: map<string, real>)
  {
    forall key :: key in table ==> table[key] >= 0.0
  }

  /** The `reduce` of `toppingsPrice` over a price table: the sum of the keys' surcharges. */
  function PriceSum(table: map<string, real>, keys: seq<string>): (r: real)
    ensures NonNegativeTable(table) ==> r >= 0.0
  {
    if keys == [] then 0.0
    else Surcharge(table, keys[0]) + PriceSum(table, keys[1..])
  }

  /** `toppingsPrice`: the sum of the table prices of the selected toppings. */
  function ToppingsPrice(toppings: seq<string>): (r: real)
    ensures r >= 0.0
  {
    TablesNonNegative();
    PriceSum(ToppingPrices, toppings)
  }

  /** The `reduce` walks left to right: appending one key adds its price. */
  lemma {:induction false} PriceSumOfAppend(table: map<string, real>, keys: seq<string>, t: string)
    ensures PriceSum(table, keys + [t]) == PriceSum(table, keys) + Surcharge(table, t)
  {
    if keys != [] {
      assert (keys + [t])[1..] == keys[1..] + [t];
      PriceSumOfAppend(table, keys[1..], t);
    }
  }

  /** Inserting a key anywhere into a list adds its price. */
  lemma {:induction false} PriceSumOfInsert(table: map<string, real>, t: string, keys: seq<string>)
    ensures PriceSum(table, Insert(t, keys, StrLe)) == Surcharge(table, t) + PriceSum(table, keys)
  {
    if keys != [] && !(StrLe(t, keys[0]) && !StrLe(keys[0], t)) {
      PriceSumOfInsert(table, t, keys[1..]);
    }
  }

  /** The price of a non-empty list is that of all but its last key plus the last one's. */
  lemma PriceSumOfLast(table: map<string, real>, keys: seq<string>)
    requires keys != []
    ensures PriceSum(table, keys) == PriceSum(table, keys[..|keys| - 1]) + Surcharge(table, keys[|keys| - 1])
  {
    assert keys == keys[..|keys| - 1] + [keys[|keys| - 1]];
    PriceSumOfAppend(table, keys[..|keys| - 1], keys[|keys| - 1]);
  }

  /** Sorting the keys does not change their price sum. */
  lemma {:induction false} PriceSumOfSort(table: map<string, real>, keys: seq<string>)
    ensures PriceSum(table, SortedToppings(keys)) == PriceSum(table, keys)
  {
    if keys != [] {
      var init, last := keys[..|keys| - 1], keys[|keys| - 1];
      assert SortedToppings(keys) == Insert(last, SortedToppings(init), StrLe);
      PriceSumOfSort(table, init);
      PriceSumOfInsert(table, last, SortedToppings(init));
      PriceSumOfLast(table, keys);
    }
  }

  /** Checking one more topping adds its table price. */
  lemma ToppingsPriceOfAppend(toppings: seq<string>, t: string)
    ensures ToppingsPrice(toppings + [t]) == ToppingsPrice(toppings) + Surcharge(ToppingPrices, t)
  {
    PriceSumOfAppend(ToppingPrices, toppings, t);
  }

  /** The order the toppings were checked in does not change their price. */
  lemma ToppingsPriceOfSort(toppings: seq<string>)
    ensures ToppingsPrice(SortedToppings(toppings)) == ToppingsPrice(toppings)
  {
    PriceSumOfSort(ToppingPrices, toppings);
  }

  /**
   * Topping lists the cart treats as the same line cost the same, so the
   * cart's habit of keeping the first line's price on a merge loses nothing
   * when both lines come from this dialog.
   */
  lemma SameToppingsSamePrice(a: seq<string>, b: seq<string>)
    requires SameToppings(a, b)
    ensures ToppingsPrice(a) == ToppingsPrice(b)
  {
    ToppingsPriceOfSort(a);
    ToppingsPriceOfSort(b);
  }

  /** The price of one unit: `basePrice + toppingsPrice`. */
  function UnitPrice(product: Product, size: string, toppings: seq<string>): (r: real)
    ensures r >= product.price
  {
    BasePrice(product, size) + ToppingsPrice(toppings)
  }

  /** Scaling two prices by the same non-negative factor keeps their order. */
  lemma ScaleKeepsOrder(a: real, b: real, q: real)
    requires a >= b
    ensures q >= 0.0 ==> a * q >= b * q
  {
    if q >= 0.0 {
      assert (a - b) * q >= 0.0;
    }
  }

  /** With at least one unit, the unit price times the quantity is at least the bare price times it. */
  lemma UnitTotalAtLeastBase(product: Product, size: string, toppings: seq<string>, quantity: int)
    ensures quantity >= 1 ==>
      UnitPrice(product, size, toppings) * quantity as real >= product.price * quantity as real
  {
    ScaleKeepsOrder(UnitPrice(product, size, toppings), product.price, quantity as real);
  }

  /** The line `handleAddToCart` passes to the store. */
  function BuildCartItem(product: Product, size: string, toppings: seq<string>, quantity: int): (item: CartItem)
    ensures item.id == product.id && item.name == product.name && item.image == product.image
    ensures item.quantity == quantity
    ensures item.customizations == Customizations(size, toppings)
    ensures item.price >= product.price
  {
    CartItem(product.id, product.name, UnitPrice(product, size, toppings), quantity, product.image,
             Customizations(size, toppings))
  }

  /**
   * Two dialog selections of one product that the cart merges carry the same
   * unit price.
   */
  lemma MergedSelectionsAgreeOnPrice(product: Product, s1: string, t1: seq<string>, q1: int,
                                     s2: string, t2: seq<string>, q2: int)
    requires SameLine(BuildCartItem(product, s1, t1, q1), BuildCartItem(product, s2, t2, q2))
    ensures BuildCartItem(product, s1, t1, q1).price == BuildCartItem(product, s2, t2, q2).price
  {
    SameToppingsSamePrice(t1, t2);
  }

  /** The test the uncheck `filter` applies: any topping but `topping`. */
  function Other(topping: string): string -> bool
  {
    (t: string) => t != topping
  }

  /** The selection after unchecking `topping`. */
  function Unchecked(toppings: seq<string>, topping: string): seq<string>
  {
    Filter(toppings, Other(topping))
  }

  /** The larger of the two: `Math.max(1, quantity - 1)`. */
  function Decremented(quantity: int): (r: int)
    ensures r >= 1
    ensures quantity > 1 ==> r == quantity - 1
    ensures quantity <= 1 ==> r == 1
  {
    if quantity - 1 > 1 then quantity - 1 else 1
  }

  /** The dialog's state: the chosen size, toppings and quantity. */
  class Dialog {
    const product: Product
    var selectedSize: string
    var selectedToppings: seq<string>
    var quantity: int

    /** The quantity shown is never below one. */
    ghost predicate Valid()
      reads this
    {
      quantity >= 1
    }

    constructor (product: Product)
      ensures this.product == product
      ensures selectedSize == "Medium" && selectedToppings == [] && quantity == 1
      ensures Valid()
    {
      this.product := product;
      selectedSize := "Medium";
      selectedToppings := [];
      quantity := 1;
    }

    /** The radio group's `setSelectedSize`. */
    method SelectSize(size: string)
      modifies this
      ensures selectedSize == size
      ensures selectedToppings == old(selectedToppings) && quantity == old(quantity)
    {
      selectedSize := size;
    }

    /** `handleToppingChange`: checking appends, unchecking drops every occurrence. */
    method ToggleTopping(topping: string, checked: bool)
      modifies this
      ensures checked ==> selectedToppings == old(selectedToppings) + [topping]
      ensures !checked ==> selectedToppings == Unchecked(old(selectedToppings), topping)
      ensures selectedSize == old(selectedSize) && quantity == old(quantity)
    {
      if checked {
        selectedToppings := selectedToppings + [topping];
      } else {
        selectedToppings := Unchecked(selectedToppings, topping);
      }
    }

    /** The minus button. */
    method Decrement()
      modifies this
      ensures quantity == Decremented(old(quantity))
      ensures Valid()
      ensures selectedSize == old(selectedSize) && selectedToppings == old(selectedToppings)
    {
      quantity := Decremented(quantity);
    }

    /** The plus button. */
    method Increment()
      modifies this
      ensures quantity == old(quantity) + 1
      ensures old(Valid()) ==> Valid()
      ensures selectedSize == old(selectedSize) && selectedToppings == old(selectedToppings)
    {
      quantity := quantity + 1;
    }

    /** `totalPrice`, shown on the dialog's button: the unit price times the quantity. */
    function TotalPrice(): (r: real)
      reads this
      ensures Valid() ==> r >= product.price * quantity as real
    {
      UnitTotalAtLeastBase(product, selectedSize, selectedToppings, quantity);
      UnitPrice(product, selectedSize, selectedToppings) * quantity as real
    }

    /**
     * `handleAddToCart`: hands the selection to the store, whose item count
     * then grows by exactly the chosen quantity.
     */
    method AddToCart(cart: Cart)
      modifies cart
      ensures cart.items == AddLine(old(cart.items), BuildCartItem(product, selectedSize, selectedToppings, quantity))
      ensures TotalItems(cart.items) == TotalItems(old(cart.items)) + quantity
      ensures Valid() && PositiveQuantities(old(cart.items)) ==> PositiveQuantities(cart.items)
      ensures Distinct(old(cart.items)) ==> Distinct(cart.items)
    {
      var item := BuildCartItem(product, selectedSize, selectedToppings, quantity);
      AddTotalItems(cart.items, item);
      if Valid() && PositiveQuantities(cart.items) {
        AddKeepsQuantitiesPositive(cart.items, item);
      }
      cart.AddItem(item);
    }
  }

  /** The line the dialog hands to the cart costs, at its quantity, the total the dialog showed. */
  lemma CartLineMatchesDialogTotal(d: Dialog)
    ensures LinePrice(BuildCartItem(d.product, d.selectedSize, d.selectedToppings, d.quantity)) == d.TotalPrice()
  {
    var item := BuildCartItem(d.product, d.selectedSize, d.selectedToppings, d.quantity);
    assert item.price == UnitPrice(d.product, d.selectedSize, d.selectedToppings) && item.quantity == d.quantity;
  }

  /** Unchecking a topping removes all of it and keeps the rest, in order. */
  lemma UncheckRemovesOnlyThatTopping(toppings: seq<string>, topping: string)
    ensures topping !in Unchecked(toppings, topping)
    ensures forall t :: t != topping ==> (t in Unchecked(toppings, topping) <==> t in toppings)
    ensures forall t :: t != topping ==> multiset(Unchecked(toppings, topping))[t] == multiset(toppings)[t]
    ensures IsSubsequence(Unchecked(toppings, topping), toppings)
  {
    var p := Other(topping);
    forall t | t != topping
      ensures multiset(Filter(toppings, p))[t] == multiset(toppings)[t]
    {
      FilterCount(toppings, p, t);
    }
    FilterIsSubsequence(toppings, p);
  }

  /** Checking an unselected topping and then unchecking it restores the selection. */
  lemma CheckThenUncheck(toppings: seq<string>, topping: string)
    requires topping !in toppings
    ensures Unchecked(toppings + [topping], topping) == toppings
  {
    var p := Other(topping);
    FilterSnoc(toppings, topping, p);
    FilterKeepsAll(toppings, p);
  }
}
