/**
 * The menu listing of components/menu-content.tsx: the catalogue, the
 * category and search filter followed by the chosen sort, and quick-add.
 */
module MenuContent {
  import opened Text
  import opened ListOps
  import opened CartStore
  import opened ProductCustomization

  /** The category choices; "All" turns the category filter off. */
  const Categories: seq<string> := ["All", "Classic", "Specialty", "Vegetarian", "Meat Lovers", "Desserts", "Drinks"]

  const Sizes: seq<string> := ["Small", "Medium", "Large"]

  /** The catalogue, `menuItems`. */
  const MenuItems: seq<Product> := [
    Product(1, "Margherita Classic", "Fresh mozzarella, tomato sauce, basil, olive oil", 18.99,
            "/placeholder.svg?height=300&width=300", 4.8, "Classic", true, Sizes,
            ["Extra Cheese", "Basil", "Olives"]),
    Product(2, "Pepperoni Supreme", "Pepperoni, mozzarella, tomato sauce, oregano", 22.99,
            "/placeholder.svg?height=300&width=300", 4.9, "Meat Lovers", false, Sizes,
            ["Extra Pepperoni", "Extra Cheese", "Mushrooms"]),
    Product(3, "BBQ Chicken", "Grilled chicken, BBQ sauce, red onions, cilantro", 24.99,
            "/placeholder.svg?height=300&width=300", 4.7, "Specialty", false, Sizes,
            ["Extra Chicken", "Red Onions", "Bell Peppers"]),
    Product(4, "Veggie Deluxe", "Bell peppers, mushrooms, olives, onions, tomatoes", 20.99,
            "/placeholder.svg?height=300&width=300", 4.6, "Vegetarian", true, Sizes,
            ["Extra Veggies", "Feta Cheese", "Spinach"]),
    Product(5, "Meat Lovers", "Pepperoni, sausage, ham, bacon, ground beef", 26.99,
            "/placeholder.svg?height=300&width=300", 4.8, "Meat Lovers", false, Sizes,
            ["Extra Meat", "Jalape\U{00F1}os", "Extra Cheese"]),
    Product(6, "Hawaiian Paradise", "Ham, pineapple, mozzarella, tomato sauce", 21.99,
            "/placeholder.svg?height=300&width=300", 4.5, "Specialty", false, Sizes,
            ["Extra Ham", "Extra Pineapple", "Bacon"])]

  /** Each catalogue item sits in one of the category choices other than "All". */
  lemma CatalogueCategoriesListed()
    ensures forall i :: 0 <= i < |MenuItems| ==> MenuItems[i].category in Categories[1..]
  {
  }

  /**
   * Two toppings the catalogue lists for the Hawaiian pizza are missing from
   * the dialog's price table. The dialog's checkboxes are that table's keys,
   * so it never offers them; the listing is data only, and the price
   * function would charge nothing for them.
   */
  lemma SomeListedToppingsAreNotOffered()
    ensures "Extra Ham" in MenuItems[5].toppings && "Extra Pineapple" in MenuItems[5].toppings
    ensures "Extra Ham" !in ToppingPrices && "Extra Pineapple" !in ToppingPrices
    ensures ToppingsPrice(["Extra Ham", "Extra Pineapple"]) == 0.0
  {
    assert MenuItems[5].toppings[0] == "Extra Ham";
    assert MenuItems[5].toppings[1] == "Extra Pineapple";
    assert Surcharge(ToppingPrices, "Extra Ham") == 0.0;
    assert Surcharge(ToppingPrices, "Extra Pineapple") == 0.0;
    assert ["Extra Ham", "Extra Pineapple"][1..] == ["Extra Pineapple"];
  }

  /** `matchesCategory`. */
  predicate MatchesCategory(item: Product, category: string)
  {
    category == "All" || item.category == category
  }

  /** `matchesSearch`: the name or the description contains the term, ignoring case. */
  predicate MatchesSearch(item: Product, term: string)
  {
    Contains(Lower(item.name), Lower(term)) || Contains(Lower(item.description), Lower(term))
  }

  /** The `filter` callback. */
  function Keep(category: string, term: string): Product -> bool
  {
    (item: Product) => MatchesCategory(item, category) && MatchesSearch(item, term)
  }

  /** Cheapest first. */
  function ByPriceLow(): (Product, Product) -> bool
  {
    (a: Product, b: Product) => a.price <= b.price
  }

  /** Most expensive first. */
  function ByPriceHigh(): (Product, Product) -> bool
  {
    (a: Product, b: Product) => b.price <= a.price
  }

  /** Best rated first. */
  function ByRating(): (Product, Product) -> bool
  {
    (a: Product, b: Product) => b.rating <= a.rating
  }

  /** By name, `localeCompare` read as code-point order. */
  function ByName(): (Product, Product) -> bool
  {
    (a: Product, b: Product) => StrLe(a.name, b.name)
  }

  /**
   * The `sort` comparator read as "`a` may come before `b`": a
   * non-positive comparator value. Any unknown choice sorts by name.
   */
  function Before(sortBy: string): (Product, Product) -> bool
  {
    if sortBy == "price-low" then ByPriceLow()
    else if sortBy == "price-high" then ByPriceHigh()
    else if sortBy == "rating" then ByRating()
    else ByName()
  }

  lemma PriceLowIsTotalPreorder()
    ensures TotalPreorder(ByPriceLow())
  {
  }

  lemma PriceHighIsTotalPreorder()
    ensures TotalPreorder(ByPriceHigh())
  {
  }

  lemma RatingIsTotalPreorder()
    ensures TotalPreorder(ByRating())
  {
  }

  lemma NameIsTotalPreorder()
    ensures TotalPreorder(ByName())
  {
    StrLeTotalOrder();
    var le := ByName();
    forall a: Product, b: Product ensures le(a, b) || le(b, a) {
      assert StrLe(a.name, b.name) || StrLe(b.name, a.name);
    }
    forall a: Product, b: Product, c: Product | le(a, b) && le(b, c) ensures le(a, c) {
      assert StrLe(a.name, b.name) && StrLe(b.name, c.name);
    }
  }

  /** Every comparator orders every pair and is transitive. */
  lemma BeforeIsTotalPreorder(sortBy: string)
    ensures TotalPreorder(Before(sortBy))
  {
    if sortBy == "price-low" {
      PriceLowIsTotalPreorder();
    } else if sortBy == "price-high" {
      PriceHighIsTotalPreorder();
    } else if sortBy == "rating" {
      RatingIsTotalPreorder();
    } else {
      NameIsTotalPreorder();
    }
  }

  /** `filteredItems`. */
  function FilteredItems(items: seq<Product>, category: string, term: string, sortBy: string): seq<Product>
  {
    Sort(Filter(items, Keep(category, term)), Before(sortBy))
  }

  /**
   * The listing holds exactly the items that pass both tests, each as often as
   * in the catalogue, in the chosen order.
   */
  lemma FilteredItemsSortedPermutation(items: seq<Product>, category: string, term: string, sortBy: string)
    ensures multiset(FilteredItems(items, category, term, sortBy)) == multiset(Filter(items, Keep(category, term)))
    ensures SortedBy(FilteredItems(items, category, term, sortBy), Before(sortBy))
    ensures forall x :: x in FilteredItems(items, category, term, sortBy) <==>
      x in items && MatchesCategory(x, category) && MatchesSearch(x, term)
  {
    BeforeIsTotalPreorder(sortBy);
    SortSorted(Filter(items, Keep(category, term)), Before(sortBy));
    var kept := Filter(items, Keep(category, term));
    forall x ensures x in FilteredItems(items, category, term, sortBy) <==> x in kept {
      assert x in multiset(FilteredItems(items, category, term, sortBy)) <==> x in multiset(kept);
    }
  }

  /** The four orders written out. */
  lemma FilteredItemsOrder(items: seq<Product>, category: string, term: string, sortBy: string)
    ensures var r := FilteredItems(items, category, term, sortBy);
      forall i, j :: 0 <= i < j < |r| ==>
        if sortBy == "price-low" then r[i].price <= r[j].price
        else if sortBy == "price-high" then r[i].price >= r[j].price
        else if sortBy == "rating" then r[i].rating >= r[j].rating
        else StrLe(r[i].name, r[j].name)
  {
    FilteredItemsSortedPermutation(items, category, term, sortBy);
  }

  /**
   * Items the chosen comparator ranks equal keep their catalogue order: within
   * each key, the listing is the filtered catalogue in its own order.
   */
  lemma FilteredItemsStable(items: seq<Product>, category: string, term: string, sortBy: string, y: Product)
    ensures Filter(FilteredItems(items, category, term, sortBy), SameKey(Before(sortBy), y))
         == Filter(Filter(items, Keep(category, term)), SameKey(Before(sortBy), y))
  {
    BeforeIsTotalPreorder(sortBy);
    SortStable(Filter(items, Keep(category, term)), Before(sortBy), y);
  }

  /** With "All" and an empty search, the listing is the whole catalogue, reordered. */
  lemma EmptySearchKeepsEverything(items: seq<Product>, sortBy: string)
    ensures multiset(FilteredItems(items, "All", "", sortBy)) == multiset(items)
  {
    forall i | 0 <= i < |items| ensures Keep("All", "")(items[i]) {
      ContainsEmpty(Lower(items[i].name));
    }
    FilterKeepsAll(items, Keep("All", ""));
    FilteredItemsSortedPermutation(items, "All", "", sortBy);
  }

  /** `handleQuickAdd`: one Medium with no toppings, at the bare product price. */
  function QuickAddItem(item: Product): (r: CartItem)
    ensures r.id == item.id && r.name == item.name && r.image == item.image
    ensures r.price == item.price && r.quantity == 1
    ensures r.customizations == Customizations("Medium", [])
  {
    CartItem(item.id, item.name, item.price, 1, item.image, Customizations("Medium", []))
  }

  /** Quick-add skips the Medium surcharge the dialog would charge for the same selection. */
  lemma QuickAddSkipsSurcharge(item: Product)
    ensures QuickAddItem(item).price + 3.0 == BuildCartItem(item, "Medium", [], 1).price
    ensures SameLine(QuickAddItem(item), BuildCartItem(item, "Medium", [], 1))
  {
  }

  /**
   * Quick-adding the same product twice leaves one line for it: the second
   * click merges, and the count rises by two.
   */
  lemma QuickAddTwice(items: seq<CartItem>, item: Product)
    ensures |AddLine(AddLine(items, QuickAddItem(item)), QuickAddItem(item))| <= |items| + 1
    ensures TotalItems(AddLine(AddLine(items, QuickAddItem(item)), QuickAddItem(item))) == TotalItems(items) + 2
    ensures AddLine(AddLine([], QuickAddItem(item)), QuickAddItem(item)) == [QuickAddItem(item).(quantity := 2)]
  {
    AddTwiceAddsAtMostOneLine(items, QuickAddItem(item));
    MergeIgnoresToppingOrder(QuickAddItem(item), QuickAddItem(item));
  }

  /** Quick-add hands the line to the store. */
  method QuickAdd(cart: Cart, item: Product)
    modifies cart
    ensures cart.items == AddLine(old(cart.items), QuickAddItem(item))
    ensures TotalItems(cart.items) == TotalItems(old(cart.items)) + 1
    ensures Distinct(old(cart.items)) ==> Distinct(cart.items)
  {
    AddTotalItems(cart.items, QuickAddItem(item));
    cart.AddItem(QuickAddItem(item));
  }
}
