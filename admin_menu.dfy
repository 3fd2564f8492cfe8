/**
 * The menu management page of app/admin/menu/page.tsx: the search and
 * category filter over the menu, and the handlers that add, edit, delete and
 * toggle the availability of menu items.
 */
module AdminMenu {
  import opened Wrappers
  import opened Text
  import opened ListOps

  /** A menu item as the admin page keeps it. */
  datatype MenuItem = MenuItem(
    id: int,
    name: string,
    description: string,
    price: real,
    category: string,
    image: string,
    isAvailable: bool,
    isVegetarian: bool,
    rating: real,
    sizes: seq<string>,
    toppings: seq<string>)

  const Placeholder: string := "/placeholder.svg?height=300&width=300"
  const AllSizes: seq<string> := ["Small", "Medium", "Large"]
  /** The rating a newly added item starts with. */
  const NewItemRating: real := 4.5

  /** `initialMenuItems`. */
  const InitialMenuItems: seq<MenuItem> := [
    MenuItem(1, "Margherita Classic", "Fresh mozzarella, tomato sauce, basil, olive oil", 18.99, "Classic",
             Placeholder, true, true, 4.8, AllSizes, ["Extra Cheese", "Basil", "Olives"]),
    MenuItem(2, "Pepperoni Supreme", "Pepperoni, mozzarella, tomato sauce, oregano", 22.99, "Meat Lovers",
             Placeholder, true, false, 4.9, AllSizes, ["Extra Pepperoni", "Extra Cheese", "Mushrooms"]),
    MenuItem(3, "BBQ Chicken", "Grilled chicken, BBQ sauce, red onions, cilantro", 24.99, "Specialty",
             Placeholder, true, false, 4.7, AllSizes, ["Extra Chicken", "Red Onions", "Bell Peppers"])]

  /** The categories an item can be given. */
  const Categories: seq<string> := ["Classic", "Specialty", "Vegetarian", "Meat Lovers", "Desserts", "Drinks"]

  /** Each seeded item has one of the categories the form offers. */
  lemma InitialCategoriesListed()
    ensures forall i :: 0 <= i < |InitialMenuItems| ==> InitialMenuItems[i].category in Categories
  {
  }

  /** The category filter value that turns the filter off. */
  const AllCategories: string := "all"

  // ----- The filter effect -----

  /** The search test: the name or the description contains the term, ignoring case. */
  function MatchesSearch(term: string): MenuItem -> bool
  {
    (item: MenuItem) =>
      Contains(Lower(item.name), Lower(term)) || Contains(Lower(item.description), Lower(term))
  }

  function InCategory(category: string): MenuItem -> bool
  {
    (item: MenuItem) => item.category == category
  }

  /** The effect's `filtered`: the search only for a non-empty term, then the category unless "all". */
  function FilterItems(items: seq<MenuItem>, term: string, category: string): seq<MenuItem>
  {
    var searched := if term != "" then Filter(items, MatchesSearch(term)) else items;
    if category != AllCategories then Filter(searched, InCategory(category)) else searched
  }

  /**
   * The listing is an order-preserving selection holding exactly the items
   * that pass both tests, each as often as in the menu.
   */
  lemma FilterItemsKeepsExactlyMatches(items: seq<MenuItem>, term: string, category: string)
    ensures IsSubsequence(FilterItems(items, term, category), items)
    ensures forall x :: x in FilterItems(items, term, category) <==>
      x in items && (term == "" || MatchesSearch(term)(x)) && (category == AllCategories || x.category == category)
    ensures forall x ::
      multiset(FilterItems(items, term, category))[x] ==
        (if (term == "" || MatchesSearch(term)(x)) && (category == AllCategories || x.category == category)
         then multiset(items)[x] else 0)
  {
    var searched := if term != "" then Filter(items, MatchesSearch(term)) else items;
    if term != "" {
      FilterIsSubsequence(items, MatchesSearch(term));
    } else {
      SubsequenceReflexive(items);
    }
    if category != AllCategories {
      FilterIsSubsequence(searched, InCategory(category));
      SubsequenceTransitive(Filter(searched, InCategory(category)), searched, items);
    }
    forall x ensures multiset(FilterItems(items, term, category))[x] ==
        (if (term == "" || MatchesSearch(term)(x)) && (category == AllCategories || x.category == category)
         then multiset(items)[x] else 0)
    {
      if term != "" {
        FilterCount(items, MatchesSearch(term), x);
      }
      if category != AllCategories {
        FilterCount(searched, InCategory(category), x);
      }
    }
  }

  /** The non-empty guard changes nothing: every text contains the empty term. */
  lemma EmptyTermMatchesEverything(items: seq<MenuItem>)
    ensures Filter(items, MatchesSearch("")) == items
  {
    forall i | 0 <= i < |items| ensures MatchesSearch("")(items[i]) {
      ContainsEmpty(Lower(items[i].name));
    }
    FilterKeepsAll(items, MatchesSearch(""));
  }

  // ----- The form -----

  /** The dialog's form; the price is kept as the text typed. */
  datatype FormData = FormData(
    name: string,
    description: string,
    priceText: string,
    category: string,
    isAvailable: bool,
    isVegetarian: bool,
    sizes: seq<string>,
    toppings: seq<string>)

  /** The form `resetForm` restores. */
  const EmptyForm: FormData := FormData("", "", "", "", true, false, AllSizes, [])

  /** The guard of `handleSubmit`: name, description, price and category all filled in. */
  predicate FormComplete(form: FormData)
  {
    form.name != "" && form.description != "" && form.priceText != "" && form.category != ""
  }

  /** The form `handleEdit` fills from an item; `priceText` is the price written out. */
  function FormOf(item: MenuItem, priceText: string): (f: FormData)
    ensures f.name == item.name && f.description == item.description && f.category == item.category
    ensures f.isAvailable == item.isAvailable && f.isVegetarian == item.isVegetarian
    ensures f.sizes == item.sizes && f.toppings == item.toppings && f.priceText == priceText
  {
    FormData(item.name, item.description, priceText, item.category, item.isAvailable, item.isVegetarian,
             item.sizes, item.toppings)
  }

  /**
   * `newItem` of `handleSubmit`: the form's fields, the placeholder image, and
   * the given id, price and rating.
   */
  function ItemOf(form: FormData, id: int, price: real, rating: real): (item: MenuItem)
    ensures item.id == id && item.price == price && item.rating == rating && item.image == Placeholder
    ensures item.name == form.name && item.description == form.description && item.category == form.category
    ensures item.isAvailable == form.isAvailable && item.isVegetarian == form.isVegetarian
    ensures item.sizes == form.sizes && item.toppings == form.toppings
  {
    MenuItem(id, form.name, form.description, price, form.category, Placeholder, form.isAvailable,
             form.isVegetarian, rating, form.sizes, form.toppings)
  }

  /**
   * Opening an item for editing and saving it untouched gives back the same
   * item, except that its image is reset to the placeholder.
   */
  lemma EditRoundTrip(item: MenuItem, priceText: string)
    requires priceText != ""
    ensures FormComplete(FormOf(item, priceText)) <==> item.name != "" && item.description != "" && item.category != ""
    ensures ItemOf(FormOf(item, priceText), item.id, item.price, item.rating) == item.(image := Placeholder)
  {
  }

  // ----- The list updates -----

  /** The edit `map`: every item with `id` becomes `newItem`. */
  function ReplaceById(items: seq<MenuItem>, id: int, newItem: MenuItem): (r: seq<MenuItem>)
    ensures |r| == |items|
  {
    seq(|items|, i requires 0 <= i < |items| => if items[i].id == id then newItem else items[i])
  }

  /**
   * Editing replaces exactly the items carrying the edited id, keeping that id
   * and the old rating; all others stay where they were.
   */
  lemma EditReplacesOnlyThatItem(items: seq<MenuItem>, editing: MenuItem, form: FormData, price: real)
    ensures var r := ReplaceById(items, editing.id, ItemOf(form, editing.id, price, editing.rating));
      && |r| == |items|
      && (forall i :: 0 <= i < |r| && items[i].id != editing.id ==> r[i] == items[i])
      && (forall i :: 0 <= i < |r| && items[i].id == editing.id ==>
            r[i].id == editing.id && r[i].rating == editing.rating && r[i].name == form.name && r[i].price == price)
  {
  }

  /** Saving an edit of an item that is no longer listed changes nothing. */
  lemma EditOfMissingItemChangesNothing(items: seq<MenuItem>, id: int, newItem: MenuItem)
    requires forall i :: 0 <= i < |items| ==> items[i].id != id
    ensures ReplaceById(items, id, newItem) == items
  {
  }

  function IdIsNot(id: int): MenuItem -> bool
  {
    (item: MenuItem) => item.id != id
  }

  /** `handleDelete`'s `filter`. */
  function Deleted(items: seq<MenuItem>, id: int): seq<MenuItem>
  {
    Filter(items, IdIsNot(id))
  }

  /** Deleting removes every item with the id and keeps every other, as often as before and in order. */
  lemma DeleteRemovesOnlyThatId(items: seq<MenuItem>, id: int)
    ensures forall x :: x in Deleted(items, id) <==> x in items && x.id != id
    ensures forall x: MenuItem :: x.id != id ==> multiset(Deleted(items, id))[x] == multiset(items)[x]
    ensures IsSubsequence(Deleted(items, id), items)
  {
    forall x: MenuItem | x.id != id ensures multiset(Deleted(items, id))[x] == multiset(items)[x] {
      FilterCount(items, IdIsNot(id), x);
    }
    FilterIsSubsequence(items, IdIsNot(id));
  }

  /** `toggleAvailability`'s `map`. */
  function Toggled(items: seq<MenuItem>, id: int): (r: seq<MenuItem>)
    ensures |r| == |items|
  {
    seq(|items|, i requires 0 <= i < |items| =>
      if items[i].id == id then items[i].(isAvailable := !items[i].isAvailable) else items[i])
  }

  /** Toggling flips availability on the matching items and changes nothing else. */
  lemma ToggleFlipsOnlyThatId(items: seq<MenuItem>, id: int)
    ensures forall i :: 0 <= i < |items| ==>
      Toggled(items, id)[i].(isAvailable := items[i].isAvailable) == items[i]
    ensures forall i :: 0 <= i < |items| ==>
      (Toggled(items, id)[i].isAvailable != items[i].isAvailable <==> items[i].id == id)
  {
  }

  /** Toggling the same id twice restores the list. */
  lemma ToggleTwiceRestores(items: seq<MenuItem>, id: int)
    ensures Toggled(Toggled(items, id), id) == items
  {
    var r := Toggled(Toggled(items, id), id);
    forall i | 0 <= i < |items| ensures r[i] == items[i] {
      assert Toggled(items, id)[i].id == items[i].id;
    }
  }

  // ----- Distinct ids -----

  /** No two listed items share an id. */
  predicate UniqueIds(items: seq<MenuItem>)
  {
    forall i, j :: 0 <= i < j < |items| ==> items[i].id != items[j].id
  }

  lemma InitialIdsUnique()
    ensures UniqueIds(InitialMenuItems)
  {
  }

  /** Each list update keeps ids unique, an addition provided its fresh id is unused. */
  lemma UpdatesKeepIdsUnique(items: seq<MenuItem>, id: int, newItem: MenuItem)
    requires UniqueIds(items)
    ensures newItem.id == id ==> UniqueIds(ReplaceById(items, id, newItem))
    ensures UniqueIds(Toggled(items, id))
    ensures UniqueIds(Deleted(items, id))
    ensures (forall i :: 0 <= i < |items| ==> items[i].id != newItem.id) ==> UniqueIds(items + [newItem])
  {
    var d := Deleted(items, id);
    FilterIsSubsequence(items, IdIsNot(id));
    SubsequenceKeepsUniqueIds(d, items);
  }

  lemma {:induction false} SubsequenceKeepsUniqueIds(a: seq<MenuItem>, b: seq<MenuItem>)
    requires IsSubsequence(a, b) && UniqueIds(b)
    ensures UniqueIds(a)
    decreases |b|
  {
    if a != [] {
      if a[0] == b[0] && IsSubsequence(a[1..], b[1..]) {
        SubsequenceKeepsUniqueIds(a[1..], b[1..]);
        SubsequenceMembers(a[1..], b[1..]);
        forall j | 0 < j < |a| ensures a[0].id != a[j].id {
          assert a[j] in a[1..];
          var k :| 0 <= k < |b[1..]| && b[1..][k] == a[j];
          assert b[k + 1] == a[j];
        }
      } else {
        SubsequenceKeepsUniqueIds(a, b[1..]);
      }
    }
  }

  // ----- The page -----

  /** The page's state: the menu, the filter inputs, the item being edited and the form. */
  class MenuPage {
    var menuItems: seq<MenuItem>
    var searchTerm: string
    var categoryFilter: string
    var editingItem: Option<MenuItem>
    var form: FormData

    constructor ()
      ensures menuItems == InitialMenuItems && searchTerm == "" && categoryFilter == AllCategories
      ensures editingItem == None && form == EmptyForm
    {
      menuItems := InitialMenuItems;
      searchTerm := "";
      categoryFilter := AllCategories;
      editingItem := None;
      form := EmptyForm;
    }

    /** `filteredItems`, which the effect recomputes whenever its inputs change. */
    function Visible(): (r: seq<MenuItem>)
      reads this
      ensures |r| <= |menuItems|
    {
      FilterItems(menuItems, searchTerm, categoryFilter)
    }

    method SetSearchTerm(term: string)
      modifies this
      ensures searchTerm == term
      ensures menuItems == old(menuItems) && categoryFilter == old(categoryFilter)
      ensures editingItem == old(editingItem) && form == old(form)
    {
      searchTerm := term;
    }

    method SetCategoryFilter(category: string)
      modifies this
      ensures categoryFilter == category
      ensures menuItems == old(menuItems) && searchTerm == old(searchTerm)
      ensures editingItem == old(editingItem) && form == old(form)
    {
      categoryFilter := category;
    }

    /** `resetForm`: the empty form and no item being edited. */
    method ResetForm()
      modifies this
      ensures form == EmptyForm && editingItem == None
      ensures menuItems == old(menuItems) && searchTerm == old(searchTerm) && categoryFilter == old(categoryFilter)
    {
      form := EmptyForm;
      editingItem := None;
    }

    /** `handleEdit`; `priceText` stands for the item's price written out, never empty. */
    method HandleEdit(item: MenuItem, priceText: string)
      requires priceText != ""
      modifies this
      ensures editingItem == Some(item) && form == FormOf(item, priceText)
      ensures menuItems == old(menuItems) && searchTerm == old(searchTerm) && categoryFilter == old(categoryFilter)
    {
      editingItem := Some(item);
      form := FormOf(item, priceText);
    }

    /**
     * `handleSubmit`. `price` stands for the parsed price text and `freshId`
     * for the clock reading a new item's id is taken from. An incomplete form
     * is refused and nothing changes; otherwise an edit replaces the item with
     * the edited id and an addition appends, and the form is reset.
     */
    method HandleSubmit(price: real, freshId: int) returns (accepted: bool)
      modifies this
      ensures accepted <==> FormComplete(old(form))
      ensures !accepted ==> menuItems == old(menuItems) && form == old(form) && editingItem == old(editingItem)
      ensures accepted && old(editingItem).Some? ==>
        menuItems == ReplaceById(old(menuItems), old(editingItem).value.id,
                                 ItemOf(old(form), old(editingItem).value.id, price, old(editingItem).value.rating))
      ensures accepted && old(editingItem).None? ==>
        menuItems == old(menuItems) + [ItemOf(old(form), freshId, price, NewItemRating)]
      ensures accepted ==> form == EmptyForm && editingItem == None
      ensures searchTerm == old(searchTerm) && categoryFilter == old(categoryFilter)
    {
      if !FormComplete(form) {
        return false;
      }
      match editingItem {
        case Some(editing) =>
          menuItems := ReplaceById(menuItems, editing.id, ItemOf(form, editing.id, price, editing.rating));
        case None =>
          menuItems := menuItems + [ItemOf(form, freshId, price, NewItemRating)];
      }
      ResetForm();
      accepted := true;
    }

    /** `handleDelete`. */
    method HandleDelete(id: int)
      modifies this
      ensures menuItems == Deleted(old(menuItems), id)
      ensures searchTerm == old(searchTerm) && categoryFilter == old(categoryFilter)
      ensures editingItem == old(editingItem) && form == old(form)
    {
      menuItems := Deleted(menuItems, id);
    }

    /** `toggleAvailability`. */
    method ToggleAvailability(id: int)
      modifies this
      ensures menuItems == Toggled(old(menuItems), id)
      ensures searchTerm == old(searchTerm) && categoryFilter == old(categoryFilter)
      ensures editingItem == old(editingItem) && form == old(form)
    {
      menuItems := Toggled(menuItems, id);
    }
  }
}
