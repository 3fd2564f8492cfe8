# Pizza storefront core in Dafny

This project models the logic of a pizza-ordering storefront and proves its properties. The model covers:

- the shopping-cart store (`hooks/use-cart.ts`): add, remove, set quantity, clear, and the two totals;
- the product customization dialog (`components/product-customization.tsx`): size and topping surcharges, the unit price, and the cart line the dialog builds;
- the cart page (`app/cart/page.tsx`): subtotal, coupon discount, delivery fee, tax and total, the coupon box, the free-delivery hint and the checkout guard;
- the checkout page (`app/checkout/page.tsx`): its own fee, tax and total, validation, and placing an order;
- the admin orders page (`app/admin/orders/page.tsx`): the status flow, status updates, the order filter and status labels;
- the menu listing (`components/menu-content.tsx`): the category and search filter, the four sort orders, and quick-add;
- the admin menu page (`app/admin/menu/page.tsx`): the filter, add or edit through the form, delete, and the availability toggle.

Each source file has one module: `CartStore`, `ProductCustomization`, `CartPage`, `CheckoutPage`, `AdminOrders`, `MenuContent` and `AdminMenu`. Three helper modules support them:

- `Wrappers` holds `Option`.
- `Text` holds ASCII case mapping, substring search, split and join on a character, and the lexicographic string order `StrLe`.
- `ListOps` holds `filter`, `findIndex`, subsequences and a stable insertion sort with its correctness lemmas.

Prices are exact `real` numbers and quantities are `int`. The stores the pages keep become classes whose fields their methods replace:

- `Cart`
- `Dialog`
- `CouponBox`
- `CheckoutForm`
- `OrdersPage`
- `MenuPage`

Each method's contract states the new state as a function of the old one. The lemmas about those functions carry the properties.

The cart identifies a line by three things: the product id, the size, and the topping list compared after sorting (`JSON.stringify(toppings.sort())`). `CartStore.SameToppingsIffSameMultiset` proves that this comparison is multiset equality. So topping order never splits a line.

## Model

| member | source | states |
|---|---|---|
| CartStore.SameToppingsIffSameMultiset | hooks/use-cart.ts:35-41 | two topping lists compare equal after sorting exactly when they hold the same toppings the same number of times |
| CartStore.Matches | hooks/use-cart.ts:35-41 | the identity test: same id, same size, and toppings equal after sorting, which `SameToppingsIffSameMultiset` shows is equality as multisets |
| ListOps.SortStable | components/menu-content.tsx:107-118 | the insertion sort is stable, like `Array.prototype.sort`: the elements of any one key keep their input order |
| ListOps.FindIndexIsFirst | hooks/use-cart.ts:35-41 | `findIndex` gives the first index whose element passes the test, or -1 exactly when none passes |
| CartStore.FindLineIsFirstMatch | hooks/use-cart.ts:35-41 | the result is the first index whose line matches id, size and sorted toppings, or -1 exactly when no line matches |
| CartStore.FindLine | hooks/use-cart.ts:35-41 | the `findIndex` is -1 or a valid index; `FindLineIsFirstMatch` pins it as the first matching line |
| CartStore.TotalPrice | hooks/use-cart.ts:85-87 | the empty cart totals zero |
| CartStore.TotalPriceNonNegative | hooks/use-cart.ts:85-87 | with non-negative prices and quantities the total price is non-negative |
| CartStore.TotalItems | hooks/use-cart.ts:89-91 | the empty cart counts zero; with positive quantities the count is at least the number of lines |
| CartStore.TotalPriceOfAppend | hooks/use-cart.ts:85-87 | appending a line adds its price times quantity to the total |
| CartStore.TotalItemsOfAppend | hooks/use-cart.ts:89-91 | appending a line adds its quantity to the count |
| CartStore.LinePrice | hooks/use-cart.ts:86 | one line adds its price times its quantity; `TotalPriceOfAppend`, `LinePriceOfMerge` and `CartLineMatchesDialogTotal` state what it adds up to |
| CartStore.TotalPriceOfUpdate | hooks/use-cart.ts:85-87 | replacing one line changes the total by the difference of the two line prices |
| CartStore.TotalItemsOfUpdate | hooks/use-cart.ts:89-91 | replacing one line changes the count by the difference of the two quantities |
| CartStore.LinePriceOfMerge | hooks/use-cart.ts:45 | raising a line's quantity by q adds q units at that line's price |
| CartStore.MergeAtIsUpdate | hooks/use-cart.ts:43-46 | merging into line k changes only line k, and only its quantity, by the added quantity |
| CartStore.TotalItemsOfMergeAt | hooks/use-cart.ts:43-46 | merging into an existing line raises the count by the added quantity |
| CartStore.TotalPriceOfMergeAt | hooks/use-cart.ts:43-46 | merging into an existing line raises the total by the added quantity at the existing line's price, not the new one's |
| CartStore.AddMergesExistingLine | hooks/use-cart.ts:33-51 | in a cart of distinct lines, adding an item that matches line k keeps the length, raises line k's quantity, and leaves every other line alone |
| CartStore.AddLine | hooks/use-cart.ts:33-51 | merge into the first matching line or append; `AddMergesExistingLine`, `AddAppendsNewLine`, `AddTotalItems` and `AddPreservesDistinct` state its effect |
| CartStore.AddAppendsNewLine | hooks/use-cart.ts:47-49 | adding an item that matches no line appends it at the end |
| CartStore.AddTotalItems | hooks/use-cart.ts:33-51 | adding always raises the item count by exactly the added quantity |
| CartStore.AddMergedTotalPrice | hooks/use-cart.ts:35-46 | adding an item that lands on an existing line raises the total by the added quantity at that line's price; the incoming price is discarded |
| CartStore.AddAppendedTotalPrice | hooks/use-cart.ts:43-49 | adding an item that matches no line raises the total by the new line's price times its quantity |
| CartStore.AddPreservesDistinct | hooks/use-cart.ts:33-51 | adding keeps every pair of lines distinct in identity |
| CartStore.AddKeepsQuantitiesPositive | hooks/use-cart.ts:33-51 | adding a positive quantity to a cart of positive quantities keeps them all positive |
| CartStore.MergeIgnoresToppingOrder | hooks/use-cart.ts:35-46 | two items with the same id, the same size and the same toppings in any order end up as one line with the summed quantity |
| CartStore.AddedLineIsFound | hooks/use-cart.ts:33-51 | after an add, a line with the added item's identity is present |
| CartStore.AddTwiceAddsAtMostOneLine | hooks/use-cart.ts:33-51 | adding the same item twice creates at most one new line and raises the count by twice its quantity |
| CartStore.RemoveDropsExactlyMatches | hooks/use-cart.ts:53-64 | removal keeps exactly the non-matching lines, each as often as it occurs and in order; with no match the cart is unchanged |
| CartStore.RemoveLines | hooks/use-cart.ts:53-64 | the `filter` of `removeItem`; `RemoveDropsExactlyMatches` states which lines survive and how often |
| CartStore.RemovePreservesDistinct | hooks/use-cart.ts:53-64 | removal keeps lines distinct |
| CartStore.RemoveKeepsQuantitiesPositive | hooks/use-cart.ts:53-64 | removal keeps all quantities positive |
| CartStore.UpdateNonPositiveRemoves | hooks/use-cart.ts:66-70 | a quantity of zero or less removes the matching lines, exactly as removeItem does |
| CartStore.UpdatePositiveSetsQuantity | hooks/use-cart.ts:72-80 | a positive quantity keeps the length, sets that quantity on every matching line and changes nothing else; with no match the cart is unchanged |
| CartStore.SetQuantity | hooks/use-cart.ts:72-80 | the `map` of `updateQuantity`; `UpdatePositiveSetsQuantity` states that only matching lines change, and only their quantity |
| CartStore.UpdateLines | hooks/use-cart.ts:66-81 | removal for a non-positive quantity, else the `map`; `UpdateNonPositiveRemoves` and `UpdatePositiveSetsQuantity` state the two branches |
| CartStore.UpdatePreservesDistinct | hooks/use-cart.ts:66-81 | updateQuantity keeps lines distinct |
| CartStore.UpdateKeepsQuantitiesPositive | hooks/use-cart.ts:66-81 | updateQuantity never leaves a zero or negative quantity in a cart of positive quantities |
| CartStore.Cart.constructor | hooks/use-cart.ts:31 | a new cart is empty |
| CartStore.Cart.AddItem | hooks/use-cart.ts:33-51 | the new lines are the merge-or-append of the item into the old lines, and distinctness is kept |
| CartStore.Cart.RemoveItem | hooks/use-cart.ts:53-64 | the new lines are the old ones without the matching lines, and distinctness is kept |
| CartStore.Cart.UpdateQuantity | hooks/use-cart.ts:66-81 | the new lines are the removal for a non-positive quantity, else the old lines with matching quantities set |
| CartStore.Cart.ClearCart | hooks/use-cart.ts:83 | the cart becomes empty |
| CartStore.Cart.GetTotalPrice | hooks/use-cart.ts:85-87 | the empty cart totals zero; `TotalPriceNonNegative` bounds it below |
| CartStore.Cart.GetTotalItems | hooks/use-cart.ts:89-91 | the empty cart counts zero; with positive quantities the count is at least the number of lines |
| ProductCustomization.TablesNonNegative | components/product-customization.tsx:31-54 | every size and topping surcharge is non-negative |
| ProductCustomization.Surcharge | components/product-customization.tsx:63-65 | a table lookup gives the listed price, or zero for a name not in the table |
| ProductCustomization.BasePriceBySize | components/product-customization.tsx:63 | Small adds 0, Medium 3 and Large 6 to the product price; an unknown size adds nothing |
| ProductCustomization.BasePrice | components/product-customization.tsx:63 | product price plus the size surcharge; `BasePriceBySize` gives the three sizes and the fallback |
| ProductCustomization.ToppingsPrice | components/product-customization.tsx:64-66 | the toppings price is never negative |
| ProductCustomization.ToppingsPriceOfAppend | components/product-customization.tsx:64-66 | checking one more topping adds its table price |
| ProductCustomization.PriceSum | components/product-customization.tsx:64-66 | over a table of non-negative prices the sum is non-negative |
| ProductCustomization.PriceSumOfAppend | components/product-customization.tsx:64-66 | the sum walks left to right: one more key adds its table price, or nothing for a key not in the table |
| ProductCustomization.PriceSumOfInsert | components/product-customization.tsx:64-66 | inserting a key anywhere into a list adds its table price |
| ProductCustomization.PriceSumOfSort | components/product-customization.tsx:64-66 | sorting the keys does not change their sum, for any table |
| ProductCustomization.ToppingsPriceOfSort | components/product-customization.tsx:64-66 | sorting the toppings does not change their price |
| ProductCustomization.SameToppingsSamePrice | components/product-customization.tsx:64-66 | topping lists the cart treats as the same line cost the same |
| ProductCustomization.UnitPrice | components/product-customization.tsx:63-67 | one unit never costs less than the product's listed price |
| ProductCustomization.BuildCartItem | components/product-customization.tsx:77-88 | the line carries the product's id, name and image, the chosen quantity, size and toppings, and a price of at least the listed price |
| ProductCustomization.CartLineMatchesDialogTotal | components/product-customization.tsx:63-88 | the line's price times quantity equals the total the dialog shows |
| ProductCustomization.MergedSelectionsAgreeOnPrice | components/product-customization.tsx:77-88 | two selections the cart would merge have the same unit price, so keeping the first line's price loses nothing |
| ProductCustomization.Decremented | components/product-customization.tsx:182 | the minus button lowers the quantity by one but never below 1 |
| ProductCustomization.UncheckRemovesOnlyThatTopping | components/product-customization.tsx:72-74 | unchecking removes every copy of that topping and keeps the others, as often as before and in order |
| ProductCustomization.Unchecked | components/product-customization.tsx:73 | the `filter` of an uncheck; `UncheckRemovesOnlyThatTopping` and `CheckThenUncheck` state its effect |
| ProductCustomization.CheckThenUncheck | components/product-customization.tsx:69-75 | checking an unselected topping and then unchecking it restores the selection |
| ProductCustomization.Dialog.constructor | components/product-customization.tsx:57-59 | the dialog opens on Medium, no toppings, quantity 1 |
| ProductCustomization.Dialog.SelectSize | components/product-customization.tsx:136 | only the size changes |
| ProductCustomization.Dialog.ToggleTopping | components/product-customization.tsx:69-75 | checking appends the topping, unchecking filters it out, nothing else changes |
| ProductCustomization.Dialog.Decrement | components/product-customization.tsx:182 | the quantity becomes the decremented one and stays at least 1 |
| ProductCustomization.Dialog.Increment | components/product-customization.tsx:188 | the quantity rises by one |
| ProductCustomization.Dialog.TotalPrice | components/product-customization.tsx:67 | the shown total is at least the listed price times the quantity |
| ProductCustomization.Dialog.AddToCart | components/product-customization.tsx:77-88 | the cart receives the built line, its item count rises by the quantity, and positivity and distinctness are kept |
| CartPage.DeliveryFee | app/cart/page.tsx:27 | the fee is zero exactly when the subtotal is above 25, else 3.99 |
| CartPage.ThresholdBoundary | app/cart/page.tsx:27 | a subtotal of exactly 25.00 pays 3.99; 25.01 ships free |
| CartPage.CartSummary | app/cart/page.tsx:25-29 | the summary shows the given subtotal, the coupon's discount, the threshold fee on the subtotal before discount, tax at 8% of the discounted subtotal, and their total |
| CartPage.CartTotalDecomposes | app/cart/page.tsx:25-29 | the total is the discounted subtotal with 8% tax, plus the fee |
| CartPage.DiscountByCoupon | app/cart/page.tsx:26 | no coupon gives no discount; a coupon takes its percentage of the subtotal |
| CartPage.Discount | app/cart/page.tsx:26 | the coupon's percentage of the subtotal; `DiscountByCoupon`, `DiscountWithinSubtotal` and `CouponSaving` state its value, bounds and effect |
| CartPage.DiscountWithinSubtotal | app/cart/page.tsx:33-43 | a listed coupon's discount lies between zero and the subtotal |
| CartPage.CouponSaving | app/cart/page.tsx:25-29 | a coupon lowers the total by the discount plus the tax on it |
| CartPage.FreeDeliveryHint | app/cart/page.tsx:249-251 | the hint shows exactly when the subtotal is below 25 |
| CartPage.HintAndFee | app/cart/page.tsx:249-251 | when shown, the hint is the distance to 25 and the fee is charged; at exactly 25 there is neither hint nor free delivery |
| CartPage.HintedAmountIsNotEnough | app/cart/page.tsx:249-251 | adding exactly the hinted amount still leaves the fee charged |
| CartPage.HandleCheckout | app/cart/page.tsx:58-78 | signed-out users go to sign-in, an empty cart is refused, and only a signed-in user with lines proceeds |
| CartPage.CouponBox.constructor | app/cart/page.tsx:22-23 | empty input, no coupon |
| CartPage.CouponBox.EditCouponCode | app/cart/page.tsx:199 | the input stores the upper-cased text and the coupon is untouched |
| CartPage.CouponBox.ApplyCoupon | app/cart/page.tsx:31-56 | a listed code becomes the coupon with its percentage and clears the input; any other code changes nothing |
| CartPage.CouponBox.RemoveCoupon | app/cart/page.tsx:190 | the coupon is dropped and the input kept |
| CartPage.CouponBox.Summary | app/cart/page.tsx:25-29 | the subtotal is the cart total, and without a coupon the discount is zero |
| CartPage.CouponCodeIgnoresCase | app/cart/page.tsx:199 | two typings that differ only in letter case are accepted or refused alike |
| CartPage.LowerCaseCodeAccepted | app/cart/page.tsx:199 | typing "save10" is accepted as SAVE10 for 10% |
| CartPage.ValidCodesAreUpperCase | app/cart/page.tsx:33-37 | every listed code is upper case and carries a positive percentage |
| CheckoutPage.CheckoutFee | app/checkout/page.tsx:37 | pickup pays nothing; delivery pays nothing exactly above 25, else 3.99 |
| CheckoutPage.CheckoutTotals | app/checkout/page.tsx:36-39 | the fee is the checkout fee for the chosen method, the tax is 8% of the full subtotal, and the total is subtotal plus fee plus tax, with no discount line |
| CheckoutPage.TaxBasesDiffer | app/checkout/page.tsx:38 | the checkout's tax exceeds the cart page's by the tax on the coupon discount, since it taxes the full subtotal |
| CheckoutPage.CheckoutExample | app/checkout/page.tsx:36-39 | a delivered subtotal of 37.98 gives fee 0, tax 3.0384 and total 41.0184 |
| CheckoutPage.CheckoutIgnoresCoupon | app/checkout/page.tsx:36-39 | for delivery, the checkout total exceeds the cart page's by the coupon discount plus its tax |
| CheckoutPage.PickupDropsCartFee | app/checkout/page.tsx:37 | for pickup the checkout total also drops the fee the cart page showed |
| CheckoutPage.SameTotalWithoutCoupon | app/checkout/page.tsx:36-39 | with no coupon and delivery, both pages show the same total |
| CheckoutPage.Validate | app/checkout/page.tsx:41-59 | sign-in is refused first; then delivery without a street or a city is refused; otherwise the order goes ahead |
| CheckoutPage.NewOrder | app/checkout/page.tsx:66-78 | the order keeps the id, lines and time; its status is confirmed; its total is the checkout total; it has an address exactly for delivery; its estimate follows the method |
| CheckoutPage.OrderTotalAtLeastSubtotal | app/checkout/page.tsx:36-39 | with non-negative lines an order never totals less than its subtotal |
| CheckoutPage.EmptyCartOrderHoldsOnlyTheFee | app/checkout/page.tsx:41-78 | the handler accepts an empty cart for delivery and the order then totals only the fee |
| CheckoutPage.PageGuard | app/checkout/page.tsx:95-103 | the form shows only for a signed-in user with lines; otherwise the page redirects to sign-in or to the cart |
| CheckoutPage.CheckoutForm.constructor | app/checkout/page.tsx:25-33 | delivery, card, no instructions, and the saved address or blanks |
| CheckoutPage.CheckoutForm.Totals | app/checkout/page.tsx:36-39 | the subtotal is the cart total and pickup pays no fee |
| CheckoutPage.CheckoutForm.PlaceOrder | app/checkout/page.tsx:41-93 | a rejection leaves orders and cart unchanged; otherwise the new order is prepended to the stored list and the cart is emptied |
| AdminOrders.NextStatus | app/admin/orders/page.tsx:93-101 | an unknown status maps to itself and a known status to a known status |
| AdminOrders.StatusRank | app/admin/orders/page.tsx:94-99 | a known status has a rank at most 3, and rank 3 exactly for delivered |
| AdminOrders.NextStatusSteps | app/admin/orders/page.tsx:94-100 | confirmed, preparing, out_for_delivery and delivered step forward in that order, and delivered stays delivered |
| AdminOrders.NextStatusAdvances | app/admin/orders/page.tsx:93-101 | a known status below delivered moves up exactly one rank; delivered is fixed |
| AdminOrders.AdvanceReachesDelivered | app/admin/orders/page.tsx:93-101 | enough "next" steps from any known status reach delivered |
| AdminOrders.DeliveredWithinThreeSteps | app/admin/orders/page.tsx:93-101 | three steps always suffice |
| AdminOrders.AdvanceNeverBackward | app/admin/orders/page.tsx:93-101 | repeated steps stay known and never lower the rank |
| AdminOrders.WithStatusChangesOnlyThoseOrders | app/admin/orders/page.tsx:45-47 | only orders with that id get the new status; all else and the length stay |
| AdminOrders.WithStatus | app/admin/orders/page.tsx:46 | the `map` of `updateOrderStatus`; `WithStatusChangesOnlyThoseOrders` states which orders change and how |
| AdminOrders.AvailableActions | app/admin/orders/page.tsx:217-227 | "Mark as next" is offered exactly off delivered and "Reset to Confirmed" exactly off confirmed |
| AdminOrders.ActionStatus | app/admin/orders/page.tsx:217-227 | reset writes confirmed; next moves a known status up one rank |
| AdminOrders.OfferedActionChangesStatus | app/admin/orders/page.tsx:217-227 | every offered action changes a known status |
| AdminOrders.FilterOrdersKeepsExactlyMatches | app/admin/orders/page.tsx:29-43 | the listing is an order-preserving selection of exactly the orders whose lower-cased id contains the term and whose status passes the filter, each kept as often as it occurs in the list |
| AdminOrders.FilterOrders | app/admin/orders/page.tsx:29-43 | the two-stage filter; `FilterOrdersKeepsExactlyMatches` states which orders it keeps, how often and in what order |
| AdminOrders.Capitalize | app/admin/orders/page.tsx:89 | the first character is upper-cased and the rest kept |
| AdminOrders.CapitalizeAll | app/admin/orders/page.tsx:88-90 | each word is capitalized in place |
| AdminOrders.Label | app/admin/orders/page.tsx:86-91 | the character-wise label keeps the length |
| AdminOrders.LabelOfSplit | app/admin/orders/page.tsx:86-91 | the character-wise label equals the split, capitalize and join pipeline |
| AdminOrders.FormatStatusIsLabel | app/admin/orders/page.tsx:86-91 | formatStatus equals the character-wise label |
| AdminOrders.LabelAt | app/admin/orders/page.tsx:86-91 | each label character is a space for "_", upper-cased after "_" or at the start, else kept |
| AdminOrders.FormatStatusCharacters | app/admin/orders/page.tsx:86-91 | formatStatus keeps the length, turns "_" into spaces, upper-cases word starts and keeps all else |
| AdminOrders.FormatStatus | app/admin/orders/page.tsx:86-91 | split on "_", capitalize, join with spaces; `FormatStatusIsLabel`, `FormatStatusCharacters` and `OutForDeliveryLabel` state the label character by character |
| AdminOrders.StatusWords | app/admin/orders/page.tsx:88 | "out_for_delivery" splits into its three words |
| AdminOrders.CapitalizedWords | app/admin/orders/page.tsx:89 | the three words capitalize to Out, For, Delivery |
| AdminOrders.OutForDeliveryLabel | app/admin/orders/page.tsx:86-91 | "out_for_delivery" is shown as "Out For Delivery" |
| AdminOrders.OrdersPage.constructor | app/admin/orders/page.tsx:16-27 | the stored orders are loaded, with no search and status filter "all" |
| AdminOrders.OrdersPage.UpdateOrderStatus | app/admin/orders/page.tsx:45-48 | the orders become the status-updated list, filters untouched |
| AdminOrders.OrdersPage.Visible | app/admin/orders/page.tsx:29-43 | `filteredOrders` is the filter of the current orders and filters, so `FilterOrdersKeepsExactlyMatches` describes it |
| AdminOrders.OrdersPage.ApplyAction | app/admin/orders/page.tsx:217-227 | an offered action writes its status to the orders with that id |
| MenuContent.SomeListedToppingsAreNotOffered | components/menu-content.tsx:77-88 | the Hawaiian pizza lists Extra Ham and Extra Pineapple; the price table lacks both, so the dialog, whose checkboxes are that table's keys, never offers them, and the price function would charge nothing for them |
| MenuContent.PriceLowIsTotalPreorder | components/menu-content.tsx:109-110 | the price-low comparator is total and transitive |
| MenuContent.PriceHighIsTotalPreorder | components/menu-content.tsx:111-112 | the price-high comparator is total and transitive |
| MenuContent.RatingIsTotalPreorder | components/menu-content.tsx:113-114 | the rating comparator is total and transitive |
| MenuContent.NameIsTotalPreorder | components/menu-content.tsx:115-116 | the name comparator is total and transitive |
| MenuContent.BeforeIsTotalPreorder | components/menu-content.tsx:107-118 | every sort choice, the default included, orders all pairs transitively |
| MenuContent.Before | components/menu-content.tsx:107-118 | the comparator for each sort choice, name order for any other; `BeforeIsTotalPreorder` and `FilteredItemsOrder` state what it orders by |
| MenuContent.MatchesCategory | components/menu-content.tsx:101 | "All" or the item's own category; `FilteredItemsSortedPermutation` shows the listing holds exactly the items passing it and the search test |
| MenuContent.MatchesSearch | components/menu-content.tsx:102-104 | name or description contains the term, ignoring case; used by `FilteredItemsSortedPermutation` as above |
| MenuContent.FilteredItemsSortedPermutation | components/menu-content.tsx:99-118 | the listing is a permutation of the filtered items, sorted by the chosen comparator, holding exactly the items that pass both tests |
| MenuContent.FilteredItems | components/menu-content.tsx:99-118 | filter then sort; `FilteredItemsSortedPermutation`, `FilteredItemsOrder` and `FilteredItemsStable` state its contents and order |
| MenuContent.FilteredItemsOrder | components/menu-content.tsx:107-118 | cheapest first, dearest first, best rated first, or by name, as chosen |
| MenuContent.FilteredItemsStable | components/menu-content.tsx:99-118 | items the chosen comparator ranks equal appear in their catalogue order |
| MenuContent.CatalogueCategoriesListed | components/menu-content.tsx:14-88 | every catalogue item's category is one of the category choices other than "All" |
| MenuContent.EmptySearchKeepsEverything | components/menu-content.tsx:99-106 | with All and an empty search the listing holds the whole catalogue |
| MenuContent.QuickAddItem | components/menu-content.tsx:120-131 | quick-add builds one Medium with no toppings at the bare product price |
| MenuContent.QuickAddSkipsSurcharge | components/menu-content.tsx:120-131 | a quick-added Medium costs 3 less than the same Medium from the dialog, and the two still share a cart line |
| MenuContent.QuickAddTwice | components/menu-content.tsx:120-131 | quick-adding a product twice adds at most one line, raises the count by two, and in an empty cart gives one line of quantity 2 |
| MenuContent.QuickAdd | components/menu-content.tsx:120-131 | the cart receives the quick-add line and its count rises by one |
| AdminMenu.FilterItemsKeepsExactlyMatches | app/admin/menu/page.tsx:106-122 | the listing is an order-preserving selection of exactly the items matching a non-empty term and, unless "all", the category, each kept as often as it occurs in the menu |
| AdminMenu.FilterItems | app/admin/menu/page.tsx:106-122 | search for a non-empty term, then category unless "all"; `FilterItemsKeepsExactlyMatches` states what it keeps |
| AdminMenu.EmptyTermMatchesEverything | app/admin/menu/page.tsx:109-115 | the search test passes every item for the empty term, so the guard only saves work |
| AdminMenu.FormOf | app/admin/menu/page.tsx:182-195 | editing fills every form field from the item |
| AdminMenu.ItemOf | app/admin/menu/page.tsx:136-148 | the submitted item takes the form's fields, the placeholder image and the given id, price and rating |
| AdminMenu.EditRoundTrip | app/admin/menu/page.tsx:136-195 | saving an unchanged edit gives back the item with only its image reset to the placeholder |
| AdminMenu.ReplaceById | app/admin/menu/page.tsx:151 | the edit map keeps the length |
| AdminMenu.EditReplacesOnlyThatItem | app/admin/menu/page.tsx:136-151 | the edited id's items take the form with the old id and rating; all others stay |
| AdminMenu.EditOfMissingItemChangesNothing | app/admin/menu/page.tsx:151 | saving an edit of an item no longer listed leaves the menu unchanged |
| AdminMenu.DeleteRemovesOnlyThatId | app/admin/menu/page.tsx:197-198 | delete drops every item with the id and keeps the rest, as often as before and in order |
| AdminMenu.Deleted | app/admin/menu/page.tsx:198 | the `filter` of `handleDelete`; `DeleteRemovesOnlyThatId` states what it keeps |
| AdminMenu.Toggled | app/admin/menu/page.tsx:205-207 | the toggle map keeps the length |
| AdminMenu.ToggleFlipsOnlyThatId | app/admin/menu/page.tsx:205-207 | only availability changes, and only on items with the id |
| AdminMenu.ToggleTwiceRestores | app/admin/menu/page.tsx:205-207 | toggling an id twice restores the menu |
| AdminMenu.InitialIdsUnique | app/admin/menu/page.tsx:42-82 | the initial menu has distinct ids |
| AdminMenu.InitialCategoriesListed | app/admin/menu/page.tsx:42-84 | every seeded item's category is one the form's category select offers |
| AdminMenu.UpdatesKeepIdsUnique | app/admin/menu/page.tsx:136-207 | edit, toggle and delete keep ids distinct, and so does an append whose fresh id is unused |
| AdminMenu.MenuPage.constructor | app/admin/menu/page.tsx:87-104 | the initial menu, no search, category "all", no edit, the empty form |
| AdminMenu.MenuPage.Visible | app/admin/menu/page.tsx:106-122 | the listing is never longer than the menu |
| AdminMenu.MenuPage.SetSearchTerm | app/admin/menu/page.tsx:328 | only the search term changes |
| AdminMenu.MenuPage.SetCategoryFilter | app/admin/menu/page.tsx:332 | only the category filter changes |
| AdminMenu.MenuPage.ResetForm | app/admin/menu/page.tsx:168-180 | the form is emptied and no item is being edited |
| AdminMenu.MenuPage.HandleEdit | app/admin/menu/page.tsx:182-195 | the item becomes the one edited and the form is filled from it |
| AdminMenu.MenuPage.HandleSubmit | app/admin/menu/page.tsx:124-166 | an incomplete form is refused with nothing changed; an edit replaces by id keeping id and rating; an addition appends with rating 4.5; then the form is reset |
| AdminMenu.FormComplete | app/admin/menu/page.tsx:127 | name, description, price and category are all non-empty; `MenuPage.HandleSubmit` refuses any other form with nothing changed |
| AdminMenu.MenuPage.HandleDelete | app/admin/menu/page.tsx:197-198 | the menu loses every item with the id |
| AdminMenu.MenuPage.ToggleAvailability | app/admin/menu/page.tsx:205-207 | the menu becomes the toggled list |

## Left out

- Persistence: the cart's `persist` storage and the orders kept in `localStorage`. The stored order list is a parameter and a result instead.
- React rendering, dialogs, toasts, icons, the `isProcessing` flag and navigation. A navigation is at most an outcome tag such as `CheckoutOutcome` or `PageView`.
- The two-second simulated payment delay, and any cart change during it.
- Authentication. The user is a boolean `signedIn`, and the saved address is an optional parameter.
- Clock readings. `Date.now()` ids and ISO timestamps are parameters (`id`, `createdAt`, `freshId`).
- Floating point and `toFixed`. Amounts are exact reals, so the model does not cover rounding of the display or float error in sums such as 0.1 + 0.2.
- `Number.parseFloat`. The admin form's price arrives already parsed, and `HandleEdit` takes the price written out as text.
- Full Unicode case mapping. `toLowerCase` and `toUpperCase` map only ASCII letters.
- `localeCompare`. It becomes code-point lexicographic order (`StrLe`). The default `sort()` of the topping lists is code-unit order, and the model uses code points.
- The in-place mutation of shared arrays and objects. This covers `toppings.sort()` reordering the caller's arrays and the merge's `+=` on an item object shared with the previous state. Lines are values here.
- Lookups of JavaScript prototype keys on the object tables (a topping named `constructor`, say). Only the listed keys count.
- CheckoutPage.CheckoutForm: the radio, select and text setters of the checkout form are plain field writes and are not modelled as methods.
- AdminMenu.MenuPage: the form field setters and `isDialogOpen` are not modelled, only the handlers.
- The empty-cart check at order placement. `handlePlaceOrder` does not check for an empty cart; only the page guard at app/checkout/page.tsx:95-103 redirects. The model follows the code (`CheckoutPage.EmptyCartOrderHoldsOnlyTheFee`, `CheckoutPage.PageGuard`).
