# Cart store and checkout of a React Native shop, in Dafny

This project models the shopping cart of a small React Native grocery app
and the guarded steps its screens take against the device's key-value store
(AsyncStorage). The cart provider (`CartContext.js`) holds an ordered list
of cart lines. Each mutator replaces that list through a pure updater over
the previous list: add, increase, decrease, remove and clear. Two `reduce`
folds count the items and total the price. A save effect mirrors every
change under `@myapp_cart`.

The screens around the cart each take one guarded step:

- the cart screen's checkout appends the cart as one order under `@orders`;
- the product list filters the catalogue by a search query and clears session keys on logout;
- the buyer list validates a four-field form and appends it under `@buyers`;
- the home screen validates a five-field profile and stores it under `userProfile`.

Modules, one per source file or shared concept:

- `Entities`: products, cart lines, buyers and profiles as values. Prices are integer cents.
- `KeyValue`: the store as a `map<string, Doc>`, and a `Storage` class whose methods are `setItem`, `removeItem` and `multiRemove`. Stored values are held already parsed and tagged with the shape they were written in. A `Doc` of the wrong shape stands for a value that fails to parse.
- `Cart`: the updaters and aggregates as functions over `seq<Line>`, what each one does to a well-formed cart, and the invariant over any sequence of calls.
- `CartProvider`: the `CartStore` class (the live `cartItems` plus its store), and the load and save effects.
- `Checkout`: `handleCheckout` as one step function, and the `CartScreen` class whose method is proved equal to it.
- `Text`: JavaScript's `trim`, `toLowerCase` (ASCII) and `includes`.
- `ProductList`, `Buyers`, `Home`: the three other screens, each as step functions plus a class whose methods are proved equal to them.

Storage failures and the buttons pressed in alerts are inputs: `readOk`, `writeOk`, `loginPressed`, `okPressed`, and a `LogoutFault` naming which call of logout throws.

## Model

| member | source | states |
|---|---|---|
| Entities.NewLine | CartContext.js:77 | a first add makes a line with the product's id, name and price and quantity 1 |
| Cart.Find | CartContext.js:22 | `find` returns a position iff some line has the id; that line has the id and no earlier line does |
| Cart.FindUnique | CartContext.js:22 | with unique ids, `find` returns the one matching line |
| Cart.Adjust | CartContext.js:14-16 | the `map` keeps length, ids, names and prices; lines with other ids are unchanged; matching lines get quantity + delta |
| Cart.AdjustAt | CartContext.js:14-16 | with unique ids, the `map` is a point update of the one matching line |
| Cart.AdjustAbsent | CartContext.js:14-16 | when no line has the id, the `map` returns the list unchanged |
| Cart.Without | CartContext.js:28 | the `filter` never grows the list, shrinks it when the id is present, and keeps no line with the id |
| Cart.WithoutKeeps | CartContext.js:28 | on any cart, unique ids or not, the `filter` keeps exactly the lines whose id differs |
| Cart.WithoutAbsent | CartContext.js:28 | the `filter` on an absent id returns the list unchanged |
| Cart.WithoutAt | CartContext.js:28 | with unique ids, the `filter` drops exactly the matching line and keeps the others in order |
| Cart.IncreaseQuantity | CartContext.js:12-18 | increase keeps ids unique and quantities at least 1 |
| Cart.IncreaseExisting | CartContext.js:12-18 | on a cart with unique ids, increase on a present id adds 1 to that line only |
| Cart.IncreaseAbsent | CartContext.js:12-18 | increase on an absent id is a no-op |
| Cart.AddToCart | CartContext.js:67-80 | add keeps the cart well-formed, leaves the product's id in the cart, and adds a line only for a new id |
| Cart.AddExisting | CartContext.js:69-75 | on a cart with unique ids, a repeat add is a point update adding 1 to that line's quantity; the stored price from the first add is kept |
| Cart.AddNew | CartContext.js:76-78 | a first add appends exactly one line, at the end, with the product's fields and quantity 1 |
| Cart.DecreaseQuantity | CartContext.js:20-31 | decrease requires the id (the source throws otherwise); the cart shrinks iff the found line's quantity is at most 1 |
| Cart.DecreaseAt | CartContext.js:20-31 | on a cart with unique ids, quantity above 1 goes down by one in place; quantity 1 drops the line, the others keep their order |
| Cart.RemoveAtWellFormed | CartContext.js:28 | dropping one line keeps ids unique and quantities at least 1 |
| Cart.DecreasePreservesWellFormed | CartContext.js:20-31 | decrease keeps ids unique and quantities at least 1 |
| Cart.ClearCart | CartContext.js:97-99 | clear yields the empty cart |
| Cart.SumAppend | CartContext.js:102 | the `reduce` sum over a concatenation is the sum of the two sums |
| Cart.SumSplit | CartContext.js:102 | the sum splits around any line |
| Cart.SumUpdate | CartContext.js:102 | replacing one line changes the sum by the difference of its terms |
| Cart.SumRemove | CartContext.js:102 | dropping one line removes its term from the sum |
| Cart.SumAtLeast | CartContext.js:102 | if every term is at least k, the sum is at least k times the number of lines |
| Cart.ItemsCount | CartContext.js:101-103 | the count is the sum of quantities, at least the number of lines when every quantity is at least 1 |
| Cart.TotalPrice | CartContext.js:105-111 | the total is the sum of price × quantity, with 0 for a non-numeric price; it is non-negative for non-negative prices and quantities |
| Cart.ClearCartCount | CartContext.js:97-103 | after clear, the count and the total are 0 |
| Cart.AddToCartCount | CartContext.js:101-103 | on a cart with unique ids, every add raises the count by exactly one, whether it merges or appends |
| Cart.AddToCartTotal | CartContext.js:105-111 | on a cart with unique ids, an add raises the total by the stored unit price of an existing line, or by the product's price for a new one |
| Cart.IncreaseCount | CartContext.js:12-18 | on a cart with unique ids, increase raises the count by one if the id is present, and by zero otherwise |
| Cart.DecrementAggregates | CartContext.js:24-26 | taking one unit off a line lowers the count by one and the total by its unit price |
| Cart.DropAggregates | CartContext.js:28 | dropping a line of quantity 1 lowers the count by one and the total by its unit price |
| Cart.DecreaseAggregates | CartContext.js:20-31 | on a well-formed cart (unique ids, quantities at least 1), decrease lowers the count by one and the total by the line's unit price, in both branches |
| Cart.FirstAdd | CartContext.js:76-78 | adding to the empty cart gives one line, count 1, total = price |
| Cart.SecondAdd | CartContext.js:69-75 | adding the same product again gives quantity 2, count 2, total = 2 × price |
| Cart.DecreaseAfterSecondAdd | CartContext.js:23-26 | decrease after the second add returns to the one-line cart |
| Cart.Apply | CartContext.js:114-125 | one call through the context fails exactly when it is a decrease or remove of an absent id |
| Cart.ApplyPreservesWellFormed | CartContext.js:12-99 | every call that does not throw keeps the cart well-formed |
| Cart.RunPreservesWellFormed | CartContext.js:12-99 | every sequence of calls that does not throw keeps ids unique and quantities at least 1 |
| CartProvider.SaveCart | CartContext.js:59-63 | a non-empty cart is stored under `@myapp_cart`, an empty one removes the key, no other key changes |
| CartProvider.LoadCart | CartContext.js:39-42 | only a truthy stored cart replaces the empty cart; a missing key, a failed read or a bad value leaves it empty |
| CartProvider.SaveThenLoad | CartContext.js:54 | saving any cart and loading it back gives the same cart |
| CartProvider.LoadMissing | CartContext.js:39-42 | a store without the cart key loads as the empty cart |
| CartProvider.CartStore.Mount | CartContext.js:36-48 | mounting loads the stored cart and then saves it, so store and cart agree |
| CartProvider.CartStore.Save | CartContext.js:51-64 | the save effect leaves the stored cart equal to the live one |
| CartProvider.CartStore.AddToCart | CartContext.js:67-80 | the live cart becomes the add of the old one, then it is saved |
| CartProvider.CartStore.IncreaseQuantity | CartContext.js:12-18 | the live cart becomes the increase of the old one, then it is saved |
| CartProvider.CartStore.DecreaseQuantity | CartContext.js:20-31 | requires the id; the live cart becomes the decrease of the old one, then it is saved |
| CartProvider.CartStore.RemoveFromCart | CartContext.js:82-95 | requires the id; the same update as decrease, then it is saved |
| CartProvider.CartStore.ClearCart | CartContext.js:97-99 | the live cart becomes empty and the cart key is removed |
| CartProvider.CartStore.GetItemsCount | CartContext.js:101-103 | returns the count of the live cart |
| CartProvider.CartStore.GetTotalPrice | CartContext.js:105-111 | returns the total of the live cart |
| KeyValue.Truthy | CartContext.js:40 | a missing key and a stored '' are falsy, any other string and every stored list or record are truthy; the same test guards the order and buyer loads |
| Checkout.ParseOrders | screens/CartScreen.js:48-49 | a missing or empty `@orders` is the empty order list; an order list parses as itself; a value of another shape is a failure (see Left out) |
| Checkout.Checkout | screens/CartScreen.js:25-62 | the login guard comes first and can only set the flag; then the empty-cart guard; an order is placed iff the read, parse and write succeed; the order list becomes the old one plus the cart; a read, parse or write failure gives SaveFailed and leaves login flag, cart and store as they were; a placed order with OK pressed empties the cart and removes `@myapp_cart`, without OK both stay; the cart changes in no other case; no other key is touched |
| Checkout.LedgerAppend | screens/CartScreen.js:51-53 | a placed order grows the order list by exactly one entry, the cart, and keeps the earlier orders in order |
| Checkout.FirstOrder | screens/CartScreen.js:48-53 | with no `@orders` key, the first order list holds just the cart |
| Checkout.CartScreen.constructor | screens/CartScreen.js:23 | the screen starts logged out |
| Checkout.CartScreen.HandleCheckout | screens/CartScreen.js:25-62 | the screen's checkout does exactly the `Checkout` step and keeps the stored cart in sync |
| Checkout.CheckoutScenario | screens/CartScreen.js:25-57 | a logged-out screen needs one checkout to log in and a second to place the cart as the first order and empty the cart |
| Checkout.EndToEndScenario | screens/CartScreen.js:25-57 | two adds, one decrease and a checkout that logs in first end with count 0, total 0 and `@orders` holding the one-line cart as the only order |
| Text.TrimStart | screens/ProductListScreen.js:92 | drops only leading white space and leaves a suffix that does not start with white space |
| Text.TrimEnd | screens/ProductListScreen.js:92 | drops only trailing white space and leaves a prefix that does not end with white space |
| Text.Trim | screens/ProductListScreen.js:92 | a string trims to '' iff every character is white space |
| Text.BlankPrefix | screens/ProductListScreen.js:92 | a leading space does not change whether a string is blank |
| Text.LowerChar | screens/ProductListScreen.js:96 | an ASCII capital becomes its own lower-case letter (code + 32); every other character is unchanged |
| Text.ToLower | screens/ProductListScreen.js:96 | lower-casing keeps the length and lowers each character |
| Text.Contains | screens/ProductListScreen.js:96 | the front-to-back scan of `includes` holds iff the needle occurs at some position of the haystack |
| Text.ContainsNeedsRoom | screens/ProductListScreen.js:96 | a needle longer than the haystack is never included |
| Text.ContainsSelf | screens/ProductListScreen.js:96 | every string includes itself |
| ProductList.NameMatches | screens/ProductListScreen.js:96 | the empty query matches every product; a query longer than the name matches none |
| ProductList.Matching | screens/ProductListScreen.js:95-97 | the filter keeps catalogue order, and keeps exactly the products whose lower-cased name includes the lower-cased query, each as often as it occurs |
| ProductList.SearchFilter | screens/ProductListScreen.js:91-100 | a blank query shows the whole catalogue; otherwise the result is sound, complete and in catalogue order |
| ProductList.SubsequenceRefl | screens/ProductListScreen.js:93 | the whole catalogue is a subsequence of itself |
| ProductList.PaddedQueryMisses | screens/ProductListScreen.js:92-96 | a query naming a product matches it, but the same query after one space matches nothing, since only the emptiness test trims |
| ProductList.Logout | screens/ProductListScreen.js:78-89 | without a failure, or when remember-me is 'true' so `multiRemove` is never called, `@user` is removed; credentials go unless remember-me is 'true'; logout only removes those three keys; a failed read changes nothing; a failed `multiRemove` also keeps `@user`, so the session survives; a failed `removeItem` keeps `@user` after the credentials went |
| ProductList.ProductListScreen.constructor | screens/ProductListScreen.js:63-64 | the screen starts with an empty query and the whole catalogue |
| ProductList.ProductListScreen.SetSearchQuery | screens/ProductListScreen.js:91-100 | typing a query re-filters the catalogue with `SearchFilter` |
| ProductList.ProductListScreen.HandleLogout | screens/ProductListScreen.js:78-89 | the store changes exactly as `Logout` says |
| Buyers.WithField | screens/BuyerListScreen.js:37-39 | `handleChange` sets the named field and leaves the other three unchanged |
| Buyers.Filled | screens/BuyerListScreen.js:42 | the form passes iff no field is the empty string; a field of spaces passes |
| Buyers.AddBuyer | screens/BuyerListScreen.js:41-56 | the outcome is `Incomplete` iff the form is incomplete, and then nothing changes; the buyer is added iff the form is complete and the write succeeds, and then the list is the old one plus the form and the form resets; a failed write changes nothing |
| Buyers.LoadedBuyers | screens/BuyerListScreen.js:18-29 | a missing key or a stored '' gives the empty list; a stored list is loaded as is; a failed read keeps the current list |
| Buyers.SaveThenLoadBuyers | screens/BuyerListScreen.js:47-49 | the list written by an add loads back as the same list |
| Buyers.BuyerListScreen.constructor | screens/BuyerListScreen.js:15-16 | the screen starts with no buyers and an empty form |
| Buyers.BuyerListScreen.LoadBuyers | screens/BuyerListScreen.js:18-29 | on focus the list becomes `LoadedBuyers` of the stored value; the form is kept |
| Buyers.BuyerListScreen.HandleChange | screens/BuyerListScreen.js:37-39 | the form changes in the named field only |
| Buyers.BuyerListScreen.HandleAddBuyer | screens/BuyerListScreen.js:41-56 | the screen and store change exactly as `AddBuyer` says |
| Home.WithField | screens/HomeScreen.js:24-26 | `handleChange` sets the named field and leaves the other four unchanged |
| Home.Values | screens/HomeScreen.js:30 | `Object.values` lists the five fields and nothing else |
| Home.Every | screens/HomeScreen.js:31 | `every` holds iff no value is blank after trimming |
| Home.ValidateForm | screens/HomeScreen.js:29-32 | the form is valid iff every field is non-empty after trimming |
| Home.Submit | screens/HomeScreen.js:35-50 | navigation happens iff the form is valid and the write succeeds; only then is the form stored under `userProfile`; otherwise the store is unchanged |
| Home.SpacesPassBuyerButNotProfile | screens/HomeScreen.js:31 | fields of spaces pass the buyer form's check but fail the profile check |
| Home.HomeScreen.constructor | screens/HomeScreen.js:15-21 | the form starts with five empty fields |
| Home.HomeScreen.HandleChange | screens/HomeScreen.js:24-26 | the form changes in the named field only |
| Home.HomeScreen.HandleSubmit | screens/HomeScreen.js:35-50 | the outcome and the store are exactly those of `Submit` |

## Behaviour kept from the code

- Decreasing or removing an id that is not in the cart throws: `item.quantity` is read from the result of `find` without a check (CartContext.js:22-23, 84-85). It is not a no-op, so both operations require the id.
- `removeFromCart` lowers a quantity above 1 by one, exactly as `decreaseQuantity` does; it does not delete the whole line (CartContext.js:82-95).
- `addToCart` accepts any price; there is no error for a malformed product (CartContext.js:67-80).
- Pressing Login in the checkout alert only sets the login flag; a second checkout places the order (screens/CartScreen.js:26-39).
- An order is stored as the bare list of cart lines, with no timestamp (screens/CartScreen.js:51-53).
- The order list is appended to by the cart screen itself; an empty cart is refused before anything is read or written (screens/CartScreen.js:41-53).

## Left out

- Rendering, styles, images, alert texts and navigation targets. An alert's button choice is an input wherever it gates a step.
- The login screen, which compares against a hard-coded password.
- The username load on the product list screen (screens/ProductListScreen.js:68-76), which only displays a stored string.
- Asynchrony: the save effect is unawaited in the source and could race with later changes. Here it is applied synchronously after each mutation.
- Failures of the cart's own save and remove calls. A failed save is caught and logged; the `removeItem` for an empty cart (CartContext.js:62) is neither awaited nor caught, so its failure is an unhandled rejection. The store is assumed to accept both.
- JSON encoding. Stored values are held parsed, and a value that parses but has the wrong shape is treated like one that fails to parse. The source differs: it loads such a value as is into the cart or the buyer list. At checkout it spreads any stored JSON array or string into the new order list, whatever its elements; only a non-iterable value throws there. The model instead fails the checkout unless `@orders` holds an order list.
- Floating-point prices, `Number(...)` conversion and `toFixed`. Prices are integer cents, and a non-numeric price is `None`.
- Cart.TotalPrice: a non-numeric quantity is not modelled; quantity is always an integer.
- Text.ToLower: folds only ASCII capitals; the rest of Unicode lower-casing is not modelled.
- Buyers.WithField, Home.WithField: `handleChange` is modelled for the form's own keys only; a call with any other key, which would add a new field, is not.
- Buyers.LoadedBuyers: a wrong-shape value keeps the current list in the model; its ensures does not single that case out beyond saying the result is the current list, the empty list or the stored one.
