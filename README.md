# BooksByNIK storefront: cart, checkout and offline cache, in Dafny

BooksByNIK is a static book storefront that runs as a progressive web app. The page script (`script.js`) does four things:

- it keeps a shopping cart in a global array and mirrors it into the browser's `localStorage` slot `cart`;
- it shows the cart's total;
- it checks the checkout form;
- it POSTs the order to an Apps Script endpoint.

A service worker (`service-worker.js`) pre-caches the app shell. It drops older cache generations on activation. On fetch it serves two critical files network-first and every other same-origin file cache-first. Calls to the Apps Script host pass straight through.

This project models both parts as the code is written, including its quirks:

- ids that are not in the catalog are ignored;
- the total uses the price stored on each cart item;
- an empty cart is never written to storage, so a cleared cart comes back on the next load;
- the guard refuses a zero total but lets a negative one through;
- the cart array is sent as-is.

Files:

- `wrappers.dfy`: `Option`.
- `cart_engine.dfy`, module `CartEngine`:
  - the values: `Amount`, `Book`, `CartItem`;
  - what `find`, addToCart, removeFromCart, the total loop, the storage write and the checkout guard do, as functions;
  - the lemmas about them.
- `storefront.dfy`, module `Storefront`: class `Page`. It holds the global state of `script.js`:
  - `cart` and `booksData`;
  - the storage slot;
  - the displayed total;
  - the submit button's `disabled` flag.

  Its methods are the handlers. Each method's contract ties the new state to the functions of `CartEngine`. `Page.Valid()` says that the displayed total is the total of the cart in memory, and that the storage slot holds no NaN price (which `JSON.parse` cannot produce).
- `service_worker.dfy`, module `ServiceWorker`:
  - the routing classifier;
  - the cache storage, modelled as a sequence of named caches in creation order;
  - class `Worker` with the install, activate and fetch handlers.
- `integration.dfy`: the two Apps Script endpoints are never answered by the worker.

Amounts are whole paise or NaN (`Amount`), so the guard's `isNaN` branch is modelled. The network is a parameter:

- the order endpoint's answer is a `Reply`;
- a fetch made by the worker is a `NetReply`;
- the install-time downloads are a function `net`.

Points where the code does less, or other, than a storefront might be expected to do, and which the model keeps:

- `addToCart` returns early for an id missing from the catalog, so such an id is never added.
- The total multiplies the price stored in each cart item; it never looks the book up in the catalog again.
- The order payload is the `cart` array itself, not a join of the items with the catalog.
- A placed order empties the in-memory cart only; the storage slot keeps the last non-empty cart.
- The guard refuses a total of exactly 0 or NaN; a negative total passes.
- There is no "remove all" operation besides `clearCart`.
- The cart goes through `JSON.stringify` on every write and `JSON.parse` on load. A NaN price is written as `null` and reads back as a price that multiplies to 0, so a cart the guard refuses for its NaN total can pass after a reload.

## Model

| member | source | states |
|---|---|---|
| CartEngine.FirstIndex | script.js:112 | the index found is the first holding the id, and there is none exactly when the id is absent (what `Array.prototype.find` stops at) |
| CartEngine.Lookup | script.js:106 | no book is found exactly when no catalog record has the id; otherwise the first record with that id is returned |
| CartEngine.Added | script.js:105-123 | addToCart's effect on the cart; `AddUnknownIsNoOp`, `AddExistingIncrements` and `AddNewAppends` split every input between them, and `AddPreservesWellFormed` gives its invariant |
| CartEngine.Without | script.js:134 | the filter of removeFromCart; `WithoutMembers`, `WithoutAbsent` and `WithoutSingle` characterise it |
| CartEngine.Removed | script.js:128-135 | removeFromCart's effect on the cart; `RemoveDecrements`, `RemoveDeletes` and `RemoveAbsentIsNoOp` cover its cases in a well-formed cart, and `RemovePreservesWellFormed` gives its invariant |
| CartEngine.Step | script.js:105-143 | one add, remove or clear handler's effect on the cart: `Added`, `Removed` or the empty cart; `RunPreservesWellFormed` shows each step keeps a well-formed cart well-formed |
| CartEngine.Run | script.js:105-143 | the cart after a sequence of add, remove and clear commands; `RunPreservesWellFormed`, `ClearEmpties` and `AddTwiceRemoveTwice` are about it |
| CartEngine.LineTotal | script.js:35 | `item.price * item.quantity`, NaN when the price is NaN; `TotalIsSubtotal` and `TotalWithNaN` are about the sum of these |
| CartEngine.Total | script.js:34-36 | the running total of updateCart's loop, starting from 0 on line 16; `TotalIsSubtotal`, `TotalWithNaN`, `EmptyTotal`, `PositiveTotal` and `NegativeTotal` characterise it |
| CartEngine.Admits | script.js:202 | the checkout guard; `GuardOnPositivePrices`, `GuardOnPricedCarts`, `GuardRejectsNaNPrice` and `NegativeTotalPassesGuard` characterise it |
| CartEngine.Revived | script.js:59 | one item as `JSON.parse` (line 8) reads back what `JSON.stringify` wrote: a NaN price becomes one that multiplies to 0, every other field is kept; `StringifiedKeepsPriced` states this for whole carts |
| CartEngine.Stringified | script.js:59 | the cart as `JSON.parse` reads back what `JSON.stringify` wrote; `StringifiedKeepsPriced` and `ReloadForgetsNaN` characterise it |
| CartEngine.Loaded | script.js:8 | the cart a page load starts from; `Persisted` and `ClearedCartComesBack` relate it to what updateCart wrote |
| CartEngine.Persisted | script.js:27-31 | after updateCart a non-empty cart reloads as its JSON copy, which is the cart itself when every price is a number, while an empty cart leaves storage reloading what it held before (the early return precedes `setItem` at line 59) |
| CartEngine.AddUnknownIsNoOp | script.js:105-107 | adding an id that no catalog record has leaves the cart unchanged |
| CartEngine.AddExistingIncrements | script.js:112-115 | adding an id already in the cart raises that item's quantity by one; length, order and every other item are unchanged |
| CartEngine.AddNewAppends | script.js:116-123 | adding a catalog id absent from the cart appends exactly one item at the end, with quantity 1 and the catalog record's title and price |
| CartEngine.AddPreservesWellFormed | script.js:105-123 | adding keeps ids unique and every quantity at least 1 |
| CartEngine.WithoutMembers | script.js:134 | the filter keeps exactly the items whose id differs from the removed one |
| CartEngine.WithoutAbsent | script.js:134 | filtering an absent id leaves the cart as it was |
| CartEngine.WithoutSingle | script.js:134 | filtering an id held only at position k removes that item and keeps the others in order |
| CartEngine.RemoveDecrements | script.js:129-132 | removing an id whose first item has quantity above 1 lowers that quantity by one and changes nothing else |
| CartEngine.RemoveDeletes | script.js:131-134 | in a well-formed cart, removing an id whose item has quantity 1 deletes exactly that item, keeping the order of the rest |
| CartEngine.RemoveAbsentIsNoOp | script.js:129-134 | removing an id not in the cart leaves it unchanged |
| CartEngine.RemovePreservesWellFormed | script.js:128-135 | removing keeps ids unique and every quantity at least 1 |
| CartEngine.RunPreservesWellFormed | script.js:105-143 | any sequence of add, remove and clear, started from a well-formed cart, ends in a well-formed cart |
| CartEngine.ClearEmpties | script.js:139-141 | whatever came before, a clear leaves the empty cart |
| CartEngine.TotalIsSubtotal | script.js:34-36 | when every price is a number, the total (started at 0 on line 16) is the sum of price × quantity over the stored items |
| CartEngine.TotalWithNaN | script.js:34-36 | one item with a NaN price makes the total NaN |
| CartEngine.EmptyTotal | script.js:27-30 | the empty cart's total is 0 |
| CartEngine.PositiveTotal | script.js:34-36 | positive prices and quantities of at least 1 give a positive total |
| CartEngine.NegativeTotal | script.js:34-36 | negative prices and quantities of at least 1 give a negative total |
| CartEngine.GuardOnPositivePrices | script.js:202 | with positive prices, the guard admits exactly a non-empty cart with a phone number and an address |
| CartEngine.GuardOnPricedCarts | script.js:202 | when every price is a number, the guard admits exactly a non-empty cart with a phone number, an address and a sum of price × quantity other than 0, whatever its sign |
| CartEngine.GuardRejectsNaNPrice | script.js:202 | a cart holding a NaN price is always refused |
| CartEngine.NegativeTotalPassesGuard | script.js:202 | every non-empty cart of negative prices, with a phone number and an address, has a negative total and passes the guard, which refuses only 0 and NaN |
| CartEngine.ClearedCartComesBack | script.js:8 | after a non-empty cart of numeric prices was written and then cleared, the next load restores exactly that cart |
| CartEngine.StringifiedKeepsPriced | script.js:59 | the JSON round trip keeps the length and every field but the price of each item, keeps every numeric price, leaves no NaN price, keeps a well-formed cart well-formed, and returns a cart of numeric prices unchanged |
| CartEngine.ReloadForgetsNaN | script.js:8 | a cart holding a NaN price is refused, but after a write and a reload its total is a number and the guard decides on that number alone |
| CartEngine.ReloadAdmitsNaNCart | script.js:8 | a cart of one unpriced and one priced book is refused before the reload and admitted after it |
| Storefront.Page.Load | script.js:8-9 | the cart is what storage holds, or empty when nothing is stored; the catalog starts empty; after the first updateCart (line 151) storage is unchanged (a parsed cart has no NaN price) and the total shown is the cart's |
| Storefront.Page.ReceiveCatalog | script.js:74 | the fetched records replace the catalog; cart and storage are untouched |
| Storefront.Page.UpdateCart | script.js:12-60 | the total shown is the loop's sum over the cart; storage becomes the cart's JSON copy when the cart is non-empty and is left alone otherwise |
| Storefront.Page.AddToCart | script.js:105-126 | the cart becomes `Added` of the old cart; an unknown id changes neither cart nor storage, any other id writes the new cart's JSON copy to storage |
| Storefront.Page.RemoveFromCart | script.js:128-137 | the cart becomes `Removed` of the old cart, and storage is updated as updateCart does |
| Storefront.Page.ClearCart | script.js:139-143 | the cart is empty and shows total 0; storage keeps its previous value |
| Storefront.Page.Submit | script.js:186-251 | a refused guard sends nothing and changes nothing; otherwise the old cart, phone, address and total are sent, a placed order empties the cart (not storage), a declined order or a network error keeps the cart, and the button ends enabled on every path past the guard |
| CartEngine.AddTwiceRemoveTwice | script.js:105-137 | from an empty cart, two additions of one book give one line of quantity 2, and two removals give the empty cart |
| ServiceWorker.NetworkFirstUrlsArePrecached | service-worker.js:5-18 | every network-first path is in the app shell |
| ServiceWorker.ContainsAt | service-worker.js:53 | a string that holds the needle at some position `includes` it |
| ServiceWorker.Contains | service-worker.js:53 | `href.includes(host)`; `ContainsAt` shows that any occurrence makes it true |
| ServiceWorker.ContainsFound | service-worker.js:53 | `includes` is true only where the needle occurs at some position, the converse of `ContainsAt` |
| ServiceWorker.Classify | service-worker.js:51-78 | a request goes through untouched exactly when its URL contains the API host, whatever its origin or path; a non-API request of the worker's own origin is network-first exactly when its path is one of the two network-first files and cache-first otherwise (so the manifest, the icons and the root path are cache-first); a cross-origin non-API request is not intercepted |
| ServiceWorker.Stored | service-worker.js:24-27 | opening a cache and putting entries (here and in the network-first `cache.put` of lines 67-68) creates it at the end only when absent, overwrites exactly the given URLs in that cache, and leaves every other cache's contents alone |
| ServiceWorker.StoredDistinct | service-worker.js:24 | opening by name never creates a second cache with an existing name |
| ServiceWorker.Names | service-worker.js:36 | `caches.keys()`: the cache names in creation order; `NamesLength`, `StoredDistinct`, `DroppedNames` and `OnlyOneNamed` are about it |
| ServiceWorker.Match | service-worker.js:72 | `caches.match` (also at line 80): the first cache in creation order holding the URL; `Worker.HandleFetch` and `OfflineAfterInstall` are about what it returns |
| ServiceWorker.FromCache | service-worker.js:72 | what `respondWith` of a cache lookup delivers: the cached response on a hit, a network error on a miss; `Worker.HandleFetch` and `OfflineAfterInstall` are about it |
| ServiceWorker.Dropped | service-worker.js:38-41 | the caches left after deleting a set of names; `DroppedTwice`, `DroppedNames`, `DroppedDistinct` and `DroppedEntries` characterise it |
| ServiceWorker.DroppedDistinct | service-worker.js:41 | deleting caches keeps cache names distinct |
| ServiceWorker.Precache | service-worker.js:27 | what `cache.addAll` stores; `ShellFileIsPrecached` shows it holds every shell file's download |
| ServiceWorker.DroppedTwice | service-worker.js:38-41 | deleting one set of names and then another equals deleting both at once |
| ServiceWorker.DroppedNames | service-worker.js:41 | after deletion a name remains exactly when it was present and not deleted |
| ServiceWorker.DroppedEntries | service-worker.js:41 | deleting other caches does not change a kept cache's contents |
| ServiceWorker.OnlyOneNamed | service-worker.js:34-44 | distinct caches that all carry one name are at most one cache |
| ServiceWorker.ShellFileIsPrecached | service-worker.js:27 | the resolved URL of every shell file is in the pre-filled entries, holding the downloaded response |
| ServiceWorker.Worker.Install | service-worker.js:22-30 | given that every shell download succeeds with a 2xx status (what `cache.addAll` needs to resolve), the CACHE_NAME cache exists and holds, for every path of the app shell, the downloaded response; other caches are untouched |
| ServiceWorker.Worker.Activate | service-worker.js:33-47 | afterwards the only cache name left is CACHE_NAME (if it existed), so at most one cache exists, and its contents are unchanged |
| ServiceWorker.Worker.HandleFetch | service-worker.js:50-85 | an API or cross-origin request gets no response from the worker, no fetch and no cache change. Network-first: a fetched response is returned and overwrites the request's entry in CACHE_NAME; an offline fetch falls back to the cache lookup and changes nothing. Cache-first: a hit is returned without fetching; a miss is fetched and not cached |
| ServiceWorker.OfflineAfterInstall | service-worker.js:22-85 | from any earlier cache generations, after install and activate, an offline request for a critical file is answered with the copy downloaded at install |
| Integration.EndpointsBypassCache | service-worker.js:53-58 | requests to the catalog and order endpoints (script.js:3,5) are always passed through, whatever their origin, path or the worker's origin |

## Left out

- Rendering is not modelled: HTML templating, `alert`, `console`, the navigation listeners, the form reset and the click back to the catalog after an order.
- `fetchAndRenderCatalog` is left out apart from its assignment to `booksData` (script.js:74), modelled by `Page.ReceiveCatalog`. The catalog fetch's failure paths only change the display.
- Missing page elements are assumed present: the early return of updateCart when its elements are missing (script.js:19-22), the missing `#cartTotal` check of the submit handler (script.js:194-197), and a missing submit button (script.js:215, 246).
- Floating point is not modelled: `parseFloat` of PRICE_INR, `toFixed(2)`, and the total's round trip through the displayed text. Prices are whole paise or NaN, and the displayed total equals the computed one. Infinity and sub-paise rounding (a total that displays as 0.00) are not modelled.
- JSON is modelled only as far as prices go: the storage slot holds the cart as `JSON.parse` gives it back, with a NaN price turned into one that multiplies to 0. The payload's `null` for such a price, `JSON.stringify` of the order, and the uncaught `JSON.parse` failure on a corrupt storage value are not modelled.
- Book ids are taken to be strings. The Add button passes the id as a string (script.js:94) and `find` compares with `===` (script.js:106), so a catalog that returned numeric ids would never match; that case is not modelled.
- Storage quota errors are not modelled: `setItem` is taken to succeed.
- The submit handler runs to completion with the reply given as a parameter. The `await` points are not modelled, so neither is a cart change made while the request is in flight.
- Storefront.Page.Submit: its contract states the button's final state only; that the button is disabled while the request is outstanding is in the body, not the contract.
- The network-first `cache.put` is not awaited in the worker; the model completes it before the response is returned.
- ServiceWorker.Worker.Install: it requires every shell download to have a 2xx status. The rejection of `cache.addAll` on a failed or non-2xx download, which would fail the install, is not modelled.
- `event.waitUntil` and the install → activate → fetch ordering are browser lifecycle. `ServiceWorker.OfflineAfterInstall` runs them in that order.
- URL parsing is not modelled: origin, pathname and href are given strings, and a relative shell path resolves to origin + path.
- Caches are keyed by the request URL (href) alone. Request method, `Vary` headers and match options are not modelled.
- Page and worker concurrency, and several open tabs, are not modelled.
