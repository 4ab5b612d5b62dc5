# Product catalog and cart, modelled in Dafny

This project models the two pieces of logic of a small e-commerce demo:

- **The product resource of the back end** (`back/src/routes/products.ts`).
  Each request handler loads the `products` array of a JSON data file. It
  lists it, looks a product up, appends a new one, overlays a request body onto
  one, or splices one out. Only POST, PUT, PATCH and DELETE write the array
  back; the two GET handlers only read it. Module `Catalog`
  states POST, PUT, PATCH and DELETE as pure functions from the catalog they
  read to a `Step`: the reply plus the catalog left behind. GET /:id is
  `Catalog.Find`, which returns an `Option` rather than a `Step`. GET / has
  no `Catalog` member; it exists only as `ProductRouter.GetAll`. Module `ProductRoutes` holds
  `ProductRouter`, a class whose field `file` is the data file. Its methods
  follow the handlers statement by statement on a local copy, and a `Storage`
  parameter says whether reading and writing the file succeed.
- **The client-side cart** (`front/src/app/products/data-access/cart.service.ts`
  and `front/src/app/products/features/cart/cart.component.ts`). Module
  `Cart` holds the carts built by `addToCart`, `removeFromCart` (a `filter`)
  and `updateCartItemQuantity` (a `map`), and the two `reduce` folds
  `getTotal` and `getCartItemsCount`. It also holds the class `CartService`,
  with the published cart and the stored copy as fields. Module `CartView`
  holds the cart page's quantity rule: a positive quantity is set, zero or
  less removes the item, and unparsable input does nothing. It also has the
  page's actions as a small state machine and the component class
  `ProductCartComponent`.

The product fields are those of `back/src/models/product.ts`, with
`inventoryStatus` as the three-valued `InventoryStatus`. A stored product
(`Catalog.StoredProduct`) has an `id` and every other field as an `Option`.
POST stores `{id: length + 1, ...body}` whatever the body holds, so a stored
record can lack fields the interface declares. A request body (`Catalog.Body`)
has one `Option` per field, and the object spread `{...p, ...body}` is the
field-by-field `Catalog.Overlay`.

What is proved, in short:

- Lookup returns the first product with the id, and `NotFound` exactly when
  none has it.
- POST appends exactly one product.
- PUT and PATCH change only the first match. PUT lets a body `id` replace the
  stored id; PATCH keeps the old id. When the id is present, they agree
  exactly when the body carries no id or the requested one; when it is
  absent, both answer 404. PATCH is idempotent.
- DELETE splices out the first match.
- Every 404 leaves the catalog unchanged and writes nothing. A failed read or
  write leaves the file unchanged.
- POST without a body id keeps the ids 1..n unique, extending them to
  1..n+1. PATCH and DELETE keep unique ids unique. From ids 1..n, a POST without
  a body id after deleting any product but the last repeats an id
  (`DeleteThenCreateReusesId`). From any catalog, a POST whose body carries
  an id that is already taken repeats it.
- On the cart side: `addToCart` appends a new item with quantity 1 or raises
  the first match by one, and either way the item count grows by exactly one.
  `removeFromCart` leaves precisely the items of other products, in order.
  `updateCartItemQuantity` sets the quantity of the product's items and
  nothing else.
- Distinct ids and quantities of at least one are preserved by every action
  the page offers. The service's own quantity update can still leave an item
  at zero.
- The stored copy always equals the published cart after a change, and the
  page's `total` is the total of the cart it shows once subscribed.

The intended guarantees that ids are unique and never change do not hold for
the code as written. `length + 1` ids repeat after a deletion, a body may
supply its own id to POST, and PUT lets the body overwrite the id. The model
follows the code, and the lemmas above show where the guarantee fails. So the
round trip "create, then get by the new id" (`Catalog.CreateThenFind`) needs
the new id to be free. "Delete, then get answers 404"
(`Catalog.DeleteThenFind`) needs unique ids.

## Model

| member | source | states |
|---|---|---|
| `Catalog.FindIndex` | back/src/routes/products.ts:186-190 | the index is the first product holding the id, and -1 exactly when no product holds it |
| `Catalog.Find` | back/src/routes/products.ts:104-109 | GET by id gives a product whose id is the requested one, and it is the first such product; the result is `None` exactly when no product has that id |
| `Catalog.Create` | back/src/routes/products.ts:140-144 | POST appends one product after all the old, unchanged ones. Its fields are the body's, and its id is the body's id if it has one, else length + 1 |
| `Catalog.NewProduct` | back/src/routes/products.ts:140-143 | the new product has exactly the body's fields, takes the body's id when there is one, and otherwise gets the id length + 1, which no product of a catalog with ids 1..n holds |
| `Catalog.Merge` | back/src/routes/products.ts:191 | the merged fields carry every field the body has, and every field the body lacks keeps its stored value |
| `Catalog.Overlay` | back/src/routes/products.ts:191 | every field the body carries arrives in the product; every field it lacks keeps its stored value; the id is the body's if it has one, else the old one; an empty body changes nothing |
| `Catalog.OverlayKeepingId` | back/src/routes/products.ts:240-243 | every field the body carries arrives, every field it lacks keeps its stored value, the id is always the old one, and a body without product fields changes nothing |
| `Catalog.Put` | back/src/routes/products.ts:186-193 | an absent id gives `NotFound` with the catalog unchanged. Otherwise the length and every other index stay the same, and the first match gets the body's fields over its own and the body's id if it carries one |
| `Catalog.Patch` | back/src/routes/products.ts:233-247 | the same frame as PUT, but the matched product keeps the requested id whatever id the body carries |
| `Catalog.Delete` | back/src/routes/products.ts:275-282 | an absent id gives `NotFound` with the catalog unchanged. Otherwise the reply is empty, the length drops by one, and the elements before and after the first match keep their relative order |
| `Catalog.CreateThenFind` | back/src/routes/products.ts:140-146 | when the new id is not taken, looking it up after POST gives exactly the created product |
| `Catalog.CreateKeepsDenseIds` | back/src/routes/products.ts:140-144 | from a catalog with ids 1..n, POST without a body id gives ids 1..n+1, which are unique |
| `Catalog.DeleteThenCreateReusesId` | back/src/routes/products.ts:140-144 | after deleting any product but the last from a catalog with ids 1..n, POST assigns id n, which the old last product still holds, so ids are no longer unique |
| `Catalog.CreateWithTakenIdDuplicates` | back/src/routes/products.ts:140-143 | a POST body carrying an id already in the catalog makes the ids non-unique |
| `Catalog.PatchKeepsUniqueIds` | back/src/routes/products.ts:240-245 | PATCH keeps unique ids unique |
| `Catalog.PatchPriceOnly` | back/src/routes/products.ts:239-245 | a PATCH whose body carries only a price, with any id, changes that price on the first match and nothing else in the catalog |
| `Catalog.PatchIdempotent` | back/src/routes/products.ts:240-245 | applying the same PATCH twice gives the same reply and catalog as applying it once |
| `Catalog.PutEqualsPatchIff` | back/src/routes/products.ts:240-245 | PUT and PATCH give the same result if and only if the id is absent, or the body has no id, or the body's id is the requested one |
| `Catalog.DeleteThenFind` | back/src/routes/products.ts:275-280 | with unique ids, no product with the id remains after DELETE |
| `Catalog.DeleteKeepsUniqueIds` | back/src/routes/products.ts:275-280 | DELETE keeps unique ids unique |
| `ProductRoutes.ProductRouter.constructor` | back/src/routes/products.ts:7-13 | the router starts from the products of the data file |
| `ProductRoutes.ProductRouter.GetAll` | back/src/routes/products.ts:69-76 | GET / answers the whole file, or a storage failure when the read fails |
| `ProductRoutes.ProductRouter.GetById` | back/src/routes/products.ts:101-113 | GET /:id answers the first product with that id, `NotFound` when none has it, or a storage failure when the read fails |
| `ProductRoutes.ProductRouter.Post` | back/src/routes/products.ts:137-150 | with both read and write succeeding, the reply and the new file are `Catalog.Create`'s; otherwise a storage failure and the file unchanged |
| `ProductRoutes.ProductRouter.Put` | back/src/routes/products.ts:183-197 | a failed read gives a storage failure; an absent id gives `NotFound` with no write; otherwise the reply and file are `Catalog.Put`'s, or a storage failure with the file unchanged when the write fails |
| `ProductRoutes.ProductRouter.Patch` | back/src/routes/products.ts:230-251 | the same cases as PUT, with `Catalog.Patch` |
| `ProductRoutes.ProductRouter.Delete` | back/src/routes/products.ts:272-286 | the same cases as PUT, with `Catalog.Delete` and an empty reply |
| `Cart.IndexOf` | front/src/app/products/data-access/cart.service.ts:35 | the index is the first item of the product, and -1 exactly when the cart has none |
| `Cart.Count` | front/src/app/products/data-access/cart.service.ts:67-69 | the item count of a cart whose quantities are all at least one is at least its number of items |
| `Cart.Total` | front/src/app/products/data-access/cart.service.ts:63-65 | the total of a cart with non-negative prices and quantities is non-negative |
| `Cart.AddItem` | front/src/app/products/data-access/cart.service.ts:33-43 | a product not yet in the cart is appended with quantity 1 after the unchanged items. Otherwise the length stays, the first item of the product gains one unit, and every other item is unchanged |
| `Cart.Without` | front/src/app/products/data-access/cart.service.ts:45-48 | no item of the product remains, the cart does not grow, and an absent product leaves the cart unchanged |
| `Cart.WithoutMembers` | front/src/app/products/data-access/cart.service.ts:45-48 | every remaining item was in the cart, and every item of another product remains |
| `Cart.SetQuantity` | front/src/app/products/data-access/cart.service.ts:51-56 | the length and order stay. Every item of the product gets the new quantity, even one of zero or less, and every other item is unchanged |
| `Cart.CountUpdate` | front/src/app/products/data-access/cart.service.ts:67-69 | changing one item changes the item count by the difference of its quantities |
| `Cart.AddItemCount` | front/src/app/products/data-access/cart.service.ts:33-43 | every `addToCart`, on either branch, raises the item count by exactly one |
| `Cart.AddTwiceMakesQuantityTwo` | front/src/app/products/data-access/cart.service.ts:35-41 | adding a new product twice gives a single item with quantity 2 after the unchanged items |
| `Cart.AddItemKeepsDistinct` | front/src/app/products/data-access/cart.service.ts:33-43 | `addToCart` keeps the cart's product ids distinct |
| `Cart.AddItemKeepsPositive` | front/src/app/products/data-access/cart.service.ts:33-43 | `addToCart` keeps every quantity at least one |
| `Cart.WithoutAppend` | front/src/app/products/data-access/cart.service.ts:47 | the filter of a concatenation is the concatenation of the filters, so the remaining items keep their order |
| `Cart.WithoutSingleItem` | front/src/app/products/data-access/cart.service.ts:45-48 | when exactly one item belongs to the product, removing it gives the cart without that item, the others in their old order |
| `Cart.WithoutIsSplice` | front/src/app/products/data-access/cart.service.ts:45-48 | with distinct ids, removing a present product gives exactly the cart without that one item, the others in their old order |
| `Cart.WithoutKeepsDistinct` | front/src/app/products/data-access/cart.service.ts:45-48 | `removeFromCart` keeps product ids distinct |
| `Cart.WithoutKeepsPositive` | front/src/app/products/data-access/cart.service.ts:45-48 | `removeFromCart` keeps every quantity at least one |
| `Cart.SetQuantityKeepsDistinct` | front/src/app/products/data-access/cart.service.ts:51-56 | `updateCartItemQuantity` keeps product ids distinct |
| `Cart.SetQuantityKeepsPositive` | front/src/app/products/data-access/cart.service.ts:51-56 | `updateCartItemQuantity` with a quantity of at least one keeps every quantity at least one |
| `Cart.SetQuantityCanEmptyAnItem` | front/src/app/products/data-access/cart.service.ts:51-56 | `updateCartItemQuantity` with zero or less keeps the item in the cart, with a quantity below one |
| `Cart.TotalOfTwoItems` | front/src/app/products/data-access/cart.service.ts:63-65 | items at 10 x 2 and 5 x 3 total 35 |
| `Cart.CartService.constructor` | front/src/app/products/data-access/cart.service.ts:17-26 | the service publishes the stored cart if there is one, else the empty cart |
| `Cart.CartService.SaveCart` | front/src/app/products/data-access/cart.service.ts:28-31 | the given cart becomes both the stored and the published cart |
| `Cart.CartService.AddToCart` | front/src/app/products/data-access/cart.service.ts:33-43 | the published cart becomes `AddItem` of the old one, and the stored copy equals it |
| `Cart.CartService.RemoveFromCart` | front/src/app/products/data-access/cart.service.ts:45-49 | the published cart becomes `Without` of the old one, and the stored copy equals it |
| `Cart.CartService.UpdateCartItemQuantity` | front/src/app/products/data-access/cart.service.ts:51-57 | the published cart becomes `SetQuantity` of the old one, and the stored copy equals it |
| `Cart.CartService.ClearCart` | front/src/app/products/data-access/cart.service.ts:59-61 | the cart becomes empty in both places, with total 0 and item count 0 |
| `Cart.CartService.GetTotal` | front/src/app/products/data-access/cart.service.ts:63-65 | the total of the published cart is 0 when it is empty and non-negative when prices and quantities are |
| `Cart.CartService.GetCartItemsCount` | front/src/app/products/data-access/cart.service.ts:67-69 | the count of the published cart is 0 when it is empty and at least its number of items when every quantity is at least one |
| `CartView.ApplyQuantity` | front/src/app/products/features/cart/cart.component.ts:31-37 | a positive quantity keeps the length and sets it on every item of the product, leaving others unchanged; zero or less removes every item of the product and keeps every other item |
| `CartView.ApplyQuantityKeepsConsistent` | front/src/app/products/features/cart/cart.component.ts:31-37 | the page's quantity rule keeps ids distinct and quantities at least one |
| `CartView.Apply` | front/src/app/products/features/cart/cart.component.ts:27-51 | after adding a product (the service's `addToCart`, cart.service.ts:33-43, which the product list calls) the cart holds it; after removing it, or typing a quantity of 0 or less, the cart holds none of it; unparsable input changes nothing; clearing empties the cart |
| `CartView.Run` | front/src/app/products/features/cart/cart.component.ts:27-51 | whatever came before, a run of actions that ends with clearing leaves the cart empty, and one that ends with removing a product leaves none of it |
| `CartView.ApplyKeepsConsistent` | front/src/app/products/features/cart/cart.component.ts:27-51 | adding, typing a quantity, removing and clearing each keep ids distinct and quantities at least one |
| `CartView.RunKeepsConsistent` | front/src/app/products/features/cart/cart.component.ts:27-51 | any sequence of those actions keeps ids distinct and quantities at least one |
| `CartView.ZeroThenRemoveLeavesNoItem` | front/src/app/products/data-access/cart.service.ts:45-56 | setting a quantity to 0 through the service and then removing the product leaves no item of it |
| `CartView.ProductCartComponent.constructor` | front/src/app/products/features/cart/cart.component.ts:17-19 | the page starts with no items shown and no subscription |
| `CartView.ProductCartComponent.NgOnInit` | front/src/app/products/features/cart/cart.component.ts:21-25 | after subscribing, the page shows the service's current cart |
| `CartView.ProductCartComponent.Refresh` | front/src/app/products/features/cart/cart.component.ts:22-24 | a subscribed page is shown the cart just published; a page not yet subscribed keeps showing what it showed |
| `CartView.ProductCartComponent.RemoveFromCart` | front/src/app/products/features/cart/cart.component.ts:27-29 | the service's cart becomes `Without` of the old one, stored, and shown once `ngOnInit` has subscribed the page |
| `CartView.ProductCartComponent.UpdateQuantity` | front/src/app/products/features/cart/cart.component.ts:31-37 | the service's cart becomes `ApplyQuantity` of the old one, stored, and shown once `ngOnInit` has subscribed the page |
| `CartView.ProductCartComponent.HandleQuantityChange` | front/src/app/products/features/cart/cart.component.ts:39-47 | unparsable input changes nothing; parsed input acts exactly as `updateQuantity` |
| `CartView.ProductCartComponent.ClearCart` | front/src/app/products/features/cart/cart.component.ts:49-51 | the service's cart becomes empty, stored, and shown once `ngOnInit` has subscribed the page |
| `CartView.ProductCartComponent.Total` | front/src/app/products/features/cart/cart.component.ts:53-55 | once subscribed, the `total` getter is the total of the cart the page shows |

## Left out

- Reading and writing the data file, and JSON parsing and printing
  (`readData`, `writeData`, products.ts:10-18), are not modelled. They become
  the `file` field and the two outcomes of `ProductRoutes.Storage`. A failed
  write is taken to leave the file as it was.
- Express plumbing is not modelled: status codes, `res.json`, and the parsing
  of the path id by `parseInt`. The id is an `int`; a path id that parses to
  NaN matches no product and gets a 404, which the model cannot express.
- Request bodies are restricted to the product fields with their declared
  types. Unknown keys, values of the wrong type, and `null` values are not
  modelled; the code does not validate bodies either.
- Concurrent requests are not modelled, so neither are the lost updates of
  two interleaved read-modify-write cycles.
- Prices, ratings and totals are exact reals, and quantities are integers.
  JavaScript's floating-point numbers are not modelled.
- `localStorage` and its JSON are abstracted away: `CartService.stored` holds
  the already-parsed cart, and `None` stands for an absent or empty key.
  Stored text that does not parse is not modelled.
- The `BehaviorSubject` broadcast is abstracted: the published snapshot is
  `CartService.items`. The one subscriber modelled is the cart page. Once
  `ngOnInit` has run (`subscribed`), the page copies each new cart into
  `cartItems` right after its own service call. Before that, `cartItems`
  stays as it was, `[]` from the constructor.
- `ProductCartComponent.Subscribed`: the model assumes only this page changes
  the cart. A change made elsewhere, such as the product list's `addToCart`,
  would reach a subscribed page through the subject. The model does not
  deliver it, so it breaks `Subscribed()` until the page's next action.
- At cart.service.ts:38, `addToCart` raises the quantity in place, on an
  object the previous snapshot shares. The model works on values, so this
  aliasing is not captured.
- Reading the input box (`event.target`, `parseInt(value, 10)`) is not
  modelled. The method receives its result as an `Option<int>`.
- `front/src/app/products/data-access/product.model.ts` is not part of this
  model. The cart uses the product shape of `back/src/models/product.ts`.
- Server set-up, API documentation, routing tables, the app shell, the
  contact form and the Postman scripts are outside the modelled core.
