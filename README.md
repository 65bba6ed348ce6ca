# Shopping-list engine of the medical-supply ordering backend

This project models the shopping-list engine of the MedSupply ordering backend in Dafny. It covers the line-item and
list schema, `createList`, `addItem`, `removeItem`, `lineTotal` and
`calculateTotal` from `models/ShoppingList.js`. It also covers the owner-scoped handlers of
`routes/shoppingList.routes.js`: create, list, get, add-item, remove-item,
set-status and delete.

- `shopping_list.dfy`, module `ShoppingListModel`. It holds the value types: lines, lists, the status enum, and a catalog that maps product ids to prices in cents. It also holds the pure specification functions:
  - `Total` is the reduce of `calculateTotal`.
  - `AddedItems` is merge-or-append.
  - `Without` is the filter of `removeItem`.

  The lemmas about these functions are in the same file. `ListDocument` is the in-memory Mongoose document. Its `AddItem` scans the lines the way `items.find` does, then either raises the quantity of the matching line in place or appends a new line. Its `RemoveItem` reassigns the lines.
- `shopping_list_routes.dfy`, module `ShoppingListRoutes`. `ListStore` is a class that holds a map from list id to stored list, plus a fresh-id counter. The map stands for the collection and the counter stands for ObjectId generation. Each handler is a method that runs the same steps as the source: validate the request, look the list up by (list id, requesting client), mutate it, then return a status code and body. `Save` re-checks the schema's `quantity >= 1` and writes back only a valid document, which is what Mongoose's validation on save does.

The store invariant `ListStore.Valid` holds after every handler. It requires that each stored list sits under its own id, that no two lines reference the same product, that line ids are distinct and fresh, and that every quantity is at least 1.

Three behaviours of the code that a reader might not expect; the model follows the code in each:

- When `addItem` is given an unknown product, the route catches the thrown `Error("Produit non trouvé")` and answers **500**, not 404.
- The handler rejects only a missing product id or a falsy quantity (missing or 0). A negative quantity is not rejected there. It reaches `addItem`, and schema validation on save then decides:
  - A negative quantity on a new line fails validation: the request gets 500 and nothing is stored.
  - A negative quantity on an existing line lowers that line's quantity. If the result is still at least 1, the change is stored and the request succeeds.
- Set-status checks no transition: any enum value overwrites any other.

Prices are whole numbers of cents, so totals are exact. Identifiers are natural numbers.

## Model

| member | source | states |
|---|---|---|
| `ShoppingListModel.TotalAppend` | models/ShoppingList.js:94-98 | the total of two runs of lines is the sum of their totals, so the total is the sum of the line totals in any split |
| `ShoppingListModel.TotalCons` | models/ShoppingList.js:94-98 | the total of a list is the first line's `quantity * unitPrice` plus the total of the rest |
| `ShoppingListModel.TotalAppendLine` | models/ShoppingList.js:94-98 | appending one line raises the total by exactly that line's `quantity * unitPrice` |
| `ShoppingListModel.TotalUpdate` | models/ShoppingList.js:21-23 | replacing one line changes the total by exactly the difference of the two line totals |
| `ShoppingListModel.TotalNonNegative` | models/ShoppingList.js:94-98 | with no negative quantity (as the schema's `min: 1` guarantees) the total is at least 0 |
| `ShoppingListModel.LineOf` | models/ShoppingList.js:66-68 | the line `find` returns: an index whose line has the product, with no earlier line having it |
| `ShoppingListModel.FindLine` | models/ShoppingList.js:66-68 | the linear scan answers -1 exactly when no line has the product, and otherwise the first line that has it |
| `ShoppingListModel.LineOfFirst` | models/ShoppingList.js:66-68 | a matching line with no match before it is the line `find` returns |
| `ShoppingListModel.LineOfUnique` | models/ShoppingList.js:66-70 | with at most one line per product, `find` returns that product's only line |
| `ShoppingListModel.AddMergesExistingLine` | models/ShoppingList.js:66-71 | for a product already on the list, the line count stays the same, that line's quantity rises by exactly `quantity` with the same id and unit price, and every other line is unchanged |
| `ShoppingListModel.AddAppendsNewLine` | models/ShoppingList.js:72-78 | for a product not on the list, exactly one line is appended at the end, holding that product, that quantity and the current catalog price, and the earlier lines are unchanged |
| `ShoppingListModel.AddKeepsCapturedPrices` | models/ShoppingList.js:66-78 | every existing line keeps its id, product and captured unit price, in place |
| `ShoppingListModel.AddKeepsLinesDistinct` | models/ShoppingList.js:66-78 | addItem preserves "no two lines reference the same product" and distinct line ids |
| `ShoppingListModel.AddKeepsSchemaValid` | models/ShoppingList.js:9-13 | with a quantity of at least 1, every quantity stays at least 1 |
| `ShoppingListModel.AddTotal` | models/ShoppingList.js:66-78 | the total grows by `quantity` times the captured price: the existing line's price, or the catalog price for a new line |
| `ShoppingListModel.AddTwiceIsAddOnce` | models/ShoppingList.js:66-78 | adding `a` then `b` of a product gives the same lines and total as adding `a + b` once, even if the catalog price changed in between |
| `ShoppingListModel.WithoutMembers` | models/ShoppingList.js:86-88 | a line survives removal exactly when it was on the list and carries a different id |
| `ShoppingListModel.WithoutAppend` | models/ShoppingList.js:86-88 | removal distributes over concatenation, so the kept lines stay in their original order |
| `ShoppingListModel.WithoutAbsent` | models/ShoppingList.js:86-88 | removing an id no line carries leaves the list unchanged |
| `ShoppingListModel.WithoutIdempotent` | models/ShoppingList.js:86-88 | removing an id twice equals removing it once |
| `ShoppingListModel.WithoutOneLine` | models/ShoppingList.js:86-88 | with distinct line ids, removing line k's id drops exactly line k |
| `ShoppingListModel.WithoutOneLineTotal` | models/ShoppingList.js:94-98 | with distinct line ids, removing line k lowers the total by exactly line k's total |
| `ShoppingListModel.WithoutKeepsInvariant` | models/ShoppingList.js:85-91 | removal keeps distinct products, distinct and fresh line ids, and quantities of at least 1 |
| `ShoppingListModel.ListDocument.CreateList` | models/ShoppingList.js:46-54 | a new list is owned by the given client, has status draft and has no lines |
| `ShoppingListModel.ListDocument.AddItem` | models/ShoppingList.js:57-78 | an unknown product fails with "Produit non trouvé" and leaves the lines unchanged; otherwise the lines become the merge-or-append result at the catalog price |
| `ShoppingListModel.ListDocument.RemoveItem` | models/ShoppingList.js:85-88 | the lines become the lines whose id differs from the given id |
| `ShoppingListRoutes.NewerCount` | routes/shoppingList.routes.js:22-24 | counts the lists at the front that are strictly newer, which is where a list goes in newest-first order |
| `ShoppingListRoutes.InsertNewestFirst` | routes/shoppingList.routes.js:22-24 | inserting into a `createdAt`-descending sequence keeps it descending and adds exactly that list: the result is a permutation of the old lists plus the new one |
| `ShoppingListRoutes.SpliceNewestFirst` | routes/shoppingList.routes.js:22-24 | placing a list after the strictly newer lists and before the rest keeps the sequence `createdAt`-descending |
| `ShoppingListRoutes.InsertKeepsIdsDistinct` | routes/shoppingList.routes.js:22-24 | inserting a list with a new id keeps ids distinct and adds exactly that list |
| `ShoppingListRoutes.ListStore.Save` | models/ShoppingList.js:80 | saving validates quantity >= 1 first; a valid document is written back under its id, and an invalid one leaves the store unchanged |
| `ShoppingListRoutes.ListStore.Create` | routes/shoppingList.routes.js:7-17 | 201 with a new empty draft list owned by the requester under a fresh id; no other list changes |
| `ShoppingListRoutes.ListStore.ListOwned` | routes/shoppingList.routes.js:20-30 | 200 with exactly the requester's lists, each once, ordered by `createdAt` descending |
| `ShoppingListRoutes.ListStore.Get` | routes/shoppingList.routes.js:33-53 | 200 with the list and its `calculateTotal` when it exists and is the requester's; otherwise the same 404 whether the list is missing or foreign |
| `ShoppingListRoutes.ListStore.AddItem` | routes/shoppingList.routes.js:56-84 | missing product or falsy quantity gives 400 with the store unchanged, checked before any lookup; a missing or foreign list gives 404 with the store unchanged; an unknown product gives 500 with the store unchanged; otherwise the merge-or-append result is stored and reported with its total if every quantity is at least 1, else 500 with the store unchanged |
| `ShoppingListRoutes.ListStore.RemoveItem` | routes/shoppingList.routes.js:87-109 | 404 with the store unchanged for a missing or foreign list; otherwise only that list's lines are filtered by line id, and the response reports the updated list and its total |
| `ShoppingListRoutes.ListStore.SetStatus` | routes/shoppingList.routes.js:112-133 | 404 with the store unchanged for a missing or foreign list; otherwise only the status of that list is overwritten, with no transition check |
| `ShoppingListRoutes.ListStore.Delete` | routes/shoppingList.routes.js:136-151 | 404 with the store unchanged for a missing or foreign list; otherwise only that list is removed; afterwards the requester owns no list under that id, so a repeat answers 404 |

## Left out

- Mongoose persistence is replaced by the in-memory map of `ListStore`. This covers `find*`, `populate`, `findOneAndUpdate` and `findOneAndDelete`. `populate('items.product')` only shapes the response, so responses carry product ids, not product documents.
- The `timestamps` option and the `createdAt` default are replaced by a `now` parameter of `Create`, because the clock is an input.
- ObjectId generation is replaced by the store's `nextId` counter, which supplies both list ids and line ids.
- The JS lookup of `Product.findById` is replaced by a catalog parameter that maps product ids to prices.
- Async execution and the read-then-write race between concurrent `addItem` calls are not modelled; the model is sequential.
- Authentication is not modelled: the bearer token, `jwt.verify` and the 401 answers. Each handler receives the requesting client's id.
- 500 answers for storage failures, and for malformed ids that the database cannot cast, are not modelled.
- Prices and quantities are JS `Number`s in the source. The model uses whole cents for prices and integers for quantities, so floating-point rounding is not modelled. Non-integer, string and `NaN` quantities, and an empty-string product id, are not modelled.
- `ShoppingListRoutes.ListStore.SetStatus` takes one of the five enum values. The source's `findOneAndUpdate` runs no validators, so it would also store a status outside the enum, or receive none. Neither case is modelled.
- `ShoppingListRoutes.ListStore.ListOwned` orders lists with equal `createdAt` in an order the model leaves open, as the database does.
- `ShoppingListRoutes.ListStore.AddItem` reports a failed save with a fixed message. Mongoose's exact validation text is not modelled.
- Client accounts, password hashing, JWT issuing, the product catalog routes, the auth middleware, the server wiring and the seed script are not part of this model. They delegate to bcrypt, jsonwebtoken and the database.
- The Sequelize-based test suite under `test/` is not part of this model. It targets modules with a different checkout flow.
