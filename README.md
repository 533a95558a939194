# Menu-item store

A Dafny model of the menu service in `server.js`: a process-wide, ordered
collection of menu items (seeded with six dishes) and the five REST handlers
over it — list, get by id, create, update and delete.

- `js_values.dfy` (module `JsValues`): the JSON values a request body can
  carry, with `Absent` standing for a key the body lacks (`undefined`), and
  JavaScript truthiness (`!!v`, `v || fallback`).
- `menu_store.dfy` (module `Menu`): the `MenuItem` record, the destructured
  body (`Payload`), the parsed path id (`PathId`, whose `NaN` case matches
  nothing), the handler outcome (`Response`, with its HTTP status), the pure
  pieces the handlers are built from (`findIndex`, the max-id `reduce`, the
  defaults of create, the field merge of update, `splice`) and the class
  `MenuStore`, whose field `items` is the `menuItems` array. Reads (`List`,
  `Get`) are functions; `Create`, `Update` and `Delete` are methods that
  reassign `items` as `push`, indexed assignment and `splice` do.
- `scenarios.dfy` (module `Scenarios`): request sequences proved from the
  handlers' contracts alone. Most run against any store holding the seed ids
  (1 to 6, in order); two run against a freshly started store.

The store invariant `Valid()` says that ids are positive and strictly increase
along the collection, and that no item's `name`, `description`, `price` or
`category` is `undefined`. Every handler keeps it, so ids stay unique and
listing order is creation order. A create takes the largest id plus one, so ids are
not reused while their holder exists. They are reused once it is gone:
deleting the item with the largest id and then creating another gives the
new item that same id (`Scenarios.IdReusedAfterDeletingNewest`).

The item fields `name`, `description`, `price` and `category` hold a
`JsValue`, not a string or number. Create checks only that `name` is truthy
and `price` is a number. Update checks nothing, so any of these four fields
can later hold any JSON value other than `undefined`, such as `null`.

## Model

| member | source | states |
|---|---|---|
| `JsValues.Truthy` | server.js:85-96 | `!v` / `!!v`: a JSON value is falsy exactly when it is `undefined`, `null`, `false`, zero or the empty string |
| `JsValues.OrElse` | server.js:92-94 | `v \|\| fallback` yields `v` exactly when `v` is truthy, else the fallback; with a truthy fallback the result is always truthy |
| `Menu.Response.Status` | server.js:78-128 | 201 exactly for a create, 404 exactly for not-found, 400 exactly for an invalid payload, 200 for a read, update or delete that succeeded |
| `Menu.FindIndex` | server.js:105 | `findIndex` with the test `mi.id === id` (`Matches`, which a `NaN` id never satisfies): a found index is in range, its item has the id, and no earlier item does; `None` (JavaScript's -1) exactly when no item has the id |
| `Menu.MaxIdFrom` | server.js:88 | the `reduce` of `Math.max` over ids from a start value: at least the start, at least every id, and equal to the start or to some item's id |
| `Menu.ValidPayload` | server.js:85 | a create body is accepted exactly when its `name` is none of `undefined`, `null`, `false`, zero and the empty string, and its `price` is a number |
| `Menu.NewItem` | server.js:89-97 | for an accepted body, none of the client-supplied fields is `undefined`; a created item has the new id, the sent name and price, `description` `""` when falsy, `category` `"entree"` when falsy (so always truthy), `ingredients` `[]` unless an array was sent, `available` true when absent and `!!available` otherwise |
| `Menu.Pick` | server.js:111-114 | `sent !== undefined ? sent : kept` is one of the two values, and is never `undefined` when the stored value is not |
| `Menu.Merge` | server.js:109-117 | update keeps `id`; `name`, `description`, `price` and `category` are replaced exactly when sent; `ingredients` only by an array; `available` becomes `!!available` exactly when sent; an item with no `undefined` field keeps none |
| `Menu.RemoveAt` | server.js:127 | `splice(k, 1)`: one item fewer, items before `k` unchanged, items after it shifted down by one in order, and the multiset loses exactly the item at `k` |
| `Menu.SeedIds` | server.js:10-65 | the seed holds six items with ids 1 to 6 in order (`SeedShaped`), so it satisfies the id invariant |
| `Menu.SeedFieldsDefined` | server.js:10-65 | every seed item carries a name, description, price and category |
| `Menu.UniqueIdFound` | server.js:77 | with valid ids, looking up an item's own id finds exactly that item's position |
| `Menu.RemovedIdAbsent` | server.js:125-127 | after removing an item from a collection with valid ids, its id matches nothing |
| `Menu.AppendKeepsIdsValid` | server.js:88-98 | appending an item with a positive id above every existing id keeps the id invariant |
| `Menu.MaxIdIsLast` | server.js:88-90 | under the id invariant the max-id fold over a non-empty collection is the last item's id, so a create numbers its item one past the last listed id |
| `Menu.DeleteUndoesCreate` | server.js:98 | deleting the id a create has just appended finds it at the end and gives back the collection as it was |
| `Menu.ReplaceKeepsIdsValid` | server.js:118 | writing back an item with the same id at its index keeps the id invariant |
| `Menu.RemoveKeepsIdsValid` | server.js:127 | removing one item keeps the id invariant |
| `Menu.MergeEmptyPayload` | server.js:109-117 | an update whose body carries none of the six keys leaves the item equal to before |
| `Menu.MergeIdempotent` | server.js:109-117 | applying the same update twice gives the same item as applying it once |
| `Menu.MergePriceOnly` | server.js:113 | an update carrying only `price` changes the price and nothing else |
| `Menu.MergeRejectsNonArrayIngredients` | server.js:115 | an update whose `ingredients` is present but not an array leaves the item unchanged |
| `Menu.MenuStore.constructor` | server.js:10-65 | the store starts with the six seed items and satisfies the store invariant |
| `Menu.MenuStore.List` | server.js:70-72 | the whole collection in stored order, whose ids are unique and ascending under the invariant |
| `Menu.MenuStore.Get` | server.js:75-80 | `Ok` with the first item whose id matches, or `NotFound` exactly when no item matches |
| `Menu.MenuStore.Create` | server.js:83-100 | `Created` exactly when the name is truthy and the price a number; otherwise `InvalidPayload` with the collection unchanged; on success the item is `NewItem` with id = largest existing id (or 0) + 1, is appended after the unchanged earlier items, has an id above all of them, is found by a later get, and the invariant holds |
| `Menu.MenuStore.Update` | server.js:103-120 | no match: `NotFound` and collection unchanged; otherwise the first match is replaced at its index by `Merge` of it with the body, every other item stays, the same item is returned and found by a later get; an empty body changes nothing; the invariant holds |
| `Menu.MenuStore.Delete` | server.js:123-129 | no match: `NotFound` and collection unchanged; otherwise the first match is returned and spliced out, the length drops by one, a later get of that id answers `NotFound`, and the invariant holds |
| `Scenarios.CreateSoup` | server.js:83-100 | on the seed ids, POST `{name: "Soup", price: 5.5}` answers 201 with `{id: 7, description: "", category: "entree", ingredients: [], available: true}` |
| `Scenarios.CreateInvalid` | server.js:85-87 | an empty name or a string price answers 400 and changes nothing |
| `Scenarios.DeleteThenGet` | server.js:123-129 | on the seed ids, DELETE 3 answers 200 with the third item and a following GET 3 answers 404 |
| `Scenarios.UpdateMissing` | server.js:103-106 | on the seed ids, PUT 99 answers 404 whatever the body, and the collection is unchanged |
| `Scenarios.UpdatePrice` | server.js:103-120 | on the seed ids, PUT 1 with `{price: 9.99}` changes only that item's price |
| `Scenarios.IdReusedAfterDeletingNewest` | server.js:88-90 | on the seed ids, deleting id 6 and then creating an item gives the new item id 6 again |
| `Scenarios.StartThenCreateSoup` | server.js:83-100 | on a freshly started store, POST `{name: "Soup", price: 5.5}` answers 201 with the item `{id: 7, name: "Soup", description: "", price: 5.5, category: "entree", ingredients: [], available: true}` |
| `Scenarios.StartThenDeleteThenGet` | server.js:123-129 | on a freshly started store, DELETE 3 answers 200 with the seed's third record (id 3, "Mozzarella Sticks") and a following GET 3 answers 404 |

## Left out

- Express setup, the JSON body-parsing middleware, `app.listen`, the port taken from the environment and console logging (server.js:1-7, 132-134): framework and I/O plumbing.
- Response serialisation: each handler's answer is a `Response` value with a status code; the error and confirmation texts are kept as constants (`NotFoundMessage`, `InvalidPayloadMessage`, `RemovedMessage`) and are not attached to the value.
- `parseInt(req.params.id, 10)`: the handlers take the id already parsed, as a `PathId` whose `NaN` case matches no item.
- Request bodies that are not JSON objects: the model takes a body that has already been destructured into the six keys. Under Express 4, a body that is an array, or missing, reads as all keys `Absent`.
- Missing bodies under Express 5: there a request without a JSON body leaves `req.body` undefined, so the destructuring (server.js:84, 108) throws and Express answers 500. The model has no such outcome, because the source does not fix the Express version.
- Floating point: JSON numbers are modelled as exact reals. Prices are only stored and copied. Numbers matter only for truthiness, where zero is falsy. Parsing overflow to `Infinity` (`1e400`) and underflow to 0 (`1e-400`, which is then falsy) are not modelled. Ids are unbounded integers, so precision loss above 2^53 is not modelled.
- Concurrency: each handler runs to completion on a single thread, so handlers are modelled as atomic method calls.
