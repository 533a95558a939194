/** The in-memory menu-item collection of the service and the logic of its
    five routes: list, get by id, create, update and delete. */
module Menu {
  import opened JsValues

  datatype Option<T> = None | Some(value: T)

  /** A stored record. Create checks only that `name` is truthy and `price`
      is a number, and update checks nothing, so `name`, `description`,
      `price` and `category` can hold any JSON value other than `undefined`. */
  datatype MenuItem = MenuItem(
    id: int,
    name: JsValue,
    description: JsValue,
    price: JsValue,
    category: JsValue,
    ingredients: seq<JsValue>,
    available: bool)

  /** The six keys a create or update body is destructured into. */
  datatype Payload = Payload(
    name: JsValue,
    description: JsValue,
    price: JsValue,
    category: JsValue,
    ingredients: JsValue,
    available: JsValue)

  /** The `:id` path segment after `parseInt(_, 10)`; `NaN` matches no item. */
  datatype PathId = Parsed(n: int) | NaN

  /** What a handler answers; `Status` gives the HTTP status code. */
  datatype Response =
    | Ok(item: MenuItem)
    | Created(item: MenuItem)
    | Removed(item: MenuItem)
    | NotFound
    | InvalidPayload
  {
    function Status(): (code: int)
      ensures code == 201 <==> Created?
      ensures code == 404 <==> NotFound?
      ensures code == 400 <==> InvalidPayload?
      ensures code == 200 <==> (Ok? || Removed?)
    {
      match this
      case Ok(_) => 200
      case Created(_) => 201
      case Removed(_) => 200
      case NotFound => 404
      case InvalidPayload => 400
    }
  }

  const NotFoundMessage: string := "Menu item not found"
  const InvalidPayloadMessage: string := "Invalid payload: `name` and numeric `price` required"
  const RemovedMessage: string := "Menu item removed"

  const EmptyPayload: Payload := Payload(Absent, Absent, Absent, Absent, Absent, Absent)

  /** `mi.id === id`: strict equality, which a `NaN` id never satisfies. */
  predicate Matches(m: MenuItem, id: PathId) {
    id.Parsed? && m.id == id.n
  }

  /** None of the fields a client supplies holds `undefined`. */
  predicate NoUndefinedFields(m: MenuItem) {
    !m.name.Absent? && !m.description.Absent? && !m.price.Absent? && !m.category.Absent?
  }

  /** Every id is positive and ids strictly increase along the collection:
      no two items share an id, and listing order is creation order. */
  predicate IdsValid(s: seq<MenuItem>) {
    (forall i :: 0 <= i < |s| ==> s[i].id > 0) &&
    (forall i, j :: 0 <= i < j < |s| ==> s[i].id < s[j].id)
  }

  /** `findIndex(mi => mi.id === id)`: the position of the first matching
      item, `None` where JavaScript answers -1. */
  function FindIndex(s: seq<MenuItem>, id: PathId): (r: Option<nat>)
    ensures r.Some? ==> r.value < |s| && Matches(s[r.value], id)
    ensures r.Some? ==> forall j :: 0 <= j < r.value ==> !Matches(s[j], id)
    ensures r.None? <==> forall j :: 0 <= j < |s| ==> !Matches(s[j], id)
  {
    if s == [] then None
    else if Matches(s[0], id) then Some(0)
    else match FindIndex(s[1..], id)
      case None => None
      case Some(k) => Some(k + 1)
  }

  /** `s.reduce((max, it) => Math.max(max, it.id), acc)`. */
  function MaxIdFrom(acc: int, s: seq<MenuItem>): (r: int)
    ensures acc <= r
    ensures forall i :: 0 <= i < |s| ==> s[i].id <= r
    ensures r == acc || exists i :: 0 <= i < |s| && s[i].id == r
    decreases |s|
  {
    if s == [] then acc
    else
      MaxIdFrom(if s[0].id > acc then s[0].id else acc, s[1..])
  }

  /** The create body is accepted when `name` is truthy and `price` is a number. */
  predicate ValidPayload(p: Payload)
    ensures ValidPayload(p) <==>
              p.name !in {Absent, Null, Bool(false), Num(0.0), Str("")} && p.price.Num?
  {
    Truthy(p.name) && p.price.Num?
  }

  /** The record create appends: the given id, the required fields as sent,
      and the defaults for the optional ones. */
  function NewItem(p: Payload, id: int): (m: MenuItem)
    ensures m.id == id && m.name == p.name && m.price == p.price
    ensures Truthy(p.description) ==> m.description == p.description
    ensures !Truthy(p.description) ==> m.description == Str("")
    ensures Truthy(p.category) ==> m.category == p.category
    ensures !Truthy(p.category) ==> m.category == Str("entree")
    ensures p.ingredients.Arr? ==> m.ingredients == p.ingredients.elems
    ensures !p.ingredients.Arr? ==> m.ingredients == []
    ensures p.available.Absent? ==> m.available
    ensures !p.available.Absent? ==> m.available == Truthy(p.available)
    ensures Truthy(m.category)
    ensures ValidPayload(p) ==> NoUndefinedFields(m)
  {
    MenuItem(
      id,
      p.name,
      OrElse(p.description, Str("")),
      p.price,
      OrElse(p.category, Str("entree")),
      if p.ingredients.Arr? then p.ingredients.elems else [],
      if p.available.Absent? then true else Truthy(p.available))
  }

  /** `sent !== undefined ? sent : kept`: one of the two, and never
      `undefined` when the kept value is not. */
  function Pick(sent: JsValue, kept: JsValue): (v: JsValue)
    ensures v == sent || v == kept
    ensures !kept.Absent? ==> !v.Absent?
  {
    if !sent.Absent? then sent else kept
  }

  /** The record update writes back: `{...current, field: sent !== undefined ? sent : current.field, ...}`. */
  function Merge(current: MenuItem, p: Payload): (m: MenuItem)
    ensures m.id == current.id
    ensures !p.name.Absent? ==> m.name == p.name
    ensures p.name.Absent? ==> m.name == current.name
    ensures !p.description.Absent? ==> m.description == p.description
    ensures p.description.Absent? ==> m.description == current.description
    ensures !p.price.Absent? ==> m.price == p.price
    ensures p.price.Absent? ==> m.price == current.price
    ensures !p.category.Absent? ==> m.category == p.category
    ensures p.category.Absent? ==> m.category == current.category
    ensures p.ingredients.Arr? ==> m.ingredients == p.ingredients.elems
    ensures !p.ingredients.Arr? ==> m.ingredients == current.ingredients
    ensures !p.available.Absent? ==> m.available == Truthy(p.available)
    ensures p.available.Absent? ==> m.available == current.available
    ensures NoUndefinedFields(current) ==> NoUndefinedFields(m)
  {
    MenuItem(
      current.id,
      Pick(p.name, current.name),
      Pick(p.description, current.description),
      Pick(p.price, current.price),
      Pick(p.category, current.category),
      if !p.ingredients.Absent? then
        (if p.ingredients.Arr? then p.ingredients.elems else current.ingredients)
      else current.ingredients,
      if !p.available.Absent? then Truthy(p.available) else current.available)
  }

  /** `s.splice(k, 1)` seen from the array: the item at `k` is gone and the
      others keep their order. */
  function RemoveAt(s: seq<MenuItem>, k: nat): (r: seq<MenuItem>)
    requires k < |s|
    ensures |r| == |s| - 1
    ensures forall j :: 0 <= j < k ==> r[j] == s[j]
    ensures forall j :: k <= j < |r| ==> r[j] == s[j + 1]
    ensures multiset(r) + multiset{s[k]} == multiset(s)
  {
    assert s == s[..k] + [s[k]] + s[k + 1..];
    s[..k] + s[k + 1..]
  }

  /** The six items the process starts with. */
  function SeedItems(): seq<MenuItem> {
    [ MenuItem(1, Str("Classic Burger"),
        Str("Beef patty with lettuce, tomato, and cheese on a sesame seed bun"), Num(12.99),
        Str("entree"), [Str("beef"), Str("lettuce"), Str("tomato"), Str("cheese"), Str("bun")], true),
      MenuItem(2, Str("Chicken Caesar Salad"),
        Str("Grilled chicken breast over romaine lettuce with parmesan and croutons"), Num(11.50),
        Str("entree"), [Str("chicken"), Str("romaine lettuce"), Str("parmesan cheese"), Str("croutons"),
        Str("caesar dressing")], true),
      MenuItem(3, Str("Mozzarella Sticks"),
        Str("Crispy breaded mozzarella served with marinara sauce"), Num(8.99),
        Str("appetizer"), [Str("mozzarella cheese"), Str("breadcrumbs"), Str("marinara sauce")], true),
      MenuItem(4, Str("Chocolate Lava Cake"),
        Str("Warm chocolate cake with molten center, served with vanilla ice cream"), Num(7.99),
        Str("dessert"), [Str("chocolate"), Str("flour"), Str("eggs"), Str("butter"), Str("vanilla ice cream")], true),
      MenuItem(5, Str("Fresh Lemonade"),
        Str("House-made lemonade with fresh lemons and mint"), Num(3.99),
        Str("beverage"), [Str("lemons"), Str("sugar"), Str("water"), Str("mint")], true),
      MenuItem(6, Str("Fish and Chips"),
        Str("Beer-battered cod with seasoned fries and coleslaw"), Num(14.99),
        Str("entree"), [Str("cod"), Str("beer batter"), Str("potatoes"), Str("coleslaw"), Str("tartar sauce")], false)
    ]
  }

  /** Six items with ids 1 to 6, in order: the ids of the seed collection. */
  predicate SeedShaped(s: seq<MenuItem>) {
    |s| == 6 && forall k :: 0 <= k < 6 ==> s[k].id == k + 1
  }

  /** The seed has the seed's ids, which satisfy the id invariant. */
  lemma SeedIds()
    ensures SeedShaped(SeedItems())
    ensures IdsValid(SeedItems())
  {
  }

  /** No seed item has an `undefined` name, description, price or category. */
  lemma SeedFieldsDefined()
    ensures forall i :: 0 <= i < |SeedItems()| ==> NoUndefinedFields(SeedItems()[i])
  {
  }

  // ---------------------------------------------------------------------
  // Properties of the pieces the handlers are built from
  // ---------------------------------------------------------------------

  /** With unique ids, looking up an item's own id finds exactly that item. */
  lemma UniqueIdFound(s: seq<MenuItem>, k: nat)
    requires IdsValid(s) && k < |s|
    ensures FindIndex(s, Parsed(s[k].id)) == Some(k)
  {
  }

  /** After removing an item from a collection with unique ids, its id is
      found nowhere. */
  lemma RemovedIdAbsent(s: seq<MenuItem>, k: nat)
    requires IdsValid(s) && k < |s|
    ensures FindIndex(RemoveAt(s, k), Parsed(s[k].id)).None?
  {
  }

  /** Appending an item whose id exceeds every existing one keeps ids valid. */
  lemma AppendKeepsIdsValid(s: seq<MenuItem>, m: MenuItem)
    requires IdsValid(s)
    requires m.id > 0 && forall i :: 0 <= i < |s| ==> s[i].id < m.id
    ensures IdsValid(s + [m])
  {
  }

  /** Under the id invariant the largest id is the last one, so a create
      numbers its item one past the most recently listed id. */
  lemma MaxIdIsLast(s: seq<MenuItem>)
    requires IdsValid(s) && |s| > 0
    ensures MaxIdFrom(0, s) == s[|s| - 1].id
  {
    var last := |s| - 1;
    // The fold is at least the last id, which is positive, so it is some item's id ...
    assert 0 < s[last].id <= MaxIdFrom(0, s);
    var i :| 0 <= i < |s| && s[i].id == MaxIdFrom(0, s);
    // ... and no id exceeds the last one.
    assert i == last || s[i].id < s[last].id;
  }

  /** Deleting the item a create has just appended gives back the collection
      as it was before the create. */
  lemma DeleteUndoesCreate(s: seq<MenuItem>, m: MenuItem)
    requires IdsValid(s + [m])
    ensures FindIndex(s + [m], Parsed(m.id)) == Some(|s|)
    ensures RemoveAt(s + [m], |s|) == s
  {
  }

  /** Replacing an item by one with the same id keeps ids valid. */
  lemma ReplaceKeepsIdsValid(s: seq<MenuItem>, k: nat, m: MenuItem)
    requires IdsValid(s) && k < |s| && m.id == s[k].id
    ensures IdsValid(s[k := m])
  {
  }

  /** Removing an item keeps ids valid. */
  lemma RemoveKeepsIdsValid(s: seq<MenuItem>, k: nat)
    requires IdsValid(s) && k < |s|
    ensures IdsValid(RemoveAt(s, k))
  {
  }

  /** An update whose body carries none of the six keys changes nothing. */
  lemma MergeEmptyPayload(current: MenuItem)
    ensures Merge(current, EmptyPayload) == current
  {
  }

  /** Sending the same update twice has the effect of sending it once. */
  lemma MergeIdempotent(current: MenuItem, p: Payload)
    ensures Merge(Merge(current, p), p) == Merge(current, p)
  {
  }

  /** An update carrying only `price` changes the price and nothing else. */
  lemma MergePriceOnly(current: MenuItem, price: JsValue)
    requires !price.Absent?
    ensures Merge(current, EmptyPayload.(price := price)) == current.(price := price)
  {
  }

  /** An update whose `ingredients` is present but not an array keeps the
      stored ingredients. */
  lemma MergeRejectsNonArrayIngredients(current: MenuItem, v: JsValue)
    requires !v.Arr?
    ensures Merge(current, EmptyPayload.(ingredients := v)) == current
  {
  }

  // ---------------------------------------------------------------------
  // The store
  // ---------------------------------------------------------------------

  /** The process-wide `menuItems` array and the route handlers over it. */
  class MenuStore {
    var items: seq<MenuItem>

    ghost predicate Valid()
      reads this
    {
      IdsValid(items) && forall i :: 0 <= i < |items| ==> NoUndefinedFields(items[i])
    }

    /** The collection as the process starts. */
    constructor ()
      ensures items == SeedItems() && Valid()
    {
      items := SeedItems();
      SeedIds();
      SeedFieldsDefined();
    }

    /** GET /api/menu: every item, in insertion order. */
    function List(): (r: seq<MenuItem>)
      reads this
      ensures r == items
      ensures Valid() ==> IdsValid(r)
    {
      items
    }

    /** GET /api/menu/:id: the first item with that id, or NotFound. */
    function Get(id: PathId): (r: Response)
      reads this
      ensures r.Ok? || r.NotFound?
      ensures r.NotFound? <==> forall j :: 0 <= j < |items| ==> !Matches(items[j], id)
      ensures r.Ok? ==> exists k :: 0 <= k < |items| && r.item == items[k] && Matches(items[k], id) &&
                          forall j :: 0 <= j < k ==> !Matches(items[j], id)
    {
      match FindIndex(items, id)
      case None => NotFound
      case Some(k) => Ok(items[k])
    }

    /** POST /api/menu. */
    method Create(p: Payload) returns (r: Response)
      requires Valid()
      modifies this
      ensures Valid()
      ensures r.Created? <==> ValidPayload(p)
      ensures !ValidPayload(p) ==> r == InvalidPayload && items == old(items)
      ensures ValidPayload(p) ==> r.item == NewItem(p, MaxIdFrom(0, old(items)) + 1)
      ensures ValidPayload(p) ==> items == old(items) + [r.item]
      ensures ValidPayload(p) ==> forall i :: 0 <= i < |old(items)| ==> old(items)[i].id < r.item.id
      ensures ValidPayload(p) ==> Get(Parsed(r.item.id)) == Ok(r.item)
    {
      if !ValidPayload(p) {
        return InvalidPayload;
      }
      var maxId := MaxIdFrom(0, items);
      var newItem := NewItem(p, maxId + 1);
      AppendKeepsIdsValid(items, newItem);
      items := items + [newItem];
      UniqueIdFound(items, |items| - 1);
      r := Created(newItem);
    }

    /** PUT /api/menu/:id. */
    method Update(id: PathId, p: Payload) returns (r: Response)
      requires Valid()
      modifies this
      ensures Valid()
      ensures r.Ok? || r.NotFound?
      ensures FindIndex(old(items), id).None? ==> r == NotFound && items == old(items)
      ensures FindIndex(old(items), id).Some? ==>
                var k := FindIndex(old(items), id).value;
                r == Ok(Merge(old(items)[k], p)) && items == old(items)[k := r.item]
      ensures r.Ok? ==> Get(id) == r
      ensures p == EmptyPayload ==> items == old(items)
    {
      var index := FindIndex(items, id);
      if index.None? {
        return NotFound;
      }
      var k := index.value;
      var updated := Merge(items[k], p);
      ReplaceKeepsIdsValid(items, k, updated);
      items := items[k := updated];
      UniqueIdFound(items, k);
      MergeEmptyPayload(old(items)[k]);
      r := Ok(updated);
    }

    /** DELETE /api/menu/:id. */
    method Delete(id: PathId) returns (r: Response)
      requires Valid()
      modifies this
      ensures Valid()
      ensures r.Removed? || r.NotFound?
      ensures FindIndex(old(items), id).None? ==> r == NotFound && items == old(items)
      ensures FindIndex(old(items), id).Some? ==>
                var k := FindIndex(old(items), id).value;
                r == Removed(old(items)[k]) && items == RemoveAt(old(items), k)
      ensures r.Removed? ==> |items| == |old(items)| - 1 && Get(id) == NotFound
    {
      var index := FindIndex(items, id);
      if index.None? {
        return NotFound;
      }
      var k := index.value;
      var removed := items[k];
      RemoveKeepsIdsValid(items, k);
      RemovedIdAbsent(items, k);
      items := RemoveAt(items, k);
      r := Removed(removed);
    }
  }
}
