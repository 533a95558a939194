/** Request sequences stated from the handlers' contracts alone: first
    against any store that holds the seed collection's ids (1 to 6, in
    order), then against a freshly started store, which `Menu.SeedIds`
    shows is such a store. */
module Scenarios {
  import opened JsValues
  import opened Menu

  /** POST {name: "Soup", price: 5.5} answers 201 with id 7 and every
      optional field at its default. */
  method CreateSoup(store: MenuStore) returns (r: Response)
    requires store.Valid() && SeedShaped(store.items)
    modifies store
    ensures r.Status() == 201
    ensures r == Created(MenuItem(7, Str("Soup"), Str(""), Num(5.5), Str("entree"), [], true))
    ensures store.items == old(store.items) + [r.item]
  {
    assert store.items[5].id == 6;
    r := store.Create(EmptyPayload.(name := Str("Soup"), price := Num(5.5)));
  }

  /** POST without a name, or with a price that is not a number, answers 400
      and leaves the collection as it was. */
  method CreateInvalid(store: MenuStore) returns (noName: Response, textPrice: Response)
    requires store.Valid()
    modifies store
    ensures noName == InvalidPayload && noName.Status() == 400
    ensures textPrice == InvalidPayload && textPrice.Status() == 400
    ensures store.items == old(store.items)
  {
    noName := store.Create(EmptyPayload.(name := Str(""), price := Num(5.5)));
    textPrice := store.Create(EmptyPayload.(name := Str("Soup"), price := Str("5.5")));
  }

  /** DELETE /api/menu/3 answers 200 with the third item, and a following
      GET /api/menu/3 answers 404. */
  method DeleteThenGet(store: MenuStore) returns (deleted: Response, fetched: Response)
    requires store.Valid() && SeedShaped(store.items)
    modifies store
    ensures deleted == Removed(old(store.items)[2]) && deleted.Status() == 200
    ensures fetched == NotFound && fetched.Status() == 404
    ensures |store.items| == 5
  {
    UniqueIdFound(store.items, 2);
    deleted := store.Delete(Parsed(3));
    fetched := store.Get(Parsed(3));
  }

  /** PUT /api/menu/99 answers 404 and leaves the collection unchanged. */
  method UpdateMissing(store: MenuStore, p: Payload) returns (r: Response)
    requires store.Valid() && SeedShaped(store.items)
    modifies store
    ensures r == NotFound && r.Status() == 404
    ensures store.items == old(store.items)
  {
    r := store.Update(Parsed(99), p);
  }

  /** PUT /api/menu/1 with {price: 9.99} changes that item's price and
      nothing else in the collection. */
  method UpdatePrice(store: MenuStore) returns (r: Response)
    requires store.Valid() && SeedShaped(store.items)
    modifies store
    ensures r == Ok(old(store.items)[0].(price := Num(9.99)))
    ensures store.items == old(store.items)[0 := r.item]
  {
    UniqueIdFound(store.items, 0);
    MergePriceOnly(store.items[0], Num(9.99));
    r := store.Update(Parsed(1), EmptyPayload.(price := Num(9.99)));
  }

  /** Ids are reused: after the item holding the largest id is deleted, the
      next create is given that same id again. */
  method IdReusedAfterDeletingNewest(store: MenuStore) returns (deleted: Response, created: Response)
    requires store.Valid() && SeedShaped(store.items)
    modifies store
    ensures deleted.Removed? && created.Created?
    ensures created.item.id == deleted.item.id == 6
  {
    UniqueIdFound(store.items, 5);
    deleted := store.Delete(Parsed(6));
    assert store.items[4].id == 5;
    created := store.Create(EmptyPayload.(name := Str("Soup"), price := Num(5.5)));
  }

  /** On a freshly started store, POST {name: "Soup", price: 5.5} answers 201
      with id 7 and every optional field at its default. */
  method StartThenCreateSoup() returns (r: Response)
    ensures r == Created(MenuItem(7, Str("Soup"), Str(""), Num(5.5), Str("entree"), [], true))
  {
    var store := new MenuStore();
    SeedIds();
    r := CreateSoup(store);
  }

  /** On a freshly started store, DELETE /api/menu/3 answers 200 with the
      Mozzarella Sticks record, and a following GET /api/menu/3 answers 404. */
  method StartThenDeleteThenGet() returns (deleted: Response, fetched: Response)
    ensures deleted == Removed(SeedItems()[2]) && deleted.Status() == 200
    ensures deleted.item.id == 3 && deleted.item.name == Str("Mozzarella Sticks")
    ensures fetched == NotFound && fetched.Status() == 404
  {
    var store := new MenuStore();
    SeedIds();
    deleted, fetched := DeleteThenGet(store);
  }
}
