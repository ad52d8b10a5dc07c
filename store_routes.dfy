/** The store endpoints: creating and deleting stores and warehouses, and
    listing the addresses that fit a shipping method. */
module StoreRoutes {
  import opened Wrappers
  import opened Models
  import opened Repository
  import opened Tables

  const StoreDeleted: string := "Delete store successfully!"

  /** `create_store`: insert the store built from the request. */
  method CreateStore(stores: Table<Id, Store>, data: StoreBase, newId: Id, now: Time)
    returns (r: Result<Store>)
    requires StoreTable(stores)
    modifies stores
    ensures StoreTable(stores)
    ensures HasKey(old(stores.rows), StoreKey, newId) ==>
              r == Err(HttpError(400, CreateFailed)) && stores.rows == old(stores.rows)
    ensures !HasKey(old(stores.rows), StoreKey, newId) ==>
              var s := Store(newId, now, data.name, data.address, data.isStore);
              r == Ok(s) && stores.rows == old(stores.rows) + [s]
  {
    r := stores.Create(Store(newId, now, data.name, data.address, data.isStore));
  }

  /** Which kind of location a shipping method lists: stores for "pickup",
      warehouses for anything else. */
  function WantsStores(shippingMethod: string): bool {
    shippingMethod == Pickup
  }

  /** `list_store_address`: the addresses of the locations of the wanted kind,
      in storage order. */
  function ListStoreAddress(stores: seq<Store>, shippingMethod: string): (r: seq<string>)
    ensures |r| <= |stores|
    ensures forall a :: a in r <==>
              exists s :: s in stores && s.isStore == WantsStores(shippingMethod) && s.address == a
  {
    if stores == [] then []
    else
      var rest := ListStoreAddress(stores[1..], shippingMethod);
      assert forall x :: x in stores <==> x == stores[0] || x in stores[1..];
      (if stores[0].isStore == WantsStores(shippingMethod) then [stores[0].address] else []) + rest
  }

  /** Every location is listed for exactly one of the two kinds of request. */
  lemma {:induction false} AddressListsSplitLocations(stores: seq<Store>, other: string)
    requires other != Pickup
    ensures |ListStoreAddress(stores, Pickup)| + |ListStoreAddress(stores, other)| == |stores|
  {
    if stores != [] {
      AddressListsSplitLocations(stores[1..], other);
    }
  }

  /** Every method other than "pickup", known or not, lists the same addresses. */
  lemma {:induction false} NonPickupMethodsAgree(stores: seq<Store>, m1: string, m2: string)
    requires m1 != Pickup && m2 != Pickup
    ensures ListStoreAddress(stores, m1) == ListStoreAddress(stores, m2)
  {
    if stores != [] {
      NonPickupMethodsAgree(stores[1..], m1, m2);
    }
  }

  /** `delete_store`: `get_by_id` (404 when missing), then `delete`.  No
      foreign key refers to stores, so the delete always commits. */
  method DeleteStore(stores: Table<Id, Store>, storeId: Id) returns (r: Result<string>)
    requires StoreTable(stores)
    modifies stores
    ensures StoreTable(stores)
    ensures !HasKey(old(stores.rows), StoreKey, storeId) ==>
              r == Err(HttpError(404, NoRecord(storeId))) && stores.rows == old(stores.rows)
    ensures HasKey(old(stores.rows), StoreKey, storeId) ==>
              r == Ok(StoreDeleted) && |stores.rows| == |old(stores.rows)| - 1 &&
              forall s :: s in stores.rows <==> s in old(stores.rows) && s.id != storeId
  {
    var found := stores.GetById(storeId);
    if found.Err? {
      return Err(found.error);
    }
    RemoveKeyedRow(stores.rows, StoreKey, storeId, IndexOfKey(stores.rows, StoreKey, storeId).value);
    var _ := stores.Delete(storeId, false);
    r := Ok(StoreDeleted);
  }
}
