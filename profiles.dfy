/** The per-account lists and the role switch of backend/controllers/userController.js: saved
    addresses, the wishlist, and an administrator changing an account's role. */
module Profiles {
  import opened Common
  import opened Lists
  import opened Accounts

  // ---------------- Role ----------------

  /** `updateUserRole`: a role other than "user" or "admin" is refused with 400; otherwise
      `findByIdAndUpdate` sets the role and the response carries the updated account, or no
      account at all when the id is unknown (still a success). */
  method UpdateUserRole(store: AccountStore, id: Id, role: string) returns (r: Result<Option<Account>>)
    modifies store
    ensures ParseRole(role).None? ==> r == Err(Status(400, "Invalid role")) && store.accounts == old(store.accounts)
    ensures ParseRole(role).Some? && id !in old(store.accounts) ==> r == Ok(None) && store.accounts == old(store.accounts)
    ensures ParseRole(role).Some? && id in old(store.accounts) ==>
      && r == Ok(Some(old(store.accounts[id]).(role := ParseRole(role).value)))
      && r.value.value.role.Name() == role
      && store.accounts == old(store.accounts)[id := r.value.value]
    ensures old(store.Valid()) ==> store.Valid()
  {
    var parsed := ParseRole(role);
    if parsed.None? {
      return Err(Status(400, "Invalid role"));
    }
    if id !in store.accounts {
      return Ok(None);
    }
    var updated := store.accounts[id].(role := parsed.value);
    store.Replace(id, updated);
    r := Ok(Some(updated));
  }

  // ---------------- Addresses ----------------

  /** The address fields of a request body; `None` is a field that was not sent. */
  datatype AddressRequest = AddressRequest(
    line1: Option<string>,
    line2: Option<string>,
    city: Option<string>,
    state: Option<string>,
    pincode: Option<string>,
    country: Option<string>,
    isDefault: Option<bool>)

  /** The address `addAddress` pushes: country "India" and `is_default` false unless sent. */
  function NewAddress(id: Id, req: AddressRequest): (a: Address)
    requires Truthy(req.line1) && Truthy(req.city) && Truthy(req.state) && Truthy(req.pincode)
    ensures a.id == id && a.line1 == req.line1.value && a.line2 == req.line2
    ensures a.city == req.city.value && a.state == req.state.value && a.pincode == req.pincode.value
    ensures req.country.None? ==> a.country == "India"
    ensures req.country.Some? ==> a.country == req.country.value
    ensures a.isDefault == (req.isDefault.Some? && req.isDefault.value)
  {
    Address(id, req.line1.value, req.line2, req.city.value, req.state.value, req.pincode.value,
            req.country.GetOr("India"), req.isDefault.GetOr(false))
  }

  /** The ids of a list of addresses, in order. */
  function AddressIds(addresses: seq<Address>): (ids: seq<Id>)
    ensures |ids| == |addresses|
    ensures forall i :: 0 <= i < |ids| ==> ids[i] == addresses[i].id
  {
    if addresses == [] then [] else [addresses[0].id] + AddressIds(addresses[1..])
  }

  /** `addAddress` for account `userId`; `addressId` is the id of the new sub-document.
      Returns the account's new address list. */
  method AddAddress(store: AccountStore, userId: Id, addressId: Id, req: AddressRequest) returns (r: Result<seq<Address>>)
    modifies store
    ensures !(Truthy(req.line1) && Truthy(req.city) && Truthy(req.state) && Truthy(req.pincode)) ==>
      r == Err(Status(400, "Missing required address fields")) && store.accounts == old(store.accounts)
    ensures Truthy(req.line1) && Truthy(req.city) && Truthy(req.state) && Truthy(req.pincode) ==>
      if userId !in old(store.accounts) then
        r == Err(Status(404, "User not found")) && store.accounts == old(store.accounts)
      else
        var before := old(store.accounts[userId]);
        && r == Ok(before.addresses + [NewAddress(addressId, req)])
        && store.accounts == old(store.accounts)[userId := before.(addresses := r.value)]
    ensures old(store.Valid()) ==> store.Valid()
  {
    if !Truthy(req.line1) || !Truthy(req.city) || !Truthy(req.state) || !Truthy(req.pincode) {
      return Err(Status(400, "Missing required address fields"));
    }
    if userId !in store.accounts {
      return Err(Status(404, "User not found"));
    }
    var user := store.accounts[userId];
    var addresses := user.addresses + [NewAddress(addressId, req)];
    store.Replace(userId, user.(addresses := addresses));
    r := Ok(addresses);
  }

  /** The field assignments of `updateAddress`: line1, city, state, pincode and country are
      overwritten only by a truthy value, line2 and `is_default` by any value that was sent. */
  function UpdatedAddress(a: Address, req: AddressRequest): Address {
    Address(
      a.id,
      if Truthy(req.line1) then req.line1.value else a.line1,
      if req.line2.Some? then req.line2 else a.line2,
      if Truthy(req.city) then req.city.value else a.city,
      if Truthy(req.state) then req.state.value else a.state,
      if Truthy(req.pincode) then req.pincode.value else a.pincode,
      if Truthy(req.country) then req.country.value else a.country,
      if req.isDefault.Some? then req.isDefault.value else a.isDefault)
  }

  /** A request that sends nothing, or only empty strings for the text fields, changes nothing. */
  lemma EmptyUpdateKeepsAddress(a: Address, req: AddressRequest)
    requires !Truthy(req.line1) && !Truthy(req.city) && !Truthy(req.state) && !Truthy(req.pincode)
    requires !Truthy(req.country) && req.line2.None? && req.isDefault.None?
    ensures UpdatedAddress(a, req) == a
  {
  }

  /** Applying the same update twice is applying it once. */
  lemma UpdateAddressIdempotent(a: Address, req: AddressRequest)
    ensures UpdatedAddress(UpdatedAddress(a, req), req) == UpdatedAddress(a, req)
  {
  }

  /** Whether address `a` has id `id`: the test `addresses.id()` applies. */
  predicate HasId(id: Id, a: Address) {
    a.id == id
  }

  /** `updateAddress`: 404 for an unknown account or address id; otherwise the first address
      with that id gets the field assignments, and the list keeps its length, order and ids. */
  method UpdateAddress(store: AccountStore, userId: Id, addressId: Id, req: AddressRequest) returns (r: Result<seq<Address>>)
    modifies store
    ensures userId !in old(store.accounts) ==> r == Err(Status(404, "User not found")) && store.accounts == old(store.accounts)
    ensures userId in old(store.accounts) ==>
      var before := old(store.accounts[userId]).addresses;
      match FirstIndex(before, a => HasId(addressId, a))
      case None => r == Err(Status(404, "Address not found")) && store.accounts == old(store.accounts)
      case Some(i) =>
        && r == Ok(before[i := UpdatedAddress(before[i], req)])
        && AddressIds(r.value) == AddressIds(before)
        && store.accounts == old(store.accounts)[userId := old(store.accounts[userId]).(addresses := r.value)]
    ensures old(store.Valid()) ==> store.Valid()
  {
    if userId !in store.accounts {
      return Err(Status(404, "User not found"));
    }
    var user := store.accounts[userId];
    var found := FirstIndex(user.addresses, a => HasId(addressId, a));
    if found.None? {
      return Err(Status(404, "Address not found"));
    }
    var i := found.value;
    var addresses := user.addresses[i := UpdatedAddress(user.addresses[i], req)];
    assert AddressIds(addresses) == AddressIds(user.addresses);
    store.Replace(userId, user.(addresses := addresses));
    r := Ok(addresses);
  }

  /** The addresses `deleteAddress` keeps: every one whose id differs, in order. */
  function WithoutAddress(addresses: seq<Address>, id: Id): (r: seq<Address>)
    ensures forall i :: 0 <= i < |r| ==> r[i].id != id
    ensures forall i :: 0 <= i < |addresses| && addresses[i].id != id ==> addresses[i] in r
    ensures exists idx :: (Picks(addresses, idx, r) &&
      forall i :: 0 <= i < |addresses| && addresses[i].id != id ==> i in idx)
  {
    var keep := a => !HasId(id, a);
    var r := Filter(addresses, keep);
    FilterOrder(addresses, keep);
    var idx := Kept(addresses, keep);
    assert Picks(addresses, idx, r);
    assert forall i :: 0 <= i < |addresses| && addresses[i].id != id ==> i in idx by {
      forall i | 0 <= i < |addresses| && addresses[i].id != id ensures i in idx {
        assert keep(addresses[i]);
      }
    }
    r
  }

  /** Deleting an id that is not in the list leaves the list as it was. */
  lemma DeleteAbsentAddress(addresses: seq<Address>, id: Id)
    requires forall i :: 0 <= i < |addresses| ==> addresses[i].id != id
    ensures WithoutAddress(addresses, id) == addresses
  {
    FilterKeepsAll(addresses, a => !HasId(id, a));
  }

  /** Adding an address under a fresh id and then deleting that id gives back the original list. */
  lemma DeleteUndoesAdd(addresses: seq<Address>, id: Id, req: AddressRequest)
    requires Truthy(req.line1) && Truthy(req.city) && Truthy(req.state) && Truthy(req.pincode)
    requires forall i :: 0 <= i < |addresses| ==> addresses[i].id != id
    ensures WithoutAddress(addresses + [NewAddress(id, req)], id) == addresses
  {
    FilterAppend(addresses, [NewAddress(id, req)], a => !HasId(id, a));
    DeleteAbsentAddress(addresses, id);
  }

  /** `deleteAddress`: 404 for an unknown account; otherwise the addresses with that id go and
      the others stay in order (an unknown address id is not an error). */
  method DeleteAddress(store: AccountStore, userId: Id, addressId: Id) returns (r: Result<seq<Address>>)
    modifies store
    ensures userId !in old(store.accounts) ==> r == Err(Status(404, "User not found")) && store.accounts == old(store.accounts)
    ensures userId in old(store.accounts) ==>
      var before := old(store.accounts[userId]);
      && r == Ok(WithoutAddress(before.addresses, addressId))
      && store.accounts == old(store.accounts)[userId := before.(addresses := r.value)]
    ensures old(store.Valid()) ==> store.Valid()
  {
    if userId !in store.accounts {
      return Err(Status(404, "User not found"));
    }
    var user := store.accounts[userId];
    var addresses := WithoutAddress(user.addresses, addressId);
    store.Replace(userId, user.(addresses := addresses));
    r := Ok(addresses);
  }

  // ---------------- Wishlist ----------------

  /** Whether wishlist entry `e` is for product `productId`. */
  predicate ForProduct(productId: Id, e: WishlistEntry) {
    e.productId == productId
  }

  /** Whether the wishlist already holds product `productId` (`wishlist.some(...)`). */
  predicate Listed(wishlist: seq<WishlistEntry>, productId: Id) {
    exists i :: 0 <= i < |wishlist| && ForProduct(productId, wishlist[i])
  }

  /** No product appears twice. */
  predicate NoDuplicates(wishlist: seq<WishlistEntry>) {
    forall i, j :: 0 <= i < j < |wishlist| ==> wishlist[i].productId != wishlist[j].productId
  }

  /** The request body of `addToWishlist`; `productId` is `None` when missing or empty. */
  datatype WishlistRequest = WishlistRequest(
    productId: Option<Id>,
    name: Option<string>,
    price: Option<int>,
    image: Option<string>)

  /** `addToWishlist`: 400 without a product id, 404 for an unknown account, 400 when the product
      is already listed; otherwise exactly one entry is appended. */
  method AddToWishlist(store: AccountStore, userId: Id, req: WishlistRequest) returns (r: Result<seq<WishlistEntry>>)
    modifies store
    ensures req.productId.None? ==> r == Err(Status(400, "Product ID is required")) && store.accounts == old(store.accounts)
    ensures req.productId.Some? && userId !in old(store.accounts) ==>
      r == Err(Status(404, "User not found")) && store.accounts == old(store.accounts)
    ensures req.productId.Some? && userId in old(store.accounts) ==>
      var before := old(store.accounts[userId]);
      if Listed(before.wishlist, req.productId.value) then
        r == Err(Status(400, "Product already in wishlist")) && store.accounts == old(store.accounts)
      else
        && r == Ok(before.wishlist + [WishlistEntry(req.productId.value, req.name, req.price, req.image)])
        && store.accounts == old(store.accounts)[userId := before.(wishlist := r.value)]
    ensures old(store.Valid()) ==> store.Valid()
  {
    if req.productId.None? {
      return Err(Status(400, "Product ID is required"));
    }
    if userId !in store.accounts {
      return Err(Status(404, "User not found"));
    }
    var user := store.accounts[userId];
    var listed := FirstIndex(user.wishlist, e => ForProduct(req.productId.value, e));
    if listed.Some? {
      return Err(Status(400, "Product already in wishlist"));
    }
    var wishlist := user.wishlist + [WishlistEntry(req.productId.value, req.name, req.price, req.image)];
    store.Replace(userId, user.(wishlist := wishlist));
    r := Ok(wishlist);
  }

  /** The duplicate check keeps every product at most once on the list. */
  lemma AddKeepsNoDuplicates(wishlist: seq<WishlistEntry>, e: WishlistEntry)
    requires NoDuplicates(wishlist) && !Listed(wishlist, e.productId)
    ensures NoDuplicates(wishlist + [e])
  {
    var w := wishlist + [e];
    forall i, j | 0 <= i < j < |w| ensures w[i].productId != w[j].productId {
      if j == |w| - 1 {
        assert !ForProduct(e.productId, wishlist[i]);
      }
    }
  }

  /** The entries `removeFromWishlist` keeps. */
  function WithoutProduct(wishlist: seq<WishlistEntry>, productId: Id): (r: seq<WishlistEntry>)
    ensures !Listed(r, productId)
    ensures forall i :: 0 <= i < |wishlist| && wishlist[i].productId != productId ==> wishlist[i] in r
    ensures exists idx :: (Picks(wishlist, idx, r) &&
      forall i :: 0 <= i < |wishlist| && wishlist[i].productId != productId ==> i in idx)
  {
    var keep := e => !ForProduct(productId, e);
    var r := Filter(wishlist, keep);
    FilterOrder(wishlist, keep);
    var idx := Kept(wishlist, keep);
    assert Picks(wishlist, idx, r);
    assert forall i :: 0 <= i < |wishlist| && wishlist[i].productId != productId ==> i in idx by {
      forall i | 0 <= i < |wishlist| && wishlist[i].productId != productId ensures i in idx {
        assert keep(wishlist[i]);
      }
    }
    r
  }

  /** Removing a product twice is removing it once. */
  lemma RemoveFromWishlistIdempotent(wishlist: seq<WishlistEntry>, productId: Id)
    ensures WithoutProduct(WithoutProduct(wishlist, productId), productId) == WithoutProduct(wishlist, productId)
  {
    FilterIdempotent(wishlist, e => !ForProduct(productId, e));
  }

  /** Adding a product that was not listed and then removing it gives back the original list. */
  lemma RemoveUndoesAdd(wishlist: seq<WishlistEntry>, e: WishlistEntry)
    requires !Listed(wishlist, e.productId)
    ensures WithoutProduct(wishlist + [e], e.productId) == wishlist
  {
    var keep := (x: WishlistEntry) => !ForProduct(e.productId, x);
    FilterAppend(wishlist, [e], keep);
    assert forall i :: 0 <= i < |wishlist| ==> keep(wishlist[i]);
    FilterKeepsAll(wishlist, keep);
  }

  /** `removeFromWishlist`: 404 for an unknown account; otherwise every entry for the product goes. */
  method RemoveFromWishlist(store: AccountStore, userId: Id, productId: Id) returns (r: Result<seq<WishlistEntry>>)
    modifies store
    ensures userId !in old(store.accounts) ==> r == Err(Status(404, "User not found")) && store.accounts == old(store.accounts)
    ensures userId in old(store.accounts) ==>
      var before := old(store.accounts[userId]);
      && r == Ok(WithoutProduct(before.wishlist, productId))
      && store.accounts == old(store.accounts)[userId := before.(wishlist := r.value)]
    ensures old(store.Valid()) ==> store.Valid()
  {
    if userId !in store.accounts {
      return Err(Status(404, "User not found"));
    }
    var user := store.accounts[userId];
    var wishlist := WithoutProduct(user.wishlist, productId);
    store.Replace(userId, user.(wishlist := wishlist));
    r := Ok(wishlist);
  }
}
