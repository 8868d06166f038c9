/** The cart handlers of backend/routes/cartRoutes.js: add or update a line, remove a product,
    clear the cart. The carts collection is a `CartStore`, a map from the owner's id to the
    cart's lines. The Cart schema itself (backend/models/Cart.js) is not part of this model, so
    no field bound is checked on save. */
module Carts {
  import opened Common
  import opened Lists

  /** One cart line: a product and the quantity the client last sent for it. */
  datatype CartItem = CartItem(product: Id, quantity: int)

  predicate IsLineOf(productId: Id, item: CartItem) {
    item.product == productId
  }

  /** Each product appears on at most one line. */
  predicate DistinctProducts(items: seq<CartItem>) {
    forall i, j :: 0 <= i < j < |items| ==> items[i].product != items[j].product
  }

  /** The add handler's upsert: the first line for the product gets the new quantity (it is set,
      not added to), and a product with no line gets a new line at the end. */
  function Upserted(items: seq<CartItem>, productId: Id, quantity: int): (r: seq<CartItem>)
    ensures FirstIndex(items, x => IsLineOf(productId, x)).Some? ==> |r| == |items|
    ensures FirstIndex(items, x => IsLineOf(productId, x)).None? ==> r == items + [CartItem(productId, quantity)]
  {
    match FirstIndex(items, x => IsLineOf(productId, x))
    case Some(i) => items[i := items[i].(quantity := quantity)]
    case None => items + [CartItem(productId, quantity)]
  }

  /** After an add, the product has exactly the quantity sent, on one line, and every other
      line is as it was. */
  lemma UpsertEffect(items: seq<CartItem>, productId: Id, quantity: int)
    requires DistinctProducts(items)
    ensures var r := Upserted(items, productId, quantity);
      && DistinctProducts(r)
      && (exists k :: 0 <= k < |r| && r[k] == CartItem(productId, quantity))
      && (forall k :: 0 <= k < |r| && r[k].product != productId ==> r[k] in items)
      && (forall k :: 0 <= k < |items| && items[k].product != productId ==> items[k] in r)
  {
    var r := Upserted(items, productId, quantity);
    match FirstIndex(items, x => IsLineOf(productId, x))
    case Some(i) =>
      assert r[i] == CartItem(productId, quantity);
      forall k | 0 <= k < |items| && items[k].product != productId
        ensures items[k] in r
      {
        assert r[k] == items[k];
      }
    case None =>
      assert r[|items|] == CartItem(productId, quantity);
      forall k | 0 <= k < |items| && items[k].product != productId
        ensures items[k] in r
      {
        assert r[k] == items[k];
      }
  }

  /** Sending the same line twice is sending it once. */
  lemma UpsertIdempotent(items: seq<CartItem>, productId: Id, quantity: int)
    ensures Upserted(Upserted(items, productId, quantity), productId, quantity) == Upserted(items, productId, quantity)
  {
    var r := Upserted(items, productId, quantity);
    match FirstIndex(items, x => IsLineOf(productId, x))
    case Some(i) =>
      assert forall k :: 0 <= k < |r| ==> r[k].product == items[k].product;
    case None =>
      assert r[|items|].product == productId;
  }

  /** The remove handler's filter: every line for the product goes, the others stay in order. */
  function WithoutProduct(items: seq<CartItem>, productId: Id): (r: seq<CartItem>)
    ensures forall k :: 0 <= k < |r| ==> r[k].product != productId
    ensures forall k :: 0 <= k < |items| && items[k].product != productId ==> items[k] in r
    ensures exists idx :: (Picks(items, idx, r) &&
      forall k :: 0 <= k < |items| && items[k].product != productId ==> k in idx)
  {
    var keep := x => !IsLineOf(productId, x);
    var r := Filter(items, keep);
    FilterOrder(items, keep);
    var idx := Kept(items, keep);
    assert Picks(items, idx, r);
    assert forall k :: 0 <= k < |items| && items[k].product != productId ==> k in idx by {
      forall k | 0 <= k < |items| && items[k].product != productId ensures k in idx {
        assert keep(items[k]);
      }
    }
    r
  }

  /** Adding a product the cart did not hold and removing it again gives back the cart. */
  lemma RemoveUndoesAdd(items: seq<CartItem>, productId: Id, quantity: int)
    requires forall k :: 0 <= k < |items| ==> items[k].product != productId
    ensures WithoutProduct(Upserted(items, productId, quantity), productId) == items
  {
    FilterAppend(items, [CartItem(productId, quantity)], x => !IsLineOf(productId, x));
    FilterKeepsAll(items, x => !IsLineOf(productId, x));
  }

  class CartStore {
    var carts: map<Id, seq<CartItem>>

    /** No cart lists a product twice. */
    ghost predicate Valid()
      reads this
    {
      forall u | u in carts :: DistinctProducts(carts[u])
    }

    constructor ()
      ensures carts == map[] && Valid()
    {
      carts := map[];
    }

    /** The lines the owner's cart holds, or none when the owner has no cart. */
    function Items(userId: Id): (r: seq<CartItem>)
      reads this
      ensures userId in carts ==> r == carts[userId]
      ensures userId !in carts ==> r == []
    {
      if userId in carts then carts[userId] else []
    }

    /** Add or update: a missing cart is created empty first, then the line is upserted. */
    method Add(userId: Id, productId: Id, quantity: int) returns (r: seq<CartItem>)
      modifies this
      ensures r == Upserted(old(Items(userId)), productId, quantity)
      ensures carts == old(carts)[userId := r]
      ensures old(Valid()) ==> Valid()
    {
      var items := Items(userId);
      var found := FirstIndex(items, x => IsLineOf(productId, x));
      if found.Some? {
        var i := found.value;
        items := items[i := items[i].(quantity := quantity)];
      } else {
        items := items + [CartItem(productId, quantity)];
      }
      if old(Valid()) {
        UpsertEffect(Items(userId), productId, quantity);
      }
      carts := carts[userId := items];
      r := items;
    }

    /** Remove: a missing cart answers with no lines and is not created; otherwise the product's
        lines are filtered out. */
    method Remove(userId: Id, productId: Id) returns (r: seq<CartItem>)
      modifies this
      ensures r == WithoutProduct(old(Items(userId)), productId)
      ensures carts == if userId in old(carts) then old(carts)[userId := r] else old(carts)
      ensures old(Valid()) ==> Valid()
    {
      if userId !in carts {
        return [];
      }
      r := WithoutProduct(carts[userId], productId);
      if old(Valid()) {
        FilterKeepsDistinct(carts[userId], productId);
      }
      carts := carts[userId := r];
    }

    /** Clear: a missing cart answers with no lines and is not created; otherwise it is emptied. */
    method Clear(userId: Id) returns (r: seq<CartItem>)
      modifies this
      ensures r == []
      ensures carts == if userId in old(carts) then old(carts)[userId := []] else old(carts)
      ensures old(Valid()) ==> Valid()
    {
      r := [];
      if userId in carts {
        carts := carts[userId := []];
      }
    }
  }

  /** Filtering keeps distinct products distinct. */
  lemma {:induction false} FilterKeepsDistinct(items: seq<CartItem>, productId: Id)
    requires DistinctProducts(items)
    ensures DistinctProducts(WithoutProduct(items, productId))
  {
    if items != [] {
      FilterKeepsDistinct(items[1..], productId);
      var rest := WithoutProduct(items[1..], productId);
      assert Filter(items, x => !IsLineOf(productId, x)) ==
        (if !IsLineOf(productId, items[0]) then [items[0]] else []) + rest;
      forall k | 0 <= k < |rest| ensures rest[k].product != items[0].product {
        assert rest[k] in items[1..];
      }
    }
  }
}
