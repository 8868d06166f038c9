/** The product document (backend/models/Product.js): its stock counter, the guarded
    decrement and the increment, and the availability test. The products collection is a
    `ProductStore`, a map from ids to product records. */
module Products {
  import opened Common

  /** A stored product; price in minor units. */
  datatype Product = Product(name: string, price: int, stock: int, isActive: bool)

  /** The schema's bounds, checked by every save: price and stock are not negative. */
  predicate ProductSchemaOk(p: Product) {
    p.price >= 0 && p.stock >= 0
  }

  /** `isAvailable(quantity)`: the product is active and has at least `quantity` in stock. The
      method's default quantity of 1 is the caller's to pass here. */
  predicate IsAvailable(p: Product, quantity: int) {
    p.isActive && p.stock >= quantity
  }

  /** `reduceStock`: refused with "Insufficient stock" when the stock is below `quantity`;
      otherwise the stock drops by exactly `quantity`, and the save rejects what breaks the schema. */
  function Reduced(p: Product, quantity: int): (r: Result<Product>)
    ensures p.stock < quantity ==> r == Err(Thrown("Insufficient stock"))
    ensures r.Ok? ==> p.stock - r.value.stock == quantity && r.value == p.(stock := r.value.stock)
    ensures r.Ok? ==> r.value.stock >= 0 && ProductSchemaOk(r.value)
    ensures ProductSchemaOk(p) && p.stock >= quantity ==> r.Ok?
  {
    if p.stock < quantity then Err(Thrown("Insufficient stock"))
    else
      var q := p.(stock := p.stock - quantity);
      if ProductSchemaOk(q) then Ok(q) else Err(Thrown("Validation failed"))
  }

  /** A product that passes the schema is available for `quantity` exactly when it is active
      and `reduceStock(quantity)` would succeed on it. */
  lemma AvailableIffReducible(p: Product, quantity: int)
    requires ProductSchemaOk(p)
    ensures IsAvailable(p, quantity) <==> p.isActive && Reduced(p, quantity).Ok?
  {
  }

  /** `increaseStock`: the stock rises by exactly `quantity`, and the save rejects what breaks the schema. */
  function Increased(p: Product, quantity: int): (r: Result<Product>)
    ensures r.Ok? ==> r.value.stock - p.stock == quantity && r.value == p.(stock := r.value.stock)
    ensures r.Ok? <==> ProductSchemaOk(p.(stock := p.stock + quantity))
  {
    var q := p.(stock := p.stock + quantity);
    if ProductSchemaOk(q) then Ok(q) else Err(Thrown("Validation failed"))
  }

  /** Reducing and then increasing by the same quantity restores the product. */
  lemma IncreaseUndoesReduce(p: Product, quantity: int)
    requires ProductSchemaOk(p) && Reduced(p, quantity).Ok?
    ensures Increased(Reduced(p, quantity).value, quantity) == Ok(p)
  {
  }

  /** Increasing and then reducing by the same quantity restores the product. */
  lemma ReduceUndoesIncrease(p: Product, quantity: int)
    requires ProductSchemaOk(p) && Increased(p, quantity).Ok?
    ensures Reduced(Increased(p, quantity).value, quantity) == Ok(p)
  {
  }

  class ProductStore {
    var products: map<Id, Product>

    /** Every stored product passed its save validation. */
    ghost predicate Valid()
      reads this
    {
      forall id | id in products :: ProductSchemaOk(products[id])
    }

    constructor ()
      ensures products == map[] && Valid()
    {
      products := map[];
    }

    /** `reduceStock` on the stored product `id`; returns the new stock. */
    method ReduceStock(id: Id, quantity: int) returns (r: Result<int>)
      requires id in products
      modifies this
      ensures match Reduced(old(products[id]), quantity)
        case Ok(p) => r == Ok(p.stock) && products == old(products)[id := p]
        case Err(e) => r == Err(e) && products == old(products)
      ensures old(Valid()) ==> Valid()
    {
      var p := products[id];
      if p.stock < quantity {
        return Err(Thrown("Insufficient stock"));
      }
      var reduced := p.(stock := p.stock - quantity);
      if !ProductSchemaOk(reduced) {
        return Err(Thrown("Validation failed"));
      }
      products := products[id := reduced];
      r := Ok(reduced.stock);
    }

    /** `increaseStock` on the stored product `id`; returns the new stock. */
    method IncreaseStock(id: Id, quantity: int) returns (r: Result<int>)
      requires id in products
      modifies this
      ensures match Increased(old(products[id]), quantity)
        case Ok(p) => r == Ok(p.stock) && products == old(products)[id := p]
        case Err(e) => r == Err(e) && products == old(products)
      ensures old(Valid()) ==> Valid()
    {
      var p := products[id];
      var increased := p.(stock := p.stock + quantity);
      if !ProductSchemaOk(increased) {
        return Err(Thrown("Validation failed"));
      }
      products := products[id := increased];
      r := Ok(increased.stock);
    }
  }
}
