/** The order handlers of backend/controllers/orderController.js: `createOrder` (checkout),
    `updateOrderStatus` (administrators) and `cancelOrder` (the buyer), over the orders,
    products and accounts collections. */
module Checkout {
  import opened Common
  import opened Text
  import opened Orders
  import opened OrderRules
  import opened Products
  import Accounts

  // ---------------- createOrder ----------------

  /** `Math.floor(Math.random() * 10000)` lies below this bound. */
  const DrawBound := 10000

  /** The order line built from a requested line: the line total is unit price times quantity. */
  function Line(item: ItemRequest): OrderItem {
    OrderItem(item.productId, item.productName, item.quantity, item.pricePerUnit, item.pricePerUnit * item.quantity)
  }

  /** `items.map(...)`: one order line per requested line, in order. */
  function Lines(items: seq<ItemRequest>): (r: seq<OrderItem>)
    ensures |r| == |items|
    ensures forall i :: 0 <= i < |items| ==> r[i] == Line(items[i])
  {
    seq(|items|, i requires 0 <= i < |items| => Line(items[i]))
  }

  /** The stored delivery address: the sanitized fields, and "India" when no country was sent. */
  function StoredAddress(a: AddressInput): DeliveryAddress {
    var s := SanitizedAddress(a);
    DeliveryAddress(s.street, s.city, s.state, s.postalCode, s.country.GetOr("India"))
  }

  /** The number the handler composes: "ORD-", the clock reading, "-", and the random draw. */
  function CheckoutNumber(now: nat, draw: nat): (s: string)
    ensures |s| >= 7 && s[..4] == "ORD-"
  {
    "ORD-" + Decimal(now) + "-" + Decimal(draw)
  }

  /** The document `new Order(...)` builds from a request with items, before the hooks run:
      the destructuring defaults give no credits, cash-only payment, an empty address and
      empty notes; the handler's own total is the subtotal less the credits. */
  function Draft(userId: Id, req: OrderRequest, now: nat, draw: nat): Order
    requires req.items.Some?
  {
    var lines := Lines(req.items.value);
    var subtotal := SumTotals(lines);
    var credits := req.creditsToUse.GetOr(0);
    var total := subtotal - credits;
    Order(userId, Some(CheckoutNumber(now, draw)), lines, subtotal, credits,
          if total > 0 then total else 0, total, "pending",
          req.paymentMethod.GetOr("cash_only"), StoredAddress(req.address), req.notes.GetOr(""))
  }

  /** The record the save of that document writes: the draft after the totals hook. */
  function Placed(userId: Id, req: OrderRequest, now: nat, draw: nat): Order
    requires req.items.Some?
  {
    WithTotals(Draft(userId, req, now, draw))
  }

  /** What the placed order holds: one line per requested line with the line total price times
      quantity, the subtotal their sum, a total equal to the subtotal whatever credits were
      used, cash the part of the subtotal the credits leave, status "pending". */
  lemma PlacedAmounts(userId: Id, req: OrderRequest, now: nat, draw: nat)
    requires req.items.Some?
    ensures var o := Placed(userId, req, now, draw);
      var items := req.items.value;
      var credits := req.creditsToUse.GetOr(0);
      && o.userId == userId && o.status == "pending"
      && o.orderNumber == Some(CheckoutNumber(now, draw))
      && |o.items| == |items|
      && (forall i :: 0 <= i < |items| ==>
            && o.items[i].productId == items[i].productId
            && o.items[i].quantity == items[i].quantity
            && o.items[i].pricePerUnit == items[i].pricePerUnit
            && o.items[i].totalPrice == items[i].pricePerUnit * items[i].quantity)
      && o.subtotal == SumTotals(o.items)
      && o.totalAmount == o.subtotal
      && o.creditsUsed == credits
      && o.cashAmount == (if o.subtotal > credits then o.subtotal - credits else 0)
  {
  }

  /** Credits above the subtotal leave the handler's total negative, so the document fails the
      schema before any hook runs. Otherwise the credits sent change nothing but the recorded
      credits and the cash part: the total the handler lowers by the credits is overwritten by
      the totals hook. */
  lemma CreditsLeaveTotal(userId: Id, req: OrderRequest, now: nat, draw: nat, credits: int)
    requires req.items.Some?
    ensures var o := Placed(userId, req, now, draw);
      var d := Draft(userId, req.(creditsToUse := Some(credits)), now, draw);
      var p := Placed(userId, req.(creditsToUse := Some(credits)), now, draw);
      && (credits > o.subtotal ==> !OrderSchemaOk(d))
      && p.totalAmount == o.totalAmount && p.subtotal == o.subtotal
      && p.(creditsUsed := o.creditsUsed, cashAmount := o.cashAmount) == o
  {
  }

  /** The schema's checks on one requested line, which the request checks do not make. */
  predicate LineAcceptable(item: ItemRequest) {
    item.productName != "" && item.pricePerUnit >= 0
  }

  lemma ProductSign(price: int, quantity: int)
    requires quantity >= 1
    ensures price * quantity >= 0 <==> price >= 0
  {
    if price < 0 {
      assert price * quantity == price + price * (quantity - 1);
      assert price * (quantity - 1) <= 0;
    }
  }

  /** A request that passed the request checks builds a document that passes the schema exactly
      when every line names a product and has no negative price, the payment method, when sent,
      is one of the three, and the credits do not exceed the subtotal. */
  lemma DraftSchema(userId: Id, req: OrderRequest, now: nat, draw: nat)
    requires OrderRequestOk(req)
    ensures OrderSchemaOk(Draft(userId, req, now, draw)) <==>
      && (forall i :: 0 <= i < |req.items.value| ==> LineAcceptable(req.items.value[i]))
      && req.paymentMethod.GetOr("cash_only") in PaymentMethods
      && req.creditsToUse.GetOr(0) <= SumTotals(Lines(req.items.value))
  {
    var items := req.items.value;
    var o := Draft(userId, req, now, draw);
    forall i | 0 <= i < |items|
      ensures ItemSchemaOk(o.items[i]) <==> LineAcceptable(items[i])
    {
      ProductSign(items[i].pricePerUnit, items[i].quantity);
    }
    if forall i :: 0 <= i < |items| ==> LineAcceptable(items[i]) {
      SumTotalsNonNegative(o.items);
    }
    assert Truthy(o.orderNumber);
  }

  /** How a number splits: the prefix, the clock reading, the first '-' after the prefix, and
      the draw. */
  lemma NumberParts(now: nat, draw: nat)
    ensures var s := CheckoutNumber(now, draw);
      var a := Decimal(now);
      && |s| == 5 + |a| + |Decimal(draw)|
      && s[4..4 + |a|] == a && s[4 + |a|] == '-' && s[5 + |a|..] == Decimal(draw)
      && (forall i :: 4 <= i < 4 + |a| ==> s[i] != '-')
  {
    var a := Decimal(now);
    var s := CheckoutNumber(now, draw);
    assert s == "ORD-" + a + "-" + Decimal(draw);
    assert forall i :: 4 <= i < 4 + |a| ==> s[i] == a[i - 4];
  }

  /** Distinct clock readings or distinct draws never give the same number. */
  lemma CheckoutNumberInjective(now1: nat, draw1: nat, now2: nat, draw2: nat)
    requires CheckoutNumber(now1, draw1) == CheckoutNumber(now2, draw2)
    ensures now1 == now2 && draw1 == draw2
  {
    NumberParts(now1, draw1);
    NumberParts(now2, draw2);
    DecimalInjective(now1, now2);
    DecimalInjective(draw1, draw2);
  }

  /** `createOrder`: a request that failed the request checks gets 400 "Validation failed";
      otherwise the document is saved, and a save the schema or the unique number refuses
      gets 500 "Failed to place order". A stored order is the document after the totals hook.
      Only the orders collection changes: no stock is reserved and no credits are taken. */
  method CreateOrder(store: OrderStore, userId: Id, id: Id, req: OrderRequest, now: nat, draw: nat)
    returns (r: Result<Order>)
    requires id !in store.orders && draw < DrawBound
    modifies store
    ensures !OrderRequestOk(req) ==>
      r == Err(Status(400, "Validation failed")) && store.orders == old(store.orders)
    ensures OrderRequestOk(req) ==>
      var o := Placed(userId, req, now, draw);
      if SaveAccepts(old(store.orders), id, Draft(userId, req, now, draw))
      then r == Ok(o) && store.orders == old(store.orders)[id := o]
      else r == Err(Status(500, "Failed to place order")) && store.orders == old(store.orders)
    ensures old(store.Valid()) ==> store.Valid()
  {
    if !OrderRequestOk(req) {
      return Err(Status(400, "Validation failed"));
    }
    var doc := new OrderDocument(Draft(userId, req, now, draw), true);
    var saved := store.Save(id, doc, now);
    if saved.Err? {
      return Err(Status(500, "Failed to place order"));
    }
    r := Ok(saved.value);
  }

  // ---------------- updateOrderStatus ----------------

  /** `updateOrderStatus`: an update the status enum refuses fails before any lookup with
      500 "Server error" (the route's status check is never consulted); a missing order gets
      404; otherwise the status is overwritten, from any status to any status, with no hook. */
  method UpdateOrderStatus(store: OrderStore, id: Id, status: string) returns (r: Result<Order>)
    modifies store
    ensures !StatusRequestOk(status) ==> r == Err(ServerError) && store.orders == old(store.orders)
    ensures StatusRequestOk(status) && id !in old(store.orders) ==>
      r == Err(Status(404, "Order not found")) && store.orders == old(store.orders)
    ensures StatusRequestOk(status) && id in old(store.orders) ==>
      r == Ok(old(store.orders[id]).(status := status)) &&
      store.orders == old(store.orders)[id := old(store.orders[id]).(status := status)]
    ensures old(store.Valid()) ==> store.Valid()
  {
    if status !in OrderStatuses {
      return Err(ServerError);
    }
    if id !in store.orders {
      return Err(Status(404, "Order not found"));
    }
    var o := store.orders[id].(status := status);
    assert WithTotals(o) == WithTotals(store.orders[id]).(status := status);
    store.orders := store.orders[id := o];
    r := Ok(o);
  }

  // ---------------- cancelOrder ----------------

  /** The refusals `cancelOrder` checks in turn: no such order, not the requester's order, an
      order already delivered or cancelled. */
  function CancelRefusal(orders: map<Id, Order>, id: Id, requester: Id): (e: Option<Error>)
    ensures e.None? <==>
      (id in orders && orders[id].userId == requester &&
       orders[id].status != "delivered" && orders[id].status != "cancelled")
  {
    if id !in orders then Some(Status(404, "Order not found"))
    else if orders[id].userId != requester then Some(Status(403, "Access denied"))
    else if orders[id].status == "delivered" || orders[id].status == "cancelled" then
      Some(Status(400, "Order cannot be cancelled"))
    else None
  }

  /** The record the cancellation's save writes: status "cancelled", totals recomputed. */
  function Cancelled(o: Order): Order {
    WithTotals(o.(status := "cancelled"))
  }

  /** In a consistent collection the cancellation's save is accepted and changes only the status. */
  lemma CancelSaveAccepted(orders: map<Id, Order>, id: Id)
    requires StoreOk(orders) && id in orders
    ensures Cancelled(orders[id]) == orders[id].(status := "cancelled")
    ensures SaveAccepts(orders, id, orders[id].(status := "cancelled"))
  {
    var o := orders[id];
    assert WithTotals(o.(status := "cancelled")) == WithTotals(o).(status := "cancelled");
  }

  /** A cancelled order cannot be cancelled again. */
  lemma SecondCancelRefused(orders: map<Id, Order>, id: Id, requester: Id)
    requires id in orders
    ensures CancelRefusal(orders[id := Cancelled(orders[id])], id, requester) ==
      if orders[id].userId == requester then Some(Status(400, "Order cannot be cancelled"))
      else Some(Status(403, "Access denied"))
  {
  }

  /** The outcome of the restocking loop: the products after it, and whether every
      `increaseStock` succeeded (the loop stops at the first that throws). */
  datatype Restocked = Restocked(products: map<Id, Product>, ok: bool)

  /** The restocking loop over an order's lines: a line whose product no longer exists is
      skipped; the others raise that product's stock by the line's quantity. */
  function Restock(products: map<Id, Product>, items: seq<OrderItem>): (r: Restocked)
    ensures r.products.Keys == products.Keys
    decreases |items|
  {
    if items == [] then Restocked(products, true)
    else
      var item := items[0];
      if item.productId !in products then Restock(products, items[1..])
      else match Increased(products[item.productId], item.quantity)
        case Err(_) => Restocked(products, false)
        case Ok(p) => Restock(products[item.productId := p], items[1..])
  }

  /** The total quantity the lines order of product `productId`. */
  function QuantityFor(items: seq<OrderItem>, productId: Id): int {
    if items == [] then 0
    else (if items[0].productId == productId then items[0].quantity else 0) + QuantityFor(items[1..], productId)
  }

  /** Over valid products and lines of non-negative quantity, restocking succeeds and raises each
      product's stock by exactly the total quantity its lines order, and changes nothing else. */
  lemma {:induction false} RestockAdds(products: map<Id, Product>, items: seq<OrderItem>)
    requires forall id | id in products :: ProductSchemaOk(products[id])
    requires forall i :: 0 <= i < |items| ==> items[i].quantity >= 0
    ensures Restock(products, items).ok
    ensures forall id | id in products ::
      Restock(products, items).products[id] == products[id].(stock := products[id].stock + QuantityFor(items, id))
    decreases |items|
  {
    if items != [] {
      var item := items[0];
      if item.productId !in products {
        RestockAdds(products, items[1..]);
      } else {
        var p := products[item.productId].(stock := products[item.productId].stock + item.quantity);
        var next := products[item.productId := p];
        RestockAdds(next, items[1..]);
      }
    }
  }

  /** The restocking loop, product by product. */
  method RestoreStock(store: ProductStore, items: seq<OrderItem>) returns (ok: bool)
    modifies store
    ensures store.products == Restock(old(store.products), items).products
    ensures ok == Restock(old(store.products), items).ok
    ensures old(store.Valid()) ==> store.Valid()
  {
    var i := 0;
    while i < |items|
      invariant 0 <= i <= |items|
      invariant Restock(store.products, items[i..]) == Restock(old(store.products), items)
      invariant old(store.Valid()) ==> store.Valid()
    {
      var item := items[i];
      assert items[i..][0] == item && items[i..][1..] == items[i + 1..];
      if item.productId in store.products {
        var increased := store.IncreaseStock(item.productId, item.quantity);
        if increased.Err? {
          return false;
        }
      }
      i := i + 1;
    }
    ok := true;
  }

  /** The refund: nothing when no credits were used; otherwise the owner's `addCredits`, where a
      deleted owner or a refused credit throws. */
  function Refund(accounts: map<Id, Accounts.Account>, owner: Id, amount: int): Result<map<Id, Accounts.Account>> {
    if amount <= 0 then Ok(accounts)
    else if owner !in accounts then Err(ServerError)
    else match Accounts.Credit(accounts[owner], amount)
      case Ok(a) => Ok(accounts[owner := a])
      case Err(_) => Err(ServerError)
  }

  /** An existing owner with a balance that is not negative gets back exactly the credits used. */
  lemma RefundPays(accounts: map<Id, Accounts.Account>, owner: Id, amount: int)
    requires owner in accounts && accounts[owner].pointsBalance >= 0 && amount >= 0
    ensures Refund(accounts, owner, amount) ==
      Ok(accounts[owner := accounts[owner].(pointsBalance := accounts[owner].pointsBalance + amount)])
  {
    if amount > 0 {
      var credited := Accounts.Credit(accounts[owner], amount);
      assert credited.Ok? && credited.value == accounts[owner].(pointsBalance := accounts[owner].pointsBalance + amount);
    } else {
      assert accounts[owner := accounts[owner].(pointsBalance := accounts[owner].pointsBalance + amount)] == accounts;
    }
  }

  method RefundCredits(store: Accounts.AccountStore, owner: Id, amount: int) returns (ok: bool)
    modifies store
    ensures ok == Refund(old(store.accounts), owner, amount).Ok?
    ensures store.accounts == if ok then Refund(old(store.accounts), owner, amount).value else old(store.accounts)
    ensures old(store.Valid()) ==> store.Valid()
  {
    if amount <= 0 {
      return true;
    }
    if owner !in store.accounts {
      return false;
    }
    var credited := store.AddCredits(owner, amount);
    ok := credited.Ok?;
  }

  /** `cancelOrder`: the refusals, then the save of the cancelled order (500 when refused), then
      the restocking loop and the refund, each of which ends the handler with 500 when it
      throws, leaving what was already written. */
  method CancelOrder(orders: OrderStore, products: ProductStore, accounts: Accounts.AccountStore,
                     id: Id, requester: Id, now: nat) returns (r: Result<Order>)
    modifies orders, products, accounts
    ensures CancelRefusal(old(orders.orders), id, requester).Some? ==>
      && r == Err(CancelRefusal(old(orders.orders), id, requester).value)
      && orders.orders == old(orders.orders) && products.products == old(products.products)
      && accounts.accounts == old(accounts.accounts)
    ensures CancelRefusal(old(orders.orders), id, requester).None? ==>
      var o := Cancelled(old(orders.orders[id]));
      if !SaveAccepts(old(orders.orders), id, old(orders.orders[id]).(status := "cancelled")) then
        && r == Err(ServerError)
        && orders.orders == old(orders.orders) && products.products == old(products.products)
        && accounts.accounts == old(accounts.accounts)
      else
        var restocked := Restock(old(products.products), o.items);
        var refund := Refund(old(accounts.accounts), o.userId, o.creditsUsed);
        && orders.orders == old(orders.orders)[id := o]
        && products.products == restocked.products
        && (!restocked.ok ==> r == Err(ServerError) && accounts.accounts == old(accounts.accounts))
        && (restocked.ok && refund.Err? ==> r == Err(ServerError) && accounts.accounts == old(accounts.accounts))
        && (restocked.ok && refund.Ok? ==> r == Ok(o) && accounts.accounts == refund.value)
    ensures old(orders.Valid()) ==> orders.Valid()
    ensures old(products.Valid()) ==> products.Valid()
    ensures old(accounts.Valid()) ==> accounts.Valid()
  {
    var refusal := CancelRefusal(orders.orders, id, requester);
    if refusal.Some? {
      return Err(refusal.value);
    }
    var doc := new OrderDocument(orders.orders[id], false);
    doc.status := "cancelled";
    var saved := orders.Save(id, doc, now);
    if saved.Err? {
      return Err(ServerError);
    }
    var o := saved.value;
    var restocked := RestoreStock(products, o.items);
    if !restocked {
      return Err(ServerError);
    }
    var refunded := RefundCredits(accounts, o.userId, o.creditsUsed);
    if !refunded {
      return Err(ServerError);
    }
    r := Ok(o);
  }

  /** In consistent collections a permitted cancellation succeeds: the order is marked cancelled,
      every product still stored regains the quantity the order's lines took, and the owner, when
      still stored, gets back every credit the order recorded. Placing the order took neither
      stock nor credits, so a place-then-cancel round trip leaves more of both than before. */
  lemma CancellationRestores(orders: map<Id, Order>, products: map<Id, Product>,
                             accounts: map<Id, Accounts.Account>, id: Id, requester: Id)
    requires StoreOk(orders) && Accounts.StoreOk(accounts)
    requires forall p | p in products :: ProductSchemaOk(products[p])
    requires CancelRefusal(orders, id, requester).None?
    requires orders[id].creditsUsed > 0 ==> orders[id].userId in accounts
    ensures var o := Cancelled(orders[id]);
      && o == orders[id].(status := "cancelled")
      && SaveAccepts(orders, id, o)
      && Restock(products, o.items).ok
      && (forall p | p in products ::
            Restock(products, o.items).products[p].stock == products[p].stock + QuantityFor(o.items, p))
      && Refund(accounts, o.userId, o.creditsUsed).Ok?
      && (o.userId in accounts ==>
            Refund(accounts, o.userId, o.creditsUsed).value[o.userId].pointsBalance ==
            accounts[o.userId].pointsBalance + o.creditsUsed)
  {
    CancelSaveAccepted(orders, id);
    var o := Cancelled(orders[id]);
    assert OrderSchemaOk(orders[id]);
    assert forall i :: 0 <= i < |o.items| ==> ItemSchemaOk(o.items[i]);
    RestockAdds(products, o.items);
    if o.userId in accounts {
      assert Accounts.SchemaOk(accounts[o.userId]);
      RefundPays(accounts, o.userId, o.creditsUsed);
    }
  }
}
