/** The order document (backend/models/Order.js): line items, the pre-save hooks that number
    a new order and recompute its totals, and the item-list methods `addItem`, `removeItem`
    and `updateItemQuantity`. A loaded or new document is an `OrderDocument`; the orders
    collection is an `OrderStore` of `Order` records. */
module Orders {
  import opened Common
  import opened Lists
  import opened Text

  /** The six values the schema's status enum accepts. */
  const OrderStatuses: seq<string> := ["pending", "confirmed", "processing", "shipped", "delivered", "cancelled"]
  /** The three values the schema's payment-method enum accepts. */
  const PaymentMethods: seq<string> := ["credits_only", "cash_only", "credits_and_cash"]
  /** The longest note the schema accepts. */
  const MaxNotesLength := 500

  /** One order line; `totalPrice` is stored, not derived. Amounts in minor units. */
  datatype OrderItem = OrderItem(productId: Id, productName: string, quantity: int, pricePerUnit: int, totalPrice: int)

  datatype DeliveryAddress = DeliveryAddress(
    street: Option<string>,
    city: Option<string>,
    state: Option<string>,
    postalCode: Option<string>,
    country: string)

  /** A stored order. */
  datatype Order = Order(
    userId: Id,
    orderNumber: Option<string>,
    items: seq<OrderItem>,
    subtotal: int,
    creditsUsed: int,
    cashAmount: int,
    totalAmount: int,
    status: string,
    paymentMethod: string,
    address: DeliveryAddress,
    notes: string)

  /** The item sub-schema's checks: a product name, quantity at least 1, no negative amounts. */
  predicate ItemSchemaOk(item: OrderItem) {
    item.productName != "" && item.quantity >= 1 && item.pricePerUnit >= 0 && item.totalPrice >= 0
  }

  /** The order schema's checks, run by every save. */
  predicate OrderSchemaOk(o: Order) {
    && Truthy(o.orderNumber)
    && (forall i :: 0 <= i < |o.items| ==> ItemSchemaOk(o.items[i]))
    && o.subtotal >= 0 && o.creditsUsed >= 0 && o.cashAmount >= 0 && o.totalAmount >= 0
    && o.status in OrderStatuses && o.paymentMethod in PaymentMethods
    && |o.notes| <= MaxNotesLength
  }

  // ---------------- Totals ----------------

  /** The sum of the lines' stored totals (`items.reduce`). */
  function SumTotals(items: seq<OrderItem>): int {
    if items == [] then 0 else SumTotals(items[..|items| - 1]) + items[|items| - 1].totalPrice
  }

  /** The sum over a concatenation is the sum of the sums. */
  lemma {:induction false} SumTotalsAppend(a: seq<OrderItem>, b: seq<OrderItem>)
    ensures SumTotals(a + b) == SumTotals(a) + SumTotals(b)
    decreases |b|
  {
    if b == [] {
      assert a + b == a;
    } else {
      assert (a + b)[..|a + b| - 1] == a + b[..|b| - 1];
      assert (a + b)[|a + b| - 1] == b[|b| - 1];
      SumTotalsAppend(a, b[..|b| - 1]);
    }
  }

  /** Lines that satisfy the item schema add up to a non-negative subtotal. */
  lemma {:induction false} SumTotalsNonNegative(items: seq<OrderItem>)
    requires forall i :: 0 <= i < |items| ==> items[i].totalPrice >= 0
    ensures SumTotals(items) >= 0
  {
    if items != [] {
      SumTotalsNonNegative(items[..|items| - 1]);
    }
  }

  /** The totals hook: the subtotal is the sum of the line totals whatever was stored before,
      the total equals the subtotal, and the cash part is what the credits do not cover. */
  function WithTotals(o: Order): (r: Order)
    ensures r.subtotal == SumTotals(o.items) && r.totalAmount == r.subtotal
    ensures r.cashAmount >= 0 && r.cashAmount >= r.totalAmount - o.creditsUsed
    ensures r.cashAmount == 0 || r.cashAmount == r.totalAmount - o.creditsUsed
    ensures r.(subtotal := o.subtotal, totalAmount := o.totalAmount, cashAmount := o.cashAmount) == o
  {
    var subtotal := SumTotals(o.items);
    o.(subtotal := subtotal, totalAmount := subtotal,
       cashAmount := if subtotal - o.creditsUsed > 0 then subtotal - o.creditsUsed else 0)
  }

  /** Running the totals hook twice gives what running it once gives. */
  lemma WithTotalsIdempotent(o: Order)
    ensures WithTotals(WithTotals(o)) == WithTotals(o)
  {
  }

  // ---------------- Order number ----------------

  /** The number the hook composes: "ORD", the clock reading, and the document count plus one
      padded with zeros to at least four digits. */
  function HookOrderNumber(now: nat, count: nat): (s: string)
    ensures |s| >= 3 + 1 + 4
    ensures s[..3] == "ORD"
  {
    "ORD" + Decimal(now) + PadStart(Decimal(count + 1), 4, '0')
  }

  /** The counter part of a hook-made number is at least four digits and reads back as
      the document count plus one. */
  lemma CounterPart(count: nat)
    ensures var c := PadStart(Decimal(count + 1), 4, '0');
      |c| >= 4 && (forall i :: 0 <= i < |c| ==> '0' <= c[i] <= '9') && DigitsValue(c) == count + 1
  {
    ZeroPadValue(Decimal(count + 1), 4);
    DecimalValue(count + 1);
  }

  /** The order-number hook: only a new document without a number gets one. */
  function NumberAfterHook(isNew: bool, current: Option<string>, now: nat, count: nat): (r: Option<string>)
    ensures !isNew || Truthy(current) ==> r == current
    ensures isNew && !Truthy(current) ==> r == Some(HookOrderNumber(now, count))
    ensures Truthy(r)
      || (!isNew && !Truthy(current))
  {
    if isNew && !Truthy(current) then Some(HookOrderNumber(now, count)) else current
  }

  // ---------------- Item lists ----------------

  /** Whether line `item` is for product `productId` (the `product_id` comparison). */
  predicate IsLineFor(productId: Id, item: OrderItem) {
    item.productId == productId
  }

  /** Every line's stored total is its quantity times its unit price. */
  predicate LineTotalsConsistent(items: seq<OrderItem>) {
    forall i :: 0 <= i < |items| ==> items[i].totalPrice == items[i].quantity * items[i].pricePerUnit
  }

  /** A line after `addItem` grows it by `quantity`: the total is recomputed from its own unit price. */
  function Grown(item: OrderItem, quantity: int): OrderItem {
    var q := item.quantity + quantity;
    item.(quantity := q, totalPrice := q * item.pricePerUnit)
  }

  /** `addItem`: the first line for the product gains `quantity` and its total is recomputed from
      its own unit price; without such a line a new one is appended. */
  function AddedItem(items: seq<OrderItem>, productId: Id, productName: string, quantity: int, pricePerUnit: int)
    : (r: seq<OrderItem>)
  {
    match FirstIndex(items, x => IsLineFor(productId, x))
    case Some(i) => items[i := Grown(items[i], quantity)]
    case None =>
      items + [OrderItem(productId, productName, quantity, pricePerUnit, quantity * pricePerUnit)]
  }

  /** `addItem` for a product that has a line: the first such line grows by `quantity`, its total
      is recomputed, the other lines and the length stay, and with consistent totals the
      subtotal grows by the added quantity times that line's unit price. */
  lemma AddToExistingLine(items: seq<OrderItem>, productId: Id, productName: string, quantity: int, pricePerUnit: int, i: nat)
    requires FirstIndex(items, x => IsLineFor(productId, x)) == Some(i)
    ensures var r := AddedItem(items, productId, productName, quantity, pricePerUnit);
      && |r| == |items| && r[i].productId == productId
      && r[i] == items[i].(quantity := items[i].quantity + quantity,
                           totalPrice := (items[i].quantity + quantity) * items[i].pricePerUnit)
      && (forall j :: 0 <= j < |items| && j != i ==> r[j] == items[j])
      && (LineTotalsConsistent(items) ==> SumTotals(r) == SumTotals(items) + quantity * items[i].pricePerUnit)
  {
    var x := Grown(items[i], quantity);
    var r := AddedItem(items, productId, productName, quantity, pricePerUnit);
    assert r == items[i := x];
    if LineTotalsConsistent(items) {
      SumTotalsUpdate(items, i, x);
      GrownLineTotal(items[i], quantity);
    }
  }

  /** A consistent line whose quantity grows by `quantity` has its total grow by `quantity`
      times its unit price. */
  lemma GrownLineTotal(item: OrderItem, quantity: int)
    requires item.totalPrice == item.quantity * item.pricePerUnit
    ensures Grown(item, quantity).totalPrice == item.totalPrice + quantity * item.pricePerUnit
  {
  }

  /** `addItem` for a product with no line: exactly one line is appended, and the subtotal grows
      by its total. */
  lemma AddNewLine(items: seq<OrderItem>, productId: Id, productName: string, quantity: int, pricePerUnit: int)
    requires FirstIndex(items, x => IsLineFor(productId, x)).None?
    ensures var r := AddedItem(items, productId, productName, quantity, pricePerUnit);
      && r == items + [OrderItem(productId, productName, quantity, pricePerUnit, quantity * pricePerUnit)]
      && SumTotals(r) == SumTotals(items) + quantity * pricePerUnit
  {
    SumTotalsAppend(items, [OrderItem(productId, productName, quantity, pricePerUnit, quantity * pricePerUnit)]);
  }

  /** `addItem` keeps every line's total equal to its quantity times its unit price. */
  lemma AddedItemConsistent(items: seq<OrderItem>, productId: Id, productName: string, quantity: int, pricePerUnit: int)
    requires LineTotalsConsistent(items)
    ensures LineTotalsConsistent(AddedItem(items, productId, productName, quantity, pricePerUnit))
  {
    var r := AddedItem(items, productId, productName, quantity, pricePerUnit);
    match FirstIndex(items, x => IsLineFor(productId, x))
    case Some(i) =>
      assert forall j :: 0 <= j < |r| && j != i ==> r[j] == items[j];
    case None =>
      assert forall j :: 0 <= j < |items| ==> r[j] == items[j];
  }

  /** Replacing one line changes the sum by the change in that line's total. */
  lemma {:induction false} SumTotalsUpdate(items: seq<OrderItem>, i: nat, x: OrderItem)
    requires i < |items|
    ensures SumTotals(items[i := x]) == SumTotals(items) - items[i].totalPrice + x.totalPrice
    decreases |items|
  {
    var r := items[i := x];
    if i < |items| - 1 {
      assert r[..|r| - 1] == items[..|items| - 1][i := x];
      SumTotalsUpdate(items[..|items| - 1], i, x);
    } else {
      assert r[..|r| - 1] == items[..|items| - 1];
    }
  }

  /** `removeItem`: every line for the product is dropped, the others keep their order. */
  function WithoutLines(items: seq<OrderItem>, productId: Id): (r: seq<OrderItem>)
    ensures forall i :: 0 <= i < |r| ==> r[i].productId != productId
    ensures forall i :: 0 <= i < |items| && items[i].productId != productId ==> items[i] in r
    ensures exists idx :: (Picks(items, idx, r) &&
      forall i :: 0 <= i < |items| && items[i].productId != productId ==> i in idx)
  {
    var keep := x => !IsLineFor(productId, x);
    var r := Filter(items, keep);
    FilterOrder(items, keep);
    var idx := Kept(items, keep);
    assert Picks(items, idx, r);
    assert forall i :: 0 <= i < |items| && items[i].productId != productId ==> i in idx by {
      forall i | 0 <= i < |items| && items[i].productId != productId ensures i in idx {
        assert keep(items[i]);
      }
    }
    r
  }

  /** Removing a product twice is removing it once; removing an absent product changes nothing. */
  lemma WithoutLinesIdempotent(items: seq<OrderItem>, productId: Id)
    ensures WithoutLines(WithoutLines(items, productId), productId) == WithoutLines(items, productId)
    ensures (forall i :: 0 <= i < |items| ==> items[i].productId != productId) ==> WithoutLines(items, productId) == items
  {
    FilterIdempotent(items, x => !IsLineFor(productId, x));
    if forall i :: 0 <= i < |items| ==> items[i].productId != productId {
      FilterKeepsAll(items, x => !IsLineFor(productId, x));
    }
  }

  /** Filtering keeps consistent line totals consistent. */
  lemma WithoutLinesConsistent(items: seq<OrderItem>, productId: Id)
    requires LineTotalsConsistent(items)
    ensures LineTotalsConsistent(WithoutLines(items, productId))
  {
    var r := WithoutLines(items, productId);
    forall i | 0 <= i < |r| ensures r[i].totalPrice == r[i].quantity * r[i].pricePerUnit {
      var j :| 0 <= j < |items| && items[j] == r[i];
    }
  }

  /** `updateItemQuantity`: nothing changes for a product with no line; a quantity of 0 or less
      removes the product's lines; otherwise the first line gets the quantity and a recomputed total. */
  function WithQuantity(items: seq<OrderItem>, productId: Id, quantity: int): (r: seq<OrderItem>)
    ensures FirstIndex(items, x => IsLineFor(productId, x)).None? ==> r == items
    ensures FirstIndex(items, x => IsLineFor(productId, x)).Some? && quantity <= 0 ==> r == WithoutLines(items, productId)
    ensures FirstIndex(items, x => IsLineFor(productId, x)).Some? && quantity > 0 ==>
      var i := FirstIndex(items, x => IsLineFor(productId, x)).value;
      && |r| == |items|
      && r[i] == items[i].(quantity := quantity, totalPrice := quantity * items[i].pricePerUnit)
      && (forall j :: 0 <= j < |items| && j != i ==> r[j] == items[j])
  {
    match FirstIndex(items, x => IsLineFor(productId, x))
    case None => items
    case Some(i) =>
      if quantity <= 0 then WithoutLines(items, productId)
      else items[i := items[i].(quantity := quantity, totalPrice := quantity * items[i].pricePerUnit)]
  }

  /** `updateItemQuantity` keeps consistent line totals consistent. */
  lemma WithQuantityConsistent(items: seq<OrderItem>, productId: Id, quantity: int)
    requires LineTotalsConsistent(items)
    ensures LineTotalsConsistent(WithQuantity(items, productId, quantity))
  {
    if FirstIndex(items, x => IsLineFor(productId, x)).Some? && quantity <= 0 {
      WithoutLinesConsistent(items, productId);
    }
  }

  // ---------------- The document ----------------

  /** An order document in memory, as a handler holds it between loading (or `new Order`) and
      `save()`. */
  class OrderDocument {
    const isNew: bool
    var userId: Id
    var orderNumber: Option<string>
    var items: seq<OrderItem>
    var subtotal: int
    var creditsUsed: int
    var cashAmount: int
    var totalAmount: int
    var status: string
    var paymentMethod: string
    var address: DeliveryAddress
    var notes: string

    /** The record a save writes. */
    function Record(): Order
      reads this
    {
      Order(userId, orderNumber, items, subtotal, creditsUsed, cashAmount, totalAmount, status,
            paymentMethod, address, notes)
    }

    /** A document built from record `o`: `new Order(...)` when `isNew`, a loaded one otherwise. */
    constructor (o: Order, isNew: bool)
      ensures Record() == o && this.isNew == isNew
    {
      this.isNew := isNew;
      userId := o.userId;
      orderNumber := o.orderNumber;
      items := o.items;
      subtotal := o.subtotal;
      creditsUsed := o.creditsUsed;
      cashAmount := o.cashAmount;
      totalAmount := o.totalAmount;
      status := o.status;
      paymentMethod := o.paymentMethod;
      address := o.address;
      notes := o.notes;
    }

    /** `addItem`. */
    method AddItem(productId: Id, productName: string, quantity: int, pricePerUnit: int)
      modifies this
      ensures Record() == old(Record()).(items := AddedItem(old(items), productId, productName, quantity, pricePerUnit))
    {
      var found := FirstIndex(items, x => IsLineFor(productId, x));
      if found.Some? {
        var i := found.value;
        var q := items[i].quantity + quantity;
        items := items[i := items[i].(quantity := q, totalPrice := q * items[i].pricePerUnit)];
      } else {
        items := items + [OrderItem(productId, productName, quantity, pricePerUnit, quantity * pricePerUnit)];
      }
    }

    /** `removeItem`. */
    method RemoveItem(productId: Id)
      modifies this
      ensures Record() == old(Record()).(items := WithoutLines(old(items), productId))
    {
      items := WithoutLines(items, productId);
    }

    /** `updateItemQuantity`. */
    method UpdateItemQuantity(productId: Id, quantity: int)
      modifies this
      ensures Record() == old(Record()).(items := WithQuantity(old(items), productId, quantity))
    {
      var found := FirstIndex(items, x => IsLineFor(productId, x));
      if found.Some? {
        if quantity <= 0 {
          RemoveItem(productId);
        } else {
          var i := found.value;
          items := items[i := items[i].(quantity := quantity, totalPrice := quantity * items[i].pricePerUnit)];
        }
      }
    }

    /** The two pre-save hooks, in their order: the order number (clock reading `now`, `count`
        documents already stored), then the totals. */
    method PreSave(now: nat, count: nat)
      modifies this
      ensures Record() == WithTotals(old(Record()).(orderNumber := NumberAfterHook(isNew, old(orderNumber), now, count)))
    {
      orderNumber := NumberAfterHook(isNew, orderNumber, now, count);
      var totals := WithTotals(Record());
      subtotal := totals.subtotal;
      totalAmount := totals.totalAmount;
      cashAmount := totals.cashAmount;
    }
  }

  // ---------------- The orders collection ----------------

  /** The order numbers in use (the unique index). */
  function UsedNumbers(orders: map<Id, Order>): set<string> {
    set id | id in orders && orders[id].orderNumber.Some? :: orders[id].orderNumber.value
  }

  /** The collection's invariant: every stored order passed its save validation and its totals
      hook, and no two orders share a number (the unique index). */
  ghost predicate StoreOk(orders: map<Id, Order>) {
    && (forall id | id in orders :: OrderSchemaOk(orders[id]) && orders[id] == WithTotals(orders[id]))
    && (forall i, j | i in orders && j in orders && i != j :: orders[i].orderNumber != orders[j].orderNumber)
  }

  /** Whether `save()` of a document holding `doc` writes it under `id`. The schema's validators
      run on the document as the handler left it, before any pre-save hook; the unique index
      then refuses a number another order already has. A document that passed validation has a
      number, which the number hook keeps, so the index sees the number of `doc`. */
  predicate SaveAccepts(orders: map<Id, Order>, id: Id, doc: Order) {
    OrderSchemaOk(doc) && doc.orderNumber.value !in UsedNumbers(orders - {id})
  }

  /** The totals hook keeps a record that passed the schema within the schema. */
  lemma TotalsKeepSchema(o: Order)
    requires OrderSchemaOk(o)
    ensures OrderSchemaOk(WithTotals(o))
  {
    SumTotalsNonNegative(o.items);
  }

  class OrderStore {
    var orders: map<Id, Order>

    ghost predicate Valid()
      reads this
    {
      StoreOk(orders)
    }

    constructor ()
      ensures orders == map[] && Valid()
    {
      orders := map[];
    }

    /** `save()` of document `doc` under id `id` (a new id for a new document): validation, then
        the pre-save hooks, then the insert or update, which the unique index on the number may
        refuse. A document that fails validation is left as it was; one that passes goes through
        the hooks, which keep its number and recompute its totals, whether or not it is then
        written. */
    method Save(id: Id, doc: OrderDocument, now: nat) returns (r: Result<Order>)
      requires doc.isNew <==> id !in orders
      modifies this, doc
      ensures !OrderSchemaOk(old(doc.Record())) ==> doc.Record() == old(doc.Record())
      ensures OrderSchemaOk(old(doc.Record())) ==>
        && doc.Record() == WithTotals(old(doc.Record()).(orderNumber := NumberAfterHook(doc.isNew, old(doc.orderNumber), now, |old(orders)|)))
        && doc.orderNumber == old(doc.orderNumber)
      ensures if SaveAccepts(old(orders), id, old(doc.Record()))
        then r == Ok(WithTotals(old(doc.Record()))) && orders == old(orders)[id := r.value]
        else r.Err? && orders == old(orders)
      ensures old(Valid()) ==> Valid()
    {
      if !OrderSchemaOk(doc.Record()) {
        return Err(Thrown("Validation failed"));
      }
      ghost var validated := doc.Record();
      doc.PreSave(now, |orders|);
      var o := doc.Record();
      assert o == WithTotals(validated);
      if o.orderNumber.value in UsedNumbers(orders - {id}) {
        return Err(Thrown("Duplicate key"));
      }
      TotalsKeepSchema(validated);
      ghost var before := orders;
      orders := orders[id := o];
      r := Ok(o);
      if old(Valid()) {
        forall i, j | i in orders && j in orders && i != j
          ensures orders[i].orderNumber != orders[j].orderNumber
        {
          if i == id {
            var rest := before - {id};
            assert j in rest && rest[j] == orders[j] && OrderSchemaOk(rest[j]);
            assert orders[j].orderNumber.value in UsedNumbers(rest);
          } else if j == id {
            var rest := before - {id};
            assert i in rest && rest[i] == orders[i] && OrderSchemaOk(rest[i]);
            assert orders[i].orderNumber.value in UsedNumbers(rest);
          }
        }
      }
      WithTotalsIdempotent(validated);
    }
  }
}
