/** The return handlers of backend/controllers/returnController.js: `createReturnRequest`
    (the buyer), `updateReturnStatus` (administrators) and `cancelReturnRequest` (the buyer or
    an administrator). */
module ReturnHandlers {
  import opened Common
  import opened Text
  import opened Lists
  import opened Orders
  import opened Returns
  import opened ReturnRules
  import Accounts

  // ---------------- createReturnRequest ----------------

  predicate LineFor(productId: Id, item: OrderItem) {
    item.productId == productId
  }

  /** The refusals `createReturnRequest` checks in turn: a request the route refused (400), an
      order that is missing or not the requester's (403), a product the order has no line for
      (400), and a quantity above the first such line's (400). */
  function CreateRefusal(orders: map<Id, Order>, requester: Id, req: ReturnRequest): Option<Error> {
    if !ReturnRequestOk(req) then Some(Status(400, "Validation failed"))
    else if req.orderId.value !in orders || orders[req.orderId.value].userId != requester then
      Some(Status(403, "Unauthorized - Order not found or does not belong to you"))
    else
      var items := orders[req.orderId.value].items;
      match FirstIndex(items, x => LineFor(req.productId.value, x))
      case None => Some(Status(400, "Product not found in this order"))
      case Some(i) =>
        if req.quantity.value > items[i].quantity then Some(Status(400, "Return quantity exceeds ordered quantity"))
        else None
  }

  /** An accepted request is about the requester's own order, names a product the order has a
      line for, and returns at most that line's quantity; the first line for the product decides,
      whatever later lines for it hold. */
  lemma AcceptedReturnFits(orders: map<Id, Order>, requester: Id, req: ReturnRequest)
    requires CreateRefusal(orders, requester, req).None?
    ensures ReturnRequestOk(req)
    ensures req.orderId.value in orders && orders[req.orderId.value].userId == requester
    ensures var items := orders[req.orderId.value].items;
      exists i :: 0 <= i < |items| && items[i].productId == req.productId.value &&
        req.quantity.value <= items[i].quantity &&
        forall j :: 0 <= j < i ==> items[j].productId != req.productId.value
  {
    var items := orders[req.orderId.value].items;
    var i := FirstIndex(items, x => LineFor(req.productId.value, x)).value;
    assert LineFor(req.productId.value, items[i]);
  }

  /** A quantity above the first line's is refused even when a later line for the same product
      would cover it. */
  lemma FirstLineDecides(orders: map<Id, Order>, requester: Id, req: ReturnRequest, i: nat)
    requires ReturnRequestOk(req)
    requires req.orderId.value in orders && orders[req.orderId.value].userId == requester
    requires var items := orders[req.orderId.value].items;
      i < |items| && items[i].productId == req.productId.value &&
      (forall j :: 0 <= j < i ==> items[j].productId != req.productId.value) &&
      req.quantity.value > items[i].quantity
    ensures CreateRefusal(orders, requester, req) == Some(Status(400, "Return quantity exceeds ordered quantity"))
  {
    var items := orders[req.orderId.value].items;
    var f := FirstIndex(items, x => LineFor(req.productId.value, x));
    assert LineFor(req.productId.value, items[i]);
  }

  /** `createReturnRequest`: the refusals, then the new record is saved (500 when the schema
      refuses it). Earlier returns of the same line are not counted against the quantity. */
  method CreateReturnRequest(store: ReturnStore, orders: OrderStore, requester: Id, id: Id,
                             req: ReturnRequest, now: nat) returns (r: Result<ReturnRecord>)
    requires id !in store.requests
    modifies store
    ensures CreateRefusal(orders.orders, requester, req).Some? ==>
      r == Err(CreateRefusal(orders.orders, requester, req).value) && store.requests == old(store.requests)
    ensures CreateRefusal(orders.orders, requester, req).None? ==>
      var rec := NewReturn(requester, req, now);
      if ReturnSchemaOk(rec) then r == Ok(rec) && store.requests == old(store.requests)[id := rec]
      else r == Err(ServerError) && store.requests == old(store.requests)
    ensures old(store.Valid()) ==> store.Valid()
  {
    if !ReturnRequestOk(req) {
      return Err(Status(400, "Validation failed"));
    }
    if req.orderId.value !in orders.orders || orders.orders[req.orderId.value].userId != requester {
      return Err(Status(403, "Unauthorized - Order not found or does not belong to you"));
    }
    var items := orders.orders[req.orderId.value].items;
    var line := FirstIndex(items, x => LineFor(req.productId.value, x));
    if line.None? {
      return Err(Status(400, "Product not found in this order"));
    }
    if req.quantity.value > items[line.value].quantity {
      return Err(Status(400, "Return quantity exceeds ordered quantity"));
    }
    var rec := NewReturn(requester, req, now);
    var saved := store.Save(id, rec);
    if !saved {
      return Err(ServerError);
    }
    r := Ok(rec);
  }

  // ---------------- updateReturnStatus ----------------

  /** The administrator's changes to a return, in the handler's order: the status; the notes
      when truthy (trimmed by the schema's setter); the refund amount when sent; the tracking
      number when truthy; the new status's own timestamp; and on "refunded", a refund amount
      that is still 0 becomes the return amount. */
  function StatusUpdated(rec: ReturnRecord, status: string, adminNotes: Option<string>,
                         refundAmount: Option<int>, trackingNumber: Option<string>, now: nat): ReturnRecord
  {
    var r1 := rec.(status := status);
    var r2 := if Truthy(adminNotes) then r1.(adminNotes := Some(Trim(adminNotes.value))) else r1;
    var r3 := if refundAmount.Some? then r2.(refundAmount := refundAmount.value) else r2;
    var r4 := if Truthy(trackingNumber) then r3.(trackingNumber := trackingNumber) else r3;
    var r5 := if status in StampedStatuses then r4.(stamps := r4.stamps[status := now]) else r4;
    if status == "refunded" && r5.refundAmount == 0 then r5.(refundAmount := r5.returnAmount) else r5
  }

  /** The update leaves what the buyer asked for alone, and stamps the new status's time and no
      other: "requested" and "cancelled" stamp nothing. */
  lemma UpdateStampsOnlyStatus(rec: ReturnRecord, status: string, adminNotes: Option<string>,
                               refundAmount: Option<int>, trackingNumber: Option<string>, now: nat)
    ensures var u := StatusUpdated(rec, status, adminNotes, refundAmount, trackingNumber, now);
      && u.status == status
      && u.(status := rec.status, adminNotes := rec.adminNotes, refundAmount := rec.refundAmount,
            trackingNumber := rec.trackingNumber, stamps := rec.stamps) == rec
      && (forall s | s != status :: (s in u.stamps <==> s in rec.stamps) && (s in rec.stamps ==> u.stamps[s] == rec.stamps[s]))
      && (status in StampedStatuses ==> status in u.stamps && u.stamps[status] == now)
      && (status !in StampedStatuses ==> u.stamps == rec.stamps)
  {
  }

  /** On "refunded" the refund amount is the one sent, or else the one stored, unless that is 0:
      then it is the return amount, even when 0 was sent on purpose. */
  lemma RefundAmountRule(rec: ReturnRecord, adminNotes: Option<string>, refundAmount: Option<int>,
                         trackingNumber: Option<string>, now: nat)
    ensures var u := StatusUpdated(rec, "refunded", adminNotes, refundAmount, trackingNumber, now);
      var asked := refundAmount.GetOr(rec.refundAmount);
      u.refundAmount == if asked == 0 then rec.returnAmount else asked
    ensures StatusUpdated(rec, "refunded", adminNotes, Some(0), trackingNumber, now).refundAmount == rec.returnAmount
  {
  }

  /** Other statuses take the refund amount as sent, 0 included. */
  lemma OtherStatusRefundAmount(rec: ReturnRecord, status: string, adminNotes: Option<string>,
                                refundAmount: Option<int>, trackingNumber: Option<string>, now: nat)
    requires status != "refunded"
    ensures StatusUpdated(rec, status, adminNotes, refundAmount, trackingNumber, now).refundAmount ==
      refundAmount.GetOr(rec.refundAmount)
  {
  }

  /** From a valid record, any of the seven statuses is saved, from whatever status the record
      had, as long as the notes fit and the refund amount sent is not negative. */
  lemma UpdateAccepted(rec: ReturnRecord, status: string, adminNotes: Option<string>,
                       refundAmount: Option<int>, trackingNumber: Option<string>, now: nat)
    requires ReturnSchemaOk(rec) && status in ReturnStatuses
    requires !Truthy(adminNotes) || |Trim(adminNotes.value)| <= MaxTextLength
    requires refundAmount.None? || refundAmount.value >= 0
    ensures ReturnSchemaOk(StatusUpdated(rec, status, adminNotes, refundAmount, trackingNumber, now))
  {
    UpdateStampsOnlyStatus(rec, status, adminNotes, refundAmount, trackingNumber, now);
    if status == "refunded" {
      RefundAmountRule(rec, adminNotes, refundAmount, trackingNumber, now);
    } else {
      OtherStatusRefundAmount(rec, status, adminNotes, refundAmount, trackingNumber, now);
    }
  }

  /** `updateReturnStatus`: 404 for a missing return; then 400 "Invalid status" for a status
      outside the seven; otherwise the changes above are applied to the loaded document and
      saved (500 when the schema refuses them). */
  method UpdateReturnStatus(store: ReturnStore, id: Id, status: Option<string>, adminNotes: Option<string>,
                            refundAmount: Option<int>, trackingNumber: Option<string>, now: nat)
    returns (r: Result<ReturnRecord>)
    modifies store
    ensures id !in old(store.requests) ==>
      r == Err(Status(404, "Return request not found")) && store.requests == old(store.requests)
    ensures id in old(store.requests) && (status.None? || status.value !in ReturnStatuses) ==>
      r == Err(Status(400, "Invalid status")) && store.requests == old(store.requests)
    ensures id in old(store.requests) && status.Some? && status.value in ReturnStatuses ==>
      var u := StatusUpdated(old(store.requests[id]), status.value, adminNotes, refundAmount, trackingNumber, now);
      if ReturnSchemaOk(u) then r == Ok(u) && store.requests == old(store.requests)[id := u]
      else r == Err(ServerError) && store.requests == old(store.requests)
    ensures old(store.Valid()) ==> store.Valid()
  {
    if id !in store.requests {
      return Err(Status(404, "Return request not found"));
    }
    if status.None? || status.value !in ReturnStatuses {
      return Err(Status(400, "Invalid status"));
    }
    var rec := store.requests[id];
    rec := rec.(status := status.value);
    if Truthy(adminNotes) {
      rec := rec.(adminNotes := Some(Trim(adminNotes.value)));
    }
    if refundAmount.Some? {
      rec := rec.(refundAmount := refundAmount.value);
    }
    if Truthy(trackingNumber) {
      rec := rec.(trackingNumber := trackingNumber);
    }
    if status.value in StampedStatuses {
      rec := rec.(stamps := rec.stamps[status.value := now]);
    }
    if status.value == "refunded" && rec.refundAmount == 0 {
      rec := rec.(refundAmount := rec.returnAmount);
    }
    var saved := store.Save(id, rec);
    if !saved {
      return Err(ServerError);
    }
    r := Ok(rec);
  }

  // ---------------- cancelReturnRequest ----------------

  /** The refusals `cancelReturnRequest` checks in turn: no such return (404), neither the owner
      nor an administrator (403), a status other than "requested" or "approved" (400). */
  function CancelRefusal(requests: map<Id, ReturnRecord>, id: Id, requester: Id, role: Accounts.Role): (e: Option<Error>)
    ensures e.None? <==>
      (id in requests && (requests[id].userId == requester || role == Accounts.Admin) &&
       (requests[id].status == "requested" || requests[id].status == "approved"))
  {
    if id !in requests then Some(Status(404, "Return request not found"))
    else if requests[id].userId != requester && role != Accounts.Admin then Some(Status(403, "Unauthorized"))
    else if requests[id].status != "requested" && requests[id].status != "approved" then
      Some(Status(400, "Cannot cancel return in current status"))
    else None
  }

  /** A cancelled return cannot be cancelled again, by anyone. */
  lemma SecondCancelRefused(requests: map<Id, ReturnRecord>, id: Id, requester: Id, role: Accounts.Role)
    requires id in requests
    ensures var cancelled := requests[id := requests[id].(status := "cancelled")];
      CancelRefusal(cancelled, id, requester, role).Some?
  {
  }

  /** `cancelReturnRequest`: the refusals, then the status becomes "cancelled" and the record
      is saved; no timestamp is stamped. */
  method CancelReturnRequest(store: ReturnStore, id: Id, requester: Id, role: Accounts.Role)
    returns (r: Result<ReturnRecord>)
    modifies store
    ensures CancelRefusal(old(store.requests), id, requester, role).Some? ==>
      r == Err(CancelRefusal(old(store.requests), id, requester, role).value) && store.requests == old(store.requests)
    ensures CancelRefusal(old(store.requests), id, requester, role).None? ==>
      var c := old(store.requests[id]).(status := "cancelled");
      if ReturnSchemaOk(c) then r == Ok(c) && store.requests == old(store.requests)[id := c]
      else r == Err(ServerError) && store.requests == old(store.requests)
    ensures old(store.Valid()) && CancelRefusal(old(store.requests), id, requester, role).None? ==> r.Ok?
    ensures old(store.Valid()) ==> store.Valid()
  {
    var refusal := CancelRefusal(store.requests, id, requester, role);
    if refusal.Some? {
      return Err(refusal.value);
    }
    var rec := store.requests[id].(status := "cancelled");
    var saved := store.Save(id, rec);
    if !saved {
      return Err(ServerError);
    }
    r := Ok(rec);
  }
}
