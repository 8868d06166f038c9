/** The request checks of backend/routes/returns.js for `POST /api/returns`. A field that was
    not sent is `None`. */
module ReturnRules {
  import opened Common
  import opened Text
  import opened Returns

  /** The body of a return request. */
  datatype ReturnRequest = ReturnRequest(
    orderId: Option<Id>,
    productId: Option<Id>,
    productName: Option<string>,
    quantity: Option<int>,
    reason: Option<string>,
    description: Option<string>,
    returnAmount: Option<int>)

  /** The route's checks: both ids sent, a product name that is not blank, a quantity of at
      least 1, one of the eight reasons, a return amount that is not negative. The description
      is not checked here. */
  predicate ReturnRequestOk(req: ReturnRequest) {
    && req.orderId.Some?
    && req.productId.Some?
    && req.productName.Some? && Trim(req.productName.value) != ""
    && req.quantity.Some? && req.quantity.value >= 1
    && req.reason.Some? && req.reason.value in ReturnReasons
    && req.returnAmount.Some? && req.returnAmount.value >= 0
  }

  /** The record `new Return(...)` builds from a checked request: the product name the `.trim()`
      sanitizer left, the description the schema's trimming setter leaves, status "requested",
      no refund yet, `requestedAt` stamped. */
  function NewReturn(userId: Id, req: ReturnRequest, now: nat): ReturnRecord
    requires ReturnRequestOk(req)
  {
    ReturnRecord(req.orderId.value, userId, req.productId.value, Trim(req.productName.value),
                 req.quantity.value, req.reason.value,
                 if req.description.Some? then Some(Trim(req.description.value)) else None,
                 req.returnAmount.value, "requested", None, 0, None, map["requested" := now])
  }

  /** A checked request is stored exactly when its trimmed description fits the schema's bound:
      the route's checks cover every other field the schema checks. */
  lemma NewReturnSchema(userId: Id, req: ReturnRequest, now: nat)
    requires ReturnRequestOk(req)
    ensures ReturnSchemaOk(NewReturn(userId, req, now)) <==>
      req.description.None? || |Trim(req.description.value)| <= MaxTextLength
  {
  }

  /** A new return starts at "requested" with no refund, and its product name is not blank. */
  lemma NewReturnDefaults(userId: Id, req: ReturnRequest, now: nat)
    requires ReturnRequestOk(req)
    ensures var r := NewReturn(userId, req, now);
      r.status == "requested" && r.refundAmount == 0 && r.productName != "" &&
      r.stamps.Keys == {"requested"} && r.userId == userId
  {
  }
}
