/** The request checks of backend/routes/orders.js: `orderValidation` for placing an order and
    `statusValidation` for an administrator's status change. A request field that was not
    sent is `None`. */
module OrderRules {
  import opened Common
  import opened Text
  import opened Orders

  /** One requested line, as the client sends it (the unit price is the client's). */
  datatype ItemRequest = ItemRequest(productId: Id, productName: string, quantity: int, pricePerUnit: int)

  datatype AddressInput = AddressInput(
    street: Option<string>,
    city: Option<string>,
    state: Option<string>,
    postalCode: Option<string>,
    country: Option<string>)

  /** The body of `POST /api/orders`. `items` is `None` when it is missing or not an array. */
  datatype OrderRequest = OrderRequest(
    items: Option<seq<ItemRequest>>,
    creditsToUse: Option<int>,
    paymentMethod: Option<string>,
    address: AddressInput,
    notes: Option<string>)

  /** An optional field that, when sent, has a length in `lo..hi` after trimming. */
  predicate TrimmedLengthOk(s: Option<string>, lo: nat, hi: nat) {
    s.None? || lo <= |Trim(s.value)| <= hi
  }

  /** The bounds on the delivery address: street 5..200, city and state 2..50, postal code 5..10. */
  predicate AddressInputOk(a: AddressInput) {
    && TrimmedLengthOk(a.street, 5, 200)
    && TrimmedLengthOk(a.city, 2, 50)
    && TrimmedLengthOk(a.state, 2, 50)
    && TrimmedLengthOk(a.postalCode, 5, 10)
  }

  /** `orderValidation`: at least one item, every quantity an integer of at least 1, credits
      not negative when sent, the address bounds, notes of at most 500 characters. */
  predicate OrderRequestOk(req: OrderRequest) {
    && req.items.Some? && |req.items.value| >= 1
    && (forall i :: 0 <= i < |req.items.value| ==> req.items.value[i].quantity >= 1)
    && (req.creditsToUse.None? || req.creditsToUse.value >= 0)
    && AddressInputOk(req.address)
    && (req.notes.None? || |req.notes.value| <= MaxNotesLength)
  }

  /** The `.trim()` sanitizer: an address field that was sent reaches the handler trimmed. */
  function TrimField(s: Option<string>): (r: Option<string>)
    ensures r.None? <==> s.None?
    ensures r.Some? ==> |r.value| <= |s.value|
  {
    if s.None? then None else Some(Trim(s.value))
  }

  /** The address as the handler sees it after the sanitizers ran. */
  function SanitizedAddress(a: AddressInput): (r: AddressInput)
    ensures r.country == a.country
  {
    AddressInput(TrimField(a.street), TrimField(a.city), TrimField(a.state), TrimField(a.postalCode), a.country)
  }

  /** Trimming a field twice is trimming it once, and the bound holds of the trimmed field
      exactly when it held of the field as sent. */
  lemma TrimFieldStable(s: Option<string>, lo: nat, hi: nat)
    ensures TrimField(TrimField(s)) == TrimField(s)
    ensures TrimmedLengthOk(TrimField(s), lo, hi) <==> TrimmedLengthOk(s, lo, hi)
  {
    if s.Some? {
      TrimIdempotent(s.value);
    }
  }

  /** Sanitizing is idempotent, and a sanitized address passes exactly when the original did. */
  lemma SanitizeStable(a: AddressInput)
    ensures SanitizedAddress(SanitizedAddress(a)) == SanitizedAddress(a)
    ensures AddressInputOk(SanitizedAddress(a)) <==> AddressInputOk(a)
  {
    TrimFieldStable(a.street, 5, 200);
    TrimFieldStable(a.city, 2, 50);
    TrimFieldStable(a.state, 2, 50);
    TrimFieldStable(a.postalCode, 5, 10);
  }

  /** `statusValidation`: the status is one of the six order statuses. */
  predicate StatusRequestOk(status: string) {
    status in OrderStatuses
  }

  /** The route's check and the schema's enum agree: a status passes `statusValidation` exactly
      when a stored order given that status still passes the schema. */
  lemma StatusRequestMatchesSchema(o: Order, status: string)
    requires OrderSchemaOk(o)
    ensures StatusRequestOk(status) <==> OrderSchemaOk(o.(status := status))
  {
  }
}
