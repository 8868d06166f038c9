/** The return-request document (backend/models/Return.js): its status and reason enums, its
    bounds and defaults, and the returns collection as a `ReturnStore`. */
module Returns {
  import opened Common

  /** The seven values of the status enum; new requests start at "requested". */
  const ReturnStatuses: seq<string> := ["requested", "approved", "rejected", "shipped", "received", "refunded", "cancelled"]

  /** The eight values of the reason enum. */
  const ReturnReasons: seq<string> :=
    ["damaged", "defective", "not_as_described", "wrong_item", "changed_mind", "expired", "poor_quality", "other"]

  /** The statuses that have a timestamp of their own (`approvedAt` ... `refundedAt`). */
  const StampedStatuses: seq<string> := ["approved", "rejected", "shipped", "received", "refunded"]

  /** The bound on the description and the administrator's notes. */
  const MaxTextLength := 500

  /** A stored return request; amounts in minor units. `stamps` maps a status to the time it
      was entered ("requested" to `requestedAt`, "approved" to `approvedAt`, ...). */
  datatype ReturnRecord = ReturnRecord(
    orderId: Id,
    userId: Id,
    productId: Id,
    productName: string,
    quantity: int,
    reason: string,
    description: Option<string>,
    returnAmount: int,
    status: string,
    adminNotes: Option<string>,
    refundAmount: int,
    trackingNumber: Option<string>,
    stamps: map<string, nat>)

  predicate TextOk(s: Option<string>) {
    s.None? || |s.value| <= MaxTextLength
  }

  /** The schema's checks, run by every save. */
  predicate ReturnSchemaOk(r: ReturnRecord) {
    && r.productName != ""
    && r.quantity >= 1
    && r.reason in ReturnReasons
    && TextOk(r.description)
    && r.returnAmount >= 0
    && r.status in ReturnStatuses
    && TextOk(r.adminNotes)
    && r.refundAmount >= 0
  }

  class ReturnStore {
    var requests: map<Id, ReturnRecord>

    /** Every stored return passed its save validation. */
    ghost predicate Valid()
      reads this
    {
      forall id | id in requests :: ReturnSchemaOk(requests[id])
    }

    constructor ()
      ensures requests == map[] && Valid()
    {
      requests := map[];
    }

    /** `save()`: the schema decides; a refused save throws and changes nothing. */
    method Save(id: Id, r: ReturnRecord) returns (saved: bool)
      modifies this
      ensures saved == ReturnSchemaOk(r)
      ensures requests == if saved then old(requests)[id := r] else old(requests)
      ensures old(Valid()) ==> Valid()
    {
      saved := ReturnSchemaOk(r);
      if saved {
        requests := requests[id := r];
      }
    }
  }
}
