/** The `pre('save')` hook of the booking schema as a function from the document before the
    save to the document the save writes. */
module BookingHooks {
  import opened JsValues
  import opened BookingSchema

  /** `this.maintenanceDetails && this.maintenanceDetails.maintenancePrice`. */
  predicate HasMaintenancePrice(d: BookingDoc) {
    d.maintenanceDetails.Some? && Truthy(d.maintenanceDetails.value.maintenancePrice)
  }

  /** The generic total, each missing or zero line item counting as 0. */
  function LineItemSum(d: BookingDoc): real {
    var baseCharge := d.charge;
    var materialsCost := OrZero(d.materialsCost);
    var additionalCharge := OrZero(d.additionalCharge);
    baseCharge + materialsCost + additionalCharge
  }

  /** `totalCharge` as the hook leaves it: filled from the line items only when falsy, then
      overwritten by a truthy maintenance price. A total is always set afterwards. */
  function SavedTotal(d: BookingDoc): (total: Option<real>)
    ensures total.Some?
    ensures HasMaintenancePrice(d) ==> Truthy(total) && total == d.maintenanceDetails.value.maintenancePrice
    ensures !HasMaintenancePrice(d) && Truthy(d.totalCharge) ==> total == d.totalCharge
    ensures !HasMaintenancePrice(d) && !Truthy(d.totalCharge) ==> total == Some(LineItemSum(d))
  {
    var filled := if !Truthy(d.totalCharge) then Some(LineItemSum(d)) else d.totalCharge;
    if HasMaintenancePrice(d) then d.maintenanceDetails.value.maintenancePrice else filled
  }

  /** The whole document after the hook ran at time `now`: `updatedAt` is refreshed, the total
      is the saved total, and no other field changes. */
  function PreSave(d: BookingDoc, now: Time): (r: BookingDoc)
    ensures r.updatedAt == now
    ensures r.totalCharge == SavedTotal(d)
    ensures r.(updatedAt := d.updatedAt, totalCharge := d.totalCharge) == d
  {
    d.(updatedAt := now, totalCharge := SavedTotal(d))
  }

  /** With no total yet and no maintenance price, the hook stores the sum of the line items. */
  lemma FillsUnsetTotal(d: BookingDoc, now: Time)
    requires !Truthy(d.totalCharge) && !HasMaintenancePrice(d)
    ensures PreSave(d, now).totalCharge == Some(d.charge + OrZero(d.materialsCost) + OrZero(d.additionalCharge))
    ensures d.materialsCost.None? && d.additionalCharge.None? ==> PreSave(d, now).totalCharge == Some(d.charge)
  {
  }

  /** A truthy maintenance price is the saved total, whatever the prior total or line items. */
  lemma MaintenancePriceWins(d: BookingDoc, now: Time)
    requires HasMaintenancePrice(d)
    ensures PreSave(d, now).totalCharge == d.maintenanceDetails.value.maintenancePrice
    ensures forall total: Option<real>, charge: real, materialsCost: Option<real>, additionalCharge: Option<real> ::
      SavedTotal(d.(totalCharge := total, charge := charge, materialsCost := materialsCost,
                    additionalCharge := additionalCharge))
      == d.maintenanceDetails.value.maintenancePrice
  {
  }

  /** A total that is already set is not recomputed: without a maintenance price, the hook
      keeps it even after the line items changed. */
  lemma KeepsSetTotal(d: BookingDoc, charge: real, materialsCost: Option<real>,
                      additionalCharge: Option<real>, now: Time)
    requires Truthy(d.totalCharge) && !HasMaintenancePrice(d)
    ensures PreSave(d, now).totalCharge == d.totalCharge
    ensures PreSave(d.(charge := charge, materialsCost := materialsCost,
                       additionalCharge := additionalCharge), now).totalCharge == d.totalCharge
  {
  }

  /** Saving twice writes what saving once at the later time writes. */
  lemma PreSaveIdempotent(d: BookingDoc, t1: Time, t2: Time)
    ensures PreSave(PreSave(d, t1), t2) == PreSave(d, t2)
  {
  }

  /** The hook writes no validated path, so a document that passed validation still would. */
  lemma PreSaveKeepsValid(d: BookingDoc, now: Time)
    ensures Violations(PreSave(d, now)) == Violations(d)
    ensures Valid(PreSave(d, now)) <==> Valid(d)
  {
  }

  /** The first save of a new booking totals its base charge, since the cost defaults are 0. */
  lemma FirstSaveTotalsCharge(userId: ObjectId, providerId: ObjectId, serviceType: string,
                              durationInHours: real, startTime: Time, charge: real,
                              created: Time, now: Time)
    ensures PreSave(New(userId, providerId, serviceType, durationInHours, startTime, charge, created), now).totalCharge
         == Some(charge)
  {
  }
}
