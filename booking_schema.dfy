/** The booking document of server/models/Booking.js as a value: its fields, the closed
    enumerations, the defaults a new document receives, and the schema's validators. */
module BookingSchema {
  import opened JsValues

  /** Opaque stand-ins for mongoose ObjectIds and for `Date` values. */
  type ObjectId = nat
  type Time = int

  const StatusValues: seq<string> :=
    ["pending", "accepted", "confirmed", "in-progress", "completed", "completed-by-user",
     "completed-by-provider", "paid", "reviewed", "cancelled", "declined"]
  const PaymentMethodValues: seq<string> := ["cash", "esewa", "none"]
  const PaymentStatusValues: seq<string> := ["pending", "completed", "failed", "refunded"]

  const DefaultStatus: string := "pending"
  const DefaultPaymentMethod: string := "none"
  const DefaultPaymentStatus: string := "pending"

  /** Lower bounds and ranges declared by the schema's `min`/`max` options. */
  const MinDurationHours: real := 0.5
  const MinCharge: real := 200.0
  const MinRating: real := 1.0
  const MaxRating: real := 5.0

  datatype Coordinates = Coordinates(lat: Option<real>, lng: Option<real>)
  datatype Location = Location(address: Option<string>, coordinates: Coordinates)
  datatype Material = Material(name: Option<string>, cost: Option<real>)

  datatype MaintenanceDetails = MaintenanceDetails(
    jobDuration: Option<real>,
    hourlyRate: Option<real>,
    hourlyCharge: Option<real>,
    materials: seq<Material>,
    materialCost: Option<real>,
    additionalCharge: Option<real>,
    maintenancePrice: Option<real>,
    notes: Option<string>)

  datatype PaymentDetails = PaymentDetails(
    transactionId: Option<string>,
    transactionCode: Option<string>,
    referenceId: Option<string>,
    paidAmount: Option<real>,
    paidAt: Option<Time>)

  datatype Note = Note(text: Option<string>, createdBy: Option<ObjectId>, createdAt: Time)

  /** One booking document. Required fields are plain values; optional ones are `Option`s. */
  datatype BookingDoc = BookingDoc(
    userId: ObjectId,
    providerId: ObjectId,
    bookingId: Option<string>,
    serviceType: string,
    durationInHours: real,
    actualDuration: Option<real>,
    startTime: Time,
    endTime: Option<Time>,
    scheduledTime: Option<Time>,
    location: Option<Location>,
    description: Option<string>,
    charge: real,
    materialsCost: Option<real>,
    additionalCharge: Option<real>,
    totalCharge: Option<real>,
    maintenanceDetails: Option<MaintenanceDetails>,
    materials: seq<Material>,
    status: string,
    paymentMethod: string,
    paymentStatus: string,
    paymentDetails: Option<PaymentDetails>,
    rating: Option<real>,
    comment: Option<string>,
    notes: seq<Note>,
    createdAt: Time,
    updatedAt: Time)

  /** The paths that carry a validator; a validation error names the failing ones. */
  datatype Field =
    | ServiceType | DurationInHours | ActualDuration | Charge
    | Status | PaymentMethod | PaymentStatus | Rating

  /** Whether the validator on path `f` accepts the document. Unset optional numbers pass
      their `min`/`max` checks; a required string must be non-empty. */
  predicate FieldOk(d: BookingDoc, f: Field) {
    match f
    case ServiceType => |d.serviceType| > 0
    case DurationInHours => d.durationInHours >= MinDurationHours
    case ActualDuration => d.actualDuration.None? || d.actualDuration.value >= MinDurationHours
    case Charge => d.charge >= MinCharge
    case Status => d.status in StatusValues
    case PaymentMethod => d.paymentMethod in PaymentMethodValues
    case PaymentStatus => d.paymentStatus in PaymentStatusValues
    case Rating => d.rating.None? || MinRating <= d.rating.value <= MaxRating
  }

  function Flag(ok: bool, f: Field): set<Field> {
    if ok then {} else {f}
  }

  /** The set of paths a validation of `d` reports. */
  function Violations(d: BookingDoc): (bad: set<Field>)
    ensures forall f :: f in bad <==> !FieldOk(d, f)
  {
    Flag(FieldOk(d, ServiceType), ServiceType) + Flag(FieldOk(d, DurationInHours), DurationInHours)
    + Flag(FieldOk(d, ActualDuration), ActualDuration) + Flag(FieldOk(d, Charge), Charge)
    + Flag(FieldOk(d, Status), Status) + Flag(FieldOk(d, PaymentMethod), PaymentMethod)
    + Flag(FieldOk(d, PaymentStatus), PaymentStatus) + Flag(FieldOk(d, Rating), Rating)
  }

  /** A document the schema accepts: the validator of every path passes. */
  predicate Valid(d: BookingDoc) {
    forall f: Field :: FieldOk(d, f)
  }

  /** Validation succeeds exactly when it reports no failing path. */
  lemma ValidIffNoViolations(d: BookingDoc)
    ensures Valid(d) <==> Violations(d) == {}
  {
  }

  /** The schema's constraints, spelled out field by field. */
  lemma ValidMeans(d: BookingDoc)
    ensures Valid(d) <==>
      |d.serviceType| > 0 &&
      d.durationInHours >= 0.5 &&
      (d.actualDuration.Some? ==> d.actualDuration.value >= 0.5) &&
      d.charge >= 200.0 &&
      d.status in StatusValues &&
      d.paymentMethod in PaymentMethodValues &&
      d.paymentStatus in PaymentStatusValues &&
      (d.rating.Some? ==> 1.0 <= d.rating.value <= 5.0)
  {
    if Valid(d) {
      assert FieldOk(d, ServiceType) && FieldOk(d, DurationInHours) && FieldOk(d, ActualDuration);
      assert FieldOk(d, Charge) && FieldOk(d, Status) && FieldOk(d, PaymentMethod);
      assert FieldOk(d, PaymentStatus) && FieldOk(d, Rating);
    }
  }

  /** The nested `maintenanceDetails` object of a new document: every scalar in it is unset, and
      its `materials` array holds the implicit empty-array default mongoose gives every array. */
  const EmptyMaintenance: MaintenanceDetails :=
    MaintenanceDetails(None, None, None, [], None, None, None, None)

  /** A document as `new Booking({...})` builds it from the required fields: every other
      path is unset except those with a default (arrays default to empty). Only the required inputs can fail validation. */
  function New(userId: ObjectId, providerId: ObjectId, serviceType: string, durationInHours: real,
               startTime: Time, charge: real, now: Time): (d: BookingDoc)
    ensures Violations(d) <= {ServiceType, DurationInHours, Charge}
  {
    BookingDoc(
      userId, providerId, None, serviceType, durationInHours, None, startTime, None, None,
      None, None, charge, Some(0.0), Some(0.0), None, Some(EmptyMaintenance), [],
      DefaultStatus, DefaultPaymentMethod, DefaultPaymentStatus, None, None, None, [],
      now, now)
  }

  /** The defaults of a new document always pass their validators, so a new document is
      rejected exactly on the required inputs that break their minimum. */
  lemma NewViolations(userId: ObjectId, providerId: ObjectId, serviceType: string,
                      durationInHours: real, startTime: Time, charge: real, now: Time)
    ensures Violations(New(userId, providerId, serviceType, durationInHours, startTime, charge, now))
         == Flag(|serviceType| > 0, ServiceType) + Flag(durationInHours >= 0.5, DurationInHours)
          + Flag(charge >= 200.0, Charge)
  {
  }

  /** A new document starts pending, unpaid, with no payment method and zero extra costs. */
  lemma NewDefaults(userId: ObjectId, providerId: ObjectId, serviceType: string,
                    durationInHours: real, startTime: Time, charge: real, now: Time)
    ensures var d := New(userId, providerId, serviceType, durationInHours, startTime, charge, now);
      d.status == "pending" && d.paymentMethod == "none" && d.paymentStatus == "pending" &&
      d.materialsCost == Some(0.0) && d.additionalCharge == Some(0.0) &&
      d.totalCharge.None? && d.actualDuration.None? && d.rating.None? &&
      d.materials == [] && d.notes == [] && d.maintenanceDetails == Some(EmptyMaintenance) &&
      d.createdAt == now && d.updatedAt == now
  {
  }
}
