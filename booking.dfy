/** A booking document as a mutable object: the fields the `pre('save')` hook assigns in
    place, and the hook itself as a method proved against `BookingHooks.PreSave`. */
module BookingModel {
  import opened JsValues
  import opened BookingSchema
  import BookingHooks

  class Booking {
    var userId: ObjectId
    var providerId: ObjectId
    var bookingId: Option<string>
    var serviceType: string
    var durationInHours: real
    var actualDuration: Option<real>
    var startTime: Time
    var endTime: Option<Time>
    var scheduledTime: Option<Time>
    var location: Option<Location>
    var description: Option<string>
    var charge: real
    var materialsCost: Option<real>
    var additionalCharge: Option<real>
    var totalCharge: Option<real>
    var maintenanceDetails: Option<MaintenanceDetails>
    var materials: seq<Material>
    var status: string
    var paymentMethod: string
    var paymentStatus: string
    var paymentDetails: Option<PaymentDetails>
    var rating: Option<real>
    var comment: Option<string>
    var notes: seq<Note>
    var createdAt: Time
    var updatedAt: Time

    /** The document's current value. */
    function Doc(): BookingDoc
      reads this
    {
      BookingDoc(
        userId, providerId, bookingId, serviceType, durationInHours, actualDuration, startTime,
        endTime, scheduledTime, location, description, charge, materialsCost, additionalCharge,
        totalCharge, maintenanceDetails, materials, status, paymentMethod, paymentStatus,
        paymentDetails, rating, comment, notes, createdAt, updatedAt)
    }

    /** `new Booking({...})` with the required fields; every default is applied. */
    constructor (userId: ObjectId, providerId: ObjectId, serviceType: string,
                 durationInHours: real, startTime: Time, charge: real, now: Time)
      ensures Doc() == New(userId, providerId, serviceType, durationInHours, startTime, charge, now)
      ensures status == "pending" && paymentMethod == "none" && paymentStatus == "pending"
      ensures materialsCost == Some(0.0) && additionalCharge == Some(0.0) && totalCharge.None?
      ensures materials == [] && notes == [] && maintenanceDetails == Some(EmptyMaintenance)
      ensures createdAt == now && updatedAt == now
    {
      this.userId := userId;
      this.providerId := providerId;
      this.bookingId := None;
      this.serviceType := serviceType;
      this.durationInHours := durationInHours;
      this.actualDuration := None;
      this.startTime := startTime;
      this.endTime := None;
      this.scheduledTime := None;
      this.location := None;
      this.description := None;
      this.charge := charge;
      this.materialsCost := Some(0.0);
      this.additionalCharge := Some(0.0);
      this.totalCharge := None;
      this.maintenanceDetails := Some(EmptyMaintenance);
      this.materials := [];
      this.status := DefaultStatus;
      this.paymentMethod := DefaultPaymentMethod;
      this.paymentStatus := DefaultPaymentStatus;
      this.paymentDetails := None;
      this.rating := None;
      this.comment := None;
      this.notes := [];
      this.createdAt := now;
      this.updatedAt := now;
    }

    /** The `pre('save')` hook, run at time `now`. */
    method PreSave(now: Time)
      modifies this
      ensures Doc() == BookingHooks.PreSave(old(Doc()), now)
      ensures updatedAt == now
      ensures !old(Truthy(totalCharge)) && !BookingHooks.HasMaintenancePrice(old(Doc())) ==>
        totalCharge == Some(old(charge + OrZero(materialsCost) + OrZero(additionalCharge)))
      ensures old(Truthy(totalCharge)) && !BookingHooks.HasMaintenancePrice(old(Doc())) ==>
        totalCharge == old(totalCharge)
      ensures BookingHooks.HasMaintenancePrice(old(Doc())) ==>
        totalCharge == maintenanceDetails.value.maintenancePrice
      ensures unchanged(`userId, `providerId, `bookingId, `serviceType, `durationInHours,
                        `actualDuration, `startTime, `endTime, `scheduledTime, `location,
                        `description, `charge, `materialsCost, `additionalCharge,
                        `maintenanceDetails, `materials, `status, `paymentMethod,
                        `paymentStatus, `paymentDetails, `rating, `comment, `notes, `createdAt)
    {
      updatedAt := now;
      if !Truthy(totalCharge) {
        var baseCharge := charge;
        var materialsPart := OrZero(materialsCost);
        var additionalPart := OrZero(additionalCharge);
        totalCharge := Some(baseCharge + materialsPart + additionalPart);
      }
      if maintenanceDetails.Some? && Truthy(maintenanceDetails.value.maintenancePrice) {
        totalCharge := maintenanceDetails.value.maintenancePrice;
      }
    }
  }
}
