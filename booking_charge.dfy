/** The document method `calculateCharge`: a flat minimum for the first hour and the hourly
    rate for every further hour, counted up to whole hours. */
module BookingCharge {
  import opened JsValues
  import opened BookingSchema

  const MinimumCharge: int := 200
  const HourlyRate: int := 200

  /** `Math.ceil` on an exact real: the least integer not below `x`. */
  function Ceil(x: real): (c: int)
    ensures x <= c as real < x + 1.0
  {
    -((-x).Floor)
  }

  /** The charge for an effective duration of `hours`. */
  function ChargeForDuration(hours: real): (r: int)
    ensures r >= MinimumCharge
    ensures r % HourlyRate == 0
    ensures r == MinimumCharge <==> hours <= 1.0
    // beyond the first hour, the charge covers the remaining time at the hourly rate and
    // overshoots it by less than one hour's worth
    ensures hours > 1.0 ==>
      (hours - 1.0) * HourlyRate as real <= (r - MinimumCharge) as real < hours * HourlyRate as real
  {
    if hours <= 1.0 then MinimumCharge
    else
      var remainingHours := hours - 1.0;
      MinimumCharge + Ceil(remainingHours) * HourlyRate
  }

  /** The duration billed: `actualDuration || durationInHours`. */
  function EffectiveDuration(d: BookingDoc): (hours: real)
    ensures Truthy(d.actualDuration) ==> hours == d.actualDuration.value
    ensures !Truthy(d.actualDuration) ==> hours == d.durationInHours
  {
    OrElse(d.actualDuration, d.durationInHours)
  }

  /** `calculateCharge` on a document. */
  function CalculateCharge(d: BookingDoc): (r: int)
    ensures r >= MinimumCharge && r % HourlyRate == 0
  {
    ChargeForDuration(EffectiveDuration(d))
  }

  /** A longer effective duration never costs less. */
  lemma ChargeMonotone(h1: real, h2: real)
    requires h1 <= h2
    ensures ChargeForDuration(h1) <= ChargeForDuration(h2)
  {
  }

  /** Equivalent reading of the rule: every started hour is billed at the hourly rate, and at
      least one hour is always billed (the minimum charge equals the hourly rate). */
  lemma ChargeIsStartedHours(hours: real)
    ensures ChargeForDuration(hours) == HourlyRate * (if hours <= 1.0 then 1 else Ceil(hours))
  {
  }

  /** Worked values of the rule. */
  lemma ChargeExamples()
    ensures ChargeForDuration(0.5) == 200
    ensures ChargeForDuration(1.0) == 200
    ensures ChargeForDuration(1.5) == 400
    ensures ChargeForDuration(2.0) == 400
    ensures ChargeForDuration(2.1) == 600
    ensures ChargeForDuration(3.0) == 600
  {
  }

  /** Once the actual duration is recorded (non-zero), it replaces the estimate: a booking
      estimated at half an hour and charged 200 is charged 600 after three actual hours. */
  lemma ActualDurationDecides(d: BookingDoc, hours: real)
    requires hours != 0.0
    ensures CalculateCharge(d.(actualDuration := Some(hours))) == ChargeForDuration(hours)
    ensures CalculateCharge(New(0, 1, "plumbing", 0.5, 0, 200.0, 0).(actualDuration := Some(3.0))) == 600
  {
  }

  /** In a valid document a recorded actual duration is never falsy, so it always decides
      the charge; the billed duration is at least the schema minimum. */
  lemma ValidDocumentBillsActual(d: BookingDoc)
    requires Valid(d)
    ensures d.actualDuration.Some? ==> EffectiveDuration(d) == d.actualDuration.value
    ensures d.actualDuration.None? ==> EffectiveDuration(d) == d.durationInHours
    ensures EffectiveDuration(d) >= MinDurationHours
  {
    ValidMeans(d);
  }

  /** Writing the computed charge back into `charge` keeps a valid document valid: the
      computed charge always meets the schema's minimum. */
  lemma ComputedChargeIsValid(d: BookingDoc)
    requires Valid(d)
    ensures Valid(d.(charge := CalculateCharge(d) as real))
  {
    ValidMeans(d);
    ValidMeans(d.(charge := CalculateCharge(d) as real));
  }
}
