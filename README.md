# Booking entity: charge rule, pre-save hook and schema constraints

This project models the booking entity of a service-booking server (`server/models/Booking.js`)
and proves properties of that model in Dafny. The entity has three parts:

- **`calculateCharge`** bills a flat minimum of 200 for the first hour. Every further hour,
  rounded up to a whole hour, costs 200 more. The billed duration is `actualDuration` when that
  is truthy, otherwise `durationInHours`.
- **The `pre('save')` hook** runs on every save. It always refreshes `updatedAt`. It fills
  `totalCharge` with `charge + materialsCost + additionalCharge` only when `totalCharge` is
  falsy. It then lets a truthy `maintenanceDetails.maintenancePrice` overwrite the total.
- **The schema** declares minimums, a rating range, closed enumerations and defaults.

Modules:

- `JsValues` (`js_values.dfy`): `Option` and JavaScript falsiness for numbers. An unset field
  is `None`. A number is truthy when it is set and non-zero.
- `BookingSchema` (`booking_schema.dfy`): the document as a value (`BookingDoc`) and its
  enumerations. `FieldOk` is the validator of each path. `Violations` is the set of failing
  paths, which a mongoose ValidationError names. `Valid` holds when every path passes. `New`
  builds a document with the schema's defaults.
- `BookingCharge` (`booking_charge.dfy`): `Ceil`, `ChargeForDuration` (the rule on a duration),
  `EffectiveDuration` and `CalculateCharge` (the rule on a document), with their lemmas.
- `BookingHooks` (`booking_hooks.dfy`): the hook as a pure function `PreSave(doc, now)`, with
  lemmas about the total it leaves.
- `BookingModel` (`booking.dfy`): class `Booking`, whose fields the hook assigns in place. Its
  `PreSave(now)` method is proved equal to `BookingHooks.PreSave` on the document value. It
  also states the new `totalCharge` and `updatedAt` directly, and that every other field is
  unchanged.

Modelling choices:

- Numbers are exact reals, so IEEE-754 rounding and NaN do not arise.
- "Now" (`new Date()`, `Date.now`) is a parameter of type `Time`, an opaque integer.
- ObjectIds are opaque naturals.
- Required fields (`charge`, `durationInHours`, `serviceType`, `userId`, `providerId`,
  `startTime`) are plain values, not `Option`s. Mongoose validates a document before any user
  `pre('save')` hook runs, so the hook never sees a missing `charge`, and `this.charge || 0` is
  `charge`. `PreSaveKeepsValid` shows that the hook cannot make a validated document invalid.

The hook fills `totalCharge` only while it is falsy, so a set total is never recomputed when its
line items change (`KeepsSetTotal`). For the same reason, a maintenance price once saved stays in
`totalCharge` even if `maintenanceDetails` is later removed. The override tests truthiness, so a
maintenance price of 0 overrides nothing.

## Model

| member | source | states |
|---|---|---|
| `BookingSchema.FieldOk` | server/models/Booking.js:18-110 | the validator of one path: non-empty `serviceType`; `durationInHours >= 0.5`; `actualDuration >= 0.5` when set; `charge >= 200`; the three enumerations; `rating` in 1..5 when set |
| `BookingSchema.Violations` | server/models/Booking.js:18-110 | a path is reported exactly when its validator rejects the document (required non-empty `serviceType`, minimums, the rating range, the three enumerations) |
| `BookingSchema.Valid` | server/models/Booking.js:18-110 | the validator of every path accepts the document |
| `BookingSchema.ValidIffNoViolations` | server/models/Booking.js:18-110 | a document is valid exactly when validation reports no failing path |
| `BookingSchema.ValidMeans` | server/models/Booking.js:18-110 | valid iff `serviceType` is non-empty, `durationInHours >= 0.5`, `actualDuration >= 0.5` when set, `charge >= 200`, `rating` in 1..5 when set, and `status`, `paymentMethod`, `paymentStatus` are each in their closed enumeration |
| `BookingSchema.New` | server/models/Booking.js:3-133 | a new document from the required fields, with every schema default applied; only `serviceType`, `durationInHours` or `charge` can fail its validation |
| `BookingSchema.NewViolations` | server/models/Booking.js:3-133 | the defaults of a new document always pass validation; a new document fails only on a required input below its minimum (`serviceType`, `durationInHours`, `charge`) |
| `BookingSchema.NewDefaults` | server/models/Booking.js:56-132 | a new document is `pending` / `none` / `pending`, with zero materials cost and additional charge, no total, no actual duration, no rating, empty `materials` and `notes`, a `maintenanceDetails` holding only its empty `materials` array, and created and updated at the given time |
| `BookingCharge.Ceil` | server/models/Booking.js:170 | the result is the least integer not below its argument |
| `BookingCharge.ChargeForDuration` | server/models/Booking.js:157-171 | the charge is at least 200 and a multiple of 200; it is exactly 200 iff the duration is at most one hour; above one hour, the part beyond 200 covers the remaining time at 200 an hour and exceeds it by less than one hour's rate |
| `BookingCharge.EffectiveDuration` | server/models/Booking.js:160 | the billed duration is `actualDuration` when it is set and non-zero, and `durationInHours` otherwise |
| `BookingCharge.CalculateCharge` | server/models/Booking.js:156-172 | the charge of a document is at least 200 and a multiple of 200 |
| `BookingCharge.ChargeMonotone` | server/models/Booking.js:163-171 | a longer effective duration is never charged less |
| `BookingCharge.ChargeIsStartedHours` | server/models/Booking.js:163-171 | the charge equals 200 times the number of started hours, with at least one hour billed |
| `BookingCharge.ChargeExamples` | server/models/Booking.js:163-171 | 0.5 h and 1 h cost 200; 1.5 h and 2 h cost 400; 2.1 h and 3 h cost 600 |
| `BookingCharge.ActualDurationDecides` | server/models/Booking.js:160-171 | a recorded non-zero actual duration replaces the estimate; a 0.5 h, 200 booking completed after 3 h is charged 600 |
| `BookingCharge.ValidDocumentBillsActual` | server/models/Booking.js:22-30 | in a valid document `actualDuration` is billed whenever it is set, `durationInHours` otherwise, and the billed duration is at least 0.5 |
| `BookingCharge.ComputedChargeIsValid` | server/models/Booking.js:51-55 | writing the computed charge into `charge` keeps a valid document valid |
| `BookingHooks.FillsUnsetTotal` | server/models/Booking.js:139-145 | with no truthy total and no maintenance price, the saved total is `charge` plus materials cost plus additional charge, unset items counting as 0 |
| `BookingHooks.MaintenancePriceWins` | server/models/Booking.js:147-150 | a truthy maintenance price is the saved total, whatever the prior total and the line items |
| `BookingHooks.KeepsSetTotal` | server/models/Booking.js:140 | with a truthy total and no maintenance price, the saved total is the prior total, even after `charge`, materials cost or additional charge changed |
| `BookingHooks.SavedTotal` | server/models/Booking.js:139-150 | the hook always leaves a total set: a truthy maintenance price when there is one, otherwise the prior total when truthy, otherwise the line-item sum |
| `BookingHooks.PreSave` | server/models/Booking.js:136-153 | the document after the hook: `updatedAt` is the given time, `totalCharge` is `SavedTotal`, and no other field changes |
| `BookingHooks.PreSaveIdempotent` | server/models/Booking.js:136-153 | saving twice gives the same document as saving once at the later time |
| `BookingHooks.PreSaveKeepsValid` | server/models/Booking.js:136-153 | the hook changes no validated path, so validity and the reported violations are the same before and after it |
| `BookingHooks.FirstSaveTotalsCharge` | server/models/Booking.js:56-63 | the first save of a new booking totals exactly its base charge |
| `BookingModel.Booking.constructor` | server/models/Booking.js:3-133 | a new object holds the document `New` builds, with the enumeration and cost defaults, the empty-array defaults (including `maintenanceDetails.materials`) and both timestamps at the given time |
| `BookingModel.Booking.PreSave` | server/models/Booking.js:136-153 | the object afterwards holds `BookingHooks.PreSave` of its old value: `updatedAt` is the given time; `totalCharge` is the line-item sum when it was falsy, the old total when it was truthy, and the maintenance price when that is truthy; every other field is unchanged |

## Left out

- Mongoose persistence: `mongoose.model`, `ref`, the ObjectId type, the `next()` callback, and the `unique` index on `bookingId`. These belong to the storage engine. No code generates `bookingId`, so its uniqueness is a database index, not logic.
- Type casting and NaN: a non-numeric value in a number field, and an explicit `null` in an enumerated field, are not modelled. Such a `null` passes mongoose's enum validator.
- Missing required fields: a document without `charge`, `durationInHours` or another required field fails mongoose's `required` check before the hook runs. The model always has these fields.
- IEEE-754 rounding in `duration - 1` and `Math.ceil`: durations and money are exact reals.
- `Date` semantics: the current time is an opaque `Time` parameter.
- Status transitions, payment reconciliation and optimistic concurrency: the source has only the `status` enumeration, with no code that moves between statuses or applies payments, so there is nothing to model.
- The client authentication context, the HTTP client configuration, the API URL table and the Express/socket server wiring: these are UI, I/O and configuration, not booking logic. server/index.js, client/src/context/authContext.jsx, client/src/config/axios.js and client/src/config/api.js are not part of this model.
