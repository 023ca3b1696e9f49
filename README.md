# Booking flow of a property-rental web app, in Dafny

This project models the three pieces of the rental app that carry real behaviour:

- the `/api/bookings` route, which checks that a booking submission has its seven required
  fields and answers 201, 400 or 405;
- the `/api/properties` route, which returns the property fixture on GET and 405 otherwise;
- the booking form component: its `formData`, `loading`, `error` and `success` state, its
  `handleChange` and `handleSubmit` handlers, and whether it renders the confirmation or the form.

The two routes are pure functions from (request method, request body or fixture) to a
`Response` value holding the status, the `Allow` header (if set) and the body. Writing to
the response object becomes building that value. The form is a class whose fields are its
state cells, and its handlers are methods that update them.

JavaScript truthiness is spelled out in `js.dfy`. A missing key is `None`. A string is falsy
when it is missing or `""`. A number is falsy when it is missing, `0`, `-0` or `NaN`.

Files:

- `js.dfy`: `Option`, JavaScript numbers, truthiness.
- `http.dfy`: the `Response` value and the `Method <m> Not Allowed` text.
- `bookings.dfy`: the bookings route, its required-field check, and lemmas about it.
- `properties.dfy`: the properties route.
- `booking_form.dfy`: the form's field data, the payload it builds, the class `Form`, and
  the lemma tying the payload to the bookings route.

`handleSubmit` suspends at `await axios.post(...)`, and other events can run while it waits.
So it is modelled in two steps. `Form.Submit` covers everything before the `await`, and
`Form.Settle` covers everything after it, including `catch` and `finally`. `Form.HandleSubmit`
runs the two back to back. A `handleChange` may therefore be placed between them, as in the
running component. The outcome of the post is an input to the model: `Resolved` or `Rejected`.

## Model

| member | source | states |
|---|---|---|
| `Bookings.Handle` | pages/api/bookings.ts:18-48 | Exactly one of 201, 400 and 405 is produced. The status is 201 iff the method is POST and every required field is truthy. It is 400 iff the method is POST and some required field is falsy. It is 405 iff the method is not POST. Each status comes with its fixed body: the 201 message, the 400 error, or `Method <m> Not Allowed`. `Allow: ["POST"]` is set only on 405. |
| `Bookings.MissingRequiredMeansSomeAbsent` | pages/api/bookings.ts:26-34 | The source's chain of seven negated fields joined by `\|\|` fails exactly when some required field is falsy. |
| `Bookings.ResponseDependsOnlyOnPresence` | pages/api/bookings.ts:35-43 | Two bodies with the same truthy/falsy pattern on the seven required fields get identical responses. So no submitted value is echoed back. |
| `Bookings.OptionalFieldsIgnored` | pages/api/bookings.ts:12-13 | Changing or removing `phone` and `specialRequests` never changes the response. |
| `Bookings.ZeroGuestsRejected` | pages/api/bookings.ts:30-35 | A POST whose `guests` is the number 0 gets 400 with `Missing required booking fields`. |
| `Bookings.CompleteSubmissionAccepted` | pages/api/bookings.ts:43 | A POST with all seven fields filled in gets 201 with `Booking submitted successfully`, and no `Allow` header. |
| `Bookings.PropertyIdOnlyRejected` | pages/api/bookings.ts:26-36 | A POST carrying only `propertyId` gets 400 with the missing-fields error. |
| `Http.NotAllowedText` | pages/api/bookings.ts:46 | The 405 text reads `Method `, then the request's method (`undefined` when absent), then ` Not Allowed`. |
| `Js.JsonNumber` | components/booking/BookingForm.tsx:69 | A number posted as JSON comes back unchanged when finite. It is truthy after the trip exactly when it was truthy and finite, so `Infinity`, `-Infinity` and `NaN` arrive falsy (as `null`). |
| `Bookings.Transmit` | pages/api/bookings.ts:23 | The body the route reads equals the one the client built, except for its numbers. No required field becomes truthy on the way. A body whose numbers are all finite arrives unchanged. |
| `Properties.Handle` | pages/api/properties.ts:7-17 | The status is 200 iff the method is GET; otherwise it is 405. A 200 body is exactly the fixture sequence. `Allow` is set, to exactly `["GET"]`, iff the status is 405. A 405 body is `Method <m> Not Allowed`. Being a function of the method and the fixture, the route never changes the fixture, and two GETs return equal bodies. |
| `BookingForm.FormData.With` | components/booking/BookingForm.tsx:31-34 | `{...prev, [name]: value}` sets the named field and leaves the other eleven unchanged. |
| `BookingForm.LocalCheckCoversContactFields` | components/booking/BookingForm.tsx:45-50 | The local check passes iff first name, last name, email and phone number are all non-empty. No other field is checked. |
| `BookingForm.BuildPayload` | components/booking/BookingForm.tsx:57-67 | The payload's `propertyId` is the prop when truthy, else 1, and is always truthy. The dates are `2024-08-24` and `2024-08-27`, and guests is 2. First name, last name and email are copied, and `phone` is the phone number. |
| `BookingForm.SpecialRequestsJoinBilling` | components/booking/BookingForm.tsx:66 | `specialRequests` is billing address, city, state, zip code and country joined with `", "` in that order. Its length is their total plus 8, so it is never empty. |
| `BookingForm.SentPayloadAccepted` | components/booking/BookingForm.tsx:45-69 | For every form that passes the local check, the route answers the payload as it arrives after JSON encoding with 201 exactly when the `propertyId` prop is not `Infinity` or `-Infinity`. An infinite prop is truthy and is kept, JSON sends it as `null`, and the route answers 400 with the missing-fields error. |
| `BookingForm.Form.constructor` | components/booking/BookingForm.tsx:9-26 | On mount all twelve fields are `""`, `loading` is false, `error` is null and `success` is false. |
| `BookingForm.Form.Render` | components/booking/BookingForm.tsx:96-115 | The confirmation is shown iff `success`. Otherwise the form shows the error banner iff the error is a non-empty string. Its button is disabled, and reads `Processing...`, iff `loading`. |
| `BookingForm.Form.HandleChange` | components/booking/BookingForm.tsx:28-36 | The named field takes the new value. The other eleven fields and all three flags are unchanged. |
| `BookingForm.Form.Submit` | components/booking/BookingForm.tsx:38-67 | `formData` is never changed and `success` ends false. If the local check fails, nothing is sent, `loading` ends false and `error` is `Please fill in all required fields`. Otherwise the built payload is sent, `loading` is true and `error` is null. |
| `BookingForm.Form.Settle` | components/booking/BookingForm.tsx:69-93 | It runs only while a request is in flight: `loading` true, no error, no success. `loading` ends false. On a resolved post, `success` is set, the error stays null and all fields reset to `""`. On a rejected post, `error` is `Failed to submit booking. Please try again.`, `success` stays false and the fields are kept. |
| `BookingForm.Form.HandleSubmit` | components/booking/BookingForm.tsx:38-94 | Exactly the submissions that pass the local check send a request. The route accepts that request with 201 unless the `propertyId` prop is infinite. With no request, the fields are unchanged and the required-fields error is set. A resolved post ends with `success`, no error, every field `""` and the confirmation view. A rejected post ends with the failure error, `success` false, the fields retained, and an enabled form showing the error. `loading` always ends false. |
| `BookingForm.FirstNameLeftEmpty` | components/booking/BookingForm.tsx:45-54 | A fresh form with every contact field but the first name filled in sends no request on submit. It stays on screen with `Please fill in all required fields` and an enabled `Confirm & Pay` button. |
| `BookingForm.BookingWithoutPropertyProp` | components/booking/BookingForm.tsx:58-87 | A fresh form without a `propertyId` prop, with its four contact fields filled in, posts a booking for property 1 carrying those values. After a resolved post it shows the confirmation. |

## Left out

- The network. `axios.post` is replaced by its outcome, `Resolved` or `Rejected`, given as an input. With its default settings axios rejects on a non-2xx status and on transport failures. JSON encoding is modelled only as far as the route can observe it: strings and finite numbers pass unchanged, and non-finite numbers arrive as `null`, which the model writes as a missing value. The route tests only truthiness, so it cannot tell the two apart.
- `console.log` and `console.error` calls: they only write logs.
- Field names other than the twelve inputs' names. `handleChange` would add such a name as a new key, but every input in the form carries one of the twelve.
- Request bodies that are not JSON objects, and values of the wrong JSON type (for example `propertyId` sent as a string). The body is modelled with the types the route declares.
- The property records. The fixture is an opaque, read-only sequence of records of any type.
- The single-property route (`pages/api/properties/[id].ts`) and the reviews route (`pages/api/properties/[id]/reviews.ts`): they are not part of this model.
- The review section, the property detail page, the booking page and the cancellation policy: they are rendering and fetch glue.
- The stale-response race when a page's property id changes during a fetch: it happens in effects outside the modelled components.
- JSX layout, styling and the browser-side `required` attributes on inputs.
