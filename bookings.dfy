/** The `/api/bookings` route: validates a booking submission and acknowledges it. */
module Bookings {
  import opened Js
  import opened Http

  /** The parsed JSON request body. Every key may be missing; the seven required ones are
      checked for truthiness, `phone` and `specialRequests` are never looked at. */
  datatype BookingBody = BookingBody(
    propertyId: Option<JsNumber>,
    checkIn: Option<string>,
    checkOut: Option<string>,
    guests: Option<JsNumber>,
    firstName: Option<string>,
    lastName: Option<string>,
    email: Option<string>,
    phone: Option<string>,
    specialRequests: Option<string>)

  /** Whether every number in the body is finite (or missing). */
  predicate FiniteNumbers(body: BookingBody)
  {
    (body.propertyId.None? || body.propertyId.value.Finite?) &&
    (body.guests.None? || body.guests.value.Finite?)
  }

  /** The body as the route receives it once the client has serialised it as JSON and
      Next.js has parsed it: strings are unchanged, non-finite numbers arrive as `null`. */
  function Transmit(body: BookingBody): (r: BookingBody)
    ensures r.(propertyId := body.propertyId, guests := body.guests) == body
    ensures forall f :: Present(r, f) ==> Present(body, f)
    ensures FiniteNumbers(body) ==> r == body
  {
    body.(propertyId := JsonNumber(body.propertyId), guests := JsonNumber(body.guests))
  }

  /** A JSON `{message}`, a JSON `{error}`, or plain text passed to `res.end`. */
  datatype Reply = Message(message: string) | Error(error: string) | Ended(text: string)

  const SubmittedMessage := "Booking submitted successfully"
  const MissingFieldsError := "Missing required booking fields"

  /** The keys the route insists on. */
  datatype RequiredField = PropertyId | CheckIn | CheckOut | Guests | FirstName | LastName | Email

  /** Whether the body's value for `f` is truthy. */
  predicate Present(body: BookingBody, f: RequiredField)
  {
    match f
    case PropertyId => NumberTruthy(body.propertyId)
    case CheckIn => StringTruthy(body.checkIn)
    case CheckOut => StringTruthy(body.checkOut)
    case Guests => NumberTruthy(body.guests)
    case FirstName => StringTruthy(body.firstName)
    case LastName => StringTruthy(body.lastName)
    case Email => StringTruthy(body.email)
  }

  /** The route's validation as written: seven negated fields joined by `||`. */
  predicate MissingRequired(body: BookingBody)
  {
    !NumberTruthy(body.propertyId) ||
    !StringTruthy(body.checkIn) ||
    !StringTruthy(body.checkOut) ||
    !NumberTruthy(body.guests) ||
    !StringTruthy(body.firstName) ||
    !StringTruthy(body.lastName) ||
    !StringTruthy(body.email)
  }

  /** The `||` chain fails exactly when some required field is falsy. */
  lemma MissingRequiredMeansSomeAbsent(body: BookingBody)
    ensures MissingRequired(body) <==> exists f :: !Present(body, f)
  {
    if MissingRequired(body) {
      var f :=
        if !NumberTruthy(body.propertyId) then PropertyId
        else if !StringTruthy(body.checkIn) then CheckIn
        else if !StringTruthy(body.checkOut) then CheckOut
        else if !NumberTruthy(body.guests) then Guests
        else if !StringTruthy(body.firstName) then FirstName
        else if !StringTruthy(body.lastName) then LastName
        else Email;
      assert !Present(body, f);
    } else {
      forall f ensures Present(body, f) {
      }
    }
  }

  /** The route handler: one response per request, and nothing kept between calls. */
  function Handle(verb: Option<string>, body: BookingBody): (r: Response<Reply>)
    ensures r.status == 201 <==> verb == Some("POST") && forall f :: Present(body, f)
    ensures r.status == 400 <==> verb == Some("POST") && exists f :: !Present(body, f)
    ensures r.status == 405 <==> verb != Some("POST")
    ensures r.status == 201 ==> r.allow == None && r.body == Message(SubmittedMessage)
    ensures r.status == 400 ==> r.allow == None && r.body == Error(MissingFieldsError)
    ensures r.status == 405 ==> r.allow == Some(["POST"]) && r.body == Ended(NotAllowedText(verb))
  {
    MissingRequiredMeansSomeAbsent(body);
    if verb == Some("POST") then
      if MissingRequired(body) then
        Response(400, None, Error(MissingFieldsError))
      else
        Response(201, None, Message(SubmittedMessage))
    else
      Response(405, Some(["POST"]), Ended(NotAllowedText(verb)))
  }

  /** The response depends on the body only through which required fields are truthy:
      no submitted value is echoed back, and `phone` and `specialRequests` never matter. */
  lemma ResponseDependsOnlyOnPresence(verb: Option<string>, b1: BookingBody, b2: BookingBody)
    requires forall f :: Present(b1, f) <==> Present(b2, f)
    ensures Handle(verb, b1) == Handle(verb, b2)
  {
  }

  /** Changing or dropping the optional fields never changes the outcome. */
  lemma OptionalFieldsIgnored(verb: Option<string>, body: BookingBody, phone: Option<string>, specialRequests: Option<string>)
    ensures Handle(verb, body.(phone := phone, specialRequests := specialRequests)) == Handle(verb, body)
  {
  }

  /** A numeric `0` for guests (or propertyId) counts as missing. */
  lemma ZeroGuestsRejected(body: BookingBody)
    requires body.guests == Some(Finite(0.0))
    ensures Handle(Some("POST"), body).status == 400
    ensures Handle(Some("POST"), body).body == Error(MissingFieldsError)
  {
  }

  /** A complete submission is acknowledged with 201. */
  lemma CompleteSubmissionAccepted()
    ensures Handle(Some("POST"), BookingBody(Some(Finite(1.0)), Some("2024-08-24"), Some("2024-08-27"),
                   Some(Finite(2.0)), Some("A"), Some("B"), Some("a@b.com"), None, None))
            == Response(201, None, Message(SubmittedMessage))
  {
  }

  /** A body holding only `propertyId` is refused with 400. */
  lemma PropertyIdOnlyRejected()
    ensures Handle(Some("POST"), BookingBody(Some(Finite(1.0)), None, None, None, None, None, None, None, None))
            == Response(400, None, Error(MissingFieldsError))
  {
  }
}
