/** The booking form component: its state cells, its change and submit handlers, and what it renders. */
module BookingForm {
  import opened Js
  import Bookings
  import Http

  /** The names of the form's twelve inputs. */
  datatype Field =
    | FirstName | LastName | Email | PhoneNumber
    | CardNumber | ExpirationDate | Cvv
    | BillingAddress | City | State | ZipCode | Country

  /** The `formData` state cell: one string per input. */
  datatype FormData = FormData(
    firstName: string, lastName: string, email: string, phoneNumber: string,
    cardNumber: string, expirationDate: string, cvv: string,
    billingAddress: string, city: string, state: string, zipCode: string, country: string)
  {
    /** `formData[name]` */
    function Get(f: Field): string
    {
      match f
      case FirstName => firstName
      case LastName => lastName
      case Email => email
      case PhoneNumber => phoneNumber
      case CardNumber => cardNumber
      case ExpirationDate => expirationDate
      case Cvv => cvv
      case BillingAddress => billingAddress
      case City => city
      case State => state
      case ZipCode => zipCode
      case Country => country
    }

    /** `{...formData, [f]: v}`: the one named field replaced, every other kept. */
    function With(f: Field, v: string): (r: FormData)
      ensures r.Get(f) == v
      ensures forall g :: g != f ==> r.Get(g) == Get(g)
    {
      match f
      case FirstName => this.(firstName := v)
      case LastName => this.(lastName := v)
      case Email => this.(email := v)
      case PhoneNumber => this.(phoneNumber := v)
      case CardNumber => this.(cardNumber := v)
      case ExpirationDate => this.(expirationDate := v)
      case Cvv => this.(cvv := v)
      case BillingAddress => this.(billingAddress := v)
      case City => this.(city := v)
      case State => this.(state := v)
      case ZipCode => this.(zipCode := v)
      case Country => this.(country := v)
    }
  }

  /** The value `formData` starts from and is reset to after a successful booking. */
  const EmptyForm := FormData("", "", "", "", "", "", "", "", "", "", "", "")

  const FillRequiredError := "Please fill in all required fields"
  const SubmitFailedError := "Failed to submit booking. Please try again."

  /** The placeholder stay the form sends in place of date and guest pickers. */
  const PlaceholderCheckIn := "2024-08-24"
  const PlaceholderCheckOut := "2024-08-27"
  const PlaceholderGuests := 2.0

  /** The form's own check before posting: the four contact fields are non-empty. */
  predicate PassesLocalCheck(form: FormData)
  {
    form.firstName != "" && form.lastName != "" && form.email != "" && form.phoneNumber != ""
  }

  /** The contact fields the local check insists on. */
  predicate LocallyRequired(f: Field)
  {
    f == FirstName || f == LastName || f == Email || f == PhoneNumber
  }

  /** The local check holds exactly when every locally required field is non-empty;
      card and billing fields are never checked. */
  lemma LocalCheckCoversContactFields(form: FormData)
    ensures PassesLocalCheck(form) <==> forall f :: LocallyRequired(f) ==> form.Get(f) != ""
  {
    if !PassesLocalCheck(form) {
      var f := if form.firstName == "" then FirstName
               else if form.lastName == "" then LastName
               else if form.email == "" then Email
               else PhoneNumber;
      assert LocallyRequired(f) && form.Get(f) == "";
    }
  }

  /** `parts` separated by `sep`, as `Array.prototype.join` writes them. */
  function JoinWith(parts: seq<string>, sep: string): string
  {
    if |parts| == 0 then ""
    else if |parts| == 1 then parts[0]
    else parts[0] + sep + JoinWith(parts[1..], sep)
  }

  /** The billing address fields, in the order the payload folds them. */
  function BillingParts(form: FormData): seq<string>
  {
    [form.billingAddress, form.city, form.state, form.zipCode, form.country]
  }

  /** The `bookingPayload` object literal: the prop (or 1 when it is falsy), the placeholder
      stay, and the four contact fields under the route's names. */
  function BuildPayload(propertyId: Option<JsNumber>, form: FormData): (p: Bookings.BookingBody)
    ensures NumberTruthy(p.propertyId)
    ensures NumberTruthy(propertyId) ==> p.propertyId == propertyId
    ensures !NumberTruthy(propertyId) ==> p.propertyId == Some(Finite(1.0))
    ensures p.checkIn == Some("2024-08-24") && p.checkOut == Some("2024-08-27")
    ensures p.guests == Some(Finite(2.0))
    ensures p.firstName == Some(form.Get(FirstName)) && p.lastName == Some(form.Get(LastName))
    ensures p.email == Some(form.Get(Email)) && p.phone == Some(form.Get(PhoneNumber))
  {
    Bookings.BookingBody(
      propertyId := if NumberTruthy(propertyId) then propertyId else Some(Finite(1.0)),
      checkIn := Some(PlaceholderCheckIn),
      checkOut := Some(PlaceholderCheckOut),
      guests := Some(Finite(PlaceholderGuests)),
      firstName := Some(form.firstName),
      lastName := Some(form.lastName),
      email := Some(form.email),
      phone := Some(form.phoneNumber),
      specialRequests := Some(form.billingAddress + ", " + form.city + ", " + form.state + ", "
                              + form.zipCode + ", " + form.country))
  }

  /** `specialRequests` is the five billing fields joined by ", " in order, so it is never
      empty: blank billing fields still send the four separators. */
  lemma SpecialRequestsJoinBilling(propertyId: Option<JsNumber>, form: FormData)
    ensures BuildPayload(propertyId, form).specialRequests == Some(JoinWith(BillingParts(form), ", "))
    ensures |BuildPayload(propertyId, form).specialRequests.value| ==
            |form.billingAddress| + |form.city| + |form.state| + |form.zipCode| + |form.country| + 8
  {
    var parts := BillingParts(form);
    var a, b, c, d, e := form.billingAddress, form.city, form.state, form.zipCode, form.country;
    assert parts[1..][1..][1..][1..] == [e];
    calc {
      JoinWith(parts, ", ");
      a + ", " + JoinWith(parts[1..], ", ");
      a + ", " + (b + ", " + JoinWith(parts[1..][1..], ", "));
      a + ", " + (b + ", " + (c + ", " + JoinWith(parts[1..][1..][1..], ", ")));
      a + ", " + (b + ", " + (c + ", " + (d + ", " + e)));
      a + ", " + b + ", " + c + ", " + d + ", " + e;
    }
  }

  /** Whether the prop is `Infinity` or `-Infinity`: truthy, so the payload keeps it, but
      not representable in JSON. */
  predicate InfiniteProp(propertyId: Option<JsNumber>)
  {
    propertyId.Some? && propertyId.value.Infinity?
  }

  /** Across the two files: once the local check passes, the route answers what the form
      sends with 201 exactly when the prop is not infinite. An infinite prop keeps
      `propertyId` in the payload, JSON turns it into `null`, and the route answers 400. */
  lemma SentPayloadAccepted(propertyId: Option<JsNumber>, form: FormData)
    requires PassesLocalCheck(form)
    ensures var r := Bookings.Handle(Some("POST"), Bookings.Transmit(BuildPayload(propertyId, form)));
      && (r.status == 201 <==> !InfiniteProp(propertyId))
      && (r.status != 201 ==> r == Http.Response(400, None, Bookings.Error(Bookings.MissingFieldsError)))
  {
    var p := BuildPayload(propertyId, form);
    if InfiniteProp(propertyId) {
      assert !Bookings.Present(Bookings.Transmit(p), Bookings.PropertyId);
    }
  }

  /** How `axios.post` settled: it resolves on a 2xx answer, and rejects on any other
      status or a network failure. */
  datatype PostOutcome = Resolved | Rejected

  /** What the component renders. */
  datatype View =
    | Confirmation
    | Form(errorBanner: Option<string>, buttonLabel: string, buttonDisabled: bool)

  /** One mounted form: the `propertyId` prop and the four state cells. */
  class Form {
    const propertyId: Option<JsNumber>
    var formData: FormData
    var loading: bool
    var error: Option<string>
    var success: bool

    /** Mounting: every field empty, not loading, no error, not succeeded. */
    constructor (propertyId: Option<JsNumber>)
      ensures this.propertyId == propertyId
      ensures formData == EmptyForm && forall f :: formData.Get(f) == ""
      ensures !loading && error == None && !success
    {
      this.propertyId := propertyId;
      formData := EmptyForm;
      loading := false;
      error := None;
      success := false;
    }

    /** The success view replaces the form; otherwise the form shows a non-empty error
        and a submit button that is disabled while loading. */
    function Render(): (v: View)
      reads this
      ensures v == Confirmation <==> success
      ensures v.Form? ==> v.buttonDisabled == loading
      ensures v.Form? ==> (v.buttonLabel == "Processing..." <==> loading)
      ensures v.Form? ==> (v.errorBanner.Some? <==> error.Some? && error.value != "")
      ensures v.Form? && v.errorBanner.Some? ==> Some(v.errorBanner.value) == error
    {
      if success then Confirmation
      else
        Form(if error.Some? && error.value != "" then error else None,
             if loading then "Processing..." else "Confirm & Pay",
             loading)
    }

    /** `handleChange`: overwrite the named field, leave everything else. */
    method HandleChange(name: Field, value: string)
      modifies this
      ensures formData.Get(name) == value
      ensures forall g :: g != name ==> formData.Get(g) == old(formData).Get(g)
      ensures loading == old(loading) && error == old(error) && success == old(success)
    {
      formData := formData.With(name, value);
    }

    /** The part of `handleSubmit` before `await`: clear the flags, run the local check,
        and either stop with an inline error or hand back the request to post. */
    method Submit() returns (request: Option<Bookings.BookingBody>)
      modifies this
      ensures request.Some? <==> PassesLocalCheck(formData)
      ensures formData == old(formData) && !success
      ensures request.None? ==> !loading && error == Some(FillRequiredError)
      ensures request.Some? ==> loading && error == None
      ensures request.Some? ==> request.value == BuildPayload(propertyId, formData)
    {
      loading := true;
      error := None;
      success := false;
      if !PassesLocalCheck(formData) {
        error := Some(FillRequiredError);
        loading := false;
        return None;
      }
      request := Some(BuildPayload(propertyId, formData));
    }

    /** The part of `handleSubmit` after `await`, with its `catch` and `finally`. */
    method Settle(outcome: PostOutcome)
      requires loading && error == None && !success
      modifies this
      ensures !loading
      ensures outcome == Resolved ==> success && error == None && formData == EmptyForm
      ensures outcome == Rejected ==>
        !success && error == Some(SubmitFailedError) && formData == old(formData)
    {
      match outcome {
        case Resolved =>
          success := true;
          formData := EmptyForm;
        case Rejected =>
          error := Some(SubmitFailedError);
      }
      loading := false;
    }

    /** `handleSubmit` run to completion with no other event in between. */
    method HandleSubmit(outcome: PostOutcome) returns (request: Option<Bookings.BookingBody>)
      modifies this
      ensures request.Some? <==> PassesLocalCheck(old(formData))
      ensures !loading
      ensures request.None? ==>
        formData == old(formData) && error == Some(FillRequiredError) && !success
      ensures request.Some? ==> request.value == BuildPayload(propertyId, old(formData))
      ensures request.Some? ==>
        (Bookings.Handle(Some("POST"), Bookings.Transmit(request.value)).status == 201 <==> !InfiniteProp(propertyId))
      ensures request.Some? && outcome == Resolved ==>
        success && error == None && formData == EmptyForm && Render() == Confirmation
      ensures request.Some? && outcome == Rejected ==>
        !success && error == Some(SubmitFailedError) && formData == old(formData)
        && Render() == Form(Some(SubmitFailedError), "Confirm & Pay", false)
    {
      request := Submit();
      if request.Some? {
        SentPayloadAccepted(propertyId, old(formData));
        Settle(outcome);
      }
    }
  }

  /** A user fills in every contact field but the first name and submits: no request
      leaves the form, which stays on screen with the inline error and its values. */
  method FirstNameLeftEmpty(outcome: PostOutcome) returns (request: Option<Bookings.BookingBody>, view: View)
    ensures request == None
    ensures view == Form(Some(FillRequiredError), "Confirm & Pay", false)
  {
    var form := new Form(None);
    form.HandleChange(LastName, "B");
    form.HandleChange(Email, "a@b.com");
    form.HandleChange(PhoneNumber, "555");
    assert form.formData.Get(FirstName) == "";
    request := form.HandleSubmit(outcome);
    view := form.Render();
  }

  /** A complete contact section submitted without a `propertyId` prop posts a booking
      for property 1, and a resolved post leaves the confirmation on screen. */
  method BookingWithoutPropertyProp() returns (request: Option<Bookings.BookingBody>, view: View)
    ensures request.Some? && request.value.propertyId == Some(Finite(1.0))
    ensures request.value.firstName == Some("A") && request.value.lastName == Some("B")
    ensures request.value.email == Some("a@b.com") && request.value.phone == Some("555")
    ensures view == Confirmation
  {
    var form := new Form(None);
    form.HandleChange(FirstName, "A");
    form.HandleChange(LastName, "B");
    form.HandleChange(Email, "a@b.com");
    form.HandleChange(PhoneNumber, "555");
    request := form.HandleSubmit(Resolved);
    view := form.Render();
  }
}
