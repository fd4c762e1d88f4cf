/**
 * The registration form (`SignIn`): name, email, phone number and county,
 * posted to the sign-in endpoint. As for the alert form, `handleSubmit` is
 * split at the `await` into `BeginSubmit` and `CompleteSubmit`.
 */
module Registration {
  import opened Wrappers
  import opened Http
  import opened Toast
  import PhoneFormat

  /** The selector's values; here each value is also its label. */
  const Locations: seq<string> := ["Nairobi", "Mombasa", "Kisumu"]


  const MissingInformation :=
    Notification("⚠️ Missing information", "Please fill in all required fields.", true)
  const InvalidPhoneNumber :=
    Notification("⚠️ Invalid phone number", "Please enter a valid Kenyan phone number.", true)
  const Registered :=
    Notification("✅ Registration successful!", "Your account has been created successfully.", false)
  const FailureTitle := "❌ Registration failed"
  const FailedToRegister := "Failed to register"
  const UnknownFailure := "Unable to create account. Please try again."

  /** The JSON body posted to the sign-in endpoint. */
  datatype SignInRequest = SignInRequest(name: string, email: string, phoneNumber: string, location: string)

  datatype Step = Rejected(note: Notification) | Sent(request: SignInRequest)

  /** The local checks of `handleSubmit`: all four fields present, then a 12-character phone. */
  function Validate(name: string, email: string, phone: string, location: string): (r: Option<Notification>)
    ensures r == Some(MissingInformation) <==> name == "" || email == "" || phone == "" || location == ""
    ensures r == Some(InvalidPhoneNumber) <==>
      name != "" && email != "" && phone != "" && location != "" && |phone| < PhoneFormat.MaxLength
    ensures r.None? <==>
      name != "" && email != "" && phone != "" && location != "" && |phone| >= PhoneFormat.MaxLength
  {
    if name == "" || email == "" || phone == "" || location == "" then Some(MissingInformation)
    else if |phone| < PhoneFormat.MaxLength then Some(InvalidPhoneNumber)
    else None
  }

  /** The request body: the fields as typed, with `+` before the stored digits. */
  function RequestFor(name: string, email: string, phone: string, location: string): (r: SignInRequest)
    ensures r.name == name && r.email == email && r.location == location
    ensures |r.phoneNumber| == |phone| + 1 && r.phoneNumber[0] == '+' && r.phoneNumber[1..] == phone
  {
    SignInRequest(name, email, "+" + phone, location)
  }

  /** The success test: `response.ok && result.status === "success"`. */
  predicate Succeeded(outcome: FetchOutcome)
    ensures Succeeded(outcome) ==> outcome.Responded? && outcome.ok
    ensures outcome.Threw? || outcome.body.status != Some("success") ==> !Succeeded(outcome)
  {
    outcome.Responded? && outcome.ok && outcome.body.status == Some("success")
  }

  /**
   * The toast shown once the request settles. A rejected response is rethrown
   * as `new Error(result.message || "Failed to register")` and caught.
   */
  function OutcomeNote(outcome: FetchOutcome): (n: Notification)
    ensures n.destructive <==> !Succeeded(outcome)
    ensures Succeeded(outcome) ==> n == Registered
    ensures !Succeeded(outcome) ==> n.title == FailureTitle
    ensures outcome.Responded? && !Succeeded(outcome) ==> n.description == OrElse(outcome.body.message, FailedToRegister)
    ensures outcome.Threw? && outcome.thrown.ErrorObject? ==> n.description == outcome.thrown.message
    ensures outcome == Threw(NonError) ==> n.description == UnknownFailure
  {
    if Succeeded(outcome) then Registered
    else
      var text := match outcome
        case Responded(_, body) => OrElse(body.message, FailedToRegister)
        case Threw(ErrorObject(m)) => m
        case Threw(NonError) => UnknownFailure;
      Notification(FailureTitle, text, true)
  }

  /** A rejected response never shows an empty reason: the server's message or the fallback. */
  lemma RejectionTextNeverEmpty(ok: bool, body: Body)
    requires !Succeeded(Responded(ok, body))
    ensures OutcomeNote(Responded(ok, body)).description != ""
    ensures body.message.Some? && body.message.value != "" ==> OutcomeNote(Responded(ok, body)).description == body.message.value
    ensures (body.message.None? || body.message == Some("")) ==> OutcomeNote(Responded(ok, body)).description == FailedToRegister
  {
  }

  /** The state of one mounted registration form. */
  class SignInForm {
    var name: string
    var email: string
    var phoneNumber: string
    var location: string
    var isLoading: bool

    /** The phone field only ever holds normaliser output; the location is empty or selectable. */
    ghost predicate Valid()
      reads this
    {
      PhoneFormat.WellFormed(phoneNumber) && (location == "" || location in Locations)
    }

    constructor ()
      ensures Valid()
      ensures name == "" && email == "" && phoneNumber == "" && location == "" && !isLoading
    {
      name, email, phoneNumber, location, isLoading := "", "", "", "", false;
    }

    /** The name input's `onChange`. */
    method SetName(value: string)
      requires Valid()
      modifies this`name
      ensures Valid() && name == value
    {
      name := value;
    }

    /** The email input's `onChange`. */
    method SetEmail(value: string)
      requires Valid()
      modifies this`email
      ensures Valid() && email == value
    {
      email := value;
    }

    /** `handlePhoneChange`: store the normalised phone number. */
    method HandlePhoneChange(value: string)
      requires Valid()
      modifies this`phoneNumber
      ensures Valid() && phoneNumber == PhoneFormat.Normalize(value)
    {
      phoneNumber := PhoneFormat.Normalize(value);
    }

    /** The county selector's `onValueChange`. */
    method SelectLocation(value: string)
      requires Valid()
      requires value in Locations
      modifies this`location
      ensures Valid() && location == value
    {
      location := value;
    }

    /**
     * The first half of `handleSubmit`: a failed check shows its toast and
     * changes nothing; otherwise `isLoading` becomes true and the request is sent.
     */
    method BeginSubmit() returns (step: Step)
      requires Valid()
      modifies this`isLoading
      ensures Valid()
      ensures step.Rejected? <==> Validate(name, email, phoneNumber, location).Some?
      ensures step.Rejected? ==> step.note == Validate(name, email, phoneNumber, location).value && isLoading == old(isLoading)
      ensures step.Sent? ==> isLoading && step.request == RequestFor(name, email, phoneNumber, location)
      ensures step.Sent? ==> |phoneNumber| == PhoneFormat.MaxLength && location in Locations
    {
      var rejection := Validate(name, email, phoneNumber, location);
      if rejection.Some? {
        return Rejected(rejection.value);
      }
      isLoading := true;
      step := Sent(RequestFor(name, email, phoneNumber, location));
    }

    /**
     * The second half of `handleSubmit`: the toast for the outcome, all four
     * fields reset on success only, and `isLoading` cleared on every path.
     */
    method CompleteSubmit(outcome: FetchOutcome) returns (note: Notification)
      requires Valid()
      modifies this
      ensures Valid()
      ensures note == OutcomeNote(outcome)
      ensures !isLoading
      ensures Succeeded(outcome) ==> name == "" && email == "" && phoneNumber == "" && location == ""
      ensures !Succeeded(outcome) ==>
        name == old(name) && email == old(email) && phoneNumber == old(phoneNumber) && location == old(location)
    {
      note := OutcomeNote(outcome);
      if Succeeded(outcome) {
        name, email, phoneNumber, location := "", "", "", "";
      }
      isLoading := false;
    }

    /** A whole submission whose request, if one is sent, settles with `outcome`. */
    method Submit(outcome: FetchOutcome) returns (note: Notification, request: Option<SignInRequest>)
      requires Valid()
      modifies this
      ensures Valid()
      ensures request.None? <==> Validate(old(name), old(email), old(phoneNumber), old(location)).Some?
      ensures request.None? ==> note == Validate(old(name), old(email), old(phoneNumber), old(location)).value
      ensures request.None? ==>
        name == old(name) && email == old(email) && phoneNumber == old(phoneNumber) &&
        location == old(location) && isLoading == old(isLoading)
      ensures request.Some? ==>
        request.value == RequestFor(old(name), old(email), old(phoneNumber), old(location)) &&
        note == OutcomeNote(outcome) && !isLoading
      ensures request.Some? && Succeeded(outcome) ==> name == "" && email == "" && phoneNumber == "" && location == ""
      ensures request.Some? && !Succeeded(outcome) ==>
        name == old(name) && email == old(email) && phoneNumber == old(phoneNumber) && location == old(location)
    {
      var step := BeginSubmit();
      match step
      case Rejected(n) =>
        note, request := n, None;
      case Sent(r) =>
        note := CompleteSubmit(outcome);
        request := Some(r);
    }
  }
}
