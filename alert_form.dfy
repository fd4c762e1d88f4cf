/**
 * The alert-check form (`AfyaApp`): a phone number and a county, submitted to
 * the send-sms endpoint. The form's state is a class; `handleSubmit` is split
 * into the synchronous part before the request (`BeginSubmit`) and the part
 * that runs when the request settles (`CompleteSubmit`).
 */
module AlertCheck {
  import opened Wrappers
  import opened Http
  import opened Toast
  import PhoneFormat

  /** An entry of the county selector: the value stored in the form and the label shown. */
  datatype County = County(value: string, caption: string)

  const Counties: seq<County> :=
    [County("nairobi", "Nairobi"), County("mombasa", "Mombasa"), County("kisumu", "Kisumu")]


  const MissingInformation :=
    Notification("⚠️ Missing information", "Please fill in both phone number and county.", true)
  const InvalidPhoneNumber :=
    Notification("⚠️ Invalid phone number", "Please enter a valid Kenyan phone number.", true)
  const SuccessTitle := "✅ Alert check successful!"
  const UnknownFailure := "Unable to check for health alerts. Please try again."

  /** The JSON body posted to the send-sms endpoint. */
  datatype AlertRequest = AlertRequest(phoneNumber: string, location: string)

  /** The first step of a submission: a local rejection, or a request put on the wire. */
  datatype Step = Rejected(note: Notification) | Sent(request: AlertRequest)

  /** `counties.find(c => c.value === v)`: the first entry whose value is `v`. */
  function FindCounty(cs: seq<County>, v: string): (r: Option<County>)
    ensures r.Some? ==> r.value in cs && r.value.value == v
    ensures r.None? ==> forall i :: 0 <= i < |cs| ==> cs[i].value != v
    ensures r.Some? ==> exists i :: 0 <= i < |cs| && cs[i] == r.value && forall j :: 0 <= j < i ==> cs[j].value != v
  {
    if cs == [] then None
    else if cs[0].value == v then Some(cs[0])
    else
      var r := FindCounty(cs[1..], v);
      assert r.Some? ==> exists i :: 0 <= i < |cs| && cs[i] == r.value && forall j :: 0 <= j < i ==> cs[j].value != v by {
        if r.Some? {
          var k :| 0 <= k < |cs[1..]| && cs[1..][k] == r.value && forall j :: 0 <= j < k ==> cs[1..][j].value != v;
          forall j | 0 <= j < k + 1 ensures cs[j].value != v {
            if j > 0 { assert cs[j] == cs[1..][j - 1]; }
          }
          assert cs[k + 1] == r.value;
        }
      }
      r
  }

  /** A county the selector can store. */
  predicate IsCountyValue(v: string) {
    FindCounty(Counties, v).Some?
  }

  /** `counties.find(...)?.label || county`: the label of the selected county, else the raw value. */
  function LocationLabel(county: string): (r: string)
    ensures IsCountyValue(county) ==> r == FindCounty(Counties, county).value.caption
    ensures !IsCountyValue(county) ==> r == county
  {
    match FindCounty(Counties, county)
    case Some(c) => if c.caption != "" then c.caption else county
    case None => county
  }

  /** Each selectable value is sent as its label; anything else is sent unchanged. */
  lemma LocationLabelTable(county: string)
    ensures county == "nairobi" ==> LocationLabel(county) == "Nairobi"
    ensures county == "mombasa" ==> LocationLabel(county) == "Mombasa"
    ensures county == "kisumu" ==> LocationLabel(county) == "Kisumu"
    ensures IsCountyValue(county) <==> county in {"nairobi", "mombasa", "kisumu"}
    ensures county !in {"nairobi", "mombasa", "kisumu"} ==> LocationLabel(county) == county
  {
  }

  /**
   * The local checks of `handleSubmit`, in order: both fields present, then a
   * phone of at least 12 characters. `None` means the request goes out.
   */
  function Validate(phone: string, county: string): (r: Option<Notification>)
    ensures r == Some(MissingInformation) <==> phone == "" || county == ""
    ensures r == Some(InvalidPhoneNumber) <==> phone != "" && county != "" && |phone| < PhoneFormat.MaxLength
    ensures r.None? <==> phone != "" && county != "" && |phone| >= PhoneFormat.MaxLength
  {
    if phone == "" || county == "" then Some(MissingInformation)
    else if |phone| < PhoneFormat.MaxLength then Some(InvalidPhoneNumber)
    else None
  }

  /** A phone number the form holds and lets through has exactly 12 digits. */
  lemma AcceptedPhoneIsFullLength(phone: string, county: string)
    requires PhoneFormat.WellFormed(phone)
    requires Validate(phone, county).None?
    ensures |phone| == PhoneFormat.MaxLength && PhoneFormat.AllDigits(phone) && phone[0] != '0'
  {
  }

  /** The request body built from the form: `+` before the stored digits, and the county's label. */
  function RequestFor(phone: string, county: string): (r: AlertRequest)
    ensures |r.phoneNumber| == |phone| + 1 && r.phoneNumber[0] == '+' && r.phoneNumber[1..] == phone
    ensures r.location == LocationLabel(county)
  {
    AlertRequest("+" + phone, LocationLabel(county))
  }

  /** The success test of `handleSubmit`: `response.ok && result.success`. */
  predicate Succeeded(outcome: FetchOutcome)
    ensures Succeeded(outcome) ==> outcome.Responded? && outcome.ok
    ensures outcome.Threw? || outcome.body.success != Some(true) ==> !Succeeded(outcome)
  {
    outcome.Responded? && outcome.ok && outcome.body.success == Some(true)
  }

  /**
   * The toast shown once the request settles. A failed response is rethrown as
   * `new Error(result.message || "")` and caught, so its text is the message or "".
   */
  function OutcomeNote(outcome: FetchOutcome): (n: Notification)
    ensures n.destructive <==> !Succeeded(outcome)
    ensures Succeeded(outcome) ==> n.title == SuccessTitle && n.description == Interpolate(outcome.body.message) + " 📱"
    ensures !Succeeded(outcome) ==> n.title == ""
    ensures outcome.Responded? && !Succeeded(outcome) ==> n.description == OrElse(outcome.body.message, "")
    ensures outcome.Threw? && outcome.thrown.ErrorObject? ==> n.description == outcome.thrown.message
    ensures outcome == Threw(NonError) ==> n.description == UnknownFailure
  {
    if Succeeded(outcome) then
      Notification(SuccessTitle, Interpolate(outcome.body.message) + " 📱", false)
    else
      var text := match outcome
        case Responded(_, body) => OrElse(body.message, "")
        case Threw(ErrorObject(m)) => m
        case Threw(NonError) => UnknownFailure;
      Notification("", text, true)
  }

  /** The state of one mounted alert-check form. */
  class AlertForm {
    var phoneNumber: string
    var county: string
    var isLoading: bool

    /** The phone field only ever holds normaliser output; the county is empty or selectable. */
    ghost predicate Valid()
      reads this
    {
      PhoneFormat.WellFormed(phoneNumber) && (county == "" || IsCountyValue(county))
    }

    /** `useState({ phoneNumber: "", county: "" })` and `useState(false)`. */
    constructor ()
      ensures Valid()
      ensures phoneNumber == "" && county == "" && !isLoading
    {
      phoneNumber, county, isLoading := "", "", false;
    }

    /** `handlePhoneChange`: store the normalised phone number, keep the county. */
    method HandlePhoneChange(value: string)
      requires Valid()
      modifies this
      ensures Valid()
      ensures phoneNumber == PhoneFormat.Normalize(value)
      ensures county == old(county) && isLoading == old(isLoading)
    {
      phoneNumber := PhoneFormat.Normalize(value);
    }

    /** The selector's `onValueChange`: store the chosen county, keep the phone. */
    method SelectCounty(value: string)
      requires Valid()
      requires IsCountyValue(value)
      modifies this
      ensures Valid()
      ensures county == value
      ensures phoneNumber == old(phoneNumber) && isLoading == old(isLoading)
    {
      county := value;
    }

    /**
     * The first half of `handleSubmit`: a failed check shows its toast and
     * changes nothing; otherwise `isLoading` becomes true and the request is sent.
     */
    method BeginSubmit() returns (step: Step)
      requires Valid()
      modifies this`isLoading
      ensures Valid()
      ensures step.Rejected? <==> Validate(phoneNumber, county).Some?
      ensures step.Rejected? ==> step.note == Validate(phoneNumber, county).value && isLoading == old(isLoading)
      ensures step.Sent? ==> isLoading && step.request == RequestFor(phoneNumber, county)
      ensures step.Sent? ==> |phoneNumber| == PhoneFormat.MaxLength && IsCountyValue(county)
    {
      var rejection := Validate(phoneNumber, county);
      if rejection.Some? {
        return Rejected(rejection.value);
      }
      isLoading := true;
      step := Sent(RequestFor(phoneNumber, county));
    }

    /**
     * The second half of `handleSubmit`, once the request settles: the toast for
     * the outcome, the reset to empty fields on success only, and the `finally`
     * that clears `isLoading` on every path.
     */
    method CompleteSubmit(outcome: FetchOutcome) returns (note: Notification)
      requires Valid()
      modifies this
      ensures Valid()
      ensures note == OutcomeNote(outcome)
      ensures !isLoading
      ensures Succeeded(outcome) ==> phoneNumber == "" && county == ""
      ensures !Succeeded(outcome) ==> phoneNumber == old(phoneNumber) && county == old(county)
    {
      note := OutcomeNote(outcome);
      if Succeeded(outcome) {
        phoneNumber, county := "", "";
      }
      isLoading := false;
    }

    /** A whole submission whose request, if one is sent, settles with `outcome`. */
    method Submit(outcome: FetchOutcome) returns (note: Notification, request: Option<AlertRequest>)
      requires Valid()
      modifies this
      ensures Valid()
      ensures request.None? <==> Validate(old(phoneNumber), old(county)).Some?
      ensures request.None? ==> note == Validate(old(phoneNumber), old(county)).value
      ensures request.None? ==> phoneNumber == old(phoneNumber) && county == old(county) && isLoading == old(isLoading)
      ensures request.Some? ==> request.value == RequestFor(old(phoneNumber), old(county)) && note == OutcomeNote(outcome) && !isLoading
      ensures request.Some? && Succeeded(outcome) ==> phoneNumber == "" && county == ""
      ensures request.Some? && !Succeeded(outcome) ==> phoneNumber == old(phoneNumber) && county == old(county)
    {
      var step := BeginSubmit();
      match step
      case Rejected(n) =>
        note, request := n, None;
      case Sent(r) =>
        note := CompleteSubmit(outcome);
        request := Some(r);
    }
  }
}
