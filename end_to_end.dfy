/**
 * What happens when the two forms talk to the backend: the JSON request a form
 * builds is what the handler reads, and the handler's reply is what the form
 * classifies.
 */
module EndToEnd {
  import opened Wrappers
  import opened Http
  import PhoneFormat
  import AlertCheck
  import Registration
  import Backend
  import Toast

  /** `JSON.stringify` on the alert form's body, read back by `data.get`: no `message` field. */
  function SmsRequestOf(r: AlertCheck.AlertRequest): Backend.SmsRequest {
    Backend.SmsRequest(Some(r.phoneNumber), Some(r.location), None)
  }

  /** The registration body as `sign_in` reads it. */
  function SignInRequestOf(r: Registration.SignInRequest): Backend.SignInRequest {
    Backend.SignInRequest(Some(r.name), Some(r.email), Some(r.phoneNumber), Some(r.location))
  }

  /**
   * The location the alert form sends for a selectable county is a key of the
   * backend's alert table, so that county's alert is the text sent.
   */
  lemma AlertLocationIsAlertKey(phone: string, county: string)
    requires AlertCheck.IsCountyValue(county)
    ensures AlertCheck.LocationLabel(county) in Backend.Alerts
    ensures var req := SmsRequestOf(AlertCheck.RequestFor(phone, county));
      Backend.SendSmsDecide(req) == Backend.Dispatch("+" + phone, Backend.Alerts[AlertCheck.LocationLabel(county)])
  {
  }

  /**
   * The send-sms handler never sets a `success` field, so the alert form treats
   * every reply, including the 200 of a delivered SMS, as a failure; after a
   * delivered SMS the toast has an empty title and an empty description.
   */
  lemma AlertFormNeverSucceeds(d: Backend.SmsDecision, sendError: Option<string>)
    ensures !AlertCheck.Succeeded(Deliver(Backend.SendSmsReply(d, sendError)))
    ensures d.Dispatch? && sendError.None? ==>
      AlertCheck.OutcomeNote(Deliver(Backend.SendSmsReply(d, sendError))) == Toast.Notification("", "", true)
  {
  }

  /**
   * The registration form guarantees 12 digits but not the `254` prefix: the
   * backend inserts exactly when the digits start with `254`, and otherwise
   * answers 400 with its prefix message, which the form then shows.
   */
  lemma FormPhoneMeetsPrefixCheck(name: string, email: string, phone: string, location: string)
    requires PhoneFormat.WellFormed(phone)
    requires Registration.Validate(name, email, phone, location).None?
    ensures var d := Backend.SignInDecide(SignInRequestOf(Registration.RequestFor(name, email, phone, location)));
      (d.Insert? <==> phone[..3] == "254") &&
      (d.Insert? ==> d.user == Backend.UserRecord(name, email, "+" + phone, location)) &&
      (d.Reject? ==> d == Backend.Reject(400, Backend.BadPrefix))
  {
    var p := "+" + phone;
    assert Backend.Head4(p) == p[..4];
    assert p[..4][1..] == phone[..3];
  }

  /** "712345678901" is a fixed point of the normaliser and passes the registration form's checks. */
  lemma ExampleNumberAccepted()
    ensures PhoneFormat.Normalize("712345678901") == "712345678901"
    ensures Registration.Validate("Amina", "amina@example.com", "712345678901", "Nairobi").None?
  {
    var digits := "712345678901";
    assert |digits| == 12 && digits[0] == '7';
    assert PhoneFormat.AllDigits(digits) by {
      forall i | 0 <= i < 12 ensures PhoneFormat.IsDigit(digits[i]) {
        assert digits[i] in "0123456789";
      }
    }
    PhoneFormat.NormalizeFixesWellFormed(digits);
  }

  /** ... and the backend rejects that same registration at its prefix check. */
  lemma ExampleNumberRejected()
    ensures Backend.SignInDecide(SignInRequestOf(
              Registration.RequestFor("Amina", "amina@example.com", "712345678901", "Nairobi")))
            == Backend.Reject(400, Backend.BadPrefix)
  {
    var sent := "+712345678901";
    assert "+" + "712345678901" == sent;
    assert Backend.Head4(sent) == "+712";
    assert "+712" != "+254" by { assert "+712"[1] != "+254"[1]; }
  }

  /**
   * The registration round trip: the toast shows the backend's reason for a
   * 400, "Data not recorded" for an unrecorded insert, and success, with the
   * form reset, exactly when the record was inserted.
   */
  lemma RegistrationOutcome(d: Backend.SignInDecision, inserted: bool)
    ensures var o := Deliver(Backend.SignInReply(d, inserted));
      (Registration.Succeeded(o) <==> d.Insert? && inserted) &&
      (d.Reject? && d.message != "" ==> Registration.OutcomeNote(o).description == d.message) &&
      (d.Insert? && !inserted ==> Registration.OutcomeNote(o).description == "Data not recorded")
  {
  }

  /** Every rejection message of the sign-in chain is non-empty, so the form shows it verbatim. */
  lemma SignInRejectionShownVerbatim(req: Backend.SignInRequest)
    requires Backend.SignInDecide(req).Reject?
    ensures Registration.OutcomeNote(Deliver(Backend.SignInReply(Backend.SignInDecide(req), false))).description
            == Backend.SignInDecide(req).message
  {
  }
}
