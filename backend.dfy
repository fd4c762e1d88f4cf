/**
 * The request handlers of the Flask backend: the validation chain of
 * `/sign-in`, the message choice of `/send-sms`, and the keyword auto-reply of
 * `/sms-callback`. The MongoDB insert and the SMS gateway are foreign; their
 * effect on the reply enters as a parameter.
 */
module Backend {
  import opened Wrappers
  import opened Http

  const KisumuAlert := "🚨 Malaria outbreak in Kisumu! Visit Kisumu County Referral Hospital."
  const NairobiAlert := "⚠️ Cholera alert in Nairobi. Visit Mama Lucy Hospital."
  const MombasaAlert := "🦠 Dengue outbreak in Mombasa. Nearest care: Mombasa General Hospital."

  /** The per-county alert texts, keyed by county label. */
  const Alerts: map<string, string> :=
    map["Kisumu" := KisumuAlert, "Nairobi" := NairobiAlert, "Mombasa" := MombasaAlert]

  const DefaultAlert := "Stay safe. Follow health guidelines."
  const ThankYou := "Thank you for your response. We will follow up shortly."

  const InvalidPhone := "Invalid Phone Number"
  const BadPrefix := "Please Make sure the phone number starts with +254"
  const NoName := "Name not Found"
  const NoEmail := "Email not Found"
  const NoLocation := "Location not Found"
  const PhoneRequired := "Phone number is required"

  /** Python truthiness of a JSON string field: present and non-empty. */
  predicate Truthy(f: Option<string>) {
    f.Some? && f.value != ""
  }

  /** Python `s[0:4]`: the first four characters, or the whole string when shorter. */
  function Head4(s: string): (r: string)
    ensures |r| == if |s| < 4 then |s| else 4
    ensures r == s[..|r|]
  {
    if |s| <= 4 then s else s[..4]
  }

  /** `phone_number[0:4] == "+254"` */
  predicate HasKenyanPrefix(phone: Option<string>)
    ensures HasKenyanPrefix(phone) ==> phone.Some? && |phone.value| >= 4 && phone.value[..4] == "+254"
  {
    phone.Some? && Head4(phone.value) == "+254"
  }

  // ---------------------------------------------------------------- /sign-in

  /** The fields `sign_in` reads from the JSON body; each may be absent. */
  datatype SignInRequest = SignInRequest(name: Option<string>, email: Option<string>, phoneNumber: Option<string>, location: Option<string>)

  /** The document handed to `users.insert_one`. */
  datatype UserRecord = UserRecord(name: string, email: string, phoneNumber: string, location: string)

  /** An early return with its status and message, or the insert that a valid request reaches. */
  datatype SignInDecision = Reject(code: int, message: string) | Insert(user: UserRecord)

  /** `sign_in` up to the insert: five checks, each returning 400 with its own message. */
  function SignInDecide(req: SignInRequest): (d: SignInDecision)
    ensures d.Reject? ==> d.code == 400
    ensures d.Insert? <==>
      Truthy(req.phoneNumber) && HasKenyanPrefix(req.phoneNumber) &&
      Truthy(req.name) && Truthy(req.email) && Truthy(req.location)
    ensures d.Insert? ==>
      d.user == UserRecord(req.name.value, req.email.value, req.phoneNumber.value, req.location.value)
  {
    if !Truthy(req.phoneNumber) then Reject(400, InvalidPhone)
    else if Head4(req.phoneNumber.value) != "+254" then Reject(400, BadPrefix)
    else if !Truthy(req.name) then Reject(400, NoName)
    else if !Truthy(req.email) then Reject(400, NoEmail)
    else if !Truthy(req.location) then Reject(400, NoLocation)
    else Insert(UserRecord(req.name.value, req.email.value, req.phoneNumber.value, req.location.value))
  }

  /** One validation of the chain: whether it passes, and the message it returns if not. */
  datatype Check = Check(passes: bool, message: string)

  /** The sign-in validations in the order the handler runs them. */
  function SignInChecks(req: SignInRequest): seq<Check> {
    [ Check(Truthy(req.phoneNumber), InvalidPhone),
      Check(HasKenyanPrefix(req.phoneNumber), BadPrefix),
      Check(Truthy(req.name), NoName),
      Check(Truthy(req.email), NoEmail),
      Check(Truthy(req.location), NoLocation) ]
  }

  /** The message of the first check that fails, if any: an early-return chain read as data. */
  function FirstFailure(checks: seq<Check>): (r: Option<string>)
    ensures r.None? <==> forall i :: 0 <= i < |checks| ==> checks[i].passes
    ensures r.Some? ==> exists i :: 0 <= i < |checks| && !checks[i].passes && checks[i].message == r.value &&
                                    forall j :: 0 <= j < i ==> checks[j].passes
  {
    if checks == [] then None
    else if !checks[0].passes then Some(checks[0].message)
    else
      var rest := FirstFailure(checks[1..]);
      assert forall i :: 1 <= i < |checks| ==> checks[i] == checks[1..][i - 1];
      assert rest.Some? ==> exists i :: 1 <= i < |checks| && !checks[i].passes && checks[i].message == rest.value &&
                                        forall j :: 0 <= j < i ==> checks[j].passes by {
        if rest.Some? {
          var k :| 0 <= k < |checks[1..]| && !checks[1..][k].passes && checks[1..][k].message == rest.value &&
                   forall j :: 0 <= j < k ==> checks[1..][j].passes;
          assert forall j :: 0 <= j < k + 1 ==> checks[j].passes by {
            forall j | 0 <= j < k + 1 ensures checks[j].passes {
              if j > 0 { assert checks[j] == checks[1..][j - 1]; }
            }
          }
        }
      }
      rest
  }

  /** The first failing check decides the response; if none fails the record is inserted. */
  lemma SignInFirstFailureDecides(req: SignInRequest)
    ensures FirstFailure(SignInChecks(req)).Some? ==>
      SignInDecide(req) == Reject(400, FirstFailure(SignInChecks(req)).value)
    ensures FirstFailure(SignInChecks(req)).None? <==> SignInDecide(req).Insert?
  {
    var c0, c1, c2, c3, c4 := SignInChecks(req)[0], SignInChecks(req)[1], SignInChecks(req)[2],
                              SignInChecks(req)[3], SignInChecks(req)[4];
    assert SignInChecks(req) == [c0, c1, c2, c3, c4];
    assert [c0, c1, c2, c3, c4][1..] == [c1, c2, c3, c4];
    assert [c1, c2, c3, c4][1..] == [c2, c3, c4];
    assert [c2, c3, c4][1..] == [c3, c4];
    assert [c3, c4][1..] == [c4];
    assert [c4][1..] == [];
  }

  /** Whatever reaches the insert has a phone that starts with `+254`; shorter phones never do. */
  lemma StoredPhoneHasKenyanPrefix(req: SignInRequest)
    ensures SignInDecide(req).Insert? ==>
      |SignInDecide(req).user.phoneNumber| >= 4 && SignInDecide(req).user.phoneNumber[..4] == "+254"
    ensures req.phoneNumber.Some? && |req.phoneNumber.value| < 4 ==> SignInDecide(req).Reject?
  {
  }

  /**
   * The reply of `sign_in`. `inserted` is the truthiness of what `insert_one`
   * returned, a value this model cannot see.
   */
  function SignInReply(d: SignInDecision, inserted: bool): (r: Reply)
    ensures d.Reject? ==> r.code == d.code && r.body.message == Some(d.message) && r.body.status.None?
    ensures d.Insert? ==> r.code == 200
    ensures d.Insert? && inserted ==> r.body == EmptyBody.(status := Some("success"))
    ensures d.Insert? && !inserted ==> r.body.status == Some("Failure") && r.body.message == Some("Data not recorded")
    ensures r.body.success.None?
  {
    match d
    case Reject(code, msg) => Reply(code, EmptyBody.(message := Some(msg)))
    case Insert(_) =>
      if inserted then Reply(200, EmptyBody.(status := Some("success")))
      else Reply(200, EmptyBody.(status := Some("Failure"), message := Some("Data not recorded")))
  }

  // --------------------------------------------------------------- /send-sms

  /** The fields `send_sms` reads from the JSON body. */
  datatype SmsRequest = SmsRequest(phoneNumber: Option<string>, location: Option<string>, message: Option<string>)

  /** `data.get("message") or alerts.get(location, "Stay safe. Follow health guidelines.")` */
  function SmsText(req: SmsRequest): (text: string)
    ensures Truthy(req.message) ==> text == req.message.value
    ensures !Truthy(req.message) && req.location.Some? && req.location.value in Alerts ==> text == Alerts[req.location.value]
    ensures !Truthy(req.message) && (req.location.None? || req.location.value !in Alerts) ==> text == DefaultAlert
  {
    if Truthy(req.message) then req.message.value
    else if req.location.Some? && req.location.value in Alerts then Alerts[req.location.value]
    else DefaultAlert
  }

  /** The text sent is never empty: an explicit message, a county alert, or the default. */
  lemma SmsTextChoices(req: SmsRequest)
    ensures SmsText(req) != ""
    ensures (req.message.Some? && SmsText(req) == req.message.value) ||
            SmsText(req) in {KisumuAlert, NairobiAlert, MombasaAlert, DefaultAlert}
  {
  }

  /** A missing phone stops the handler; otherwise one SMS goes to that phone. */
  datatype SmsDecision = MissingPhone | Dispatch(recipient: string, text: string)

  function SendSmsDecide(req: SmsRequest): (d: SmsDecision)
    ensures d.MissingPhone? <==> !Truthy(req.phoneNumber)
    ensures d.Dispatch? ==> d.recipient == req.phoneNumber.value && d.text == SmsText(req)
  {
    var text := SmsText(req);
    if !Truthy(req.phoneNumber) then MissingPhone else Dispatch(req.phoneNumber.value, text)
  }

  /**
   * The reply of `send_sms`. `sendError` is the text of the exception that
   * `sms.send` raised, if it raised one.
   */
  function SendSmsReply(d: SmsDecision, sendError: Option<string>): (r: Reply)
    ensures d.MissingPhone? ==> r.code == 400 && r.body == EmptyBody.(message := Some(PhoneRequired))
    ensures d.Dispatch? && sendError.None? ==> r.code == 200 && r.body == EmptyBody.(status := Some("success"))
    ensures d.Dispatch? && sendError.Some? ==>
      r.code == 500 && r.body.message == Some("An error occurred while sending SMS") && r.body.error == sendError
    ensures r.body.success.None?
  {
    match d
    case MissingPhone => Reply(400, EmptyBody.(message := Some(PhoneRequired)))
    case Dispatch(_, _) =>
      match sendError
      case None => Reply(200, EmptyBody.(status := Some("success")))
      case Some(e) => Reply(500, EmptyBody.(message := Some("An error occurred while sending SMS"), error := Some(e)))
  }

  // ----------------------------------------------------------- /sms-callback

  /** ASCII lower-casing of one character. */
  function LowerChar(c: char): char {
    if 'A' <= c <= 'Z' then (c as int + 32) as char else c
  }

  /** `str.lower()`, restricted to the ASCII letters. */
  function Lower(s: string): (r: string)
    ensures |r| == |s|
    ensures forall i :: 0 <= i < |r| ==> !('A' <= r[i] <= 'Z')
    ensures forall i :: 0 <= i < |s| ==> r[i] == s[i] || ('A' <= s[i] <= 'Z' && r[i] as int == s[i] as int + 32)
  {
    seq(|s|, i requires 0 <= i < |s| => LowerChar(s[i]))
  }

  /** Lower-casing twice is lower-casing once. */
  lemma LowerIdempotent(s: string)
    ensures Lower(Lower(s)) == Lower(s)
  {
  }

  /** `sub` occurs in `s` starting at index `i`. */
  ghost predicate OccursAt(s: string, sub: string, i: int) {
    0 <= i && i + |sub| <= |s| && s[i..i + |sub|] == sub
  }

  /** Python `sub in s` on strings, scanning from the left. */
  function Contains(s: string, sub: string): (b: bool)
    ensures b ==> |sub| <= |s|
    ensures |sub| <= |s| && s[..|sub|] == sub ==> b
    decreases |s|
  {
    if |s| < |sub| then false else s[..|sub|] == sub || Contains(s[1..], sub)
  }

  /** The scan agrees with the definition of substring occurrence. */
  lemma {:induction false} ContainsIff(s: string, sub: string)
    ensures Contains(s, sub) <==> exists i :: OccursAt(s, sub, i)
    decreases |s|
  {
    if |s| < |sub| {
      assert forall i :: !OccursAt(s, sub, i);
    } else if s[..|sub|] == sub {
      assert OccursAt(s, sub, 0);
    } else {
      ContainsIff(s[1..], sub);
      if Contains(s[1..], sub) {
        var i :| OccursAt(s[1..], sub, i);
        assert s[i + 1..i + 1 + |sub|] == s[1..][i..i + |sub|];
        assert OccursAt(s, sub, i + 1);
      } else {
        forall i | OccursAt(s, sub, i) ensures false {
          assert i != 0;
          assert 0 <= i - 1 && i - 1 + |sub| <= |s[1..]|;
          var shifted, here := s[1..][i - 1..i - 1 + |sub|], s[i..i + |sub|];
          forall k | 0 <= k < |sub| ensures shifted[k] == here[k] {
            assert s[1..][i - 1 + k] == s[i + k];
          }
          assert shifted == here;
          assert OccursAt(s[1..], sub, i - 1);
        }
      }
    }
  }

  /** The auto-reply: the first county keyword found in the lower-cased text wins. */
  function AutoReply(text: string): (reply: string)
    ensures reply in {KisumuAlert, NairobiAlert, MombasaAlert, ThankYou}
  {
    var t := Lower(text);
    if Contains(t, "kisumu") then Alerts["Kisumu"]
    else if Contains(t, "nairobi") then Alerts["Nairobi"]
    else if Contains(t, "mombasa") then Alerts["Mombasa"]
    else ThankYou
  }

  /** The keyword match ignores case: lower-casing the text first does not change the reply. */
  lemma AutoReplyIgnoresCase(text: string)
    ensures AutoReply(Lower(text)) == AutoReply(text)
  {
    LowerIdempotent(text);
  }

  /** Each reply is given exactly when its keyword is present and no earlier keyword is. */
  lemma AutoReplyPriority(text: string)
    ensures var t := Lower(text);
      && (AutoReply(text) == Alerts["Kisumu"] <==> Contains(t, "kisumu"))
      && (AutoReply(text) == Alerts["Nairobi"] <==> !Contains(t, "kisumu") && Contains(t, "nairobi"))
      && (AutoReply(text) == Alerts["Mombasa"] <==>
            !Contains(t, "kisumu") && !Contains(t, "nairobi") && Contains(t, "mombasa"))
      && (AutoReply(text) == ThankYou <==>
            !Contains(t, "kisumu") && !Contains(t, "nairobi") && !Contains(t, "mombasa"))
  {
  }

  /** The four reply texts differ from one another. */
  lemma AlertTextsDistinct()
    ensures KisumuAlert != NairobiAlert && KisumuAlert != MombasaAlert && NairobiAlert != MombasaAlert
    ensures ThankYou != KisumuAlert && ThankYou != NairobiAlert && ThankYou != MombasaAlert
  {
  }

  /**
   * `receive_sms`: the reply it sends, or `None` when the form has no `text`
   * field and `message.lower()` raises before any reply is chosen.
   */
  function ReceiveSms(text: Option<string>): (reply: Option<string>)
    ensures reply.None? <==> text.None?
    ensures text.Some? ==> reply == Some(AutoReply(text.value))
  {
    match text
    case None => None
    case Some(t) => Some(AutoReply(t))
  }
}
