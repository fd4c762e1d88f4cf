# Afya Kenya alerts: a Dafny model of the forms and the backend rules

The system is a two-screen web client for Kenyan health alerts and the small
Flask backend it talks to:

- **Alert-check form** (`AfyaApp`): a phone number and a county; posts
  `{phoneNumber, location}` to `/send-sms`.
- **Registration form** (`SignIn`): name, email, phone number and county;
  posts them to `/sign-in`.
- **Backend** (`app.py`): the sign-in validation chain, the choice of SMS
  text for `/send-sms`, and the keyword auto-reply of `/sms-callback`.

Both forms run the same phone normaliser on every keystroke. It keeps the
ASCII digits, turns one leading trunk `0` into `254`, and cuts the result at
12 characters.

The model is organised as follows.

- `phone.dfy` (`PhoneFormat`): the normaliser as a pure function. It proves
  that the output is digits only, at most 12 long and never starts with `0`.
  It proves what happens with and without a trunk `0`, and that the
  normaliser is idempotent. It also proves that the strings a phone field can
  hold are exactly the well-formed ones.
- `alert_form.dfy` (`AlertCheck`) and `sign_in_form.dfy` (`Registration`):
  each form is a class with its form fields and `isLoading`. `handleSubmit`
  is split at its `await`. `BeginSubmit` runs the local checks and either
  rejects, leaving the state unchanged, or sets `isLoading` and builds the
  request. `CompleteSubmit` takes the fetch outcome as a parameter. It picks
  the toast, resets the fields on success only, and clears `isLoading` on
  every path. `Submit` runs the two halves in sequence. Each class keeps an
  invariant `Valid()`: the phone field holds normaliser output, and the
  county is empty or a selectable value.
- `backend.dfy` (`Backend`): the handlers as functions from request fields
  to a decision, and from a decision to a reply. The database insert and the
  SMS gateway enter as parameters.
- `end_to_end.dfy` (`EndToEnd`): what the forms and the backend do to each
  other. A selectable county is always sent as a key of the backend's alert
  table. The registration form guarantees 12 digits but not the `254`
  prefix, so `712345678901` passes the form and is rejected by the backend.
  The `/send-sms` handler never sends a `success` field, so the alert form
  treats every reply as a failure. After a delivered SMS its toast has an
  empty title and an empty description.
- `http.dfy` (`Http`, `Toast`) and `wrappers.dfy` (`Wrappers`): the JSON
  body, the fetch outcome, the JavaScript `||` and template interpolation,
  and the toast record.

Four behaviours of the code that are easy to misread:

- The forms do not check that a phone has exactly 12 digits. They reject
  lengths below 12. Because the normaliser caps the length at 12, the two
  agree (`AlertCheck.AcceptedPhoneIsFullLength`).
- A stored phone number is not always prefixed with `254`: a number typed
  without a trunk `0` keeps its own first digits.
- The registration form's fallback text for a rejected response is
  "Failed to register". The generic "Unable to create account" text appears
  only when something other than an `Error` is thrown.
- The success toast of the alert form interpolates `result.message`. If the
  field is absent, the text is `undefined 📱`.

## Model

| member | source | states |
|---|---|---|
| PhoneFormat.StripNonDigits | src/components/AfyaApp.tsx:49 | the result holds only the characters `0`..`9` and is no longer than the input |
| PhoneFormat.StripDigitsUnchanged | src/components/AfyaApp.tsx:49 | a string of digits only is left unchanged by the strip |
| PhoneFormat.StripSingle | src/components/AfyaApp.tsx:49 | a digit is kept and any other character is dropped; with StripConcat this fixes the strip on every input |
| PhoneFormat.StripConcat | src/components/AfyaApp.tsx:49 | the strip works character by character: it distributes over concatenation |
| PhoneFormat.Normalize | src/components/AfyaApp.tsx:47-57 | the stored phone is digits only, at most 12 long, and empty or not starting with `0` |
| PhoneFormat.TrunkZeroBecomesCountryCode | src/components/AfyaApp.tsx:50-55 | when the digits start with `0`, the result is `254` followed by the remaining digits, its length min(12, digits + 2) |
| PhoneFormat.NoTrunkZeroKeepsDigits | src/components/AfyaApp.tsx:49-55 | without a leading `0`, the result is the first min(12, digits) digits of the input |
| PhoneFormat.FullLengthNeedsDigits | src/components/AfyaApp.tsx:50-55 | the result has 12 characters exactly when the input has at least 12 digits, or at least 10 when the first is `0` |
| PhoneFormat.NormalizeFixesWellFormed | src/components/AfyaApp.tsx:47-57 | a well-formed phone (digits, at most 12, no leading `0`) is a fixed point |
| PhoneFormat.NormalizeIdempotent | src/components/AfyaApp.tsx:47-57 | normalising a normalised value returns it unchanged |
| PhoneFormat.WellFormedIsImage | src/components/SignIn.tsx:34-44 | a string is well-formed if and only if some input normalises to it |
| PhoneFormat.ExampleTrunkZero | src/components/AfyaApp.tsx:50-52 | `0712345678` becomes `254712345678` |
| PhoneFormat.ExampleShort | src/components/AfyaApp.tsx:114 | `12` is kept as typed and is shorter than the 12 a submission needs |
| AlertCheck.FindCounty | src/components/AfyaApp.tsx:133 | the entry found is the first one with the value searched for; `None` iff no entry has it |
| AlertCheck.LocationLabel | src/components/AfyaApp.tsx:131-134 | a selectable county is sent as its label, any other string unchanged |
| AlertCheck.LocationLabelTable | src/components/AfyaApp.tsx:32-36 | `nairobi`, `mombasa` and `kisumu` map to `Nairobi`, `Mombasa` and `Kisumu`; nothing else is selectable |
| AlertCheck.Validate | src/components/AfyaApp.tsx:105-121 | "Missing information" iff a field is empty; "Invalid phone number" iff both are present and the phone is shorter than 12; accepted otherwise |
| AlertCheck.AcceptedPhoneIsFullLength | src/components/AfyaApp.tsx:114-121 | a stored phone that passes the checks has exactly 12 digits and no leading `0` |
| AlertCheck.RequestFor | src/components/AfyaApp.tsx:131-134 | the body's phone is `+` followed by the stored digits; its location is the county's label |
| AlertCheck.Succeeded | src/components/AfyaApp.tsx:139 | success needs `response.ok` and `success` true; a throw or any other `success` value is a failure |
| AlertCheck.OutcomeNote | src/components/AfyaApp.tsx:139-155 | success toast iff `ok` and `success`; otherwise an empty title with `message` or `""`, the thrown error's message, or the generic text for a non-Error throw |
| AlertCheck.AlertForm.constructor | src/components/AfyaApp.tsx:24-28 | empty fields, not loading |
| AlertCheck.AlertForm.HandlePhoneChange | src/components/AfyaApp.tsx:47-57 | the phone becomes the normalised input; the county and `isLoading` are kept |
| AlertCheck.AlertForm.SelectCounty | src/components/AfyaApp.tsx:228 | the county becomes the selected value; the phone is kept |
| AlertCheck.AlertForm.BeginSubmit | src/components/AfyaApp.tsx:102-135 | a failed check gives its toast and leaves `isLoading` unchanged; otherwise `isLoading` is true and the request is built from the stored fields |
| AlertCheck.AlertForm.CompleteSubmit | src/components/AfyaApp.tsx:137-158 | the outcome's toast; fields reset only on success and kept otherwise; `isLoading` false on every path |
| AlertCheck.AlertForm.Submit | src/components/AfyaApp.tsx:102-159 | no request and nothing changed on a failed check; otherwise one request, the outcome's toast, reset only on success, `isLoading` false |
| Registration.Validate | src/components/SignIn.tsx:49-65 | "Missing information" iff any of the four fields is empty; "Invalid phone number" iff all are present and the phone is shorter than 12 |
| Registration.RequestFor | src/components/SignIn.tsx:75-80 | name, email and location as typed; the phone is `+` followed by the stored digits |
| Registration.Succeeded | src/components/SignIn.tsx:85 | success needs `response.ok` and status `"success"`; a throw or any other status is a failure |
| Registration.OutcomeNote | src/components/SignIn.tsx:85-101 | success toast iff `ok` and status `"success"`; otherwise "Registration failed" with `message`, else "Failed to register", the thrown error's message, or the generic text |
| Registration.RejectionTextNeverEmpty | src/components/SignIn.tsx:94 | a rejected response shows the server's non-empty message, else "Failed to register"; never an empty text |
| Registration.SignInForm.constructor | src/components/SignIn.tsx:19-25 | four empty fields, not loading |
| Registration.SignInForm.SetName | src/components/SignIn.tsx:145 | the name becomes the typed value |
| Registration.SignInForm.SetEmail | src/components/SignIn.tsx:164 | the email becomes the typed value |
| Registration.SignInForm.HandlePhoneChange | src/components/SignIn.tsx:34-44 | the phone becomes the normalised input and the invariant is kept |
| Registration.SignInForm.SelectLocation | src/components/SignIn.tsx:201 | the location becomes the selected county |
| Registration.SignInForm.BeginSubmit | src/components/SignIn.tsx:46-81 | a failed check gives its toast and leaves `isLoading` unchanged; otherwise `isLoading` is true and the request carries the four fields |
| Registration.SignInForm.CompleteSubmit | src/components/SignIn.tsx:83-104 | the outcome's toast; all four fields reset only on success; `isLoading` false on every path |
| Registration.SignInForm.Submit | src/components/SignIn.tsx:46-105 | no request and nothing changed on a failed check; otherwise one request, its toast, reset only on success, `isLoading` false |
| Backend.Head4 | backend/app.py:47 | Python `s[0:4]`: the first four characters, or all of a shorter string |
| Backend.HasKenyanPrefix | backend/app.py:47 | the check passes only for a phone of at least 4 characters whose first four are `+254` |
| Backend.SignInDecide | backend/app.py:44-59 | rejections are 400; the insert is reached iff all five checks pass, and the record holds exactly the four request fields |
| Backend.FirstFailure | backend/app.py:44-57 | no failure iff every check passes; otherwise the message of a failing check with every earlier check passing |
| Backend.SignInFirstFailureDecides | backend/app.py:44-57 | the handler's response is the message of the first failing check in the order phone, prefix, name, email, location |
| Backend.StoredPhoneHasKenyanPrefix | backend/app.py:47-48 | an inserted phone starts with `+254`; a phone shorter than 4 is always rejected |
| Backend.SignInReply | backend/app.py:44-59 | a rejection becomes its status and message; an insert becomes 200 with status `success`, or `Failure` and "Data not recorded" |
| Backend.SmsText | backend/app.py:67-68 | an explicit non-empty message, else the county's alert, else the default text |
| Backend.SmsTextChoices | backend/app.py:67-68 | the text sent is never empty and is the explicit message, one of the three alerts or the default |
| Backend.SendSmsDecide | backend/app.py:65-71 | no SMS iff the phone is missing or empty; otherwise one SMS to that phone with the chosen text |
| Backend.SendSmsReply | backend/app.py:70-82 | 400 "Phone number is required"; 200 with status `success`; or 500 with the gateway's error |
| Backend.Lower | backend/app.py:97 | same length, no upper-case ASCII letter left, and each character either kept or an upper-case letter moved to its lower-case form |
| Backend.LowerIdempotent | backend/app.py:97 | lower-casing twice is lower-casing once |
| Backend.Contains | backend/app.py:97-101 | Python `sub in s`: a match needs `sub` no longer than `s`, and a prefix match is a match |
| Backend.ContainsIff | backend/app.py:97-102 | the substring scan holds iff the keyword occurs at some index |
| Backend.AutoReply | backend/app.py:96-102 | the reply is one of the three alerts or the thank-you text |
| Backend.AutoReplyIgnoresCase | backend/app.py:97-101 | lower-casing the text first does not change the reply |
| Backend.AutoReplyPriority | backend/app.py:96-102 | each alert is chosen exactly when its keyword occurs and no earlier keyword (Kisumu, Nairobi, Mombasa) does; thank-you iff none occurs |
| Backend.AlertTextsDistinct | backend/app.py:29-33 | the three alerts and the thank-you text are pairwise different |
| Backend.ReceiveSms | backend/app.py:87-102 | a missing `text` field raises before any reply; otherwise the auto-reply of the text |
| Http.Deliver | src/components/AfyaApp.tsx:139 | the browser sees the server's body, with `response.ok` true iff the status is 200..299 |
| Http.OrElse | src/components/SignIn.tsx:94 | the JavaScript logical or of a message and a fallback: a non-empty message is kept, otherwise the fallback |
| Http.Interpolate | src/components/AfyaApp.tsx:142 | `${message}`: the string itself, or the word `undefined` when absent |
| EndToEnd.AlertLocationIsAlertKey | backend/app.py:29-33 | the location the alert form sends for a selectable county is a key of `alerts`, so that county's alert is texted to `+` and the digits |
| EndToEnd.AlertFormNeverSucceeds | src/components/AfyaApp.tsx:139-148 | no `/send-sms` reply passes the alert form's success test; a delivered SMS shows an empty failure toast |
| EndToEnd.FormPhoneMeetsPrefixCheck | backend/app.py:47-48 | a form-accepted registration is inserted iff its digits start with `254`, with exactly its fields; otherwise 400 with the prefix message |
| EndToEnd.ExampleNumberAccepted | src/components/SignIn.tsx:58-65 | `712345678901` is a fixed point of the normaliser and passes the registration form |
| EndToEnd.ExampleNumberRejected | backend/app.py:47-48 | the same registration is rejected by the backend's prefix check |
| EndToEnd.RegistrationOutcome | src/components/SignIn.tsx:85-100 | the form succeeds iff the record was inserted; a 400 shows the backend's message; an unrecorded insert shows "Data not recorded" |
| EndToEnd.SignInRejectionShownVerbatim | src/components/SignIn.tsx:94 | every sign-in rejection message reaches the registration toast unchanged |

## Left out

- Rendering: JSX, the UI components, the toast display and router links are presentational. Toasts are modelled as returned records.
- `fetch` and `response.json()`: these are foreign and asynchronous. Their result is the `FetchOutcome` parameter of `CompleteSubmit` and `Submit`. The request that was built is not tied to the outcome passed in.
- Geolocation: the permission query, `getCurrentPosition` and the bounding-box county guess are left out, because they are browser APIs over double-precision coordinates. The guess only ever stores one of the three selectable values, which is what `SelectCounty` does.
- Duplicate submissions: the event-loop timing of clicks while a request is in flight is left out. The disabled button is only rendering. `BeginSubmit` does not require `!isLoading`, as the handler does not check it.
- Stale closures: React's `{...formData, x}` updates from a render-time snapshot. The model updates the current fields directly.
- Flask routing, CORS, environment loading and the endpoint configuration are plumbing with no decisions. The registration form posts to a fixed local URL rather than the configured one; this makes no difference to the model.
- Foreign calls: the truthiness of what `users.insert_one` returns is the `inserted` parameter, and an exception from `sms.send` is the `sendError` parameter. The gateway's `response` field in the 200 body is not modelled, because no client reads it.
- Backend input types: JSON fields are modelled as absent or a string. A number, list or `null` body, and `get_json` failing, are left out.
- receive_sms: the `from`, `to`, `date` and `linkId` fields, the log line and the auto-reply's send failure (caught and ignored) are left out. Only the reply text is modelled.
- Backend.Lower: only ASCII letters are lower-cased. Python's Unicode case mapping, for example the Kelvin sign lowering to `k`, is not modelled.
