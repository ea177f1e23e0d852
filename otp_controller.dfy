/**
 * The handlers of src/controller/otp.controller.ts: they normalise the body, reject a
 * missing field with 400 before touching the service, and answer 200 only when the
 * service call returned without throwing.
 */
module OtpController {
  import opened Wrappers
  import opened Strings
  import opened Json
  import opened ApiErrors
  import opened ApiResponses
  import opened KvStore
  import opened RequestInput
  import OtpService
  import OtpTemplate

  const EmailRequired := NewApiError(400, "Email is required to send OTP")
  const EmailAndOtpRequired := NewApiError(400, "Email and OTP are required for verification")
  const SentMessage := "OTP has been sent to the provided email address"
  const VerifiedMessage := "OTP verified successfully"

  /** `sendOtp`'s input step: the email handed to the service is the body's string,
      trimmed and lower-cased, and not empty; a missing, null or blank email is refused
      with 400, and an email that is not a string throws a TypeError. */
  function SendOtpInput(body: Json): (r: Result<string, Err>)
    ensures r.Success? ==> HasString(body, "email") && r.value == ToLower(Trim(body.fields["email"].s)) && r.value != ""
    ensures r.Success? <==> HasString(body, "email") && ToLower(Trim(body.fields["email"].s)) != ""
    ensures r.Failure? && (Get(body, "email").None? || Get(body, "email") == Some(JNull) || HasString(body, "email"))
      ==> r.error == EmailRequired
  {
    FieldOfCases(body, "email", true);
    var email := FieldOf(body, "email", true);
    if email.Failure? then Failure(email.error)
    else if !Present(email.value) then Failure(EmailRequired)
    else Success(email.value.value)
  }

  /** `verifyOtp`'s input step: the email is normalised as for `sendOtp` and the code is
      trimmed; if either is missing or blank the request is refused with 400. The email
      is normalised (and may throw) before the code is. */
  function VerifyOtpInput(body: Json): (r: Result<(string, string), Err>)
    ensures r.Success? <==>
      && HasString(body, "email") && HasString(body, "otp")
      && ToLower(Trim(body.fields["email"].s)) != "" && Trim(body.fields["otp"].s) != ""
    ensures r.Success? ==> r.value == (ToLower(Trim(body.fields["email"].s)), Trim(body.fields["otp"].s))
    ensures r.Failure? && (Get(body, "email").None? || Get(body, "email") == Some(JNull) || HasString(body, "email"))
      && (Get(body, "otp").None? || Get(body, "otp") == Some(JNull) || HasString(body, "otp"))
      ==> r.error == EmailAndOtpRequired
  {
    FieldOfCases(body, "email", true);
    FieldOfCases(body, "otp", false);
    var email := FieldOf(body, "email", true);
    if email.Failure? then Failure(email.error)
    else
      var otp := FieldOf(body, "otp", false);
      if otp.Failure? then Failure(otp.error)
      else if !Present(email.value) || !Present(otp.value) then Failure(EmailAndOtpRequired)
      else Success((email.value.value, otp.value.value))
  }

  /** The same email in a send and in a verify request names the same stored code. */
  lemma SendAndVerifyNormaliseAlike(sendBody: Json, verifyBody: Json)
    requires Get(sendBody, "email") == Get(verifyBody, "email")
    requires SendOtpInput(sendBody).Success? && VerifyOtpInput(verifyBody).Success?
    ensures OtpService.OtpKey(SendOtpInput(sendBody).value) == OtpService.OtpKey(VerifyOtpInput(verifyBody).value.0)
  {
  }

  /** `sendOtp`. A refused input changes nothing; otherwise the store changes as
      `generateOtp` says, the mail carries the template of the issued code, and the reply
      is 200 only if the code was issued and mailed: a refused generation or a failed
      send reaches the error middleware unchanged. */
  method SendOtp(store: Store, body: Json, sendFailure: Option<Err>)
    returns (out: Outcome, sent: Option<OtpService.OutgoingEmail>, ghost draw: nat)
    modifies store
    ensures OtpService.InOtpRange(draw)
    ensures SendOtpInput(body).Failure? ==>
      out == Throw(SendOtpInput(body).error) && sent == None && store.State() == old(store.State())
    ensures SendOtpInput(body).Success? ==>
      var (g, st) := OtpService.GenerateSpec(old(store.State()), SendOtpInput(body).value, draw);
      && store.State() == st
      && (out.Respond? <==> g.Success? && sendFailure.None?)
      && (out.Respond? ==> out == Respond(200, NewApiResponse(200, JNull, SentMessage), []))
      && (g.Failure? ==> out == Throw(g.error) && sent == None)
      && (g.Success? ==>
            && sent == Some(OtpService.OutgoingEmail(SendOtpInput(body).value, OtpService.OtpSubject,
                 OtpTemplate.OtpTemplate(g.value).text, OtpTemplate.OtpTemplate(g.value).html))
            && (sendFailure.Some? ==> out == Throw(sendFailure.value)))
  {
    draw := OtpService.RandomLow;
    var email := SendOtpInput(body);
    if email.Failure? {
      return Throw(email.error), None, draw;
    }
    var r;
    r, sent, draw := OtpService.SendOtpEmail(store, email.value, sendFailure);
    if r.Failure? {
      return Throw(r.error), sent, draw;
    }
    out := Respond(200, NewApiResponse(200, JNull, SentMessage), []);
  }

  /** `verifyOtp`. A refused input changes nothing; otherwise the store and the outcome
      are those of the service's `verifyOtp`. */
  method VerifyOtp(store: Store, body: Json) returns (out: Outcome)
    modifies store
    ensures VerifyOtpInput(body).Failure? ==>
      out == Throw(VerifyOtpInput(body).error) && store.State() == old(store.State())
    ensures VerifyOtpInput(body).Success? ==>
      var (email, otp) := VerifyOtpInput(body).value;
      var (v, st) := OtpService.VerifySpec(old(store.State()), email, otp);
      && store.State() == st
      && (v.Success? ==> out == Respond(200, NewApiResponse(200, JNull, VerifiedMessage), []))
      && (v.Failure? ==> out == Throw(v.error))
  {
    var input := VerifyOtpInput(body);
    if input.Failure? {
      return Throw(input.error);
    }
    var (email, otp) := input.value;
    var v := OtpService.VerifyOtp(store, email, otp);
    if v.Failure? {
      return Throw(v.error);
    }
    out := Respond(200, NewApiResponse(200, JNull, VerifiedMessage), []);
  }
}
