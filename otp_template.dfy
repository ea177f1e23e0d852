/** `otpTemplate` of src/emails/otpTemplate.ts: the plain-text and HTML bodies of the OTP
    email, each a fixed prefix, the code, and a fixed suffix. */
module OtpTemplate {
  import opened Wrappers
  import opened Strings

  datatype EmailContent = EmailContent(text: string, html: string)

  /** The validity the email announces. */
  const ValidityPhrase := "5 minutes"

  const TextPrefix := "Hello from Fugal Labs!\n\nYour One-Time Password (OTP) is: "
  const TextSuffix := "\n\nThis code is valid for " + ValidityPhrase
    + ". Please do not share this code with anyone.\n\nIf you did not request this, please ignore this email.\n\nThank you,\nThe Fugal Labs Team"

  const HtmlPrefix := "\n      <div style=\"font-family: Arial, sans-serif; max-width: 480px; margin: 0 auto;\">\n        <h2 style=\"color: #2d3748;\">Fugal Labs Verification</h2>\n        <p>Hello,</p>\n        <p>Your One-Time Password (OTP) is:</p>\n        <p style=\"font-size: 1.5em; font-weight: bold; color: #3182ce; letter-spacing: 2px;\">"
  const HtmlSuffix := "</p>\n        <p>This code is valid for <strong>" + ValidityPhrase
    + "</strong>.</p>\n        <p style=\"color: #e53e3e;\">Do not share this code with anyone.</p>\n        <hr style=\"margin: 24px 0; border: none; border-top: 1px solid #e2e8f0;\" />\n        <p style=\"font-size: 0.95em; color: #718096;\">If you did not request this OTP, you can safely ignore this email.</p>\n        <p style=\"margin-top: 24px;\">Thank you,<br/>The Fugal Labs Team</p>\n      </div>\n    "

  /** Both bodies contain the code; it sits right after the fixed prefix. */
  function OtpTemplate(otp: string): (r: EmailContent)
    ensures Contains(r.text, otp) && Contains(r.html, otp)
    ensures OccursAt(r.text, otp, |TextPrefix|) && OccursAt(r.html, otp, |HtmlPrefix|)
  {
    ContainsMiddle(TextPrefix, otp, TextSuffix);
    ContainsMiddle(HtmlPrefix, otp, HtmlSuffix);
    var text := TextPrefix + otp + TextSuffix;
    var html := HtmlPrefix + otp + HtmlSuffix;
    assert text[|TextPrefix|..|TextPrefix| + |otp|] == otp;
    assert html[|HtmlPrefix|..|HtmlPrefix| + |otp|] == otp;
    EmailContent(text, html)
  }

  /** Reads the code back out of a plain-text body, if it has the template's shape. */
  function OtpFromText(text: string): (r: Option<string>)
  {
    if |TextPrefix| + |TextSuffix| <= |text|
       && text[..|TextPrefix|] == TextPrefix
       && text[|text| - |TextSuffix|..] == TextSuffix
    then Some(text[|TextPrefix|..|text| - |TextSuffix|])
    else None
  }

  /** The code can be recovered from the text body, so the template is injective: equal
      emails mean equal codes, and the content depends on the code alone. */
  lemma TemplateRoundTrip(otp: string)
    ensures OtpFromText(OtpTemplate(otp).text) == Some(otp)
  {
    var text := OtpTemplate(otp).text;
    assert text == TextPrefix + otp + TextSuffix;
    assert text[..|TextPrefix|] == TextPrefix;
    assert text[|text| - |TextSuffix|..] == TextSuffix;
    assert text[|TextPrefix|..|text| - |TextSuffix|] == otp;
  }

  lemma TemplateInjective(a: string, b: string)
    requires OtpTemplate(a) == OtpTemplate(b)
    ensures a == b
  {
    TemplateRoundTrip(a);
    TemplateRoundTrip(b);
  }
}
