/**
 * The client's request body as the server reads it: what the browser's
 * validation guarantees about the server's guards, and where the two
 * disagree.
 */
module EndToEnd {
  import opened Wrappers
  import opened Text
  import opened FieldValidation
  import opened ContactForm
  import opened ContactServer

  /** `JSON.stringify(formData)` as the dictionary `request.get_json()` yields. */
  function RequestJson(d: FormData, tokenKey: string): (m: map<string, string>)
    requires tokenKey !in {"name", "email", "message"}
    ensures m.Keys == {"name", "email", "message", tokenKey}
    ensures GetOrEmpty(m, "name") == d.name && GetOrEmpty(m, "email") == d.email
    ensures GetOrEmpty(m, "message") == d.message && GetOrEmpty(m, tokenKey) == d.token
  {
    map["name" := d.name, "email" := d.email, "message" := d.message, tokenKey := d.token]
  }

  /**
   * A form the client lets through, sent under the server's token key,
   * passes the server's first two guards exactly when its message is not all
   * Python whitespace; it then reaches verification.
   */
  lemma ValidFormReachesVerification(d: FormData, env: Env, google: SiteVerifyOutcome, smtp: SmtpOutcome)
    requires ErrorsFor(d) == NoErrors && d.token != ""
    ensures (Contact(RequestJson(d, TokenKey), env, google, smtp).body !in
      {Error(EmptyMessageText), Error(MissingTokenText)}) <==> !AllIn(d.message, IsPySpace)
    ensures !AllIn(d.message, IsPySpace) ==>
      Contact(RequestJson(d, TokenKey), env, google, smtp).verification
        == VerifyRecaptcha(d.token, env.recaptchaSecret, google).sent
  {
    var r := Contact(RequestJson(d, TokenKey), env, google, smtp);
    assert GetOrEmpty(RequestJson(d, TokenKey), TokenKey) == d.token;
    if !AllIn(d.message, IsPySpace) {
      assert r.body != Error(EmptyMessageText) && r.body != Error(MissingTokenText);
    } else {
      assert r.body == Error(EmptyMessageText);
    }
  }

  /**
   * The two whitespace sets differ: ten U+001C characters make a message the
   * client accepts and the server refuses as empty.
   */
  lemma ClientAndServerDisagreeOnBlank(d: FormData, env: Env, google: SiteVerifyOutcome, smtp: SmtpOutcome)
    requires d.message == seq(10, _ => '\U{001C}')
    ensures ValidateField("message", d.message) == None
    ensures Contact(RequestJson(d, TokenKey), env, google, smtp).body == Error(EmptyMessageText)
  {
    var m := d.message;
    assert !IsJsWhitespace(m[0]) && !IsJsWhitespace(m[9]);
    TrimPadded([], m, [], IsJsWhitespace);
    assert [] + m + [] == m;
    assert forall k :: 0 <= k < |m| ==> m[k] as int <= 0xFFFF;
    assert AllIn(m, IsPySpace);
  }

  /**
   * The hook's own revision names the token `turnstile_token`; the server
   * reads `recaptcha_token`, so such a body is always refused for a missing
   * token once it has a message.
   */
  lemma TurnstileKeyIsNotRead(d: FormData, env: Env, google: SiteVerifyOutcome, smtp: SmtpOutcome)
    requires !AllIn(d.message, IsPySpace)
    ensures Contact(RequestJson(d, "turnstile_token"), env, google, smtp) == Reply(400, Error(MissingTokenText), None, None)
  {
    assert TokenKey !in RequestJson(d, "turnstile_token");
  }
}
