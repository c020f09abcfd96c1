/**
 * The Flask server: the `/contact` handler with its chain of guards, the
 * reCAPTCHA check it calls, and the fallback route for the single-page
 * application. The environment, the HTTP call to Google and the SMTP
 * session are inputs; what the handler sends to each is part of its result.
 */
module ContactServer {
  import opened Wrappers
  import opened Text

  const EmptyMessageText := "Message cannot be empty."
  const MissingTokenText := "Please complete the reCAPTCHA verification."
  const VerificationFailedText := "reCAPTCHA verification failed. Please try again."
  const SentText := "Message sent successfully!"
  const SmtpFailedText := "Failed to send message. Try again later."
  const SecretMissingText := "reCAPTCHA secret key not configured"

  const SiteVerifyUrl := "https://www.google.com/recaptcha/api/siteverify"
  const SiteVerifyTimeout := 10
  const SmtpHost := "smtp.mailbox.org"
  const SmtpPort := 465
  /** Stands for `app.static_folder`: the absolute directory `dist` under the application's root path. */
  const StaticFolder := "dist"
  const IndexFile := "index.html"

  /** The JSON key under which the client sends its verification token. */
  const TokenKey := "recaptcha_token"

  /** The process environment the server reads (`None` for an unset variable). */
  datatype Env = Env(recaptchaSecret: Option<string>, emailAddress: Option<string>, emailPassword: Option<string>)

  /** The form-encoded POST sent to Google's siteverify endpoint. */
  datatype SiteVerifyRequest = SiteVerifyRequest(url: string, secret: string, response: string, timeout: int)

  /** What the POST to Google produced: an exception of `requests`, or a decoded JSON reply. */
  datatype SiteVerifyOutcome =
    | RequestRaised(description: string)
    | Replied(success: Option<bool>, errorCodes: Option<seq<string>>)

  /** The second element of `verify_recaptcha`'s pair: a message or a list of codes. */
  datatype VerifyDetail = Note(text: string) | Codes(codes: seq<string>)

  /** `verify_recaptcha`'s pair, with the request it made, if any. */
  datatype VerifyResult = VerifyResult(valid: bool, detail: VerifyDetail, sent: Option<SiteVerifyRequest>)

  /** The `EmailMessage` the handler builds. */
  datatype EmailMessage = EmailMessage(subject: string, from: Option<string>, to: Option<string>, content: string)

  /** The SMTP session the handler opens: where, as whom, and what it sends. */
  datatype SmtpSession = SmtpSession(host: string, port: int, user: Option<string>, password: Option<string>, message: EmailMessage)

  /** Whether logging in and sending raised. */
  datatype SmtpOutcome = Delivered | SmtpRaised

  datatype Body = Success(success: string) | Error(error: string)

  /** The handler's HTTP reply, with what it sent to Google and to the mail server. */
  datatype Reply = Reply(status: int, body: Body, verification: Option<SiteVerifyRequest>, session: Option<SmtpSession>)

  /** `not value` for a Python string read from the environment. */
  predicate Unset(v: Option<string>)
  {
    v.None? || v.value == ""
  }

  /** `data.get(key, '')` */
  function GetOrEmpty(data: map<string, string>, key: string): (v: string)
    ensures key in data ==> v == data[key]
    ensures key !in data ==> v == ""
  {
    if key in data then data[key] else ""
  }

  /**
   * `verify_recaptcha`: without a secret no request is made and the token is
   * not valid; otherwise the token is valid exactly when Google replied with
   * `success` true.
   */
  function VerifyRecaptcha(token: string, secret: Option<string>, google: SiteVerifyOutcome): (r: VerifyResult)
    ensures Unset(secret) ==> r == VerifyResult(false, Note(SecretMissingText), None)
    ensures !Unset(secret) ==> r.sent == Some(SiteVerifyRequest(SiteVerifyUrl, secret.value, token, SiteVerifyTimeout))
    ensures !Unset(secret) && google.RequestRaised? ==>
      !r.valid && r.detail == Codes(["Request error: " + google.description])
    ensures r.valid <==> !Unset(secret) && google.Replied? && google.success == Some(true)
  {
    if Unset(secret) then
      VerifyResult(false, Note(SecretMissingText), None)
    else
      var request := SiteVerifyRequest(SiteVerifyUrl, secret.value, token, SiteVerifyTimeout);
      match google
      case RequestRaised(e) => VerifyResult(false, Codes(["Request error: " + e]), Some(request))
      case Replied(success, codes) => VerifyResult(success.GetOr(false), Codes(codes.GetOr([])), Some(request))
  }

  /**
   * The notification mail: the subject names the sender, and the content
   * gives the name, the email and the message verbatim, in that order,
   * under their labels. `content` is the argument passed to `set_content`,
   * before the library normalises line endings and adds a final newline.
   */
  function ComposeMessage(name: string, email: string, message: string, address: Option<string>): (m: EmailMessage)
    ensures m.from == address && m.to == address
    ensures m.subject == "Portfolio Contact from " + name
    ensures |m.content| == |name| + |email| + |message| + 25
    ensures m.content[..6] == "Name: " && m.content[6..6 + |name|] == name
    ensures m.content[6 + |name|..14 + |name|] == "\nEmail: "
    ensures m.content[14 + |name|..14 + |name| + |email|] == email
    ensures m.content[14 + |name| + |email|] == '\n'
    ensures m.content[|m.content| - |message|..] == message
    ensures m.content[|m.content| - |message| - 10..|m.content| - |message|] == "\nMessage:\n"
  {
    var content := "Name: " + name + "\nEmail: " + email + "\n\nMessage:\n" + message;
    EmailMessage("Portfolio Contact from " + name, address, address, content)
  }

  /**
   * `contact()`: the guards run in order (blank message, missing token,
   * failed verification) and only a request that passes all three opens an
   * SMTP session.
   */
  function Contact(data: map<string, string>, env: Env, google: SiteVerifyOutcome, smtp: SmtpOutcome): (r: Reply)
    ensures r.status in {200, 400, 500}
    ensures r.status == 200 <==> r.body.Success?
    ensures r.verification.Some? ==> !AllIn(GetOrEmpty(data, "message"), IsPySpace) && GetOrEmpty(data, TokenKey) != ""
    ensures r.session.Some? ==> r.verification.Some? && VerifyRecaptcha(GetOrEmpty(data, TokenKey), env.recaptchaSecret, google).valid
    ensures r.body.Success? <==> r.session.Some? && smtp == Delivered
  {
    var name := GetOrEmpty(data, "name");
    var email := GetOrEmpty(data, "email");
    var message := GetOrEmpty(data, "message");
    var token := GetOrEmpty(data, TokenKey);
    if PyStrip(message) == "" then
      Reply(400, Error(EmptyMessageText), None, None)
    else if token == "" then
      Reply(400, Error(MissingTokenText), None, None)
    else
      var check := VerifyRecaptcha(token, env.recaptchaSecret, google);
      if !check.valid then
        Reply(400, Error(VerificationFailedText), check.sent, None)
      else
        var session := SmtpSession(SmtpHost, SmtpPort, env.emailAddress, env.emailPassword,
                                   ComposeMessage(name, email, message, env.emailAddress));
        match smtp
        case Delivered => Reply(200, Success(SentText), check.sent, Some(session))
        case SmtpRaised => Reply(500, Error(SmtpFailedText), check.sent, Some(session))
  }

  /** A message that is empty or all whitespace is refused before the token is looked at. */
  lemma EmptyMessageRejectedFirst(data: map<string, string>, env: Env, google: SiteVerifyOutcome, smtp: SmtpOutcome)
    requires AllIn(GetOrEmpty(data, "message"), IsPySpace)
    ensures Contact(data, env, google, smtp) == Reply(400, Error(EmptyMessageText), None, None)
  {
  }

  /** A request without the message key is a blank message. */
  lemma MissingMessageKeyRejected(data: map<string, string>, env: Env, google: SiteVerifyOutcome, smtp: SmtpOutcome)
    requires "message" !in data
    ensures Contact(data, env, google, smtp) == Reply(400, Error(EmptyMessageText), None, None)
  {
  }

  /** With a message but no token, nothing is sent to Google. */
  lemma MissingTokenRejected(data: map<string, string>, env: Env, google: SiteVerifyOutcome, smtp: SmtpOutcome)
    requires !AllIn(GetOrEmpty(data, "message"), IsPySpace)
    requires GetOrEmpty(data, TokenKey) == ""
    ensures Contact(data, env, google, smtp) == Reply(400, Error(MissingTokenText), None, None)
  {
  }

  /** A token Google does not confirm, or a server without a secret, sends no mail. */
  lemma FailedVerificationRejected(data: map<string, string>, env: Env, google: SiteVerifyOutcome, smtp: SmtpOutcome)
    requires !AllIn(GetOrEmpty(data, "message"), IsPySpace)
    requires GetOrEmpty(data, TokenKey) != ""
    requires !(google.Replied? && google.success == Some(true)) || Unset(env.recaptchaSecret)
    ensures Contact(data, env, google, smtp).status == 400
    ensures Contact(data, env, google, smtp).body == Error(VerificationFailedText)
    ensures Contact(data, env, google, smtp).session == None
    ensures Contact(data, env, google, smtp).verification.Some? <==> !Unset(env.recaptchaSecret)
  {
  }

  /**
   * Past the guards, the mail built from the request is handed to the mail
   * server; the reply is 200 when sending succeeds and 500 when it raises.
   */
  lemma SendOutcome(data: map<string, string>, env: Env, google: SiteVerifyOutcome, smtp: SmtpOutcome)
    requires !AllIn(GetOrEmpty(data, "message"), IsPySpace)
    requires GetOrEmpty(data, TokenKey) != ""
    requires !Unset(env.recaptchaSecret) && google.Replied? && google.success == Some(true)
    ensures Contact(data, env, google, smtp).session ==
      Some(SmtpSession(SmtpHost, SmtpPort, env.emailAddress, env.emailPassword,
        ComposeMessage(GetOrEmpty(data, "name"), GetOrEmpty(data, "email"), GetOrEmpty(data, "message"), env.emailAddress)))
    ensures smtp == Delivered ==>
      (Contact(data, env, google, smtp).status == 200 && Contact(data, env, google, smtp).body == Success(SentText))
    ensures smtp == SmtpRaised ==>
      (Contact(data, env, google, smtp).status == 500 && Contact(data, env, google, smtp).body == Error(SmtpFailedText))
  {
  }

  /** What the catch-all route sends from the static folder. */
  datatype Served = SendFile(folder: string, file: string)

  /**
   * `serve_react_app`: an existing file under the static folder is sent as
   * asked; every other path, the root included, gets the application's
   * index page.
   */
  function ServeReactApp(path: string, fileExists: string -> bool): (r: Served)
    ensures r.folder == StaticFolder
    ensures r.file == path || r.file == IndexFile
    ensures r.file == path && path != IndexFile ==> path != "" && fileExists(StaticFolder + "/" + path)
    ensures path != "" && fileExists(StaticFolder + "/" + path) ==> r.file == path
  {
    if path != "" && fileExists(StaticFolder + "/" + path) then
      SendFile(StaticFolder, path)
    else
      SendFile(StaticFolder, IndexFile)
  }
}
