/**
 * The contact-form controller of the browser client: four state cells (the
 * form's data, its per-field errors, the submitting flag and the feedback
 * banner) and the handlers that update them.
 */
module ContactForm {
  import opened Wrappers
  import opened FieldValidation

  const FixErrorsText := "Please fix the errors in the form before submitting."
  const CompleteVerificationText := "Please complete the verification."
  const RetryText := "Failed to send message. Please try again."
  const ConnectionFailedText := "Failed to send message. Please check your connection and try again."

  /** The request body; `token` is sent under the key "recaptcha_token". */
  datatype FormData = FormData(name: string, email: string, message: string, token: string)

  const EmptyForm := FormData("", "", "", "")

  /** The three text inputs, identified by their `name` attribute. */
  datatype Field = NameInput | EmailInput | MessageInput {
    function Key(): (k: string)
      ensures k in {"name", "email", "message"}
    {
      match this
      case NameInput => "name"
      case EmailInput => "email"
      case MessageInput => "message"
    }
  }

  /** A JavaScript value that is truthy: present and not the empty string. */
  predicate Truthy(o: Option<string>)
  {
    o.Some? && o.value != ""
  }

  /** `FormErrors`: an entry per field, `None` standing for `undefined`. */
  datatype FormErrors = FormErrors(name: Option<string>, email: Option<string>, message: Option<string>) {
    function Get(f: Field): (e: Option<string>)
    {
      match f
      case NameInput => name
      case EmailInput => email
      case MessageInput => message
    }

    /** The same errors with the entry of `f` set to `undefined`. */
    function Cleared(f: Field): (e: FormErrors)
      ensures e.Get(f) == None
      ensures forall g :: g != f ==> e.Get(g) == Get(g)
    {
      match f
      case NameInput => this.(name := None)
      case EmailInput => this.(email := None)
      case MessageInput => this.(message := None)
    }
  }

  const NoErrors := FormErrors(None, None, None)

  /** The value of the input `f` in `d`. */
  function Value(d: FormData, f: Field): (v: string)
  {
    match f
    case NameInput => d.name
    case EmailInput => d.email
    case MessageInput => d.message
  }

  /** `d` with the input `f` set to `v`: that input reads `v`, the others and the token are kept. */
  function WithValue(d: FormData, f: Field, v: string): (r: FormData)
    ensures Value(r, f) == v && r.token == d.token
    ensures forall g :: g != f ==> Value(r, g) == Value(d, g)
  {
    match f
    case NameInput => d.(name := v)
    case EmailInput => d.(email := v)
    case MessageInput => d.(message := v)
  }

  /** The error map `validateForm` computes: a fresh entry for each of the three fields. */
  function ErrorsFor(d: FormData): (e: FormErrors)
    ensures forall f :: e.Get(f) == ValidateField(f.Key(), Value(d, f))
  {
    FormErrors(ValidateField("name", d.name), ValidateField("email", d.email), ValidateField("message", d.message))
  }

  /** The outcome of the `fetch` to `/contact`, decided outside the client. */
  datatype FetchOutcome =
    | Threw  // the request or the JSON decoding of its body was rejected
    | Responded(ok: bool, success: Option<string>, error: Option<string>)

  /** The server accepted the submission: an OK status and a non-empty `success` text. */
  predicate Accepted(o: FetchOutcome)
  {
    o.Responded? && o.ok && Truthy(o.success)
  }

  /** The banner text shown after a request was made. */
  function ReplyFeedback(o: FetchOutcome): (t: string)
    ensures t != ""
    ensures Accepted(o) ==> t == o.success.value
    ensures o.Threw? ==> t == ConnectionFailedText
    ensures o.Responded? && !Accepted(o) ==> t == (if Truthy(o.error) then o.error.value else RetryText)
  {
    match o
    case Threw => ConnectionFailedText
    case Responded(ok, success, error) =>
      if ok && Truthy(success) then success.value
      else if Truthy(error) then error.value
      else RetryText
  }

  class ContactFormController {
    var formData: FormData
    var formErrors: FormErrors
    var isSubmitting: bool
    var formFeedback: string

    /** The state at mount: empty fields and token, no errors, idle, no banner. */
    constructor ()
      ensures formData == EmptyForm && formErrors == NoErrors
      ensures !isSubmitting && formFeedback == ""
    {
      formData := EmptyForm;
      formErrors := NoErrors;
      isSubmitting := false;
      formFeedback := "";
    }

    /**
     * `handleInputChange`: the edited input takes the new value and its error
     * is cleared if one was shown; nothing else changes.
     */
    method HandleInputChange(field: Field, value: string)
      modifies this
      ensures formData == WithValue(old(formData), field, value)
      ensures Truthy(old(formErrors).Get(field)) ==> formErrors == old(formErrors).Cleared(field)
      ensures !Truthy(old(formErrors).Get(field)) ==> formErrors == old(formErrors)
      ensures isSubmitting == old(isSubmitting) && formFeedback == old(formFeedback)
    {
      formData := WithValue(formData, field, value);
      if Truthy(formErrors.Get(field)) {
        formErrors := formErrors.Cleared(field);
      }
    }

    /**
     * `validateForm`: replaces the whole error map with fresh results for the
     * three fields and reports whether all three passed.
     */
    method ValidateForm() returns (valid: bool)
      modifies this`formErrors
      ensures formErrors == ErrorsFor(formData)
      ensures valid <==> formErrors == NoErrors
    {
      var errors := ErrorsFor(formData);
      formErrors := errors;
      valid := !Truthy(errors.name) && !Truthy(errors.email) && !Truthy(errors.message);
    }

    /** `setTurnstileToken`: the verification widget produced `token`. */
    method SetTurnstileToken(token: string)
      modifies this`formData
      ensures formData == old(formData).(token := token)
    {
      formData := formData.(token := token);
    }

    /** `clearTurnstileToken`: the token expired, failed, or was used. */
    method ClearTurnstileToken()
      modifies this`formData
      ensures formData == old(formData).(token := "")
    {
      formData := formData.(token := "");
    }

    /** `resetForm`: back to empty fields and token and no errors. */
    method ResetForm()
      modifies this`formData, this`formErrors
      ensures formData == EmptyForm && formErrors == NoErrors
    {
      formData := EmptyForm;
      formErrors := NoErrors;
    }

    /**
     * `handleSubmit`. `outcome` is what the `fetch` would produce; `request`
     * is the body sent, `None` when no request is made. A request is made
     * exactly when every field is valid and a token is present; afterwards
     * the token is always cleared, the fields are emptied only on an
     * accepted reply, and the flag always ends false.
     */
    method HandleSubmit(outcome: FetchOutcome) returns (request: Option<FormData>)
      modifies this
      ensures !isSubmitting
      ensures formErrors == (if request.Some? && Accepted(outcome) then NoErrors else ErrorsFor(old(formData)))
      ensures ErrorsFor(old(formData)) != NoErrors ==>
        request == None && formData == old(formData) && formFeedback == FixErrorsText
      ensures ErrorsFor(old(formData)) == NoErrors && old(formData).token == "" ==>
        request == None && formData == old(formData) && formFeedback == CompleteVerificationText
      ensures request.Some? <==> ErrorsFor(old(formData)) == NoErrors && old(formData).token != ""
      ensures request.Some? ==> request.value == old(formData) && formFeedback == ReplyFeedback(outcome)
      ensures request.Some? ==> formData == (if Accepted(outcome) then EmptyForm else old(formData).(token := ""))
    {
      isSubmitting := true;
      formFeedback := "";

      var valid := ValidateForm();
      if !valid {
        formFeedback := FixErrorsText;
        isSubmitting := false;
        return None;
      }

      if formData.token == "" {
        formFeedback := CompleteVerificationText;
        isSubmitting := false;
        return None;
      }

      request := Some(formData);
      match outcome {
        case Threw =>
          formFeedback := ConnectionFailedText;
          ClearTurnstileToken();
        case Responded(ok, success, error) =>
          if ok && Truthy(success) {
            formFeedback := success.value;
            ResetForm();
            ClearTurnstileToken();
          } else {
            formFeedback := if Truthy(error) then error.value else RetryText;
            ClearTurnstileToken();
          }
      }
      isSubmitting := false;
    }
  }
}

/** A caller's view of the controller: the sequences of events a visitor can produce. */
module ContactFormScenarios {
  import opened Wrappers
  import opened Text
  import opened FieldValidation
  import opened ContactForm

  /**
   * A visitor types the one-letter name "A" and submits: the name is
   * reported as too short and no request is sent.
   */
  method ShortNameScenario(reply: FetchOutcome) returns (request: Option<FormData>, nameError: Option<string>, feedback: string)
    ensures request == None
    ensures nameError == Some(NameTooShort)
    ensures feedback == FixErrorsText
  {
    var form := new ContactFormController();
    form.HandleInputChange(NameInput, "A");
    assert JsTrim("A") == "A" by {
      TrimPadded([], "A", [], IsJsWhitespace);
      assert [] + "A" + [] == "A";
    }
    request := form.HandleSubmit(reply);
    nameError := form.formErrors.name;
    feedback := form.formFeedback;
  }

  /**
   * A complete, verified submission that the server accepts: the body sent
   * is what was typed, and afterwards the form is empty, without errors and
   * showing the server's text.
   */
  method AcceptedScenario(name: string, email: string, message: string, token: string, thanks: string)
    returns (request: Option<FormData>, after: FormData, feedback: string)
    requires ValidateField("name", name) == None && ValidateField("email", email) == None
    requires ValidateField("message", message) == None
    requires token != "" && thanks != ""
    ensures request == Some(FormData(name, email, message, token))
    ensures after == EmptyForm && feedback == thanks
  {
    var form := new ContactFormController();
    form.HandleInputChange(NameInput, name);
    form.HandleInputChange(EmailInput, email);
    form.HandleInputChange(MessageInput, message);
    form.SetTurnstileToken(token);
    request := form.HandleSubmit(Responded(true, Some(thanks), None));
    after := form.formData;
    feedback := form.formFeedback;
  }

  /**
   * A rejected submission keeps what was typed for a retry but drops the
   * token, so a second submit without a new verification sends nothing.
   */
  method RetryNeedsNewTokenScenario(name: string, email: string, message: string, token: string, reply: FetchOutcome)
    returns (first: Option<FormData>, second: Option<FormData>, feedback: string)
    requires ValidateField("name", name) == None && ValidateField("email", email) == None
    requires ValidateField("message", message) == None
    requires token != "" && !Accepted(reply)
    ensures first == Some(FormData(name, email, message, token))
    ensures second == None && feedback == CompleteVerificationText
  {
    var form := new ContactFormController();
    form.HandleInputChange(NameInput, name);
    form.HandleInputChange(EmailInput, email);
    form.HandleInputChange(MessageInput, message);
    form.SetTurnstileToken(token);
    first := form.HandleSubmit(reply);
    assert form.formData == FormData(name, email, message, "");
    second := form.HandleSubmit(reply);
    feedback := form.formFeedback;
  }
}
