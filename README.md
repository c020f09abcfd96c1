# Contact form of a portfolio site, modelled in Dafny

The site's only logic is its contact form. In the browser, a React hook
(`useContactForm`) validates the three fields, holds the bot-verification
token and submits the form to `/contact`. On the server, a Flask handler
checks the message, checks the token with Google's reCAPTCHA service and
mails the submission to the owner. This project models both sides and
proves the rules they promise.

- `text.dfy` (module `Text`): the two whitespace sets and trimming.
  JavaScript's `trim()` and regex `\s` use one set; Python's `str.strip()`
  uses another. `Utf16Length` is JavaScript's `length`, which counts
  UTF-16 code units.
- `validation.dfy` (module `FieldValidation`): `validateField`. The email
  regular expression `^[^\s@]+@[^\s@]+\.[^\s@]+$` is modelled twice: as its
  language (`MatchesEmailRegex`) and as a check (`EmailPattern`). A lemma
  proves the two agree.
- `contact_form.dfy`: module `ContactForm` holds the class
  `ContactFormController` with the hook's four state cells (`formData`,
  `formErrors`, `isSubmitting`, `formFeedback`) and one method per handler.
  The result of `fetch` is an input (`FetchOutcome`). Module
  `ContactFormScenarios` holds client methods that drive the controller
  through whole visits.
- `server.dfy` (module `ContactServer`): `contact()`, `verify_recaptcha`
  and `serve_react_app` as pure functions. The environment, Google's
  reply, the SMTP outcome and the file-existence test are inputs. The
  request sent to Google and the SMTP session are part of the result, so
  "not called" can be stated.
- `end_to_end.dfy` (module `EndToEnd`): the client's body as the server
  reads it.

Behaviour worth knowing:

- Token field name. The hook calls it `turnstile_token`
  (src/hooks/useContactForm.ts:18, :71). The shared types and the server
  call it `recaptcha_token` (src/types/index.ts:15, app.py:55). The model
  uses `token` for the client field and sends it under `recaptcha_token`.
  `EndToEnd.TurnstileKeyIsNotRead` shows that a body with a message that is
  not blank to Python, but with the token under the hook's name, is always
  refused for a missing token (app.py:61-62). A blank message is refused
  earlier as empty (app.py:57-58).
- Widget reset. The hook never resets the widget after a submission. It
  only clears the token (src/hooks/useContactForm.ts:119, :122, :127), and
  the model does the same.
- Trimming. The name and message rules check the trimmed value
  (src/hooks/useContactForm.ts:24-26, :33-35). The email rule trims only
  for the required check and tests the untrimmed value against the pattern
  (src/hooks/useContactForm.ts:29-30), so a surrounding space is an error
  (`EmailLeadingSpaceRejected`).
- Success condition. The hook counts a reply as a success only when the
  status is OK and `success` is a non-empty string
  (src/hooks/useContactForm.ts:116, JavaScript truthiness). Any other reply
  shows `error`, or the fixed fallback when `error` is absent or empty
  (src/hooks/useContactForm.ts:121). The model states this as
  `ContactForm.Accepted` and `ContactForm.ReplyFeedback`.
- Name length. The too-long message says "less than 50 characters", but a
  name of exactly 50 characters is accepted
  (src/hooks/useContactForm.ts:26). Both the message and the bound are kept
  as written.
- Whitespace. The client and the server disagree on what counts as blank.
  U+001C–U+001F and U+0085 are whitespace to Python but not to JavaScript.
  So a message of ten U+001C characters passes the client and is refused by
  the server as empty (`EndToEnd.ClientAndServerDisagreeOnBlank`). For a
  form the client accepts, the server's first two guards pass exactly when
  the message is not all Python whitespace
  (`EndToEnd.ValidFormReachesVerification`).

## Model

| member | source | states |
|---|---|---|
| Text.WhitespaceGap | app.py:57 | the characters Python's strip removes and JavaScript's trim keeps (U+001C-U+001F, U+0085), and the reverse (U+FEFF) |
| Text.TrimStart | src/hooks/useContactForm.ts:24 | the result is a suffix of the input, everything dropped is whitespace, and it does not start with whitespace |
| Text.TrimEnd | src/hooks/useContactForm.ts:24 | the result is a prefix of the input, everything dropped is whitespace, and it does not end with whitespace |
| Text.Trim | src/hooks/useContactForm.ts:24 | the trimmed value has no whitespace at either end and is empty exactly when the value is all whitespace (the `!value.trim()` test) |
| Text.TrimComposes | src/hooks/useContactForm.ts:24 | trimming both ends equals trimming the start and then the end |
| Text.TrimSplit | src/hooks/useContactForm.ts:24 | the trimmed value is a contiguous piece of the input with only whitespace cut from either side |
| Text.TrimPadded | src/hooks/useContactForm.ts:24 | whitespace padding around a piece with no whitespace at its ends trims back to exactly that piece |
| Text.TrimIdempotent | src/hooks/useContactForm.ts:24 | trimming a trimmed value changes nothing |
| Text.Utf16Length | src/hooks/useContactForm.ts:25 | `length` counts code units: between one and two per character, and exactly one per character in the Basic Multilingual Plane |
| FieldValidation.FirstAt | src/hooks/useContactForm.ts:30 | the position of the first '@', or the length when there is none |
| FieldValidation.EmailPatternIsRegex | src/hooks/useContactForm.ts:30 | the email check accepts exactly the strings of the form plain+ '@' plain+ '.' plain+, where plain means neither whitespace nor '@' |
| FieldValidation.PatternToRegex | src/hooks/useContactForm.ts:30 | a string the check accepts splits into the regular expression's three runs |
| FieldValidation.RegexToPattern | src/hooks/useContactForm.ts:30 | a string split into the three runs is accepted by the check |
| FieldValidation.EmailPatternHasNoWhitespace | src/hooks/useContactForm.ts:30 | a string that matches the pattern contains no whitespace anywhere |
| FieldValidation.ValidateField | src/hooks/useContactForm.ts:21-39 | every error it reports is a non-empty message, so an entry is truthy exactly when it is present |
| FieldValidation.NameRule | src/hooks/useContactForm.ts:23-27 | a name is accepted iff it has 2 to 50 code units after trimming; "Name is required" iff it is all whitespace, which takes precedence over the length messages |
| FieldValidation.MessageRule | src/hooks/useContactForm.ts:32-36 | a message is accepted iff it has 10 to 1000 code units after trimming; "Message is required" iff it is all whitespace, which takes precedence |
| FieldValidation.EmailRule | src/hooks/useContactForm.ts:28-31 | "Email is required" iff the value is all whitespace; otherwise accepted iff the untrimmed value matches the regular expression, so an accepted address has no whitespace |
| FieldValidation.EmailPlainAccepted | src/hooks/useContactForm.ts:30 | "a@b.co" is accepted |
| FieldValidation.EmailLeadingSpaceRejected | src/hooks/useContactForm.ts:29-30 | " a@b.co" passes the required check but fails the pattern |
| FieldValidation.EmailTrailingSpaceRejected | src/hooks/useContactForm.ts:29-30 | "a@b.co " passes the required check but fails the pattern |
| FieldValidation.UnknownField | src/hooks/useContactForm.ts:22-38 | any field name other than name, email and message gets no error |
| ContactForm.FormErrors.Cleared | src/hooks/useContactForm.ts:50-53 | clearing sets the one entry to undefined and keeps the other two |
| ContactForm.WithValue | src/hooks/useContactForm.ts:43-46 | the edited input takes the value; the other inputs and the token are unchanged |
| ContactForm.ErrorsFor | src/hooks/useContactForm.ts:58-62 | each entry is the validator's result for that field's current value |
| ContactForm.ReplyFeedback | src/hooks/useContactForm.ts:116-126 | the banner after a request: the server's success text on an accepted reply, else its non-empty error text or the fixed fallback, and the connection text when the request threw; never empty |
| ContactForm.ContactFormController.constructor | src/hooks/useContactForm.ts:11-19 | empty fields and token, no errors, not submitting, no banner |
| ContactForm.ContactFormController.HandleInputChange | src/hooks/useContactForm.ts:41-55 | sets only the edited input; clears that field's error only when one is shown; the other errors, the flag and the banner are unchanged |
| ContactForm.ContactFormController.ValidateForm | src/hooks/useContactForm.ts:57-66 | replaces the whole error map with fresh results and returns true iff all three are undefined; changes nothing else |
| ContactForm.ContactFormController.SetTurnstileToken | src/hooks/useContactForm.ts:68-73 | sets the token and keeps the three inputs |
| ContactForm.ContactFormController.ClearTurnstileToken | src/hooks/useContactForm.ts:75-80 | empties the token and keeps the three inputs |
| ContactForm.ContactFormController.ResetForm | src/hooks/useContactForm.ts:82-85 | empties the inputs and the token and clears the errors |
| ContactForm.ContactFormController.HandleSubmit | src/hooks/useContactForm.ts:87-131 | a request with the current data is sent iff the form is valid and has a token; on invalid data or no token the data is unchanged and the banner is the fixed prompt; after a request the token is always empty, and the inputs are emptied only on an accepted reply; the flag always ends false |
| ContactFormScenarios.ShortNameScenario | src/hooks/useContactForm.ts:87-97 | typing the name "A" and submitting sends nothing and shows "Name must be at least 2 characters" |
| ContactFormScenarios.AcceptedScenario | src/hooks/useContactForm.ts:105-119 | a valid, verified form sends exactly what was typed, and an accepted reply leaves the form empty with the server's text as the banner |
| ContactFormScenarios.RetryNeedsNewTokenScenario | src/hooks/useContactForm.ts:99-123 | after a refused reply a second submit without new verification sends nothing and asks for verification |
| ContactServer.GetOrEmpty | app.py:52-55 | a missing key reads as the empty string |
| ContactServer.VerifyRecaptcha | app.py:27-47 | with no secret, the result is invalid with the not-configured note and no request is made; otherwise the request carries the secret and token, a raised request is invalid with the request-error code, and the token is valid iff Google replied success true |
| ContactServer.ComposeMessage | app.py:69-73 | the subject is "Portfolio Contact from " followed by the name; the content is, piece by piece, "Name: ", the name, "\nEmail: ", the email, "\n", "\nMessage:\n" and the message, verbatim; sender and recipient are the configured address |
| ContactServer.Contact | app.py:49-82 | the status is 200, 400 or 500, and 200 exactly for a success body; Google is asked only for a non-blank message with a token; an SMTP session is opened only after a valid verification; success iff the session delivered |
| ContactServer.EmptyMessageRejectedFirst | app.py:57-58 | a blank message gets 400 "Message cannot be empty." whatever the token, and nothing is sent to Google or to the mail server |
| ContactServer.MissingMessageKeyRejected | app.py:54-58 | a body without a message is treated as a blank message |
| ContactServer.MissingTokenRejected | app.py:61-62 | a non-blank message without a token gets 400 with the complete-the-reCAPTCHA prompt, and verification is not attempted |
| ContactServer.FailedVerificationRejected | app.py:64-67 | a token that is not confirmed gets 400 "reCAPTCHA verification failed. Please try again." and no mail; Google is asked iff a secret is configured |
| ContactServer.SendOutcome | app.py:69-82 | past the guards, the composed mail goes to smtp.mailbox.org:465 with the configured login, and the reply is 200 with "Message sent successfully!" on delivery and 500 with the send-failed text when sending raised |
| ContactServer.ServeReactApp | app.py:19-25 | the route sends the requested path iff it is non-empty and exists under the static folder, and index.html otherwise |
| EndToEnd.RequestJson | src/hooks/useContactForm.ts:111 | the JSON body carries the three inputs and the token under the given key, and those are the values the server reads |
| EndToEnd.ValidFormReachesVerification | app.py:57-64 | for a form the client accepts with a token, the server's first two guards pass exactly when the message is not all Python whitespace, and then the server asks Google exactly as `verify_recaptcha` would |
| EndToEnd.ClientAndServerDisagreeOnBlank | app.py:57-58 | a message of ten U+001C characters passes the client's message rule but is refused by the server as empty |
| EndToEnd.TurnstileKeyIsNotRead | app.py:55 | a body whose message is not blank to Python and which sends the token under `turnstile_token` is refused for a missing token |

## Left out

- Presentation components, the portfolio loader and the verification
  widget hooks (`useTurnstile`, `useRecaptcha`). They are script injection,
  window globals and a third-party widget whose callbacks arrive
  asynchronously. Their effect on the form is modelled by calling
  `SetTurnstileToken` or `ClearTurnstileToken`.
- React's asynchronous state updates and render closures. `HandleSubmit`
  runs as one sequential method on the current state. Overlapping
  submissions are not modelled.
- The `fetch` call, `response.json()` and the console log. Their combined
  result is the input `FetchOutcome`. A `success` or `error` field that is
  not a string is not modelled.
- HandleInputChange: takes one of the three inputs. An input event naming
  any other key, which would add that key to the form data, is not
  modelled.
- Flask routing, CORS and JSON parsing. A body that is not a JSON object
  makes the handler raise, and so does a `message` that is not a string
  (`strip()` at app.py:57). A name or email that is not a string is
  formatted into the mail by the f-strings (app.py:70, :73). A token that
  is not a string is tested for truthiness (app.py:61) and forwarded to
  Google (app.py:39-43). None of these cases is modelled: the request is a
  map from strings to strings.
- `requests.post`, `smtplib` and `os.environ`. These are inputs
  (`SiteVerifyOutcome`, `SmtpOutcome`, `Env`). A `success` value in
  Google's reply that is not a boolean is not modelled. The printed
  diagnostics are left out.
- ContactServer.ComposeMessage: header checks inside Python's `email`
  package are left out. For example, a name containing a line break makes
  the subject assignment raise outside the `try`, which Flask turns into
  its own 500 page. This is library code that is not part of this model.
- ContactServer.ServeReactApp: `send_from_directory`'s own path checks are
  left out, as is its 404 for a path that names a directory. File
  existence is an input predicate on the joined path.
- Strings are sequences of Unicode scalar values. A lone surrogate,
  which is legal in a JavaScript string and in a Python `str` and which
  `length` counts as one code unit, cannot be represented, so
  `Utf16Length`, the field rules and the server's guards are stated only for
  strings without one.
