# Contact form of the Confirmo web page, modelled in Dafny

The site's contact form (`src/components/ContactForm.tsx`) has three pieces of logic, and
this project models them:

- **`validateField`** is a pure per-field validator. The `name` and `message` fields need
  3 and 10 characters after trimming. `email` and `phone` must match a regular expression.
  `company` must not be blank. `serviceType` must not be empty or the placeholder option.
  Any other key is accepted.
- **The form state** is held in six cells: `formData`, `errors`, `touched`, `isSubmitting`,
  `submitStatus` and `errorMessage`. Three handlers change them:
  - `handleChange` stores a value and re-validates the field if it is already touched.
  - `handleBlur` marks the field touched and validates it.
  - `handleSubmit` first marks every field touched. It stops if any field is invalid. It
    then stops if the reCAPTCHA token is missing. Otherwise it POSTs the six values and
    the token, and settles on success, an HTTP error or a network error.
- **`getInputClasses`** draws each input red, green or neutral.

Files:

- `text.dfy` holds ECMAScript's `\s` class and `trim` (the same fixed set of white space
  code points) and the UTF-16 `length`. It also has `Base.Option`.
- `validation.dfy` holds the validator and the rule table. It reads the two regular
  expressions as predicates and proves the validator's e-mail check equal to the e-mail
  pattern.
- `contact_form.dfy` holds the `ContactForm` class with the six cells and the handlers as
  methods. Each handler is proved against a function on a `FormState` value (`Changed`,
  `Blurred`, `Submitted`, `Sent`, `TimerFired`). What the component promises is proved as
  lemmas about those functions. The file also has the two `forEach` loops of
  `handleSubmit` as methods, and the input styling.
- `scenarios.dfy` holds whole interactions: type, submit, observe. They are proved from
  the handlers' contracts alone.

How the outside world is modelled:

- The reCAPTCHA widget is reduced to two things. The token it returns is a parameter of
  `HandleSubmit` (`None`, or a string; an empty string counts as missing, like
  `!recaptchaToken`). Its `reset()` calls are counted in `captchaResets`.
- The `fetch` call is also reduced to two things. Its outcome is a parameter
  (`Ok | HttpError(body) | NetworkFailure`), and the body it would post is appended to
  `requests`.
- The 5-second success timer is a pending count (`pendingTimers`) plus a method,
  `ExpireSuccessBanner`, that fires one timer.
- `errorMessage` holds a `Notice`: no message, the reCAPTCHA reminder, the response text,
  the generic send failure or the connectivity message. `NoticeText` gives the string the
  component stores for each.

Behaviour of the code that the model keeps as it is:

- The timer callback (src/components/ContactForm.tsx:157) sets the status to idle
  unconditionally. So a timer left from an earlier success replaces a later error status
  with idle, while the error message stays set. `Form.StaleTimerHidesError` states this,
  and `Scenarios.TimerOutlivesItsBanner` plays it through.
- `isSubmitting`, `submitStatus` and `errorMessage` are three separate cells
  (src/components/ContactForm.tsx:17-19), modelled as three fields.
- `validateField` checks e-mail and phone on the untrimmed text, so it rejects an address
  with a leading or trailing space. The blank checks and the length checks of name and message
  trim the text first.

## Model

| member | source | states |
|---|---|---|
| Text.TrimStartSpec | src/components/ContactForm.tsx:39 | the leading part `trim` removes is blank, and what is left is a suffix that does not start with white space |
| Text.TrimEndSpec | src/components/ContactForm.tsx:39 | the trailing part `trim` removes is blank, and what is left is a prefix that does not end with white space |
| Text.Trim | src/components/ContactForm.tsx:39-40 | `value.trim()`: never longer than its input; what it removes and keeps is stated by TrimStartSpec, TrimEndSpec and TrimEmptyIffBlank |
| Text.TrimEmptyIffBlank | src/components/ContactForm.tsx:39 | `value.trim()` is empty exactly when every character is white space; a non-empty trim result starts and ends with a non-space character |
| Text.TrimOfPadded | src/components/ContactForm.tsx:40 | `trim` of blank padding around a core that neither starts nor ends with white space is that core; an empty core gives the empty string |
| Text.Utf16Length | src/components/ContactForm.tsx:40 | `length` counts UTF-16 code units: at least the character count and at most twice it |
| Text.Utf16LengthOfBmp | src/components/ContactForm.tsx:40 | `length` equals the character count exactly when every character is in the Basic Multilingual Plane |
| Validation.FieldNamedInvertsKey | src/components/ContactForm.tsx:37-66 | the six `case` labels and the six fields correspond one to one; any other key names no field |
| Validation.ValidateField | src/components/ContactForm.tsx:36-68 | a key that is none of the six cases gets no error (`return undefined`); any message returned is one of that field's messages |
| Validation.ValidateFieldOfKey | src/components/ContactForm.tsx:36-68 | validating by field is `validateField` on the field's property name |
| Validation.Validate | src/components/ContactForm.tsx:38-65 | every message returned is one of the field's own, non-empty messages |
| Validation.ValidateIffRule | src/components/ContactForm.tsx:36-68 | no error exactly when the field's rule holds: name and message non-blank with trimmed length at least 3 and 10; email matches its pattern; phone non-blank and matches its pattern; company non-blank; service type neither empty nor the placeholder |
| Validation.ValidateFieldIffRule | src/components/ContactForm.tsx:36-68 | for any key: no error exactly when the key names no field or the field's rule holds |
| Validation.BlankIsRequired | src/components/ContactForm.tsx:38-65 | a blank or all-white-space value in name, email, phone, company or message gives that field's "requerido/requerida" message |
| Validation.TrimmedLengthRules | src/components/ContactForm.tsx:38-65 | the name's length message is given exactly for trimmed length 1–2 and no error from 3 on; the message's exactly for 1–9 and no error from 10 on |
| Validation.EmailShapedIffPattern | src/components/ContactForm.tsx:45-46 | the e-mail check (no white space, exactly one `@` with something before it, a `.` strictly inside the part after it) accepts exactly what `^[^\s@]+@[^\s@]+\.[^\s@]+$` matches |
| Validation.IsEmailShaped | src/components/ContactForm.tsx:45-46 | the validator's reading of `emailRegex.test(value)`: no white space, exactly one `@` with something before it, a `.` strictly inside the part after it; EmailShapedIffPattern proves it equal to the pattern |
| Validation.MatchesEmailPattern | src/components/ContactForm.tsx:45 | reads `^[^\s@]+@[^\s@]+\.[^\s@]+$` as: an `@` at an inner position, a `.` at least two places after it and before the last character, and every other character neither white space nor `@` |
| Validation.EmailAcceptance | src/components/ContactForm.tsx:43-47 | `local@domain` is accepted exactly when `local` is a non-empty run of `[^\s@]` and `domain` a run of `[^\s@]` with an inner `.` |
| Validation.EmailMessages | src/components/ContactForm.tsx:44-46 | "El email es requerido" exactly for blank text; "Email inválido" exactly for non-blank text the pattern rejects, including any text without `@` |
| Validation.EmailRejectsSpace | src/components/ContactForm.tsx:45-46 | white space anywhere in a non-blank address, leading and trailing included, gives "Email inválido" |
| Validation.PhoneAcceptance | src/components/ContactForm.tsx:48-52 | a phone is accepted exactly when it is non-blank and every character is a digit, white space, `-`, `+`, `(` or `)` |
| Validation.MatchesPhonePattern | src/components/ContactForm.tsx:50 | reads `^[\d\s\-\+\(\)]+$` as: at least one character, each a digit, white space, `-`, `+`, `(` or `)` |
| Validation.ServiceTypeAcceptance | src/components/ContactForm.tsx:56-60 | service type is rejected exactly when empty or equal to "Selecciona un tipo de servicio"; every other option of the select is accepted |
| Validation.CountOf | src/components/ContactForm.tsx:45 | the count of a character is at most the length, and zero exactly when the character is absent |
| Validation.IndexOf | src/components/ContactForm.tsx:45 | the index found holds the character and no earlier position does |
| Form.NoticeWording | src/components/ContactForm.tsx:19 | of the messages `errorMessage` can hold, only "no message" (the initial `""`) and an empty response text read as `""` |
| Form.RejectionNotice | src/components/ContactForm.tsx:163 | the message after a rejected request (the response text, or "Error al enviar…" when that text is empty) is never empty, and is the response text whenever that text is not empty |
| Form.NoticeText | src/components/ContactForm.tsx:113-172 | the string `errorMessage` holds for each notice: "", the reCAPTCHA reminder, the response text, the generic send failure or the connectivity message; NoticeWording says which read as "" |
| Form.EmptyForm | src/components/ContactForm.tsx:6-13 | the initial and post-success form holds all six fields, each empty |
| Form.NoInvalidFieldsIffRulesHold | src/components/ContactForm.tsx:92-108 | `handleSubmit` collects no errors exactly when every field satisfies its rule |
| Form.InvalidFields | src/components/ContactForm.tsx:92-96 | the `newErrors` object: one entry per field whose value fails validation, holding the validator's message; CollectErrors computes it and NoInvalidFieldsIffRulesHold says when it is empty |
| Form.CollectErrors | src/components/ContactForm.tsx:92-96 | the first `forEach` loop yields exactly the failing fields of `formData`, each with its validator message |
| Form.MarkAllTouched | src/components/ContactForm.tsx:99-102 | the second `forEach` loop marks exactly the keys of `formData` |
| Form.Classify | src/components/ContactForm.tsx:179-189 | red exactly when touched with a truthy error; green exactly when touched, no error and a non-empty value; neutral otherwise, so exactly one of the three |
| Form.Mounted | src/components/ContactForm.tsx:6-19 | the mounted state holds all six fields and its (empty) errors are in sync with the values |
| Form.Changed | src/components/ContactForm.tsx:70-79 | after a change the key holds the new value, and no key is lost |
| Form.Blurred | src/components/ContactForm.tsx:81-86 | after a blur the key is touched and its error is the validator's verdict on the event's value |
| Form.Sent | src/components/ContactForm.tsx:119-176 | whatever the outcome, the form still holds all six fields |
| Form.Submitted | src/components/ContactForm.tsx:88-177 | whatever the branch, the form still holds all six fields |
| Form.TimerFired | src/components/ContactForm.tsx:157 | firing sets the status to idle, whatever it was, and consumes one pending timer |
| Form.ChangeKeepsInSync | src/components/ContactForm.tsx:70-79 | a change keeps the errors in sync with the values (a touched field is re-validated against its new value), and every other field's value is kept |
| Form.ChangeIdempotent | src/components/ContactForm.tsx:70-79 | a second change of the same field to the same value leaves the state as the first one did |
| Form.BlurKeepsInSync | src/components/ContactForm.tsx:81-86 | a blur whose value gets the same verdict as the stored value keeps the errors in sync with the values |
| Form.PlaceholderBlurKeepsInSync | src/components/ContactForm.tsx:335-349 | blurring the service select on the mounted form, where it shows the placeholder while the stored value is "", keeps the errors in sync and shows the service-type error |
| Form.SubmitKeepsInSync | src/components/ContactForm.tsx:88-177 | every submit, in every branch, leaves the errors in sync with the values |
| Form.InvalidSubmitShowsErrors | src/components/ContactForm.tsx:92-108 | with some field breaking its rule, the submit touches every field, sets the errors to exactly the failing fields, and changes nothing else |
| Form.MissingTokenBlocksSend | src/components/ContactForm.tsx:110-117 | with every field valid and no token, the submit touches every field, shows the reCAPTCHA error and changes nothing else |
| Form.HasToken | src/components/ContactForm.tsx:113 | `!recaptchaToken` is false: the widget returned a token and it is not the empty string |
| Form.SubmitSendsIffValid | src/components/ContactForm.tsx:105-176 | one body with the six values and the token is posted, the widget reset once and the form left not busy exactly when every field is valid and there is a token; otherwise nothing is posted and nothing reset |
| Form.PayloadOf | src/components/ContactForm.tsx:130-138 | the posted JSON body: the six values of `formData` under their own names, and the token |
| Form.AcceptedSubmitClearsForm | src/components/ContactForm.tsx:141-157 | an ok response shows success with no message, empties the six fields, `touched` and `errors`, and schedules one timer |
| Form.FailedSubmitKeepsInput | src/components/ContactForm.tsx:158-173 | a rejected or thrown request shows a non-empty error (the response text, the generic message for an empty text, the connectivity message for a throw) and keeps the values and errors |
| Form.StaleTimerHidesError | src/components/ContactForm.tsx:157-166 | a success timer still pending when a later submit fails replaces the error status with idle |
| Form.ContactForm.InputStyleOf | src/components/ContactForm.tsx:179-189 | an input is drawn red exactly when its inline error message is rendered |
| Form.ContactForm.ErrorShown | src/components/ContactForm.tsx:214 | the inline message `touched.x && errors.x` is rendered: the field is touched and its error is truthy |
| Form.ContactForm.StyleReflectsValidation | src/components/ContactForm.tsx:179-189 | on a consistent form a touched input is red exactly when its value fails validation, and green exactly when it passes and is non-empty |
| Form.ContactForm.constructor | src/components/ContactForm.tsx:6-19 | the form mounts in the `Mounted` state: empty, untouched, error-free, idle and not busy, with its errors in sync |
| Form.ContactForm.HandleChange | src/components/ContactForm.tsx:70-79 | the new state is `Changed` of the old one, and all six fields stay present |
| Form.ContactForm.HandleBlur | src/components/ContactForm.tsx:81-86 | the new state is `Blurred` of the old one, and all six fields stay present |
| Form.ContactForm.HandleSubmit | src/components/ContactForm.tsx:88-177 | running the two loops, the checks and the request gives `Submitted` of the old state, and all six fields stay present |
| Form.ContactForm.Send | src/components/ContactForm.tsx:119-176 | the request part gives `Sent` of the old state for every outcome |
| Form.ContactForm.Delivered | src/components/ContactForm.tsx:141-157 | the `response.ok` branch gives `Sent` with an ok outcome |
| Form.ContactForm.Rejected | src/components/ContactForm.tsx:158-166 | the branch for any other status gives `Sent` with that response text |
| Form.ContactForm.Unreachable | src/components/ContactForm.tsx:167-176 | the `catch` branch gives `Sent` with a network failure |
| Form.ContactForm.ExpireSuccessBanner | src/components/ContactForm.tsx:157 | a scheduled timer fires and gives `TimerFired` of the old state: status idle whatever it was, one timer consumed, nothing else changed, all six fields still present |
| Scenarios.ShortNameStopsSubmit | src/components/ContactForm.tsx:105-108 | a one- or two-character name gives only the name's length error, and nothing is sent |
| Scenarios.BadEmailStopsSubmit | src/components/ContactForm.tsx:105-108 | an address without `@` gives only "Email inválido", and nothing is sent |
| Scenarios.MissingTokenStopsSubmit | src/components/ContactForm.tsx:99-117 | valid fields without a token: reCAPTCHA error, all six fields touched, nothing sent |
| Scenarios.AcceptedSubmit | src/components/ContactForm.tsx:125-157 | a valid submit with a token and an ok response sends the typed values and token once, shows success, empties the form, and the timer restores idle |
| Scenarios.RejectedSubmit | src/components/ContactForm.tsx:158-166 | a rejected submit shows the body (or the generic message), keeps the typed values and is not busy |
| Scenarios.UnreachableEndpoint | src/components/ContactForm.tsx:167-173 | a thrown request shows the connectivity message, keeps the typed values and resets the widget once |
| Scenarios.TimerOutlivesItsBanner | src/components/ContactForm.tsx:157 | after a success, a retyped valid form rejected by the server shows the error status, and the first success's timer then sets the status to idle while the rejection message stays |

## Left out

- The handlers take the field as one of six values, not as an arbitrary string. The
  change and blur events only come from the six inputs, and their `name` attributes are
  the six keys (src/components/ContactForm.tsx:206, 239, 272, 305, 337, 374). The
  unknown-key case of `validateField` is modelled in `Validation.ValidateField` itself.
- Form.BlurKeepsInSync: it requires the blurred value to get the same verdict as the
  stored one. A text input blurs with its stored value (`value={formData.…}`). The
  service select blurs with the option it shows. While `serviceType` is "" (at mount and
  after a success) that option is the placeholder, which gets the same verdict as ""
  (`Form.PlaceholderBlurKeepsInSync`). The rendering of the inputs is not modelled.
- The handlers accept any string. Browser sanitisation of input values is not modelled,
  such as the stripping of leading and trailing white space from the `type="email"`
  input (src/components/ContactForm.tsx:237). So the untrimmed e-mail check is stated
  for the value `handleChange` receives.
- The assignments made just before the request (src/components/ContactForm.tsx:120-122:
  busy, idle, no message) are not modelled as a separate state. The model runs
  `handleSubmit` as one step. Every branch of the request overwrites the status and
  clears the busy flag, so the assignments are not observable between calls. Their only
  lasting effect is the empty message after a success, which `Sent` sets directly. As a
  consequence `isSubmitting` is false in every state the model reaches, and the guard
  against a second submit while one is in flight (`disabled={isSubmitting}` on the
  inputs and the button) is not modelled.
- React's asynchronous batching of `setState` and closures over stale state are not
  modelled. The updates are sequential assignments.
- Object key order in the two `forEach` loops is not modelled. The loops pick keys in any
  order, which does not change the resulting map or set.
- The reCAPTCHA widget's internals (`getValue`, `reset`) are not modelled. The token is a
  parameter, and resets are counted.
- The HTTP transport, headers, JSON encoding and the endpoint URL are not modelled. The
  outcome is a parameter, and the posted body is recorded as a `Submission` value.
- A `response.text()` that throws in the HTTP-error branch lands in the `catch`. Its
  effect equals the `NetworkFailure` outcome, so it is not a separate case.
- The 5-second delay itself is not modelled, only the pending timers and their firing.
- `import.meta.env` configuration, the JSX markup and Tailwind styling are not modelled.
  The CSS class strings are reduced to the three styles.
- Unicode: white space is the fixed ECMAScript set, listed explicitly. Strings are
  sequences of scalar values, and lengths are converted to UTF-16 code units. Lone
  surrogates cannot occur in such strings.
