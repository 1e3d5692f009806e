/**
 * The contact form component: its six state cells, the change, blur and submit
 * handlers that update them, and the styling class each input gets. The reCAPTCHA
 * widget and the HTTP endpoint are outside: the token and the response are
 * parameters, and what the form asks of them (a reset, a POST) is recorded in
 * fields of their own.
 */
module Form {
  import opened Base
  import opened Text
  import opened Validation

  /** `submitStatus`: which banner is shown under the form. */
  datatype Status = Idle | Success | Error

  /** What the awaited `fetch` produced: a response with an ok status, a response with
      any other status and the text of its body, or a thrown exception. */
  datatype FetchOutcome = Ok | HttpError(body: string) | NetworkFailure

  /** The JSON body posted to the endpoint: the six field values and the token. */
  datatype Submission = Submission(
    name: string, email: string, phone: string, company: string,
    serviceType: string, message: string, recaptchaToken: string)

  /** The three ways an input is drawn: red border, green border, neutral border. */
  datatype InputStyle = InvalidStyle | ValidStyle | NeutralStyle

  /** What `errorMessage` holds: nothing, the reCAPTCHA reminder, the text of the
      server's response, the generic send failure, or the connectivity message. */
  datatype Notice = NoNotice | CaptchaRequired | ServerText(text: string) | SendFailed | ConnectionFailed

  const CaptchaText: string := "Por favor completa la verificación reCAPTCHA"
  const SendFailedText: string := "Error al enviar el mensaje. Intenta nuevamente."
  const ConnectionText: string := "Error de conexión. Por favor verifica tu internet e intenta nuevamente."

  /** The string `errorMessage` holds for each notice. */
  function NoticeText(n: Notice): string {
    match n
    case NoNotice => ""
    case CaptchaRequired => CaptchaText
    case ServerText(body) => body
    case SendFailed => SendFailedText
    case ConnectionFailed => ConnectionText
  }

  /** `errorText || "Error al enviar…"`: the response text when it is not empty,
      otherwise the generic message. */
  function RejectionNotice(body: string): (n: Notice)
    ensures NoticeText(n) != ""
    ensures body != "" ==> NoticeText(n) == body
  {
    if body != "" then ServerText(body) else SendFailed
  }

  /** Only the absence of a notice and an empty response text read as the empty
      string. */
  lemma NoticeWording(n: Notice)
    ensures NoticeText(n) == "" <==> n == NoNotice || n == ServerText("")
  {
    assert |CaptchaText| > 0 && |SendFailedText| > 0 && |ConnectionText| > 0;
  }

  /** The form as first shown and as reset after a successful send: every field empty. */
  function EmptyForm(): (data: map<Field, string>)
    ensures forall f: Field :: f in data && data[f] == ""
  {
    var data := map[Name := "", Email := "", Phone := "", Company := "", ServiceType := "", Message := ""];
    assert forall f: Field :: f in data && data[f] == "" by {
      forall f: Field ensures f in data && data[f] == "" {
        assert f.Name? || f.Email? || f.Phone? || f.Company? || f.ServiceType? || f.Message?;
      }
    }
    data
  }

  /** JavaScript truthiness of an optional message: present and not empty. */
  predicate Truthy(error: Option<string>) {
    error.Some? && error.value != ""
  }

  /** `!recaptchaToken` is false: the widget returned a token, and it is not empty. */
  predicate HasToken(token: Option<string>) {
    token.Some? && token.value != ""
  }

  /** The errors `handleSubmit` collects: one entry per field of `data` that fails
      validation, holding that field's message. */
  function InvalidFields(data: map<Field, string>): map<Field, Option<string>> {
    map f | f in data && Validate(f, data[f]).Some? :: Validate(f, data[f])
  }

  /** Nothing is collected exactly when every field satisfies its rule. */
  lemma NoInvalidFieldsIffRulesHold(data: map<Field, string>)
    ensures InvalidFields(data) == map[] <==> forall f | f in data :: FieldRule(f, data[f])
  {
    if InvalidFields(data) == map[] {
      forall f | f in data ensures FieldRule(f, data[f]) {
        ValidateIffRule(f, data[f]);
        assert f !in InvalidFields(data);
      }
    } else {
      var f :| f in InvalidFields(data);
      ValidateIffRule(f, data[f]);
    }
  }

  /** The first loop of `handleSubmit`: validate every key of `data` and keep the
      failures. */
  method CollectErrors(data: map<Field, string>) returns (newErrors: map<Field, Option<string>>)
    ensures newErrors == InvalidFields(data)
  {
    newErrors := map[];
    var remaining := data.Keys;
    while remaining != {}
      invariant remaining <= data.Keys
      invariant forall f :: f in newErrors <==> f in data && f !in remaining && Validate(f, data[f]).Some?
      invariant forall f | f in newErrors :: newErrors[f] == Validate(f, data[f])
      decreases remaining
    {
      var key :| key in remaining;
      var error := Validate(key, data[key]);
      if error.Some? {
        newErrors := newErrors[key := error];
      }
      remaining := remaining - {key};
    }
  }

  /** The second loop of `handleSubmit`: mark every key of `data` as touched. */
  method MarkAllTouched(data: map<Field, string>) returns (allTouched: set<Field>)
    ensures allTouched == data.Keys
  {
    allTouched := {};
    var remaining := data.Keys;
    while remaining != {}
      invariant remaining <= data.Keys
      invariant allTouched == data.Keys - remaining
      decreases remaining
    {
      var key :| key in remaining;
      allTouched := allTouched + {key};
      remaining := remaining - {key};
    }
  }

  /** `getInputClasses` on one input: red when touched with an error, green when
      touched without one and not empty, neutral otherwise. */
  function Classify(isTouched: bool, error: Option<string>, value: string): (style: InputStyle)
    ensures style == InvalidStyle <==> isTouched && Truthy(error)
    ensures style == ValidStyle <==> isTouched && !Truthy(error) && value != ""
    ensures style == NeutralStyle <==> !isTouched || (!Truthy(error) && value == "")
  {
    if isTouched && Truthy(error) then InvalidStyle
    else if isTouched && !Truthy(error) && value != "" then ValidStyle
    else NeutralStyle
  }

  /** `errors[key]`, `undefined` when the key has no entry. */
  function ErrorIn(errors: map<Field, Option<string>>, key: Field): Option<string> {
    if key in errors then errors[key] else None
  }

  /** The body `handleSubmit` posts: the six values of `data` and the token. */
  function PayloadOf(data: map<Field, string>, token: string): Submission
    requires forall f: Field :: f in data
  {
    Submission(data[Name], data[Email], data[Phone], data[Company], data[ServiceType], data[Message], token)
  }

  // ---------------------------------------------------------------------------
  // The component's state and what each handler makes of it

  /** The six state cells of the component, with what it has asked of the outside
      world so far: how often it reset the reCAPTCHA widget, every body it posted
      (oldest first), and the success-banner timers not yet fired. */
  datatype FormState = FormState(
    formData: map<Field, string>,
    errors: map<Field, Option<string>>,
    touched: set<Field>,
    isSubmitting: bool,
    submitStatus: Status,
    errorMessage: Notice,
    captchaResets: nat,
    requests: seq<Submission>,
    pendingTimers: nat)

  /** All six fields are present in `formData`. */
  predicate Complete(s: FormState) {
    forall f: Field :: f in s.formData
  }

  /** The errors shown are the validator's verdict on the current values: only
      touched fields carry an entry, and every touched field's entry is what
      `validateField` says of its value now. */
  ghost predicate InSync(s: FormState) {
    && s.errors.Keys <= s.touched
    && s.touched <= s.formData.Keys
    && forall f | f in s.touched :: ErrorIn(s.errors, f) == Validate(f, s.formData[f])
  }

  /** The state the component mounts with. */
  function Mounted(): (s: FormState)
    ensures Complete(s) && InSync(s)
  {
    FormState(EmptyForm(), map[], {}, false, Idle, NoNotice, 0, [], 0)
  }

  /** Every field the validator accepts, over all of `data`. */
  ghost predicate RulesHold(data: map<Field, string>) {
    forall f | f in data :: FieldRule(f, data[f])
  }

  /** `handleChange`: store the value; re-validate the field only if it is touched. */
  function Changed(s: FormState, key: Field, value: string): (t: FormState)
    ensures t.formData.Keys == s.formData.Keys + {key} && t.formData[key] == value
  {
    s.(formData := s.formData[key := value],
       errors := if key in s.touched then s.errors[key := Validate(key, value)] else s.errors)
  }

  /** `handleBlur`: the field becomes touched and gets the verdict on the event's value. */
  function Blurred(s: FormState, key: Field, value: string): (t: FormState)
    ensures key in t.touched && key in t.errors && t.errors[key] == Validate(key, value)
  {
    s.(touched := s.touched + {key}, errors := s.errors[key := Validate(key, value)])
  }

  /** The request part of `handleSubmit` (the `try`/`catch`/`finally`): one body
      posted, the widget reset whatever the outcome, the busy flag cleared at the
      end; the outcome decides the banner and whether the form is emptied. */
  function Sent(s: FormState, token: string, outcome: FetchOutcome): (t: FormState)
    requires Complete(s)
    ensures Complete(t)
  {
    var posted := s.(isSubmitting := false,
                     requests := s.requests + [PayloadOf(s.formData, token)],
                     captchaResets := s.captchaResets + 1);
    match outcome
    case Ok =>
      posted.(submitStatus := Success, errorMessage := NoNotice,
              formData := EmptyForm(), touched := {}, errors := map[],
              pendingTimers := s.pendingTimers + 1)
    case HttpError(body) =>
      posted.(submitStatus := Error, errorMessage := RejectionNotice(body))
    case NetworkFailure =>
      posted.(submitStatus := Error, errorMessage := ConnectionFailed)
  }

  /** `handleSubmit`: every field becomes touched; then, in order, invalid fields stop
      it with their errors, a missing token stops it with an error banner, and
      otherwise the request is sent. */
  function Submitted(s: FormState, token: Option<string>, outcome: FetchOutcome): (t: FormState)
    requires Complete(s)
    ensures Complete(t)
  {
    var allTouched := s.(touched := s.formData.Keys);
    if InvalidFields(s.formData) != map[] then
      allTouched.(errors := InvalidFields(s.formData))
    else if !HasToken(token) then
      allTouched.(submitStatus := Error, errorMessage := CaptchaRequired)
    else
      Sent(allTouched, token.value, outcome)
  }

  /** The success banner's timer fires: back to idle, whatever the banner shows. */
  function TimerFired(s: FormState): (t: FormState)
    requires s.pendingTimers > 0
    ensures t.submitStatus == Idle && t.pendingTimers + 1 == s.pendingTimers
  {
    s.(submitStatus := Idle, pendingTimers := s.pendingTimers - 1)
  }

  // ---------------------------------------------------------------------------
  // What the handlers promise

  /** A change re-validates a touched field against its new value, so the errors stay
      in sync; every other field's value is kept. */
  lemma ChangeKeepsInSync(s: FormState, key: Field, value: string)
    requires InSync(s)
    ensures InSync(Changed(s, key, value))
    ensures forall f | f in s.formData && f != key :: Changed(s, key, value).formData[f] == s.formData[f]
  {
  }

  /** Repeating a change with the same value changes nothing more: the values and
      the errors are those of the first change. */
  lemma ChangeIdempotent(s: FormState, key: Field, value: string)
    ensures Changed(Changed(s, key, value), key, value) == Changed(s, key, value)
  {
  }

  /** A blur whose value gets the same verdict as the stored value keeps the errors
      in sync. A text input blurs with its stored value; the select blurs with the
      option it shows, which is the placeholder while the stored value is empty. */
  lemma BlurKeepsInSync(s: FormState, key: Field, value: string)
    requires InSync(s) && key in s.formData
    requires Validate(key, value) == Validate(key, s.formData[key])
    ensures InSync(Blurred(s, key, value))
  {
  }

  /** Blurring the service select on the mounted form, where it shows the placeholder
      while the stored value is empty, keeps the errors in sync and shows the
      service-type error. */
  lemma PlaceholderBlurKeepsInSync()
    ensures InSync(Blurred(Mounted(), ServiceType, ServicePlaceholder))
    ensures Blurred(Mounted(), ServiceType, ServicePlaceholder).errors[ServiceType] == Some(ServiceRequired)
  {
    var s := Mounted();
    assert s.formData[ServiceType] == "";
    BlurKeepsInSync(s, ServiceType, ServicePlaceholder);
  }

  /** Every submit leaves the errors in sync with the values. */
  lemma SubmitKeepsInSync(s: FormState, token: Option<string>, outcome: FetchOutcome)
    requires Complete(s) && InSync(s)
    ensures InSync(Submitted(s, token, outcome))
  {
    var data := s.formData;
    if InvalidFields(data) == map[] {
      forall f | f in data ensures Validate(f, data[f]) == None {
        assert f !in InvalidFields(data);
      }
    }
  }

  /** A submit with some field breaking its rule posts nothing: every field is
      touched, the errors become exactly the failing fields, and nothing else changes. */
  lemma InvalidSubmitShowsErrors(s: FormState, token: Option<string>, outcome: FetchOutcome)
    requires Complete(s) && !RulesHold(s.formData)
    ensures Submitted(s, token, outcome) == s.(touched := s.formData.Keys, errors := InvalidFields(s.formData))
    ensures InvalidFields(s.formData) != map[]
  {
    NoInvalidFieldsIffRulesHold(s.formData);
  }

  /** With every field valid and no token, nothing is posted: the reCAPTCHA banner
      shows, every field is touched, and nothing else changes. */
  lemma MissingTokenBlocksSend(s: FormState, token: Option<string>, outcome: FetchOutcome)
    requires Complete(s) && RulesHold(s.formData) && !HasToken(token)
    ensures Submitted(s, token, outcome)
      == s.(touched := s.formData.Keys, submitStatus := Error, errorMessage := CaptchaRequired)
  {
    NoInvalidFieldsIffRulesHold(s.formData);
  }

  /** A submit posts exactly one body, the typed values and the token, exactly when
      every field is valid and there is a token; the widget is reset once per body
      posted; and the busy flag is clear afterwards whenever it was before. */
  lemma SubmitSendsIffValid(s: FormState, token: Option<string>, outcome: FetchOutcome)
    requires Complete(s)
    ensures var t := Submitted(s, token, outcome);
      && (RulesHold(s.formData) && HasToken(token) ==>
            t.requests == s.requests + [PayloadOf(s.formData, token.value)]
            && t.captchaResets == s.captchaResets + 1 && !t.isSubmitting)
      && (!RulesHold(s.formData) || !HasToken(token) ==>
            t.requests == s.requests && t.captchaResets == s.captchaResets
            && t.isSubmitting == s.isSubmitting)
  {
    NoInvalidFieldsIffRulesHold(s.formData);
  }

  /** An accepted submit shows the success banner, empties the form and schedules
      one timer. */
  lemma AcceptedSubmitClearsForm(s: FormState, token: Option<string>)
    requires Complete(s) && RulesHold(s.formData) && HasToken(token)
    ensures var t := Submitted(s, token, Ok);
      && t.submitStatus == Success && t.errorMessage == NoNotice
      && t.formData == EmptyForm() && t.touched == {} && t.errors == map[]
      && t.pendingTimers == s.pendingTimers + 1
  {
    NoInvalidFieldsIffRulesHold(s.formData);
  }

  /** A rejected or failed request keeps what was typed and its errors, touches every
      field, and shows a non-empty error: the response body, the generic message when
      the body is empty, or the connectivity message when the request threw. */
  lemma FailedSubmitKeepsInput(s: FormState, token: Option<string>, outcome: FetchOutcome)
    requires Complete(s) && RulesHold(s.formData) && HasToken(token) && !outcome.Ok?
    ensures var t := Submitted(s, token, outcome);
      && t.submitStatus == Error && t.errorMessage != NoNotice
      && t.errorMessage == (if outcome.NetworkFailure? then ConnectionFailed else RejectionNotice(outcome.body))
      && t.formData == s.formData && t.errors == s.errors && t.touched == s.formData.Keys
      && t.pendingTimers == s.pendingTimers
  {
    NoInvalidFieldsIffRulesHold(s.formData);
  }

  /** The success timer is not tied to the banner it was set for: once a later
      submit has failed, a pending timer still replaces the error banner with idle. */
  lemma StaleTimerHidesError(s: FormState, token: Option<string>, body: string)
    requires Complete(s) && RulesHold(s.formData) && HasToken(token) && s.pendingTimers > 0
    ensures Submitted(s, token, HttpError(body)).submitStatus == Error
    ensures TimerFired(Submitted(s, token, HttpError(body))).submitStatus == Idle
  {
    NoInvalidFieldsIffRulesHold(s.formData);
  }

  // ---------------------------------------------------------------------------
  // The component

  class ContactForm {
    var formData: map<Field, string>
    var errors: map<Field, Option<string>>
    var touched: set<Field>
    var isSubmitting: bool
    var submitStatus: Status
    var errorMessage: Notice
    /** How many times the form has called the reCAPTCHA widget's `reset`. */
    var captchaResets: nat
    /** Every body posted to the endpoint, oldest first. */
    var requests: seq<Submission>
    /** Success-banner timers scheduled and not yet fired. */
    var pendingTimers: nat

    /** The cells as one value. */
    function State(): FormState
      reads this
    {
      FormState(formData, errors, touched, isSubmitting, submitStatus, errorMessage,
                captchaResets, requests, pendingTimers)
    }

    /** The six fields are always present in `formData`: they start there, a change
        only overwrites or adds, and the reset after a send puts them back. */
    ghost predicate Valid()
      reads this
    {
      Complete(State())
    }

    /** The errors on the current state are in sync with the values. */
    ghost predicate Consistent()
      reads this
    {
      InSync(State())
    }

    /** `errors[key]` on the current state. */
    function ErrorOf(key: Field): Option<string>
      reads this
    {
      ErrorIn(errors, key)
    }

    /** The inline message under an input is rendered: touched and a truthy error. */
    predicate ErrorShown(key: Field)
      reads this
    {
      key in touched && Truthy(ErrorOf(key))
    }

    /** `getInputClasses(key)` on the current state. The red style goes exactly with
        the inline error message. */
    function InputStyleOf(key: Field): (style: InputStyle)
      reads this
      ensures style == InvalidStyle <==> ErrorShown(key)
    {
      Classify(key in touched, ErrorOf(key), if key in formData then formData[key] else "")
    }

    /** On a consistent form, a touched input is red exactly when its value fails
        validation, and green exactly when it passes and is not empty. */
    lemma StyleReflectsValidation(key: Field)
      requires Consistent() && key in touched
      ensures InputStyleOf(key) == InvalidStyle <==> Validate(key, formData[key]).Some?
      ensures InputStyleOf(key) == ValidStyle <==> Validate(key, formData[key]) == None && formData[key] != ""
    {
    }

    constructor ()
      ensures State() == Mounted() && Valid() && Consistent()
    {
      formData := EmptyForm();
      errors := map[];
      touched := {};
      isSubmitting := false;
      submitStatus := Idle;
      errorMessage := NoNotice;
      captchaResets := 0;
      requests := [];
      pendingTimers := 0;
    }

    method HandleChange(key: Field, value: string)
      requires Valid()
      modifies this
      ensures State() == Changed(old(State()), key, value) && Valid()
    {
      formData := formData[key := value];
      if key in touched {
        var error := Validate(key, value);
        errors := errors[key := error];
      }
    }

    method HandleBlur(key: Field, value: string)
      requires Valid()
      modifies this
      ensures State() == Blurred(old(State()), key, value) && Valid()
    {
      touched := touched + {key};
      var error := Validate(key, value);
      errors := errors[key := error];
    }

    method HandleSubmit(token: Option<string>, outcome: FetchOutcome)
      requires Valid()
      modifies this
      ensures State() == Submitted(old(State()), token, outcome) && Valid()
    {
      var newErrors := CollectErrors(formData);
      var allTouched := MarkAllTouched(formData);
      touched := allTouched;

      if |newErrors| > 0 {
        errors := newErrors;
        return;
      }

      if !HasToken(token) {
        submitStatus := Error;
        errorMessage := CaptchaRequired;
        return;
      }

      Send(token.value, outcome);
    }

    method Send(token: string, outcome: FetchOutcome)
      requires Valid()
      modifies this
      ensures State() == Sent(old(State()), token, outcome) && Valid()
    {
      match outcome {
        case Ok => Delivered(token);
        case HttpError(body) => Rejected(token, body);
        case NetworkFailure => Unreachable(token);
      }
    }

    /** The `response.ok` branch: success banner, form emptied, widget reset, and the
        timer that will hide the banner. */
    method Delivered(token: string)
      requires Valid()
      modifies this
      ensures State() == Sent(old(State()), token, Ok) && Valid()
    {
      requests := requests + [PayloadOf(formData, token)];
      submitStatus, errorMessage := Success, NoNotice;
      formData, touched, errors := EmptyForm(), {}, map[];
      captchaResets := captchaResets + 1;
      pendingTimers := pendingTimers + 1;
      isSubmitting := false;
    }

    /** The branch for any other status: the response text, or the generic message,
        in the error banner; the widget is reset and the form kept. */
    method Rejected(token: string, body: string)
      requires Valid()
      modifies this
      ensures State() == Sent(old(State()), token, HttpError(body)) && Valid()
    {
      requests := requests + [PayloadOf(formData, token)];
      submitStatus, errorMessage := Error, RejectionNotice(body);
      captchaResets := captchaResets + 1;
      isSubmitting := false;
    }

    /** The `catch`: the connectivity message in the error banner; the widget is
        reset and the form kept. */
    method Unreachable(token: string)
      requires Valid()
      modifies this
      ensures State() == Sent(old(State()), token, NetworkFailure) && Valid()
    {
      requests := requests + [PayloadOf(formData, token)];
      submitStatus, errorMessage := Error, ConnectionFailed;
      captchaResets := captchaResets + 1;
      isSubmitting := false;
    }

    /** A success-banner timer fires. */
    method ExpireSuccessBanner()
      requires Valid() && pendingTimers > 0
      modifies this
      ensures State() == TimerFired(old(State())) && Valid()
    {
      submitStatus := Idle;
      pendingTimers := pendingTimers - 1;
    }
  }
}
