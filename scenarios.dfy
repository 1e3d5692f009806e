/**
 * Whole interactions with the form, checked against the handlers' contracts alone:
 * a visitor types the six inputs, submits, and the state afterwards is stated.
 */
module Scenarios {
  import opened Base
  import opened Text
  import opened Validation
  import opened Form

  /** `formData` after the six inputs were typed in. */
  function Typed(name: string, email: string, phone: string, company: string, service: string, message: string): (data: map<Field, string>)
    ensures forall f: Field :: f in data
  {
    var data := map[Name := name, Email := email, Phone := phone, Company := company, ServiceType := service, Message := message];
    assert forall f: Field :: f in data by {
      forall f: Field ensures f in data {
        assert f.Name? || f.Email? || f.Phone? || f.Company? || f.ServiceType? || f.Message?;
      }
    }
    data
  }

  /** The four fields other than name and e-mail pass validation. */
  predicate RestValid(phone: string, company: string, service: string, message: string) {
    && Validate(Phone, phone) == None && Validate(Company, company) == None
    && Validate(ServiceType, service) == None && Validate(Message, message) == None
  }

  /** The errors `handleSubmit` collects when only name and e-mail may be invalid. */
  function NameEmailErrors(nameError: Option<string>, emailError: Option<string>): map<Field, Option<string>> {
    (if nameError.Some? then map[Name := nameError] else map[])
      + (if emailError.Some? then map[Email := emailError] else map[])
  }

  lemma InvalidFieldsOfTypedAt(name: string, email: string, phone: string, company: string, service: string, message: string)
    requires RestValid(phone, company, service, message)
    ensures var invalid := InvalidFields(Typed(name, email, phone, company, service, message));
      && (Name in invalid <==> Validate(Name, name).Some?)
      && (Email in invalid <==> Validate(Email, email).Some?)
      && Phone !in invalid && Company !in invalid && ServiceType !in invalid && Message !in invalid
      && (Name in invalid ==> invalid[Name] == Validate(Name, name))
      && (Email in invalid ==> invalid[Email] == Validate(Email, email))
  {
    var data := Typed(name, email, phone, company, service, message);
    assert data[Name] == name && data[Email] == email && data[Phone] == phone;
    assert data[Company] == company && data[ServiceType] == service && data[Message] == message;
  }

  /** With the other four fields valid, the collected errors are those of name and e-mail. */
  lemma InvalidFieldsOfTyped(name: string, email: string, phone: string, company: string, service: string, message: string)
    requires RestValid(phone, company, service, message)
    ensures InvalidFields(Typed(name, email, phone, company, service, message))
      == NameEmailErrors(Validate(Name, name), Validate(Email, email))
  {
    InvalidFieldsOfTypedAt(name, email, phone, company, service, message);
    ErrorsOfNameEmail(InvalidFields(Typed(name, email, phone, company, service, message)),
                      Validate(Name, name), Validate(Email, email));
  }

  lemma ErrorsOfNameEmail(invalid: map<Field, Option<string>>, nameError: Option<string>, emailError: Option<string>)
    requires (Name in invalid <==> nameError.Some?) && (Email in invalid <==> emailError.Some?)
    requires Phone !in invalid && Company !in invalid && ServiceType !in invalid && Message !in invalid
    requires (Name in invalid ==> invalid[Name] == nameError) && (Email in invalid ==> invalid[Email] == emailError)
    ensures invalid == NameEmailErrors(nameError, emailError)
  {
    var expected := NameEmailErrors(nameError, emailError);
    forall f: Field ensures (f in invalid <==> f in expected) && (f in invalid ==> invalid[f] == expected[f]) {
      assert f.Name? || f.Email? || f.Phone? || f.Company? || f.ServiceType? || f.Message?;
    }
  }

  lemma PayloadOfTyped(name: string, email: string, phone: string, company: string, service: string, message: string, token: string)
    ensures PayloadOf(Typed(name, email, phone, company, service, message), token)
      == Submission(name, email, phone, company, service, message, token)
  {
    var data := Typed(name, email, phone, company, service, message);
    assert data[Name] == name && data[Email] == email && data[Phone] == phone;
    assert data[Company] == company && data[ServiceType] == service && data[Message] == message;
  }

  /** Typing the six inputs one after another over any values gives `Typed`. */
  lemma TypedByChanges(data: map<Field, string>, name: string, email: string, phone: string, company: string, service: string, message: string)
    ensures data[Name := name][Email := email][Phone := phone][Company := company][ServiceType := service][Message := message]
      == Typed(name, email, phone, company, service, message)
  {
    var typed := data[Name := name][Email := email][Phone := phone][Company := company][ServiceType := service][Message := message];
    var expected := Typed(name, email, phone, company, service, message);
    forall f: Field ensures f in typed && typed[f] == expected[f] {
      assert f.Name? || f.Email? || f.Phone? || f.Company? || f.ServiceType? || f.Message?;
    }
    assert typed.Keys == expected.Keys;
  }

  /** The six inputs typed in, none of them touched: only `formData` changes. */
  method TypeAll(f: ContactForm, name: string, email: string, phone: string, company: string, service: string, message: string)
    requires f.Valid() && f.touched == {}
    modifies f
    ensures f.State() == old(f.State()).(formData := Typed(name, email, phone, company, service, message))
  {
    ghost var s := f.State();
    ghost var data := f.formData;
    f.HandleChange(Name, name);
    data := data[Name := name];
    assert f.State() == s.(formData := data);
    f.HandleChange(Email, email);
    data := data[Email := email];
    assert f.State() == s.(formData := data);
    f.HandleChange(Phone, phone);
    data := data[Phone := phone];
    assert f.State() == s.(formData := data);
    f.HandleChange(Company, company);
    data := data[Company := company];
    assert f.State() == s.(formData := data);
    f.HandleChange(ServiceType, service);
    data := data[ServiceType := service];
    assert f.State() == s.(formData := data);
    f.HandleChange(Message, message);
    data := data[Message := message];
    TypedByChanges(s.formData, name, email, phone, company, service, message);
  }

  /** A fresh form with the six inputs typed in, none of them blurred yet. */
  method TypeIn(name: string, email: string, phone: string, company: string, service: string, message: string) returns (f: ContactForm)
    ensures fresh(f) && f.Valid()
    ensures f.State() == Mounted().(formData := Typed(name, email, phone, company, service, message))
  {
    f := new ContactForm();
    TypeAll(f, name, email, phone, company, service, message);
  }

  /** A name of one or two characters stops the submit with the name's length message
      alone, and nothing is sent. */
  method ShortNameStopsSubmit(name: string, email: string, phone: string, company: string, service: string, message: string)
    returns (errors: map<Field, Option<string>>, sent: nat)
    requires 1 <= Utf16Length(Trim(name)) < 3
    requires Validate(Email, email) == None && RestValid(phone, company, service, message)
    ensures errors == map[Name := Some(NameTooShort)] && sent == 0
  {
    var f := TypeIn(name, email, phone, company, service, message);
    var s := f.State();
    TrimmedLengthRules(name);
    assert !RulesHold(s.formData) by {
      ValidateIffRule(Name, name);
      assert s.formData[Name] == name;
    }
    InvalidSubmitShowsErrors(s, Some("token"), Ok);
    InvalidFieldsOfTyped(name, email, phone, company, service, message);
    f.HandleSubmit(Some("token"), Ok);
    errors, sent := f.errors, |f.requests|;
  }

  /** A non-blank address without `@` stops the submit with "Email inválido" alone,
      and nothing is sent. */
  method BadEmailStopsSubmit(name: string, email: string, phone: string, company: string, service: string, message: string)
    returns (errors: map<Field, Option<string>>, sent: nat)
    requires '@' !in email && !IsBlank(email)
    requires Validate(Name, name) == None && RestValid(phone, company, service, message)
    ensures errors == map[Email := Some(EmailInvalid)] && sent == 0
  {
    var f := TypeIn(name, email, phone, company, service, message);
    var s := f.State();
    EmailMessages(email);
    assert !RulesHold(s.formData) by {
      ValidateIffRule(Email, email);
      assert s.formData[Email] == email;
    }
    InvalidSubmitShowsErrors(s, Some("token"), Ok);
    InvalidFieldsOfTyped(name, email, phone, company, service, message);
    f.HandleSubmit(Some("token"), Ok);
    errors, sent := f.errors, |f.requests|;
  }

  /** All fields valid, the challenge not solved: the reCAPTCHA banner, nothing sent,
      every field touched. */
  method MissingTokenStopsSubmit(name: string, email: string, phone: string, company: string, service: string, message: string)
    returns (status: Status, text: Notice, sent: nat, touched: set<Field>)
    requires Validate(Name, name) == None && Validate(Email, email) == None && RestValid(phone, company, service, message)
    ensures status == Error && text == CaptchaRequired && sent == 0
    ensures touched == {Name, Email, Phone, Company, ServiceType, Message}
  {
    var f := TypeIn(name, email, phone, company, service, message);
    InvalidFieldsOfTyped(name, email, phone, company, service, message);
    f.HandleSubmit(None, Ok);
    status, text, sent, touched := f.submitStatus, f.errorMessage, |f.requests|, f.touched;
  }

  /** A valid form, a token and an ok response: one request carrying the typed values
      and the token, the success banner, an emptied form; the banner's timer then sets
      the status back to idle. */
  method AcceptedSubmit(name: string, email: string, phone: string, company: string, service: string, message: string, token: string)
    returns (sent: seq<Submission>, status: Status, data: map<Field, string>, later: Status)
    requires token != ""
    requires Validate(Name, name) == None && Validate(Email, email) == None && RestValid(phone, company, service, message)
    ensures sent == [Submission(name, email, phone, company, service, message, token)]
    ensures status == Success && data == EmptyForm() && later == Idle
  {
    var f := TypeIn(name, email, phone, company, service, message);
    InvalidFieldsOfTyped(name, email, phone, company, service, message);
    PayloadOfTyped(name, email, phone, company, service, message, token);
    f.HandleSubmit(Some(token), Ok);
    sent, status, data := f.requests, f.submitStatus, f.formData;
    f.ExpireSuccessBanner();
    later := f.submitStatus;
  }

  /** A valid form rejected by the server: the response body is the message when there
      is one, the generic message otherwise; the typed values stay, and the form is no
      longer busy. */
  method RejectedSubmit(name: string, email: string, phone: string, company: string, service: string, message: string, body: string)
    returns (status: Status, text: Notice, data: map<Field, string>, busy: bool)
    requires Validate(Name, name) == None && Validate(Email, email) == None && RestValid(phone, company, service, message)
    ensures status == Error && text == (if body == "" then SendFailed else ServerText(body)) && !busy
    ensures data == Typed(name, email, phone, company, service, message)
  {
    var f := TypeIn(name, email, phone, company, service, message);
    InvalidFieldsOfTyped(name, email, phone, company, service, message);
    f.HandleSubmit(Some("token"), HttpError(body));
    status, text, data, busy := f.submitStatus, f.errorMessage, f.formData, f.isSubmitting;
  }

  /** A valid form whose request throws: the connectivity message, the typed values
      stay, and the widget was reset once. */
  method UnreachableEndpoint(name: string, email: string, phone: string, company: string, service: string, message: string)
    returns (status: Status, text: Notice, data: map<Field, string>, resets: nat)
    requires Validate(Name, name) == None && Validate(Email, email) == None && RestValid(phone, company, service, message)
    ensures status == Error && text == ConnectionFailed && resets == 1
    ensures data == Typed(name, email, phone, company, service, message)
  {
    var f := TypeIn(name, email, phone, company, service, message);
    InvalidFieldsOfTyped(name, email, phone, company, service, message);
    f.HandleSubmit(Some("token"), NetworkFailure);
    status, text, data, resets := f.submitStatus, f.errorMessage, f.formData, f.captchaResets;
  }

  /** The success timer is not tied to the banner it was set for: after a send, the
      visitor types a valid form again and the server rejects it; the timer of the
      first send then replaces the error status with idle, while the rejection
      message stays set. */
  method TimerOutlivesItsBanner(name: string, email: string, phone: string, company: string, service: string, message: string, body: string)
    returns (before: Status, after: Status, text: Notice)
    requires Validate(Name, name) == None && Validate(Email, email) == None && RestValid(phone, company, service, message)
    ensures before == Error && after == Idle && text == RejectionNotice(body)
  {
    var f := TypeIn(name, email, phone, company, service, message);
    InvalidFieldsOfTyped(name, email, phone, company, service, message);
    f.HandleSubmit(Some("token"), Ok);
    TypeAll(f, name, email, phone, company, service, message);
    f.HandleSubmit(Some("token"), HttpError(body));
    before := f.submitStatus;
    f.ExpireSuccessBanner();
    after, text := f.submitStatus, f.errorMessage;
  }
}
