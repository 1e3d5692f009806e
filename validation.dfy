/**
 * The contact form's per-field validator, `validateField`: a pure function from a field
 * key and the field's text to an optional error message, together with the rule table
 * it implements and the two regular expressions it uses, read as predicates.
 */
module Validation {
  import opened Base
  import opened Text

  /** The six inputs of the form, in the order `formData` declares them. */
  datatype Field = Name | Email | Phone | Company | ServiceType | Message

  /** The property name of a field in `formData`, `errors` and `touched`, which is also
      the `name` attribute of its input. */
  function Key(f: Field): string {
    match f
    case Name => "name"
    case Email => "email"
    case Phone => "phone"
    case Company => "company"
    case ServiceType => "serviceType"
    case Message => "message"
  }

  /** The field a property name denotes, if any: the cases of the `switch` in
      `validateField`. */
  function FieldNamed(key: string): Option<Field> {
    if key == "name" then Some(Name)
    else if key == "email" then Some(Email)
    else if key == "phone" then Some(Phone)
    else if key == "company" then Some(Company)
    else if key == "serviceType" then Some(ServiceType)
    else if key == "message" then Some(Message)
    else None
  }

  /** Property names and fields correspond one to one; every other name denotes no field. */
  lemma FieldNamedInvertsKey(f: Field, key: string)
    ensures FieldNamed(Key(f)) == Some(f)
    ensures FieldNamed(key) == Some(f) <==> key == Key(f)
    ensures FieldNamed(key) == None <==> key !in {"name", "email", "phone", "company", "serviceType", "message"}
  {
  }

  /** The first entry of the service select, which stands for "nothing chosen yet". */
  const ServicePlaceholder: string := "Selecciona un tipo de servicio"

  /** The options of the service select, placeholder first. */
  const ServiceTypes: seq<string> :=
    [ServicePlaceholder, "Piscinero", "Control de Plagas", "Refrigeración", "Áreas Verdes", "Otro"]

  const NameRequired: string := "El nombre es requerido"
  const NameTooShort: string := "El nombre debe tener al menos 3 caracteres"
  const EmailRequired: string := "El email es requerido"
  const EmailInvalid: string := "Email inválido"
  const PhoneRequired: string := "El teléfono es requerido"
  const PhoneInvalid: string := "Teléfono inválido"
  const CompanyRequired: string := "La empresa/negocio es requerida"
  const ServiceRequired: string := "Selecciona un tipo de servicio"
  const MessageRequired: string := "El mensaje es requerido"
  const MessageTooShort: string := "El mensaje debe tener al menos 10 caracteres"

  /** Every message a field can be rejected with. */
  function MessagesFor(f: Field): set<string> {
    match f
    case Name => {NameRequired, NameTooShort}
    case Email => {EmailRequired, EmailInvalid}
    case Phone => {PhoneRequired, PhoneInvalid}
    case Company => {CompanyRequired}
    case ServiceType => {ServiceRequired}
    case Message => {MessageRequired, MessageTooShort}
  }

  /** The message of the "blank after trimming" check, for the five fields that trim. */
  function RequiredMessage(f: Field): string
    requires f != ServiceType
  {
    match f
    case Name => NameRequired
    case Email => EmailRequired
    case Phone => PhoneRequired
    case Company => CompanyRequired
    case Message => MessageRequired
  }

  // ---------------------------------------------------------------------------
  // The e-mail pattern  ^[^\s@]+@[^\s@]+\.[^\s@]+$

  /** A character of the class `[^\s@]`. */
  predicate IsAddressChar(c: char) {
    !IsSpace(c) && c != '@'
  }

  /** The pattern as it reads: a non-empty run of `[^\s@]`, an `@`, a non-empty run,
      a `.`, a non-empty run, and nothing else. Since `.` is itself in `[^\s@]`, the
      runs are the characters other than the `@`, which sits at `at`. */
  ghost predicate MatchesEmailPattern(s: string) {
    exists at, dot | 0 < at && at + 1 < dot < |s| - 1 ::
      && s[at] == '@' && s[dot] == '.'
      && forall k | 0 <= k < |s| && k != at :: IsAddressChar(s[k])
  }

  /** How many times `c` occurs in `s`. */
  function CountOf(s: string, c: char): (n: nat)
    ensures n <= |s|
    ensures n == 0 <==> c !in s
  {
    if s == [] then 0 else (if s[0] == c then 1 else 0) + CountOf(s[1..], c)
  }

  /** The position of the first `c` in `s`. */
  function IndexOf(s: string, c: char): (i: nat)
    requires c in s
    ensures i < |s| && s[i] == c && c !in s[..i]
  {
    if s[0] == c then 0 else 1 + IndexOf(s[1..], c)
  }

  /** A `.` that is neither the first nor the last character. */
  predicate HasInnerDot(domain: string) {
    exists j | 0 < j < |domain| - 1 :: domain[j] == '.'
  }

  /** The e-mail check the validator runs: no white space anywhere, exactly one `@`,
      something before it, and a `.` strictly inside the part after it. */
  predicate IsEmailShaped(s: string) {
    && (forall i | 0 <= i < |s| :: !IsSpace(s[i]))
    && CountOf(s, '@') == 1
    && var at := IndexOf(s, '@');
       at > 0 && HasInnerDot(s[at + 1..])
  }

  lemma {:induction false} CountOfTwo(s: string, c: char, i: nat, k: nat)
    requires i < k < |s| && s[i] == c && s[k] == c
    ensures CountOf(s, c) >= 2
  {
    if i > 0 {
      CountOfTwo(s[1..], c, i - 1, k - 1);
    } else {
      assert s[1..][k - 1] == c;
    }
  }

  lemma {:induction false} CountOfOne(s: string, c: char, i: nat)
    requires i < |s| && s[i] == c
    requires forall k | 0 <= k < |s| && k != i :: s[k] != c
    ensures CountOf(s, c) == 1
  {
    if i > 0 {
      CountOfOne(s[1..], c, i - 1);
    } else {
      assert c !in s[1..] by {
        forall k | 0 <= k < |s[1..]| ensures s[1..][k] != c {
          assert s[1..][k] == s[k + 1];
        }
      }
    }
  }

  /** The validator's e-mail check accepts exactly the strings the regular expression
      `^[^\s@]+@[^\s@]+\.[^\s@]+$` matches. */
  lemma EmailShapedIffPattern(s: string)
    ensures IsEmailShaped(s) <==> MatchesEmailPattern(s)
  {
    if IsEmailShaped(s) {
      var at := IndexOf(s, '@');
      var domain := s[at + 1..];
      var j :| 0 < j < |domain| - 1 && domain[j] == '.';
      var dot := at + 1 + j;
      assert s[dot] == '.';
      forall k | 0 <= k < |s| && k != at ensures IsAddressChar(s[k]) {
        if k < at {
          assert s[k] == s[..at][k];
        } else if s[k] == '@' {
          CountOfTwo(s, '@', at, k);
        }
      }
      assert 0 < at && at + 1 < dot < |s| - 1;
    }
    if MatchesEmailPattern(s) {
      var at, dot :| 0 < at && at + 1 < dot < |s| - 1
        && s[at] == '@' && s[dot] == '.'
        && forall k | 0 <= k < |s| && k != at :: IsAddressChar(s[k]);
      CountOfOne(s, '@', at);
      var first := IndexOf(s, '@');
      assert first == at;
      var domain := s[at + 1..];
      assert domain[dot - at - 1] == '.';
    }
  }

  // ---------------------------------------------------------------------------
  // The phone pattern  ^[\d\s\-\+\(\)]+$

  /** A character of the class `[\d\s\-\+\(\)]`: an ASCII digit, white space, or one
      of `-`, `+`, `(`, `)`. */
  predicate IsPhoneChar(c: char) {
    '0' <= c <= '9' || IsSpace(c) || c == '-' || c == '+' || c == '(' || c == ')'
  }

  /** The phone pattern: one or more characters, all of the class above. */
  predicate MatchesPhonePattern(s: string) {
    |s| > 0 && forall i | 0 <= i < |s| :: IsPhoneChar(s[i])
  }


  // ---------------------------------------------------------------------------
  // The validator

  /** One case of the `switch` in `validateField`: the first rule the field breaks, as
      its message, or None when the value is acceptable. */
  function Validate(f: Field, value: string): (r: Option<string>)
    ensures r.Some? ==> r.value in MessagesFor(f) && r.value != ""
  {
    match f
    case Name =>
      if Trim(value) == [] then Some(NameRequired)
      else if Utf16Length(Trim(value)) < 3 then Some(NameTooShort)
      else None
    case Email =>
      if Trim(value) == [] then Some(EmailRequired)
      else if !IsEmailShaped(value) then Some(EmailInvalid)
      else None
    case Phone =>
      if Trim(value) == [] then Some(PhoneRequired)
      else if !MatchesPhonePattern(value) then Some(PhoneInvalid)
      else None
    case Company =>
      if Trim(value) == [] then Some(CompanyRequired)
      else None
    case ServiceType =>
      if value == [] || value == ServicePlaceholder then Some(ServiceRequired)
      else None
    case Message =>
      if Trim(value) == [] then Some(MessageRequired)
      else if Utf16Length(Trim(value)) < 10 then Some(MessageTooShort)
      else None
  }

  /** `validateField(name, value)`: the field's check when the name is one of the six
      fields, and no error for any other name. */
  function ValidateField(key: string, value: string): (r: Option<string>)
    ensures FieldNamed(key).None? ==> r == None
    ensures r.Some? ==> FieldNamed(key).Some? && r.value in MessagesFor(FieldNamed(key).value)
  {
    match FieldNamed(key)
    case None => None
    case Some(f) => Validate(f, value)
  }

  /** The handlers validate by field; that is `validateField` on the field's name. */
  lemma ValidateFieldOfKey(f: Field, value: string)
    ensures ValidateField(Key(f), value) == Validate(f, value)
  {
    FieldNamedInvertsKey(f, Key(f));
  }

  /** The rule each field must satisfy, one row per field. Lengths are counted after
      trimming, in UTF-16 code units. */
  ghost predicate FieldRule(f: Field, value: string) {
    match f
    case Name => !IsBlank(value) && Utf16Length(Trim(value)) >= 3
    case Email => MatchesEmailPattern(value)
    case Phone => !IsBlank(value) && MatchesPhonePattern(value)
    case Company => !IsBlank(value)
    case ServiceType => value != "" && value != ServicePlaceholder
    case Message => !IsBlank(value) && Utf16Length(Trim(value)) >= 10
  }

  /** The validator reports no error exactly when the field's rule holds. */
  lemma ValidateIffRule(f: Field, value: string)
    ensures Validate(f, value) == None <==> FieldRule(f, value)
  {
    TrimEmptyIffBlank(value);
    match f {
      case Email =>
        EmailShapedIffPattern(value);
        if MatchesEmailPattern(value) {
          var at, dot :| 0 < at && at + 1 < dot < |value| - 1 && value[at] == '@' && value[dot] == '.'
            && forall k | 0 <= k < |value| && k != at :: IsAddressChar(value[k]);
          assert !IsSpace(value[at]);
        }
      case _ =>
    }
  }

  /** For a property name: no error exactly when the name denotes no field or the
      field's rule holds. */
  lemma ValidateFieldIffRule(key: string, value: string)
    ensures ValidateField(key, value) == None <==> FieldNamed(key).None? || FieldRule(FieldNamed(key).value, value)
  {
    if FieldNamed(key).Some? {
      ValidateIffRule(FieldNamed(key).value, value);
    }
  }

  /** A blank value in any of the five text fields gets that field's "required" message. */
  lemma BlankIsRequired(f: Field, value: string)
    requires f != ServiceType && IsBlank(value)
    ensures Validate(f, value) == Some(RequiredMessage(f))
  {
    TrimEmptyIffBlank(value);
  }

  /** Name and message are judged on their trimmed length: too short from one code
      unit up to the minimum, accepted from the minimum on. */
  lemma TrimmedLengthRules(value: string)
    ensures Validate(Name, value) == Some(NameTooShort) <==> 1 <= Utf16Length(Trim(value)) < 3
    ensures Validate(Name, value) == None <==> Utf16Length(Trim(value)) >= 3
    ensures Validate(Message, value) == Some(MessageTooShort) <==> 1 <= Utf16Length(Trim(value)) < 10
    ensures Validate(Message, value) == None <==> Utf16Length(Trim(value)) >= 10
  {
  }

  /** An address split at an `@` is accepted exactly when the part before it is a
      non-empty run of `[^\s@]` and the part after it is a run of `[^\s@]` with a `.`
      that is neither its first nor its last character. */
  lemma EmailAcceptance(local: string, domain: string)
    ensures Validate(Email, local + "@" + domain) == None <==>
      && local != []
      && (forall i | 0 <= i < |local| :: IsAddressChar(local[i]))
      && (forall i | 0 <= i < |domain| :: IsAddressChar(domain[i]))
      && HasInnerDot(domain)
  {
    var s := local + "@" + domain;
    ValidateIffRule(Email, s);
    if MatchesEmailPattern(s) {
      SplitOfPattern(s, local, domain);
    }
    if local != [] && (forall i | 0 <= i < |local| :: IsAddressChar(local[i]))
      && (forall i | 0 <= i < |domain| :: IsAddressChar(domain[i])) && HasInnerDot(domain)
    {
      PatternOfSplit(s, local, domain);
    }
  }

  lemma SplitOfPattern(s: string, local: string, domain: string)
    requires s == local + "@" + domain && MatchesEmailPattern(s)
    ensures local != [] && HasInnerDot(domain)
    ensures forall i | 0 <= i < |local| :: IsAddressChar(local[i])
    ensures forall i | 0 <= i < |domain| :: IsAddressChar(domain[i])
  {
    var at := |local|;
    assert s[at] == '@';
    var a, dot :| 0 < a && a + 1 < dot < |s| - 1 && s[a] == '@' && s[dot] == '.'
      && forall k | 0 <= k < |s| && k != a :: IsAddressChar(s[k]);
    assert a == at;
    forall i | 0 <= i < |local| ensures IsAddressChar(local[i]) {
      assert local[i] == s[i];
    }
    forall i | 0 <= i < |domain| ensures IsAddressChar(domain[i]) {
      assert domain[i] == s[at + 1 + i];
    }
    assert domain[dot - at - 1] == s[dot];
  }

  lemma PatternOfSplit(s: string, local: string, domain: string)
    requires s == local + "@" + domain && local != [] && HasInnerDot(domain)
    requires forall i | 0 <= i < |local| :: IsAddressChar(local[i])
    requires forall i | 0 <= i < |domain| :: IsAddressChar(domain[i])
    ensures MatchesEmailPattern(s)
  {
    var at := |local|;
    var j :| 0 < j < |domain| - 1 && domain[j] == '.';
    assert s[at] == '@';
    assert s[at + 1 + j] == '.';
    forall k | 0 <= k < |s| && k != at ensures IsAddressChar(s[k]) {
      if k < at {
        assert s[k] == local[k];
      } else {
        assert s[k] == domain[k - at - 1];
      }
    }
  }

  /** Which e-mail message is given: "required" exactly for blank text, "invalid"
      exactly for non-blank text the pattern does not match, which includes every
      text without an `@`. */
  lemma EmailMessages(value: string)
    ensures Validate(Email, value) == Some(EmailRequired) <==> IsBlank(value)
    ensures Validate(Email, value) == Some(EmailInvalid) <==> !IsBlank(value) && !MatchesEmailPattern(value)
    ensures '@' !in value && !IsBlank(value) ==> Validate(Email, value) == Some(EmailInvalid)
  {
    TrimEmptyIffBlank(value);
    ValidateIffRule(Email, value);
    if MatchesEmailPattern(value) {
      var at, dot :| 0 < at && at + 1 < dot < |value| - 1 && value[at] == '@' && value[dot] == '.'
        && forall k | 0 <= k < |value| && k != at :: IsAddressChar(value[k]);
      assert '@' in value;
    }
  }

  /** White space anywhere in a non-blank address makes it invalid: the pattern is
      tested on the untrimmed text, so leading and trailing spaces count. */
  lemma EmailRejectsSpace(value: string, i: nat)
    requires i < |value| && IsSpace(value[i]) && !IsBlank(value)
    ensures Validate(Email, value) == Some(EmailInvalid)
  {
    TrimEmptyIffBlank(value);
  }

  /** A phone number is accepted exactly when it is not blank and every character is
      a digit, white space, `-`, `+`, `(` or `)`. */
  lemma PhoneAcceptance(value: string)
    ensures Validate(Phone, value) == None <==>
      !IsBlank(value) && forall i | 0 <= i < |value| :: IsPhoneChar(value[i])
  {
    TrimEmptyIffBlank(value);
  }

  /** The service type is rejected exactly when it is empty or the placeholder; every
      real option of the select is accepted, and so is white space, which is not trimmed. */
  lemma ServiceTypeAcceptance(value: string)
    ensures Validate(ServiceType, value) == Some(ServiceRequired) <==> value == "" || value == ServicePlaceholder
    ensures Validate(ServiceType, value) == None <==> value != "" && value != ServicePlaceholder
    ensures value in ServiceTypes[1..] ==> Validate(ServiceType, value) == None
  {
  }
}
