/**
 * The registration form: its field update, its validation (one message per failing field),
 * the request it sends, and the check on the server's answer.
 */
module Register {
  import opened Wrappers
  import Text

  datatype Field = Name | Email | Phone | Password | ConfirmPassword

  type Form = map<Field, string>

  predicate Complete(form: Form) {
    forall f: Field :: f in form
  }

  /** A form that has each input listed is complete. */
  lemma CompleteByCases(form: Form)
    requires Name in form && Email in form && Phone in form && Password in form && ConfirmPassword in form
    ensures Complete(form)
  {
    forall f: Field ensures f in form {
      match f
      case Name =>
      case Email =>
      case Phone =>
      case Password =>
      case ConfirmPassword =>
    }
  }

  /** The form's initial state, restored after a successful registration. */
  function EmptyForm(): (form: Form)
    ensures Complete(form)
    ensures forall f :: form[f] == ""
  {
    var form := map[Name := "", Email := "", Phone := "", Password := "", ConfirmPassword := ""];
    CompleteByCases(form);
    form
  }

  /** `/^\d{10}$/`: exactly ten digits and nothing else. */
  predicate TenDigits(s: string) {
    |s| == 10 && forall i :: 0 <= i < |s| ==> Text.IsDigit(s[i])
  }

  /** `/\S+@\S+\.\S+/`, unanchored: somewhere a non-space character, `@`, one or more
      non-space characters, `.`, and a non-space character. */
  predicate EmailShape(s: string) {
    exists at, dot | 0 < at && at + 1 < dot && dot + 1 < |s| :: EmailAt(s, at, dot)
  }

  /** The pattern matches with its `@` at `at` and its `.` at `dot`. */
  predicate EmailAt(s: string, at: int, dot: int)
    requires 0 < at && at + 1 < dot && dot + 1 < |s|
  {
    && s[at] == '@' && s[dot] == '.'
    && !Text.IsSpace(s[at - 1]) && !Text.IsSpace(s[dot + 1])
    && forall k :: at < k < dot ==> !Text.IsSpace(s[k])
  }

  /** Local part, domain and suffix without white space always match. */
  lemma PlainAddressMatches(local: string, domain: string, suffix: string)
    requires local != "" && domain != "" && suffix != ""
    requires forall i :: 0 <= i < |local| ==> !Text.IsSpace(local[i])
    requires forall i :: 0 <= i < |domain| ==> !Text.IsSpace(domain[i])
    requires forall i :: 0 <= i < |suffix| ==> !Text.IsSpace(suffix[i])
    ensures EmailShape(local + "@" + domain + "." + suffix)
  {
    var s := local + "@" + domain + "." + suffix;
    var at := |local|;
    var dot := |local| + 1 + |domain|;
    assert s[at] == '@' && s[dot] == '.';
    assert s[at - 1] == local[at - 1];
    assert s[dot + 1] == suffix[0];
    forall k | at < k < dot ensures !Text.IsSpace(s[k]) {
      assert s[k] == domain[k - at - 1];
    }
    assert EmailAt(s, at, dot);
  }

  /** A match needs an `@` followed, later, by a `.`. */
  lemma EmailShapeNeedsAtAndDot(s: string)
    requires EmailShape(s)
    ensures exists i, j | 0 <= i < j < |s| :: s[i] == '@' && s[j] == '.'
  {
    var at, dot :| 0 < at && at + 1 < dot && dot + 1 < |s| && EmailAt(s, at, dot);
    assert s[at] == '@' && s[dot] == '.';
  }

  /** The pattern is unanchored: text around a matching address does not stop the match. */
  lemma EmailShapeUnanchored(before: string, s: string, after: string)
    requires EmailShape(s)
    ensures EmailShape(before + s + after)
  {
    var at, dot :| 0 < at && at + 1 < dot && dot + 1 < |s| && EmailAt(s, at, dot);
    var t := before + s + after;
    var n := |before|;
    assert t[n + at] == s[at] && t[n + dot] == s[dot];
    assert t[n + at - 1] == s[at - 1] && t[n + dot + 1] == s[dot + 1];
    forall k | n + at < k < n + dot ensures !Text.IsSpace(t[k]) {
      assert t[k] == s[k - n];
    }
    assert EmailAt(t, n + at, n + dot);
  }

  /** The message of one field, or `None` when the field passes. */
  function FieldError(form: Form, f: Field): (r: Option<string>)
    requires Complete(form)
    ensures f in {Name, Phone, Email} && Text.IsBlank(form[f]) ==> r.Some?
    ensures f == Phone && r.None? ==> TenDigits(form[Phone])
    ensures f == Email && r.None? ==> EmailShape(form[Email])
    ensures f == Password && r.None? ==> |form[Password]| >= 6
    ensures f == ConfirmPassword ==> (r.None? <==> form[Password] == form[ConfirmPassword])
  {
    match f
    case Name =>
      if Text.IsBlank(form[Name]) then Some("Name is required") else None
    case Phone =>
      if Text.IsBlank(form[Phone]) then Some("Phone number is required")
      else if !TenDigits(form[Phone]) then Some("Phone number is invalid")
      else None
    case Email =>
      if Text.IsBlank(form[Email]) then Some("Email is required")
      else if !EmailShape(form[Email]) then Some("Email is invalid")
      else None
    case Password =>
      if form[Password] == "" then Some("Password is required")
      else if |form[Password]| < 6 then Some("Password must be at least 6 characters")
      else None
    case ConfirmPassword =>
      if form[Password] != form[ConfirmPassword] then Some("Passwords do not match") else None
  }

  /** The errors of the checked fields. */
  function ErrorsOver(form: Form, fields: set<Field>): map<Field, string>
    requires Complete(form)
  {
    map f | f in fields && FieldError(form, f).Some? :: FieldError(form, f).value
  }

  const AllFields: set<Field> := {Name, Phone, Email, Password, ConfirmPassword}

  /** `validateForm`'s error map. */
  function FormErrors(form: Form): (errors: map<Field, string>)
    requires Complete(form)
    ensures forall f :: f in errors <==> FieldError(form, f).Some?
    ensures forall f :: f in errors ==> errors[f] == FieldError(form, f).value
  {
    ErrorsOver(form, AllFields)
  }

  lemma ErrorsOverAdd(form: Form, fields: set<Field>, f: Field)
    requires Complete(form)
    ensures ErrorsOver(form, fields + {f}) ==
      if FieldError(form, f).Some? then ErrorsOver(form, fields)[f := FieldError(form, f).value]
      else ErrorsOver(form, fields)
  {
  }

  /** One rule of `validateForm`: the message found for `f`, if any, is added. */
  method Record(form: Form, errs: map<Field, string>, ghost checked: set<Field>, f: Field, message: Option<string>)
    returns (r: map<Field, string>)
    requires Complete(form) && errs == ErrorsOver(form, checked) && message == FieldError(form, f)
    ensures r == ErrorsOver(form, checked + {f})
  {
    ErrorsOverAdd(form, checked, f);
    r := errs;
    if message.Some? {
      r := errs[f := message.value];
    }
  }

  /** The form validates exactly when the name is not blank, the phone is ten digits, the
      e-mail matches the pattern, the password has at least six characters, and the
      confirmation equals it. */
  lemma FormValidIff(form: Form)
    requires Complete(form)
    ensures FormErrors(form) == map[] <==>
      && !Text.IsBlank(form[Name])
      && TenDigits(form[Phone])
      && !Text.IsBlank(form[Email]) && EmailShape(form[Email])
      && |form[Password]| >= 6
      && form[Password] == form[ConfirmPassword]
  {
    var errs := FormErrors(form);
    if TenDigits(form[Phone]) {
      Text.BlankIffAllSpace(form[Phone]);
      assert !Text.IsSpace(form[Phone][0]);
    }
    if errs == map[] {
      forall f | f in AllFields ensures FieldError(form, f).None? {
        assert f !in errs;
      }
      assert FieldError(form, Phone).None?;
    }
  }

  /** A blank password is reported as missing, not as short, and the mismatch check runs
      whatever the other fields hold. */
  lemma PasswordChecksIndependent(form: Form)
    requires Complete(form)
    ensures form[Password] == "" ==> FormErrors(form)[Password] == "Password is required"
    ensures ConfirmPassword in FormErrors(form) <==> form[Password] != form[ConfirmPassword]
  {
    assert Password in AllFields && ConfirmPassword in AllFields;
  }

  /** Only the password is taken as typed: a name of spaces is missing, a password of six
      spaces is accepted. */
  lemma PasswordIsNotTrimmed(form: Form)
    requires Complete(form) && form[Password] == "      "
    ensures Password !in FormErrors(form)
  {
  }

  /** What is sent to the registration endpoint. */
  datatype UserData = UserData(name: string, email: string, phone: string, password: string)

  /** The registration answer, when there is one. */
  datatype RegisterResponse = RegisterResponse(message: Option<string>, token: Option<string>)

  /** The success test: the expected message and a token that is not the empty string; an
      absent token passes. */
  predicate Succeeded(response: Option<RegisterResponse>) {
    && response.Some?
    && response.value.message == Some("User registered successfully")
    && response.value.token != Some("")
  }

  lemma MissingTokenSucceeds()
    ensures Succeeded(Some(RegisterResponse(Some("User registered successfully"), None)))
    ensures !Succeeded(Some(RegisterResponse(Some("User registered successfully"), Some(""))))
    ensures !Succeeded(None)
  {
  }

  class RegisterPage {
    var form: Form
    var errors: map<Field, string>

    ghost predicate Valid()
      reads this
    {
      Complete(form)
    }

    constructor ()
      ensures Valid() && form == EmptyForm() && errors == map[]
    {
      form, errors := EmptyForm(), map[];
    }

    /** `handleChange`: set one field; a set error of that field is blanked. */
    method Change(name: Field, value: string)
      requires Valid()
      modifies this
      ensures Valid()
      ensures form == old(form)[name := value]
      ensures name in old(errors) && old(errors)[name] != "" ==> errors == old(errors)[name := ""]
      ensures !(name in old(errors) && old(errors)[name] != "") ==> errors == old(errors)
    {
      form := form[name := value];
      if name in errors && errors[name] != "" {
        errors := errors[name := ""];
      }
    }

    /** `validateForm`: each field's rule is checked in turn, and the map of messages found
        replaces the old one. */
    method ValidateForm() returns (ok: bool)
      requires Valid()
      modifies this`errors
      ensures Valid()
      ensures errors == FormErrors(form)
      ensures ok <==> errors == map[]
    {
      var newErrors: map<Field, string> := map[];
      ghost var checked: set<Field> := {};
      var message: Option<string>;

      message := None;
      if Text.IsBlank(form[Name]) { message := Some("Name is required"); }
      newErrors := Record(form, newErrors, checked, Name, message);
      checked := checked + {Name};

      message := None;
      if Text.IsBlank(form[Phone]) { message := Some("Phone number is required"); }
      else if !TenDigits(form[Phone]) { message := Some("Phone number is invalid"); }
      newErrors := Record(form, newErrors, checked, Phone, message);
      checked := checked + {Phone};

      message := None;
      if Text.IsBlank(form[Email]) { message := Some("Email is required"); }
      else if !EmailShape(form[Email]) { message := Some("Email is invalid"); }
      newErrors := Record(form, newErrors, checked, Email, message);
      checked := checked + {Email};

      message := None;
      if form[Password] == "" { message := Some("Password is required"); }
      else if |form[Password]| < 6 { message := Some("Password must be at least 6 characters"); }
      newErrors := Record(form, newErrors, checked, Password, message);
      checked := checked + {Password};

      message := None;
      if form[Password] != form[ConfirmPassword] { message := Some("Passwords do not match"); }
      newErrors := Record(form, newErrors, checked, ConfirmPassword, message);
      checked := checked + {ConfirmPassword};

      assert checked == AllFields;
      errors := newErrors;
      ok := errors == map[];
    }

    /** `handleSubmit` up to the request: nothing is sent unless the form validates. */
    method Submit() returns (sent: Option<UserData>)
      requires Valid()
      modifies this`errors
      ensures Valid()
      ensures errors == FormErrors(form)
      ensures sent.Some? <==> errors == map[]
      ensures sent.Some? ==> sent.value == UserData(form[Name], form[Email], form[Phone], form[Password])
    {
      var ok := ValidateForm();
      if ok {
        sent := Some(UserData(form[Name], form[Email], form[Phone], form[Password]));
      } else {
        sent := None;
      }
    }

    /** The answer's handling, with the delayed reset and redirect taken as done: a successful
        answer clears the form and the errors and leads to the sign-in page. */
    method Answered(response: Option<RegisterResponse>) returns (target: Option<string>)
      requires Valid()
      modifies this
      ensures Valid()
      ensures Succeeded(response) ==> form == EmptyForm() && errors == map[] && target == Some("/login")
      ensures !Succeeded(response) ==> form == old(form) && errors == old(errors) && target == None
    {
      if Succeeded(response) {
        form, errors := EmptyForm(), map[];
        target := Some("/login");
      } else {
        target := None;
      }
    }
  }
}
