/** The registration form behind the `useRegistrationForm` hook: the form data, the
    per-field errors, the touched fields, and the name and e-mail rules. */
module RegistrationForm {
  import opened Wrappers
  import opened Text

  /** A value of the form data object: the input's text, or a checkbox's state. */
  datatype Value = TextValue(text: string) | CheckValue(checked: bool)

  /** The form data object starts with these four keys. */
  function EmptyForm(): (r: map<string, Value>) {
    map["name" := TextValue(""), "email" := TextValue(""), "xhandle" := TextValue(""),
        "agreeToNewsletter" := CheckValue(false)]
  }

  /** The error object: at most one message per validated field. */
  datatype Errors = Errors(name: Option<string>, email: Option<string>)

  const NoErrors := Errors(None, None)

  const NameRequired := "Name is required"
  const NameTooShort := "Name must be at least 2 characters"
  const EmailRequired := "Email is required"
  const EmailInvalid := "Invalid email format"

  /** How a validation ends: with its value, or with the `TypeError` that `trim`
      raises when the field holds no string (a checkbox event named after a text
      field stores a boolean there). */
  datatype Run<+T> = Completed(value: T) | TypeError

  // ---------------------------------------------------------------------------
  // The rules
  // ---------------------------------------------------------------------------

  /** The name rule: blank after trimming, then shorter than two characters after
      trimming. */
  function NameError(name: string): (r: Option<string>)
    ensures r.None? || r.value == NameRequired || r.value == NameTooShort
    ensures r.None? ==> |Trim(name)| >= 2
  {
    if Trim(name) == [] then Some(NameRequired)
    else if |Trim(name)| < 2 then Some(NameTooShort)
    else None
  }

  /** The name rule in terms of the characters that are not white space: the
      name is required exactly when it has none, too short exactly when it has
      one, and accepted exactly when it has two or more. */
  lemma NameRule(name: string)
    ensures NameError(name) == Some(NameRequired) <==> NonSpaceCount(name) == 0
    ensures NameError(name) == Some(NameTooShort) <==> NonSpaceCount(name) == 1
    ensures NameError(name) == None <==> NonSpaceCount(name) >= 2
  {
    TrimCount(name);
  }

  /** One or more characters, none of them white space or `@`: the class
      `[^\s@]+`. */
  predicate Plain(x: string) {
    |x| > 0 && forall i :: 0 <= i < |x| ==> !IsSpace(x[i]) && x[i] != '@'
  }

  /** `s` splits as `a@b.c` with the `@` at `k` and the `.` at `d`, where `a`, `b`
      and `c` are `[^\s@]+`. */
  predicate EmailSplit(s: string, k: int, d: int) {
    && 0 < k && k + 1 < d < |s| - 1 && s[k] == '@' && s[d] == '.'
    && Plain(s[..k]) && Plain(s[k + 1..d]) && Plain(s[d + 1..])
  }

  /** The pattern `^[^\s@]+@[^\s@]+\.[^\s@]+$` matches the whole of `s`. */
  predicate IsEmail(s: string) {
    exists k, d | 0 < k < |s| && 0 < d < |s| :: EmailSplit(s, k, d)
  }

  /** The e-mail rule: blank after trimming, then a mismatch of the pattern on the
      untrimmed text. */
  function EmailError(email: string): (r: Option<string>)
    ensures r.None? || r.value == EmailRequired || r.value == EmailInvalid
    ensures r.None? ==> IsEmail(email) && Trim(email) != []
  {
    if Trim(email) == [] then Some(EmailRequired)
    else if !IsEmail(email) then Some(EmailInvalid)
    else None
  }

  /** An independent description of the pattern: no white space, exactly one
      `@`, not first, and a `.` after it with at least one character on either
      side. */
  predicate EmailShape(s: string) {
    && (forall i :: 0 <= i < |s| ==> !IsSpace(s[i]))
    && exists k :: 0 < k < |s| && s[k] == '@' && OnlyAt(s, k) && exists d :: k + 1 < d < |s| - 1 && s[d] == '.'
  }

  /** The only `@` of `s` is at `k`. */
  predicate OnlyAt(s: string, k: int) {
    forall i :: 0 <= i < |s| && i != k ==> s[i] != '@'
  }

  /** The pattern matches exactly the strings of that shape. */
  lemma EmailShapeIff(s: string)
    ensures IsEmail(s) <==> EmailShape(s)
  {
    if IsEmail(s) {
      var k, d :| 0 < k < |s| && 0 < d < |s| && EmailSplit(s, k, d);
      SplitShape(s, k, d);
    }
    if EmailShape(s) {
      var k :| 0 < k < |s| && s[k] == '@' && OnlyAt(s, k) && exists d :: k + 1 < d < |s| - 1 && s[d] == '.';
      var d :| k + 1 < d < |s| - 1 && s[d] == '.';
      ShapeSplit(s, k, d);
    }
  }

  lemma SplitShape(s: string, k: int, d: int)
    requires EmailSplit(s, k, d)
    ensures EmailShape(s)
  {
    forall i | 0 <= i < |s| ensures !IsSpace(s[i]) && (i != k ==> s[i] != '@') {
      if i < k {
        assert s[i] == s[..k][i];
      } else if k < i < d {
        assert s[i] == s[k + 1..d][i - k - 1];
      } else if d < i {
        assert s[i] == s[d + 1..][i - d - 1];
      }
    }
    assert OnlyAt(s, k);
  }

  lemma ShapeSplit(s: string, k: int, d: int)
    requires forall i :: 0 <= i < |s| ==> !IsSpace(s[i])
    requires 0 < k < |s| && s[k] == '@' && OnlyAt(s, k)
    requires k + 1 < d < |s| - 1 && s[d] == '.'
    ensures IsEmail(s)
  {
    var a, b, c := s[..k], s[k + 1..d], s[d + 1..];
    forall i | 0 <= i < |a| ensures !IsSpace(a[i]) && a[i] != '@' {
      assert a[i] == s[i];
    }
    forall i | 0 <= i < |b| ensures !IsSpace(b[i]) && b[i] != '@' {
      assert b[i] == s[k + 1 + i];
    }
    forall i | 0 <= i < |c| ensures !IsSpace(c[i]) && c[i] != '@' {
      assert c[i] == s[d + 1 + i];
    }
    assert EmailSplit(s, k, d);
  }

  /** The e-mail rule: required exactly when the text is all white space, and
      accepted exactly when the pattern matches; everything else is invalid. */
  lemma EmailRule(email: string)
    ensures EmailError(email) == Some(EmailRequired) <==> AllSpace(email)
    ensures EmailError(email) == None <==> IsEmail(email)
    ensures EmailError(email) == Some(EmailInvalid) <==> !AllSpace(email) && !IsEmail(email)
  {
    TrimCount(email);
    AllSpaceCount(email);
    if IsEmail(email) {
      var k, d :| 0 < k < |email| && 0 < d < |email| && EmailSplit(email, k, d);
      assert email[0] == email[..k][0];
    }
  }

  // ---------------------------------------------------------------------------
  // Validation of the form data
  // ---------------------------------------------------------------------------

  /** The string `trim` is called on, if the field holds one. */
  function FieldText(data: map<string, Value>, field: string): (r: Option<string>) {
    if field in data && data[field].TextValue? then Some(data[field].text) else None
  }

  /** `validateField`: recompute the error of a known field and keep the other
      entry; a field it does not know leaves the errors as they are. */
  function FieldErrors(errors: Errors, field: string, data: map<string, Value>): (r: Run<Errors>)
    ensures r.TypeError? <==> (field == "name" || field == "email") && FieldText(data, field).None?
    ensures r.Completed? && field != "name" ==> r.value.name == errors.name
    ensures r.Completed? && field != "email" ==> r.value.email == errors.email
    ensures field != "name" && field != "email" ==> r == Completed(errors)
  {
    if field == "name" then
      match FieldText(data, "name")
      case Some(t) => Completed(errors.(name := NameError(t)))
      case None => TypeError
    else if field == "email" then
      match FieldText(data, "email")
      case Some(t) => Completed(errors.(email := EmailError(t)))
      case None => TypeError
    else Completed(errors)
  }

  /** `validateForm`: the errors rebuilt from nothing, the name checked first.
      Validating the name field and then the e-mail field gives the same,
      whatever errors were shown before. */
  function FormErrors(data: map<string, Value>): (r: Run<Errors>)
    ensures forall errors :: FieldErrors(errors, "name", data).Completed? ==>
              r == FieldErrors(FieldErrors(errors, "name", data).value, "email", data)
    ensures forall errors :: FieldErrors(errors, "name", data).TypeError? ==> r.TypeError?
  {
    match (FieldText(data, "name"), FieldText(data, "email"))
    case (Some(n), Some(e)) => Completed(Errors(NameError(n), EmailError(e)))
    case _ => TypeError
  }

  /** `validateForm` succeeds exactly when the name has two or more characters
      that are not white space and the e-mail matches the pattern. */
  lemma FormValidIff(data: map<string, Value>)
    requires FormErrors(data).Completed?
    ensures FormErrors(data).value == NoErrors <==>
              NonSpaceCount(data["name"].text) >= 2 && IsEmail(data["email"].text)
  {
    NameRule(data["name"].text);
    EmailRule(data["email"].text);
  }

  /** The errors after typing into `field`: its entry is cleared. */
  function Cleared(errors: Errors, field: string): (r: Errors)
    ensures field == "name" ==> r.name == None && r.email == errors.email
    ensures field == "email" ==> r.email == None && r.name == errors.name
    ensures field != "name" && field != "email" ==> r == errors
  {
    if field == "name" && errors.name.Some? then errors.(name := None)
    else if field == "email" && errors.email.Some? then errors.(email := None)
    else errors
  }

  /** The hook's state. */
  class Form {
    var data: map<string, Value>
    var errors: Errors
    var touched: set<string>

    constructor ()
      ensures data == EmptyForm() && errors == NoErrors && touched == {}
    {
      data := EmptyForm();
      errors := NoErrors;
      touched := {};
    }

    /** `handleChange`: store the event's value (the checked flag for a checkbox)
        under its name, and clear that field's error if one is shown. */
    method HandleChange(field: string, value: string, isCheckbox: bool, checked: bool)
      modifies this
      ensures data == old(data)[field := if isCheckbox then CheckValue(checked) else TextValue(value)]
      ensures forall k :: k in old(data) && k != field ==> k in data && data[k] == old(data)[k]
      ensures errors == Cleared(old(errors), field)
      ensures touched == old(touched)
    {
      data := data[field := if isCheckbox then CheckValue(checked) else TextValue(value)];
      if field == "name" && errors.name.Some? {
        errors := errors.(name := None);
      } else if field == "email" && errors.email.Some? {
        errors := errors.(email := None);
      }
    }

    /** `validateField`: on a `TypeError` nothing is stored. */
    method ValidateField(field: string) returns (r: Run<()>)
      modifies this
      ensures r.Completed? <==> FieldErrors(old(errors), field, data).Completed?
      ensures errors == match FieldErrors(old(errors), field, data)
                        case Completed(e) => e
                        case TypeError => old(errors)
      ensures data == old(data) && touched == old(touched)
    {
      var next := errors;
      if field == "name" {
        var t := FieldText(data, "name");
        if t.None? { return TypeError; }
        next := next.(name := NameError(t.value));
      }
      if field == "email" {
        var t := FieldText(data, "email");
        if t.None? { return TypeError; }
        next := next.(email := EmailError(t.value));
      }
      errors := next;
      r := Completed(());
    }

    /** `handleBlur`: mark the field touched, then validate it. */
    method HandleBlur(field: string) returns (r: Run<()>)
      modifies this
      ensures touched == old(touched) + {field}
      ensures r.Completed? <==> FieldErrors(old(errors), field, data).Completed?
      ensures errors == match FieldErrors(old(errors), field, data)
                        case Completed(e) => e
                        case TypeError => old(errors)
      ensures data == old(data)
    {
      touched := touched + {field};
      r := ValidateField(field);
    }

    /** `validateForm`: rebuild the errors and report whether there are none. */
    method ValidateForm() returns (r: Run<bool>)
      modifies this
      ensures r.Completed? <==> FormErrors(data).Completed?
      ensures r.Completed? ==> errors == FormErrors(data).value && (r.value <==> errors == NoErrors)
      ensures r.TypeError? ==> errors == old(errors)
      ensures data == old(data) && touched == old(touched)
    {
      var n := FieldText(data, "name");
      if n.None? { return TypeError; }
      var e := FieldText(data, "email");
      if e.None? { return TypeError; }
      var next := Errors(NameError(n.value), EmailError(e.value));
      errors := next;
      r := Completed(next.name.None? && next.email.None?);
    }

    /** `resetForm`: back to the initial state. */
    method ResetForm()
      modifies this
      ensures data == EmptyForm() && errors == NoErrors && touched == {}
    {
      data := EmptyForm();
      errors := NoErrors;
      touched := {};
    }
  }
}
