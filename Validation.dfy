/**
 * The zod schemas that user and admin signup parse the request body with.
 * Both schemas have the same rules (names of at least 3 characters, an
 * email, a password of at least 6 characters); they differ only in their
 * messages. zod's email pattern is a foreign check, taken as a parameter.
 */
module Validation {
  import opened Records

  /** The four signup fields of the request body, each possibly missing. */
  datatype SignupForm = SignupForm(
    firstName: Option<string>, lastName: Option<string>, email: Option<string>, password: Option<string>)

  /** The message each rule reports when its field is present but rejected. */
  datatype Messages = Messages(firstName: string, lastName: string, email: string, password: string)

  const MinNameLength: nat := 3
  const MinPasswordLength: nat := 6

  /** zod's message for a missing field. */
  const Required := "Required"

  /** The user schema. Its password message says 8 while the rule it reports is 6. */
  const UserMessages := Messages(
    "firstName must be at least 3 characters long",
    "lastName must be at least 3 characters long",
    "Invalid email",
    "password must be at least 8 characters long")

  const AdminMessages := Messages(
    "First name must be at least 3 characters long",
    "Last name must be at least 3 characters long",
    "Invalid email address",
    "Password must be at least 6 characters long")

  /**
   * JavaScript's `String.length`, which zod's `.min(n)` compares against:
   * the number of UTF-16 code units, so a character outside the Basic
   * Multilingual Plane counts twice.
   */
  function JsLength(s: string): (n: nat)
    ensures |s| <= n <= 2 * |s|
    ensures n == 0 <==> s == []
    ensures n == |s| <==> forall i :: 0 <= i < |s| ==> s[i] as int < 0x1_0000
  {
    if s == [] then 0
    else
      var here := if s[0] as int < 0x1_0000 then 1 else 2;
      assert forall i :: 1 <= i < |s| ==> s[1..][i - 1] == s[i];
      here + JsLength(s[1..])
  }

  /**
   * A two-character name whose first character lies outside the Basic
   * Multilingual Plane (an emoji followed by a letter, or two emoji) is long
   * enough for zod.
   */
  lemma AstralCharCountsTwice(name: string)
    requires |name| == 2 && name[0] as int >= 0x1_0000
    ensures JsLength(name) >= MinNameLength
  {
    assert name[1..][1..] == [];
  }

  /** What the schema accepts, field by field. */
  predicate Accepts(form: SignupForm, isEmail: string -> bool)
  {
    && form.firstName.Some? && JsLength(form.firstName.value) >= MinNameLength
    && form.lastName.Some? && JsLength(form.lastName.value) >= MinNameLength
    && form.email.Some? && isEmail(form.email.value)
    && form.password.Some? && JsLength(form.password.value) >= MinPasswordLength
  }

  /** The issues one field contributes: "Required" when missing, its message when rejected. */
  function FieldIssues(v: Option<string>, ok: bool, message: string): seq<string>
  {
    if v.None? then [Required] else if ok then [] else [message]
  }

  /**
   * `schema.safeParse(body).error.issues.map(err => err.message)`: one issue
   * per failing field, in the schema's field order.
   */
  function Issues(form: SignupForm, messages: Messages, isEmail: string -> bool): (r: seq<string>)
    ensures r == [] <==> Accepts(form, isEmail)
    ensures |r| <= 4
    ensures forall m :: m in r ==>
      m in [Required, messages.firstName, messages.lastName, messages.email, messages.password]
    ensures form.password.Some? && JsLength(form.password.value) < MinPasswordLength ==> messages.password in r
  {
    FieldIssues(form.firstName, form.firstName.Some? && JsLength(form.firstName.value) >= MinNameLength, messages.firstName)
    + FieldIssues(form.lastName, form.lastName.Some? && JsLength(form.lastName.value) >= MinNameLength, messages.lastName)
    + FieldIssues(form.email, form.email.Some? && isEmail(form.email.value), messages.email)
    + FieldIssues(form.password, form.password.Some? && JsLength(form.password.value) >= MinPasswordLength, messages.password)
  }

  /**
   * An accepted form has truthy names and password. The email is truthy as
   * well unless the email check accepts the empty string, which zod's
   * pattern never does; only then can user signup's later presence check fire.
   */
  lemma AcceptedFieldsArePresent(form: SignupForm, isEmail: string -> bool)
    requires Accepts(form, isEmail)
    ensures Present(form.firstName) && Present(form.lastName) && Present(form.password)
    ensures !isEmail("") ==> Present(form.email)
  {
  }

  /**
   * The user schema accepts every password of 6 or more characters although
   * its message asks for 8: no password issue is reported for any of them,
   * including those of 6 and 7 characters.
   */
  lemma UserPasswordMessageOverstatesRule(form: SignupForm, isEmail: string -> bool)
    requires form.password.Some? && JsLength(form.password.value) >= MinPasswordLength
    ensures UserMessages.password !in Issues(form, UserMessages, isEmail)
  {
  }
}
