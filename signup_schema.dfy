/**
 The validation schema of the signup form: a Yup object whose five string
 fields each carry a chain of tests. The form is valid when no field has an
 error, that is when every test of every chain passes. Yup's email test is an
 unseen library pattern, so it is the parameter `isEmail`.
 */
module SignupSchema {
  import opened Regex
  import Accounts

  /** One test of a Yup string chain: `.min(n)`, `.matches(re)`, `.email()`, `.required()`. */
  datatype Rule = Min(length: nat) | Matches(pattern: Pattern) | Email | Required

  /** The form's values; formik starts every field at `""`, so each is a string. */
  datatype Values = Values(
    username: string,
    email: string,
    password: string,
    aadharCard: string,
    phoneNumber: string)

  /**
   Whether `value` passes one test. Formik hands an empty field to Yup as
   `undefined`, which `.min`, `.matches` and `.email` let through; only
   `.required` rejects it.
   */
  predicate Passes(rule: Rule, value: string, isEmail: string -> bool) {
    match rule
    case Min(n) => value == "" || |value| >= n
    case Matches(p) => value == "" || Test(p, value)
    case Email => value == "" || isEmail(value)
    case Required => value != ""
  }

  predicate FieldValid(rules: seq<Rule>, value: string, isEmail: string -> bool) {
    forall i :: 0 <= i < |rules| ==> Passes(rules[i], value, isEmail)
  }

  const UsernameRules: seq<Rule> := [Min(3), Required]
  const EmailRules: seq<Rule> := [Email, Required]
  const PasswordRules: seq<Rule> := [Min(6), Required]
  const AadharRules: seq<Rule> := [Matches(AadharPattern), Required]
  const PhoneRules: seq<Rule> := [Matches(PhonePattern), Required]

  /** The whole form passes the schema. */
  predicate Valid(v: Values, isEmail: string -> bool) {
    && FieldValid(UsernameRules, v.username, isEmail)
    && FieldValid(EmailRules, v.email, isEmail)
    && FieldValid(PasswordRules, v.password, isEmail)
    && FieldValid(AadharRules, v.aadharCard, isEmail)
    && FieldValid(PhoneRules, v.phoneNumber, isEmail)
  }

  /** The JSON body the form posts to `/signup`: every field present, as typed. */
  function AsRequest(v: Values): Accounts.SignupRequest {
    Accounts.SignupRequest(
      Accounts.Some(v.username), Accounts.Some(v.email), Accounts.Some(v.password),
      Accounts.Some(v.aadharCard), Accounts.Some(v.phoneNumber))
  }

  /** A username is accepted exactly when it has at least three characters. */
  lemma UsernameRule(u: string, isEmail: string -> bool)
    ensures FieldValid(UsernameRules, u, isEmail) <==> |u| >= 3
  {
    assert Passes(UsernameRules[0], u, isEmail) <==> u == "" || |u| >= 3;
    assert Passes(UsernameRules[1], u, isEmail) <==> u != "";
  }

  /** An email is accepted exactly when it is non-empty and has Yup's email shape. */
  lemma EmailRule(e: string, isEmail: string -> bool)
    ensures FieldValid(EmailRules, e, isEmail) <==> e != "" && isEmail(e)
  {
    assert Passes(EmailRules[0], e, isEmail) && Passes(EmailRules[1], e, isEmail) ==> isEmail(e);
  }

  /** A password is accepted exactly when it has at least six characters. */
  lemma PasswordRule(p: string, isEmail: string -> bool)
    ensures FieldValid(PasswordRules, p, isEmail) <==> |p| >= 6
  {
    assert Passes(PasswordRules[0], p, isEmail) <==> p == "" || |p| >= 6;
    assert Passes(PasswordRules[1], p, isEmail) <==> p != "";
  }

  /** An Aadhar card number is accepted exactly when it is twelve ASCII digits. */
  lemma AadharRule(a: string, isEmail: string -> bool)
    ensures FieldValid(AadharRules, a, isEmail) <==> IsAadharNumber(a)
  {
    AadharPatternMeaning(a);
    assert Passes(AadharRules[0], a, isEmail) <==> a == "" || Test(AadharPattern, a);
    assert Passes(AadharRules[1], a, isEmail) <==> a != "";
  }

  /** A phone number is accepted exactly when it is ten ASCII digits starting with 6 to 9. */
  lemma PhoneRule(ph: string, isEmail: string -> bool)
    ensures FieldValid(PhoneRules, ph, isEmail) <==> IsPhoneNumber(ph)
  {
    PhonePatternMeaning(ph);
    assert Passes(PhoneRules[0], ph, isEmail) <==> ph == "" || Test(PhonePattern, ph);
    assert Passes(PhoneRules[1], ph, isEmail) <==> ph != "";
  }

  /** The schema, field by field, in terms of what each field must look like. */
  lemma ValidMeaning(v: Values, isEmail: string -> bool)
    ensures Valid(v, isEmail) <==>
      && |v.username| >= 3
      && v.email != "" && isEmail(v.email)
      && |v.password| >= 6
      && IsAadharNumber(v.aadharCard)
      && IsPhoneNumber(v.phoneNumber)
  {
    UsernameRule(v.username, isEmail);
    EmailRule(v.email, isEmail);
    PasswordRule(v.password, isEmail);
    AadharRule(v.aadharCard, isEmail);
    PhoneRule(v.phoneNumber, isEmail);
  }

  /** Every field is required: an empty value anywhere makes the form invalid. */
  lemma EmptyFieldIsInvalid(v: Values, isEmail: string -> bool)
    requires v.username == "" || v.email == "" || v.password == "" || v.aadharCard == "" || v.phoneNumber == ""
    ensures !Valid(v, isEmail)
  {
    ValidMeaning(v, isEmail);
  }

  /**
   What the form accepts passes every 400 guard of `/signup`, so the server can
   only answer it with 409, 201 or 500.
   */
  lemma ValidPassesServerChecks(v: Values, isEmail: string -> bool)
    requires Valid(v, isEmail)
    ensures Accounts.CheckSignupFields(AsRequest(v)) == Accounts.None
  {
    ValidMeaning(v, isEmail);
  }

  /**
   A username under three or a password under six characters fails the form,
   whatever the other fields hold. The server has no such rule; that it lets
   such payloads through is shown by `ShortCredentialsExample`.
   */
  lemma ShortCredentialsFailForm(v: Values, isEmail: string -> bool)
    requires |v.username| < 3 || |v.password| < 6
    ensures !Valid(v, isEmail)
  {
    ValidMeaning(v, isEmail);
  }

  /** A concrete such payload: a two-character username and a five-character password. */
  lemma ShortCredentialsExample(isEmail: string -> bool)
    ensures var v := Values("ab", "ab@example.in", "12345", "123456789012", "9876543210");
      Accounts.CheckSignupFields(AsRequest(v)) == Accounts.None && !Valid(v, isEmail)
  {
    var v := Values("ab", "ab@example.in", "12345", "123456789012", "9876543210");
    assert IsAadharNumber(v.aadharCard);
    assert IsPhoneNumber(v.phoneNumber);
    ShortCredentialsFailForm(v, isEmail);
  }
}
