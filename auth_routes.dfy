/**
 * The input rules of backend/src/routes/auth.routes.js. `POST /signup`
 * runs three independent field checks before the signup handler, each
 * recording its message when its field fails; `POST /login` runs none.
 * The checks only record errors: the handler decides what to do with them.
 */
module AuthRoutes {

  type Body = map<string, string>

  datatype FieldError = FieldError(field: string, msg: string)

  datatype Route = Signup | Login

  const NameMessage: string := "Name is required"
  const EmailMessage: string := "Please include a valid email"
  const PasswordMessage: string := "Please enter a password with 6 or more characters"
  const MinPasswordLength: nat := 6

  /** The text a check sees: a missing field reads as the empty string. */
  function FieldText(body: Body, field: string): string {
    if field in body then body[field] else ""
  }

  /** `body(field).not().isEmpty()`. */
  predicate NameOk(name: string) { name != "" }

  /** The presentation selectors U+FE0E and U+FE0F, which the length check leaves out of its count. */
  predicate IsPresentationSelector(c: char) {
    c == '\U{FE0E}' || c == '\U{FE0F}'
  }

  /**
   * The length `isLength` measures: code points (a surrogate pair counts
   * once), less the presentation selectors.
   */
  function CountedLength(s: string): (n: nat)
    ensures n <= |s|
  {
    if |s| == 0 then 0
    else (if IsPresentationSelector(s[0]) then 0 else 1) + CountedLength(s[1..])
  }

  /** The count of a concatenation is the sum of the counts. */
  lemma {:induction false} CountedLengthConcat(a: string, b: string)
    ensures CountedLength(a + b) == CountedLength(a) + CountedLength(b)
  {
    if |a| > 0 {
      assert (a + b)[1..] == a[1..] + b;
      CountedLengthConcat(a[1..], b);
    } else {
      assert a + b == b;
    }
  }

  /** Without presentation selectors the count is the number of code points. */
  lemma {:induction false} CountedLengthPlain(s: string)
    requires forall i :: 0 <= i < |s| ==> !IsPresentationSelector(s[i])
    ensures CountedLength(s) == |s|
  {
    if |s| > 0 {
      CountedLengthPlain(s[1..]);
    }
  }

  /** `body(field).isLength({ min: 6 })`. */
  predicate PasswordOk(password: string) { CountedLength(password) >= MinPasswordLength }

  /**
   * The errors one request collects, in the order the checks are listed.
   * `isEmail` stands for the email-syntax check, which is not interpreted here.
   */
  function Errors(route: Route, body: Body, isEmail: string -> bool): (errs: seq<FieldError>)
    ensures route == Login ==> errs == []
  {
    match route
    case Login => []
    case Signup =>
      (if NameOk(FieldText(body, "name")) then [] else [FieldError("name", NameMessage)])
      + (if isEmail(FieldText(body, "email")) then [] else [FieldError("email", EmailMessage)])
      + (if PasswordOk(FieldText(body, "password")) then [] else [FieldError("password", PasswordMessage)])
  }

  /** The errors that concern one field. */
  function ErrorsFor(errs: seq<FieldError>, field: string): (r: seq<FieldError>)
    ensures forall e :: e in r <==> e in errs && e.field == field
  {
    if |errs| == 0 then []
    else (if errs[0].field == field then [errs[0]] else []) + ErrorsFor(errs[1..], field)
  }

  /** Signup passes every check exactly when the name is non-empty, the email is valid and the password has at least six characters. */
  lemma SignupAcceptsIff(body: Body, isEmail: string -> bool)
    ensures Errors(Signup, body, isEmail) == [] <==>
              NameOk(FieldText(body, "name")) && isEmail(FieldText(body, "email"))
              && PasswordOk(FieldText(body, "password"))
  {
  }

  /** Each message is recorded exactly when its own rule fails. */
  lemma EachRuleReportsItsOwnField(body: Body, isEmail: string -> bool)
    ensures FieldError("name", NameMessage) in Errors(Signup, body, isEmail) <==> FieldText(body, "name") == ""
    ensures FieldError("email", EmailMessage) in Errors(Signup, body, isEmail) <==> !isEmail(FieldText(body, "email"))
    ensures FieldError("password", PasswordMessage) in Errors(Signup, body, isEmail) <==> CountedLength(FieldText(body, "password")) < 6
  {
  }

  /** The checks are independent: the errors about a field depend on that field's text alone. */
  lemma ChecksAreIndependent(b1: Body, b2: Body, isEmail: string -> bool, field: string)
    requires field in {"name", "email", "password"}
    requires FieldText(b1, field) == FieldText(b2, field)
    ensures ErrorsFor(Errors(Signup, b1, isEmail), field) == ErrorsFor(Errors(Signup, b2, isEmail), field)
  {
    ErrorsOfOneField(b1, isEmail, field);
    ErrorsOfOneField(b2, isEmail, field);
  }

  /** The errors about one field are its own check's verdict and nothing else. */
  lemma ErrorsOfOneField(body: Body, isEmail: string -> bool, field: string)
    requires field in {"name", "email", "password"}
    ensures ErrorsFor(Errors(Signup, body, isEmail), field) ==
              if field == "name" then
                (if NameOk(FieldText(body, "name")) then [] else [FieldError("name", NameMessage)])
              else if field == "email" then
                (if isEmail(FieldText(body, "email")) then [] else [FieldError("email", EmailMessage)])
              else
                (if PasswordOk(FieldText(body, "password")) then [] else [FieldError("password", PasswordMessage)])
  {
    var a := if NameOk(FieldText(body, "name")) then [] else [FieldError("name", NameMessage)];
    var b := if isEmail(FieldText(body, "email")) then [] else [FieldError("email", EmailMessage)];
    var c := if PasswordOk(FieldText(body, "password")) then [] else [FieldError("password", PasswordMessage)];
    ErrorsForConcat(a + b, c, field);
    ErrorsForConcat(a, b, field);
  }

  lemma {:induction false} ErrorsForConcat(x: seq<FieldError>, y: seq<FieldError>, field: string)
    ensures ErrorsFor(x + y, field) == ErrorsFor(x, field) + ErrorsFor(y, field)
  {
    if |x| > 0 {
      assert (x + y)[0] == x[0];
      assert (x + y)[1..] == x[1..] + y;
      ErrorsForConcat(x[1..], y, field);
    } else {
      assert x + y == y;
    }
  }

  /**
   * Without presentation selectors a password passes the length rule iff
   * it has six code points or more; a selector does not count towards them.
   */
  lemma PasswordBoundary(body: Body, isEmail: string -> bool)
    ensures (forall i :: 0 <= i < |FieldText(body, "password")| ==> !IsPresentationSelector(FieldText(body, "password")[i]))
            ==> (FieldError("password", PasswordMessage) !in Errors(Signup, body, isEmail)
                 <==> |FieldText(body, "password")| >= 6)
    ensures FieldText(body, "password") == "abcde\U{FE0F}" ==>
              FieldError("password", PasswordMessage) in Errors(Signup, body, isEmail)
  {
    var pw := FieldText(body, "password");
    if forall i :: 0 <= i < |pw| ==> !IsPresentationSelector(pw[i]) {
      CountedLengthPlain(pw);
    }
    if pw == "abcde\U{FE0F}" {
      assert pw == "abcde" + "\U{FE0F}";
      CountedLengthConcat("abcde", "\U{FE0F}");
      CountedLengthPlain("abcde");
      assert CountedLength(pw) == 5;
    }
    EachRuleReportsItsOwnField(body, isEmail);
  }
}
