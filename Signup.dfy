/**
 * The two-step sign-up form: the ordered validation guards of each step, the
 * step and error state they drive, and the 0-4 password strength score with
 * its label and colour.
 */
module Signup {
  import opened Wrappers
  import opened Text
  import opened UserRecord
  import opened Auth

  datatype Form = Form(name: string, email: string, password: string, confirmPassword: string)

  datatype Field = Name | Email | Password | ConfirmPassword

  const NameMissing: string := "Please enter your name"
  const EmailMissing: string := "Please enter your email"
  const EmailInvalid: string := "Please enter a valid email address"
  const PasswordShort: string := "Password must be at least 6 characters long"
  const PasswordMismatch: string := "Passwords do not match"

  const EmptyForm: Form := Form("", "", "", "")

  /** `handleInputChange`: the named field takes the typed value. */
  function WithField(f: Form, field: Field, value: string): Form {
    match field
    case Name => f.(name := value)
    case Email => f.(email := value)
    case Password => f.(password := value)
    case ConfirmPassword => f.(confirmPassword := value)
  }

  // ---- The e-mail pattern ----

  /**
   * A match of `\S+@\S+\.\S+` with the `@` at `a` and the `.` at `d`: at least
   * one non-space before the `@`, a non-empty run of non-spaces between `@` and
   * `.`, and at least one non-space after the `.`.
   */
  predicate EmailMatchAt(s: string, a: int, d: int) {
    && 1 <= a && a + 1 < d && d + 1 < |s|
    && s[a] == '@' && s[d] == '.'
    && !IsSpace(s[a - 1]) && !IsSpace(s[d + 1])
    && forall k :: a < k < d ==> !IsSpace(s[k])
  }

  /** The regular-expression test, which is not anchored: a match anywhere in the string suffices. */
  predicate EmailPattern(s: string) {
    exists a, d :: 0 <= a < d < |s| && EmailMatchAt(s, a, d)
  }

  // ---- Validation ----

  /** `validateStep1`: the first failing check chooses the message; `None` means valid. */
  function ValidateStep1(f: Form): Option<string> {
    if Trim(f.name) == "" then Some(NameMissing)
    else if Trim(f.email) == "" then Some(EmailMissing)
    else if !EmailPattern(f.email) then Some(EmailInvalid)
    else None
  }

  /** `validateStep2`: the length check comes before the match check. */
  function ValidateStep2(f: Form): Option<string> {
    if |f.password| < 6 then Some(PasswordShort)
    else if f.password != f.confirmPassword then Some(PasswordMismatch)
    else None
  }

  // ---- Password strength ----

  predicate IsUpper(c: char) { 'A' <= c <= 'Z' }

  predicate IsAlnum(c: char) { 'A' <= c <= 'Z' || 'a' <= c <= 'z' || '0' <= c <= '9' }

  /** `/[A-Z]/.test(p)`. */
  predicate HasUpper(p: string) { exists k :: 0 <= k < |p| && IsUpper(p[k]) }

  /** `/[0-9]/.test(p)`. */
  predicate HasDigit(p: string) { exists k :: 0 <= k < |p| && IsDigit(p[k]) }

  /** `/[^A-Za-z0-9]/.test(p)`. */
  predicate HasSymbol(p: string) { exists k :: 0 <= k < |p| && !IsAlnum(p[k]) }

  function Point(b: bool): int { if b then 1 else 0 }

  /** The number of the four criteria the password meets. */
  function Strength(p: string): (n: int)
    ensures 0 <= n <= 4
    ensures n == 4 <==> |p| >= 6 && HasUpper(p) && HasDigit(p) && HasSymbol(p)
    ensures n == 0 <==> |p| < 6 && !HasUpper(p) && !HasDigit(p) && !HasSymbol(p)
  {
    Point(|p| >= 6) + Point(HasUpper(p)) + Point(HasDigit(p)) + Point(HasSymbol(p))
  }

  /** `passwordStrength`: a counter raised once per criterion met. */
  method PasswordStrength(password: string) returns (strength: int)
    ensures strength == Strength(password)
    ensures 0 <= strength <= 4
  {
    strength := 0;
    if |password| >= 6 {
      strength := strength + 1;
    }
    if HasUpper(password) {
      strength := strength + 1;
    }
    if HasDigit(password) {
      strength := strength + 1;
    }
    if HasSymbol(password) {
      strength := strength + 1;
    }
  }

  /** `getStrengthColor`. */
  function StrengthColor(strength: int): string {
    if strength == 0 || strength == 1 then "bg-red-400"
    else if strength == 2 then "bg-yellow-400"
    else if strength == 3 then "bg-blue-400"
    else if strength == 4 then "bg-green-400"
    else "bg-gray-300"
  }

  /** `getStrengthText`. */
  function StrengthText(strength: int): string {
    if strength == 0 || strength == 1 then "Weak"
    else if strength == 2 then "Fair"
    else if strength == 3 then "Good"
    else if strength == 4 then "Strong"
    else ""
  }

  // ---- Properties ----

  /** Step one passes exactly when the name and e-mail are not blank and the e-mail matches the pattern. */
  lemma Step1Valid(f: Form)
    ensures ValidateStep1(f) == None <==> Trim(f.name) != "" && Trim(f.email) != "" && EmailPattern(f.email)
  {
  }

  /** The checks of step one are ordered: a blank name is reported whatever the e-mail, then a blank e-mail. */
  lemma Step1Order(f: Form)
    ensures Trim(f.name) == "" ==> ValidateStep1(f) == Some(NameMissing)
    ensures Trim(f.name) != "" && Trim(f.email) == "" ==> ValidateStep1(f) == Some(EmailMissing)
    ensures Trim(f.name) != "" && Trim(f.email) != "" && !EmailPattern(f.email) ==> ValidateStep1(f) == Some(EmailInvalid)
  {
  }

  /** An e-mail matching the pattern is never blank, so an invalid-looking blank e-mail reports "enter your email". */
  lemma EmailPatternNotBlank(s: string)
    requires EmailPattern(s)
    ensures Trim(s) != ""
  {
    var a, d :| 0 <= a < d < |s| && EmailMatchAt(s, a, d);
    TrimEmptyIffAllSpace(s);
    assert !IsSpace(s[a]);
  }

  /** The pattern is unanchored: surrounding text never spoils a match. */
  lemma EmailPatternUnanchored(pre: string, s: string, post: string)
    requires EmailPattern(s)
    ensures EmailPattern(pre + s + post)
  {
    var a, d :| 0 <= a < d < |s| && EmailMatchAt(s, a, d);
    var t := pre + s + post;
    forall k | 0 <= k < |s| ensures t[|pre| + k] == s[k] { }
    assert EmailMatchAt(t, |pre| + a, |pre| + d);
  }

  /** Two samples: a plain address matches, and an address after a space still matches. */
  lemma EmailPatternSamples()
    ensures EmailPattern("a@b.c")
    ensures EmailPattern("my name x@y.io")
    ensures !EmailPattern("a@b")
    ensures !EmailPattern("a@.c")
  {
    assert EmailMatchAt("a@b.c", 1, 3);
    assert EmailMatchAt("my name x@y.io", 9, 11);
    var s := "a@.c";
    forall a, d | 0 <= a < d < |s| ensures !EmailMatchAt(s, a, d) {
      assert s[a] == '@' ==> a == 1;
    }
  }

  /** Step two passes exactly when the password has six characters and is repeated; length is reported first. */
  lemma Step2Valid(f: Form)
    ensures ValidateStep2(f) == None <==> |f.password| >= 6 && f.password == f.confirmPassword
    ensures |f.password| < 6 ==> ValidateStep2(f) == Some(PasswordShort)
  {
  }

  /** Appending characters never lowers the strength: each criterion, once met, stays met. */
  lemma StrengthMonotone(p: string, q: string)
    ensures Strength(p) <= Strength(p + q)
  {
    var pq := p + q;
    if HasUpper(p) {
      var k :| 0 <= k < |p| && IsUpper(p[k]);
      assert pq[k] == p[k];
    }
    if HasDigit(p) {
      var k :| 0 <= k < |p| && IsDigit(p[k]);
      assert pq[k] == p[k];
    }
    if HasSymbol(p) {
      var k :| 0 <= k < |p| && !IsAlnum(p[k]);
      assert pq[k] == p[k];
    }
  }

  /** Sample scores: the empty password is 0, a six-letter lower-case word 1, and "Abc12!" meets all four. */
  lemma StrengthSamples()
    ensures Strength("") == 0
    ensures Strength("abcdef") == 1
    ensures Strength("Abc12!") == 4
  {
    var w := "abcdef";
    assert forall k :: 0 <= k < |w| ==> IsAlnum(w[k]) && !IsUpper(w[k]) && !IsDigit(w[k]);
    assert IsUpper("Abc12!"[0]) && IsDigit("Abc12!"[3]) && !IsAlnum("Abc12!"[5]);
  }

  /** Every score gets a label and a colour of the same level; only out-of-range numbers get the fallbacks. */
  lemma LabelsMatchColours(strength: int)
    ensures ((StrengthText(strength) == "Weak") <==> (0 <= strength <= 1)) && ((StrengthColor(strength) == "bg-red-400") <==> (0 <= strength <= 1))
    ensures ((StrengthText(strength) == "Fair") <==> strength == 2) && ((StrengthColor(strength) == "bg-yellow-400") <==> strength == 2)
    ensures ((StrengthText(strength) == "Good") <==> strength == 3) && ((StrengthColor(strength) == "bg-blue-400") <==> strength == 3)
    ensures ((StrengthText(strength) == "Strong") <==> strength == 4) && ((StrengthColor(strength) == "bg-green-400") <==> strength == 4)
    ensures ((StrengthText(strength) == "") <==> (strength < 0 || strength > 4)) && ((StrengthColor(strength) == "bg-gray-300") <==> (strength < 0 || strength > 4))
  {
  }

  /** A password's score never falls to the fallback label. */
  lemma PasswordAlwaysLabelled(p: string)
    ensures StrengthText(Strength(p)) in ["Weak", "Fair", "Good", "Strong"]
  {
  }

  /** The form state: the field values, the error message shown and the current step. */
  class SignupForm {
    var form: Form
    var error: string
    var step: int

    constructor ()
      ensures form == EmptyForm && error == "" && step == 1
    {
      form := EmptyForm;
      error := "";
      step := 1;
    }

    method HandleInputChange(field: Field, value: string)
      modifies this
      ensures form == WithField(old(form), field, value)
      ensures error == old(error) && step == old(step)
    {
      form := WithField(form, field, value);
    }

    /** `handleNext`: the error is cleared, then step one's checks decide between step two and a message. */
    method HandleNext()
      modifies this
      ensures form == old(form)
      ensures ValidateStep1(form) == None ==> step == 2 && error == ""
      ensures ValidateStep1(form).Some? ==> step == old(step) && error == ValidateStep1(form).value
    {
      error := "";
      var v := ValidateStep1(form);
      if v.Some? {
        error := v.value;
        return;
      }
      step := 2;
    }

    /**
     * `handleSubmit`: a failing step two stops before the store is touched;
     * otherwise the store's answer is either the new user or the message shown.
     */
    method HandleSubmit(store: UserStore, id: string, joinDate: string) returns (signedUp: Option<User>)
      modifies this, store
      ensures form == old(form) && step == old(step)
      ensures ValidateStep2(form).Some? ==>
        && signedUp == None && error == ValidateStep2(form).value
        && store.Snapshot() == old(store.Snapshot())
      ensures ValidateStep2(form) == None ==>
        var (after, r) := SignUpStep(old(store.Snapshot()), form.email, form.password, form.name, id, joinDate);
        && store.Snapshot() == after
        && (r.Ok? ==> signedUp == Some(r.value) && error == "")
        && (r.Err? ==> signedUp == None && error == r.message)
    {
      error := "";
      var v := ValidateStep2(form);
      if v.Some? {
        error := v.value;
        return None;
      }
      var r := store.SignUp(form.email, form.password, form.name, id, joinDate);
      if r.Ok? {
        signedUp := Some(r.value);
      } else {
        signedUp := None;
        error := r.message;
      }
    }
  }
}
