/**
 * The sign-up page (app/signup/page.tsx): the password strength meter, the
 * passwords-match test and the two-step submit handler.
 */
module Signup {
  import opened Common
  import opened Auth

  /** The five criteria `getPasswordStrength` counts. */
  predicate LongEnough(pw: string) { |pw| >= 8 }

  predicate IsUpper(c: char) { 'A' <= c <= 'Z' }
  predicate IsLowerCase(c: char) { 'a' <= c <= 'z' }
  predicate IsDigit(c: char) { '0' <= c <= '9' }
  predicate IsOther(c: char) { !IsUpper(c) && !IsLowerCase(c) && !IsDigit(c) }

  predicate HasUpper(pw: string) { exists i | 0 <= i < |pw| :: IsUpper(pw[i]) }
  predicate HasLower(pw: string) { exists i | 0 <= i < |pw| :: IsLowerCase(pw[i]) }
  predicate HasDigit(pw: string) { exists i | 0 <= i < |pw| :: IsDigit(pw[i]) }
  predicate HasOther(pw: string) { exists i | 0 <= i < |pw| :: IsOther(pw[i]) }

  function Count(b: bool): nat { if b then 1 else 0 }

  /** How many of the five criteria the password meets. */
  function CriteriaMet(pw: string): nat
  {
    Count(LongEnough(pw)) + Count(HasUpper(pw)) + Count(HasLower(pw)) + Count(HasDigit(pw)) + Count(HasOther(pw))
  }

  /** The meter's reading; `color` is absent for the empty password, as in the source. */
  datatype PasswordStrength = PasswordStrength(strength: nat, text: string, color: Option<string>)

  /** `getPasswordStrength` */
  method GetPasswordStrength(password: string) returns (r: PasswordStrength)
    ensures password == "" ==> r == PasswordStrength(0, "", None)
    ensures password != "" ==> r.strength == CriteriaMet(password) && 1 <= r.strength <= 5
    ensures r.strength == 0 ==> r.text == ""
    ensures 1 <= r.strength <= 2 ==> r.text == "Weak" && r.color == Some("bg-red-500")
    ensures 3 <= r.strength <= 4 ==> r.text == "Medium" && r.color == Some("bg-yellow-500")
    ensures r.strength == 5 ==> r.text == "Strong" && r.color == Some("bg-green-500")
  {
    if password == "" {
      return PasswordStrength(0, "", None);
    }
    var strength: nat := 0;
    if |password| >= 8 { strength := strength + 1; }
    if HasUpper(password) { strength := strength + 1; }
    if HasLower(password) { strength := strength + 1; }
    if HasDigit(password) { strength := strength + 1; }
    if HasOther(password) { strength := strength + 1; }
    assert strength == CriteriaMet(password);
    NonEmptyMeetsOne(password);
    var text := "";
    var color := "";
    if strength == 0 {
      text := "";
      color := "";
    } else if strength <= 2 {
      text := "Weak";
      color := "bg-red-500";
    } else if strength <= 4 {
      text := "Medium";
      color := "bg-yellow-500";
    } else {
      text := "Strong";
      color := "bg-green-500";
    }
    r := PasswordStrength(strength, text, Some(color));
  }

  /** Every character is upper case, lower case, a digit or something else. */
  lemma NonEmptyMeetsOne(pw: string)
    requires pw != ""
    ensures 1 <= CriteriaMet(pw) <= 5
  {
    var c := pw[0];
    if IsUpper(c) {
      assert HasUpper(pw);
    } else if IsLowerCase(c) {
      assert HasLower(pw);
    } else if IsDigit(c) {
      assert HasDigit(pw);
    } else {
      assert HasOther(pw);
    }
  }

  /** The empty password meets no criterion. */
  lemma EmptyMeetsNone()
    ensures CriteriaMet("") == 0
  {
  }

  /** Appending characters never lowers the strength. */
  lemma AppendNeverWeakens(pw: string, more: string)
    ensures CriteriaMet(pw) <= CriteriaMet(pw + more)
  {
    var s := pw + more;
    if HasUpper(pw) {
      var i :| 0 <= i < |pw| && IsUpper(pw[i]);
      assert s[i] == pw[i];
    }
    if HasLower(pw) {
      var i :| 0 <= i < |pw| && IsLowerCase(pw[i]);
      assert s[i] == pw[i];
    }
    if HasDigit(pw) {
      var i :| 0 <= i < |pw| && IsDigit(pw[i]);
      assert s[i] == pw[i];
    }
    if HasOther(pw) {
      var i :| 0 <= i < |pw| && IsOther(pw[i]);
      assert s[i] == pw[i];
    }
  }

  /** `passwordsMatch` */
  function PasswordsMatch(password: string, confirmPassword: string): (m: bool)
    ensures m ==> password == confirmPassword && |password| > 0
    ensures password == confirmPassword && password != [] ==> m
  {
    password == confirmPassword && password != ""
  }

  const MismatchError: string := "Passwords do not match"
  const DashboardRoute: string := "/dashboard"

  class SignupPage {
    const auth: AuthProvider
    var formData: SignupData
    var isLoading: bool
    var step: int
    var error: string
    /** Where `router.push` last sent the browser, if anywhere. */
    var route: Option<string>

    constructor (auth: AuthProvider)
      ensures this.auth == auth
      ensures formData == SignupData("", "", "", "", "") && !isLoading && step == 1 && error == "" && route == None
    {
      this.auth := auth;
      formData := SignupData("", "", "", "", "");
      isLoading := false;
      step := 1;
      error := "";
      route := None;
    }

    /** `handleSubmit` */
    method HandleSubmit()
      modifies this, auth, auth.store
      ensures formData == old(formData)
      ensures old(step) == 1 ==>
                step == 2 && error == "" && isLoading == old(isLoading) && route == old(route)
                && auth.user == old(auth.user) && auth.isLoading == old(auth.isLoading)
                && auth.store.entries == old(auth.store.entries)
      ensures old(step) != 1 && formData.password != formData.confirmPassword ==>
                step == old(step) && error == MismatchError && isLoading == old(isLoading) && route == old(route)
                && auth.user == old(auth.user) && auth.isLoading == old(auth.isLoading)
                && auth.store.entries == old(auth.store.entries)
      ensures old(step) != 1 && formData.password == formData.confirmPassword ==>
                step == old(step) && error == "" && !isLoading && route == Some(DashboardRoute)
                && auth.user == Some(SignupUser(formData)) && !auth.isLoading
                && auth.store.entries == old(auth.store.entries)[UserKey := Storage.PersonRecord(SignupUser(formData))]
    {
      error := "";
      if step == 1 {
        step := 2;
        return;
      }
      if formData.password != formData.confirmPassword {
        error := MismatchError;
        return;
      }
      isLoading := true;
      auth.Signup(formData);
      route := Some(DashboardRoute);
      isLoading := false;
    }
  }
}
