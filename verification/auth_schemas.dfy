/**
 The validation schemas of the sign-up and sign-in forms, as predicates over
 string records. Lengths are JavaScript lengths (UTF-16 code units). The
 e-mail check belongs to the validation library and is a parameter here:
 `isEmail` stands for whatever that check accepts.

 Every field check runs, and the password-confirmation refinement runs on
 top of them, so a record yields the list of all its issues, in field order,
 each attached to the field it concerns. A record is valid when the list is
 empty.
 */
module AuthSchemas {
  import JsString

  datatype Field = FullName | Email | Password | ConfirmPassword

  /** A validation message attached to one form field. */
  datatype Issue = Issue(path: Field, message: string)

  datatype SignUpValues = SignUpValues(fullName: string, email: string, password: string, confirmPassword: string)

  datatype SignInValues = SignInValues(email: string, password: string)

  const FullNameMin: nat := 3
  const SignUpPasswordMin: nat := 8
  const SignInPasswordMin: nat := 1

  /** `z.string().min(n)`. */
  predicate MinLength(s: string, n: nat) {
    JsString.Utf16Length(s) >= n
  }

  /** The issue for `field` when `ok` fails, none otherwise. */
  function Check(ok: bool, field: Field, message: string): seq<Issue> {
    if ok then [] else [Issue(field, message)]
  }

  /** The fields that carry at least one issue. */
  function Paths(issues: seq<Issue>): set<Field> {
    set i | 0 <= i < |issues| :: issues[i].path
  }

  /** The fields with issues in a concatenation are those of either part. */
  lemma PathsAppend(a: seq<Issue>, b: seq<Issue>)
    ensures Paths(a + b) == Paths(a) + Paths(b)
  {
    forall f | f in Paths(a) + Paths(b) ensures f in Paths(a + b) {
      if f in Paths(a) {
        var i :| 0 <= i < |a| && a[i].path == f;
        assert (a + b)[i].path == f;
      } else {
        var i :| 0 <= i < |b| && b[i].path == f;
        assert (a + b)[|a| + i].path == f;
      }
    }
  }

  /** A check contributes its own field exactly when it fails. */
  lemma PathsOfCheck(ok: bool, field: Field, message: string)
    ensures Paths(Check(ok, field, message)) == if ok then {} else {field}
  {
    if !ok {
      assert Check(ok, field, message)[0].path == field;
    }
  }

  // ---------------------------------------------------------------------
  // Sign-up

  /** All issues the sign-up schema reports for `v`. */
  function SignUpIssues(v: SignUpValues, isEmail: string -> bool): (issues: seq<Issue>)
    ensures FullName in Paths(issues) <==> JsString.Utf16Length(v.fullName) < 3
    ensures Email in Paths(issues) <==> !isEmail(v.email)
    ensures Password in Paths(issues) <==> JsString.Utf16Length(v.password) < 8
    ensures ConfirmPassword in Paths(issues) <==> v.password != v.confirmPassword
    ensures v.password != v.confirmPassword ==> Issue(ConfirmPassword, "Passwords don't match") in issues
    ensures |issues| <= 4
  {
    var name := Check(MinLength(v.fullName, FullNameMin), FullName, "Full name must be at least 3 characters");
    var email := Check(isEmail(v.email), Email, "Please enter a valid email address");
    var password := Check(MinLength(v.password, SignUpPasswordMin), Password, "Password must be at least 8 characters");
    var confirm := Check(v.password == v.confirmPassword, ConfirmPassword, "Passwords don't match");
    PathsOfCheck(MinLength(v.fullName, FullNameMin), FullName, "Full name must be at least 3 characters");
    PathsOfCheck(isEmail(v.email), Email, "Please enter a valid email address");
    PathsOfCheck(MinLength(v.password, SignUpPasswordMin), Password, "Password must be at least 8 characters");
    PathsOfCheck(v.password == v.confirmPassword, ConfirmPassword, "Passwords don't match");
    PathsAppend(name, email);
    PathsAppend(name + email, password);
    PathsAppend(name + email + password, confirm);
    assert confirm != [] ==> (name + email + password + confirm)[|name + email + password|] == confirm[0];
    name + email + password + confirm
  }

  /** A sign-up record is accepted exactly when all four rules hold. */
  function SignUpValid(v: SignUpValues, isEmail: string -> bool): (ok: bool)
    ensures ok <==>
      && JsString.Utf16Length(v.fullName) >= 3
      && isEmail(v.email)
      && JsString.Utf16Length(v.password) >= 8
      && v.password == v.confirmPassword
  {
    var issues := SignUpIssues(v, isEmail);
    assert issues == [] <==> Paths(issues) == {} by {
      if issues != [] {
        assert issues[0].path in Paths(issues);
      }
    }
    issues == []
  }

  /** The form's initial values. */
  function SignUpDefaults(): (v: SignUpValues)
    ensures forall isEmail :: FullName in Paths(SignUpIssues(v, isEmail))
    ensures forall isEmail :: Password in Paths(SignUpIssues(v, isEmail))
    ensures forall isEmail :: !SignUpValid(v, isEmail)
  {
    SignUpValues("", "", "", "")
  }

  /** For text in the Basic Multilingual Plane the minima count characters;
      beyond it they count code units, so four emoji already make an
      eight-unit password. */
  lemma {:induction false} PasswordMinimumCountsCodeUnits(p: string)
    ensures JsString.InBmp(p) ==> (MinLength(p, SignUpPasswordMin) <==> |p| >= 8)
    ensures MinLength("\U{1F511}\U{1F511}\U{1F511}\U{1F511}", SignUpPasswordMin)
  {
    if JsString.InBmp(p) {
      JsString.Utf16LengthOfBmp(p);
    }
    var key := "\U{1F511}";
    assert JsString.Utf16Length(key) == 2 by {
      assert key[..0] == [];
    }
    JsString.Utf16LengthAppend(key, key);
    JsString.Utf16LengthAppend(key + key, key);
    JsString.Utf16LengthAppend(key + key + key, key);
    assert key + key + key + key == "\U{1F511}\U{1F511}\U{1F511}\U{1F511}";
  }

  // ---------------------------------------------------------------------
  // Sign-in

  /** All issues the sign-in schema reports for `v`. */
  function SignInIssues(v: SignInValues, isEmail: string -> bool): (issues: seq<Issue>)
    ensures Email in Paths(issues) <==> !isEmail(v.email)
    ensures Password in Paths(issues) <==> v.password == ""
    ensures v.password == "" ==> Issue(Password, "Password is required") in issues
    ensures Paths(issues) <= {Email, Password}
  {
    var email := Check(isEmail(v.email), Email, "Please enter a valid email address");
    var password := Check(MinLength(v.password, SignInPasswordMin), Password, "Password is required");
    PathsOfCheck(isEmail(v.email), Email, "Please enter a valid email address");
    PathsOfCheck(MinLength(v.password, SignInPasswordMin), Password, "Password is required");
    PathsAppend(email, password);
    assert password != [] ==> (email + password)[|email|] == password[0];
    email + password
  }

  /** A sign-in record is accepted exactly when the e-mail passes and the
      password is non-empty; no other constraint applies to the password. */
  function SignInValid(v: SignInValues, isEmail: string -> bool): (ok: bool)
    ensures ok <==> isEmail(v.email) && v.password != ""
  {
    var issues := SignInIssues(v, isEmail);
    assert issues == [] <==> Paths(issues) == {} by {
      if issues != [] {
        assert issues[0].path in Paths(issues);
      }
    }
    issues == []
  }

  /** The form's initial values. */
  function SignInDefaults(): (v: SignInValues)
    ensures forall isEmail :: Password in Paths(SignInIssues(v, isEmail))
    ensures forall isEmail :: !SignInValid(v, isEmail)
  {
    SignInValues("", "")
  }
}
