/** Form validation (utils/validators.py; signup.py holds an identical
    validateSignupForm). Each validator runs its checks in a fixed order and
    returns the message of the first one that fails, or None. */
module Validators {
  import opened Common

  /** The fields of a sign-up request that are strings or numbers. The three
      progress flags are booleans and never equal "", so they play no part. */
  datatype SignupForm = SignupForm(email: string, password: string, age: int, gender: string)

  datatype LoginForm = LoginForm(email: string, password: string)

  const EMPTY_FIELD: string := "All fields must be filled out."
  const UNDERAGE: string := "User must be 18 years or older."
  const BAD_EMAIL: string := "Invalid email format."
  const SHORT_PASSWORD: string := "Password must be at least 8 characters long."
  const NO_DIGIT: string := "Password must contain at least one number."
  const NO_UPPERCASE: string := "Password must contain at least one uppercase letter."

  const MIN_AGE: int := 18
  const MIN_PASSWORD_LENGTH: int := 8

  // ---------------------------------------------------------------------
  // The e-mail pattern `[^@]+@[^@]+\.[^@]+`, matched at the start only

  /** No '@' in e[lo..hi]. */
  predicate NoAtIn(e: string, lo: int, hi: int)
    requires 0 <= lo <= hi <= |e|
  {
    forall t :: lo <= t < hi ==> e[t] != '@'
  }

  /** The pattern read as a regular expression: some prefix of `e` splits
      into a non-empty '@'-free part, '@', a non-empty '@'-free part, '.',
      and a non-empty '@'-free part. */
  ghost predicate PatternMatchesPrefix(e: string) {
    exists i, j, k :: PatternSplit(e, i, j, k)
  }

  /** e[..k] is the match, with its '@' at i and its '.' at j. */
  ghost predicate PatternSplit(e: string, i: int, j: int, k: int) {
    1 <= i && i + 1 < j && j + 1 < k <= |e|
      && e[i] == '@' && e[j] == '.'
      && NoAtIn(e, 0, i) && NoAtIn(e, i + 1, j) && NoAtIn(e, j + 1, k)
  }

  /** The index of the first '@' at or after `from`, or |e| if there is none. */
  function NextAt(e: string, from: int): (r: int)
    requires 0 <= from <= |e|
    ensures from <= r <= |e| && NoAtIn(e, from, r)
    ensures r < |e| ==> e[r] == '@'
    decreases |e| - from
  {
    if from == |e| || e[from] == '@' then from else NextAt(e, from + 1)
  }

  /** The check as it can be computed: the first '@' is not at the start,
      and the '@'-free run after it holds a '.' that is neither its first
      nor its last character. */
  predicate EmailMatches(e: string) {
    var a := NextAt(e, 0);
    1 <= a < |e| &&
      var b := NextAt(e, a + 1);
      exists d :: a + 2 <= d < b - 1 && e[d] == '.'
  }

  lemma {:induction false} NextAtIs(e: string, from: int, i: int)
    requires 0 <= from <= i < |e| && NoAtIn(e, from, i) && e[i] == '@'
    ensures NextAt(e, from) == i
    decreases i - from
  {
    if from < i {
      NextAtIs(e, from + 1, i);
    }
  }

  lemma {:induction false} NextAtPast(e: string, from: int, k: int)
    requires 0 <= from <= k <= |e| && NoAtIn(e, from, k)
    ensures NextAt(e, from) >= k
    decreases k - from
  {
    if from < k {
      NextAtPast(e, from + 1, k);
    }
  }

  /** The computed check agrees with the regular expression, both ways. */
  lemma EmailMatchesIffPattern(e: string)
    ensures EmailMatches(e) <==> PatternMatchesPrefix(e)
  {
    if PatternMatchesPrefix(e) {
      var i, j, k :| PatternSplit(e, i, j, k);
      NextAtIs(e, 0, i);
      assert NoAtIn(e, i + 1, k);
      NextAtPast(e, i + 1, k);
      assert i + 2 <= j < NextAt(e, i + 1) - 1 && e[j] == '.';
    }
    if EmailMatches(e) {
      var a := NextAt(e, 0);
      var b := NextAt(e, a + 1);
      var d :| a + 2 <= d < b - 1 && e[d] == '.';
      assert NoAtIn(e, a + 1, d) && NoAtIn(e, d + 1, d + 2);
      assert PatternSplit(e, a, d, d + 2);
    }
  }

  /** Concrete cases: a plain address matches; so does one with text after
      the matched prefix, since only the start is anchored; a missing local
      part, a missing dot or an empty part before the dot does not. */
  lemma EmailExamples()
    ensures EmailMatches("a@b.c")
    ensures EmailMatches("a@b.c@d")
    ensures !EmailMatches("@b.c")
    ensures !EmailMatches("a@b")
    ensures !EmailMatches("a@.c")
  {
    var e := "a@b.c";
    NextAtIs(e, 0, 1);
    NextAtPast(e, 2, 5);
    assert e[3] == '.';
    var f := "a@b.c@d";
    NextAtIs(f, 0, 1);
    NextAtIs(f, 2, 5);
    assert f[3] == '.';
    var h := "a@.c";
    NextAtIs(h, 0, 1);
    NextAtPast(h, 2, 4);
  }

  // ---------------------------------------------------------------------
  // Password character classes (ASCII)

  predicate IsAsciiUpper(c: char) {
    'A' <= c <= 'Z'
  }

  predicate HasDigit(s: string) {
    exists i :: 0 <= i < |s| && IsAsciiDigit(s[i])
  }

  predicate HasUpper(s: string) {
    exists i :: 0 <= i < |s| && IsAsciiUpper(s[i])
  }

  // ---------------------------------------------------------------------
  // The validators

  /** `any(user[key] == "" for key in user)`. */
  predicate HasEmptyField(f: SignupForm) {
    f.email == "" || f.password == "" || f.gender == ""
  }

  /** validateSignupForm. */
  function ValidateSignupForm(f: SignupForm): Option<string> {
    if HasEmptyField(f) then Some(EMPTY_FIELD)
    else if f.age < MIN_AGE then Some(UNDERAGE)
    else if !EmailMatches(f.email) then Some(BAD_EMAIL)
    else if |f.password| < MIN_PASSWORD_LENGTH then Some(SHORT_PASSWORD)
    else if !HasDigit(f.password) then Some(NO_DIGIT)
    else if !HasUpper(f.password) then Some(NO_UPPERCASE)
    else None
  }

  /** validateLoginForm. */
  function ValidateLoginForm(f: LoginForm): Option<string> {
    if f.email == "" || f.password == "" then Some(EMPTY_FIELD)
    else if !EmailMatches(f.email) then Some(BAD_EMAIL)
    else if |f.password| < MIN_PASSWORD_LENGTH then Some(SHORT_PASSWORD)
    else None
  }

  /** The six messages differ from one another. */
  lemma MessagesDistinct()
    ensures EMPTY_FIELD != UNDERAGE && EMPTY_FIELD != BAD_EMAIL && EMPTY_FIELD != SHORT_PASSWORD
    ensures EMPTY_FIELD != NO_DIGIT && EMPTY_FIELD != NO_UPPERCASE
    ensures UNDERAGE != BAD_EMAIL && UNDERAGE != SHORT_PASSWORD && UNDERAGE != NO_DIGIT && UNDERAGE != NO_UPPERCASE
    ensures BAD_EMAIL != SHORT_PASSWORD && BAD_EMAIL != NO_DIGIT && BAD_EMAIL != NO_UPPERCASE
    ensures SHORT_PASSWORD != NO_DIGIT && SHORT_PASSWORD != NO_UPPERCASE
    ensures NO_DIGIT != NO_UPPERCASE
  {
    assert |EMPTY_FIELD| == 30 && |UNDERAGE| == 31 && |BAD_EMAIL| == 21;
    assert |SHORT_PASSWORD| == 44 && |NO_DIGIT| == 42 && |NO_UPPERCASE| == 52;
  }

  /** The signup checks run in order and the first failure wins: each
      message comes back exactly when every earlier check passes and its
      own check fails; None comes back exactly when all pass. */
  lemma SignupFirstFailureWins(f: SignupForm)
    ensures ValidateSignupForm(f) == Some(EMPTY_FIELD) <==> HasEmptyField(f)
    ensures ValidateSignupForm(f) == Some(UNDERAGE) <==> !HasEmptyField(f) && f.age < MIN_AGE
    ensures ValidateSignupForm(f) == Some(BAD_EMAIL)
      <==> !HasEmptyField(f) && f.age >= MIN_AGE && !EmailMatches(f.email)
    ensures ValidateSignupForm(f) == Some(SHORT_PASSWORD)
      <==> !HasEmptyField(f) && f.age >= MIN_AGE && EmailMatches(f.email) && |f.password| < MIN_PASSWORD_LENGTH
    ensures ValidateSignupForm(f) == Some(NO_DIGIT)
      <==> (!HasEmptyField(f) && f.age >= MIN_AGE && EmailMatches(f.email) && |f.password| >= MIN_PASSWORD_LENGTH
        && !HasDigit(f.password))
    ensures ValidateSignupForm(f) == Some(NO_UPPERCASE)
      <==> (!HasEmptyField(f) && f.age >= MIN_AGE && EmailMatches(f.email) && |f.password| >= MIN_PASSWORD_LENGTH
        && HasDigit(f.password) && !HasUpper(f.password))
    ensures ValidateSignupForm(f) == None
      <==> (!HasEmptyField(f) && f.age >= MIN_AGE && EmailMatches(f.email) && |f.password| >= MIN_PASSWORD_LENGTH
        && HasDigit(f.password) && HasUpper(f.password))
  {
    MessagesDistinct();
  }

  /** The login checks in order; None exactly when all pass. */
  lemma LoginFirstFailureWins(f: LoginForm)
    ensures ValidateLoginForm(f) == Some(EMPTY_FIELD) <==> f.email == "" || f.password == ""
    ensures ValidateLoginForm(f) == Some(BAD_EMAIL)
      <==> f.email != "" && f.password != "" && !EmailMatches(f.email)
    ensures ValidateLoginForm(f) == Some(SHORT_PASSWORD)
      <==> f.email != "" && f.password != "" && EmailMatches(f.email) && |f.password| < MIN_PASSWORD_LENGTH
    ensures ValidateLoginForm(f) == None
      <==> f.email != "" && f.password != "" && EmailMatches(f.email) && |f.password| >= MIN_PASSWORD_LENGTH
  {
    MessagesDistinct();
  }

  /** Age limit: 18 passes the age check, 17 fails it. */
  lemma AgeBoundary(email: string, password: string, gender: string)
    requires email != "" && password != "" && gender != ""
    ensures ValidateSignupForm(SignupForm(email, password, 17, gender)) == Some(UNDERAGE)
    ensures ValidateSignupForm(SignupForm(email, password, 18, gender)) != Some(UNDERAGE)
  {
    MessagesDistinct();
  }

  /** A password shorter than 8 characters gets the length message whatever
      its digits and capitals, once the earlier checks pass. */
  lemma ShortPasswordBeforeCharacterChecks(f: SignupForm)
    requires !HasEmptyField(f) && f.age >= MIN_AGE && EmailMatches(f.email)
    requires |f.password| < MIN_PASSWORD_LENGTH
    ensures ValidateSignupForm(f) == Some(SHORT_PASSWORD)
    ensures ValidateSignupForm(f) != Some(NO_DIGIT) && ValidateSignupForm(f) != Some(NO_UPPERCASE)
  {
    MessagesDistinct();
  }

  /** A form the signup validator accepts is accepted at login too; the
      converse fails, because login has no digit or uppercase check. */
  lemma SignupStricterThanLogin(f: SignupForm)
    requires ValidateSignupForm(f) == None
    ensures ValidateLoginForm(LoginForm(f.email, f.password)) == None
  {
    SignupFirstFailureWins(f);
  }

  /** Concrete cases: an 8-character lowercase password is a valid login
      but a failed signup. */
  lemma ValidatorExamples()
    ensures ValidateLoginForm(LoginForm("a@b.c", "password")) == None
    ensures ValidateSignupForm(SignupForm("a@b.c", "password", 18, "m")) == Some(NO_DIGIT)
    ensures ValidateSignupForm(SignupForm("a@b.c", "Passw0rd", 18, "m")) == None
    ensures ValidateSignupForm(SignupForm("", "Passw0rd", 10, "m")) == Some(EMPTY_FIELD)
  {
    EmailExamples();
    var p := "password";
    assert !HasDigit(p) by {
      forall i | 0 <= i < |p|
        ensures !IsAsciiDigit(p[i])
      {
        assert p[i] in "password";
      }
    }
    var q := "Passw0rd";
    assert IsAsciiDigit(q[5]) && IsAsciiUpper(q[0]);
  }
}
