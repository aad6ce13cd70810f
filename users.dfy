/** The account routes (routes/users.py) over the `users` collection.
    Lookups are functions of the map; signup, send-otp and reset-password
    update the store in place. Token creation, hashing salts, the OTP draws
    and the e-mail outcome are inputs. */
module Users {
  import opened Common
  import opened Store
  import Validators
  import Otp

  /** AuthResponseModel: status, message and an optional access token. */
  datatype AuthReply = AuthReply(success: bool, message: string, accessToken: Option<string>)

  /** The validate-token reply, and whether the response deletes the cookie. */
  datatype TokenReply = TokenReply(success: bool, message: string, email: Option<string>, clearsCookie: bool)

  /** The sign-up body as `User(**data)` parses it; a client may send the
      three flags, which otherwise default to False. */
  datatype SignupRequest = SignupRequest(
    email: string,
    password: string,
    age: int,
    gender: string,
    relaxedDataCollected: bool,
    focusedDataCollected: bool,
    modelTrained: bool)

  const USER_EXISTS: string := "User already exists"
  const USER_CREATED: string := "User created successfully"
  const INVALID_CREDENTIALS: string := "Invalid credentials"
  const LOGGED_IN: string := "User logged in successfully"
  const TOKEN_NOT_FOUND: string := "Token not found"
  const TOKEN_VALID: string := "Token is valid"
  const OTP_SENT: string := "OTP sent successfully"
  const OTP_SEND_FAILED: string := "Error sending OTP! Please try again later."
  const OTP_NOT_FOUND: string := "OTP not found"
  const INVALID_OTP: string := "Invalid OTP"
  const OTP_VALID: string := "OTP is valid"
  const PASSWORD_RESET: string := "Password reset successfully"

  function FormOf(r: SignupRequest): Validators.SignupForm {
    Validators.SignupForm(r.email, r.password, r.age, r.gender)
  }

  /** The document signup inserts: the request with its password hashed. */
  function NewUser(r: SignupRequest, salt: nat): (u: UserRecord)
    ensures u.email == r.email && VerifyPassword(r.password, u.password) && u.otp == None
  {
    UserRecord(r.email, HashPassword(r.password, salt), r.age, r.gender,
      r.relaxedDataCollected, r.focusedDataCollected, r.modelTrained, None)
  }

  /** signup: validation first, then the existence check, then the insert;
      `token` is what create_access_token returns. */
  method Signup(db: Database, r: SignupRequest, salt: nat, token: string) returns (reply: AuthReply)
    modifies db
    ensures Validators.ValidateSignupForm(FormOf(r)).Some? ==>
      reply == AuthReply(false, Validators.ValidateSignupForm(FormOf(r)).value, None) && db.users == old(db.users)
    ensures Validators.ValidateSignupForm(FormOf(r)).None? && r.email in old(db.users) ==>
      reply == AuthReply(false, USER_EXISTS, None) && db.users == old(db.users)
    ensures Validators.ValidateSignupForm(FormOf(r)).None? && r.email !in old(db.users) ==>
      reply == AuthReply(true, USER_CREATED, Some(token)) && db.users == old(db.users)[r.email := NewUser(r, salt)]
    ensures db.eegData == old(db.eegData) && db.savedModels == old(db.savedModels)
  {
    var validationError := Validators.ValidateSignupForm(FormOf(r));
    if validationError.Some? {
      return AuthReply(false, validationError.value, None);
    }
    if r.email in db.users {
      return AuthReply(false, USER_EXISTS, None);
    }
    db.users := db.users[r.email := NewUser(r, salt)];
    reply := AuthReply(true, USER_CREATED, Some(token));
  }

  /** login: unknown user, then wrong password, each with an empty token. */
  function Login(users: map<string, UserRecord>, email: string, password: string, token: string): AuthReply {
    if email !in users then AuthReply(false, USER_NOT_FOUND, Some(""))
    else if !VerifyPassword(password, users[email].password) then AuthReply(false, INVALID_CREDENTIALS, Some(""))
    else AuthReply(true, LOGGED_IN, Some(token))
  }

  /** validate_token: a missing or empty cookie is reported before decoding;
      a rejected token also deletes the cookie. */
  function ValidateToken(cookie: Option<string>, decoded: TokenStatus): TokenReply {
    if cookie.None? || cookie.value == "" then TokenReply(false, TOKEN_NOT_FOUND, None, false)
    else if !decoded.Valid? then TokenReply(false, TokenError(decoded), None, true)
    else TokenReply(true, TOKEN_VALID, Some(decoded.email), false)
  }

  /** send_otp: the code is stored on the user before delivery is attempted,
      so it stays stored even when delivery raises. `code` is the stored
      code. */
  method SendOtp(db: Database, email: string, draws: seq<real>, deliveryRaises: bool)
      returns (reply: Reply, ghost code: Option<string>)
    requires forall i :: 0 <= i < |draws| ==> 0.0 <= draws[i] < 1.0
    requires Otp.DEFAULT_OTP_LENGTH <= |draws|
    modifies db
    ensures email !in old(db.users) ==> reply == Error(USER_NOT_FOUND) && code == None && db.users == old(db.users)
    ensures email in old(db.users) ==>
      code.Some? && db.users == old(db.users)[email := old(db.users)[email].(otp := code)]
      && reply == (if deliveryRaises then Error(OTP_SEND_FAILED) else Success(OTP_SENT))
    ensures code.Some? ==> (|code.value| == Otp.DEFAULT_OTP_LENGTH
      && forall i :: 0 <= i < |code.value| ==> code.value[i] == Otp.DIGITS[Otp.DigitIndex(draws[i])])
    ensures db.eegData == old(db.eegData) && db.savedModels == old(db.savedModels)
  {
    if email !in db.users {
      return Error(USER_NOT_FOUND), None;
    }
    var otp := Otp.GenerateOtp(Otp.DEFAULT_OTP_LENGTH, draws);
    code := Some(otp);
    db.users := db.users[email := db.users[email].(otp := Some(otp))];
    if deliveryRaises {
      reply := Error(OTP_SEND_FAILED);
    } else {
      reply := Success(OTP_SENT);
    }
  }

  /** validate_otp: unknown user, then no (or an empty) stored code, then a
      mismatch. */
  function ValidateOtp(users: map<string, UserRecord>, email: string, otp: string): Reply {
    if email !in users then Error(USER_NOT_FOUND)
    else if users[email].otp.None? || users[email].otp.value == "" then Error(OTP_NOT_FOUND)
    else if users[email].otp.value != otp then Error(INVALID_OTP)
    else Success(OTP_VALID)
  }

  /** reset_password: a new hash replaces the old one and the stored code is
      removed. */
  method ResetPassword(db: Database, email: string, password: string, salt: nat) returns (reply: Reply)
    modifies db
    ensures email !in old(db.users) ==> reply == Error(USER_NOT_FOUND) && db.users == old(db.users)
    ensures email in old(db.users) ==> (reply == Success(PASSWORD_RESET)
      && db.users == old(db.users)[email := old(db.users)[email].(password := HashPassword(password, salt), otp := None)])
    ensures db.eegData == old(db.eegData) && db.savedModels == old(db.savedModels)
  {
    if email !in db.users {
      return Error(USER_NOT_FOUND);
    }
    db.users := db.users[email := db.users[email].(password := HashPassword(password, salt), otp := None)];
    reply := Success(PASSWORD_RESET);
  }

  // ---------------------------------------------------------------------
  // Round trips

  /** After a successful signup the same credentials log in and get the
      token; any other password is refused with an empty token. */
  lemma SignupThenLogin(users: map<string, UserRecord>, r: SignupRequest, salt: nat, other: string, token: string)
    requires r.email !in users && other != r.password
    ensures Login(users[r.email := NewUser(r, salt)], r.email, r.password, token) == AuthReply(true, LOGGED_IN, Some(token))
    ensures Login(users[r.email := NewUser(r, salt)], r.email, other, token) == AuthReply(false, INVALID_CREDENTIALS, Some(""))
  {
  }

  /** A token is issued only when the user exists and the password verifies. */
  lemma LoginIssuesTokenOnlyOnSuccess(users: map<string, UserRecord>, email: string, password: string, token: string)
    ensures Login(users, email, password, token).success
      <==> email in users && VerifyPassword(password, users[email].password)
    ensures !Login(users, email, password, token).success ==> Login(users, email, password, token).accessToken == Some("")
  {
  }

  /** A stored code validates; any other code is refused. */
  lemma StoredOtpValidates(users: map<string, UserRecord>, email: string, code: string, other: string)
    requires email in users && code != "" && other != code
    ensures ValidateOtp(users[email := users[email].(otp := Some(code))], email, code) == Success(OTP_VALID)
    ensures ValidateOtp(users[email := users[email].(otp := Some(code))], email, other) == Error(INVALID_OTP)
  {
  }

  /** validate_otp's checks run in order: each reply comes back exactly in
      its case. */
  lemma ValidateOtpOrder(users: map<string, UserRecord>, email: string, otp: string)
    ensures ValidateOtp(users, email, otp) == Error(USER_NOT_FOUND) <==> email !in users
    ensures ValidateOtp(users, email, otp) == Error(OTP_NOT_FOUND)
      <==> email in users && (users[email].otp.None? || users[email].otp.value == "")
    ensures ValidateOtp(users, email, otp) == Error(INVALID_OTP)
      <==> email in users && users[email].otp.Some? && users[email].otp.value != "" && users[email].otp.value != otp
    ensures ValidateOtp(users, email, otp) == Success(OTP_VALID)
      <==> email in users && users[email].otp == Some(otp) && otp != ""
  {
    assert |USER_NOT_FOUND| == 14 && |OTP_NOT_FOUND| == 13 && |INVALID_OTP| == 11;
  }

  /** After a reset the code is gone and only the new password logs in. */
  lemma ResetThenValidateAndLogin(users: map<string, UserRecord>, email: string, password: string, salt: nat,
      otp: string, old_password: string, token: string)
    requires email in users && old_password != password
    ensures var after := users[email := users[email].(password := HashPassword(password, salt), otp := None)];
      && ValidateOtp(after, email, otp) == Error(OTP_NOT_FOUND)
      && Login(after, email, password, token).success
      && !Login(after, email, old_password, token).success
  {
  }

  /** The validate-token replies, case by case. */
  lemma ValidateTokenCases(cookie: Option<string>, decoded: TokenStatus)
    ensures cookie.None? ==> ValidateToken(cookie, decoded) == TokenReply(false, TOKEN_NOT_FOUND, None, false)
    ensures cookie.Some? && cookie.value != "" && decoded == Expired ==>
      ValidateToken(cookie, decoded) == TokenReply(false, "Token has expired", None, true)
    ensures ValidateToken(cookie, decoded).success <==> cookie.Some? && cookie.value != "" && decoded.Valid?
    ensures ValidateToken(cookie, decoded).success ==> ValidateToken(cookie, decoded).email == Some(decoded.email)
  {
  }
}
