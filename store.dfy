/** The document store the routes share: the `users` collection keyed by
    email, the `eeg_data` collection in insertion order, and the set of
    users whose classifier has been saved. Hashing and token decoding are
    uninterpreted. */
module Store {
  import opened Common

  /** A bcrypt hash of `secret` under a random `salt`. Only verification is
      modelled: a hash verifies exactly the password it was made from. */
  datatype Hash = Hashed(salt: nat, secret: string)

  /** hash_password; the salt is the random draw bcrypt makes. */
  function HashPassword(password: string, salt: nat): (h: Hash)
    ensures VerifyPassword(password, h)
  {
    Hashed(salt, password)
  }

  /** verify_password. */
  predicate VerifyPassword(plain: string, h: Hash) {
    h.secret == plain
  }

  /** Only the password a hash was made from verifies against it, whatever
      the salt. */
  lemma VerifyOnlyOwnPassword(password: string, other: string, salt: nat)
    ensures VerifyPassword(other, HashPassword(password, salt)) <==> other == password
  {
  }

  /** The outcome of decode_token on the request's cookie. */
  datatype TokenStatus = Valid(email: string) | Expired | Invalid

  /** The message decode_token reports for a token it rejects. */
  function TokenError(t: TokenStatus): string
    requires !t.Valid?
  {
    if t.Expired? then "Token has expired" else "Invalid token"
  }

  /** A document of `users`: the sign-up fields, the three progress flags
      and the pending OTP, if any. */
  datatype UserRecord = UserRecord(
    email: string,
    password: Hash,
    age: int,
    gender: string,
    relaxedDataCollected: bool,
    focusedDataCollected: bool,
    modelTrained: bool,
    otp: Option<string>)

  /** A document of `eeg_data`: one labelled feature row. */
  datatype EegRecord = EegRecord(email: string, features: seq<real>, classLabel: int)

  /** The three flags a route may set. */
  datatype Flag = RelaxedDataCollected | FocusedDataCollected | ModelTrained

  function GetFlag(u: UserRecord, f: Flag): bool {
    match f
    case RelaxedDataCollected => u.relaxedDataCollected
    case FocusedDataCollected => u.focusedDataCollected
    case ModelTrained => u.modelTrained
  }

  /** `{"$set": {flag: True}}` on one user. */
  function SetFlag(u: UserRecord, f: Flag): (r: UserRecord)
    ensures GetFlag(r, f)
    ensures forall g :: g != f ==> GetFlag(r, g) == GetFlag(u, g)
    ensures r.email == u.email && r.password == u.password && r.age == u.age
      && r.gender == u.gender && r.otp == u.otp
  {
    match f
    case RelaxedDataCollected => u.(relaxedDataCollected := true)
    case FocusedDataCollected => u.(focusedDataCollected := true)
    case ModelTrained => u.(modelTrained := true)
  }

  /** Setting a flag twice is the same as setting it once. */
  lemma SetFlagIdempotent(u: UserRecord, f: Flag)
    ensures SetFlag(SetFlag(u, f), f) == SetFlag(u, f)
  {
  }

  /** `eeg_collection.find({"email": email})`, in insertion order. */
  function RecordsOf(records: seq<EegRecord>, email: string): (r: seq<EegRecord>)
    ensures |r| <= |records|
    ensures forall i :: 0 <= i < |r| ==> r[i].email == email
    decreases |records|
  {
    if records == [] then []
    else
      var n := |records|;
      RecordsOf(records[..n - 1], email) + (if records[n - 1].email == email then [records[n - 1]] else [])
  }

  /** Appending another user's record does not change what a user finds;
      appending one's own adds it at the end. */
  lemma RecordsOfAppend(records: seq<EegRecord>, r: EegRecord, email: string)
    ensures RecordsOf(records + [r], email)
      == RecordsOf(records, email) + (if r.email == email then [r] else [])
  {
    assert (records + [r])[..|records|] == records;
  }

  /** No record of the user is missed. */
  lemma {:induction false} RecordsOfComplete(records: seq<EegRecord>, email: string, j: int)
    requires 0 <= j < |records| && records[j].email == email
    ensures records[j] in RecordsOf(records, email)
    decreases |records|
  {
    if j < |records| - 1 {
      RecordsOfComplete(records[..|records| - 1], email, j);
    }
  }

  /** The collections. */
  class Database {
    var users: map<string, UserRecord>
    var eegData: seq<EegRecord>
    var savedModels: set<string>

    constructor()
      ensures users == map[] && eegData == [] && savedModels == {}
    {
      users := map[];
      eegData := [];
      savedModels := {};
    }
  }
}
