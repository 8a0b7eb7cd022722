/**
 * The authentication endpoints' logic: reading the credentials from the
 * request body, the order of the sign-up checks and the conversions of
 * age and income they make, the login checks, and the set of revoked
 * token identifiers that logout fills and the token check consults.
 * Database lookups, the insert and bcrypt's comparison enter as their
 * results.
 */
module AuthSystem {
  import opened Common
  import opened Parse

  /** A value of the JSON request body as Python sees it; JArray stands for a list or object. */
  datatype Json = JNull | JBool(b: bool) | JInt(i: int) | JNum(x: real) | JStr(s: string) | JArray(size: nat)

  type Body = map<string, Json>

  /** Python truthiness. */
  predicate Truthy(v: Json) {
    match v
    case JNull => false
    case JBool(b) => b
    case JInt(i) => i != 0
    case JNum(x) => x != 0.0
    case JStr(s) => s != ""
    case JArray(n) => n > 0
  }

  /** `dict.get(key)`: None for a missing key. */
  function Get(data: Body, key: string): (r: Json)
    ensures key !in data ==> r == JNull
  {
    if key in data then data[key] else JNull
  }

  /** Python's `a or b`. */
  function Or(a: Json, b: Json): (r: Json)
    ensures Truthy(a) ==> r == a
    ensures !Truthy(a) ==> r == b
  {
    if Truthy(a) then a else b
  }

  /**
   * extract_credentials: the email, or the username when the email is
   * falsy, and the password; a missing body reads as empty.
   */
  function ExtractCredentials(data: Option<Body>): (r: (Json, Json))
    ensures data.None? ==> r == (JNull, JNull)
    ensures data.Some? && Truthy(Get(data.value, "email")) ==> r.0 == data.value["email"]
    ensures data.Some? && !Truthy(Get(data.value, "email")) ==> r.0 == Get(data.value, "username")
    ensures data.Some? ==> r.1 == Get(data.value, "password")
  {
    var d := if data.Some? then data.value else map[];
    (Or(Get(d, "email"), Get(d, "username")), Get(d, "password"))
  }

  /** Python int() of a real: truncation toward zero. */
  function TruncateToInt(x: real): (r: int)
    ensures x >= 0.0 ==> r as real <= x < r as real + 1.0
    ensures x < 0.0 ==> r as real - 1.0 < x <= r as real
  {
    if x >= 0.0 then x.Floor else -((-x).Floor)
  }

  /** Python int(v); None for the ValueError or TypeError it raises. */
  function PyIntOf(v: Json): Option<int> {
    match v
    case JBool(b) => Some(if b then 1 else 0)
    case JInt(i) => Some(i)
    case JNum(x) => Some(TruncateToInt(x))
    case JStr(s) => PyInt(s)
    case JNull => None
    case JArray(_) => None
  }

  /** Python float(v); None for the ValueError or TypeError it raises. */
  function PyFloatOf(v: Json): Option<real> {
    match v
    case JBool(b) => Some(if b then 1.0 else 0.0)
    case JInt(i) => Some(i as real)
    case JNum(x) => Some(x)
    case JStr(s) => PyFloat(s)
    case JNull => None
    case JArray(_) => None
  }

  /** A reply: its status code and message. */
  datatype Reply = Reply(status: int, msg: string)

  /** The error messages of the register and login routes. */
  const MissingCredentials := "Missing email/username or password"
  const EmailTaken := "Email already exists"
  const BadAgeFormat := "Invalid age format"
  const AgeOutOfRange := "Age must be between 18 and 100"
  const BadIncomeFormat := "Invalid annual income format"
  const NegativeIncome := "Annual income cannot be negative"
  const BadCredentials := "Bad credentials"

  /** How db_utils.add_user ended. */
  datatype AddOutcome = Added(userId: int) | DuplicateEntry | OtherIntegrityError | Failed(error: string)

  /** The arguments add_user receives. */
  datatype NewUser = NewUser(username: Json, password: Json, email: Json, fullName: Json, phone: Json,
                             age: Json, occupation: Json, annualIncome: Json, financialGoal: Json,
                             riskTolerance: Json)

  /** What the sign-up did: the reply, and the user it tried to add, if it got that far. */
  datatype Registration = Registration(reply: Reply, attempted: Option<NewUser>, createdId: Option<int>)

  /** The credentials to sign up with are both present. */
  predicate HasCredentials(data: Body) {
    Truthy(Or(Get(data, "email"), Get(data, "username"))) && Truthy(Get(data, "password"))
  }

  /** A validated field: the value passed on to add_user, or the reply that stops the sign-up. */
  datatype Checked = Accepted(value: Json) | Rejected(reply: Reply)

  /** The age block: a falsy age passes as it is; a truthy one must convert to an int from 18 to 100. */
  function CheckAge(age: Json): (r: Checked)
    ensures !Truthy(age) ==> r == Accepted(age)
    ensures Truthy(age) && PyIntOf(age).None? ==> r == Rejected(Reply(400, BadAgeFormat))
    ensures Truthy(age) && PyIntOf(age).Some? && 18 <= PyIntOf(age).value <= 100 ==>
      r == Accepted(JInt(PyIntOf(age).value))
    ensures Truthy(age) && PyIntOf(age).Some? && !(18 <= PyIntOf(age).value <= 100) ==>
      r == Rejected(Reply(400, AgeOutOfRange))
  {
    if !Truthy(age) then Accepted(age)
    else
      match PyIntOf(age)
      case None => Rejected(Reply(400, BadAgeFormat))
      case Some(n) => if n < 18 || n > 100 then Rejected(Reply(400, AgeOutOfRange)) else Accepted(JInt(n))
  }

  /** The income block: a falsy income passes as it is; a truthy one must convert to a float of at least 0. */
  function CheckIncome(income: Json): (r: Checked)
    ensures !Truthy(income) ==> r == Accepted(income)
    ensures Truthy(income) && PyFloatOf(income).None? ==> r == Rejected(Reply(400, BadIncomeFormat))
    ensures Truthy(income) && PyFloatOf(income).Some? && PyFloatOf(income).value >= 0.0 ==>
      r == Accepted(JNum(PyFloatOf(income).value))
    ensures Truthy(income) && PyFloatOf(income).Some? && PyFloatOf(income).value < 0.0 ==>
      r == Rejected(Reply(400, NegativeIncome))
  {
    if !Truthy(income) then Accepted(income)
    else
      match PyFloatOf(income)
      case None => Rejected(Reply(400, BadIncomeFormat))
      case Some(x) => if x < 0.0 then Rejected(Reply(400, NegativeIncome)) else Accepted(JNum(x))
  }

  /**
   * handle_register. `emailTaken` is user_exists_by_email's answer and
   * `outcome` how add_user ended; each is consulted only when reached.
   */
  function HandleRegister(data: Body, emailTaken: bool, outcome: AddOutcome): (r: Registration)
    ensures !HasCredentials(data) ==> r == Registration(Reply(400, MissingCredentials), None, None)
    ensures HasCredentials(data) && emailTaken ==> r == Registration(Reply(409, EmailTaken), None, None)
    ensures HasCredentials(data) && !emailTaken && CheckAge(Get(data, "age")).Rejected? ==>
      r == Registration(CheckAge(Get(data, "age")).reply, None, None)
    ensures HasCredentials(data) && !emailTaken && CheckAge(Get(data, "age")).Accepted?
            && CheckIncome(Get(data, "annualIncome")).Rejected? ==>
      r == Registration(CheckIncome(Get(data, "annualIncome")).reply, None, None)
    ensures r.attempted.Some? <==>
      HasCredentials(data) && !emailTaken
      && CheckAge(Get(data, "age")).Accepted? && CheckIncome(Get(data, "annualIncome")).Accepted?
    ensures r.attempted.Some? ==>
      r.attempted.value.username == Or(Get(data, "email"), Get(data, "username"))
      && r.attempted.value.email == r.attempted.value.username
      && r.attempted.value.password == Get(data, "password")
      && r.attempted.value.age == CheckAge(Get(data, "age")).value
      && r.attempted.value.annualIncome == CheckIncome(Get(data, "annualIncome")).value
    ensures r.reply.status == 201 <==> r.attempted.Some? && outcome.Added?
    ensures r.createdId.Some? <==> r.reply.status == 201
    ensures r.attempted.Some? && outcome.Added? ==> r.createdId == Some(outcome.userId)
    ensures r.attempted.Some? && outcome == DuplicateEntry ==> r.reply == Reply(409, EmailTaken)
    ensures r.attempted.Some? && !outcome.Added? && outcome != DuplicateEntry ==> r.reply.status == 500
  {
    var username := Or(Get(data, "email"), Get(data, "username"));
    var password := Get(data, "password");
    if !Truthy(username) || !Truthy(password) then
      Registration(Reply(400, MissingCredentials), None, None)
    else if emailTaken then
      Registration(Reply(409, EmailTaken), None, None)
    else
      match CheckAge(Get(data, "age"))
      case Rejected(reply) => Registration(reply, None, None)
      case Accepted(age) =>
        match CheckIncome(Get(data, "annualIncome"))
        case Rejected(reply) => Registration(reply, None, None)
        case Accepted(income) =>
          var user := NewUser(username, password, username, Get(data, "name"), Get(data, "phone"), age,
                              Get(data, "occupation"), income, Get(data, "financialGoal"), Get(data, "riskTolerance"));
          AddUserReply(user, outcome)
  }

  /** The reply to add_user's outcome: 201 with the new id, 409 for a duplicate, 500 otherwise. */
  function AddUserReply(user: NewUser, outcome: AddOutcome): (r: Registration)
    ensures r.attempted == Some(user)
    ensures r.reply.status == 201 <==> outcome.Added?
    ensures r.createdId.Some? <==> outcome.Added?
    ensures outcome.Added? ==> r.createdId == Some(outcome.userId)
    ensures outcome == DuplicateEntry ==> r.reply == Reply(409, EmailTaken)
    ensures !outcome.Added? && outcome != DuplicateEntry ==> r.reply.status == 500
  {
    match outcome
    case Added(id) => Registration(Reply(201, "User created successfully"), Some(user), Some(id))
    case DuplicateEntry => Registration(Reply(409, EmailTaken), Some(user), None)
    case OtherIntegrityError => Registration(Reply(500, "Database error creating user"), Some(user), None)
    case Failed(e) => Registration(Reply(500, "Error creating user: " + e), Some(user), None)
  }

  /** A fractional age is truncated before the range check: 17.9 is refused as 17, 100.5 accepted as 100. */
  lemma FractionalAges()
    ensures CheckAge(JNum(17.9)) == Rejected(Reply(400, AgeOutOfRange))
    ensures CheckAge(JNum(100.5)) == Accepted(JInt(100))
  {
  }

  /** An age of 0 or "" is falsy: it is not validated and reaches add_user as it came. */
  lemma FalsyAgeSkipsCheck(data: Body)
    requires HasCredentials(data) && !Truthy(Get(data, "age")) && !Truthy(Get(data, "annualIncome"))
    ensures HandleRegister(data, false, Added(1)).reply.status == 201
    ensures HandleRegister(data, false, Added(1)).attempted.value.age == Get(data, "age")
  {
  }

  // ---------- login ----------

  /** The columns get_user_single reads. */
  datatype StoredUser = StoredUser(id: int, username: string, passwordHash: string)

  /** What the login answers: an error reply, or a token for this identity. */
  datatype LoginReply = LoginError(reply: Reply) | AccessToken(id: int, username: string)

  /**
   * login. `user` is get_user_single's answer and `checkpw` bcrypt's
   * comparison of a password with a stored hash. A password that is not
   * a string cannot be encoded and the request fails (None).
   */
  function Login(data: Option<Body>, user: Option<StoredUser>, checkpw: (string, string) -> bool): (r: Option<LoginReply>)
    ensures var (username, password) := ExtractCredentials(data);
      (!Truthy(username) || !Truthy(password)) <==> r == Some(LoginError(Reply(400, MissingCredentials)))
    ensures var (username, password) := ExtractCredentials(data);
      Truthy(username) && Truthy(password) && user.None? ==> r == Some(LoginError(Reply(401, BadCredentials)))
    ensures r.Some? && r.value.AccessToken? <==>
      var (username, password) := ExtractCredentials(data);
      Truthy(username) && password.JStr? && password.s != "" && user.Some? && checkpw(password.s, user.value.passwordHash)
    ensures r.Some? && r.value.AccessToken? ==> r.value.id == user.value.id && r.value.username == user.value.username
  {
    var (username, password) := ExtractCredentials(data);
    if !Truthy(username) || !Truthy(password) then Some(LoginError(Reply(400, MissingCredentials)))
    else if user.None? then Some(LoginError(Reply(401, BadCredentials)))
    else if !password.JStr? then None
    else if !checkpw(password.s, user.value.passwordHash) then Some(LoginError(Reply(401, BadCredentials)))
    else Some(AccessToken(user.value.id, user.value.username))
  }

  /** An unknown user and a wrong password get the same reply, so the reply does not tell which. */
  lemma LoginDoesNotRevealAccounts(data: Option<Body>, user: StoredUser, checkpw: (string, string) -> bool)
    requires var (username, password) := ExtractCredentials(data);
      Truthy(username) && password.JStr? && password.s != "" && !checkpw(password.s, user.passwordHash)
    ensures Login(data, Some(user), checkpw) == Login(data, None, checkpw)
  {
  }

  // ---------- logout and the token check ----------

  /** BLOCKLIST: the identifiers of the tokens logged out since the server started. */
  class Blocklist {
    var revoked: set<string>

    constructor()
      ensures revoked == {}
    {
      revoked := {};
    }

    /** logout: the token's jti, when it has a truthy one, is revoked. */
    method Logout(jti: Option<string>) returns (reply: Reply)
      modifies this
      ensures jti.Some? && jti.value != "" ==> revoked == old(revoked) + {jti.value}
      ensures !(jti.Some? && jti.value != "") ==> revoked == old(revoked)
      ensures reply == Reply(200, "Successfully logged out")
    {
      if jti.Some? && jti.value != "" {
        revoked := revoked + {jti.value};
      }
      reply := Reply(200, "Successfully logged out");
    }

    /** _is_token_revoked: whether the payload's jti is in the set. */
    predicate IsRevoked(jti: Option<string>)
      reads this
    {
      jti.Some? && jti.value in revoked
    }
  }

  /**
   * A token stays revoked: after a logout, that jti is revoked and every
   * jti revoked before still is.
   */
  method LogoutRevokes(b: Blocklist, jti: string, other: Option<string>)
    modifies b
    requires jti != ""
    ensures b.IsRevoked(Some(jti))
    ensures old(b.IsRevoked(other)) ==> b.IsRevoked(other)
  {
    var _ := b.Logout(Some(jti));
  }
}
