/** The authentication endpoint (app/api/auth/route.ts): POST signs up or logs
    in, GET reports the session's user, DELETE logs out. Password hashing,
    password comparison and token signing are parameters (`hash`,
    `passwordMatches`, `sign`); the id the store gives a new user is `newOid`. */
module AuthRoute {
  import opened Common
  import opened Auth

  /** The cookie lifetime: seven days, in seconds. */
  const COOKIE_MAX_AGE := 7 * 24 * 60 * 60
  /** Schema limits of models/User.ts. */
  const MIN_PASSWORD_LENGTH := 6
  const MAX_NAME_LENGTH := 50

  const MSG_MISSING_CREDENTIALS := "Email and password are required"
  const MSG_MISSING_NAME := "Name is required for signup"
  const MSG_EMAIL_TAKEN := "User already exists with this email"
  const MSG_BAD_LOGIN := "Invalid email or password"
  const MSG_BAD_ACTION := "Invalid action. Use \"login\" or \"signup\""
  const MSG_INTERNAL := "Internal server error"
  const MSG_NO_TOKEN := "No authentication token found"
  const MSG_BAD_TOKEN := "Invalid or expired token"
  const MSG_NO_USER := "User not found"

  /** The POST body; "" stands for a missing or empty field. */
  datatype Credentials = Credentials(action: string, email: string, password: string, name: string)

  /** Success bodies. The user object of each is an Identity, which has no
      password field. */
  datatype AuthBody =
    | SignedUp(user: Identity)
    | LoggedIn(user: Identity, lastLogin: Option<int>)
    | CurrentUser(user: Identity, lastLogin: Option<int>)
    | LoggedOut

  /** The `auth-token` cookie a response sets. */
  datatype SetCookie = SetCookie(value: string, maxAge: int)

  /** `User.findOne({ email })`: the position of the user with that email, or -1. */
  function FindByEmail(users: seq<User>, email: string): (i: int)
    ensures -1 <= i < |users|
    ensures i >= 0 ==> users[i].email == email
    ensures i < 0 <==> forall u :: u in users ==> u.email != email
  {
    FindIndex(users, (u: User) => u.email == email)
  }

  /** The schema validation a new user must pass on save: a password of at least
      six characters and a name that is non-empty and at most fifty characters
      once trimmed. */
  predicate SignupValid(c: Credentials) {
    |c.password| >= MIN_PASSWORD_LENGTH && Trim(c.name) != "" && |Trim(c.name)| <= MAX_NAME_LENGTH
  }

  /** The user a signup stores: the hashed password, the trimmed name, verified,
      with default preferences and no avatar or last login. */
  function NewUser(c: Credentials, oid: string, hash: string -> string): (u: User)
    ensures u.oid == oid && u.email == c.email && u.passwordHash == hash(c.password)
    ensures u.name == Trim(c.name) && u.isVerified && u.avatar.None? && u.lastLogin.None?
    ensures u.preferences == DefaultPreferences
  {
    User(oid, c.email, hash(c.password), Trim(c.name), None, true, None, DefaultPreferences)
  }

  /** The user a login authenticates: the position of the user with the given
      email whose stored hash the password matches, or -1. */
  function Authenticate(users: seq<User>, email: string, password: string,
                        passwordMatches: (string, string) -> bool): (i: int)
    ensures -1 <= i < |users|
    ensures i >= 0 ==> users[i].email == email && passwordMatches(password, users[i].passwordHash)
  {
    var i := FindByEmail(users, email);
    if i >= 0 && passwordMatches(password, users[i].passwordHash) then i else -1
  }

  /** With unique emails a login fails exactly when no stored user has that
      email and a hash the password matches. */
  lemma AuthenticateFailsOnlyWithoutMatch(users: seq<User>, email: string, password: string,
                                          passwordMatches: (string, string) -> bool)
    requires UniqueUsers(users)
    ensures Authenticate(users, email, password, passwordMatches) < 0 <==>
      forall u :: u in users && u.email == email ==> !passwordMatches(password, u.passwordHash)
  {
    var i := FindByEmail(users, email);
    if i >= 0 {
      forall u | u in users && u.email == email ensures u == users[i] {
        var k :| 0 <= k < |users| && users[k] == u;
        assert k == i;
      }
    }
  }

  /** A signed-up user can log in with the password they signed up with, as long
      as the password comparison accepts a password against its own hash. */
  lemma {:induction false} SignupThenLogin(users: seq<User>, c: Credentials, oid: string,
                                           hash: string -> string, passwordMatches: (string, string) -> bool)
    requires forall u :: u in users ==> u.email != c.email
    requires passwordMatches(c.password, hash(c.password))
    ensures Authenticate(users + [NewUser(c, oid, hash)], c.email, c.password, passwordMatches) == |users|
  {
    var all := users + [NewUser(c, oid, hash)];
    assert all[|users|].email == c.email;
  }

  /** GET: the session's user, or 401 with the reason. */
  function Session(users: seq<User>, cookie: Option<string>, verify: string -> Option<Claims>): (r: Response<AuthBody>)
    ensures cookie.None? || cookie == Some("") ==> r == ErrorJson(401, MSG_NO_TOKEN)
    ensures cookie.Some? && cookie.value != "" && verify(cookie.value).None? ==> r == ErrorJson(401, MSG_BAD_TOKEN)
    ensures r.status == 200 || r.status == 401
  {
    if cookie.None? || cookie.value == "" then ErrorJson(401, MSG_NO_TOKEN)
    else
      match verify(cookie.value)
      case None => ErrorJson(401, MSG_BAD_TOKEN)
      case Some(claims) =>
        match FindUserById(users, claims.userId)
        case None => ErrorJson(401, MSG_NO_USER)
        case Some(u) => Json(200, CurrentUser(IdentityOf(u), u.lastLogin))
  }

  /** The session check and request authentication agree: GET succeeds exactly
      when verifyAuth yields an identity, and then reports that identity. */
  lemma SessionAgreesWithVerifyAuth(users: seq<User>, cookie: Option<string>, verify: string -> Option<Claims>)
    ensures Session(users, cookie, verify).status == 200 <==> VerifyAuth(users, cookie, verify).Some?
    ensures Session(users, cookie, verify).status == 200 ==>
      Session(users, cookie, verify).Json? && Session(users, cookie, verify).body.user == VerifyAuth(users, cookie, verify).value
  {
  }

  /** DELETE: a success body and an emptied cookie that expires at once. */
  function Logout(): (r: (Response<AuthBody>, SetCookie))
    ensures r.0.status == 200 && r.1.value == "" && r.1.maxAge == 0
  {
    (Json(200, LoggedOut), SetCookie("", 0))
  }

  /** The users collection, which signup inserts into and login updates. */
  class UserCollection {
    var users: seq<User>

    ghost predicate Valid()
      reads this
    {
      UniqueUsers(users)
    }

    constructor (initial: seq<User>)
      requires UniqueUsers(initial)
      ensures Valid() && users == initial
    {
      users := initial;
    }

    /** POST /api/auth. */
    method Post(c: Credentials, now: int, newOid: string, hash: string -> string,
                passwordMatches: (string, string) -> bool, sign: Claims -> string)
      returns (resp: Response<AuthBody>, cookie: Option<SetCookie>)
      requires Valid()
      modifies this
      ensures Valid()
      // missing credentials: rejected before the store is consulted
      ensures c.email == "" || c.password == "" ==>
        resp == ErrorJson(400, MSG_MISSING_CREDENTIALS) && cookie.None? && users == old(users)
      ensures c.email != "" && c.password != "" && c.action == "signup" ==>
        if c.name == "" then
          resp == ErrorJson(400, MSG_MISSING_NAME) && cookie.None? && users == old(users)
        else if FindByEmail(old(users), c.email) >= 0 then
          resp == ErrorJson(409, MSG_EMAIL_TAKEN) && cookie.None? && users == old(users)
        else if !SignupValid(c) || exists u :: u in old(users) && u.oid == newOid then
          resp == ErrorJson(500, MSG_INTERNAL) && cookie.None? && users == old(users)
        else
          var u := NewUser(c, newOid, hash);
          && users == old(users) + [u]
          && resp == Json(200, SignedUp(IdentityOf(u)))
          && cookie == Some(SetCookie(sign(Claims(newOid, c.email)), COOKIE_MAX_AGE))
      ensures c.email != "" && c.password != "" && c.action == "login" ==>
        var i := Authenticate(old(users), c.email, c.password, passwordMatches);
        if i < 0 then
          // an unknown email and a wrong password are answered alike
          resp == ErrorJson(401, MSG_BAD_LOGIN) && cookie.None? && users == old(users)
        else
          var u := old(users)[i].(lastLogin := Some(now));
          && users == old(users)[i := u]
          && resp == Json(200, LoggedIn(IdentityOf(u), Some(now)))
          && cookie == Some(SetCookie(sign(Claims(u.oid, u.email)), COOKIE_MAX_AGE))
      ensures c.email != "" && c.password != "" && c.action != "signup" && c.action != "login" ==>
        resp == ErrorJson(400, MSG_BAD_ACTION) && cookie.None? && users == old(users)
    {
      if c.email == "" || c.password == "" {
        return ErrorJson(400, MSG_MISSING_CREDENTIALS), None;
      }
      if c.action == "signup" {
        if c.name == "" {
          return ErrorJson(400, MSG_MISSING_NAME), None;
        }
        if FindByEmail(users, c.email) >= 0 {
          return ErrorJson(409, MSG_EMAIL_TAKEN), None;
        }
        if !SignupValid(c) || exists u :: u in users && u.oid == newOid {
          return ErrorJson(500, MSG_INTERNAL), None;
        }
        var u := NewUser(c, newOid, hash);
        forall a, b | 0 <= a < b < |users + [u]|
          ensures (users + [u])[a].oid != (users + [u])[b].oid && (users + [u])[a].email != (users + [u])[b].email
        {
          if b == |users| {
            assert (users + [u])[a] in users;
          }
        }
        users := users + [u];
        resp := Json(200, SignedUp(IdentityOf(u)));
        cookie := Some(SetCookie(sign(Claims(newOid, c.email)), COOKIE_MAX_AGE));
      } else if c.action == "login" {
        var i := Authenticate(users, c.email, c.password, passwordMatches);
        if i < 0 {
          return ErrorJson(401, MSG_BAD_LOGIN), None;
        }
        var u := users[i].(lastLogin := Some(now));
        users := users[i := u];
        resp := Json(200, LoggedIn(IdentityOf(u), Some(now)));
        cookie := Some(SetCookie(sign(Claims(u.oid, u.email)), COOKIE_MAX_AGE));
      } else {
        resp, cookie := ErrorJson(400, MSG_BAD_ACTION), None;
      }
    }
  }
}
