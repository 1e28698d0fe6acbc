/** Request authentication (lib/auth.ts): resolving the `auth-token` cookie to
    the identity of a stored user. Signature verification is a parameter
    `verify`, which yields the token's claims or None where jwt.verify throws. */
module Auth {
  import opened Common

  datatype Preferences = Preferences(theme: string, emailNotifications: bool, calendarIntegration: bool)

  /** The preferences a new user gets (models/User.ts). */
  const DefaultPreferences := Preferences("system", true, false)

  /** A stored user; `oid` is the store's `_id`, `passwordHash` the bcrypt hash. */
  datatype User = User(
    oid: string,
    email: string,
    passwordHash: string,
    name: string,
    avatar: Option<string>,
    isVerified: bool,
    lastLogin: Option<int>,
    preferences: Preferences)

  /** AuthenticatedUser: what handlers learn about the caller. It has no field
      for the password hash, so no identity can carry one. */
  datatype Identity = Identity(id: string, email: string, name: string, avatar: Option<string>, preferences: Preferences)

  /** The payload of a signed token. */
  datatype Claims = Claims(userId: string, email: string)

  /** The users collection: `_id` and `email` are both unique. */
  predicate UniqueUsers(users: seq<User>) {
    forall i, j :: 0 <= i < j < |users| ==> users[i].oid != users[j].oid && users[i].email != users[j].email
  }

  /** `User.findById(id)`. */
  function FindUserById(users: seq<User>, id: string): (r: Option<User>)
    ensures r.Some? ==> r.value in users && r.value.oid == id
    ensures r.None? <==> forall u :: u in users ==> u.oid != id
  {
    var i := FindIndex(users, (u: User) => u.oid == id);
    if i < 0 then None else Some(users[i])
  }

  /** The identity projection of a user: id, email, name, avatar and preferences. */
  function IdentityOf(u: User): (r: Identity)
    ensures r.id == u.oid && r.email == u.email && r.name == u.name
    ensures r.avatar == u.avatar && r.preferences == u.preferences
  {
    Identity(u.oid, u.email, u.name, u.avatar, u.preferences)
  }

  /** verifyAuth: the identity behind the cookie, or None when the cookie is
      missing or empty, when the token does not verify, or when no user has the
      id the token names. */
  function VerifyAuth(users: seq<User>, cookie: Option<string>, verify: string -> Option<Claims>): (r: Option<Identity>)
    ensures cookie.None? || cookie == Some("") ==> r.None?
    ensures cookie.Some? && cookie.value != "" && verify(cookie.value).None? ==> r.None?
    ensures r.Some? <==>
      cookie.Some? && cookie.value != "" && verify(cookie.value).Some?
      && exists u :: u in users && u.oid == verify(cookie.value).value.userId
    ensures r.Some? ==>
      exists u :: u in users && u.oid == verify(cookie.value).value.userId && r.value == IdentityOf(u)
  {
    if cookie.None? || cookie.value == "" then None
    else
      match verify(cookie.value)
      case None => None
      case Some(claims) =>
        match FindUserById(users, claims.userId)
        case None => None
        case Some(u) => Some(IdentityOf(u))
  }

  /** createAuthResponse: a JSON `{ error }` response, 401 unless told otherwise. */
  function CreateAuthResponse<B>(message: string, status: int := 401): (r: Response<B>)
    ensures r.ErrorJson? && r.error == message && r.status == status
  {
    ErrorJson(status, message)
  }
}
