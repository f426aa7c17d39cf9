/**
 * The account handlers: signup (duplicate-email check, hash, create with the
 * starting grant, session cookie), login (one answer for every credential
 * failure), renaming (trim, non-empty, at most 100 characters) and logout
 * (an expired, empty session cookie).
 *
 * A field missing from the request body is modelled as the empty string:
 * both fail the schema's `required` validator and neither matches a stored
 * document, whose required strings are never empty.
 */
module AuthController {
  import opened Wrappers
  import opened JsText
  import opened Store
  import AuthMiddleware

  /** `bcrypt.hash(password, 10)`: a digest, or a thrown error. */
  datatype HashOutcome = Hashed(digest: string) | HashFailed

  /** `bcrypt.compare(password, hash)`. */
  datatype CompareOutcome = Match | Mismatch | CompareFailed

  /** `jwt.sign({ id }, secret, { expiresIn: "7d" })`: a token, or a thrown error. */
  datatype SignOutcome = Signed(token: string) | SignFailed

  /** A cookie's lifetime: `maxAge` in milliseconds from when it is set, or a fixed `expires` instant. */
  datatype Lifetime = MaxAge(ms: nat) | ExpiresAt(epochMs: nat)

  datatype Cookie = Cookie(name: string, value: string, httpOnly: bool, sameSite: string, lifetime: Lifetime)

  /** The user object in a signup or login reply: every stored field but the password. */
  datatype PublicUser = PublicUser(username: string, email: string, credits: int, id: UserId, createdAt: nat)

  /**
   * A JSON reply. `key` is the name under which `message` is sent; two of
   * the 400 replies send it as `messgae`.
   */
  datatype AuthReply =
    | Message(status: nat, key: string, message: string)
    | UserReply(status: nat, user: PublicUser, message: string)
    | NameReply(status: nat, message: string, name: string)

  datatype SignupBody = SignupBody(username: string, email: string, password: string)

  datatype LoginBody = LoginBody(email: string, password: string)

  /** Seven days in milliseconds: `7 * 24 * 60 * 60 * 1000`. */
  const SessionMaxAge: nat := 604800000

  /** The cookie `sendToken` sets for a new session. */
  function SessionCookie(token: string): (c: Cookie)
    ensures c.name == "token" && c.value == token && c.httpOnly && c.sameSite == "Lax"
    ensures c.lifetime == MaxAge(SessionMaxAge)
  {
    Cookie("token", token, true, "Lax", MaxAge(SessionMaxAge))
  }

  /** The cookie `logout` sets: the same name, an empty value, expired at the epoch. */
  const LogoutCookie := Cookie("token", "", true, "Lax", ExpiresAt(0))

  /**
   * The browser behaviour the session relies on, assumed rather than taken
   * from the application: what a browser sends back in the `token` cookie at
   * time `now` (ms since the epoch) for a cookie it stored at `setAt`, the
   * value while the cookie is alive and nothing once it has expired.
   */
  function SentValue(c: Cookie, setAt: nat, now: nat): (v: Option<string>)
    ensures v.Some? ==> v.value == c.value
    ensures c.lifetime.ExpiresAt? ==> (v.Some? <==> now < c.lifetime.epochMs)
    ensures c.lifetime.MaxAge? ==> (v.Some? <==> now < setAt + c.lifetime.ms)
  {
    match c.lifetime
    case MaxAge(ms) => if now < setAt + ms then Some(c.value) else None
    case ExpiresAt(t) => if now < t then Some(c.value) else None
  }

  /** A session cookie is sent back for exactly seven days after it is set. */
  lemma SessionCookieLifetime(token: string, setAt: nat, now: nat)
    ensures SentValue(SessionCookie(token), setAt, now) == (if now < setAt + 604800000 then Some(token) else None)
  {
  }

  /**
   * After logout, whenever the next request comes and whatever verification
   * would say, `protect` refuses it as carrying no token: the cookie is
   * already expired, and its value is empty besides.
   */
  lemma LogoutEndsSession(setAt: nat, now: nat, verify: AuthMiddleware.VerifyOutcome)
    ensures SentValue(LogoutCookie, setAt, now) == None
    ensures AuthMiddleware.Decide(SentValue(LogoutCookie, setAt, now), verify) == AuthMiddleware.Reject("Unauthorized user")
    ensures AuthMiddleware.Decide(Some(LogoutCookie.value), verify) == AuthMiddleware.Reject("Unauthorized user")
  {
  }

  function PublicOf(u: UserRecord): PublicUser
  {
    PublicUser(u.username, u.email, u.credits, u.id, u.createdAt)
  }

  /** Appending a user with fresh email and username, non-empty fields and the next id keeps the store valid. */
  lemma AppendUserKeepsValid(users: seq<UserRecord>, u: UserRecord)
    requires ValidUsers(users)
    requires u.id == |users| && u.credits >= 0
    requires u.username != "" && u.email != "" && u.password != ""
    requires IndexOfEmail(users, u.email).None?
    requires !UsernameTaken(users, u.username, None)
    ensures ValidUsers(users + [u])
  {
    var us := users + [u];
    forall i, j | 0 <= i < j < |us| ensures us[i].email != us[j].email && us[i].username != us[j].username {
      if j == |users| {
        assert users[i].username != u.username;
      }
    }
  }

  /** Renaming one user to a non-empty name no other user has keeps the store valid. */
  lemma RenameKeepsValid(users: seq<UserRecord>, id: UserId, name: string)
    requires ValidUsers(users) && id < |users| && name != ""
    requires !UsernameTaken(users, name, Some(id))
    ensures ValidUsers(users[id := users[id].(username := name)])
  {
    var us := users[id := users[id].(username := name)];
    forall i, j | 0 <= i < j < |us| ensures us[i].username != us[j].username {
      if i == id {
        assert users[j].username != name;
      } else if j == id {
        assert users[i].username != name;
      }
    }
  }

  /**
   * `signup`. `hash` and `sign` stand for bcrypt and jwt; `now` is the
   * creation timestamp. `cookie` is the session cookie set, if any.
   */
  method Signup(db: Database, body: SignupBody, hash: string -> HashOutcome, sign: UserId -> SignOutcome, now: nat)
    returns (reply: AuthReply, cookie: Option<Cookie>)
    requires db.Valid()
    modifies db`users
    ensures db.Valid()
    // a known email is refused before anything else happens
    ensures IndexOfEmail(old(db.users), body.email).Some? ==>
      reply == Message(400, "messgae", "Email already exists") && cookie.None? && db.users == old(db.users)
    // the user is created exactly when the email is new, the hash succeeds and the document validates
    ensures |db.users| == |old(db.users)| + (if db.users == old(db.users) then 0 else 1)
    ensures db.users != old(db.users) <==>
      && IndexOfEmail(old(db.users), body.email).None?
      && hash(body.password).Hashed?
      && body.username != "" && body.email != "" && hash(body.password).digest != ""
      && !UsernameTaken(old(db.users), body.username, None)
    // what is stored: the next id, the grant of 5, the hash and never the password itself
    ensures db.users != old(db.users) ==>
      db.users == old(db.users) + [UserRecord(|old(db.users)|, body.username, body.email,
                                              hash(body.password).digest, StartingCredits, now)]
    // a failure after the email check is one 500 reply, whether or not the user was already created
    ensures db.users == old(db.users) && IndexOfEmail(old(db.users), body.email).None? ==>
      reply == Message(500, "message", "Signup failed") && cookie.None?
    ensures db.users != old(db.users) && sign(|old(db.users)|).SignFailed? ==>
      reply == Message(500, "message", "Signup failed") && cookie.None?
    // success: a session cookie for the new id, then 201 with the public fields
    ensures reply.status == 201 <==> db.users != old(db.users) && sign(|old(db.users)|).Signed?
    ensures reply.status == 201 ==>
      && cookie == Some(SessionCookie(sign(|old(db.users)|).token))
      && reply == UserReply(201, PublicUser(body.username, body.email, 5, |old(db.users)|, now), "Signup succesful")
  {
    if IndexOfEmail(db.users, body.email).Some? {
      return Message(400, "messgae", "Email already exists"), None;
    }
    var hashed := hash(body.password);
    if hashed.HashFailed? {
      return Message(500, "message", "Signup failed"), None;
    }
    if body.username == "" || body.email == "" || hashed.digest == "" || UsernameTaken(db.users, body.username, None) {
      return Message(500, "message", "Signup failed"), None;
    }
    var id := |db.users|;
    var user := UserRecord(id, body.username, body.email, hashed.digest, StartingCredits, now);
    AppendUserKeepsValid(db.users, user);
    db.users := db.users + [user];
    assert db.users != old(db.users) by {
      assert |db.users| == |old(db.users)| + 1;
    }
    match sign(id) {
      case SignFailed =>
        reply, cookie := Message(500, "message", "Signup failed"), None;
      case Signed(token) =>
        cookie := Some(SessionCookie(token));
        reply := UserReply(201, PublicUser(body.username, body.email, StartingCredits, id, now), "Signup succesful");
    }
  }

  /** The one reply to an unknown email and to a wrong password alike. */
  const InvalidCredentials := Message(400, "message", "Invalid credentials")

  /**
   * `login`. `compare` stands for bcrypt's comparison of a password with a
   * stored hash, `sign` for jwt. Nothing in the store changes.
   */
  method Login(db: Database, body: LoginBody, compare: (string, string) -> CompareOutcome, sign: UserId -> SignOutcome)
    returns (reply: AuthReply, cookie: Option<Cookie>)
    requires db.Valid()
    // an unknown email and a wrong password are indistinguishable to the caller
    ensures IndexOfEmail(db.users, body.email).None? ==> reply == InvalidCredentials && cookie.None?
    ensures IndexOfEmail(db.users, body.email).Some? ==>
      var u := db.users[IndexOfEmail(db.users, body.email).value];
      && (compare(body.password, u.password).Mismatch? ==> reply == InvalidCredentials && cookie.None?)
      && (compare(body.password, u.password).CompareFailed? ==> reply == Message(500, "message", "Login failed") && cookie.None?)
      && (compare(body.password, u.password).Match? && sign(u.id).SignFailed? ==>
            reply == Message(500, "message", "Login failed") && cookie.None?)
      && (compare(body.password, u.password).Match? && sign(u.id).Signed? ==>
            && cookie == Some(SessionCookie(sign(u.id).token))
            && reply == UserReply(200, PublicOf(u), "Login successful"))
    // a successful login reports the stored balance as it is
    ensures reply.UserReply? ==>
      && IndexOfEmail(db.users, body.email).Some?
      && reply.user.credits == db.CreditsOf(IndexOfEmail(db.users, body.email).value)
      && reply.user.email == body.email
  {
    var found := IndexOfEmail(db.users, body.email);
    if found.None? {
      return InvalidCredentials, None;
    }
    var u := db.users[found.value];
    match compare(body.password, u.password) {
      case Mismatch =>
        return InvalidCredentials, None;
      case CompareFailed =>
        return Message(500, "message", "Login failed"), None;
      case Match =>
    }
    match sign(u.id) {
      case SignFailed =>
        reply, cookie := Message(500, "message", "Login failed"), None;
      case Signed(token) =>
        cookie := Some(SessionCookie(token));
        reply := UserReply(200, PublicOf(u), "Login successful");
    }
  }

  /** The longest name a rename accepts, after trimming. */
  const MaxNameLength := 100

  /** Where a rename ends: a reply, or a `TypeError` thrown before any reply (the body has no `name`). */
  datatype RenameOutcome = Replied(reply: AuthReply) | Threw

  /** The checks a rename makes before touching the store, on the trimmed name. */
  function RenameCheck(name: string): (r: Option<AuthReply>)
    ensures r.None? <==> !IsBlank(name) && |Trim(name)| <= MaxNameLength
    ensures IsBlank(name) ==> r == Some(Message(400, "messgae", "Name is required"))
    ensures !IsBlank(name) && |Trim(name)| > MaxNameLength ==>
      r == Some(Message(400, "message", "Name must be under 100 characters"))
  {
    var trimmed := Trim(name);
    if name == "" || trimmed == "" then Some(Message(400, "messgae", "Name is required"))
    else if |trimmed| > MaxNameLength then Some(Message(400, "message", "Name must be under 100 characters"))
    else None
  }

  /** Surrounding whitespace does not count toward the limit, and exactly 100 characters pass. */
  lemma RenameLimitIsOnTrimmedName(core: string, pad: string)
    requires |core| == MaxNameLength && IsBlank(pad)
    requires !IsWhitespace(core[0]) && !IsWhitespace(core[|core| - 1])
    ensures RenameCheck(core).None?
    ensures RenameCheck(pad + core + pad).None?
  {
    TrimOfTrimmed(core);
    TrimPadded(pad, core, pad);
  }

  /**
   * `updatedUsername` for the authenticated `userId`; `name` is the body's
   * field, `None` when absent. The store is changed only by a successful
   * rename, which stores the trimmed name.
   */
  method UpdatedUsername(db: Database, userId: UserId, name: Option<string>) returns (outcome: RenameOutcome)
    requires db.Valid()
    modifies db`users
    ensures db.Valid()
    // `name.trim()` runs first: an absent name throws and nothing is answered
    ensures name.None? ==> outcome == Threw && db.users == old(db.users)
    ensures name.Some? && RenameCheck(name.value).Some? ==>
      outcome == Replied(RenameCheck(name.value).value) && db.users == old(db.users)
    ensures name.Some? && RenameCheck(name.value).None? ==>
      var trimmed := Trim(name.value);
      && (userId >= |old(db.users)| ==>
            outcome == Replied(Message(400, "message", "User not found")) && db.users == old(db.users))
      && (userId < |old(db.users)| && UsernameTaken(old(db.users), trimmed, Some(userId)) ==>
            outcome == Replied(Message(500, "message", "Internal server error")) && db.users == old(db.users))
      && (userId < |old(db.users)| && !UsernameTaken(old(db.users), trimmed, Some(userId)) ==>
            && db.users == old(db.users)[userId := old(db.users)[userId].(username := trimmed)]
            && outcome == Replied(NameReply(200, "Name updated successfully", trimmed)))
    // whatever happens, no balance, email or password changes
    ensures |db.users| == |old(db.users)|
    ensures forall i :: 0 <= i < |db.users| ==>
      && db.users[i].credits == old(db.users)[i].credits
      && db.users[i].email == old(db.users)[i].email
      && db.users[i].password == old(db.users)[i].password
  {
    if name.None? {
      return Threw;
    }
    var check := RenameCheck(name.value);
    if check.Some? {
      return Replied(check.value);
    }
    var trimmed := Trim(name.value);
    if userId >= |db.users| {
      return Replied(Message(400, "message", "User not found"));
    }
    if UsernameTaken(db.users, trimmed, Some(userId)) {
      return Replied(Message(500, "message", "Internal server error"));
    }
    assert trimmed != "";
    RenameKeepsValid(db.users, userId, trimmed);
    db.users := db.users[userId := db.users[userId].(username := trimmed)];
    outcome := Replied(NameReply(200, "Name updated successfully", trimmed));
  }

  /** `logout`: clear the session cookie and confirm. */
  method Logout() returns (reply: AuthReply, cookie: Cookie)
    ensures cookie.name == "token" && cookie.value == "" && cookie.httpOnly && cookie.sameSite == "Lax"
    ensures cookie.lifetime == ExpiresAt(0)
    ensures reply == Message(200, "message", "Logged out successfully")
  {
    reply, cookie := Message(200, "message", "Logged out successfully"), LogoutCookie;
  }
}
