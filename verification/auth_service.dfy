/** The account rules of the authentication service: the email/password login
    decision chain, registration with its duplicate check, and the Google
    sign-in that merges into an existing account or creates one. The database
    is a table of user rows kept in insertion order; a query's `.first()` is
    taken to be the first matching row in that order, which is what SQLite's
    scan of a small table without an index gives but which the query itself
    does not fix (`MergeIntoMatchCommits` covers every other choice). Its
    unique constraints (email, username,
    google_id; several rows may leave the optional ones empty) hold of every
    committed table, and a commit that would break one fails and is rolled
    back. Password hashing and verification are oracles. */
module AuthService {
  import opened Common

  datatype AuthProvider = Email | Google

  datatype User = User(
    email: string,
    username: Option<string>,
    hashedPassword: Option<string>,
    fullName: Option<string>,
    isActive: bool,
    isVerified: bool,
    provider: AuthProvider,
    googleId: Option<string>,
    avatarUrl: Option<string>)

  datatype HttpError = HttpError(status: int, detail: string)

  const BadRequest: int := 400
  const Unauthorized: int := 401
  const Forbidden: int := 403
  const ServerError: int := 500

  const IncorrectCredentials: string := "Incorrect email or password"

  // ===========================================================================
  // The table

  /** The table's unique constraints; an empty optional column never
      clashes. */
  predicate Consistent(users: seq<User>) {
    forall i, j :: 0 <= i < j < |users| ==>
      && users[i].email != users[j].email
      && (users[i].username.Some? ==> users[i].username != users[j].username)
      && (users[i].googleId.Some? ==> users[i].googleId != users[j].googleId)
  }

  /** `query(User).filter(User.email == email).first()`. */
  function FindByEmail(users: seq<User>, email: string): (r: Option<nat>)
    ensures r.Some? ==> r.value < |users| && users[r.value].email == email
    ensures r.Some? ==> forall i :: 0 <= i < r.value ==> users[i].email != email
    ensures r.None? ==> forall i :: 0 <= i < |users| ==> users[i].email != email
  {
    if users == [] then None
    else if users[0].email == email then Some(0)
    else match FindByEmail(users[1..], email)
      case None => None
      case Some(k) => Some(k + 1)
  }

  /** A row matches a Google identity by email or by Google id. */
  predicate GoogleMatch(u: User, email: string, googleId: string) {
    u.email == email || u.googleId == Some(googleId)
  }

  /** `filter((User.email == email) | (User.google_id == google_id)).first()`. */
  function FindForGoogle(users: seq<User>, email: string, googleId: string): (r: Option<nat>)
    ensures r.Some? ==> r.value < |users| && GoogleMatch(users[r.value], email, googleId)
    ensures r.Some? ==> forall i :: 0 <= i < r.value ==> !GoogleMatch(users[i], email, googleId)
    ensures r.None? ==> forall i :: 0 <= i < |users| ==> !GoogleMatch(users[i], email, googleId)
  {
    if users == [] then None
    else if GoogleMatch(users[0], email, googleId) then Some(0)
    else match FindForGoogle(users[1..], email, googleId)
      case None => None
      case Some(k) => Some(k + 1)
  }

  // ===========================================================================
  // Email/password login

  /** `authenticate_user`: unknown email, inactive account, another provider,
      missing hash or wrong password, checked in that order. */
  function Authenticate(users: seq<User>, email: string, password: string,
                        verify: (string, string) -> bool): (r: Result<User, HttpError>)
    ensures FindByEmail(users, email).None? ==> r == Err(HttpError(Unauthorized, IncorrectCredentials))
    ensures r.Ok? ==> FindByEmail(users, email).Some? && r.value == users[FindByEmail(users, email).value]
    ensures r.Ok? ==> && r.value.isActive && r.value.provider == Email
                      && Present(r.value.hashedPassword) && verify(password, r.value.hashedPassword.value)
  {
    match FindByEmail(users, email)
    case None => Err(HttpError(Unauthorized, IncorrectCredentials))
    case Some(i) =>
      var user := users[i];
      if !user.isActive then Err(HttpError(Forbidden, "User account is inactive"))
      else if user.provider != Email then
        Err(HttpError(BadRequest, "Please use the correct authentication method for this account"))
      else if !Present(user.hashedPassword) || !verify(password, user.hashedPassword.value) then
        Err(HttpError(Unauthorized, IncorrectCredentials))
      else Ok(user)
  }

  /** The outcome for a known account, case by case. An inactive account is
      refused before its provider or password is looked at; a wrong password
      reads exactly like an unknown email. */
  lemma AuthenticateKnownAccount(users: seq<User>, email: string, password: string,
                                 verify: (string, string) -> bool)
    requires FindByEmail(users, email).Some?
    ensures var u := users[FindByEmail(users, email).value];
      var r := Authenticate(users, email, password, verify);
      && (!u.isActive ==> r == Err(HttpError(Forbidden, "User account is inactive")))
      && (u.isActive && u.provider != Email ==> r.Err? && r.error.status == BadRequest)
      && (u.isActive && u.provider == Email ==>
            (r.Ok? <==> Present(u.hashedPassword) && verify(password, u.hashedPassword.value)))
      && (u.isActive && u.provider == Email && r.Err? ==> r == Err(HttpError(Unauthorized, IncorrectCredentials)))
  {
  }

  // ===========================================================================
  // Registration

  /** The row `register_user` builds. */
  function NewEmailUser(email: string, username: Option<string>, fullName: Option<string>,
                        hashed: string): (u: User)
    ensures u.email == email && u.username == username && u.fullName == fullName
    ensures u.hashedPassword == Some(hashed)
    ensures u.provider == Email && u.isActive && !u.isVerified
    ensures u.googleId.None? && u.avatarUrl.None?
  {
    User(email, username, Some(hashed), fullName, true, false, Email, None, None)
  }

  /** `register_user` on a table: the outcome and the table afterwards. */
  function RegisterOutcome(users: seq<User>, email: string, username: Option<string>,
                           fullName: Option<string>, hashed: string): (r: (Result<User, HttpError>, seq<User>))
    ensures FindByEmail(users, email).Some? ==>
      r == (Err(HttpError(BadRequest, "Email already registered")), users)
    ensures r.0.Ok? ==> r.1 == users + [r.0.value] && r.0.value == NewEmailUser(email, username, fullName, hashed)
    ensures r.0.Err? ==> r.1 == users && r.0.error.status == BadRequest
    ensures Consistent(users) ==> Consistent(r.1)
  {
    if FindByEmail(users, email).Some? then (Err(HttpError(BadRequest, "Email already registered")), users)
    else
      var user := NewEmailUser(email, username, fullName, hashed);
      if Consistent(users + [user]) then (Ok(user), users + [user])
      else (Err(HttpError(BadRequest, "Username or email already exists")), users)
  }

  /** A new email is refused only for a username already taken. */
  lemma RegisterNewEmail(users: seq<User>, email: string, username: Option<string>,
                         fullName: Option<string>, hashed: string)
    requires Consistent(users) && FindByEmail(users, email).None?
    ensures var r := RegisterOutcome(users, email, username, fullName, hashed).0;
      r.Err? <==> username.Some? && exists i :: 0 <= i < |users| && users[i].username == username
  {
    var user := NewEmailUser(email, username, fullName, hashed);
    var t := users + [user];
    if username.Some? && exists i :: 0 <= i < |users| && users[i].username == username {
      var i :| 0 <= i < |users| && users[i].username == username;
      assert t[i].username == t[|users|].username;
    }
  }

  // ===========================================================================
  // Google sign-in

  /** The profile fields the source reads from Google's reply. */
  datatype GoogleData = GoogleData(
    sub: Option<string>,
    id: Option<string>,
    email: Option<string>,
    name: Option<string>,
    picture: Option<string>)

  /** What the two Google endpoints answered: the userinfo endpoint accepted
      the token, or it refused and the tokeninfo endpoint accepted it for the
      audience `aud`, or both refused; or a request or the decoding of a reply
      raised, with the exception's text as `message`. */
  datatype TokenCheck =
    | UserInfo(data: GoogleData)
    | TokenInfo(aud: Option<string>, data: GoogleData)
    | Rejected
    | Failed(message: string)

  const GoogleFailurePrefix: string := "Failed to authenticate with Google: "

  /** The profile of a verified token. The tokeninfo path copies only `sub`,
      `email`, `name` and `picture`. A raised exception is turned into a 401
      by the service's catch-all handler. */
  function GoogleProfile(check: TokenCheck, clientId: string): (r: Result<GoogleData, HttpError>)
    ensures r.Err? ==> r.error.status == Unauthorized
    ensures r.Ok? <==> check.UserInfo? || (check.TokenInfo? && check.aud == Some(clientId))
    ensures check.UserInfo? ==> r == Ok(check.data)
    ensures check.TokenInfo? && check.aud == Some(clientId) ==> r.Ok? && r.value.id.None?
    ensures check.Failed? ==> r == Err(HttpError(Unauthorized, GoogleFailurePrefix + check.message))
  {
    match check
    case UserInfo(data) => Ok(data)
    case Rejected => Err(HttpError(Unauthorized, "Invalid Google token"))
    case Failed(message) => Err(HttpError(Unauthorized, GoogleFailurePrefix + message))
    case TokenInfo(aud, data) =>
      if aud != Some(clientId) then Err(HttpError(Unauthorized, "Token not issued for this application"))
      else Ok(GoogleData(data.sub, None, data.email, data.name, data.picture))
  }

  /** `google_user_data.get("sub") or google_user_data.get("id")`. */
  function GoogleId(data: GoogleData): Option<string> {
    if Present(data.sub) then data.sub else data.id
  }

  /** `email.split("@")[0]`: the text before the first "@", or all of it. */
  function EmailPrefix(email: string): (p: string)
    ensures StartsWith(email, p)
    ensures forall i :: 0 <= i < |p| ==> p[i] != '@'
    ensures |p| < |email| ==> email[|p|] == '@'
  {
    match FindChar(email, '@')
    case None => email
    case Some(k) => email[..k]
  }

  /** An existing row signed in through Google: the Google id and provider
      are set, the account is verified, and the avatar and full name are
      filled only where they were empty. */
  function MergeGoogleUser(u: User, googleId: string, name: Option<string>, picture: Option<string>): (m: User)
    ensures m.googleId == Some(googleId) && m.provider == Google && m.isVerified
    ensures m.avatarUrl == if Present(picture) && !Present(u.avatarUrl) then picture else u.avatarUrl
    ensures m.fullName == if Present(name) && !Present(u.fullName) then name else u.fullName
    ensures m.email == u.email && m.username == u.username && m.hashedPassword == u.hashedPassword
    ensures m.isActive == u.isActive
  {
    var m := u.(googleId := Some(googleId), provider := Google);
    var m := if Present(picture) && !Present(m.avatarUrl) then m.(avatarUrl := picture) else m;
    var m := if Present(name) && !Present(m.fullName) then m.(fullName := name) else m;
    m.(isVerified := true)
  }

  /** Signing in again with the same profile changes nothing more. */
  lemma MergeGoogleUserIdempotent(u: User, googleId: string, name: Option<string>, picture: Option<string>)
    ensures var m := MergeGoogleUser(u, googleId, name, picture);
      MergeGoogleUser(m, googleId, name, picture) == m
  {
  }

  /** The row created for a first Google sign-in. */
  function NewGoogleUser(email: string, googleId: string, name: Option<string>, picture: Option<string>): (u: User)
    ensures u.email == email && u.googleId == Some(googleId) && u.provider == Google
    ensures u.username == Some(EmailPrefix(email)) && u.fullName == name && u.avatarUrl == picture
    ensures u.isActive && u.isVerified && u.hashedPassword.None?
  {
    User(email, Some(EmailPrefix(email)), None, name, true, true, Google, Some(googleId), picture)
  }

  /** The row a Google sign-in leaves staged for commit, and the table it
      would commit: the first matching row merged, or a new row appended. */
  function StagedGoogleUser(users: seq<User>, email: string, googleId: string,
                            name: Option<string>, picture: Option<string>): (r: (User, seq<User>))
  {
    match FindForGoogle(users, email, googleId)
    case Some(i) =>
      var m := MergeGoogleUser(users[i], googleId, name, picture);
      (m, users[i := m])
    case None =>
      var n := NewGoogleUser(email, googleId, name, picture);
      (n, users + [n])
  }

  /** `authenticate_google_user` on a table: the outcome and the table after
      the commit (or the rollback). `clientId` is the configured client id,
      unset or empty meaning not configured; `dbMessage` is the database's
      text for a failed commit. */
  function GoogleOutcome(users: seq<User>, clientId: Option<string>, check: TokenCheck,
                         dbMessage: string): (r: (Result<User, HttpError>, seq<User>))
    ensures r.0.Err? ==> r.1 == users
    ensures !Present(clientId) ==> r.0 == Err(HttpError(ServerError, "Google OAuth not configured"))
    ensures Present(clientId) && GoogleProfile(check, clientId.value).Err? ==>
      r.0 == Err(GoogleProfile(check, clientId.value).error)
    ensures Present(clientId) && GoogleProfile(check, clientId.value).Ok? ==>
      var data := GoogleProfile(check, clientId.value).value;
      Present(data.email) && Present(GoogleId(data)) ==>
        var staged := StagedGoogleUser(users, data.email.value, GoogleId(data).value, data.name, data.picture);
        && (r.0.Ok? <==> Consistent(staged.1))
        && (r.0.Ok? ==> r == (Ok(staged.0), staged.1))
        && (r.0.Err? ==> r.0 == Err(HttpError(Unauthorized, GoogleFailurePrefix + dbMessage)))
    ensures Consistent(users) ==> Consistent(r.1)
  {
    if !Present(clientId) then (Err(HttpError(ServerError, "Google OAuth not configured")), users)
    else match GoogleProfile(check, clientId.value)
      case Err(e) => (Err(e), users)
      case Ok(data) =>
        if !Present(data.email) then (Err(HttpError(BadRequest, "Email not provided by Google")), users)
        else if !Present(GoogleId(data)) then (Err(HttpError(BadRequest, "Google ID not provided")), users)
        else
          var email, gid := data.email.value, GoogleId(data).value;
          var (user, table) := StagedGoogleUser(users, email, gid, data.name, data.picture);
          if Consistent(table) then (Ok(user), table)
          else (Err(HttpError(Unauthorized, GoogleFailurePrefix + dbMessage)), users)
  }

  /** The two missing-field checks come in the source's order: a profile
      without an email is refused for that, whatever its Google id. */
  lemma GoogleMissingFields(users: seq<User>, clientId: string, data: GoogleData, dbMessage: string)
    requires clientId != ""
    ensures !Present(data.email) ==>
      GoogleOutcome(users, Some(clientId), UserInfo(data), dbMessage).0 == Err(HttpError(BadRequest, "Email not provided by Google"))
    ensures Present(data.email) && !Present(GoogleId(data)) ==>
      GoogleOutcome(users, Some(clientId), UserInfo(data), dbMessage).0 == Err(HttpError(BadRequest, "Google ID not provided"))
  {
  }

  /** A successful Google sign-in either merges into the first row that
      matches by email or Google id, leaving every other row alone, or, when
      no row matches, appends a new verified row named after the email. */
  lemma GoogleSignInEffect(users: seq<User>, clientId: Option<string>, check: TokenCheck, dbMessage: string)
    requires GoogleOutcome(users, clientId, check, dbMessage).0.Ok?
    ensures Present(clientId)
    ensures var data := GoogleProfile(check, clientId.value).value;
      var (r, table) := GoogleOutcome(users, clientId, check, dbMessage);
      var email, gid := data.email.value, GoogleId(data).value;
      match FindForGoogle(users, email, gid)
      case Some(i) =>
        && table == users[i := r.value]
        && r.value == MergeGoogleUser(users[i], gid, data.name, data.picture)
      case None =>
        && table == users + [r.value]
        && r.value.username == Some(EmailPrefix(email))
        && r.value.isActive && r.value.isVerified
  {
  }

  /** A first Google sign-in commits exactly when no row already has the
      email's prefix as its username: the new row's email and Google id match
      no row, so only the username can clash. */
  lemma NewGoogleUserCommits(users: seq<User>, email: string, googleId: string,
                             name: Option<string>, picture: Option<string>)
    requires Consistent(users)
    requires forall i :: 0 <= i < |users| ==> !GoogleMatch(users[i], email, googleId)
    ensures Consistent(users + [NewGoogleUser(email, googleId, name, picture)]) <==>
      forall i :: 0 <= i < |users| ==> users[i].username != Some(EmailPrefix(email))
  {
    var n := NewGoogleUser(email, googleId, name, picture);
    var t := users + [n];
    if exists i :: 0 <= i < |users| && users[i].username == Some(EmailPrefix(email)) {
      var i :| 0 <= i < |users| && users[i].username == Some(EmailPrefix(email));
      assert t[i].username == t[|users|].username;
    } else {
      forall i, j | 0 <= i < j < |t|
        ensures t[i].email != t[j].email
        ensures t[i].username.Some? ==> t[i].username != t[j].username
        ensures t[i].googleId.Some? ==> t[i].googleId != t[j].googleId
      {
        if j == |users| {
          assert !GoogleMatch(users[i], email, googleId);
        }
      }
    }
  }

  /** Whichever matching row the query returns, merging into it commits
      exactly when no other row already holds the Google id: the merged row
      keeps its email and username, and only its Google id can clash. */
  lemma MergeIntoMatchCommits(users: seq<User>, i: nat, email: string, googleId: string,
                              name: Option<string>, picture: Option<string>)
    requires Consistent(users) && i < |users| && GoogleMatch(users[i], email, googleId)
    ensures Consistent(users[i := MergeGoogleUser(users[i], googleId, name, picture)]) <==>
      forall j :: 0 <= j < |users| && j != i ==> users[j].googleId != Some(googleId)
  {
    var t := users[i := MergeGoogleUser(users[i], googleId, name, picture)];
    if exists j :: 0 <= j < |users| && j != i && users[j].googleId == Some(googleId) {
      var j :| 0 <= j < |users| && j != i && users[j].googleId == Some(googleId);
      assert t[j].googleId == t[i].googleId;
    }
  }
  /** When a good profile reaches the table of a consistent database, the
      sign-in succeeds exactly when its commit cannot clash: a returning user
      is refused only if another row holds the Google id, a first sign-in only
      if the email's prefix is already a username. */
  lemma GoogleSignInSucceeds(users: seq<User>, clientId: string, data: GoogleData, dbMessage: string)
    requires Consistent(users) && clientId != ""
    requires Present(data.email) && Present(GoogleId(data))
    ensures var email, gid := data.email.value, GoogleId(data).value;
      GoogleOutcome(users, Some(clientId), UserInfo(data), dbMessage).0.Ok? <==>
        match FindForGoogle(users, email, gid)
        case Some(i) => forall j :: 0 <= j < |users| && j != i ==> users[j].googleId != Some(gid)
        case None => forall j :: 0 <= j < |users| ==> users[j].username != Some(EmailPrefix(email))
  {
    var email, gid := data.email.value, GoogleId(data).value;
    match FindForGoogle(users, email, gid)
    case Some(i) => MergeIntoMatchCommits(users, i, email, gid, data.name, data.picture);
    case None => NewGoogleUserCommits(users, email, gid, data.name, data.picture);
  }


  // ===========================================================================
  // The table as the service changes it

  class UserTable {
    var users: seq<User>

    predicate Valid()
      reads this
    {
      Consistent(users)
    }

    constructor()
      ensures users == [] && Valid()
    {
      users := [];
    }

    /** `register_user`, with the password hash computed by `hash`. */
    method RegisterUser(email: string, username: Option<string>, fullName: Option<string>,
                        password: string, hash: string -> string) returns (r: Result<User, HttpError>)
      requires Valid()
      modifies this
      ensures (r, users) == RegisterOutcome(old(users), email, username, fullName, hash(password))
      ensures Valid()
    {
      if FindByEmail(users, email).Some? {
        return Err(HttpError(BadRequest, "Email already registered"));
      }
      var user := NewEmailUser(email, username, fullName, hash(password));
      if Consistent(users + [user]) {
        users := users + [user];
        r := Ok(user);
      } else {
        r := Err(HttpError(BadRequest, "Username or email already exists"));
      }
    }

    /** The lookup and the field-by-field update of the matched row, or the
        new row, before the commit. */
    method StageGoogleUser(email: string, googleId: string, name: Option<string>, picture: Option<string>)
      returns (user: User, table: seq<User>)
      ensures (user, table) == StagedGoogleUser(users, email, googleId, name, picture)
    {
      table := users;
      match FindForGoogle(users, email, googleId) {
        case Some(i) =>
          user := users[i];
          if user.googleId != Some(googleId) {
            user := user.(googleId := Some(googleId));
          }
          if user.provider != Google {
            user := user.(provider := Google);
          }
          if Present(picture) && !Present(user.avatarUrl) {
            user := user.(avatarUrl := picture);
          }
          if Present(name) && !Present(user.fullName) {
            user := user.(fullName := name);
          }
          user := user.(isVerified := true);
          table := table[i := user];
        case None =>
          user := NewGoogleUser(email, googleId, name, picture);
          table := table + [user];
      }
    }

    /** `authenticate_google_user`: the matched row is updated field by field
        in place, then committed. */
    method AuthenticateGoogleUser(clientId: Option<string>, check: TokenCheck, dbMessage: string)
      returns (r: Result<User, HttpError>)
      requires Valid()
      modifies this
      ensures (r, users) == GoogleOutcome(old(users), clientId, check, dbMessage)
      ensures Valid()
    {
      if !Present(clientId) {
        return Err(HttpError(ServerError, "Google OAuth not configured"));
      }
      var profile := GoogleProfile(check, clientId.value);
      if profile.Err? {
        return Err(profile.error);
      }
      var data := profile.value;
      if !Present(data.email) {
        return Err(HttpError(BadRequest, "Email not provided by Google"));
      }
      if !Present(GoogleId(data)) {
        return Err(HttpError(BadRequest, "Google ID not provided"));
      }
      var user, table := StageGoogleUser(data.email.value, GoogleId(data).value, data.name, data.picture);
      if Consistent(table) {
        users := table;
        r := Ok(user);
      } else {
        r := Err(HttpError(Unauthorized, GoogleFailurePrefix + dbMessage));
      }
    }
  }
}
