/** The authentication routes of the backend (backend/app/api/routes/auth.py)
    over the `users` table: e-mail registration, password login, the session
    view, and Google sign-in with its find-or-create step. Password hashing,
    its check and JWT signing are parameters: `hashed` is what the hasher
    returned for the submitted password, `verify(plain, hash)` is the hash
    check, and `sign(subject)` is the access token issued for a username. */
module Auth {
  import opened Wrappers
  import opened Http
  import Js

  /** A row of the `users` table, with the columns the routes read and write. */
  datatype User = User(
    id: nat,
    email: string,
    username: string,
    hashedPassword: string,
    name: Option<string>,
    profileImage: Option<string>,
    isActive: bool)

  /** Python truthiness of an optional string: present and non-empty. */
  predicate Given(s: Option<string>) {
    s.Some? && s.value != ""
  }

  /** Rows are numbered 1, 2, ... in insertion order, as the database assigns. */
  predicate Numbered(users: seq<User>) {
    forall i :: 0 <= i < |users| ==> users[i].id == i + 1
  }

  /** What a route returns together with the table it leaves behind. */
  datatype Outcome<T> = Outcome(users: seq<User>, result: Result<T, HttpError>)

  // ---------------------------------------------------------------- lookup

  /** The first row with this e-mail, searching from row `i` on. */
  function FirstWithEmailFrom(users: seq<User>, email: string, i: nat): (k: Option<nat>)
    requires i <= |users|
    ensures k.Some? ==> i <= k.value < |users| && users[k.value].email == email
    ensures k.Some? ==> forall j :: i <= j < k.value ==> users[j].email != email
    ensures k.None? ==> forall j :: i <= j < |users| ==> users[j].email != email
    decreases |users| - i
  {
    if i == |users| then None
    else if users[i].email == email then Some(i)
    else FirstWithEmailFrom(users, email, i + 1)
  }

  /** `query(User).filter(User.email == email).first()`: the earliest row with
      that e-mail. */
  function FirstWithEmail(users: seq<User>, email: string): (k: Option<nat>)
    ensures k.Some? ==> k.value < |users| && users[k.value].email == email
    ensures k.Some? ==> forall j :: 0 <= j < k.value ==> users[j].email != email
    ensures k.None? <==> forall j :: 0 <= j < |users| ==> users[j].email != email
  {
    FirstWithEmailFrom(users, email, 0)
  }

  /** The register check: some row has the address as its e-mail or as its
      username. */
  predicate Taken(users: seq<User>, email: string) {
    exists i :: 0 <= i < |users| && (users[i].email == email || users[i].username == email)
  }

  // ---------------------------------------------------------------- display

  /** `email.split('@')[0]`: the text before the first `@`, or the whole
      address when it has none. */
  function LocalPart(email: string): (p: string)
    ensures p <= email
    ensures '@' !in p
    ensures |p| < |email| ==> email[|p|] == '@'
  {
    var parts := Js.Split(email, '@');
    Js.SplitPartsWithoutSeparator(email, '@', 0);
    Js.JoinSplit(email, '@');
    if |parts| > 1 then
      assert Js.Join(parts, '@') == parts[0] + ['@'] + Js.Join(parts[1..], '@');
      parts[0]
    else
      parts[0]
  }

  /** The name shown for a user: the stored name, else the local part of the
      e-mail address. */
  function DisplayName(u: User): (n: string)
    ensures Given(u.name) ==> n == u.name.value
    ensures !Given(u.name) ==> n <= u.email && '@' !in n
  {
    Js.OrElse(u.name, LocalPart(u.email))
  }

  /** The `user` object of the login, register and session answers. */
  datatype SessionUser = SessionUser(id: string, email: string, name: string, image: Option<string>)

  /** A login or register answer: the bearer token and the user. */
  datatype AuthResponse = AuthResponse(accessToken: string, tokenType: string, user: SessionUser)

  /** `get_session`'s user object. */
  function SessionOf(u: User): SessionUser {
    SessionUser(Js.ShowInt(u.id), u.email, DisplayName(u), u.profileImage)
  }

  // ---------------------------------------------------------------- register

  /** The register form after request validation: the address has passed the
      `EmailStr` check (a malformed one is refused with 422 before the route
      runs) and is in its normalised form, with the domain lower-cased. */
  datatype Registration = Registration(email: string, password: string, name: Option<string>)

  const EmailRegistered := HttpError(400, "Email already registered")

  /** `register`: refuses an address any row has as e-mail or username;
      otherwise adds an active row whose username is the address and which
      keeps only the hash of the password, and answers with a token for it. */
  function Register(users: seq<User>, data: Registration, hashed: string, sign: string -> string)
    : (o: Outcome<AuthResponse>)
    ensures Taken(users, data.email) ==> o == Outcome(users, Err(EmailRegistered))
    ensures !Taken(users, data.email) ==>
      && o.result.Ok?
      && |o.users| == |users| + 1 && o.users[..|users|] == users
      && var u := o.users[|users|];
         && u.email == data.email && u.username == data.email && u.isActive
         && u.hashedPassword == hashed && u.name == data.name && u.profileImage == None
         && o.result.value.accessToken == sign(data.email)
  {
    if Taken(users, data.email) then Outcome(users, Err(EmailRegistered))
    else
      var u := User(|users| + 1, data.email, data.email, hashed, data.name, None, true);
      var shown := Js.OrElse(data.name, Js.OrElse(u.name, LocalPart(u.email)));
      assert (users + [u])[..|users|] == users;
      Outcome(users + [u], Ok(AuthResponse(sign(u.username), "bearer",
        SessionUser(Js.ShowInt(u.id), u.email, shown, u.profileImage))))
  }

  /** The register answer shows the new row exactly as the session view
      would: the submitted name, else the local part of the address. */
  lemma RegisterShowsSession(users: seq<User>, data: Registration, hashed: string, sign: string -> string)
    requires !Taken(users, data.email)
    ensures var o := Register(users, data, hashed, sign);
      o.result.value.user == SessionOf(o.users[|users|])
  {
  }

  /** Registering keeps the rows numbered. */
  lemma RegisterKeepsNumbered(users: seq<User>, data: Registration, hashed: string, sign: string -> string)
    requires Numbered(users)
    ensures Numbered(Register(users, data, hashed, sign).users)
  {
  }

  // ---------------------------------------------------------------- login

  const BadCredentials := HttpError(401, "Incorrect email or password")
  const InactiveAccount := HttpError(403, "User account is inactive")

  /** `login`: the earliest row with the address must exist and its hash must
      accept the password, else 401; only then is an inactive account
      refused with 403. `email` is the validated, normalised address, as for
      `Registration`. */
  function Login(users: seq<User>, email: string, password: string,
                 verify: (string, string) -> bool, sign: string -> string)
    : (r: Result<AuthResponse, HttpError>)
    ensures var k := FirstWithEmail(users, email);
      && (r == Err(BadCredentials) <==> k.None? || !verify(password, users[k.value].hashedPassword))
      && (r == Err(InactiveAccount) <==>
            k.Some? && verify(password, users[k.value].hashedPassword) && !users[k.value].isActive)
      && (r.Ok? ==> r.value == AuthResponse(sign(users[k.value].username), "bearer", SessionOf(users[k.value])))
  {
    var k := FirstWithEmail(users, email);
    if k.None? || !verify(password, users[k.value].hashedPassword) then Err(BadCredentials)
    else
      var u := users[k.value];
      if !u.isActive then Err(InactiveAccount)
      else Ok(AuthResponse(sign(u.username), "bearer", SessionOf(u)))
  }

  /** A fresh registration can log in with the same password at once (given a
      hash check that accepts the password it hashed). */
  lemma {:induction false} RegisterThenLogin(users: seq<User>, data: Registration, hashed: string,
                                             verify: (string, string) -> bool, sign: string -> string)
    requires !Taken(users, data.email)
    requires verify(data.password, hashed)
    ensures var o := Register(users, data, hashed, sign);
      Login(o.users, data.email, data.password, verify, sign) == Ok(o.result.value)
  {
    var o := Register(users, data, hashed, sign);
    var k := FirstWithEmail(o.users, data.email);
    assert o.users[|users|].email == data.email;
    assert forall j :: 0 <= j < |users| ==> o.users[j].email != data.email by {
      forall j | 0 <= j < |users|
        ensures o.users[j].email != data.email
      {
        assert o.users[j] == users[j];
      }
    }
    assert k == Some(|users|);
    RegisterShowsSession(users, data, hashed, sign);
  }

  /** `login_for_access_token`, the form login of the API docs: the same
      credential check as `login`, with no check that the account is active. */
  function TokenLogin(users: seq<User>, username: string, password: string,
                      verify: (string, string) -> bool, sign: string -> string)
    : (r: Result<string, HttpError>)
    ensures var k := FirstWithEmail(users, username);
      && (r.Err? <==> k.None? || !verify(password, users[k.value].hashedPassword))
      && (r.Err? ==> r.error == BadCredentials)
      && (r.Ok? ==> r.value == sign(users[k.value].username))
  {
    var k := FirstWithEmail(users, username);
    if k.None? || !verify(password, users[k.value].hashedPassword) then Err(BadCredentials)
    else Ok(sign(users[k.value].username))
  }

  /** Where the two logins disagree: an inactive account with the right
      password is refused by `login` and still gets a token from the form
      login. */
  lemma TokenLoginAdmitsInactive(users: seq<User>, email: string, password: string,
                                 verify: (string, string) -> bool, sign: string -> string)
    requires FirstWithEmail(users, email).Some?
    requires var u := users[FirstWithEmail(users, email).value];
      verify(password, u.hashedPassword) && !u.isActive
    ensures Login(users, email, password, verify, sign) == Err(InactiveAccount)
    ensures TokenLogin(users, email, password, verify, sign).Ok?
  {
  }

  // ---------------------------------------------------------------- Google

  /** The Google settings; a client id or secret that is unset or empty counts
      as not configured. */
  datatype GoogleConfig = GoogleConfig(
    clientId: Option<string>,
    clientSecret: Option<string>,
    redirectUri: string,
    frontendUrl: string)

  const GoogleNotConfigured := HttpError(501, "Google OAuth is not configured")
  const ExchangeFailed := HttpError(400, "Failed to exchange code for token")
  const UserInfoFailed := HttpError(400, "Failed to get user info from Google")

  const GoogleAuthBase := "https://accounts.google.com/o/oauth2/v2/auth?"

  /** `google_login`: 501 without a client id, otherwise the consent URL for
      this client and redirect address. */
  function GoogleLogin(c: GoogleConfig): (r: Result<string, HttpError>)
    ensures r.Err? <==> !Given(c.clientId)
    ensures r.Err? ==> r.error == GoogleNotConfigured
    ensures r.Ok? ==> Js.StartsWith(r.value, GoogleAuthBase + "client_id=" + c.clientId.value + "&redirect_uri=")
  {
    if !Given(c.clientId) then Err(GoogleNotConfigured)
    else
      var prefix := GoogleAuthBase + "client_id=" + c.clientId.value + "&redirect_uri=";
      var url := prefix + c.redirectUri + "&response_type=code&scope=openid%20email%20profile"
        + "&access_type=offline&prompt=consent";
      assert url[..|prefix|] == prefix;
      Ok(url)
  }

  /** What Google reports about the signed-in person. */
  datatype GoogleProfile = GoogleProfile(email: string, name: Option<string>, picture: Option<string>)

  /** An existing row after sign-in: the picture and the name are replaced
      when Google sends a non-empty one that differs. */
  function Refresh(u: User, info: GoogleProfile): (v: User)
    ensures v.profileImage == if Given(info.picture) then info.picture else u.profileImage
    ensures v.name == if Given(info.name) then info.name else u.name
    ensures v.(profileImage := u.profileImage, name := u.name) == u
  {
    var image := if Given(info.picture) && u.profileImage != info.picture then info.picture else u.profileImage;
    var name := if Given(info.name) && u.name != info.name then info.name else u.name;
    u.(profileImage := image, name := name)
  }

  /** The redirect back to the storefront carrying the token. */
  function CallbackUrl(c: GoogleConfig, token: string): string {
    c.frontendUrl + "/auth-callback?token=" + token
  }

  /** `google_callback`: 501 unless both the client id and secret are set, 400
      when either call to Google answers other than 200; then the earliest row
      with Google's address is refreshed, or a new active row is added whose
      password hash is `hashedEmpty` (the hash of ""), and the browser is sent
      back with a token for that row. */
  function GoogleCallback(users: seq<User>, c: GoogleConfig, tokenStatus: int, infoStatus: int,
                          info: GoogleProfile, hashedEmpty: string, sign: string -> string)
    : (o: Outcome<string>)
    ensures !Given(c.clientId) || !Given(c.clientSecret) ==> o == Outcome(users, Err(GoogleNotConfigured))
    ensures o.result.Err? ==> o.users == users
    ensures o.result.Ok? <==> Given(c.clientId) && Given(c.clientSecret) && tokenStatus == 200 && infoStatus == 200
  {
    if !Given(c.clientId) || !Given(c.clientSecret) then Outcome(users, Err(GoogleNotConfigured))
    else if tokenStatus != 200 then Outcome(users, Err(ExchangeFailed))
    else if infoStatus != 200 then Outcome(users, Err(UserInfoFailed))
    else
      match FirstWithEmail(users, info.email)
      case None =>
        var u := User(|users| + 1, info.email, info.email, hashedEmpty, info.name, info.picture, true);
        Outcome(users + [u], Ok(CallbackUrl(c, sign(u.username))))
      case Some(k) =>
        var u := Refresh(users[k], info);
        Outcome(users[k := u], Ok(CallbackUrl(c, sign(u.username))))
  }

  /** After a successful callback the address belongs to a row: a new active
      one with Google's name and picture appended at the end when the address
      was unknown, otherwise the earliest such row, refreshed in place, with
      every other row unchanged. */
  lemma GoogleCallbackRows(users: seq<User>, c: GoogleConfig, tokenStatus: int, infoStatus: int,
                           info: GoogleProfile, hashedEmpty: string, sign: string -> string)
    requires GoogleCallback(users, c, tokenStatus, infoStatus, info, hashedEmpty, sign).result.Ok?
    ensures var o := GoogleCallback(users, c, tokenStatus, infoStatus, info, hashedEmpty, sign);
      match FirstWithEmail(users, info.email)
      case None =>
        && o.users == users + [User(|users| + 1, info.email, info.email, hashedEmpty, info.name, info.picture, true)]
        && o.result.value == CallbackUrl(c, sign(info.email))
      case Some(k) =>
        && |o.users| == |users|
        && o.users[k] == Refresh(users[k], info)
        && (forall j :: 0 <= j < |users| && j != k ==> o.users[j] == users[j])
        && o.result.value == CallbackUrl(c, sign(users[k].username))
  {
  }

  /** The callback does not look at `is_active`: an inactive account that
      `login` refuses is signed in through Google. */
  lemma GoogleAdmitsInactive(users: seq<User>, c: GoogleConfig, info: GoogleProfile,
                             hashedEmpty: string, sign: string -> string)
    requires Given(c.clientId) && Given(c.clientSecret)
    requires FirstWithEmail(users, info.email).Some?
    requires !users[FirstWithEmail(users, info.email).value].isActive
    ensures GoogleCallback(users, c, 200, 200, info, hashedEmpty, sign).result.Ok?
  {
  }

  /** The callback keeps the rows numbered and finds the address afterwards. */
  lemma GoogleCallbackKeepsNumbered(users: seq<User>, c: GoogleConfig, tokenStatus: int, infoStatus: int,
                                    info: GoogleProfile, hashedEmpty: string, sign: string -> string)
    requires Numbered(users)
    ensures var o := GoogleCallback(users, c, tokenStatus, infoStatus, info, hashedEmpty, sign);
      && Numbered(o.users)
      && (o.result.Ok? ==> FirstWithEmail(o.users, info.email).Some?)
  {
    var o := GoogleCallback(users, c, tokenStatus, infoStatus, info, hashedEmpty, sign);
    if o.result.Ok? {
      match FirstWithEmail(users, info.email)
      case None =>
        assert o.users[|users|].email == info.email;
      case Some(k) =>
        assert o.users[k].email == info.email;
    }
  }

  /** Signing in twice with the same profile changes nothing the second time:
      the same row is found and it already carries Google's name and picture. */
  lemma {:induction false} GoogleCallbackIdempotent(users: seq<User>, c: GoogleConfig, info: GoogleProfile,
                                                    hashedEmpty: string, sign: string -> string)
    requires Given(c.clientId) && Given(c.clientSecret)
    ensures var once := GoogleCallback(users, c, 200, 200, info, hashedEmpty, sign);
      var twice := GoogleCallback(once.users, c, 200, 200, info, hashedEmpty, sign);
      twice == once
  {
    var once := GoogleCallback(users, c, 200, 200, info, hashedEmpty, sign);
    var after := once.users;
    match FirstWithEmail(users, info.email)
    case None =>
      var n := |users|;
      assert after[n].email == info.email;
      assert forall j :: 0 <= j < n ==> after[j].email != info.email by {
        forall j | 0 <= j < n
          ensures after[j].email != info.email
        {
          assert after[j] == users[j];
        }
      }
      assert FirstWithEmail(after, info.email) == Some(n);
      assert Refresh(after[n], info) == after[n];
      assert after[n := after[n]] == after;
    case Some(k) =>
      assert forall j :: 0 <= j < k ==> after[j].email != info.email by {
        forall j | 0 <= j < k
          ensures after[j].email != info.email
        {
          assert after[j] == users[j];
        }
      }
      assert after[k] == Refresh(users[k], info);
      assert after[k].email == info.email;
      assert FirstWithEmail(after, info.email) == Some(k);
      assert Refresh(after[k], info) == after[k];
      assert after[k := after[k]] == after;
  }

  // ---------------------------------------------------------------- table

  /** The `users` table, changed in place by registration and Google sign-in. */
  class UserTable {
    var users: seq<User>

    ghost predicate Valid()
      reads this
    {
      Numbered(users)
    }

    constructor()
      ensures users == [] && Valid()
    {
      users := [];
    }

    /** `register`: looks the address up, then adds the row and answers. */
    method RegisterUser(data: Registration, hashed: string, sign: string -> string)
      returns (r: Result<AuthResponse, HttpError>)
      requires Valid()
      modifies this
      ensures Valid()
      ensures Outcome(users, r) == Register(old(users), data, hashed, sign)
    {
      RegisterKeepsNumbered(users, data, hashed, sign);
      if Taken(users, data.email) {
        return Err(EmailRegistered);
      }
      var row := User(|users| + 1, data.email, data.email, hashed, data.name, None, true);
      users := users + [row];
      var shown := Js.OrElse(data.name, Js.OrElse(row.name, LocalPart(row.email)));
      r := Ok(AuthResponse(sign(row.username), "bearer",
                           SessionUser(Js.ShowInt(row.id), row.email, shown, row.profileImage)));
    }

    /** `google_callback`: the guards, then the find-or-create step, which
        updates the found row's picture and name one field at a time. */
    method SignInWithGoogle(c: GoogleConfig, tokenStatus: int, infoStatus: int,
                            info: GoogleProfile, hashedEmpty: string, sign: string -> string)
      returns (r: Result<string, HttpError>)
      requires Valid()
      modifies this
      ensures Valid()
      ensures Outcome(users, r) == GoogleCallback(old(users), c, tokenStatus, infoStatus, info, hashedEmpty, sign)
    {
      GoogleCallbackKeepsNumbered(users, c, tokenStatus, infoStatus, info, hashedEmpty, sign);
      if !Given(c.clientId) || !Given(c.clientSecret) {
        return Err(GoogleNotConfigured);
      }
      if tokenStatus != 200 {
        return Err(ExchangeFailed);
      }
      if infoStatus != 200 {
        return Err(UserInfoFailed);
      }
      var found := FirstWithEmail(users, info.email);
      if found.None? {
        var row := User(|users| + 1, info.email, info.email, hashedEmpty, info.name, info.picture, true);
        users := users + [row];
        return Ok(CallbackUrl(c, sign(row.username)));
      }
      var k := found.value;
      var row := users[k];
      if Given(info.picture) && row.profileImage != info.picture {
        row := row.(profileImage := info.picture);
      }
      if Given(info.name) && row.name != info.name {
        row := row.(name := info.name);
      }
      users := users[k := row];
      r := Ok(CallbackUrl(c, sign(row.username)));
    }
  }
}
