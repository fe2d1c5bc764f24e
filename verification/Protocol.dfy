/** The handlers of routes.go as functions from a state and a request to a state and a reply.
    Random values and signed token strings are parameters; None stands for a failing random source
    or signer. A handler runs at one clock reading. */
module Protocol {
  import opened Wrappers
  import opened GoStrings
  import opened Decimal
  import opened Base64
  import opened Passwords
  import opened Keys
  import opened Redis
  import opened Accounts
  import opened Jwt
  import opened TokenStore
  import opened QueryStrings
  import Settings = SettingsUpdate

  // ---- configuration and state ----

  datatype Client = Client(clientId: string, clientSecret: string, redirectURI: string, isPublic: bool)

  /** The registered applications, found by their own client_id. */
  type Clients = m: map<string, Client> | forall id :: id in m ==> m[id].clientId == id

  /** What does not change while the service runs. */
  datatype Config = Config(
    clients: Clients,
    crypto: Crypto,
    emailIsValid: string -> bool,
    rowFits: Registration -> bool,             // whether a new row fits the column types
    fits: (Settings.Column, string) -> bool,   // and a single value its column's
    frontendURL: string)

  datatype State = State(
    now: int,
    store: Store<Key>,
    table: Table,
    issued: Issued,
    // History no handler reads: when each session was inserted, which random values were
    // handed out, and the password each account was last given.
    openedAt: map<Key, int>,
    used: set<string>,
    passwords: map<int64, string>)

  datatype Reply =
    | Refused(status: int, reason: string)
    | Done
    | NoBody                                                  // the handler returned without answering
    | Tokens(access: string, refresh: string, setup: seq<string>)
    | Refreshed(newAccess: string, newRefresh: Option<string>)
    | Active(sub: string, exp: int, tokenType: TokenType)
    | Inactive
    | ToLogin(loginURL: string)
    | Callback(url: string)
    | Profile(account: Account)
    | Updated(answers: seq<Settings.Answer>)

  /** A nil dereference, answered by gin's recovery middleware. */
  const PANIC := Refused(500, "panic")

  const SERVER_ERROR := Refused(500, "Server error")

  // ---- building blocks ----

  function Issue(s: State, token: string, claims: Claims, parent: Option<string>): State {
    s.(issued := s.issued[token := Grant(claims, parent)])
  }

  function IssueIfSigned(s: State, token: Option<string>, claims: Claims, parent: Option<string>): State {
    match token
    case Some(t) => Issue(s, t, claims, parent)
    case None => s
  }

  function PutTicket(s: State, k: Key, value: string, fields: Fields, ttl: int): State {
    s.(store := PutHash(s.store, s.now, k, fields, ttl), used := s.used + {value})
  }

  function OpenSession(s: State, userId: int64, sid: string, data: Fields): State {
    var uid := FormatInt(userId);
    s.(store := InsertSession(s.store, s.now, uid, sid, data, SESSION_TTL),
       openedAt := s.openedAt[Session(uid, sid) := s.now],
       used := s.used + {sid})
  }

  function SetAccountPassword(s: State, email: string, encoded: string, password: string): State {
    s.(table := SetPassword(s.table, email, encoded),
       passwords := if email in s.table.byEmail then s.passwords[s.table.byEmail[email] := password]
                    else s.passwords)
  }

  function UserClaims(user: Account, t: TokenType, now: int, nonce: string, sid: string, client: Client): Claims {
    NewClaims(user.userId, user.email, user.firstName, user.lastName.GetOr(""), t, now, nonce, sid,
              user.countryCode.GetOr(""), client.clientId)
  }

  /** A new session for an account, with the refresh and access token that name it. */
  function StartSession(s: State, user: Account, client: Client, nonce: string, sid: string, data: Fields,
                        refresh: Option<string>, access: Option<string>): State
  {
    var s1 := OpenSession(s, user.userId, sid, data);
    var s2 := IssueIfSigned(s1, refresh, UserClaims(user, Refresh, s.now, nonce, sid, client), None);
    IssueIfSigned(s2, access, UserClaims(user, Access, s.now, nonce, sid, client), None)
  }

  // ---- POST /login ----

  datatype LoginRequest = LoginRequest(
    email: string, password: string, nonce: string, clientId: string, redirectURI: string, language: string,
    deviceModel: string, deviceName: string)

  /** ticket is empty when createToken's random source failed. */
  datatype LoginRandom = LoginRandom(
    ticket: string, salt: Option<seq<Byte>>, sid: Option<Token>, refresh: Option<string>, access: Option<string>,
    location: Location)

  function Login(cfg: Config, s: State, req: LoginRequest, rnd: LoginRandom): (State, Reply) {
    if req.clientId == "" then (s, Refused(400, "client_id is required"))
    else if !cfg.emailIsValid(req.email) then (s, Refused(400, "Invalid email"))
    else if req.clientId !in cfg.clients then (s, Refused(401, "Invalid client"))
    else
      var client := cfg.clients[req.clientId];
      if !client.isPublic && client.redirectURI != req.redirectURI then (s, Refused(401, "Invalid redirect URI"))
      else
        match ByEmail(s.table, req.email)
        case None => (s, Refused(401, "Invalid credentials"))
        case Some(user) => LoginUser(cfg, s, req, rnd, client, user)
  }

  function LoginUser(cfg: Config, s: State, req: LoginRequest, rnd: LoginRandom, client: Client, user: Account):
      (State, Reply)
  {
    if !user.isVerified then
      (PutTicket(s, SignUp(rnd.ticket), rnd.ticket, map["email" := user.email], SIGNUP_TTL),
       Refused(401, "verification_pending"))
    else if !CheckPasswordHash(cfg.crypto, req.password, user.password) then
      (s, Refused(401, "Invalid credentials"))
    else if IsLegacyHash(user.password) then
      // The error of HashPassword is overwritten, so a failed hash is stored as the empty string;
      // and the handler returns without writing a response.
      var newHash := HashPassword(cfg.crypto, req.password, rnd.salt).GetOr("");
      (SetAccountPassword(s, user.email, newHash, req.password), NoBody)
    else LoginSession(s, req, rnd, client, user)
  }

  function LoginSession(s: State, req: LoginRequest, rnd: LoginRandom, client: Client, user: Account): (State, Reply) {
    if rnd.sid.None? then (s, Refused(500, "Failed to generate session"))
    else if user.countryCode.None? then (s, PANIC)
    else if rnd.access.None? then (s, Refused(500, "Failed to generate tokens"))
    else
      var sid := rnd.sid.value;
      var setup := if user.countryCode.value == "" then ["countryCode"] else [];
      var data := CreateSessionData(user.userId, req.clientId, req.deviceModel, req.deviceName, req.language,
                                    false, rnd.location);
      (StartSession(s, user, client, req.nonce, sid, data, rnd.refresh, rnd.access),
       Tokens(rnd.access.value, rnd.refresh.GetOr(""), setup))
  }

  // ---- POST /register, GET /verify ----

  datatype RegisterRequest = RegisterRequest(
    email: string, password: string, firstName: string, lastName: string, username: string, countryCode: string)

  datatype RegisterRandom = RegisterRandom(userId: int64, salt: Option<seq<Byte>>, ticket: string)

  /** The error of HashPassword is overwritten; a failed hash is refused as a blank field instead. */
  function Register(cfg: Config, s: State, req: RegisterRequest, rnd: RegisterRandom): (State, Reply) {
    var hashed := HashPassword(cfg.crypto, req.password, rnd.salt).GetOr("");
    var row := Registration(req.email, hashed, req.firstName, req.lastName, req.countryCode, req.username);
    match Insert(s.table, rnd.userId, row, cfg.rowFits)
    case None => (s, SERVER_ERROR)
    case Some(table) =>
      var s1 := s.(table := table, passwords := s.passwords[rnd.userId := req.password]);
      (PutTicket(s1, SignUp(rnd.ticket), rnd.ticket, map["email" := req.email], SIGNUP_TTL), Done)
  }

  function Verify(cfg: Config, s: State, link: string): (State, Reply) {
    if link == "" then (s, Refused(400, "No link passed"))
    else
      var (store, data) := TakeHash(s.store, s.now, SignUp(link));
      if data.None? then (s, Refused(400, "Invalid link"))
      else (s.(store := store, table := SetVerified(s.table, Field(data.value, "email"))), Done)
  }

  // ---- GET /requestReset, POST /reset ----

  function RequestReset(cfg: Config, s: State, mail: string, ticket: string): (State, Reply) {
    if !cfg.emailIsValid(mail) then (s, Refused(400, "Invalid email"))
    else if ByEmail(s.table, mail).None? then (s, Done)
    else (PutTicket(s, Reset(ticket), ticket, map["email" := mail], RESET_TTL), Done)
  }

  function ResetPassword(cfg: Config, s: State, token: string, password: string, salt: Option<seq<Byte>>):
      (State, Reply)
  {
    if token == "" || password == "" then (s, Refused(400, "Invalid request"))
    else
      var (store, data) := TakeHash(s.store, s.now, Reset(token));
      if data.None? then (s, Refused(400, "Invalid request"))
      else
        var s1 := s.(store := store);
        match HashPassword(cfg.crypto, password, salt)
        case None => (s1, SERVER_ERROR)
        case Some(hashed) => (SetAccountPassword(s1, Field(data.value, "email"), hashed, password), Done)
  }

  // ---- GET /authorize ----

  datatype AuthParams = AuthParams(
    clientId: GoString, redirectURI: GoString, responseType: GoString, scope: GoString, state: GoString,
    nonce: GoString, codeChallenge: GoString, codeChallengeMethod: GoString)

  datatype Cookies = Cookies(op: string, access: string, refresh: string)

  datatype AuthRandom = AuthRandom(code: Option<Token>, access: Option<string>)

  datatype Checked = Rejected(reply: Reply) | Accepted(client: Client)

  function CheckParams(cfg: Config, p: AuthParams): Checked {
    if p.clientId == "" || p.redirectURI == "" || p.responseType != "code" || p.scope == "" || p.state == ""
       || p.nonce == "" then Rejected(Refused(400, "Invalid Request"))
    else if p.clientId !in cfg.clients then Rejected(Refused(400, "invalid_client"))
    else
      var client := cfg.clients[p.clientId];
      if client.redirectURI != p.redirectURI then Rejected(Refused(400, "invalid_redirect_uri"))
      else if client.isPublic && (p.codeChallenge == "" || p.codeChallengeMethod != "S256") then
        Rejected(Refused(400, "PKCE required for this client"))
      else Accepted(client)
  }

  /** The parameters carried to the login page, in the key order Values.Encode uses. */
  function LoginParams(client: Client, p: AuthParams): Params {
    [("client_id", p.clientId)]
    + (if client.isPublic then
         [("code_challenge", p.codeChallenge), ("code_challenge_method", p.codeChallengeMethod)]
       else [])
    + [("nonce", p.nonce), ("redirect_uri", p.redirectURI), ("response_type", p.responseType),
       ("scope", p.scope), ("state", p.state)]
  }

  function LoginURL(cfg: Config, client: Client, p: AuthParams): string {
    cfg.frontendURL + "/en/login?" + EncodeQuery(LoginParams(client, p))
  }

  function CodeData(client: Client, p: AuthParams, userId: string): Fields {
    var data := map["user_id" := userId, "client_id" := p.clientId, "redirect_uri" := p.redirectURI,
                    "nonce" := p.nonce, "scope" := p.scope];
    if client.isPublic then data["code_challenge" := p.codeChallenge] else data
  }

  /** Mints the code for a recognised user and redirects back to the client. */
  function MintCode(s: State, client: Client, p: AuthParams, userId: string, code: Option<Token>): (State, Reply) {
    match code
    case None => (s, SERVER_ERROR)
    case Some(c) =>
      (PutTicket(s, AuthCode(c), c, CodeData(client, p, userId), CODE_TTL),
       Callback(CallbackURL(p.redirectURI, c, p.state)))
  }

  function Authorize(cfg: Config, s: State, p: AuthParams, cookies: Cookies, rnd: AuthRandom): (State, Reply) {
    match CheckParams(cfg, p)
    case Rejected(reply) => (s, reply)
    case Accepted(client) =>
      var op := if cookies.op == "" then None else FindHash(s.store, s.now, OpToken(cookies.op));
      if op.Some? && Field(op.value, "blacklisted") != "1" && Field(op.value, "user_id") != "" then
        MintCode(s, client, p, Field(op.value, "user_id"), rnd.code)
      else AuthorizeByCookie(cfg, s, client, p, cookies, rnd)
  }

  function AuthorizeByCookie(cfg: Config, s: State, client: Client, p: AuthParams, cookies: Cookies,
                             rnd: AuthRandom): (State, Reply)
  {
    var toLogin := (s, ToLogin(LoginURL(cfg, client, p)));
    if cookies.access == "" && cookies.refresh == "" then toLogin
    else
      var access := Validate(s.issued, s.now, cookies.access);
      if access.Some? && access.value.tokenType.Access? then
        MintCode(s, client, p, access.value.sub, rnd.code)
      else AuthorizeByRefresh(cfg, s, client, p, cookies.refresh, rnd)
  }

  /** The fallback to the refresh cookie, which must be stored under its own digest. */
  function AuthorizeByRefresh(cfg: Config, s: State, client: Client, p: AuthParams, token: string,
                              rnd: AuthRandom): (State, Reply)
  {
    var toLogin := (s, ToLogin(LoginURL(cfg, client, p)));
    if token == "" then toLogin
    else
      var refresh := Validate(s.issued, s.now, token);
      if refresh.None? || !refresh.value.tokenType.Refresh? then toLogin
      else
        var info := HGetAll(s.store, s.now, Bare(Sha256Hex(cfg.crypto, token)));
        if info.None? || info.value == map[] || Field(info.value, "blacklisted") == "1" then toLogin
        else Reissue(s, client, p, token, refresh.value, Field(info.value, "user_id"), rnd)
  }

  /** The silent reissue of an access token from a stored refresh token. */
  function Reissue(s: State, client: Client, p: AuthParams, token: string, claims: Claims, userId: string,
                   rnd: AuthRandom): (State, Reply)
  {
    match ParseInt(claims.sub)
    case None => (s, SERVER_ERROR)
    case Some(id) =>
      if claims.aud == [] then (s, PANIC)
      else if rnd.access.None? then (s, SERVER_ERROR)
      else
        var reissued := NewClaims(id, claims.email, claims.firstName, claims.lastName, Access, s.now, p.nonce,
                               claims.sid, claims.country, claims.aud[0]);
        MintCode(Issue(s, rnd.access.value, reissued, Some(token)), client, p, userId, rnd.code)
  }

  // ---- POST /token ----

  datatype TokenRequest = TokenRequest(
    code: string, clientId: string, clientSecret: string, redirectURI: string, codeVerifier: string)

  datatype TokenRandom = TokenRandom(
    sid: Option<Token>, refresh: Option<string>, access: Option<string>, location: Location)

  function CheckTokenClient(cfg: Config, req: TokenRequest): Checked {
    if req.code == "" || req.clientId == "" || req.redirectURI == "" then
      Rejected(Refused(400, "Invalid request"))
    else if req.clientId !in cfg.clients then Rejected(Refused(401, "Invalid client"))
    else
      var client := cfg.clients[req.clientId];
      if client.isPublic && req.codeVerifier == "" then
        Rejected(Refused(400, "code_verifier is required for public clients"))
      else if !client.isPublic
              && (req.clientSecret == ""
                  || !CheckPasswordHash(cfg.crypto, req.clientSecret, client.clientSecret)) then
        Rejected(Refused(401, "Invalid client"))
      else if client.redirectURI != req.redirectURI then Rejected(Refused(401, "Invalid client"))
      else Accepted(client)
  }

  function ExchangeCode(cfg: Config, s: State, req: TokenRequest, rnd: TokenRandom): (State, Reply) {
    match CheckTokenClient(cfg, req)
    case Rejected(reply) => (s, reply)
    case Accepted(client) =>
      var (store, data) := TakeHash(s.store, s.now, AuthCode(req.code));
      if data.None? then (s, Refused(401, "Invalid grant"))
      else RedeemCode(cfg, s.(store := store), req, rnd, client, data.value)
  }

  /** From here on the code is gone, whatever the answer. */
  function RedeemCode(cfg: Config, s: State, req: TokenRequest, rnd: TokenRandom, client: Client, data: Fields):
      (State, Reply)
  {
    if Field(data, "client_id") != req.clientId || Field(data, "redirect_uri") != req.redirectURI then
      (s, Refused(401, "Invalid grant"))
    else if client.isPublic && S256(cfg.crypto, req.codeVerifier) != Field(data, "code_challenge") then
      (s, Refused(401, "Invalid grant"))
    else
      match ParseInt(Field(data, "user_id"))
      case None => (s, SERVER_ERROR)
      case Some(id) =>
        match ById(s.table, id)
        case None => (s, Refused(401, "Invalid grant"))
        case Some(user) =>
          if rnd.sid.None? then (s, SERVER_ERROR)
          else if user.countryCode.None? then (s, PANIC)
          else if rnd.refresh.None? || rnd.access.None? then (s, SERVER_ERROR)
          else
            var sid, nonce := rnd.sid.value, Field(data, "nonce");
            var hash := CreateSessionData(user.userId, Field(data, "client_id"), "", "", "", false, rnd.location);
            (StartSession(s, user, client, nonce, sid, hash, rnd.refresh, rnd.access),
             Tokens(rnd.access.value, rnd.refresh.value, []))
  }

  // ---- POST /refresh ----

  datatype RefreshRequest = RefreshRequest(refreshToken: string, updateInfo: bool)

  /** access is signed first; sid, refresh and access2 only when the token is rotated. */
  datatype RefreshRandom = RefreshRandom(
    access: Option<string>, sid: Option<Token>, refresh: Option<string>, access2: Option<string>,
    location: Location)

  datatype Identity = Identity(email: string, firstName: string, lastName: string, country: Option<string>)

  const ROTATION_MARGIN: int := 2 * DAY

  /** Rotation is due when less than two days remain. */
  predicate RotationDue(claims: Claims, now: int) {
    claims.exp - now < ROTATION_MARGIN
  }

  function RefreshTokens(cfg: Config, s: State, req: RefreshRequest, rnd: RefreshRandom): (State, Reply) {
    if req.refreshToken == "" then (s, Refused(400, "invalid_request"))
    else
      var validated := Validate(s.issued, s.now, req.refreshToken);
      if validated.None? || !validated.value.tokenType.Refresh? then (s, Refused(401, "Invalid token"))
      else
        var claims := validated.value;
        match ParseInt(claims.sub)
        case None => (s, SERVER_ERROR)
        case Some(id) =>
          var session := FindHash(s.store, s.now, Session(FormatInt(id), claims.sid));
          if session.None? || Field(session.value, "blacklisted") == "1" then (s, Refused(401, "Invalid token"))
          else
            var user := if req.updateInfo then ById(s.table, id) else None;
            if user.Some? && user.value.lastName.None? then (s, PANIC)
            else if claims.aud == [] then (s, PANIC)
            else if rnd.access.None? then (s, SERVER_ERROR)
            else RefreshSession(s, req.refreshToken, claims, id, session.value, CurrentIdentity(claims, user), rnd)
  }

  /** The token's own details, or the account's when an update was asked for and the account exists. */
  function CurrentIdentity(claims: Claims, user: Option<Account>): Identity {
    match user
    case None => Identity(claims.email, claims.firstName, claims.lastName, Some(claims.country))
    case Some(a) => Identity(a.email, a.firstName, a.lastName.GetOr(""), a.countryCode)
  }

  function RefreshSession(s: State, token: string, claims: Claims, id: int64, session: Fields, who: Identity,
                          rnd: RefreshRandom): (State, Reply)
    requires claims.aud != [] && rnd.access.Some?
  {
    var country := who.country.GetOr("N/A");
    var access := NewClaims(id, who.email, who.firstName, who.lastName, Access, s.now, claims.nonce, claims.sid,
                            country, claims.aud[0]);
    if !RotationDue(claims, s.now) then
      var s1 := s.(store := ExtendSession(s.store, s.now, FormatInt(id), claims.sid));
      (Issue(s1, rnd.access.value, access, Some(token)), Refreshed(rnd.access.value, None))
    else if rnd.sid.None? || rnd.refresh.None? then
      (Issue(s, rnd.access.value, access, Some(token)), Refreshed(rnd.access.value, None))
    else
      (Rotate(s, token, claims, id, Field(session, "client_id"), country, rnd.sid.value, rnd),
       Refreshed(rnd.access2.GetOr(""), Some(rnd.refresh.value)))
  }

  /** DEL of the bare session id, a new session for the same user and client, two new tokens. */
  function Rotate(s: State, token: string, claims: Claims, id: int64, clientId: string, country: string, sid: string,
                  rnd: RefreshRandom): State
    requires claims.aud != []
  {
    var s1 := s.(store := Del(s.store, Bare(claims.sid)));
    var s2 := OpenSession(s1, id, sid, CreateSessionData(id, clientId, "", "", "", false, rnd.location));
    var s3 := IssueIfSigned(s2, rnd.refresh, RotatedClaims(claims, id, Refresh, s.now, sid, country), Some(token));
    IssueIfSigned(s3, rnd.access2, RotatedClaims(claims, id, Access, s.now, sid, country), Some(token))
  }

  function RotatedClaims(claims: Claims, id: int64, t: TokenType, now: int, sid: string, country: string): Claims
    requires claims.aud != []
  {
    NewClaims(id, claims.email, claims.firstName, claims.lastName, t, now, claims.nonce, sid, country, claims.aud[0])
  }

  // ---- POST /logout, POST /introspect, POST /userinfo ----

  function Logout(cfg: Config, s: State, authorization: string): (State, Reply) {
    if authorization == "" then (s, Refused(400, "No token provided"))
    else if !HasPrefix(authorization, "Bearer ") then (s, Refused(401, "Unformatted token"))
    else
      var parts := Split(authorization, "Bearer ");
      var claims := if |parts| > 1 then Validate(s.issued, s.now, parts[1]) else None;
      if claims.None? || !claims.value.tokenType.Refresh? then (s, Refused(401, "Invalid token"))
      else (s.(store := Del(s.store, Bare(claims.value.sid))), Done)
  }

  function Introspect(cfg: Config, s: State, token: string): Reply {
    match Validate(s.issued, s.now, token)
    case None => Inactive
    case Some(claims) =>
      var session := FindHash(s.store, s.now, Session(claims.sub, claims.sid));
      if session.None? || Field(session.value, "blacklisted") == "1" then Inactive
      else Active(claims.sub, claims.exp, claims.tokenType)
  }

  /** The token JWTAuthMiddleware looks at: the header when it mentions a bearer token, else the cookie. */
  function PresentedToken(header: string, cookie: string): string {
    if Contains(header, "Bearer ") then TrimPrefix(header, "Bearer ") else cookie
  }

  /** What JWTAuthMiddleware leaves in the request context, or the answer with which it stops. */
  datatype Auth = Denied(reply: Reply) | Context(userId: int64, sid: string)

  function Authenticate(s: State, header: string, cookie: string): (auth: Auth)
    ensures auth.Denied? ==> auth.reply.Refused? && auth.reply.status == 401
  {
    var token := PresentedToken(header, cookie);
    var claims := Validate(s.issued, s.now, token);
    if token == "" then Denied(Refused(401, "Missing or invalid credentials"))
    else if claims.None? || !claims.value.tokenType.Access? then Denied(Refused(401, "Invalid or expired token"))
    else
      match ParseInt(claims.value.sub)
      case None => Denied(Refused(401, "Invalid or expired token"))
      case Some(id) => Context(id, claims.value.sid)
  }

  function UserInfo(cfg: Config, s: State, header: string, cookie: string): Reply {
    match Authenticate(s, header, cookie)
    case Denied(reply) => reply
    case Context(id, sid) =>
      var session := FindHash(s.store, s.now, Session(FormatInt(id), sid));
      if session.None? then Refused(404, "Session not found")
      else
        match ParseInt(Field(session.value, "user_id"))
        case None => Refused(500, "Invalid session data")
        case Some(userId) =>
          match ById(s.table, userId)
          case None => Refused(404, "User not found")
          case Some(user) => Profile(user)
  }

  // ---- PUT /update ----

  /** The names of the authenticated user; no session is looked up. */
  function UpdateProfile(cfg: Config, s: State, header: string, cookie: string, body: Settings.ProfileBody):
      (State, Reply)
  {
    match Authenticate(s, header, cookie)
    case Denied(reply) => (s, reply)
    case Context(id, _) =>
      (s.(table := Settings.ProfileEdit(s.table, id, body, cfg.fits)),
       Updated(Settings.ProfileAnswers(s.table, id, body, cfg.fits)))
  }
}
