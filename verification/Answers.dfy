/** What every request is answered: the exact conditions of success and of each kind of refusal. */
module Answers {
  import opened Wrappers
  import opened GoStrings
  import opened Decimal
  import opened Base64
  import opened Passwords
  import opened Keys
  import opened Redis
  import opened Accounts
  import opened Jwt
  import opened TokenStore
  import opened QueryStrings
  import opened Protocol
  import opened Requests
  import opened Authentication
  import Sessions
  import PasswordHistory
  import Provenance
  import Settings = SettingsUpdate

  predicate RefusedWith(reply: Reply, status: int) {
    reply.Refused? && reply.status == status
  }

  // ---- login ----

  /** The request is well-formed and comes from a registered client with its own redirect URI. */
  predicate FromClient(cfg: Config, req: LoginRequest) {
    && cfg.emailIsValid(req.email) && req.clientId != "" && req.clientId in cfg.clients
    && (cfg.clients[req.clientId].isPublic || cfg.clients[req.clientId].redirectURI == req.redirectURI)
  }

  predicate Unverified(s: State, email: string) {
    ByEmail(s.table, email).Some? && !ByEmail(s.table, email).value.isVerified
  }

  /** A login is refused as malformed, as unauthorized or for lack of a session exactly in these cases. */
  lemma LoginRefusals(cfg: Config, s: State, req: LoginRequest, rnd: LoginRandom)
    ensures var reply := Login(cfg, s, req, rnd).1;
            && (RefusedWith(reply, 400) <==> req.clientId == "" || !cfg.emailIsValid(req.email))
            && (RefusedWith(reply, 401) <==>
                  req.clientId != "" && cfg.emailIsValid(req.email) && !PasswordShown(cfg, s, req))
            && (RefusedWith(reply, 500) <==>
                  PasswordShown(cfg, s, req) && !HasLegacyHash(s, req.email) && !SessionPossible(s, req, rnd))
            && (reply == Refused(401, "verification_pending") <==> FromClient(cfg, req) && Unverified(s, req.email))
  {
    hide CheckPasswordHash, Accepts, HashPassword, IsLegacyHash, IsBcrypt, StartSession, CreateSessionData, PutHash,
         SetAccountPassword;
    var found := ByEmail(s.table, req.email);
    if found.Some? {
      ChecksSay(cfg, req.password, found.value.password);
    }
  }

  /** A login does not tell an unknown address from a wrong password of a verified account. */
  lemma LoginHidesAccounts(cfg: Config, s: State, req: LoginRequest, rnd: LoginRandom)
    requires FromClient(cfg, req) && !Unverified(s, req.email)
    ensures !PasswordShown(cfg, s, req) <==> Login(cfg, s, req, rnd) == (s, Refused(401, "Invalid credentials"))
  {
    hide CheckPasswordHash, Accepts, HashPassword, IsLegacyHash, IsBcrypt, StartSession, CreateSessionData, PutHash,
         SetAccountPassword;
    var found := ByEmail(s.table, req.email);
    if found.Some? {
      ChecksSay(cfg, req.password, found.value.password);
    }
  }

  /** A login of an unverified account stores a new signup ticket for its email, for 24 hours. */
  lemma UnverifiedLoginResends(cfg: Config, s: State, req: LoginRequest, rnd: LoginRandom)
    requires Consistent(s.table) && FromClient(cfg, req) && Unverified(s, req.email)
    ensures Login(cfg, s, req, rnd).0 == PutTicket(s, SignUp(rnd.ticket), rnd.ticket, map["email" := req.email], 86_400)
  {
  }

  /** The client is asked for a country exactly when the account has an empty one. */
  lemma LoginAsksForCountry(cfg: Config, s: State, req: LoginRequest, rnd: LoginRandom)
    requires Login(cfg, s, req, rnd).1.Tokens?
    ensures ByEmail(s.table, req.email).Some?
    ensures Login(cfg, s, req, rnd).1.setup
         == if ByEmail(s.table, req.email).value.countryCode == Some("") then ["countryCode"] else []
  {
    hide CheckPasswordHash, HashPassword, IsLegacyHash, StartSession, CreateSessionData, PutHash, SetAccountPassword;
  }

  /** A login that shows the password behind a bcrypt hash replaces the hash by one that is no bcrypt hash and
      accepts the password, and answers nothing. */
  lemma MigrationWorks(cfg: Config, s: State, req: LoginRequest, rnd: LoginRandom)
    requires Consistent(s.table) && FromClient(cfg, req) && rnd.salt.Some?
    requires ByEmail(s.table, req.email).Some?
    requires var user := ByEmail(s.table, req.email).value;
             && user.isVerified && IsBcrypt(user.password) && cfg.crypto.bcrypt(user.password, req.password)
    ensures var (s', reply) := Login(cfg, s, req, rnd);
            var user := ByEmail(s.table, req.email).value;
            && reply == NoBody && ByEmail(s'.table, req.email).Some?
            && var user' := ByEmail(s'.table, req.email).value;
               && user' == user.(password := user'.password)
               && !IsBcrypt(user'.password) && Accepts(cfg.crypto, req.password, user'.password)
  {
    hide CheckPasswordHash, HashPassword, IsLegacyHash, IsBcrypt, LoginSession, PutHash, ArgonAccepts;
    var user := ByEmail(s.table, req.email).value;
    ChecksSay(cfg, req.password, user.password);
    var hash := HashPassword(cfg.crypto, req.password, rnd.salt).GetOr("");
    PasswordHistory.HashOutcome(cfg, req.password, rnd.salt);
    ChecksSay(cfg, req.password, hash);
  }

  // ---- register, verify, reset ----

  predicate AllFilled(req: RegisterRequest) {
    && req.email != "" && req.firstName != "" && req.lastName != ""
    && req.username != "" && req.countryCode != ""
  }

  predicate Taken(t: Table, req: RegisterRequest, id: int64) {
    id in t.rows || req.email in t.byEmail
  }

  /** The row the request asks for fits its columns, with the hash that is made of the password. */
  predicate RowFits(cfg: Config, req: RegisterRequest, salt: seq<Byte>) {
    cfg.rowFits(Registration(req.email, HashPassword(cfg.crypto, req.password, Some(salt)).value, req.firstName,
                             req.lastName, req.countryCode, req.username))
  }

  /** A registration succeeds exactly when no field is blank, the row fits, neither key is taken and the
      password could be hashed; otherwise it is answered with 500 and changes nothing. */
  lemma RegisterAnswersExactly(cfg: Config, s: State, req: RegisterRequest, rnd: RegisterRandom)
    ensures var (s', reply) := Register(cfg, s, req, rnd);
            && (reply == Done <==> AllFilled(req) && rnd.salt.Some? && RowFits(cfg, req, rnd.salt.value)
                                   && !Taken(s.table, req, rnd.userId))
            && (reply != Done ==> RefusedWith(reply, 500) && s' == s)
  {
    hide Encode, PutHash;
    if rnd.salt.Some? {
      assert HashPassword(cfg.crypto, req.password, rnd.salt).value[0] == '$';
    }
  }

  /** A link verifies exactly when its ticket is there. */
  lemma VerifyAnswersExactly(cfg: Config, s: State, link: string)
    ensures var (s', reply) := Verify(cfg, s, link);
            && (reply == Done <==> link != "" && FindHash(s.store, s.now, SignUp(link)).Some?)
            && (reply != Done ==> RefusedWith(reply, 400) && s' == s)
  {
    hide FindHash, SetVerified;
  }

  /** A reset succeeds exactly when the token and the password are given, the ticket is there and the password
      could be hashed; the ticket is spent in both last cases. */
  lemma ResetAnswersExactly(cfg: Config, s: State, token: string, password: string, salt: Option<seq<Byte>>)
    ensures var (s', reply) := ResetPassword(cfg, s, token, password, salt);
            var asked := token != "" && password != "" && FindHash(s.store, s.now, Reset(token)).Some?;
            && (reply == Done <==> asked && salt.Some?)
            && (RefusedWith(reply, 500) <==> asked && salt.None?)
            && (RefusedWith(reply, 400) <==> !asked)
            && (!asked ==> s' == s)
            && (asked ==> Reset(token) !in s'.store)
  {
    hide FindHash, Encode, SetPassword;
  }

  /** Whether an address has an account cannot be told from the answer to a reset request. */
  lemma RequestResetHidesAccounts(cfg: Config, s: State, mail: string, ticket: string)
    ensures var (s', reply) := RequestReset(cfg, s, mail, ticket);
            && (reply == Done <==> cfg.emailIsValid(mail))
            && (reply != Done ==> RefusedWith(reply, 400))
            && s' == if cfg.emailIsValid(mail) && ByEmail(s.table, mail).Some? then
                       PutTicket(s, Reset(ticket), ticket, map["email" := mail], 9_000)
                     else s
  {
    hide PutHash;
  }

  // ---- token, refresh ----

  /** The exchange lacks a value every exchange needs, or the verifier a public client needs. */
  predicate LacksValue(cfg: Config, req: TokenRequest) {
    || req.code == "" || req.clientId == "" || req.redirectURI == ""
    || (req.clientId in cfg.clients && cfg.clients[req.clientId].isPublic && req.codeVerifier == "")
  }

  predicate KnownUser(s: State, userId: string) {
    ParseInt(userId).Some? && ById(s.table, ParseInt(userId).value).Some?
  }

  /** An exchange is refused as malformed, or as unauthorized, exactly in these cases; anything else that fails
      is a server error. A code that was found is spent all the same. */
  lemma ExchangeRefusals(cfg: Config, s: State, req: TokenRequest, rnd: TokenRandom)
    ensures var (s', reply) := ExchangeCode(cfg, s, req, rnd);
            var data := FindHash(s.store, s.now, AuthCode(req.code));
            && (RefusedWith(reply, 400) <==> LacksValue(cfg, req))
            && (RefusedWith(reply, 401) <==>
                  && !LacksValue(cfg, req)
                  && (!ClientProven(cfg, req) || data.None? || !CodeFits(cfg, req, data.value)
                      || (ParseInt(Field(data.value, "user_id")).Some? && !KnownUser(s, Field(data.value, "user_id")))))
            && (!reply.Tokens? ==> reply.Refused? && reply.status in {400, 401, 500})
            && (ClientProven(cfg, req) && data.Some? ==> AuthCode(req.code) !in s'.store)
            && (!reply.Tokens? && !(ClientProven(cfg, req) && data.Some?) ==> s' == s)
  {
    hide RedeemCode, CheckTokenClient, ClientProven, LacksValue, CodeFits, KnownUser, FindHash;
    TokenClientChecked(cfg, req);
    TokenClientRefusals(cfg, req);
    var checked := CheckTokenClient(cfg, req);
    var (store, data) := TakeHash(s.store, s.now, AuthCode(req.code));
    if checked.Accepted? && data.Some? {
      RedeemRefusals(cfg, s.(store := store), req, rnd, checked.client, data.value);
      SameUsers(s, store, Field(data.value, "user_id"));
    }
  }

  lemma SameUsers(s: State, store: Store<Key>, userId: string)
    ensures KnownUser(s.(store := store), userId) == KnownUser(s, userId)
  {
  }

  lemma TokenClientRefusals(cfg: Config, req: TokenRequest)
    ensures var checked := CheckTokenClient(cfg, req);
            && (checked.Rejected? && RefusedWith(checked.reply, 400) <==> LacksValue(cfg, req))
            && (checked.Rejected? ==> RefusedWith(checked.reply, 400) || RefusedWith(checked.reply, 401))
            && (ClientProven(cfg, req) ==> !LacksValue(cfg, req))
  {
    hide CheckPasswordHash, Accepts;
  }

  lemma RedeemRefusals(cfg: Config, s: State, req: TokenRequest, rnd: TokenRandom, client: Client, data: Fields)
    requires req.clientId in cfg.clients && client == cfg.clients[req.clientId] && AuthCode(req.code) !in s.store
    ensures var (s', reply) := RedeemCode(cfg, s, req, rnd, client, data);
            && (RefusedWith(reply, 401) <==>
                  || !CodeFits(cfg, req, data)
                  || (ParseInt(Field(data, "user_id")).Some? && !KnownUser(s, Field(data, "user_id"))))
            && !RefusedWith(reply, 400)
            && (!reply.Tokens? ==> reply.Refused? && reply.status in {401, 500})
            && AuthCode(req.code) !in s'.store
  {
    hide StartSession, CreateSessionData, S256, IsChallengeOf, ParseInt;
    S256Exactly(cfg.crypto, req.codeVerifier, Field(data, "code_challenge"));
    Provenance.RedeemCodeWrites(cfg, s, req, rnd, client, data);
  }

  /** A refresh is refused as malformed exactly without a token, and as unauthorized exactly without an
      unexpired refresh token whose session is there and not blacklisted. This needs no invariant. */
  lemma RefreshRefusals(cfg: Config, s: State, req: RefreshRequest, rnd: RefreshRandom)
    ensures var (s', reply) := RefreshTokens(cfg, s, req, rnd);
            var presented := Validate(s.issued, s.now, req.refreshToken);
            && (RefusedWith(reply, 400) <==> req.refreshToken == "")
            && (RefusedWith(reply, 401) <==>
                  && req.refreshToken != ""
                  && (presented.None? || !presented.value.tokenType.Refresh?
                      || (ParseInt(presented.value.sub).Some?
                          && !SessionUsable(s, FormatInt(ParseInt(presented.value.sub).value), presented.value.sid))))
            && (!reply.Refreshed? ==> reply.Refused? && reply.status in {400, 401, 500} && s' == s)
  {
    hide RefreshSession, FindHash, Validate, ParseInt, FormatInt;
    var presented := Validate(s.issued, s.now, req.refreshToken);
    if presented.Some? && presented.value.aud != [] && rnd.access.Some? {
      Sessions.RefreshSessionAnswers(s, req, presented.value, rnd);
    }
  }

  /** The session is stored, not expired and not blacklisted. */
  predicate SessionUsable(s: State, uid: string, sid: string) {
    var session := FindHash(s.store, s.now, Session(uid, sid));
    session.Some? && Field(session.value, "blacklisted") != "1"
  }

  /** In any state: introspection answers active exactly for an unexpired issued token whose session is there
      and not blacklisted. */
  lemma IntrospectBlacklist(cfg: Config, s: State, token: string)
    ensures var c := Validate(s.issued, s.now, token);
            Introspect(cfg, s, token)
            == if c.Some? && SessionUsable(s, c.value.sub, c.value.sid) then
                 Active(c.value.sub, c.value.exp, c.value.tokenType)
               else Inactive
  {
    hide FindHash, Validate;
  }

  // ---- logout ----

  /** The token a logout looks at: what stands between "Bearer " and the next "Bearer ", if any. */
  function UpToBearer(text: string): string {
    match IndexOf(text, "Bearer ")
    case None => text
    case Some(i) => text[..i]
  }

  lemma LogoutToken(t: string)
    ensures Split("Bearer " + t, "Bearer ")[0] == ""
    ensures |Split("Bearer " + t, "Bearer ")| > 1 && Split("Bearer " + t, "Bearer ")[1] == UpToBearer(t)
  {
    SplitGlued("", "Bearer ", t);
    assert "" + "Bearer " + t == "Bearer " + t;
  }

  /** A logout is confirmed exactly for an unexpired refresh token sent as a bearer token. */
  lemma LogoutAnswersExactly(cfg: Config, s: State, authorization: string)
    ensures var reply := Logout(cfg, s, authorization).1;
            && (RefusedWith(reply, 400) <==> authorization == "")
            && (reply == Done <==>
                  && HasPrefix(authorization, "Bearer ")
                  && var c := Validate(s.issued, s.now, UpToBearer(authorization[7..]));
                     c.Some? && c.value.tokenType.Refresh?)
            && (reply != Done && authorization != "" ==> RefusedWith(reply, 401))
  {
    hide Split, Validate, UpToBearer;
    if HasPrefix(authorization, "Bearer ") {
      assert authorization == "Bearer " + authorization[7..];
      LogoutToken(authorization[7..]);
    }
  }

  // ---- /authorize in states that no run reaches: stored OP sessions and stored refresh tokens ----

  /** An OP session that is stored, not blacklisted and has a user. */
  predicate OpGrants(s: State, op: string) {
    var data := FindHash(s.store, s.now, OpToken(op));
    op != "" && data.Some? && Field(data.value, "blacklisted") != "1" && Field(data.value, "user_id") != ""
  }

  /** A refresh token that is valid and stored, not blacklisted, under its own digest. */
  predicate StoredRefresh(cfg: Config, s: State, token: string) {
    var claims := Validate(s.issued, s.now, token);
    var info := HGetAll(s.store, s.now, Bare(Sha256Hex(cfg.crypto, token)));
    && token != "" && claims.Some? && claims.value.tokenType.Refresh?
    && info.Some? && info.value != map[] && Field(info.value, "blacklisted") != "1"
  }

  /** Whom a proper request gets a code for: the OP session's user, else the access token's subject, else the
      user stored with the refresh token; nobody is sent to the login page. */
  function CodeUser(cfg: Config, s: State, cookies: Cookies): Option<string> {
    if OpGrants(s, cookies.op) then Some(Field(FindHash(s.store, s.now, OpToken(cookies.op)).value, "user_id"))
    else if cookies.access == "" && cookies.refresh == "" then None
    else if ValidAccess(s, cookies.access) then Some(Validate(s.issued, s.now, cookies.access).value.sub)
    else if StoredRefresh(cfg, s, cookies.refresh) then
      Some(Field(HGetAll(s.store, s.now, Bare(Sha256Hex(cfg.crypto, cookies.refresh))).value, "user_id"))
    else None
  }

  /** The silent reissue is due, and its token cannot be made. */
  predicate ReissueFails(cfg: Config, s: State, cookies: Cookies, rnd: AuthRandom) {
    && !OpGrants(s, cookies.op) && !ValidAccess(s, cookies.access) && StoredRefresh(cfg, s, cookies.refresh)
    && var claims := Validate(s.issued, s.now, cookies.refresh).value;
       ParseInt(claims.sub).None? || claims.aud == [] || rnd.access.None?
  }

  lemma AuthorizeInAnyState(cfg: Config, s: State, p: AuthParams, cookies: Cookies, rnd: AuthRandom)
    requires ProperRequest(cfg, p)
    ensures var (s', reply), user := Authorize(cfg, s, p, cookies, rnd), CodeUser(cfg, s, cookies);
            && (reply.ToLogin? <==> user.None?)
            && (reply.Callback? <==> user.Some? && !ReissueFails(cfg, s, cookies, rnd) && rnd.code.Some?)
            && (reply.Callback? && AuthCode(rnd.code.value) !in s.store ==>
                  && AuthCode(rnd.code.value) in s'.store
                  && s'.store[AuthCode(rnd.code.value)]
                     == Entry(Hash(CodeHash(cfg.clients[p.clientId], p, user.value)), Some(s.now + 60)))
            && (!reply.ToLogin? && !reply.Callback? ==> RefusedWith(reply, 500))
  {
    hide HGetAll, FindHash, Validate, LoginURL, PutHash, Sha256Hex, ParseInt, CallbackURL, CodeData, CodeHash;
    CheckParamsExactly(cfg, p);
    if rnd.code.Some? && CodeUser(cfg, s, cookies).Some? {
      var data := CodeHash(cfg.clients[p.clientId], p, CodeUser(cfg, s, cookies).value);
      CodeDataIs(cfg.clients[p.clientId], p, CodeUser(cfg, s, cookies).value);
      if AuthCode(rnd.code.value) !in s.store {
        Provenance.PutNewHash(s.store, s.now, AuthCode(rnd.code.value), data, 60);
      }
    }
  }

  /** What is stored under a code. */
  function CodeHash(client: Client, p: AuthParams, userId: string): Fields {
    map["user_id" := userId, "client_id" := p.clientId, "redirect_uri" := p.redirectURI, "nonce" := p.nonce,
        "scope" := p.scope]
    + if client.isPublic then map["code_challenge" := p.codeChallenge] else map[]
  }

  lemma CodeDataIs(client: Client, p: AuthParams, userId: string)
    ensures CodeData(client, p, userId) == CodeHash(client, p, userId)
  {
  }

  /** The token of a silent reissue repeats the refresh token's identity and session, with the new nonce. */
  lemma ReissueCarries(cfg: Config, s: State, p: AuthParams, cookies: Cookies, rnd: AuthRandom)
    requires ProperRequest(cfg, p) && !OpGrants(s, cookies.op) && !ValidAccess(s, cookies.access)
    requires StoredRefresh(cfg, s, cookies.refresh) && !ReissueFails(cfg, s, cookies, rnd)
    ensures var s' := Authorize(cfg, s, p, cookies, rnd).0;
            var was := Validate(s.issued, s.now, cookies.refresh).value;
            && rnd.access.Some? && rnd.access.value in s'.issued
            && var g := s'.issued[rnd.access.value];
               && g.parent == Some(cookies.refresh)
               && g.claims == was.(sub := FormatInt(ParseInt(was.sub).value), tokenType := Access, nonce := p.nonce,
                                   aud := [was.aud[0]], iat := s.now, exp := s.now + 900)
  {
    hide HGetAll, FindHash, LoginURL, PutHash, Sha256Hex, ParseInt, CallbackURL, CodeData;
    CheckParamsExactly(cfg, p);
  }

  /** In any state: userinfo reads the session of the presented token and shows the account it names. */
  lemma UserInfoInAnyState(cfg: Config, s: State, header: string, cookie: string, t: string)
    requires Presents(header, cookie, t)
    ensures var reply, c := UserInfo(cfg, s, header, cookie), Validate(s.issued, s.now, t);
            if t == "" || c.None? || !c.value.tokenType.Access? || ParseInt(c.value.sub).None? then
              RefusedWith(reply, 401)
            else
              var session := FindHash(s.store, s.now, Session(FormatInt(ParseInt(c.value.sub).value), c.value.sid));
              if session.None? then RefusedWith(reply, 404)
              else if ParseInt(Field(session.value, "user_id")).None? then RefusedWith(reply, 500)
              else
                var user := ById(s.table, ParseInt(Field(session.value, "user_id")).value);
                if user.None? then RefusedWith(reply, 404) else reply == Profile(user.value)
  {
    hide Presents, Authenticate, Validate, FindHash, ParseInt, FormatInt;
    AuthenticateExactly(s, header, cookie, t);
  }

  /** An authenticated profile edit is always reported as a success, after a server error exactly when the row
      is there and does not take the names. */
  lemma UpdateProfileAnswers(cfg: Config, s: State, header: string, cookie: string, body: Settings.ProfileBody)
    ensures var context, reply := Authenticate(s, header, cookie), UpdateProfile(cfg, s, header, cookie, body).1;
            && (context.Denied? ==> reply == context.reply)
            && (context.Context? ==>
                  && reply.Updated? && reply.answers != []
                  && reply.answers[|reply.answers| - 1] == Settings.Success
                  && (Settings.ServerError in reply.answers <==>
                        context.userId in s.table.rows && !Settings.Fits(body, cfg.fits)))
  {
    hide Authenticate, Settings.Fits;
  }
}
