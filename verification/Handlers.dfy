/** routes.go and Authorization/middleware.go: the handlers as they run against the repositories,
    each proved to compute the state and the reply that Protocol gives. */
module Handlers {
  import opened Wrappers
  import opened GoStrings
  import opened Decimal
  import opened Base64
  import opened Passwords
  import opened Keys
  import opened Accounts
  import opened Jwt
  import opened TokenStore
  import opened TokenEngine
  import opened QueryStrings
  import opened P = Protocol
  import Settings = SettingsUpdate

  class App {
    const cfg: Config
    const ur: UsersRepo
    const userRedis: TokenRepo
    /** What the signature check recognises: every token that left the service. */
    var issued: Issued
    ghost var openedAt: map<Key, int>
    ghost var used: set<string>
    ghost var passwords: map<int64, string>

    ghost function State(): P.State
      reads this, ur, userRedis, userRedis.redis
    {
      P.State(userRedis.redis.now, userRedis.view, ur.Contents(), issued, openedAt, used, passwords)
    }

    /** Subjects and session ids can stand inside a Redis key. */
    ghost predicate Valid()
      reads this, userRedis, userRedis.redis
    {
      && userRedis.Valid()
      && (forall t :: t in issued ==> ':' !in issued[t].claims.sub && ':' !in issued[t].claims.sid)
    }

    constructor (cfg: Config, ur: UsersRepo, userRedis: TokenRepo, ghost passwords: map<int64, string>)
      requires userRedis.Valid()
      ensures Valid()
      ensures this.cfg == cfg && this.ur == ur && this.userRedis == userRedis
      ensures issued == map[] && openedAt == map[] && used == {} && this.passwords == passwords
    {
      this.cfg, this.ur, this.userRedis := cfg, ur, userRedis;
      issued, openedAt, used := map[], map[], {};
      this.passwords := passwords;
    }

    /** Time goes by between requests. */
    method Wait(seconds: nat)
      requires Valid()
      modifies userRedis.redis`now
      ensures Valid() && State() == old(State()).(now := old(State()).now + seconds)
    {
      userRedis.redis.Advance(seconds);
    }

    function ValidateToken(token: string): Option<Claims>
      reads this, userRedis, userRedis.redis
    {
      Validate(issued, userRedis.redis.now, token)
    }

    /** A signed token leaves with the response. */
    method HandOut(token: Option<string>, claims: Claims, parent: Option<string>)
      requires Valid() && ':' !in claims.sub && ':' !in claims.sid
      modifies this`issued
      ensures Valid() && State() == IssueIfSigned(old(State()), token, claims, parent)
    {
      if token.Some? {
        issued := issued[token.value := Grant(claims, parent)];
      }
    }

    method StoreSession(userId: int64, sid: Token, data: Fields)
      requires Valid()
      modifies this`openedAt, this`used, userRedis, userRedis.redis`db
      ensures Valid() && State() == OpenSession(old(State()), userId, sid, data)
    {
      userRedis.InsertSession(sid, userId, data, SESSION_TTL);
      openedAt := openedAt[Session(FormatInt(userId), sid) := userRedis.redis.now];
      used := used + {sid};
    }

    method BeginSession(user: Account, client: Client, nonce: string, sid: Token, data: Fields,
                        refresh: Option<string>, access: Option<string>)
      requires Valid()
      modifies this, userRedis, userRedis.redis`db
      ensures Valid() && State() == StartSession(old(State()), user, client, nonce, sid, data, refresh, access)
    {
      var now := userRedis.redis.now;
      StoreSession(user.userId, sid, data);
      FormatIntColonFree(user.userId);
      HandOut(refresh, UserClaims(user, Refresh, now, nonce, sid, client), None);
      HandOut(access, UserClaims(user, Access, now, nonce, sid, client), None);
    }

    method HandleLogin(req: LoginRequest, rnd: LoginRandom) returns (reply: Reply)
      requires Valid()
      modifies this, ur, userRedis, userRedis.redis`db
      ensures Valid() && (State(), reply) == P.Login(cfg, old(State()), req, rnd)
    {
      if req.clientId == "" {
        return Refused(400, "client_id is required");
      }
      if !cfg.emailIsValid(req.email) {
        return Refused(400, "Invalid email");
      }
      if req.clientId !in cfg.clients {
        return Refused(401, "Invalid client");
      }
      var client := cfg.clients[req.clientId];
      if !client.isPublic && client.redirectURI != req.redirectURI {
        return Refused(401, "Invalid redirect URI");
      }
      var found := ur.GetAccountByEmail(req.email);
      if found.None? {
        return Refused(401, "Invalid credentials");
      }
      reply := LoginAccount(req, rnd, client, found.value);
    }

    method LoginAccount(req: LoginRequest, rnd: LoginRandom, client: Client, user: Account) returns (reply: Reply)
      requires Valid()
      modifies this, ur, userRedis, userRedis.redis`db
      ensures Valid() && (State(), reply) == P.LoginUser(cfg, old(State()), req, rnd, client, user)
    {
      if !user.isVerified {
        userRedis.SignUpInsert(rnd.ticket, user.email);
        used := used + {rnd.ticket};
        return Refused(401, "verification_pending");
      }
      if !CheckPasswordHash(cfg.crypto, req.password, user.password) {
        return Refused(401, "Invalid credentials");
      }
      if IsLegacyHash(user.password) {
        var newHash := HashPassword(cfg.crypto, req.password, rnd.salt);
        ChangePassword(user.email, newHash.GetOr(""), req.password);
        return NoBody;
      }
      reply := OpenLogin(req, rnd, client, user);
    }

    method OpenLogin(req: LoginRequest, rnd: LoginRandom, client: Client, user: Account) returns (reply: Reply)
      requires Valid()
      modifies this, userRedis, userRedis.redis`db
      ensures Valid() && (State(), reply) == P.LoginSession(old(State()), req, rnd, client, user)
    {
      var setup: seq<string> := [];
      if user.countryCode.None? || user.countryCode.value == "" {
        setup := setup + ["countryCode"];
        assert setup == ["countryCode"];
      }
      if rnd.sid.None? {
        return Refused(500, "Failed to generate session");
      }
      if user.countryCode.None? {
        return PANIC;
      }
      if rnd.access.None? {
        return Refused(500, "Failed to generate tokens");
      }
      var sessionID := rnd.sid.value;
      var sessionData := CreateSessionData(user.userId, req.clientId, req.deviceModel, req.deviceName,
                                           req.language, false, rnd.location);
      BeginSession(user, client, req.nonce, sessionID, sessionData, rnd.refresh, rnd.access);
      return Tokens(rnd.access.value, rnd.refresh.GetOr(""), setup);
    }

    method ChangePassword(email: string, encoded: string, ghost password: string)
      requires Valid()
      modifies this`passwords, ur
      ensures Valid() && State() == SetAccountPassword(old(State()), email, encoded, password)
    {
      if email in ur.byEmail {
        passwords := passwords[ur.byEmail[email] := password];
      }
      ur.ResetPassword(email, encoded);
    }

    method HandleRegister(req: RegisterRequest, rnd: RegisterRandom) returns (reply: Reply)
      requires Valid()
      modifies this, ur, userRedis, userRedis.redis`db
      ensures Valid() && (State(), reply) == P.Register(cfg, old(State()), req, rnd)
    {
      var hashedPass := HashPassword(cfg.crypto, req.password, rnd.salt);
      var row := Registration(req.email, hashedPass.GetOr(""), req.firstName, req.lastName, req.countryCode,
                              req.username);
      var ok := ur.RegisterAccount(rnd.userId, row, cfg.rowFits);
      if !ok {
        return SERVER_ERROR;
      }
      passwords := passwords[rnd.userId := req.password];
      userRedis.SignUpInsert(rnd.ticket, req.email);
      used := used + {rnd.ticket};
      return Done;
    }

    method HandleVerify(link: string) returns (reply: Reply)
      requires Valid()
      modifies this, ur, userRedis, userRedis.redis`db
      ensures Valid() && (State(), reply) == P.Verify(cfg, old(State()), link)
    {
      if link == "" {
        return Refused(400, "No link passed");
      }
      var data := userRedis.VerifySignup(link);
      if data.None? {
        return Refused(400, "Invalid link");
      }
      ur.VerifyAccount(Field(data.value, "email"));
      return Done;
    }

    method HandleRequestReset(mail: string, ticket: string) returns (reply: Reply)
      requires Valid()
      modifies this, userRedis, userRedis.redis`db
      ensures Valid() && (State(), reply) == P.RequestReset(cfg, old(State()), mail, ticket)
    {
      if !cfg.emailIsValid(mail) {
        return Refused(400, "Invalid email");
      }
      var user := ur.GetAccountByEmail(mail);
      if user.None? {
        return Done;
      }
      userRedis.ResetInsert(ticket, mail);
      used := used + {ticket};
      return Done;
    }

    method HandleResetPassword(token: string, password: string, salt: Option<seq<Byte>>) returns (reply: Reply)
      requires Valid()
      modifies this, ur, userRedis, userRedis.redis`db
      ensures Valid() && (State(), reply) == P.ResetPassword(cfg, old(State()), token, password, salt)
    {
      if token == "" || password == "" {
        return Refused(400, "Invalid request");
      }
      var data := userRedis.VerifyReset(token);
      if data.None? {
        return Refused(400, "Invalid request");
      }
      var hashedPass := HashPassword(cfg.crypto, password, salt);
      if hashedPass.None? {
        return SERVER_ERROR;
      }
      ChangePassword(Field(data.value, "email"), hashedPass.value, password);
      return Done;
    }

    method HandleAuthorize(p: AuthParams, cookies: Cookies, rnd: AuthRandom) returns (reply: Reply)
      requires Valid()
      modifies this, userRedis, userRedis.redis`db
      ensures Valid() && (State(), reply) == P.Authorize(cfg, old(State()), p, cookies, rnd)
    {
      var checked := CheckParams(cfg, p);
      if checked.Rejected? {
        return checked.reply;
      }
      var client := checked.client;
      if cookies.op != "" {
        var opData := userRedis.GetOPToken(cookies.op);
        if opData.Some? && Field(opData.value, "blacklisted") != "1" && Field(opData.value, "user_id") != "" {
          reply := GrantCode(client, p, Field(opData.value, "user_id"), rnd.code);
          return;
        }
      }
      reply := AuthorizeCookie(client, p, cookies, rnd);
    }

    method AuthorizeCookie(client: Client, p: AuthParams, cookies: Cookies, rnd: AuthRandom) returns (reply: Reply)
      requires Valid()
      modifies this, userRedis, userRedis.redis`db
      ensures Valid() && (State(), reply) == P.AuthorizeByCookie(cfg, old(State()), client, p, cookies, rnd)
    {
      var loginURL := LoginURL(cfg, client, p);
      if cookies.access == "" && cookies.refresh == "" {
        return ToLogin(loginURL);
      }
      var cookieDetails := ValidateToken(cookies.access);
      if cookieDetails.None? || !cookieDetails.value.tokenType.Access? {
        reply := AuthorizeRefresh(client, p, cookies.refresh, rnd);
        return;
      }
      reply := GrantCode(client, p, cookieDetails.value.sub, rnd.code);
    }

    method AuthorizeRefresh(client: Client, p: AuthParams, refreshCookie: string, rnd: AuthRandom)
      returns (reply: Reply)
      requires Valid()
      modifies this, userRedis, userRedis.redis`db
      ensures Valid()
      ensures (State(), reply) == P.AuthorizeByRefresh(cfg, old(State()), client, p, refreshCookie, rnd)
    {
      var loginURL := LoginURL(cfg, client, p);
      if refreshCookie == "" {
        return ToLogin(loginURL);
      }
      var refreshClaims := ValidateToken(refreshCookie);
      if refreshClaims.None? || !refreshClaims.value.tokenType.Refresh? {
        return ToLogin(loginURL);
      }
      var tokenData := userRedis.GetTokenInfo(cfg.crypto, refreshCookie);
      if tokenData.None? || tokenData.value == map[] || Field(tokenData.value, "blacklisted") == "1" {
        return ToLogin(loginURL);
      }
      reply := ReissueAccess(client, p, refreshCookie, refreshClaims.value, Field(tokenData.value, "user_id"), rnd);
    }

    method ReissueAccess(client: Client, p: AuthParams, token: string, claims: Claims, userID: string,
                         rnd: AuthRandom) returns (reply: Reply)
      requires Valid() && ':' !in claims.sid
      modifies this, userRedis, userRedis.redis`db
      ensures Valid() && (State(), reply) == P.Reissue(old(State()), client, p, token, claims, userID, rnd)
    {
      var parsedID := ParseInt(claims.sub);
      if parsedID.None? {
        return SERVER_ERROR;
      }
      if claims.aud == [] {
        return PANIC;
      }
      if rnd.access.None? {
        return SERVER_ERROR;
      }
      FormatIntColonFree(parsedID.value);
      HandOut(rnd.access,
              NewClaims(parsedID.value, claims.email, claims.firstName, claims.lastName, Access,
                        userRedis.redis.now, p.nonce, claims.sid, claims.country, claims.aud[0]),
              Some(token));
      reply := GrantCode(client, p, userID, rnd.code);
    }

    method GrantCode(client: Client, p: AuthParams, userID: string, code: Option<Token>) returns (reply: Reply)
      requires Valid()
      modifies this`used, userRedis, userRedis.redis`db
      ensures Valid() && (State(), reply) == P.MintCode(old(State()), client, p, userID, code)
    {
      if code.None? {
        return SERVER_ERROR;
      }
      var authCodeData := map["user_id" := userID, "client_id" := p.clientId, "redirect_uri" := p.redirectURI,
                              "nonce" := p.nonce, "scope" := p.scope];
      if client.isPublic {
        authCodeData := authCodeData["code_challenge" := p.codeChallenge];
      }
      userRedis.InsertAuthCode(code.value, authCodeData);
      used := used + {code.value};
      return Callback(CallbackURL(p.redirectURI, code.value, p.state));
    }

    method HandleToken(req: TokenRequest, rnd: TokenRandom) returns (reply: Reply)
      requires Valid()
      modifies this, userRedis, userRedis.redis`db
      ensures Valid() && (State(), reply) == P.ExchangeCode(cfg, old(State()), req, rnd)
    {
      var checked := CheckTokenClient(cfg, req);
      if checked.Rejected? {
        return checked.reply;
      }
      var authData := userRedis.GetAuthCode(req.code);
      if authData.None? {
        return Refused(401, "Invalid grant");
      }
      reply := Redeem(req, rnd, checked.client, authData.value);
    }

    method Redeem(req: TokenRequest, rnd: TokenRandom, client: Client, authData: Fields) returns (reply: Reply)
      requires Valid()
      modifies this, userRedis, userRedis.redis`db
      ensures Valid() && (State(), reply) == P.RedeemCode(cfg, old(State()), req, rnd, client, authData)
    {
      if Field(authData, "client_id") != req.clientId || Field(authData, "redirect_uri") != req.redirectURI {
        return Refused(401, "Invalid grant");
      }
      if client.isPublic {
        var computed := S256(cfg.crypto, req.codeVerifier);
        if computed != Field(authData, "code_challenge") {
          return Refused(401, "Invalid grant");
        }
      }
      var userIDInt := ParseInt(Field(authData, "user_id"));
      if userIDInt.None? {
        return SERVER_ERROR;
      }
      var found := ur.GetAccountById(userIDInt.value);
      if found.None? {
        return Refused(401, "Invalid grant");
      }
      var user := found.value;
      var nonce := Field(authData, "nonce");
      if rnd.sid.None? {
        return SERVER_ERROR;
      }
      if user.countryCode.None? {
        return PANIC;
      }
      if rnd.refresh.None? || rnd.access.None? {
        return SERVER_ERROR;
      }
      var sid := rnd.sid.value;
      var sessionData := CreateSessionData(user.userId, Field(authData, "client_id"), "", "", "", false,
                                           rnd.location);
      BeginSession(user, client, nonce, sid, sessionData, rnd.refresh, rnd.access);
      return Tokens(rnd.access.value, rnd.refresh.value, []);
    }

    /** fmt.Sprintf("session:%s:%s", ...) writes the key the session was stored under. */
    method FindSession(sub: string, sid: string) returns (session: Option<Fields>)
      requires Valid() && ':' !in sub
      ensures session == FindHash(userRedis.view, userRedis.redis.now, Session(sub, sid))
    {
      var sessionKey := "session:" + sub + ":" + sid;
      assert Text(Session(sub, sid)) == sessionKey && WellFormed(Session(sub, sid));
      session := userRedis.GetSessionByID(sessionKey);
    }

    method HandleRefresh(req: RefreshRequest, rnd: RefreshRandom) returns (reply: Reply)
      requires Valid()
      modifies this, userRedis, userRedis.redis`db
      ensures Valid() && (State(), reply) == P.RefreshTokens(cfg, old(State()), req, rnd)
    {
      if req.refreshToken == "" {
        return Refused(400, "invalid_request");
      }
      var validated := ValidateToken(req.refreshToken);
      if validated.None? || !validated.value.tokenType.Refresh? {
        return Refused(401, "Invalid token");
      }
      var claims := validated.value;
      var who := Identity(claims.email, claims.firstName, claims.lastName, Some(claims.country));
      var parsedID := ParseInt(claims.sub);
      if parsedID.None? {
        return SERVER_ERROR;
      }
      FormatIntColonFree(parsedID.value);
      var tokenData := FindSession(FormatInt(parsedID.value), claims.sid);
      if tokenData.None? || Field(tokenData.value, "blacklisted") == "1" {
        return Refused(401, "Invalid token");
      }
      if req.updateInfo {
        var updatedInfo := ur.GetAccountById(parsedID.value);
        if updatedInfo.Some? {
          if updatedInfo.value.lastName.None? {
            return PANIC;
          }
          var u := updatedInfo.value;
          who := Identity(u.email, u.firstName, u.lastName.value, u.countryCode);
        }
      }
      if claims.aud == [] {
        return PANIC;
      }
      if rnd.access.None? {
        return SERVER_ERROR;
      }
      reply := Renew(req.refreshToken, claims, parsedID.value, tokenData.value, who, rnd);
    }

    method Renew(token: string, claims: Claims, id: int64, tokenData: Fields, who: Identity, rnd: RefreshRandom)
      returns (reply: Reply)
      requires Valid() && claims.aud != [] && rnd.access.Some? && ':' !in claims.sid
      modifies this, userRedis, userRedis.redis`db
      ensures Valid()
      ensures (State(), reply) == P.RefreshSession(old(State()), token, claims, id, tokenData, who, rnd)
    {
      var country := if who.country.None? then "N/A" else who.country.value;
      var now, parent := userRedis.redis.now, Some(token);
      var newAccess := NewClaims(id, who.email, who.firstName, who.lastName, Access, now, claims.nonce, claims.sid,
                                 country, claims.aud[0]);
      var newAccessToken, newRefreshToken, rotated := rnd.access.value, None, false;
      FormatIntColonFree(id);
      if claims.exp - now < ROTATION_MARGIN {
        if rnd.sid.Some? && rnd.refresh.Some? {
          RotateSession(token, claims, id, Field(tokenData, "client_id"), country, rnd.sid.value, rnd);
          newAccessToken, newRefreshToken := rnd.access2.GetOr(""), rnd.refresh;
          rotated := true;
        }
      } else {
        var sessionKey := "session:" + FormatInt(id) + ":" + claims.sid;
        ghost var key := Session(FormatInt(id), claims.sid);
        assert Text(key) == sessionKey && WellFormed(key);
        userRedis.ExtendSession(id, sessionKey);
      }
      if !rotated {
        HandOut(rnd.access, newAccess, parent);
      }
      return Refreshed(newAccessToken, newRefreshToken);
    }

    method RotateSession(token: string, claims: Claims, id: int64, clientId: string, country: string,
                         newSessionID: Token, rnd: RefreshRandom)
      requires Valid() && claims.aud != [] && ':' !in claims.sid
      modifies this, userRedis, userRedis.redis`db
      ensures Valid() && State() == Rotate(old(State()), token, claims, id, clientId, country, newSessionID, rnd)
    {
      var now, parent := userRedis.redis.now, Some(token);
      assert Text(Bare(claims.sid)) == claims.sid && WellFormed(Bare(claims.sid));
      userRedis.DeleteToken(claims.sid);
      FormatIntColonFree(id);
      StoreSession(id, newSessionID, CreateSessionData(id, clientId, "", "", "", false, rnd.location));
      HandOut(rnd.refresh, RotatedClaims(claims, id, Refresh, now, newSessionID, country), parent);
      HandOut(rnd.access2, RotatedClaims(claims, id, Access, now, newSessionID, country), parent);
    }

    method HandleLogout(authorization: string) returns (reply: Reply)
      requires Valid()
      modifies userRedis, userRedis.redis`db
      ensures Valid() && (State(), reply) == P.Logout(cfg, old(State()), authorization)
    {
      if authorization == "" {
        return Refused(400, "No token provided");
      }
      if !HasPrefix(authorization, "Bearer ") {
        return Refused(401, "Unformatted token");
      }
      var parts := Split(authorization, "Bearer ");
      var claims := if |parts| > 1 then ValidateToken(parts[1]) else None;
      if claims.None? || !claims.value.tokenType.Refresh? {
        return Refused(401, "Invalid token");
      }
      assert Text(Bare(claims.value.sid)) == claims.value.sid && WellFormed(Bare(claims.value.sid));
      userRedis.DeleteToken(claims.value.sid);
      return Done;
    }

    method HandleIntrospect(token: string) returns (reply: Reply)
      requires Valid()
      ensures reply == P.Introspect(cfg, State(), token)
    {
      var claims := ValidateToken(token);
      if claims.None? {
        return Inactive;
      }
      var session := FindSession(claims.value.sub, claims.value.sid);
      if session.None? || Field(session.value, "blacklisted") == "1" {
        return Inactive;
      }
      return Active(claims.value.sub, claims.value.exp, claims.value.tokenType);
    }

    /** JWTAuthMiddleware: the user id and session id it leaves in the request context. */
    method Authenticate(header: string, cookie: string) returns (context: Auth)
      requires Valid()
      ensures context == P.Authenticate(State(), header, cookie)
    {
      var tokenString := "";
      if Contains(header, "Bearer ") {
        tokenString := TrimPrefix(header, "Bearer ");
      } else if cookie != "" {
        tokenString := cookie;
      }
      if tokenString == "" {
        return Denied(Refused(401, "Missing or invalid credentials"));
      }
      var payload := ValidateToken(tokenString);
      if payload.None? || !payload.value.tokenType.Access? {
        return Denied(Refused(401, "Invalid or expired token"));
      }
      var userID := ParseInt(payload.value.sub);
      if userID.None? {
        return Denied(Refused(401, "Invalid or expired token"));
      }
      return Context(userID.value, payload.value.sid);
    }

    method HandleUserInfo(header: string, cookie: string) returns (reply: Reply)
      requires Valid()
      ensures reply == P.UserInfo(cfg, State(), header, cookie)
    {
      var context := Authenticate(header, cookie);
      if context.Denied? {
        return context.reply;
      }
      FormatIntColonFree(context.userId);
      var sessionData := FindSession(FormatInt(context.userId), context.sid);
      if sessionData.None? {
        return Refused(404, "Session not found");
      }
      var userIDInt := ParseInt(Field(sessionData.value, "user_id"));
      if userIDInt.None? {
        return Refused(500, "Invalid session data");
      }
      var user := ur.GetAccountById(userIDInt.value);
      if user.None? {
        return Refused(404, "User not found");
      }
      return Profile(user.value);
    }

    method HandleUpdateProfile(header: string, cookie: string, body: Settings.ProfileBody) returns (reply: Reply)
      requires Valid()
      modifies ur
      ensures Valid() && (State(), reply) == P.UpdateProfile(cfg, old(State()), header, cookie, body)
    {
      var context := Authenticate(header, cookie);
      if context.Denied? {
        return context.reply;
      }
      var answers := Settings.UpdateProfile(ur, context.userId, body, cfg.fits);
      return Updated(answers);
    }
  }
}
