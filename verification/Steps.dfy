/** One request or one advance of the clock, and the proof that each keeps the invariant. */
module Steps {
  import opened Wrappers
  import opened GoStrings
  import opened Decimal
  import opened Base64
  import opened Passwords
  import opened Keys
  import opened Redis
  import opened Accounts
  import opened Jwt
  import opened TokenStore
  import opened Protocol
  import opened Invariant
  import Settings = SettingsUpdate

  datatype Step =
    | Tick(seconds: nat)
    | DoLogin(login: LoginRequest, loginRnd: LoginRandom)
    | DoRegister(register: RegisterRequest, registerRnd: RegisterRandom)
    | DoVerify(link: string)
    | DoRequestReset(mail: string, ticket: string)
    | DoResetPassword(resetToken: string, password: string, salt: Option<seq<Byte>>)
    | DoAuthorize(params: AuthParams, cookies: Cookies, authRnd: AuthRandom)
    | DoToken(exchange: TokenRequest, tokenRnd: TokenRandom)
    | DoRefresh(refresh: RefreshRequest, refreshRnd: RefreshRandom)
    | DoLogout(authorization: string)
    | DoIntrospect(token: string)
    | DoUserInfo(header: string, cookie: string)
    | DoUpdateProfile(header: string, cookie: string, body: Settings.ProfileBody)

  function Exec(cfg: Config, s: State, step: Step): (State, Reply) {
    match step
    case Tick(seconds) => (s.(now := s.now + seconds), Done)
    case DoLogin(req, rnd) => Login(cfg, s, req, rnd)
    case DoRegister(req, rnd) => Register(cfg, s, req, rnd)
    case DoVerify(link) => Verify(cfg, s, link)
    case DoRequestReset(mail, ticket) => RequestReset(cfg, s, mail, ticket)
    case DoResetPassword(token, password, salt) => ResetPassword(cfg, s, token, password, salt)
    case DoAuthorize(p, cookies, rnd) => Authorize(cfg, s, p, cookies, rnd)
    case DoToken(req, rnd) => ExchangeCode(cfg, s, req, rnd)
    case DoRefresh(req, rnd) => RefreshTokens(cfg, s, req, rnd)
    case DoLogout(authorization) => Logout(cfg, s, authorization)
    case DoIntrospect(token) => (s, Introspect(cfg, s, token))
    case DoUserInfo(header, cookie) => (s, UserInfo(cfg, s, header, cookie))
    case DoUpdateProfile(header, cookie, body) => UpdateProfile(cfg, s, header, cookie, body)
  }

  // ---- freshness: the one assumption about random values and signatures ----

  predicate NewValue(s: State, value: Option<string>) {
    value.Some? ==> value.value !in s.used
  }

  /** A ticket is fresh, or empty because the random source failed. */
  predicate NewTicket(s: State, ticket: string) {
    ticket != "" ==> ticket !in s.used
  }

  predicate NewToken(s: State, token: Option<string>) {
    token.Some? ==> token.value != "" && token.value !in s.issued
  }

  predicate Differ(a: Option<string>, b: Option<string>) {
    a.Some? && b.Some? ==> a.value != b.value
  }

  /** Random values and signed tokens never repeat. */
  predicate Fresh(s: State, step: Step) {
    match step
    case DoLogin(_, r) =>
      NewTicket(s, r.ticket) && NewValue(s, r.sid) && NewToken(s, r.refresh) && NewToken(s, r.access)
      && Differ(r.refresh, r.access)
    case DoRegister(_, r) => NewTicket(s, r.ticket)
    case DoRequestReset(_, ticket) => NewTicket(s, ticket)
    case DoAuthorize(_, _, r) => NewValue(s, r.code) && NewToken(s, r.access)
    case DoToken(_, r) =>
      NewValue(s, r.sid) && NewToken(s, r.refresh) && NewToken(s, r.access) && Differ(r.refresh, r.access)
    case DoRefresh(_, r) =>
      NewValue(s, r.sid) && NewToken(s, r.access) && NewToken(s, r.refresh) && NewToken(s, r.access2)
      && Differ(r.refresh, r.access2)
    case _ => true
  }

  // ---- handlers keep the invariant and take nothing back ----

  ghost predicate Keeps(s: State, s': State) {
    Inv(s) ==> Inv(s') && Grows(s, s')
  }

  lemma Chain(s: State, s': State, s'': State)
    requires Inv(s) && Keeps(s, s') && Keeps(s', s'')
    ensures Keeps(s, s'')
  {
    GrowsTransitive(s, s', s'');
  }

  /** What a validated token guarantees. */
  lemma ValidatedGrant(s: State, token: string)
    requires Inv(s) && Validate(s.issued, s.now, token).Some?
    ensures GrantOk(s, s.issued[token]) && Validate(s.issued, s.now, token).value == s.issued[token].claims
  {
  }

  lemma UnchangedKeeps(s: State)
    ensures Keeps(s, s)
  {
    if Inv(s) {
      TickKeepsInv(s, 0);
      assert s.(now := s.now + 0) == s;
    }
  }

  lemma AccountIsVerifiedId(t: Table, user: Account)
    requires Consistent(t) && user.userId in t.rows && t.rows[user.userId].isVerified
    ensures VerifiedId(t, FormatInt(user.userId))
  {
    ParseIntFormatInt(user.userId);
  }

  lemma IssueKeeps(s: State, token: Option<string>, claims: Claims, parent: Option<string>)
    requires Inv(s) && NewToken(s, token)
    requires token.Some? ==> GrantOk(s, Grant(claims, parent))
    ensures Keeps(s, IssueIfSigned(s, token, claims, parent))
  {
    if token.Some? {
      IssueKeepsInv(s, token.value, claims, parent);
    } else {
      UnchangedKeeps(s);
    }
  }

  lemma SessionDataIsFresh(userId: int64, clientId: string, deviceModel: string, deviceName: string,
                           language: string, location: Location)
    ensures var data := CreateSessionData(userId, clientId, deviceModel, deviceName, language, false, location);
            FreshSessionData(data, FormatInt(userId)) && data["client_id"] == clientId
  {
  }

  /** A session opened now, as the grants that name it need to see it. */
  lemma OpenedSession(s: State, userId: int64, sid: string, data: Fields)
    requires Inv(s) && sid !in s.used
    requires VerifiedId(s.table, FormatInt(userId)) && FreshSessionData(data, FormatInt(userId))
    ensures var s', k := OpenSession(s, userId, sid, data), Session(FormatInt(userId), sid);
            && Keeps(s, s') && Inv(s')
            && k in s'.openedAt && s'.openedAt[k] == s.now
            && k in s'.store && s'.store[k].value == Hash(data)
            && s'.issued == s.issued && s'.now == s.now && s'.table == s.table
  {
    OpenSessionKeepsInv(s, userId, sid, data);
    OpenSessionEffect(s, userId, sid, data);
  }

  lemma StartSessionKeeps(s: State, user: Account, client: Client, nonce: string, sid: string, data: Fields,
                          refresh: Option<string>, access: Option<string>)
    requires Inv(s) && sid !in s.used
    requires VerifiedId(s.table, FormatInt(user.userId)) && FreshSessionData(data, FormatInt(user.userId))
    requires data["client_id"] == client.clientId
    requires NewToken(s, refresh) && NewToken(s, access) && Differ(refresh, access)
    ensures Keeps(s, StartSession(s, user, client, nonce, sid, data, refresh, access))
  {
    var s1 := OpenSession(s, user.userId, sid, data);
    OpenedSession(s, user.userId, sid, data);
    var refreshClaims := UserClaims(user, Refresh, s.now, nonce, sid, client);
    var accessClaims := UserClaims(user, Access, s.now, nonce, sid, client);
    var s2 := IssueIfSigned(s1, refresh, refreshClaims, None);
    IssueKeeps(s1, refresh, refreshClaims, None);
    IssueKeeps(s2, access, accessClaims, None);
    Chain(s, s1, s2);
    Chain(s, s2, IssueIfSigned(s2, access, accessClaims, None));
  }

  lemma LoginKeeps(cfg: Config, s: State, req: LoginRequest, rnd: LoginRandom)
    requires Inv(s) && Fresh(s, DoLogin(req, rnd))
    ensures Keeps(s, Login(cfg, s, req, rnd).0)
  {
    UnchangedKeeps(s);
    var found := ByEmail(s.table, req.email);
    if req.clientId in cfg.clients && found.Some? {
      var client, user := cfg.clients[req.clientId], found.value;
      if !user.isVerified {
        PutTicketKeepsInv(s, SignUp(rnd.ticket), rnd.ticket, map["email" := user.email], SIGNUP_TTL);
      } else if IsLegacyHash(user.password) {
        PasswordChangeKeeps(s, user.email, HashPassword(cfg.crypto, req.password, rnd.salt).GetOr(""), req.password);
      } else {
        LoginSessionKeeps(s, req, rnd, client, user);
      }
    }
  }

  lemma LoginSessionKeeps(s: State, req: LoginRequest, rnd: LoginRandom, client: Client, user: Account)
    requires Inv(s) && Consistent(s.table) && Fresh(s, DoLogin(req, rnd))
    requires user.userId in s.table.rows && s.table.rows[user.userId].isVerified && client.clientId == req.clientId
    ensures Keeps(s, LoginSession(s, req, rnd, client, user).0)
  {
    hide Inv, StartSession, CreateSessionData;
    UnchangedKeeps(s);
    if rnd.sid.Some? && user.countryCode.Some? && rnd.access.Some? {
      AccountIsVerifiedId(s.table, user);
      SessionDataIsFresh(user.userId, req.clientId, req.deviceModel, req.deviceName, req.language, rnd.location);
      var data := CreateSessionData(user.userId, req.clientId, req.deviceModel, req.deviceName, req.language,
                                    false, rnd.location);
      StartSessionKeeps(s, user, client, req.nonce, rnd.sid.value, data, rnd.refresh, rnd.access);
    }
  }

  lemma PasswordChangeKeeps(s: State, email: string, encoded: string, password: string)
    requires Inv(s)
    ensures Keeps(s, SetAccountPassword(s, email, encoded, password))
  {
    var s' := SetAccountPassword(s, email, encoded, password);
    var s1 := s.(table := s'.table);
    UpdatesKeepConsistent(s.table, email, encoded);
    TableKeepsInv(s, s'.table);
    PasswordsKeepInv(s1, s'.passwords);
    Chain(s, s1, s');
  }

  lemma RegisterKeeps(cfg: Config, s: State, req: RegisterRequest, rnd: RegisterRandom)
    requires Inv(s)
    ensures Keeps(s, Register(cfg, s, req, rnd).0)
  {
    UnchangedKeeps(s);
    var hashed := HashPassword(cfg.crypto, req.password, rnd.salt).GetOr("");
    var row := Registration(req.email, hashed, req.firstName, req.lastName, req.countryCode, req.username);
    var inserted := Insert(s.table, rnd.userId, row, cfg.rowFits);
    if inserted.Some? {
      var s1 := s.(table := inserted.value);
      var s2 := s1.(passwords := s.passwords[rnd.userId := req.password]);
      InsertKeepsConsistent(s.table, rnd.userId, row, cfg.rowFits);
      TableKeepsInv(s, inserted.value);
      PasswordsKeepInv(s1, s2.passwords);
      PutTicketKeepsInv(s2, SignUp(rnd.ticket), rnd.ticket, map["email" := req.email], SIGNUP_TTL);
      Chain(s, s1, s2);
      Chain(s, s2, Register(cfg, s, req, rnd).0);
    }
  }

  lemma VerifyKeeps(cfg: Config, s: State, link: string)
    requires Inv(s)
    ensures Keeps(s, Verify(cfg, s, link).0)
  {
    UnchangedKeeps(s);
    var (store, data) := TakeHash(s.store, s.now, SignUp(link));
    if data.Some? {
      var s1 := s.(store := store);
      TakeKeepsInv(s, SignUp(link));
      UpdatesKeepConsistent(s.table, Field(data.value, "email"), "");
      TableKeepsInv(s1, SetVerified(s.table, Field(data.value, "email")));
      Chain(s, s1, s1.(table := SetVerified(s.table, Field(data.value, "email"))));
    }
  }

  lemma RequestResetKeeps(cfg: Config, s: State, mail: string, ticket: string)
    requires Inv(s)
    ensures Keeps(s, RequestReset(cfg, s, mail, ticket).0)
  {
    UnchangedKeeps(s);
    PutTicketKeepsInv(s, Reset(ticket), ticket, map["email" := mail], RESET_TTL);
  }

  lemma ResetPasswordKeeps(cfg: Config, s: State, token: string, password: string, salt: Option<seq<Byte>>)
    requires Inv(s)
    ensures Keeps(s, ResetPassword(cfg, s, token, password, salt).0)
  {
    UnchangedKeeps(s);
    var (store, data) := TakeHash(s.store, s.now, Reset(token));
    if data.Some? {
      var s1 := s.(store := store);
      TakeKeepsInv(s, Reset(token));
      var hashed := HashPassword(cfg.crypto, password, salt);
      if hashed.Some? {
        PasswordChangeKeeps(s1, Field(data.value, "email"), hashed.value, password);
        Chain(s, s1, SetAccountPassword(s1, Field(data.value, "email"), hashed.value, password));
      }
    }
  }

  /** No OP session is ever stored. */
  lemma NoOpSession(s: State, token: string)
    requires Inv(s)
    ensures FindHash(s.store, s.now, OpToken(token)).None?
  {
    assert OpToken(token) !in s.store;
  }

  /** The refresh-cookie fallback looks under a key nothing is ever stored under. */
  lemma NeverReissued(cfg: Config, s: State, client: Client, p: AuthParams, token: string, rnd: AuthRandom)
    requires Inv(s)
    ensures AuthorizeByRefresh(cfg, s, client, p, token, rnd) == (s, ToLogin(LoginURL(cfg, client, p)))
  {
    hide Inv, Reissue, LoginURL;
    NoBareKey(s, Sha256Hex(cfg.crypto, token));
  }

  lemma NoBareKey(s: State, text: string)
    requires Inv(s)
    ensures Bare(text) !in s.store
  {
  }

  lemma MintCodeKeeps(s: State, client: Client, p: AuthParams, userId: string, code: Option<Token>)
    requires Inv(s) && VerifiedId(s.table, userId)
    ensures Keeps(s, MintCode(s, client, p, userId, code).0)
  {
    UnchangedKeeps(s);
    if code.Some? {
      PutTicketKeepsInv(s, AuthCode(code.value), code.value, CodeData(client, p, userId), CODE_TTL);
    }
  }

  lemma AuthorizeKeeps(cfg: Config, s: State, p: AuthParams, cookies: Cookies, rnd: AuthRandom)
    requires Inv(s)
    ensures Keeps(s, Authorize(cfg, s, p, cookies, rnd).0)
  {
    hide Inv, LoginURL, MintCode, AuthorizeByRefresh;
    UnchangedKeeps(s);
    var checked := CheckParams(cfg, p);
    if checked.Accepted? {
      NoOpSession(s, cookies.op);
      NeverReissued(cfg, s, checked.client, p, cookies.refresh, rnd);
      var access := Validate(s.issued, s.now, cookies.access);
      if access.Some? {
        ValidatedGrant(s, cookies.access);
        MintCodeKeeps(s, checked.client, p, access.value.sub, rnd.code);
      }
    }
  }

  lemma TokenKeeps(cfg: Config, s: State, req: TokenRequest, rnd: TokenRandom)
    requires Inv(s) && Fresh(s, DoToken(req, rnd))
    ensures Keeps(s, ExchangeCode(cfg, s, req, rnd).0)
  {
    UnchangedKeeps(s);
    var checked := CheckTokenClient(cfg, req);
    var (store, data) := TakeHash(s.store, s.now, AuthCode(req.code));
    if checked.Accepted? && data.Some? {
      var s1 := s.(store := store);
      TakeKeepsInv(s, AuthCode(req.code));
      assert VerifiedId(s.table, Field(data.value, "user_id"));
      RedeemCodeKeeps(cfg, s1, req, rnd, checked.client, data.value);
      Chain(s, s1, RedeemCode(cfg, s1, req, rnd, checked.client, data.value).0);
    }
  }

  lemma RedeemCodeKeeps(cfg: Config, s: State, req: TokenRequest, rnd: TokenRandom, client: Client, data: Fields)
    requires Inv(s) && Fresh(s, DoToken(req, rnd))
    requires Consistent(s.table)
    requires VerifiedId(s.table, Field(data, "user_id")) && client.clientId == req.clientId
    ensures Keeps(s, RedeemCode(cfg, s, req, rnd, client, data).0)
  {
    hide Inv, StartSession, CreateSessionData;
    UnchangedKeeps(s);
    var user := s.table.rows[ParseInt(Field(data, "user_id")).value];
    if rnd.sid.Some? && Field(data, "client_id") == req.clientId {
      SessionDataIsFresh(user.userId, Field(data, "client_id"), "", "", "", rnd.location);
      var hash := CreateSessionData(user.userId, Field(data, "client_id"), "", "", "", false, rnd.location);
      StartSessionKeeps(s, user, client, Field(data, "nonce"), rnd.sid.value, hash, rnd.refresh, rnd.access);
    }
  }

  lemma RefreshKeeps(cfg: Config, s: State, req: RefreshRequest, rnd: RefreshRandom)
    requires Inv(s) && Fresh(s, DoRefresh(req, rnd))
    ensures Keeps(s, RefreshTokens(cfg, s, req, rnd).0)
  {
    hide Inv;
    UnchangedKeeps(s);
    var validated := Validate(s.issued, s.now, req.refreshToken);
    if validated.Some? && validated.value.tokenType.Refresh? {
      var claims := validated.value;
      ValidatedGrant(s, req.refreshToken);
      var id := ParseInt(claims.sub).value;
      var session := FindHash(s.store, s.now, Session(FormatInt(id), claims.sid));
      var user := if req.updateInfo then ById(s.table, id) else None;
      if session.Some? && rnd.access.Some? {
        RefreshSessionKeeps(s, req, claims, id, session.value, CurrentIdentity(claims, user), rnd);
      }
    }
  }

  /** When a refresh answers with tokens: the presented token was valid, and what happened next. */
  lemma RefreshAnswered(cfg: Config, s: State, req: RefreshRequest, rnd: RefreshRandom)
    returns (claims: Claims, id: int64, session: Fields, who: Identity)
    requires Inv(s) && RefreshTokens(cfg, s, req, rnd).1.Refreshed?
    ensures Validate(s.issued, s.now, req.refreshToken) == Some(claims) && claims.tokenType.Refresh?
    ensures req.refreshToken in s.issued && claims == s.issued[req.refreshToken].claims
    ensures GrantOk(s, s.issued[req.refreshToken])
    ensures ParseInt(claims.sub) == Some(id) && FormatInt(id) == claims.sub
    ensures FindHash(s.store, s.now, Session(claims.sub, claims.sid)) == Some(session)
    ensures claims.aud != [] && rnd.access.Some?
    ensures var user := if req.updateInfo then ById(s.table, id) else None;
            who == CurrentIdentity(claims, user) && (user.Some? ==> user.value.lastName.Some?)
    ensures RefreshTokens(cfg, s, req, rnd) == RefreshSession(s, req.refreshToken, claims, id, session, who, rnd)
  {
    hide Inv, RefreshSession;
    claims := Validate(s.issued, s.now, req.refreshToken).value;
    ValidatedGrant(s, req.refreshToken);
    id := ParseInt(claims.sub).value;
    session := FindHash(s.store, s.now, Session(FormatInt(id), claims.sid)).value;
    who := CurrentIdentity(claims, if req.updateInfo then ById(s.table, id) else None);
  }

  lemma StillGranted(s: State, s': State, g: Grant)
    requires Inv(s) && Grows(s, s') && GrantOk(s, g)
    ensures GrantOk(s', g)
  {
    GrantSurvives(s, s', g);
  }

  lemma RefreshSessionKeeps(s: State, req: RefreshRequest, claims: Claims, id: int64, session: Fields, who: Identity,
                            rnd: RefreshRandom)
    requires Inv(s) && Fresh(s, DoRefresh(req, rnd)) && rnd.access.Some?
    requires Validate(s.issued, s.now, req.refreshToken) == Some(claims) && claims.tokenType.Refresh?
    requires ParseInt(claims.sub) == Some(id)
    requires FindHash(s.store, s.now, Session(FormatInt(id), claims.sid)) == Some(session)
    requires claims.aud != []
    ensures Keeps(s, RefreshSession(s, req.refreshToken, claims, id, session, who, rnd).0)
  {
    hide Inv, Rotate, ExtendSession;
    var parent := Some(req.refreshToken);
    ValidatedGrant(s, req.refreshToken);
    assert claims.aud == [claims.aud[0]];
    var access := NewClaims(id, who.email, who.firstName, who.lastName, Access, s.now, claims.nonce, claims.sid,
                            who.country.GetOr("N/A"), claims.aud[0]);
    if !RotationDue(claims, s.now) {
      var s1 := s.(store := ExtendSession(s.store, s.now, FormatInt(id), claims.sid));
      ExtendKeepsInv(s, FormatInt(id), claims.sid);
      StillGranted(s, s1, s.issued[req.refreshToken]);
      IssueKeeps(s1, rnd.access, access, parent);
      Chain(s, s1, Issue(s1, rnd.access.value, access, parent));
    } else if rnd.sid.None? || rnd.refresh.None? {
      IssueKeeps(s, rnd.access, access, parent);
    } else {
      RotateKeeps(s, req, claims, id, Field(session, "client_id"), who.country.GetOr("N/A"), rnd.sid.value, rnd);
    }
  }

  lemma BareSidIsNoKey(s: State, sid: string)
    requires Inv(s)
    ensures Del(s.store, Bare(sid)) == s.store
  {
    DelBareChangesNothing(s, sid);
  }

  /** The tokens of a rotation are in order once the new session stands. */
  lemma RotatedGrantOk(s: State, s2: State, token: string, claims: Claims, id: int64, t: TokenType, sid: string,
                       country: string)
    requires token in s.issued && s.issued[token].claims == claims && GrantOk(s, s.issued[token])
    requires Validate(s.issued, s.now, token) == Some(claims) && claims.tokenType.Refresh?
    requires ParseInt(claims.sub) == Some(id) && RotationDue(claims, s.now)
    requires token in s2.issued && s2.issued[token] == s.issued[token]
    requires s2.now == s.now && s2.table == s.table
    requires var k := Session(claims.sub, sid);
             && k in s2.openedAt && s2.openedAt[k] == s.now && k in s2.store && s2.store[k].value.Hash?
             && Field(s2.store[k].value.fields, "client_id") == claims.aud[0]
    ensures GrantOk(s2, Grant(RotatedClaims(claims, id, t, s.now, sid, country), Some(token)))
  {
    assert claims.aud == [claims.aud[0]];
  }

  lemma RotateKeeps(s: State, req: RefreshRequest, claims: Claims, id: int64, clientId: string, country: string,
                    sid: string, rnd: RefreshRandom)
    requires Inv(s) && Fresh(s, DoRefresh(req, rnd)) && sid !in s.used
    requires Validate(s.issued, s.now, req.refreshToken) == Some(claims) && claims.tokenType.Refresh?
    requires ParseInt(claims.sub) == Some(id) && RotationDue(claims, s.now)
    requires claims.aud == [clientId]
    ensures Keeps(s, Rotate(s, req.refreshToken, claims, id, clientId, country, sid, rnd))
  {
    hide Inv, OpenSession, CreateSessionData;
    var parent := Some(req.refreshToken);
    ValidatedGrant(s, req.refreshToken);
    BareSidIsNoKey(s, claims.sid);
    var data := CreateSessionData(id, clientId, "", "", "", false, rnd.location);
    SessionDataIsFresh(id, clientId, "", "", "", rnd.location);
    var s2 := OpenSession(s, id, sid, data);
    OpenedSession(s, id, sid, data);
    var refreshClaims := RotatedClaims(claims, id, Refresh, s.now, sid, country);
    var accessClaims := RotatedClaims(claims, id, Access, s.now, sid, country);
    var s3 := IssueIfSigned(s2, rnd.refresh, refreshClaims, parent);
    RotatedGrantOk(s, s2, req.refreshToken, claims, id, Refresh, sid, country);
    IssueKeeps(s2, rnd.refresh, refreshClaims, parent);
    Chain(s, s2, s3);
    RotatedGrantOk(s, s3, req.refreshToken, claims, id, Access, sid, country);
    IssueKeeps(s3, rnd.access2, accessClaims, parent);
    Chain(s, s3, IssueIfSigned(s3, rnd.access2, accessClaims, parent));
  }

  lemma LogoutKeeps(cfg: Config, s: State, authorization: string)
    requires Inv(s)
    ensures Logout(cfg, s, authorization).0 == s
  {
    hide Inv, Split, Validate;
    var parts := Split(authorization, "Bearer ");
    if |parts| > 1 {
      var claims := Validate(s.issued, s.now, parts[1]);
      if claims.Some? {
        BareSidIsNoKey(s, claims.value.sid);
      }
    }
  }

  lemma UpdateProfileKeeps(cfg: Config, s: State, header: string, cookie: string, body: Settings.ProfileBody)
    requires Inv(s)
    ensures Keeps(s, UpdateProfile(cfg, s, header, cookie, body).0)
  {
    hide Inv, Grows, Consistent, TableGrows, Authenticate, Settings.ProfileEdit;
    UnchangedKeeps(s);
    match Authenticate(s, header, cookie)
    case Denied(_) =>
    case Context(id, _) =>
      ProfileEditGrows(s, id, body, cfg.fits);
      TableKeepsInv(s, Settings.ProfileEdit(s.table, id, body, cfg.fits));
  }

  lemma ProfileEditGrows(s: State, id: int64, body: Settings.ProfileBody, fits: (Settings.Column, string) -> bool)
    requires Inv(s)
    ensures var t := Settings.ProfileEdit(s.table, id, body, fits); Consistent(t) && TableGrows(s.table, t)
  {
    hide StoreOk, SessionsOk, IndexesOk, GrantsOk, CodesOk, Settings.Fits;
  }

  /** Every step keeps the invariant, and no step takes back an account, a verification, a token,
      a session or any part of a session's remaining life. */
  lemma StepKeeps(cfg: Config, s: State, step: Step)
    requires Inv(s) && Fresh(s, step)
    ensures var s' := Exec(cfg, s, step).0; Inv(s') && Grows(s, s')
  {
    hide Inv, Grows, Login, Register, Verify, RequestReset, ResetPassword, Authorize, ExchangeCode, RefreshTokens,
         Logout, UpdateProfile;
    UnchangedKeeps(s);
    match step
    case Tick(seconds) => TickKeepsInv(s, seconds);
    case DoLogin(req, rnd) => LoginKeeps(cfg, s, req, rnd);
    case DoRegister(req, rnd) => RegisterKeeps(cfg, s, req, rnd);
    case DoVerify(link) => VerifyKeeps(cfg, s, link);
    case DoRequestReset(mail, ticket) => RequestResetKeeps(cfg, s, mail, ticket);
    case DoResetPassword(token, password, salt) => ResetPasswordKeeps(cfg, s, token, password, salt);
    case DoAuthorize(p, cookies, rnd) => AuthorizeKeeps(cfg, s, p, cookies, rnd);
    case DoToken(req, rnd) => TokenKeeps(cfg, s, req, rnd);
    case DoRefresh(req, rnd) => RefreshKeeps(cfg, s, req, rnd);
    case DoLogout(authorization) => LogoutKeeps(cfg, s, authorization);
    case DoIntrospect(_) =>
    case DoUserInfo(_, _) =>
    case DoUpdateProfile(header, cookie, body) => UpdateProfileKeeps(cfg, s, header, cookie, body);
  }
}
