/** The flows from end to end, as they happen among everybody else's requests: what a well-behaved client
    and user get. */
module Flow {
  import opened Wrappers
  import opened GoStrings
  import opened Decimal
  import opened Passwords
  import opened Base64
  import opened Keys
  import opened Redis
  import opened Accounts
  import opened Jwt
  import opened TokenStore
  import opened Protocol
  import opened Invariant
  import opened Steps
  import opened Runs
  import opened Requests
  import opened Authentication
  import opened Provenance
  import opened PasswordHistory
  import Sessions

  // ---- signing in ----

  /** Step i is a login that was answered with tokens. Step a authorizes with its access token, within 15
      minutes. Step e redeems the code minted there, within 60 seconds, for the same client and redirect URI
      and with the secret or verifier that proves the client. Nobody redeems that code in between; all other
      requests may come in any number and order. */
  ghost predicate SignsIn(r: Run, i: nat, a: nat, e: nat)
    requires IsRun(r)
  {
    && i < a < e < |r.steps|
    && r.steps[i].DoLogin? && ReplyAt(r, i).Tokens?
    && r.steps[a].DoAuthorize? && r.steps[a].cookies.access == ReplyAt(r, i).access
    && ProperRequest(r.cfg, r.steps[a].params)
    && r.states[a].now < r.states[i].now + 900
    && r.steps[e].DoToken? && r.steps[a].authRnd.code == Some(r.steps[e].exchange.code)
    && r.states[e].now < r.states[a].now + 60
    && ProvesItself(r.cfg, r.steps[a].params, r.steps[e].exchange)
    && CanIssue(r.steps[e].tokenRnd)
    && forall m :: a < m < e ==> Redeemed(r.cfg, r.steps[m]) != Some(AuthCode(r.steps[e].exchange.code))
  }

  /** The exchange is the authorized client's own. */
  predicate ProvesItself(cfg: Config, p: AuthParams, req: TokenRequest) {
    && req.clientId == p.clientId && req.redirectURI == p.redirectURI && ClientProven(cfg, req)
    && (cfg.clients[req.clientId].isPublic ==> IsChallengeOf(cfg.crypto, req.codeVerifier, p.codeChallenge))
  }

  predicate CanIssue(rnd: TokenRandom) {
    rnd.sid.Some? && rnd.refresh.Some? && rnd.access.Some?
  }

  lemma LoginGives(cfg: Config, s: State, req: LoginRequest, rnd: LoginRandom)
    requires Login(cfg, s, req, rnd).1.Tokens? && Differ(rnd.refresh, rnd.access)
    ensures rnd.access.Some?
    ensures var s' := Login(cfg, s, req, rnd).0;
            && s'.table == s.table && s'.now == s.now && ByEmail(s.table, req.email).Some?
            && rnd.access.value in s'.issued
            && var c := s'.issued[rnd.access.value].claims;
               c.sub == FormatInt(ByEmail(s.table, req.email).value.userId) && c.tokenType.Access?
               && c.iat == s.now && c.exp == s.now + 900
  {
    hide InsertSession, CreateSessionData, CheckPasswordHash, IsLegacyHash, HashPassword, PutHash, SetAccountPassword;
  }

  lemma TokensDiffer(s: State, req: LoginRequest, rnd: LoginRandom)
    requires Fresh(s, DoLogin(req, rnd))
    ensures Differ(rnd.refresh, rnd.access)
  {
  }

  lemma AnswersOwnToken(cfg: Config, s: State, req: LoginRequest, rnd: LoginRandom)
    requires Login(cfg, s, req, rnd).1.Tokens?
    ensures rnd.access == Some(Login(cfg, s, req, rnd).1.access)
    ensures ByEmail(s.table, req.email).Some? && ByEmail(s.table, req.email).value.countryCode.Some?
  {
    hide StartSession, CreateSessionData, CheckPasswordHash, IsLegacyHash, HashPassword, PutHash, SetAccountPassword;
  }

  /** The access token of a login is valid for 15 minutes, whatever others do. */
  lemma LoginLasts(r: Run, i: nat, n: nat)
    requires IsRun(r) && i < n < |r.states| && r.steps[i].DoLogin? && ReplyAt(r, i).Tokens?
    requires r.states[n].now < r.states[i].now + 900
    ensures ByEmail(r.states[i].table, r.steps[i].login.email).Some?
    ensures var s := r.states[n];
            && Validate(s.issued, s.now, ReplyAt(r, i).access).Some?
            && var c := Validate(s.issued, s.now, ReplyAt(r, i).access).value;
               c.tokenType.Access?
               && c.sub == FormatInt(ByEmail(r.states[i].table, r.steps[i].login.email).value.userId)
  {
    hide Inv, Login;
    assert Fresh(r.states[i], r.steps[i]);
    TokensDiffer(r.states[i], r.steps[i].login, r.steps[i].loginRnd);
    LoginGives(r.cfg, r.states[i], r.steps[i].login, r.steps[i].loginRnd);
    AnswersOwnToken(r.cfg, r.states[i], r.steps[i].login, r.steps[i].loginRnd);
    RunGrows(r, i + 1, n);
  }

  /** The code is stored for the subject of the access token. */
  lemma AuthorizeStores(cfg: Config, s: State, p: AuthParams, cookies: Cookies, rnd: AuthRandom)
    requires Inv(s) && rnd.code.Some? && rnd.code.value !in s.used
    requires CheckParams(cfg, p).Accepted?
    requires Validate(s.issued, s.now, cookies.access).Some?
    requires Validate(s.issued, s.now, cookies.access).value.tokenType.Access?
    ensures var s' := Authorize(cfg, s, p, cookies, rnd).0;
            var client, access := CheckParams(cfg, p).client, Validate(s.issued, s.now, cookies.access).value;
            && AuthCode(rnd.code.value) in s'.store
            && s'.store[AuthCode(rnd.code.value)]
               == Entry(Hash(CodeData(client, p, access.sub)), Some(s.now + CODE_TTL))
            && s'.now == s.now && s'.table == s.table
  {
    hide Inv, PutHash, LoginURL, AuthorizeByRefresh, CodeData, CheckParams, Validate;
    var client, access := CheckParams(cfg, p).client, Validate(s.issued, s.now, cookies.access).value;
    Sessions.NoEmptyToken(s);
    TokenIsNotEmpty(s, cookies.access);
    NoOpSession(s, cookies.op);
    NewTicketKey(s, AuthCode(rnd.code.value));
    PutNewHash(s.store, s.now, AuthCode(rnd.code.value), CodeData(client, p, access.sub), CODE_TTL);
  }

  lemma TokenIsNotEmpty(s: State, token: string)
    requires Inv(s) && Validate(s.issued, s.now, token).Some?
    ensures token != ""
  {
  }

  /** The code of an authorization can be read until somebody redeems it or its 60 seconds are over. */
  lemma CodeLasts(r: Run, a: nat, n: nat, code: Token)
    requires IsRun(r) && a < n < |r.states| && r.steps[a].DoAuthorize? && r.steps[a].authRnd.code == Some(code)
    requires CheckParams(r.cfg, r.steps[a].params).Accepted?
    requires Validate(r.states[a].issued, r.states[a].now, r.steps[a].cookies.access).Some?
    requires Validate(r.states[a].issued, r.states[a].now, r.steps[a].cookies.access).value.tokenType.Access?
    requires r.states[n].now < r.states[a].now + 60
    requires forall m :: a < m < n ==> Redeemed(r.cfg, r.steps[m]) != Some(AuthCode(code))
    ensures var c := Validate(r.states[a].issued, r.states[a].now, r.steps[a].cookies.access).value;
            FindHash(r.states[n].store, r.states[n].now, AuthCode(code))
            == Some(CodeData(CheckParams(r.cfg, r.steps[a].params).client, r.steps[a].params, c.sub))
  {
    hide Inv, Authorize, CheckParams, Validate, CodeData, FindHash, Redeemed;
    RunInv(r, a);
    assert Fresh(r.states[a], r.steps[a]);
    AuthorizeStores(r.cfg, r.states[a], r.steps[a].params, r.steps[a].cookies, r.steps[a].authRnd);
    TicketStays(r, a + 1, n, AuthCode(code));
    var sub := Validate(r.states[a].issued, r.states[a].now, r.steps[a].cookies.access).value.sub;
    CodeDataFound(r.states[n].store, r.states[n].now, AuthCode(code), CheckParams(r.cfg, r.steps[a].params).client,
                  r.steps[a].params, sub);
  }

  lemma CodeDataFound(db: Store<Key>, now: int, k: Key, client: Client, p: AuthParams, sub: string)
    requires k in db && db[k].value == Hash(CodeData(client, p, sub))
    requires db[k].expiry.Some? && now < db[k].expiry.value
    ensures FindHash(db, now, k) == Some(CodeData(client, p, sub))
  {
    assert "user_id" in CodeData(client, p, sub);
  }

  lemma CodeDataFits(cfg: Config, p: AuthParams, req: TokenRequest, sub: string)
    requires CheckParams(cfg, p).Accepted? && ProvesItself(cfg, p, req)
    ensures var data := CodeData(CheckParams(cfg, p).client, p, sub);
            && CodeFits(cfg, req, data) && Field(data, "user_id") == sub && Field(data, "nonce") == p.nonce
  {
    hide IsChallengeOf, ClientProven;
  }

  /** An account with a country keeps it under its id. */
  lemma HasOwnCountry(s: State, s': State, email: string)
    requires Consistent(s.table) && TableGrows(s.table, s'.table) && ByEmail(s.table, email).Some?
    requires ByEmail(s.table, email).value.countryCode.Some?
    ensures HasCountry(s', FormatInt(ByEmail(s.table, email).value.userId))
  {
    ParseIntFormatInt(ByEmail(s.table, email).value.userId);
  }

  lemma ExchangeWorks(cfg: Config, s: State, req: TokenRequest, rnd: TokenRandom, data: Fields)
    requires Inv(s) && Fresh(s, DoToken(req, rnd))
    requires ClientProven(cfg, req) && CodeFits(cfg, req, data) && HasCountry(s, Field(data, "user_id"))
    requires FindHash(s.store, s.now, AuthCode(req.code)) == Some(data)
    requires rnd.sid.Some? && rnd.refresh.Some? && rnd.access.Some?
    ensures var (s', reply) := ExchangeCode(cfg, s, req, rnd);
            var sub, nonce := Field(data, "user_id"), Field(data, "nonce");
            && reply.Tokens? && s'.now == s.now
            && Says(s'.issued, reply.access, sub, nonce, req.clientId, s.now)
            && Says(s'.issued, reply.refresh, sub, nonce, req.clientId, s.now)
            && Introspect(cfg, s', reply.access) == Active(sub, s.now + 900, Access)
  {
    hide Inv, Fresh, Grows, ExchangeCode, ClientProven, CodeFits, HasCountry, FindHash, Introspect, S256;
    ExchangeAnswersExactly(cfg, s, req, rnd);
    var again := ExchangeAnswered(cfg, s, req, rnd);
    var (s', reply) := ExchangeCode(cfg, s, req, rnd);
    StepKeeps(cfg, s, DoToken(req, rnd));
    ExchangeHandsOut(cfg, s, req, rnd);
    Sessions.TokenIssues(cfg, s, req, rnd, reply.access);
    NewAccessIsActive(cfg, s', reply.access);
  }

  lemma ExchangeHandsOut(cfg: Config, s: State, req: TokenRequest, rnd: TokenRandom)
    requires Fresh(s, DoToken(req, rnd)) && ExchangeCode(cfg, s, req, rnd).1.Tokens?
    ensures var (s', reply) := ExchangeCode(cfg, s, req, rnd);
            && s'.now == s.now && reply.access !in s.issued
            && reply.access in s'.issued && s'.issued[reply.access].claims.tokenType.Access?
  {
    hide InsertSession, CreateSessionData, CheckTokenClient, TakeHash, S256, ClientProven;
    TokenClientChecked(cfg, req);
  }

  /** A token issued now together with its session is confirmed by introspection. */
  lemma NewAccessIsActive(cfg: Config, s: State, token: string)
    requires Inv(s) && token in s.issued && s.issued[token].claims.tokenType.Access?
    requires var c := s.issued[token].claims;
             c.iat == s.now && Session(c.sub, c.sid) in s.openedAt && c.iat == s.openedAt[Session(c.sub, c.sid)]
    ensures Introspect(cfg, s, token) == Active(s.issued[token].claims.sub, s.now + 900, Access)
  {
    hide Inv, FindHash;
    Sessions.IssuedGrant(s, token);
    Sessions.NewSessionCovers(s, token);
    Sessions.LiveSession(s, s.issued[token].claims);
  }

  /** Whatever other requests the run holds: a login that was answered, an authorization with its access
      token and a proper exchange of the code give tokens for the account that logged in, with the nonce and
      for the client of the authorization, and introspection confirms the access token. */
  lemma SignInWorks(r: Run, i: nat, a: nat, e: nat)
    requires IsRun(r) && SignsIn(r, i, a, e)
    ensures ByEmail(r.states[i].table, r.steps[i].login.email).Some?
    ensures var sub := FormatInt(ByEmail(r.states[i].table, r.steps[i].login.email).value.userId);
            var p, s, s', reply := r.steps[a].params, r.states[e], r.states[e + 1], ReplyAt(r, e);
            && reply.Tokens?
            && Says(s'.issued, reply.access, sub, p.nonce, p.clientId, s.now)
            && Says(s'.issued, reply.refresh, sub, p.nonce, p.clientId, s.now)
            && Introspect(r.cfg, s', reply.access) == Active(sub, s.now + 900, Access)
  {
    hide Inv, Grows, Login, Authorize, ExchangeCode, FindHash, Says, Introspect, CodeData, CheckParams, CodeFits,
         HasCountry, ProvesItself, Validate, Redeemed, TableGrows;
    LoginLasts(r, i, a);
    CheckParamsExactly(r.cfg, r.steps[a].params);
    AnswersOwnToken(r.cfg, r.states[i], r.steps[i].login, r.steps[i].loginRnd);
    CodeLasts(r, a, e, r.steps[e].exchange.code);
    AccountsLast(r, i, e);
    var sub := FormatInt(ByEmail(r.states[i].table, r.steps[i].login.email).value.userId);
    HasOwnCountry(r.states[i], r.states[e], r.steps[i].login.email);
    CodeDataFits(r.cfg, r.steps[a].params, r.steps[e].exchange, sub);
    ItIsProven(r.cfg, r.steps[a].params, r.steps[e].exchange);
    assert Fresh(r.states[e], r.steps[e]);
    ExchangeWorks(r.cfg, r.states[e], r.steps[e].exchange, r.steps[e].tokenRnd,
                  CodeData(CheckParams(r.cfg, r.steps[a].params).client, r.steps[a].params, sub));
  }

  lemma ItIsProven(cfg: Config, p: AuthParams, req: TokenRequest)
    requires ProvesItself(cfg, p, req)
    ensures ClientProven(cfg, req) && req.clientId == p.clientId
  {
  }

  lemma AccountsLast(r: Run, m: nat, n: nat)
    requires IsRun(r) && m <= n < |r.states|
    ensures Inv(r.states[n]) && Consistent(r.states[m].table) && Consistent(r.states[n].table)
    ensures TableGrows(r.states[m].table, r.states[n].table)
  {
    hide Exec, Fresh;
    RunGrows(r, m, n);
  }

  // ---- becoming a user, and recovering an account ----

  /** The login comes from a registered client, for an address of valid form. */
  predicate ProperLogin(cfg: Config, login: LoginRequest) {
    && cfg.emailIsValid(login.email) && login.clientId != "" && login.clientId in cfg.clients
    && (cfg.clients[login.clientId].isPublic || cfg.clients[login.clientId].redirectURI == login.redirectURI)
  }

  /** Nobody changes this account's password from step m up to n. */
  ghost predicate PasswordRests(r: Run, m: nat, n: nat, u: int64)
    requires IsRun(r) && n < |r.states|
  {
    forall i :: m <= i < n ==> !PasswordChanged(r.states[i].table, r.states[i + 1].table, u)
  }

  lemma {:induction false} PasswordStays(r: Run, m: nat, n: nat, u: int64)
    requires IsRun(r) && m <= n < |r.states| && PasswordRests(r, m, n, u) && u in r.states[m].table.rows
    ensures u in r.states[n].table.rows
    ensures r.states[n].table.rows[u].password == r.states[m].table.rows[u].password
    decreases n
  {
    hide Inv, Exec, Fresh;
    if m < n {
      PasswordStays(r, m, n - 1, u);
      AccountsLast(r, n - 1, n);
    }
  }

  /** An account stays the one its email names, and stays verified and with a country if it was. */
  lemma SameAccount(t: Table, t': Table, u: int64)
    requires Consistent(t) && Consistent(t') && TableGrows(t, t') && u in t.rows
    ensures u in t'.rows && ByEmail(t', t.rows[u].email) == Some(t'.rows[u]) && t'.rows[u].userId == u
    ensures t'.rows[u].email == t.rows[u].email
    ensures t.rows[u].isVerified ==> t'.rows[u].isVerified
    ensures t.rows[u].countryCode.Some? ==> t'.rows[u].countryCode.Some?
  {
  }

  /** A login is answered when it shows the password an account was given and that rested since. */
  lemma LoginAfter(r: Run, m: nat, l: nat, u: int64)
    requires IsRun(r) && m <= l < |r.steps| && PasswordRests(r, m, l, u) && u in r.states[m].table.rows
    requires var user := r.states[m].table.rows[u];
             && r.steps[l].DoLogin? && r.steps[l].login.email == user.email
             && CheckPasswordHash(r.cfg.crypto, r.steps[l].login.password, user.password)
             && !IsLegacyHash(user.password)
    requires ProperLogin(r.cfg, r.steps[l].login) && u in r.states[l].table.rows && r.states[l].table.rows[u].isVerified
    requires SessionPossible(r.states[l], r.steps[l].login, r.steps[l].loginRnd)
    ensures var s, reply := r.states[l], ReplyAt(r, l);
            && reply.Tokens?
            && Says(r.states[l + 1].issued, reply.access, FormatInt(u), r.steps[l].login.nonce,
                    r.steps[l].login.clientId, s.now)
  {
    hide Inv, Login, CheckPasswordHash, Accepts, IsLegacyHash, IsBcrypt, TableGrows, Consistent, Says, SessionPossible;
    ChecksSay(r.cfg, r.steps[l].login.password, r.states[m].table.rows[u].password);
    AccountsLast(r, m, l);
    PasswordStays(r, m, l, u);
    SameAccount(r.states[m].table, r.states[l].table, u);
    LoginAnswersExactly(r.cfg, r.states[l], r.steps[l].login, r.steps[l].loginRnd);
    assert Fresh(r.states[l], r.steps[l]);
    TokensDiffer(r.states[l], r.steps[l].login, r.steps[l].loginRnd);
    LoginSays(r.cfg, r.states[l], r.steps[l].login, r.steps[l].loginRnd);
  }

  /** The mail ticket that step m stored is found by step v, within its lifetime and not redeemed before. */
  lemma TicketFound(r: Run, m: nat, v: nat, k: Key)
    requires IsRun(r) && m < v < |r.steps| && IsTicket(k) && TicketValue(k) != ""
    requires r.steps[m].DoRegister? || r.steps[m].DoRequestReset?
    requires Written(r.steps[m]) == Some(k) && k in r.states[m + 1].store
    requires r.states[v].now < r.states[m].now + TicketTtl(k)
    requires forall i :: m < i < v ==> Redeemed(r.cfg, r.steps[i]) != Some(k)
    ensures FindHash(r.states[v].store, r.states[v].now, k) == Some(map["email" := MintedFor(r.steps[m])])
  {
    hide Inv, Exec, Redeemed, Written;
    RunInv(r, m);
    WrittenIsNew(r.states[m], r.steps[m], k);
    NewTicketKey(r.states[m], k);
    MailTicketMinted(r.cfg, r.states[m], r.steps[m], k);
    TicketStays(r, m + 1, v, k);
    assert "email" in map["email" := MintedFor(r.steps[m])];
  }

  lemma RegisteredRow(cfg: Config, s: State, req: RegisterRequest, rnd: RegisterRandom)
    requires Register(cfg, s, req, rnd).1 == Done
    ensures var s' := Register(cfg, s, req, rnd).0;
            && s'.store == PutHash(s.store, s.now, SignUp(rnd.ticket), map["email" := req.email], SIGNUP_TTL)
            && rnd.userId in s'.table.rows
            && var user := s'.table.rows[rnd.userId];
               && user.email == req.email && user.countryCode.Some? && !IsLegacyHash(user.password)
               && CheckPasswordHash(cfg.crypto, req.password, user.password)
  {
    hide CheckPasswordHash, HashPassword, IsLegacyHash, PutHash;
    HashOutcome(cfg, req.password, rnd.salt);
    HashMade(cfg, req.password, rnd.salt);
  }

  lemma PutIsThere(db: Store<Key>, now: int, k: Key, fields: Fields, ttl: int)
    ensures k in PutHash(db, now, k, fields, ttl)
  {
  }

  lemma VerifyTakesEffect(cfg: Config, s: State, link: string, u: int64)
    requires Consistent(s.table) && u in s.table.rows && link != ""
    requires FindHash(s.store, s.now, SignUp(link)) == Some(map["email" := s.table.rows[u].email])
    ensures Verify(cfg, s, link).1 == Done
    ensures u in Verify(cfg, s, link).0.table.rows && Verify(cfg, s, link).0.table.rows[u].isVerified
  {
    hide FindHash;
  }

  /** Step i registers, step v follows the mailed link within 24 hours, step l logs in with the chosen
      password. Nobody else follows the link, and no reset changes the password in between. */
  ghost predicate SignsUp(r: Run, i: nat, v: nat, l: nat)
    requires IsRun(r)
  {
    && i < v < l < |r.steps|
    && r.steps[i].DoRegister? && ReplyAt(r, i) == Done && r.steps[i].registerRnd.ticket != ""
    && r.steps[v] == DoVerify(r.steps[i].registerRnd.ticket) && r.states[v].now < r.states[i].now + 86_400
    && (forall m :: i < m < v ==> Redeemed(r.cfg, r.steps[m]) != Some(SignUp(r.steps[i].registerRnd.ticket)))
    && r.steps[l].DoLogin? && ProperLogin(r.cfg, r.steps[l].login)
    && r.steps[l].login.email == r.steps[i].register.email
    && r.steps[l].login.password == r.steps[i].register.password
    && r.steps[l].loginRnd.sid.Some? && r.steps[l].loginRnd.access.Some?
    && PasswordRests(r, i + 1, l, r.steps[i].registerRnd.userId)
  }

  /** Whoever registers and follows the mailed link in time gets tokens for the new account. */
  lemma SignUpWorks(r: Run, i: nat, v: nat, l: nat)
    requires IsRun(r) && SignsUp(r, i, v, l)
    ensures ReplyAt(r, v) == Done && ReplyAt(r, l).Tokens?
    ensures Says(r.states[l + 1].issued, ReplyAt(r, l).access, FormatInt(r.steps[i].registerRnd.userId),
                 r.steps[l].login.nonce, r.steps[l].login.clientId, r.states[l].now)
  {
    hide Inv, Register, Verify, Login, CheckPasswordHash, IsLegacyHash, PutHash, FindHash, Redeemed, ProperLogin,
         Says, PasswordRests, TableGrows, Consistent;
    var req, rnd := r.steps[i].register, r.steps[i].registerRnd;
    RegisteredRow(r.cfg, r.states[i], req, rnd);
    PutIsThere(r.states[i].store, r.states[i].now, SignUp(rnd.ticket), map["email" := req.email], SIGNUP_TTL);
    TicketFound(r, i, v, SignUp(rnd.ticket));
    AccountsLast(r, i + 1, v);
    SameAccount(r.states[i + 1].table, r.states[v].table, rnd.userId);
    VerifyTakesEffect(r.cfg, r.states[v], rnd.ticket, rnd.userId);
    AccountsLast(r, v + 1, l);
    SameAccount(r.states[v + 1].table, r.states[l].table, rnd.userId);
    AccountsLast(r, i + 1, l);
    SameAccount(r.states[i + 1].table, r.states[l].table, rnd.userId);
    LoginAfter(r, i + 1, l, rnd.userId);
  }

  lemma ResetTakesEffect(cfg: Config, s: State, token: string, password: string, salt: Option<seq<Byte>>, u: int64)
    requires Consistent(s.table) && u in s.table.rows && token != "" && password != "" && salt.Some?
    requires FindHash(s.store, s.now, Reset(token)) == Some(map["email" := s.table.rows[u].email])
    ensures var (s', reply) := ResetPassword(cfg, s, token, password, salt);
            && reply == Done && u in s'.table.rows && s'.table.rows[u].email == s.table.rows[u].email
            && CheckPasswordHash(cfg.crypto, password, s'.table.rows[u].password)
            && !IsLegacyHash(s'.table.rows[u].password)
  {
    hide FindHash, HashPassword, CheckPasswordHash, IsLegacyHash;
    HashOutcome(cfg, password, salt);
    HashMade(cfg, password, salt);
  }

  /** Step i asks for a reset of account u, step v follows the mailed link within 150 minutes and sets a new
      password, step l logs in with it. Nobody else follows the link, and the new password rests. */
  ghost predicate Recovers(r: Run, i: nat, v: nat, l: nat, u: int64)
    requires IsRun(r)
  {
    && i < v < l < |r.steps|
    && r.steps[i].DoRequestReset? && r.cfg.emailIsValid(r.steps[i].mail) && r.steps[i].ticket != ""
    && u in r.states[i].table.rows && r.states[i].table.rows[u].email == r.steps[i].mail
    && r.steps[v].DoResetPassword? && r.steps[v].resetToken == r.steps[i].ticket
    && r.steps[v].password != "" && r.steps[v].salt.Some?
    && r.states[v].now < r.states[i].now + 9_000
    && (forall m :: i < m < v ==> Redeemed(r.cfg, r.steps[m]) != Some(Reset(r.steps[i].ticket)))
    && r.steps[l].DoLogin? && ProperLogin(r.cfg, r.steps[l].login)
    && r.steps[l].login.email == r.steps[i].mail && r.steps[l].login.password == r.steps[v].password
    && u in r.states[l].table.rows && r.states[l].table.rows[u].isVerified
    && SessionPossible(r.states[l], r.steps[l].login, r.steps[l].loginRnd)
    && PasswordRests(r, v + 1, l, u)
  }

  lemma ResetIsRequested(cfg: Config, s: State, mail: string, ticket: string, u: int64)
    requires Consistent(s.table) && u in s.table.rows && s.table.rows[u].email == mail && cfg.emailIsValid(mail)
    ensures Reset(ticket) in RequestReset(cfg, s, mail, ticket).0.store
  {
    hide PutHash;
    PutIsThere(s.store, s.now, Reset(ticket), map["email" := mail], RESET_TTL);
  }

  /** Whoever asks for a reset of an account and follows the mailed link in time gets tokens for it with the
      new password, also when the old hash was a bcrypt one. */
  lemma RecoveryWorks(r: Run, i: nat, v: nat, l: nat, u: int64)
    requires IsRun(r) && Recovers(r, i, v, l, u)
    ensures ReplyAt(r, v) == Done && ReplyAt(r, l).Tokens?
    ensures Says(r.states[l + 1].issued, ReplyAt(r, l).access, FormatInt(u), r.steps[l].login.nonce,
                 r.steps[l].login.clientId, r.states[l].now)
  {
    hide Inv, RequestReset, ResetPassword, Login, CheckPasswordHash, IsLegacyHash, FindHash, Redeemed, ProperLogin,
         Says, PasswordRests, TableGrows, Consistent, SessionPossible;
    var mail, ticket := r.steps[i].mail, r.steps[i].ticket;
    AccountsLast(r, i, v);
    ResetIsRequested(r.cfg, r.states[i], mail, ticket, u);
    TicketFound(r, i, v, Reset(ticket));
    SameAccount(r.states[i].table, r.states[v].table, u);
    ResetTakesEffect(r.cfg, r.states[v], ticket, r.steps[v].password, r.steps[v].salt, u);
    LoginAfter(r, v + 1, l, u);
  }
}
