/** Exactly when each endpoint hands something out, and what stands at the beginning of every token. */
module Authentication {
  import opened Wrappers
  import opened GoStrings
  import opened Decimal
  import opened Passwords
  import opened Keys
  import opened Redis
  import opened Accounts
  import opened Jwt
  import opened TokenStore
  import opened Protocol
  import opened Invariant
  import opened Steps
  import opened Runs
  import opened Requests
  import opened QueryStrings
  import Sessions
  import Provenance
  import Lineage

  // ---- login ----

  /** The request comes from a registered client and shows the password of a verified account. */
  predicate PasswordShown(cfg: Config, s: State, req: LoginRequest) {
    && cfg.emailIsValid(req.email) && req.clientId != "" && req.clientId in cfg.clients
    && (cfg.clients[req.clientId].isPublic || cfg.clients[req.clientId].redirectURI == req.redirectURI)
    && ByEmail(s.table, req.email).Some?
    && var user := ByEmail(s.table, req.email).value;
       user.isVerified && Accepts(cfg.crypto, req.password, user.password)
  }

  predicate HasLegacyHash(s: State, email: string) {
    ByEmail(s.table, email).Some? && IsBcrypt(ByEmail(s.table, email).value.password)
  }

  /** The handler's own two checks of a stored hash say just that. */
  lemma ChecksSay(cfg: Config, password: string, hash: string)
    ensures CheckPasswordHash(cfg.crypto, password, hash) <==> Accepts(cfg.crypto, password, hash)
    ensures IsLegacyHash(hash) <==> IsBcrypt(hash)
  {
    CheckPasswordExactly(cfg.crypto, password, hash);
    LegacyIsBcrypt(hash);
  }

  /** Everything a session needs can be made, and the account's country is not NULL. */
  predicate SessionPossible(s: State, req: LoginRequest, rnd: LoginRandom) {
    && rnd.sid.Some? && rnd.access.Some?
    && ByEmail(s.table, req.email).Some? && ByEmail(s.table, req.email).value.countryCode.Some?
  }

  lemma LoginSessionAnswers(s: State, req: LoginRequest, rnd: LoginRandom, client: Client, user: Account)
    ensures !LoginSession(s, req, rnd, client, user).1.NoBody?
    ensures LoginSession(s, req, rnd, client, user).1.Tokens?
       <==> rnd.sid.Some? && rnd.access.Some? && user.countryCode.Some?
  {
    hide StartSession, CreateSessionData;
  }

  /** A login gives tokens exactly when the password of a verified account is shown, its hash is modern and
      the session can be made; only the migration of a bcrypt hash returns without an answer. */
  lemma LoginAnswersExactly(cfg: Config, s: State, req: LoginRequest, rnd: LoginRandom)
    ensures var reply := Login(cfg, s, req, rnd).1;
            && (reply.Tokens? <==>
                  PasswordShown(cfg, s, req) && !HasLegacyHash(s, req.email) && SessionPossible(s, req, rnd))
            && (reply.NoBody? <==> PasswordShown(cfg, s, req) && HasLegacyHash(s, req.email))
  {
    hide CheckPasswordHash, Accepts, HashPassword, IsLegacyHash, IsBcrypt, LoginSession, PutHash, SetAccountPassword;
    var found := ByEmail(s.table, req.email);
    if found.Some? && req.clientId in cfg.clients {
      ChecksSay(cfg, req.password, found.value.password);
      LoginSessionAnswers(s, req, rnd, cfg.clients[req.clientId], found.value);
    }
  }

  /** The tokens of a login are for the account whose password was shown. */
  lemma LoginSays(cfg: Config, s: State, req: LoginRequest, rnd: LoginRandom)
    requires Differ(rnd.refresh, rnd.access) && Login(cfg, s, req, rnd).1.Tokens?
    ensures PasswordShown(cfg, s, req)
    ensures var (s', reply) := Login(cfg, s, req, rnd);
            var sub := FormatInt(ByEmail(s.table, req.email).value.userId);
            && Provenance.Says(s'.issued, reply.access, sub, req.nonce, req.clientId, s.now)
            && (reply.refresh != "" ==>
                  Provenance.Says(s'.issued, reply.refresh, sub, req.nonce, req.clientId, s.now))
  {
    hide StartSession, CreateSessionData, CheckPasswordHash, Accepts, PutHash, IsLegacyHash, IsBcrypt, HashPassword,
         SetAccountPassword, Provenance.Says;
    LoginAnswersExactly(cfg, s, req, rnd);
    var user, client := ByEmail(s.table, req.email).value, cfg.clients[req.clientId];
    ChecksSay(cfg, req.password, user.password);
    var data := CreateSessionData(user.userId, req.clientId, req.deviceModel, req.deviceName, req.language,
                                  false, rnd.location);
    assert Login(cfg, s, req, rnd) == LoginSession(s, req, rnd, client, user);
    Provenance.StartSessionSays(s, user, client, req.nonce, rnd.sid.value, data, rnd.refresh, rnd.access);
  }

  // ---- authorization and code exchange ----

  predicate ValidAccess(s: State, token: string) {
    Validate(s.issued, s.now, token).Some? && Validate(s.issued, s.now, token).value.tokenType.Access?
  }

  /** /authorize refuses exactly the improper requests; a proper one with a valid access cookie goes back to
      the redirect URI registered for the client it names, with the new code and its own state, and one
      without goes to the login page. */
  lemma AuthorizeAnswersExactly(cfg: Config, s: State, p: AuthParams, cookies: Cookies, rnd: AuthRandom)
    requires Inv(s)
    ensures var reply := Authorize(cfg, s, p, cookies, rnd).1;
            if !ProperRequest(cfg, p) then reply.Refused? && reply.status == 400
            else if !ValidAccess(s, cookies.access) then reply == ToLogin(LoginURL(cfg, cfg.clients[p.clientId], p))
            else if rnd.code.None? then reply.Refused? && reply.status == 500
            else reply == Callback(cfg.clients[p.clientId].redirectURI + "?code=" + rnd.code.value
                                   + "&state=" + Escape(p.state))
  {
    hide Inv, PutHash, LoginURL, AuthorizeByRefresh, CodeData, CheckParams, Escape;
    CheckParamsExactly(cfg, p);
    if ProperRequest(cfg, p) {
      NoOpSession(s, cookies.op);
      Sessions.NoEmptyToken(s);
      NeverReissued(cfg, s, cfg.clients[p.clientId], p, cookies.refresh, rnd);
      if rnd.code.Some? {
        EscapePlain(rnd.code.value);
      }
    }
  }

  /** The client is registered with this redirect URI; a public one sends a verifier, another its secret. */
  predicate ClientProven(cfg: Config, req: TokenRequest) {
    && req.code != "" && req.clientId != "" && req.redirectURI != "" && req.clientId in cfg.clients
    && var client := cfg.clients[req.clientId];
       && client.redirectURI == req.redirectURI
       && (if client.isPublic then req.codeVerifier != ""
           else req.clientSecret != "" && Accepts(cfg.crypto, req.clientSecret, client.clientSecret))
  }

  /** The stored code was minted for this client and redirect URI, and the verifier fits its challenge. */
  predicate CodeFits(cfg: Config, req: TokenRequest, data: Fields) {
    && Field(data, "client_id") == req.clientId && Field(data, "redirect_uri") == req.redirectURI
    && (req.clientId in cfg.clients && cfg.clients[req.clientId].isPublic ==>
          IsChallengeOf(cfg.crypto, req.codeVerifier, Field(data, "code_challenge")))
  }

  predicate HasCountry(s: State, userId: string) {
    && ParseInt(userId).Some? && ById(s.table, ParseInt(userId).value).Some?
    && ById(s.table, ParseInt(userId).value).value.countryCode.Some?
  }

  /** /token gives tokens exactly for a proven client and a live code that fits. */
  lemma ExchangeAnswersExactly(cfg: Config, s: State, req: TokenRequest, rnd: TokenRandom)
    ensures var data := FindHash(s.store, s.now, AuthCode(req.code));
            ExchangeCode(cfg, s, req, rnd).1.Tokens?
            <==> && ClientProven(cfg, req) && data.Some? && CodeFits(cfg, req, data.value)
                 && HasCountry(s, Field(data.value, "user_id"))
                 && rnd.sid.Some? && rnd.refresh.Some? && rnd.access.Some?
  {
    hide RedeemCode, CheckPasswordHash, Accepts, FindHash, CodeFits, HasCountry, CheckTokenClient, ClientProven;
    TokenClientChecked(cfg, req);
    var checked := CheckTokenClient(cfg, req);
    var (store, data) := TakeHash(s.store, s.now, AuthCode(req.code));
    if checked.Accepted? && data.Some? {
      RedeemAnswersExactly(cfg, s.(store := store), req, rnd, checked.client, data.value);
      SameCountry(s, store, Field(data.value, "user_id"));
    }
  }

  lemma SameCountry(s: State, store: Store<Key>, userId: string)
    ensures HasCountry(s.(store := store), userId) == HasCountry(s, userId)
  {
  }

  lemma TokenClientChecked(cfg: Config, req: TokenRequest)
    ensures CheckTokenClient(cfg, req).Accepted? <==> ClientProven(cfg, req)
    ensures CheckTokenClient(cfg, req).Accepted? ==>
              req.clientId in cfg.clients && CheckTokenClient(cfg, req).client == cfg.clients[req.clientId]
    ensures CheckTokenClient(cfg, req).Rejected? ==> CheckTokenClient(cfg, req).reply.Refused?
  {
    hide CheckPasswordHash, Accepts;
    if req.clientId in cfg.clients {
      CheckPasswordExactly(cfg.crypto, req.clientSecret, cfg.clients[req.clientId].clientSecret);
    }
  }

  lemma RedeemAnswersExactly(cfg: Config, s: State, req: TokenRequest, rnd: TokenRandom, client: Client, data: Fields)
    requires req.clientId in cfg.clients && client == cfg.clients[req.clientId]
    ensures RedeemCode(cfg, s, req, rnd, client, data).1.Tokens?
       <==> && CodeFits(cfg, req, data) && HasCountry(s, Field(data, "user_id"))
            && rnd.sid.Some? && rnd.refresh.Some? && rnd.access.Some?
  {
    hide StartSession, CreateSessionData, S256, IsChallengeOf, ParseInt;
    S256Exactly(cfg.crypto, req.codeVerifier, Field(data, "code_challenge"));
  }

  // ---- the beginning of every token ----

  /** Step i of the run is a login that shows the password of the account with this id. */
  ghost predicate PasswordLogin(r: Run, i: nat, sub: string)
    requires |r.states| == |r.steps| + 1 && i < |r.steps|
  {
    && r.steps[i].DoLogin? && ReplyAt(r, i).Tokens?
    && PasswordShown(r.cfg, r.states[i], r.steps[i].login)
    && FormatInt(ByEmail(r.states[i].table, r.steps[i].login.email).value.userId) == sub
  }

  /** Behind every token of a run, however many refreshes, authorizations and code exchanges it has been
      through, stands an earlier login at which the password of the token's own subject was shown. */
  lemma {:induction false} PasswordBehindEveryToken(r: Run, n: nat, t: string) returns (i: nat)
    requires IsRun(r) && n < |r.states| && t in r.states[n].issued
    ensures i < n && PasswordLogin(r, i, r.states[n].issued[t].claims.sub)
    decreases n
  {
    hide Inv, Fresh, Login, ExchangeCode, RefreshTokens, PasswordLogin;
    var j := Lineage.TokenOrigin(r, n, t);
    RunGrows(r, j + 1, n);
    if r.steps[j].DoLogin? {
      i := j;
      LoginStep(r, j, t);
    } else if r.steps[j].DoToken? {
      var a := Provenance.CodeProvenance(r, j);
      i := PasswordBehindEveryToken(r, a, r.steps[a].cookies.access);
    } else {
      var parent := r.steps[j].refresh.refreshToken;
      ParentKnown(r, j, n, t);
      i := PasswordBehindEveryToken(r, j, parent);
    }
  }

  lemma LoginStep(r: Run, j: nat, t: string)
    requires IsRun(r) && j < |r.steps| && r.steps[j].DoLogin? && ReplyAt(r, j).Tokens?
    requires t == ReplyAt(r, j).access || t == ReplyAt(r, j).refresh
    requires t in r.states[j + 1].issued
    ensures PasswordLogin(r, j, r.states[j + 1].issued[t].claims.sub)
  {
    hide Inv, Login;
    assert Fresh(r.states[j], r.steps[j]);
    LoginSays(r.cfg, r.states[j], r.steps[j].login, r.steps[j].loginRnd);
    RunInv(r, j + 1);
    Sessions.NoEmptyToken(r.states[j + 1]);
  }

  /** A refreshed token has the subject of the refresh token that was presented for it. */
  lemma ParentKnown(r: Run, j: nat, n: nat, t: string)
    requires IsRun(r) && j < n < |r.states| && r.steps[j].DoRefresh? && ReplyAt(r, j).Refreshed?
    requires t in r.states[n].issued && r.states[n].issued[t].parent == Some(r.steps[j].refresh.refreshToken)
    ensures var parent := r.steps[j].refresh.refreshToken;
            && parent in r.states[j].issued
            && r.states[j].issued[parent].claims.sub == r.states[n].issued[t].claims.sub
  {
    hide Inv, RefreshTokens;
    RunGrows(r, j, n);
    var claims, id, session, who := RefreshAnswered(r.cfg, r.states[j], r.steps[j].refresh, r.steps[j].refreshRnd);
    Lineage.LinkFollows(r.states[n], t);
  }
}
