/** What sessions promise to the endpoints that read them: introspection, userinfo, the session index,
    logout and the refresh-cookie fallback of /authorize. */
module Sessions {
  import opened Wrappers
  import opened GoStrings
  import opened Decimal
  import opened Base64
  import opened Passwords
  import opened Keys
  import opened Redis
  import opened Accounts
  import opened Jwt
  import opened TokenStore
  import opened Protocol
  import opened Invariant
  import opened Steps
  import opened Runs
  import opened Requests
  import Settings = SettingsUpdate

  // ---- coverage: no token outlives its session ----

  predicate Covered(s: State, c: Claims) {
    var k := Session(c.sub, c.sid);
    k in s.store && s.store[k].expiry.Some? && c.exp <= s.store[k].expiry.value
  }

  ghost predicate Coverage(s: State) {
    forall t :: t in s.issued ==> Covered(s, s.issued[t].claims)
  }

  /** An update of the user's details was asked for and the account has no last name: the handler
      dereferences nil. */
  predicate UpdatePanics(s: State, req: RefreshRequest, claims: Claims) {
    && req.updateInfo
    && var user := match ParseInt(claims.sub) case None => None case Some(id) => ById(s.table, id);
       user.Some? && user.value.lastName.None?
  }

  /** The session the claims name ends before the given time. */
  predicate SessionEndsBefore(s: State, c: Claims, time: int) {
    var k := Session(c.sub, c.sid);
    k in s.store && s.store[k].expiry.Some? && s.store[k].expiry.value < time
  }

  /** The one way coverage is lost: a valid refresh token is due for rotation, no new session id or no new
      refresh token can be made, and the old session ends before the access token handed out anyway. */
  predicate LateFailedRotation(s: State, step: Step) {
    && step.DoRefresh?
    && var req, rnd := step.refresh, step.refreshRnd;
       var presented := Validate(s.issued, s.now, req.refreshToken);
       && presented.Some? && presented.value.tokenType.Refresh?
       && RotationDue(presented.value, s.now)
       && rnd.access.Some? && (rnd.sid.None? || rnd.refresh.None?)
       && !UpdatePanics(s, req, presented.value)
       && SessionEndsBefore(s, presented.value, s.now + ACCESS_LIFETIME)
  }

  /** A refresh is answered exactly for an unexpired refresh token the service issued, when an access token
      can be signed and no missing last name is dereferenced: its session is always still there. */
  lemma RefreshAnswersExactly(cfg: Config, s: State, req: RefreshRequest, rnd: RefreshRandom)
    requires Inv(s)
    ensures RefreshTokens(cfg, s, req, rnd).1.Refreshed?
       <==> && Validate(s.issued, s.now, req.refreshToken).Some?
            && Validate(s.issued, s.now, req.refreshToken).value.tokenType.Refresh?
            && rnd.access.Some? && !UpdatePanics(s, req, Validate(s.issued, s.now, req.refreshToken).value)
  {
    hide Inv, RefreshSession, FindHash;
    var presented := Validate(s.issued, s.now, req.refreshToken);
    if presented.Some? && presented.value.tokenType.Refresh? {
      NoEmptyToken(s);
      ValidatedGrant(s, req.refreshToken);
      RefreshTokensCovered(s, req.refreshToken);
      LiveSession(s, presented.value);
      if rnd.access.Some? {
        RefreshSessionAnswers(s, req, presented.value, rnd);
      }
    }
  }

  lemma NoEmptyToken(s: State)
    requires Inv(s)
    ensures "" !in s.issued
  {
  }

  lemma RefreshSessionAnswers(s: State, req: RefreshRequest, claims: Claims, rnd: RefreshRandom)
    requires claims.aud != [] && rnd.access.Some?
    ensures forall id, session, who :: RefreshSession(s, req.refreshToken, claims, id, session, who, rnd).1.Refreshed?
  {
    hide Rotate, ExtendSession, NewClaims;
  }

  lemma CoverageSurvives(s: State, s': State, c: Claims)
    requires SessionsOk(s) && Grows(s, s') && Covered(s, c) && Session(c.sub, c.sid) in s.openedAt
    ensures Covered(s', c)
  {
    var k := Session(c.sub, c.sid);
    assert SessionOk(s, k) && SessionKept(s, s', k);
  }

  /** A refresh token ends exactly when its session would have ended unextended. */
  lemma RefreshTokensCovered(s: State, t: string)
    requires Inv(s) && t in s.issued && s.issued[t].claims.tokenType.Refresh?
    ensures Covered(s, s.issued[t].claims)
  {
    assert GrantOk(s, s.issued[t]);
    assert SessionOk(s, Session(s.issued[t].claims.sub, s.issued[t].claims.sid));
  }

  /** So does an access token issued together with its session. */
  lemma NewSessionCovers(s: State, t: string)
    requires Inv(s) && t in s.issued
    requires var c := s.issued[t].claims;
             Session(c.sub, c.sid) in s.openedAt && c.iat == s.openedAt[Session(c.sub, c.sid)]
    ensures Covered(s, s.issued[t].claims)
  {
    assert GrantOk(s, s.issued[t]);
    assert SessionOk(s, Session(s.issued[t].claims.sub, s.issued[t].claims.sid));
  }

  /** A new token belongs to a session opened in the same step. */
  predicate WithNewSession(s: State, s': State, t: string) {
    t in s'.issued && t !in s.issued ==>
      var c := s'.issued[t].claims;
      Session(c.sub, c.sid) in s'.openedAt && c.iat == s'.openedAt[Session(c.sub, c.sid)]
  }

  lemma StartSessionIssues(s: State, user: Account, client: Client, nonce: string, sid: string, data: Fields,
                           refresh: Option<string>, access: Option<string>, t: string)
    ensures WithNewSession(s, StartSession(s, user, client, nonce, sid, data, refresh, access), t)
  {
    hide InsertSession;
  }

  lemma RotateIssues(s: State, token: string, claims: Claims, id: int64, clientId: string, country: string,
                     sid: string, rnd: RefreshRandom, t: string)
    requires claims.aud != []
    ensures WithNewSession(s, Rotate(s, token, claims, id, clientId, country, sid, rnd), t)
  {
    hide InsertSession, CreateSessionData;
  }

  lemma LoginIssues(cfg: Config, s: State, req: LoginRequest, rnd: LoginRandom, t: string)
    ensures WithNewSession(s, Login(cfg, s, req, rnd).0, t)
  {
    hide StartSession, CreateSessionData, CheckPasswordHash, PutHash;
    var found := ByEmail(s.table, req.email);
    if req.clientId in cfg.clients && found.Some? && rnd.sid.Some? {
      var user := found.value;
      var data := CreateSessionData(user.userId, req.clientId, req.deviceModel, req.deviceName, req.language,
                                    false, rnd.location);
      StartSessionIssues(s, user, cfg.clients[req.clientId], req.nonce, rnd.sid.value, data, rnd.refresh,
                         rnd.access, t);
    }
  }

  lemma RedeemIssues(cfg: Config, s: State, req: TokenRequest, rnd: TokenRandom, client: Client, data: Fields,
                     t: string)
    ensures WithNewSession(s, RedeemCode(cfg, s, req, rnd, client, data).0, t)
  {
    hide StartSession, CreateSessionData, S256;
    var id := ParseInt(Field(data, "user_id"));
    if rnd.sid.Some? && id.Some? && id.value in s.table.rows {
      var user := s.table.rows[id.value];
      var hash := CreateSessionData(user.userId, Field(data, "client_id"), "", "", "", false, rnd.location);
      StartSessionIssues(s, user, client, Field(data, "nonce"), rnd.sid.value, hash, rnd.refresh, rnd.access, t);
    }
  }

  lemma TokenIssues(cfg: Config, s: State, req: TokenRequest, rnd: TokenRandom, t: string)
    ensures WithNewSession(s, ExchangeCode(cfg, s, req, rnd).0, t)
  {
    hide RedeemCode, CheckTokenClient, TakeHash;
    var checked := CheckTokenClient(cfg, req);
    var (store, found) := TakeHash(s.store, s.now, AuthCode(req.code));
    if checked.Accepted? && found.Some? {
      RedeemIssues(cfg, s.(store := store), req, rnd, checked.client, found.value, t);
    }
  }

  lemma AuthorizeIssuesNothing(cfg: Config, s: State, p: AuthParams, cookies: Cookies, rnd: AuthRandom)
    requires Inv(s)
    ensures Authorize(cfg, s, p, cookies, rnd).0.issued == s.issued
  {
    hide Inv, PutHash, LoginURL, AuthorizeByRefresh, CodeData;
    var checked := CheckParams(cfg, p);
    if checked.Accepted? {
      NeverReissued(cfg, s, checked.client, p, cookies.refresh, rnd);
    }
  }

  /** No other request hands out a token. */
  lemma OthersIssueNothing(cfg: Config, s: State, step: Step)
    requires Inv(s) && !step.DoLogin? && !step.DoToken? && !step.DoRefresh?
    ensures Exec(cfg, s, step).0.issued == s.issued
  {
    hide Inv, PutHash, TakeHash, HashPassword, Split, Authorize;
    if step.DoAuthorize? {
      AuthorizeIssuesNothing(cfg, s, step.params, step.cookies, step.authRnd);
    }
  }

  /** Refreshing keeps every token covered, except exactly in a late failed rotation. */
  lemma RefreshCoverage(cfg: Config, s: State, step: Step)
    requires Inv(s) && Coverage(s) && Fresh(s, step) && step.DoRefresh?
    ensures Coverage(Exec(cfg, s, step).0) <==> !LateFailedRotation(s, step)
  {
    hide Inv, Grows, Fresh, Rotate, RefreshTokens;
    var s' := Exec(cfg, s, step).0;
    StepKeeps(cfg, s, step);
    OldTokensCovered(s, s');
    RefreshAnswersExactly(cfg, s, step.refresh, step.refreshRnd);
    if RefreshTokens(cfg, s, step.refresh, step.refreshRnd).1.Refreshed? {
      RefreshAnswerCoverage(cfg, s, step);
    } else {
      RefusedRefreshIssuesNothing(cfg, s, step.refresh, step.refreshRnd);
    }
  }

  lemma RefusedRefreshIssuesNothing(cfg: Config, s: State, req: RefreshRequest, rnd: RefreshRandom)
    requires !RefreshTokens(cfg, s, req, rnd).1.Refreshed?
    ensures RefreshTokens(cfg, s, req, rnd).0 == s
  {
    hide Rotate, ExtendSession, FindHash;
  }

  lemma OldTokensCovered(s: State, s': State)
    requires Inv(s) && Coverage(s) && Grows(s, s')
    ensures forall t :: t in s.issued ==> t in s'.issued && s'.issued[t] == s.issued[t]
    ensures forall t :: t in s.issued ==> Covered(s', s'.issued[t].claims)
  {
    forall t | t in s.issued ensures Covered(s', s'.issued[t].claims) {
      assert GrantOk(s, s.issued[t]);
      CoverageSurvives(s, s', s.issued[t].claims);
    }
  }

  lemma RefreshAnswerCoverage(cfg: Config, s: State, step: Step)
    requires Inv(s) && Fresh(s, step) && step.DoRefresh?
    requires RefreshTokens(cfg, s, step.refresh, step.refreshRnd).1.Refreshed?
    requires Inv(Exec(cfg, s, step).0)
    ensures var s' := Exec(cfg, s, step).0;
            (forall t :: t in s'.issued && t !in s.issued ==> Covered(s', s'.issued[t].claims))
            <==> !LateFailedRotation(s, step)
  {
    hide Inv, Rotate, RefreshTokens;
    var s', rnd := Exec(cfg, s, step).0, step.refreshRnd;
    var claims, id, session, who := RefreshAnswered(cfg, s, step.refresh, rnd);
    RefreshAnswersExactly(cfg, s, step.refresh, rnd);
    RefreshTokensCovered(s, step.refresh.refreshToken);
    if !RotationDue(claims, s.now) {
      ExtendCovers(s, claims.sub, claims.sid);
    } else if rnd.sid.None? || rnd.refresh.None? {
      var t := rnd.access.value;
      assert t in s'.issued && t !in s.issued;
      assert s'.issued[t].claims.exp == s.now + ACCESS_LIFETIME;
    } else {
      forall t | t in s'.issued && t !in s.issued ensures Covered(s', s'.issued[t].claims) {
        RotateIssues(s, step.refresh.refreshToken, claims, id, Field(session, "client_id"),
                     who.country.GetOr("N/A"), rnd.sid.value, rnd, t);
        NewSessionCovers(s', t);
      }
    }
  }

  lemma ExtendCovers(s: State, sub: string, sid: string)
    requires Inv(s) && FindHash(s.store, s.now, Session(sub, sid)).Some?
    ensures var k := Session(sub, sid);
            var db := ExtendSession(s.store, s.now, sub, sid);
            k in db && db[k].expiry == Some(s.now + SESSION_TTL)
  {
    ExtendEffect(s, sub, sid);
  }

  /** Coverage is kept by every step but a late failed rotation, and lost by each of those. */
  lemma StepCoverage(cfg: Config, s: State, step: Step)
    requires Inv(s) && Coverage(s) && Fresh(s, step)
    ensures Coverage(Exec(cfg, s, step).0) <==> !LateFailedRotation(s, step)
  {
    hide Inv, Grows, Fresh, Login, ExchangeCode;
    if step.DoRefresh? {
      RefreshCoverage(cfg, s, step);
    } else {
      var s' := Exec(cfg, s, step).0;
      StepKeeps(cfg, s, step);
      OldTokensCovered(s, s');
      forall t | t in s'.issued && t !in s.issued ensures Covered(s', s'.issued[t].claims) {
        if step.DoLogin? {
          LoginIssues(cfg, s, step.login, step.loginRnd, t);
        } else if step.DoToken? {
          TokenIssues(cfg, s, step.exchange, step.tokenRnd, t);
        } else {
          OthersIssueNothing(cfg, s, step);
        }
        NewSessionCovers(s', t);
      }
    }
  }

  ghost predicate NoLateFailedRotation(r: Run)
    requires IsRun(r)
  {
    forall i :: 0 <= i < |r.steps| ==> !LateFailedRotation(r.states[i], r.steps[i])
  }

  lemma {:induction false} RunCoverage(r: Run, n: nat)
    requires IsRun(r) && NoLateFailedRotation(r) && n < |r.states|
    ensures Inv(r.states[n]) && Coverage(r.states[n])
  {
    hide Inv, Exec, Fresh, LateFailedRotation;
    RunInv(r, n);
    if n > 0 {
      RunCoverage(r, n - 1);
      StepCoverage(r.cfg, r.states[n - 1], r.steps[n - 1]);
    }
  }

  // ---- introspection and userinfo ----

  lemma LiveSession(s: State, c: Claims)
    requires Inv(s) && Covered(s, c) && s.now < c.exp && Session(c.sub, c.sid) in s.openedAt
    ensures FindHash(s.store, s.now, Session(c.sub, c.sid)).Some?
    ensures var session := FindHash(s.store, s.now, Session(c.sub, c.sid)).value;
            Field(session, "user_id") == c.sub && Field(session, "blacklisted") == "0"
  {
    assert SessionOk(s, Session(c.sub, c.sid));
  }

  /** In any state: introspection answers active for exactly the unexpired tokens the service handed out
      whose session is still there. */
  lemma IntrospectLive(cfg: Config, s: State, token: string)
    requires Inv(s)
    ensures Introspect(cfg, s, token)
         == if token in s.issued && s.now < s.issued[token].claims.exp
               && Live(s.store, s.now, Session(s.issued[token].claims.sub, s.issued[token].claims.sid)) then
              var c := s.issued[token].claims; Active(c.sub, c.exp, c.tokenType)
            else Inactive
  {
    hide Inv, FindHash;
    if token in s.issued {
      var c := s.issued[token].claims;
      IssuedGrant(s, token);
      SessionBelongsToKey(s, c.sub, c.sid);
      NotBlacklisted(s, c.sub, c.sid);
    }
  }

  lemma NotBlacklisted(s: State, sub: string, sid: string)
    requires Inv(s)
    ensures var found := FindHash(s.store, s.now, Session(sub, sid));
            found.Some? ==> Field(found.value, "blacklisted") == "0"
  {
    var k := Session(sub, sid);
    assert k in s.store ==> SessionOk(s, k);
  }

  /** With covered tokens the session is always there: introspection answers active, with the token's own
      subject, expiry and type, for exactly the unexpired tokens the service handed out (section 2.2 of
      RFC 7662). */
  lemma IntrospectExact(r: Run, n: nat, token: string)
    requires IsRun(r) && NoLateFailedRotation(r) && n < |r.states|
    ensures var s := r.states[n];
            Introspect(r.cfg, s, token)
            == if token in s.issued && s.now < s.issued[token].claims.exp then
                 var c := s.issued[token].claims; Active(c.sub, c.exp, c.tokenType)
               else Inactive
  {
    hide Inv, NoLateFailedRotation, FindHash;
    var s := r.states[n];
    RunCoverage(r, n);
    if token in s.issued {
      IssuedGrant(s, token);
      if s.now < s.issued[token].claims.exp {
        LiveSession(s, s.issued[token].claims);
      }
    }
  }

  lemma IssuedGrant(s: State, token: string)
    requires Inv(s) && token in s.issued
    ensures GrantOk(s, s.issued[token])
  {
  }

  /** Every live session hash carries the user id of its own key, in decimal form, so a caller whose
      session is live is always shown the account its token names. */
  lemma UserInfoShowsOwnAccount(cfg: Config, s: State, header: string, cookie: string, token: string)
    requires Inv(s) && Presents(header, cookie, token)
    requires Validate(s.issued, s.now, token).Some? && Validate(s.issued, s.now, token).value.tokenType.Access?
    ensures var c := s.issued[token].claims;
            && ParseInt(c.sub).Some? && ParseInt(c.sub).value in s.table.rows
            && UserInfo(cfg, s, header, cookie)
               == if Live(s.store, s.now, Session(c.sub, c.sid)) then Profile(s.table.rows[ParseInt(c.sub).value])
                  else Refused(404, "Session not found")
  {
    hide Inv, Presents, Authenticate;
    AuthenticateExactly(s, header, cookie, token);
    NoEmptyToken(s);
    ValidatedGrant(s, token);
    var c := s.issued[token].claims;
    SessionBelongsToKey(s, c.sub, c.sid);
  }

  lemma SessionBelongsToKey(s: State, sub: string, sid: string)
    requires Inv(s)
    ensures var found := FindHash(s.store, s.now, Session(sub, sid));
            && (found.Some? <==> Live(s.store, s.now, Session(sub, sid)))
            && (found.Some? ==> Field(found.value, "user_id") == sub && VerifiedId(s.table, sub))
  {
    var k := Session(sub, sid);
    if k in s.store {
      assert SessionOk(s, k);
    }
  }

  /** With coverage the session is always there. */
  lemma UserInfoAnswers(r: Run, n: nat, header: string, cookie: string, token: string)
    requires IsRun(r) && NoLateFailedRotation(r) && n < |r.states| && Presents(header, cookie, token)
    requires var s := r.states[n];
             Validate(s.issued, s.now, token).Some? && Validate(s.issued, s.now, token).value.tokenType.Access?
    ensures var s := r.states[n];
            var c := s.issued[token].claims;
            && ParseInt(c.sub).Some? && ParseInt(c.sub).value in s.table.rows
            && UserInfo(r.cfg, s, header, cookie) == Profile(s.table.rows[ParseInt(c.sub).value])
  {
    hide Inv, NoLateFailedRotation, Presents, UserInfo;
    var s := r.states[n];
    RunCoverage(r, n);
    ValidatedGrant(s, token);
    UserInfoShowsOwnAccount(r.cfg, s, header, cookie, token);
    LiveSession(s, s.issued[token].claims);
    SessionBelongsToKey(s, s.issued[token].claims.sub, s.issued[token].claims.sid);
  }

  /** A session was opened for the audience of every token that names it. */
  lemma SessionMatchesAudience(r: Run, n: nat, t: string)
    requires IsRun(r) && n < |r.states| && t in r.states[n].issued
    ensures var s, c := r.states[n], r.states[n].issued[t].claims;
            var k := Session(c.sub, c.sid);
            && k in s.store && s.store[k].value.Hash?
            && c.aud == [Field(s.store[k].value.fields, "client_id")]
            && Field(s.store[k].value.fields, "user_id") == c.sub
  {
    hide Inv;
    RunInv(r, n);
    var s, c := r.states[n], r.states[n].issued[t].claims;
    IssuedGrant(s, t);
    OpenSessionOk(s, Session(c.sub, c.sid));
  }

  lemma OpenSessionOk(s: State, k: Key)
    requires Inv(s) && k in s.openedAt
    ensures SessionOk(s, k)
  {
  }

  /** The answer about an account after the user with that id has edited the profile. */
  function AfterEdit(reply: Reply, id: int64, body: Settings.ProfileBody): Reply {
    if reply.Profile? && reply.account.userId == id then Profile(Settings.Edited(reply.account, body)) else reply
  }

  /** A profile edit shows in userinfo at once, to every caller who is shown that account, and changes
      nothing for anyone else; an edit that is refused or does not fit changes nothing at all. */
  lemma EditsShowAtOnce(cfg: Config, s: State, header: string, cookie: string, body: Settings.ProfileBody,
                        otherHeader: string, otherCookie: string)
    requires Inv(s)
    ensures var (s', reply) := UpdateProfile(cfg, s, header, cookie, body);
            var before := UserInfo(cfg, s, otherHeader, otherCookie);
            UserInfo(cfg, s', otherHeader, otherCookie)
            == if reply == Updated([Settings.Success]) then
                 AfterEdit(before, Authenticate(s, header, cookie).userId, body)
               else before
  {
    hide Inv, UserInfo, AfterEdit, Authenticate, Settings.Fits;
    match Authenticate(s, header, cookie)
    case Denied(_) =>
      assert UpdateProfile(cfg, s, header, cookie, body).0 == s;
    case Context(id, _) =>
      HasConsistentTable(s);
      UserInfoAfterEdit(cfg, s, id, body, otherHeader, otherCookie);
      assert UpdateProfile(cfg, s, header, cookie, body).1 == Updated([Settings.Success])
        <==> id !in s.table.rows || Settings.Fits(body, cfg.fits);
  }

  lemma HasConsistentTable(s: State)
    requires Inv(s)
    ensures Consistent(s.table)
  {
  }

  lemma SameCaller(s: State, t: Table, header: string, cookie: string)
    ensures Authenticate(s.(table := t), header, cookie) == Authenticate(s, header, cookie)
  {
  }

  lemma UserInfoAfterEdit(cfg: Config, s: State, id: int64, body: Settings.ProfileBody, header: string,
                          cookie: string)
    requires Consistent(s.table)
    ensures var before := UserInfo(cfg, s, header, cookie);
            UserInfo(cfg, s.(table := Settings.ProfileEdit(s.table, id, body, cfg.fits)), header, cookie)
            == (if Settings.Fits(body, cfg.fits) then AfterEdit(before, id, body) else before)
            && (id !in s.table.rows ==> AfterEdit(before, id, body) == before)
  {
    hide Authenticate, FindHash, Settings.Fits;
    SameCaller(s, Settings.ProfileEdit(s.table, id, body, cfg.fits), header, cookie);
  }

  // ---- the session index ----

  /** In every reachable state: a member whose score is still ahead names a live session of that user,
      and the set itself lives at least as long; the set is exactly the sessions opened less than one
      session lifetime before its last insertion, scored with their first expiry; and a live session
      that was never extended is always listed. */
  lemma IndexAgrees(r: Run, n: nat, uid: string, sid: string)
    requires IsRun(r) && n < |r.states|
    ensures var s := r.states[n];
            var k, index := Session(uid, sid), SessionIndex(uid);
            && (index in s.store ==>
                  && s.store[index].value.SortedSet? && s.store[index].expiry.Some?
                  && var scores, expiry := s.store[index].value.scores, s.store[index].expiry.value;
                     && (sid in scores && s.now < scores[sid] ==>
                           Live(s.store, s.now, k) && Live(s.store, s.now, index))
                     && (sid in scores ==> scores[sid] <= expiry)
                     && (sid in scores <==> k in s.openedAt && expiry < s.openedAt[k] + 2 * SESSION_TTL)
                     && (sid in scores ==> scores[sid] == s.openedAt[k] + SESSION_TTL))
            && (Live(s.store, s.now, k) ==> k in s.openedAt)
            && (Live(s.store, s.now, k) && s.store[k].expiry == Some(s.openedAt[k] + SESSION_TTL) ==>
                  Live(s.store, s.now, index) && sid in s.store[index].value.scores)
  {
    RunInv(r, n);
    var s := r.states[n];
    var k, index := Session(uid, sid), SessionIndex(uid);
    if index in s.store {
      assert IndexOk(s, uid);
    }
    if k in s.openedAt {
      assert SessionOk(s, k);
    }
  }

  // ---- what logout and /authorize do not do ----

  /** The code deletes the bare session id, a key that never exists: after logging out, the session and
      every answer about any token are what they were. */
  lemma LogoutLeavesSessions(r: Run, n: nat, authorization: string, token: string)
    requires IsRun(r) && n < |r.states|
    ensures var s' := Logout(r.cfg, r.states[n], authorization).0;
            s' == r.states[n] && Introspect(r.cfg, s', token) == Introspect(r.cfg, r.states[n], token)
  {
    hide Inv, Logout, Introspect;
    RunInv(r, n);
    LogoutKeeps(r.cfg, r.states[n], authorization);
  }

  /** A password reset takes no session away, although its comment says that all of them are removed:
      every key but the ticket, every token and every introspection answer stay what they were. */
  lemma ResetLeavesSessions(cfg: Config, s: State, resetToken: string, password: string, salt: Option<seq<Byte>>,
                            token: string)
    ensures var s' := ResetPassword(cfg, s, resetToken, password, salt).0;
            && s'.store - {Reset(resetToken)} == s.store - {Reset(resetToken)}
            && s'.issued == s.issued && s'.now == s.now
            && Introspect(cfg, s', token) == Introspect(cfg, s, token)
  {
    hide ResetPassword, Introspect;
    ResetTakesTheTicket(cfg, s, resetToken, password, salt);
    SameIntrospection(cfg, s, ResetPassword(cfg, s, resetToken, password, salt).0, Reset(resetToken), token);
  }

  lemma ResetTakesTheTicket(cfg: Config, s: State, resetToken: string, password: string, salt: Option<seq<Byte>>)
    ensures var s' := ResetPassword(cfg, s, resetToken, password, salt).0;
            && s'.store - {Reset(resetToken)} == s.store - {Reset(resetToken)}
            && s'.issued == s.issued && s'.now == s.now
  {
    hide HashPassword, SetPassword, FindHash;
  }

  /** Introspection looks at no other key than the session's. */
  lemma SameIntrospection(cfg: Config, s: State, s': State, k: Key, token: string)
    requires s'.issued == s.issued && s'.now == s.now && s'.store - {k} == s.store - {k} && !k.Session?
    ensures Introspect(cfg, s', token) == Introspect(cfg, s, token)
  {
    if token in s.issued {
      var j := Session(s.issued[token].claims.sub, s.issued[token].claims.sid);
      assert j in s.store <==> j in s.store - {k};
      assert j in s'.store <==> j in s'.store - {k};
      assert j in s.store ==> (s.store - {k})[j] == (s'.store - {k})[j];
    }
  }

  /** Without a valid access cookie /authorize always sends the user to the login page, whatever the
      refresh cookie and the OP cookie hold. */
  lemma AuthorizeNeedsAccessToken(r: Run, n: nat, p: AuthParams, cookies: Cookies, rnd: AuthRandom)
    requires IsRun(r) && n < |r.states|
    requires ProperRequest(r.cfg, p)
    requires var access := Validate(r.states[n].issued, r.states[n].now, cookies.access);
             access.None? || !access.value.tokenType.Access?
    ensures Authorize(r.cfg, r.states[n], p, cookies, rnd)
         == (r.states[n], ToLogin(LoginURL(r.cfg, r.cfg.clients[p.clientId], p)))
  {
    hide Inv, LoginURL, AuthorizeByRefresh, CheckParams;
    CheckParamsExactly(r.cfg, p);
    RunInv(r, n);
    NoOpSession(r.states[n], cookies.op);
    NeverReissued(r.cfg, r.states[n], r.cfg.clients[p.clientId], p, cookies.refresh, rnd);
  }
}
