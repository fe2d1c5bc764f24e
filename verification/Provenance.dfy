/** Where tickets come from and where they go: every ticket in the store was written by the request that
    minted it, tokens trace back to authorizations, and verification traces back to a signup ticket. */
module Provenance {
  import opened Wrappers
  import opened GoStrings
  import opened Decimal
  import opened Passwords
  import opened Keys
  import opened Redis
  import opened Accounts
  import opened Jwt
  import opened TokenStore
  import opened QueryStrings
  import opened Protocol
  import opened Invariant
  import opened Steps
  import opened Runs
  import opened Requests
  import Sessions

  // ---- which requests write which tickets ----

  /** The ticket a request may write. */
  function Written(step: Step): Option<Key> {
    match step
    case DoLogin(_, rnd) => Some(SignUp(rnd.ticket))
    case DoRegister(_, rnd) => Some(SignUp(rnd.ticket))
    case DoRequestReset(_, ticket) => Some(Reset(ticket))
    case DoAuthorize(_, _, rnd) => if rnd.code.Some? then Some(AuthCode(rnd.code.value)) else None
    case _ => None
  }

  /** The ticket a request redeems, once the checks before the redemption have passed. */
  function Redeemed(cfg: Config, step: Step): Option<Key> {
    match step
    case DoToken(req, _) => if CheckTokenClient(cfg, req).Accepted? then Some(AuthCode(req.code)) else None
    case DoVerify(link) => if link != "" then Some(SignUp(link)) else None
    case DoResetPassword(token, password, _) => if token != "" && password != "" then Some(Reset(token)) else None
    case _ => None
  }

  /** No ticket but the one written appears or changes, and none but the one redeemed disappears. */
  ghost predicate TicketsFrom(db: Store<Key>, db': Store<Key>, written: Option<Key>, redeemed: Option<Key>) {
    forall k: Key :: IsTicket(k) && written != Some(k) ==>
      && (k in db' ==> k in db && db'[k] == db[k])
      && (k in db && redeemed != Some(k) ==> k in db')
  }

  lemma PutHashWrites(db: Store<Key>, now: int, k: Key, fields: Fields, ttl: int)
    ensures TicketsFrom(db, PutHash(db, now, k, fields, ttl), Some(k), None)
  {
  }

  lemma TakeHashWrites(db: Store<Key>, now: int, k: Key)
    ensures TicketsFrom(db, TakeHash(db, now, k).0, None, Some(k))
  {
  }

  lemma InsertSessionWrites(db: Store<Key>, now: int, uid: string, sid: string, data: Fields, ttl: int)
    ensures TicketsFrom(db, InsertSession(db, now, uid, sid, data, ttl), None, None)
  {
    PutHashWrites(db, now, Session(uid, sid), data, ttl);
  }

  lemma ExtendSessionWrites(db: Store<Key>, now: int, uid: string, sid: string)
    ensures TicketsFrom(db, ExtendSession(db, now, uid, sid), None, None)
  {
  }

  lemma StartSessionWrites(s: State, user: Account, client: Client, nonce: string, sid: string, data: Fields,
                           refresh: Option<string>, access: Option<string>)
    ensures TicketsFrom(s.store, StartSession(s, user, client, nonce, sid, data, refresh, access).store, None, None)
  {
    hide InsertSession;
    InsertSessionWrites(s.store, s.now, FormatInt(user.userId), sid, data, SESSION_TTL);
  }

  lemma LoginWrites(cfg: Config, s: State, req: LoginRequest, rnd: LoginRandom)
    ensures TicketsFrom(s.store, Login(cfg, s, req, rnd).0.store, Written(DoLogin(req, rnd)), None)
  {
    hide StartSession, CreateSessionData, CheckPasswordHash, PutHash;
    var found := ByEmail(s.table, req.email);
    if req.clientId in cfg.clients && found.Some? {
      var user := found.value;
      PutHashWrites(s.store, s.now, SignUp(rnd.ticket), map["email" := user.email], SIGNUP_TTL);
      if rnd.sid.Some? {
        var data := CreateSessionData(user.userId, req.clientId, req.deviceModel, req.deviceName, req.language,
                                      false, rnd.location);
        StartSessionWrites(s, user, cfg.clients[req.clientId], req.nonce, rnd.sid.value, data, rnd.refresh,
                           rnd.access);
      }
    }
  }

  lemma RedeemCodeWrites(cfg: Config, s: State, req: TokenRequest, rnd: TokenRandom, client: Client, data: Fields)
    ensures TicketsFrom(s.store, RedeemCode(cfg, s, req, rnd, client, data).0.store, None, None)
  {
    hide StartSession, CreateSessionData, S256;
    var id := ParseInt(Field(data, "user_id"));
    if rnd.sid.Some? && id.Some? && id.value in s.table.rows {
      var user := s.table.rows[id.value];
      var hash := CreateSessionData(user.userId, Field(data, "client_id"), "", "", "", false, rnd.location);
      StartSessionWrites(s, user, client, Field(data, "nonce"), rnd.sid.value, hash, rnd.refresh, rnd.access);
    }
  }

  lemma TokenWrites(cfg: Config, s: State, req: TokenRequest, rnd: TokenRandom)
    ensures TicketsFrom(s.store, ExchangeCode(cfg, s, req, rnd).0.store, None, Redeemed(cfg, DoToken(req, rnd)))
  {
    hide RedeemCode, CheckTokenClient, TakeHash;
    var checked := CheckTokenClient(cfg, req);
    var (store, found) := TakeHash(s.store, s.now, AuthCode(req.code));
    TakeHashWrites(s.store, s.now, AuthCode(req.code));
    if checked.Accepted? && found.Some? {
      RedeemCodeWrites(cfg, s.(store := store), req, rnd, checked.client, found.value);
    }
  }

  lemma RefreshWrites(cfg: Config, s: State, req: RefreshRequest, rnd: RefreshRandom)
    requires Inv(s)
    ensures TicketsFrom(s.store, RefreshTokens(cfg, s, req, rnd).0.store, None, None)
  {
    hide Inv, RefreshTokens, Rotate, ExtendSession, FindHash;
    if !RefreshTokens(cfg, s, req, rnd).1.Refreshed? {
      Sessions.RefusedRefreshIssuesNothing(cfg, s, req, rnd);
    } else {
      var claims, id, session, who := RefreshAnswered(cfg, s, req, rnd);
      ExtendSessionWrites(s.store, s.now, FormatInt(id), claims.sid);
      if rnd.sid.Some? {
        RotateWrites(s, req.refreshToken, claims, id, Field(session, "client_id"), who.country.GetOr("N/A"),
                     rnd.sid.value, rnd);
      }
    }
  }

  lemma RotateWrites(s: State, token: string, claims: Claims, id: int64, clientId: string, country: string,
                     sid: string, rnd: RefreshRandom)
    requires claims.aud != []
    ensures TicketsFrom(s.store, Rotate(s, token, claims, id, clientId, country, sid, rnd).store, None, None)
  {
    hide InsertSession, CreateSessionData;
    var data := CreateSessionData(id, clientId, "", "", "", false, rnd.location);
    InsertSessionWrites(Del(s.store, Bare(claims.sid)), s.now, FormatInt(id), sid, data, SESSION_TTL);
  }

  lemma AuthorizeWrites(cfg: Config, s: State, p: AuthParams, cookies: Cookies, rnd: AuthRandom)
    requires Inv(s)
    ensures TicketsFrom(s.store, Authorize(cfg, s, p, cookies, rnd).0.store, Written(DoAuthorize(p, cookies, rnd)),
                        None)
  {
    hide Inv, PutHash, LoginURL, AuthorizeByRefresh, CodeData;
    var checked := CheckParams(cfg, p);
    if checked.Accepted? {
      NoOpSession(s, cookies.op);
      NeverReissued(cfg, s, checked.client, p, cookies.refresh, rnd);
      var access := Validate(s.issued, s.now, cookies.access);
      if access.Some? && rnd.code.Some? {
        PutHashWrites(s.store, s.now, AuthCode(rnd.code.value), CodeData(checked.client, p, access.value.sub),
                      CODE_TTL);
      }
    }
  }

  lemma OtherWrites(cfg: Config, s: State, step: Step)
    requires step.DoRegister? || step.DoVerify? || step.DoRequestReset? || step.DoResetPassword?
    ensures TicketsFrom(s.store, Exec(cfg, s, step).0.store, Written(step), Redeemed(cfg, step))
  {
    hide PutHash, TakeHash, HashPassword, Insert;
    match step
    case DoRegister(req, rnd) =>
      PutHashWrites(s.store, s.now, SignUp(rnd.ticket), map["email" := req.email], SIGNUP_TTL);
    case DoVerify(link) => TakeHashWrites(s.store, s.now, SignUp(link));
    case DoRequestReset(mail, ticket) =>
      PutHashWrites(s.store, s.now, Reset(ticket), map["email" := mail], RESET_TTL);
    case DoResetPassword(token, _, _) => TakeHashWrites(s.store, s.now, Reset(token));
  }

  /** A step writes at most one ticket and redeems at most one; all others stay as they are. */
  lemma StepWrites(cfg: Config, s: State, step: Step)
    requires Inv(s)
    ensures TicketsFrom(s.store, Exec(cfg, s, step).0.store, Written(step), Redeemed(cfg, step))
  {
    hide Inv, Login, Register, Verify, RequestReset, ResetPassword, Authorize, ExchangeCode, RefreshTokens, Logout;
    match step
    case DoLogin(req, rnd) => LoginWrites(cfg, s, req, rnd);
    case DoAuthorize(p, cookies, rnd) => AuthorizeWrites(cfg, s, p, cookies, rnd);
    case DoToken(req, rnd) => TokenWrites(cfg, s, req, rnd);
    case DoRefresh(req, rnd) => RefreshWrites(cfg, s, req, rnd);
    case DoLogout(authorization) => LogoutKeeps(cfg, s, authorization);
    case Tick(_) =>
    case DoIntrospect(_) =>
    case DoUserInfo(_, _) =>
    case DoUpdateProfile(_, _, _) =>
    case _ => OtherWrites(cfg, s, step);
  }

  /** Every ticket in a reachable state was written, exactly as it stands, by an earlier request. */
  lemma {:induction false} TicketOrigin(r: Run, n: nat, k: Key) returns (j: nat)
    requires IsRun(r) && n < |r.states| && IsTicket(k) && k in r.states[n].store
    ensures j < n && Written(r.steps[j]) == Some(k)
    ensures k in r.states[j + 1].store && r.states[j + 1].store[k] == r.states[n].store[k]
  {
    hide Inv, Exec, Fresh;
    RunInv(r, n - 1);
    StepWrites(r.cfg, r.states[n - 1], r.steps[n - 1]);
    if Written(r.steps[n - 1]) == Some(k) {
      j := n - 1;
    } else {
      j := TicketOrigin(r, n - 1, k);
    }
  }

  // ---- what a freshly minted ticket looks like ----

  lemma NewTicketKey(s: State, k: Key)
    requires Inv(s) && IsTicket(k) && TicketValue(k) !in s.used
    ensures k !in s.store
  {
    assert k !in s.store;
  }

  lemma FreshTicket(s: State, step: Step, k: Key)
    requires Inv(s) && Fresh(s, step) && Written(step) == Some(k) && TicketValue(k) != ""
    ensures IsTicket(k) && k !in s.store
  {
    hide Inv;
    NewTicketKey(s, k);
  }

  lemma PutNewHash(db: Store<Key>, now: int, k: Key, fields: Fields, ttl: int)
    requires k !in db
    ensures PutHash(db, now, k, fields, ttl) == db[k := Entry(Hash(fields), Some(now + ttl))]
  {
    var stored := PutHashEffect(db, now, k, fields, ttl);
  }

  /** A code that is in the store after /authorize was minted by it for the subject of its access cookie. */
  lemma AuthorizeMints(cfg: Config, s: State, p: AuthParams, cookies: Cookies, rnd: AuthRandom)
    requires Inv(s) && rnd.code.Some? && AuthCode(rnd.code.value) !in s.store
    requires AuthCode(rnd.code.value) in Authorize(cfg, s, p, cookies, rnd).0.store
    ensures CheckParams(cfg, p).Accepted?
    ensures Validate(s.issued, s.now, cookies.access).Some?
    ensures var code, (s', reply) := rnd.code.value, Authorize(cfg, s, p, cookies, rnd);
            var client, access := CheckParams(cfg, p).client, Validate(s.issued, s.now, cookies.access).value;
            && s'.store[AuthCode(code)] == Entry(Hash(CodeData(client, p, access.sub)), Some(s.now + CODE_TTL))
            && reply == Callback(CallbackURL(p.redirectURI, code, p.state))
  {
    hide Inv, PutHash, LoginURL, AuthorizeByRefresh, CodeData;
    var checked := CheckParams(cfg, p);
    if checked.Accepted? {
      NoOpSession(s, cookies.op);
      NeverReissued(cfg, s, checked.client, p, cookies.refresh, rnd);
      var access := Validate(s.issued, s.now, cookies.access);
      if access.Some? {
        PutNewHash(s.store, s.now, AuthCode(rnd.code.value), CodeData(checked.client, p, access.value.sub), CODE_TTL);
      }
    }
  }

  /** The email a mail ticket is minted for. */
  function MintedFor(step: Step): string
    requires step.DoLogin? || step.DoRegister? || step.DoRequestReset?
  {
    match step
    case DoLogin(req, _) => req.email
    case DoRegister(req, _) => req.email
    case DoRequestReset(mail, _) => mail
  }

  lemma MailTicketMinted(cfg: Config, s: State, step: Step, k: Key)
    requires Inv(s) && (step.DoLogin? || step.DoRegister? || step.DoRequestReset?)
    requires Written(step) == Some(k) && k !in s.store && k in Exec(cfg, s, step).0.store
    ensures IsTicket(k)
    ensures Exec(cfg, s, step).0.store[k]
         == Entry(Hash(map["email" := MintedFor(step)]), Some(s.now + TicketTtl(k)))
  {
    hide Inv, Login, PutHash, HashPassword;
    PutNewHash(s.store, s.now, k, map["email" := MintedFor(step)], TicketTtl(k));
    if step.DoLogin? {
      Sessions.HasConsistentTable(s);
      LoginTicketMinted(cfg, s, step.login, step.loginRnd);
    }
  }

  lemma LoginTicketMinted(cfg: Config, s: State, req: LoginRequest, rnd: LoginRandom)
    requires Consistent(s.table) && SignUp(rnd.ticket) !in s.store
    requires SignUp(rnd.ticket) in Login(cfg, s, req, rnd).0.store
    ensures Login(cfg, s, req, rnd).0.store
         == PutHash(s.store, s.now, SignUp(rnd.ticket), map["email" := req.email], SIGNUP_TTL)
  {
    hide PutHash, LoginSession, HashPassword, CheckPasswordHash, IsLegacyHash;
    var found := ByEmail(s.table, req.email);
    if found.Some? && req.clientId in cfg.clients {
      LoginSessionWrites(s, req, rnd, cfg.clients[req.clientId], found.value);
    }
  }

  lemma LoginSessionWrites(s: State, req: LoginRequest, rnd: LoginRandom, client: Client, user: Account)
    ensures TicketsFrom(s.store, LoginSession(s, req, rnd, client, user).0.store, None, None)
  {
    hide StartSession, CreateSessionData;
    if rnd.sid.Some? {
      var data := CreateSessionData(user.userId, req.clientId, req.deviceModel, req.deviceName, req.language,
                                    false, rnd.location);
      StartSessionWrites(s, user, client, req.nonce, rnd.sid.value, data, rnd.refresh, rnd.access);
    }
  }

  /** Every redeemable ticket was minted less than its lifetime ago. */
  lemma TicketLifetime(r: Run, n: nat, k: Key) returns (j: nat)
    requires IsRun(r) && n < |r.states| && IsTicket(k) && TicketValue(k) != "" && k in r.states[n].store
    ensures j < n && Written(r.steps[j]) == Some(k) && k !in r.states[j].store
    ensures k in r.states[j + 1].store && r.states[j + 1].store[k] == r.states[n].store[k]
    ensures r.states[n].store[k].expiry == Some(r.states[j].now + TicketTtl(k))
    ensures Live(r.states[n].store, r.states[n].now, k) ==>
              r.states[j].now <= r.states[n].now < r.states[j].now + TicketTtl(k)
  {
    hide Inv, Fresh, Exec, Authorize;
    j := TicketOrigin(r, n, k);
    RunGrows(r, j, n);
    FreshTicket(r.states[j], r.steps[j], k);
    if r.steps[j].DoAuthorize? {
      AuthorizeStepMints(r, j, k);
    } else {
      MailTicketMinted(r.cfg, r.states[j], r.steps[j], k);
    }
  }

  /** AuthorizeMints at a step of a run. */
  lemma AuthorizeStepMints(r: Run, j: nat, k: Key)
    requires IsRun(r) && j < |r.steps| && r.steps[j].DoAuthorize?
    requires Written(r.steps[j]) == Some(k) && k !in r.states[j].store && k in r.states[j + 1].store
    ensures var s, step := r.states[j], r.steps[j];
            && CheckParams(r.cfg, step.params).Accepted?
            && Validate(s.issued, s.now, step.cookies.access).Some?
            && r.states[j + 1].store[k]
               == Entry(Hash(CodeData(CheckParams(r.cfg, step.params).client, step.params,
                                      Validate(s.issued, s.now, step.cookies.access).value.sub)),
                        Some(s.now + CODE_TTL))
            && ReplyAt(r, j) == Callback(CallbackURL(step.params.redirectURI, k.code, step.params.state))
  {
    hide Inv, Authorize, CheckParams, CodeData;
    RunInv(r, j);
    AuthorizeMints(r.cfg, r.states[j], r.steps[j].params, r.steps[j].cookies, r.steps[j].authRnd);
  }

  // ---- one-time use ----

  /** Once a ticket that existed is gone, redeemed or expired, it stays gone. */
  lemma {:induction false} GoneStaysGone(r: Run, m: nat, n: nat, k: Key)
    requires IsRun(r) && m <= n < |r.states| && IsTicket(k)
    requires TicketValue(k) != "" && TicketValue(k) in r.states[m].used
    requires !Live(r.states[m].store, r.states[m].now, k)
    ensures !Live(r.states[n].store, r.states[n].now, k)
    decreases n
  {
    hide Inv, Exec;
    if m < n {
      GoneStaysGone(r, m, n - 1, k);
      RunGrows(r, m, n - 1);
      RunGrows(r, n - 1, n);
      StepWrites(r.cfg, r.states[n - 1], r.steps[n - 1]);
      assert Fresh(r.states[n - 1], r.steps[n - 1]);
    }
  }

  lemma RedeemingRemoves(cfg: Config, s: State, step: Step, k: Key)
    requires Redeemed(cfg, step) == Some(k) && FindHash(s.store, s.now, k).Some?
    ensures k !in Exec(cfg, s, step).0.store
  {
    hide RedeemCode, CheckTokenClient, HashPassword;
    if step.DoToken? {
      var s1 := s.(store := TakeHash(s.store, s.now, k).0);
      var checked := CheckTokenClient(cfg, step.exchange);
      RedeemCodeWrites(cfg, s1, step.exchange, step.tokenRnd, checked.client, FindHash(s.store, s.now, k).value);
    }
  }

  /** In a run, where requests follow one another, no ticket is redeemed twice
      (section 4.1.2 of RFC 6749 for authorization codes). */
  lemma RedeemedAtMostOnce(r: Run, i: nat, j: nat, k: Key)
    requires IsRun(r) && i < j < |r.steps|
    requires Redeemed(r.cfg, r.steps[i]) == Some(k) && FindHash(r.states[i].store, r.states[i].now, k).Some?
    requires Redeemed(r.cfg, r.steps[j]) == Some(k)
    ensures FindHash(r.states[j].store, r.states[j].now, k).None?
  {
    hide Inv, Exec, CheckTokenClient, Fresh;
    RunGrows(r, i, i + 1);
    TicketInUse(r.states[i], k);
    RedeemingRemoves(r.cfg, r.states[i], r.steps[i], k);
    RedeemedNonEmpty(r.cfg, r.steps[i], k);
    GoneStaysGone(r, i + 1, j, k);
  }

  lemma TicketInUse(s: State, k: Key)
    requires Inv(s) && IsTicket(k) && k in s.store
    ensures TicketValue(k) in s.used
  {
    assert ValueUsed(s.used, k);
  }

  lemma RedeemedNonEmpty(cfg: Config, step: Step, k: Key)
    requires Redeemed(cfg, step) == Some(k)
    ensures IsTicket(k) && TicketValue(k) != ""
  {
  }

  lemma NotWrittenAgain(s: State, step: Step, k: Key)
    requires Inv(s) && Fresh(s, step) && IsTicket(k) && TicketValue(k) != "" && k in s.store
    ensures Written(step) != Some(k)
  {
    hide Inv;
    TicketInUse(s, k);
  }

  /** A ticket stays exactly as it is while no request redeems it. */
  lemma {:induction false} TicketStays(r: Run, m: nat, n: nat, k: Key)
    requires IsRun(r) && m <= n < |r.states| && IsTicket(k) && TicketValue(k) != "" && k in r.states[m].store
    requires forall i :: m <= i < n ==> Redeemed(r.cfg, r.steps[i]) != Some(k)
    ensures k in r.states[n].store && r.states[n].store[k] == r.states[m].store[k]
    decreases n
  {
    hide Inv, Exec, Redeemed, Fresh, Written;
    if m < n {
      TicketStays(r, m, n - 1, k);
      RunInv(r, n - 1);
      StepWrites(r.cfg, r.states[n - 1], r.steps[n - 1]);
      NotWrittenAgain(r.states[n - 1], r.steps[n - 1], k);
    }
  }

  lemma TicketIsHash(s: State, k: Key)
    requires Inv(s) && IsTicket(k)
    ensures FindHash(s.store, s.now, k).Some? <==> Live(s.store, s.now, k)
  {
    assert k in s.store ==> ShapeOk(k, s.store[k]);
  }

  /** A ticket minted at step j can be redeemed at any later time exactly as long as its lifetime has not
      passed and no request has redeemed it yet, whatever else happens in the run. */
  lemma RedeemableExactly(r: Run, j: nat, n: nat, k: Key)
    requires IsRun(r) && j < n < |r.states| && IsTicket(k) && TicketValue(k) != ""
    requires Written(r.steps[j]) == Some(k) && k in r.states[j + 1].store
    ensures FindHash(r.states[n].store, r.states[n].now, k).Some?
       <==> && r.states[n].now < r.states[j].now + TicketTtl(k)
            && forall i :: j < i < n ==> Redeemed(r.cfg, r.steps[i]) != Some(k)
  {
    hide Inv, Exec, Fresh, FindHash, Written, Redeemed;
    RunGrows(r, j + 1, n);
    TicketIsHash(r.states[n], k);
    TicketInUse(r.states[j + 1], k);
    MintedAt(r, j, k);
    if i :| j < i < n && Redeemed(r.cfg, r.steps[i]) == Some(k) {
      RunGrows(r, j + 1, i);
      RunGrows(r, j + 1, i + 1);
      TicketIsHash(r.states[i], k);
      if Live(r.states[i].store, r.states[i].now, k) {
        RedeemingRemoves(r.cfg, r.states[i], r.steps[i], k);
        GoneStaysGone(r, i + 1, n, k);
      } else {
        GoneStaysGone(r, i, n, k);
      }
    } else {
      TicketStays(r, j + 1, n, k);
    }
  }

  /** The request that writes a ticket is the one that minted it. */
  lemma MintedAt(r: Run, j: nat, k: Key)
    requires IsRun(r) && j < |r.steps| && IsTicket(k) && TicketValue(k) != ""
    requires Written(r.steps[j]) == Some(k) && k in r.states[j + 1].store
    ensures r.states[j + 1].store[k].expiry == Some(r.states[j].now + TicketTtl(k))
    ensures r.states[j + 1].now == r.states[j].now
  {
    hide Inv, Fresh, Exec, Written;
    var m := TicketLifetime(r, j + 1, k);
    if m < j {
      RunInv(r, m + 1);
      TicketInUse(r.states[m + 1], k);
      RunGrows(r, m + 1, j);
      WrittenIsNew(r.states[j], r.steps[j], k);
    }
    WritingTakesNoTime(r.cfg, r.states[j], r.steps[j]);
  }

  lemma WrittenIsNew(s: State, step: Step, k: Key)
    requires Fresh(s, step) && IsTicket(k) && TicketValue(k) != "" && Written(step) == Some(k)
    ensures TicketValue(k) !in s.used
  {
  }

  lemma LoginTakesNoTime(cfg: Config, s: State, req: LoginRequest, rnd: LoginRandom)
    ensures Login(cfg, s, req, rnd).0.now == s.now
  {
    hide PutHash, InsertSession, CreateSessionData, HashPassword, CheckPasswordHash, UserClaims;
  }

  lemma AuthorizeTakesNoTime(cfg: Config, s: State, p: AuthParams, cookies: Cookies, rnd: AuthRandom)
    ensures Authorize(cfg, s, p, cookies, rnd).0.now == s.now
  {
    hide PutHash, FindHash, HGetAll, CheckParams, LoginURL, CodeData, NewClaims, Validate;
  }

  lemma WritingTakesNoTime(cfg: Config, s: State, step: Step)
    requires Written(step).Some?
    ensures Exec(cfg, s, step).0.now == s.now
  {
    hide Login, Authorize, PutHash, HashPassword, Insert;
    match step
    case DoLogin(req, rnd) => LoginTakesNoTime(cfg, s, req, rnd);
    case DoAuthorize(p, cookies, rnd) => AuthorizeTakesNoTime(cfg, s, p, cookies, rnd);
    case DoRegister(_, _) =>
    case DoRequestReset(_, _) =>
  }

  // ---- authorization codes ----

  /** The token was issued at the given time for this subject, nonce and audience. */
  predicate Says(issued: Issued, token: string, sub: string, nonce: string, audience: string, at: int) {
    && token in issued
    && var c := issued[token].claims;
       c.sub == sub && c.nonce == nonce && c.aud == [audience] && c.iat == at
  }

  lemma StartSessionSays(s: State, user: Account, client: Client, nonce: string, sid: string, data: Fields,
                         refresh: Option<string>, access: Option<string>)
    requires Differ(refresh, access)
    ensures var issued := StartSession(s, user, client, nonce, sid, data, refresh, access).issued;
            && (refresh.Some? ==>
                  Says(issued, refresh.value, FormatInt(user.userId), nonce, client.clientId, s.now))
            && (access.Some? ==>
                  Says(issued, access.value, FormatInt(user.userId), nonce, client.clientId, s.now))
  {
    hide InsertSession;
  }

  lemma RedeemAnswered(cfg: Config, s: State, req: TokenRequest, rnd: TokenRandom, client: Client, data: Fields)
    requires Consistent(s.table) && VerifiedId(s.table, Field(data, "user_id")) && client.clientId == req.clientId
    requires Differ(rnd.refresh, rnd.access) && RedeemCode(cfg, s, req, rnd, client, data).1.Tokens?
    ensures Field(data, "client_id") == req.clientId && Field(data, "redirect_uri") == req.redirectURI
    ensures client.isPublic ==> S256(cfg.crypto, req.codeVerifier) == Field(data, "code_challenge")
    ensures var (s', reply) := RedeemCode(cfg, s, req, rnd, client, data);
            && Says(s'.issued, reply.access, Field(data, "user_id"), Field(data, "nonce"), req.clientId, s.now)
            && Says(s'.issued, reply.refresh, Field(data, "user_id"), Field(data, "nonce"), req.clientId, s.now)
  {
    hide StartSession, CreateSessionData, S256, Says;
    var user := s.table.rows[ParseInt(Field(data, "user_id")).value];
    var hash := CreateSessionData(user.userId, Field(data, "client_id"), "", "", "", false, rnd.location);
    StartSessionSays(s, user, client, Field(data, "nonce"), rnd.sid.value, hash, rnd.refresh, rnd.access);
  }

  lemma CodeSubject(s: State, code: string)
    requires Inv(s) && FindHash(s.store, s.now, AuthCode(code)).Some?
    ensures Consistent(s.table) && VerifiedId(s.table, Field(FindHash(s.store, s.now, AuthCode(code)).value, "user_id"))
  {
  }

  /** What a successful exchange has checked, and what its tokens say. */
  lemma ExchangeAnswered(cfg: Config, s: State, req: TokenRequest, rnd: TokenRandom) returns (data: Fields)
    requires Inv(s) && Fresh(s, DoToken(req, rnd)) && ExchangeCode(cfg, s, req, rnd).1.Tokens?
    ensures req.code != "" && req.clientId in cfg.clients
    ensures FindHash(s.store, s.now, AuthCode(req.code)) == Some(data)
    ensures Field(data, "client_id") == req.clientId && Field(data, "redirect_uri") == req.redirectURI
    ensures cfg.clients[req.clientId].isPublic ==> S256(cfg.crypto, req.codeVerifier) == Field(data, "code_challenge")
    ensures var (s', reply) := ExchangeCode(cfg, s, req, rnd);
            && Says(s'.issued, reply.access, Field(data, "user_id"), Field(data, "nonce"), req.clientId, s.now)
            && Says(s'.issued, reply.refresh, Field(data, "user_id"), Field(data, "nonce"), req.clientId, s.now)
  {
    hide Inv, RedeemCode, FindHash, S256, CheckPasswordHash, Says;
    data := FindHash(s.store, s.now, AuthCode(req.code)).value;
    var s1 := s.(store := TakeHash(s.store, s.now, AuthCode(req.code)).0);
    CodeSubject(s, req.code);
    RedeemAnswered(cfg, s1, req, rnd, cfg.clients[req.clientId], data);
  }

  /** ExchangeAnswered at a step of a run. */
  lemma ExchangeAnsweredAt(r: Run, i: nat) returns (data: Fields)
    requires IsRun(r) && i < |r.steps| && r.steps[i].DoToken? && ReplyAt(r, i).Tokens?
    ensures var s, req, reply := r.states[i], r.steps[i].exchange, ReplyAt(r, i);
            && req.code != "" && req.clientId in r.cfg.clients
            && AuthCode(req.code) in s.store && Live(s.store, s.now, AuthCode(req.code))
            && s.store[AuthCode(req.code)].value == Hash(data)
            && Field(data, "client_id") == req.clientId && Field(data, "redirect_uri") == req.redirectURI
            && (r.cfg.clients[req.clientId].isPublic ==>
                  S256(r.cfg.crypto, req.codeVerifier) == Field(data, "code_challenge"))
            && var issued, sub, nonce := r.states[i + 1].issued, Field(data, "user_id"), Field(data, "nonce");
               && Says(issued, reply.access, sub, nonce, req.clientId, s.now)
               && Says(issued, reply.refresh, sub, nonce, req.clientId, s.now)
  {
    hide Inv, ExchangeCode, S256, Says;
    RunInv(r, i);
    assert Fresh(r.states[i], r.steps[i]);
    data := ExchangeAnswered(r.cfg, r.states[i], r.steps[i].exchange, r.steps[i].tokenRnd);
  }

  /** Every token pair answered by /token goes back to an earlier authorization that minted that code,
      less than 60 seconds before, for the same client and redirect URI; the tokens carry the nonce of
      that authorization and the subject of the access token presented to it, and a public client has
      shown the verifier of the recorded challenge (section 4.1.3 of RFC 6749, section 4.6 of RFC 7636). */
  lemma CodeProvenance(r: Run, i: nat) returns (j: nat)
    requires IsRun(r) && i < |r.steps| && r.steps[i].DoToken? && ReplyAt(r, i).Tokens?
    ensures j < i && r.steps[j].DoAuthorize? && ReplyAt(r, j).Callback?
    ensures var req, p := r.steps[i].exchange, r.steps[j].params;
            && r.steps[j].authRnd.code == Some(req.code)
            && r.states[j].now <= r.states[i].now < r.states[j].now + 60
            && ProperRequest(r.cfg, p) && p.clientId == req.clientId && p.redirectURI == req.redirectURI
            && req.clientId in r.cfg.clients
            && (r.cfg.clients[req.clientId].isPublic ==> IsChallengeOf(r.cfg.crypto, req.codeVerifier, p.codeChallenge))
    ensures Validate(r.states[j].issued, r.states[j].now, r.steps[j].cookies.access).Some?
    ensures var p := r.steps[j].params;
            var sub := Validate(r.states[j].issued, r.states[j].now, r.steps[j].cookies.access).value.sub;
            && Says(r.states[i + 1].issued, ReplyAt(r, i).access, sub, p.nonce, p.clientId, r.states[i].now)
            && Says(r.states[i + 1].issued, ReplyAt(r, i).refresh, sub, p.nonce, p.clientId, r.states[i].now)
  {
    hide Inv, Fresh, Exec, S256, IsChallengeOf, CheckTokenClient, CheckParams, Says, FindHash;
    var req := r.steps[i].exchange;
    var data := ExchangeAnsweredAt(r, i);
    j := TicketLifetime(r, i, AuthCode(req.code));
    AuthorizeStepMints(r, j, AuthCode(req.code));
    CheckParamsExactly(r.cfg, r.steps[j].params);
    S256Exactly(r.cfg.crypto, req.codeVerifier, r.steps[j].params.codeChallenge);
  }

  /** A code stored without a challenge is worthless to a public client: the computed challenge is
      never empty. */
  lemma NoChallengeNoTokens(cfg: Config, s: State, req: TokenRequest, rnd: TokenRandom)
    requires req.clientId in cfg.clients && cfg.clients[req.clientId].isPublic
    requires var data := FindHash(s.store, s.now, AuthCode(req.code));
             data.Some? ==> "code_challenge" !in data.value
    ensures ExchangeCode(cfg, s, req, rnd).1.Refused?
  {
    hide StartSession, CreateSessionData;
  }

  // ---- verification ----

  /** The account is verified in t' but was not in t. */
  predicate BecameVerified(t: Table, t': Table, u: int64) {
    u in t'.rows && t'.rows[u].isVerified && !(u in t.rows && t.rows[u].isVerified)
  }

  /** Only redeeming a signup ticket verifies an account, and only the account it was minted for. */
  lemma VerifiedOnlyByTicket(cfg: Config, s: State, step: Step, u: int64)
    requires Inv(s) && BecameVerified(s.table, Exec(cfg, s, step).0.table, u)
    ensures step.DoVerify? && step.link != "" && Exec(cfg, s, step).1 == Done && u in s.table.rows
    ensures var data := FindHash(s.store, s.now, SignUp(step.link));
            data.Some? && Field(data.value, "email") == s.table.rows[u].email
  {
    hide StoreOk, SessionsOk, IndexesOk, GrantsOk, CodesOk, FindHash;
    if !step.DoVerify? {
      OthersVerifyNobody(cfg, s, step, u);
    }
  }

  lemma OthersVerifyNobody(cfg: Config, s: State, step: Step, u: int64)
    requires Inv(s) && !step.DoVerify?
    ensures !BecameVerified(s.table, Exec(cfg, s, step).0.table, u)
  {
    hide Inv, LoginSession, PutHash, TakeHash, Split, RefreshTokens, ExchangeCode, Authorize, HashPassword,
         CheckPasswordHash, Validate, IsLegacyHash, Introspect, UserInfo, Authenticate, Logout;
    if step.DoLogout? {
      LogoutKeeps(cfg, s, step.authorization);
    } else if step.DoRefresh? {
      RefreshKeepsTable(cfg, s, step.refresh, step.refreshRnd);
    } else if step.DoToken? {
      TokenKeepsTable(cfg, s, step.exchange, step.tokenRnd);
    } else if step.DoAuthorize? {
      AuthorizeKeepsTable(cfg, s, step.params, step.cookies, step.authRnd);
    } else if step.DoLogin? {
      var found := ByEmail(s.table, step.login.email);
      if found.Some? && step.login.clientId in cfg.clients {
        LoginSessionKeepsTable(s, step.login, step.loginRnd, cfg.clients[step.login.clientId], found.value);
      }
    }
  }

  lemma LoginSessionKeepsTable(s: State, req: LoginRequest, rnd: LoginRandom, client: Client, user: Account)
    ensures LoginSession(s, req, rnd, client, user).0.table == s.table
    ensures LoginSession(s, req, rnd, client, user).0.passwords == s.passwords
  {
    hide InsertSession, CreateSessionData;
  }

  lemma RefreshKeepsTable(cfg: Config, s: State, req: RefreshRequest, rnd: RefreshRandom)
    requires Inv(s)
    ensures RefreshTokens(cfg, s, req, rnd).0.table == s.table
    ensures RefreshTokens(cfg, s, req, rnd).0.passwords == s.passwords
  {
    hide Inv, RefreshTokens, FindHash, InsertSession, ExtendSession, CreateSessionData, NewClaims;
    if !RefreshTokens(cfg, s, req, rnd).1.Refreshed? {
      Sessions.RefusedRefreshIssuesNothing(cfg, s, req, rnd);
    } else {
      var claims, id, session, who := RefreshAnswered(cfg, s, req, rnd);
    }
  }

  lemma TokenKeepsTable(cfg: Config, s: State, req: TokenRequest, rnd: TokenRandom)
    ensures ExchangeCode(cfg, s, req, rnd).0.table == s.table
    ensures ExchangeCode(cfg, s, req, rnd).0.passwords == s.passwords
  {
    hide TakeHash, InsertSession, CreateSessionData, CheckTokenClient, S256, UserClaims;
  }

  lemma AuthorizeKeepsTable(cfg: Config, s: State, p: AuthParams, cookies: Cookies, rnd: AuthRandom)
    ensures Authorize(cfg, s, p, cookies, rnd).0.table == s.table
    ensures Authorize(cfg, s, p, cookies, rnd).0.passwords == s.passwords
  {
    hide PutHash, FindHash, HGetAll, CheckParams, LoginURL, CodeData, NewClaims, Validate;
  }

  /** An account that became verified during the run did so by redeeming, within 24 hours, a signup
      ticket that a registration or login for its own email had minted. */
  lemma {:induction false} VerifiedBySignup(r: Run, n: nat, u: int64) returns (i: nat, m: nat)
    requires IsRun(r) && n < |r.states|
    requires u in r.states[n].table.rows && r.states[n].table.rows[u].isVerified
    requires !(u in r.states[0].table.rows && r.states[0].table.rows[u].isVerified)
    ensures m < i < n && r.steps[i].DoVerify? && ReplyAt(r, i) == Done
    ensures Written(r.steps[m]) == Some(SignUp(r.steps[i].link))
    ensures r.steps[m].DoRegister? || r.steps[m].DoLogin?
    ensures MintedFor(r.steps[m]) == r.states[n].table.rows[u].email
    ensures r.states[m].now <= r.states[i].now < r.states[m].now + 86_400
  {
    hide Inv, Exec, Fresh, FindHash, Written;
    RunGrows(r, n - 1, n);
    var before := r.states[n - 1].table;
    if u in before.rows && before.rows[u].isVerified {
      i, m := VerifiedBySignup(r, n - 1, u);
    } else {
      i := n - 1;
      VerifiedOnlyByTicket(r.cfg, r.states[i], r.steps[i], u);
      m := SignUpTicketOrigin(r, i, r.steps[i].link);
    }
  }

  /** A signup ticket that is found was minted for its email less than 24 hours before. */
  lemma SignUpTicketOrigin(r: Run, i: nat, link: string) returns (m: nat)
    requires IsRun(r) && i < |r.states| && link != ""
    requires FindHash(r.states[i].store, r.states[i].now, SignUp(link)).Some?
    ensures m < i && (r.steps[m].DoRegister? || r.steps[m].DoLogin?)
    ensures Written(r.steps[m]) == Some(SignUp(link))
    ensures Field(FindHash(r.states[i].store, r.states[i].now, SignUp(link)).value, "email") == MintedFor(r.steps[m])
    ensures r.states[m].now <= r.states[i].now < r.states[m].now + 86_400
  {
    hide Inv, Exec, Fresh;
    m := TicketLifetime(r, i, SignUp(link));
    RunInv(r, m);
    MailTicketMinted(r.cfg, r.states[m], r.steps[m], SignUp(link));
  }
}
