/** Whose details go where: from a registration into the account, from the account into tokens and userinfo,
    and from a request into the stored session. */
module Profiles {
  import opened Wrappers
  import opened GoStrings
  import opened Decimal
  import opened Base64
  import opened Passwords
  import opened Keys
  import opened Redis
  import opened Accounts
  import opened Jwt
  import opened TokenStore
  import opened Protocol
  import opened Invariant
  import opened Steps
  import opened Runs
  import opened Requests
  import opened Authentication
  import opened Provenance
  import Sessions
  import PasswordHistory
  import Flow
  import Settings = SettingsUpdate

  // ---- accounts ----

  /** The details of an account, without its password and its verification. */
  datatype Details = Details(
    userId: int64, email: string, firstName: string, middleName: Option<string>, lastName: Option<string>,
    countryCode: Option<string>, username: Option<string>)

  function DetailsOf(a: Account): Details {
    Details(a.userId, a.email, a.firstName, a.middleName, a.lastName, a.countryCode, a.username)
  }

  /** A registration puts exactly its own values into the new row, unverified and without a middle name, and
      leaves every other row alone. */
  lemma RegistrationIsTheRow(cfg: Config, s: State, req: RegisterRequest, rnd: RegisterRandom)
    requires Register(cfg, s, req, rnd).1 == Done
    ensures var s' := Register(cfg, s, req, rnd).0;
            && rnd.userId in s'.table.rows && rnd.userId !in s.table.rows
            && DetailsOf(s'.table.rows[rnd.userId])
               == Details(rnd.userId, req.email, req.firstName, None, Some(req.lastName), Some(req.countryCode),
                          Some(req.username))
            && !s'.table.rows[rnd.userId].isVerified
            && s'.table.rows - {rnd.userId} == s.table.rows
  {
    hide HashPassword, PutHash;
  }

  /** The request edits the profile of this account. */
  predicate Edits(s: State, step: Step, u: int64) {
    && step.DoUpdateProfile?
    && var context := Authenticate(s, step.header, step.cookie);
       context.Context? && context.userId == u
  }

  ghost predicate SameDetails(t: Table, t': Table) {
    forall u :: u in t.rows ==> u in t'.rows && DetailsOf(t'.rows[u]) == DetailsOf(t.rows[u])
  }

  lemma PasswordKeepsDetails(t: Table, email: string, password: string)
    requires Consistent(t)
    ensures SameDetails(t, SetPassword(t, email, password)) && SameDetails(t, SetVerified(t, email))
  {
  }

  lemma LoginKeepsDetails(cfg: Config, s: State, req: LoginRequest, rnd: LoginRandom)
    requires Consistent(s.table)
    ensures SameDetails(s.table, Login(cfg, s, req, rnd).0.table)
  {
    hide CheckPasswordHash, HashPassword, IsLegacyHash, LoginSession, PutHash, SetPassword;
    var found := ByEmail(s.table, req.email);
    if found.Some? && req.clientId in cfg.clients {
      LoginSessionKeepsTable(s, req, rnd, cfg.clients[req.clientId], found.value);
      PasswordKeepsDetails(s.table, found.value.email, HashPassword(cfg.crypto, req.password, rnd.salt).GetOr(""));
    }
  }

  lemma RegisterKeepsDetails(cfg: Config, s: State, req: RegisterRequest, rnd: RegisterRandom)
    ensures SameDetails(s.table, Register(cfg, s, req, rnd).0.table)
  {
    hide HashPassword, PutHash;
  }

  lemma VerifyKeepsDetails(cfg: Config, s: State, link: string)
    requires Consistent(s.table)
    ensures SameDetails(s.table, Verify(cfg, s, link).0.table)
  {
    hide TakeHash, SetVerified, Consistent;
    var data := TakeHash(s.store, s.now, SignUp(link)).1;
    PasswordKeepsDetails(s.table, if data.Some? then Field(data.value, "email") else "", "");
  }

  lemma ResetKeepsDetails(cfg: Config, s: State, token: string, password: string, salt: Option<seq<Byte>>)
    requires Consistent(s.table)
    ensures SameDetails(s.table, ResetPassword(cfg, s, token, password, salt).0.table)
  {
    hide HashPassword, TakeHash, SetPassword, Consistent;
    var data := TakeHash(s.store, s.now, Reset(token)).1;
    PasswordKeepsDetails(s.table, if data.Some? then Field(data.value, "email") else "",
                         HashPassword(cfg.crypto, password, salt).GetOr(""));
  }

  lemma RequestKeepsTable(cfg: Config, s: State, mail: string, ticket: string)
    ensures RequestReset(cfg, s, mail, ticket).0.table == s.table
  {
    hide PutHash;
  }

  /** Nothing but a profile edit of the account itself changes its details. */
  lemma StepKeepsDetails(cfg: Config, s: State, step: Step, u: int64)
    requires Inv(s) && u in s.table.rows && !Edits(s, step, u)
    ensures var t' := Exec(cfg, s, step).0.table;
            u in t'.rows && DetailsOf(t'.rows[u]) == DetailsOf(s.table.rows[u])
  {
    hide Inv, Login, Register, Verify, RequestReset, ResetPassword, Authorize, ExchangeCode, RefreshTokens, Logout,
         Introspect, UserInfo, UpdateProfile, Edits, DetailsOf, Consistent;
    Sessions.HasConsistentTable(s);
    match step
    case DoLogin(req, rnd) => LoginKeepsDetails(cfg, s, req, rnd);
    case DoRegister(req, rnd) => RegisterKeepsDetails(cfg, s, req, rnd);
    case DoVerify(link) => VerifyKeepsDetails(cfg, s, link);
    case DoResetPassword(token, password, salt) => ResetKeepsDetails(cfg, s, token, password, salt);
    case DoRequestReset(mail, ticket) => RequestKeepsTable(cfg, s, mail, ticket);
    case DoUpdateProfile(header, cookie, body) => EditLeavesOthers(cfg, s, header, cookie, body, u);
    case _ => OthersKeepTable(cfg, s, step);
  }

  predicate TouchesTable(step: Step) {
    || step.DoLogin? || step.DoRegister? || step.DoVerify? || step.DoRequestReset? || step.DoResetPassword?
    || step.DoUpdateProfile?
  }

  lemma OthersKeepTable(cfg: Config, s: State, step: Step)
    requires Inv(s) && !TouchesTable(step)
    ensures Exec(cfg, s, step).0.table == s.table
  {
    hide Inv, Authorize, ExchangeCode, RefreshTokens, Logout, Introspect, UserInfo;
    match step
    case DoRefresh(req, rnd) => RefreshKeepsTable(cfg, s, req, rnd);
    case DoToken(req, rnd) => TokenKeepsTable(cfg, s, req, rnd);
    case DoAuthorize(p, cookies, rnd) => AuthorizeKeepsTable(cfg, s, p, cookies, rnd);
    case DoLogout(authorization) => LogoutKeeps(cfg, s, authorization);
    case _ =>
  }

  lemma EditLeavesOthers(cfg: Config, s: State, header: string, cookie: string, body: Settings.ProfileBody, u: int64)
    requires u in s.table.rows && !Edits(s, DoUpdateProfile(header, cookie, body), u)
    ensures var t' := UpdateProfile(cfg, s, header, cookie, body).0.table;
            u in t'.rows && t'.rows[u] == s.table.rows[u]
  {
    hide Authenticate, Settings.Edited, Settings.Fits;
  }

  ghost predicate Unedited(r: Run, m: nat, n: nat, u: int64)
    requires IsRun(r) && n < |r.states|
  {
    forall i :: m <= i < n ==> !Edits(r.states[i], r.steps[i], u)
  }

  /** So over a run the details of an account rest until it edits its profile. */
  lemma {:induction false} DetailsRest(r: Run, m: nat, n: nat, u: int64)
    requires IsRun(r) && m <= n < |r.states| && u in r.states[m].table.rows && Unedited(r, m, n, u)
    ensures u in r.states[n].table.rows
    ensures DetailsOf(r.states[n].table.rows[u]) == DetailsOf(r.states[m].table.rows[u])
    decreases n
  {
    hide Inv, Exec, Fresh, Edits, DetailsOf;
    if m < n {
      DetailsRest(r, m, n - 1, u);
      RunInv(r, n - 1);
      StepKeepsDetails(r.cfg, r.states[n - 1], r.steps[n - 1], u);
    }
  }

  /** The access token of a login is valid for 15 minutes and its session stands that long. */
  lemma LoginSessionLasts(r: Run, l: nat, n: nat)
    requires IsRun(r) && l < n < |r.states| && r.steps[l].DoLogin? && ReplyAt(r, l).Tokens?
    requires r.states[n].now < r.states[l].now + 900
    ensures ByEmail(r.states[l].table, r.steps[l].login.email).Some?
    ensures var s, token := r.states[n], ReplyAt(r, l).access;
            && Validate(s.issued, s.now, token).Some? && token in s.issued
            && var c := s.issued[token].claims;
               && Validate(s.issued, s.now, token).value == c && c.tokenType.Access?
               && c.sub == FormatInt(ByEmail(r.states[l].table, r.steps[l].login.email).value.userId)
               && Live(s.store, s.now, Session(c.sub, c.sid)) && VerifiedId(s.table, c.sub)
  {
    hide Inv, Login, Grows, SessionsOk, VerifiedId;
    var token := ReplyAt(r, l).access;
    Flow.LoginLasts(r, l, n);
    Flow.AnswersOwnToken(r.cfg, r.states[l], r.steps[l].login, r.steps[l].loginRnd);
    assert Fresh(r.states[l], r.steps[l]);
    RunGrows(r, l, l + 1);
    RunGrows(r, l + 1, n);
    WritingTakesNoTime(r.cfg, r.states[l], r.steps[l]);
    Flow.LoginLasts(r, l, l + 1);
    Sessions.LoginIssues(r.cfg, r.states[l], r.steps[l].login, r.steps[l].loginRnd, token);
    Sessions.NewSessionCovers(r.states[l + 1], token);
    CoveredStill(r.states[l + 1], r.states[n], token);
  }

  lemma CoveredStill(s: State, s': State, token: string)
    requires Inv(s) && Inv(s') && Grows(s, s') && token in s.issued && Sessions.Covered(s, s.issued[token].claims)
    requires Validate(s'.issued, s'.now, token).Some?
    ensures token in s'.issued
    ensures var c := s'.issued[token].claims;
            Live(s'.store, s'.now, Session(c.sub, c.sid)) && VerifiedId(s'.table, c.sub)
  {
    var c := s.issued[token].claims;
    Sessions.IssuedGrant(s, token);
    Sessions.IssuedGrant(s', token);
    Sessions.CoverageSurvives(s, s', c);
    Sessions.LiveSession(s', c);
  }

  /** After a sign-up, userinfo with the access token of the login shows the values of the registration, as
      long as that token is valid and the profile has not been edited. */
  lemma SignUpShows(r: Run, i: nat, v: nat, l: nat, n: nat, header: string, cookie: string)
    requires IsRun(r) && Flow.SignsUp(r, i, v, l) && l < n < |r.states| && r.states[n].now < r.states[l].now + 900
    requires Unedited(r, i + 1, n, r.steps[i].registerRnd.userId)
    ensures ReplyAt(r, l).Tokens?
    ensures Presents(header, cookie, ReplyAt(r, l).access) ==>
              var req, id := r.steps[i].register, r.steps[i].registerRnd.userId;
              var reply := UserInfo(r.cfg, r.states[n], header, cookie);
              && reply.Profile? && reply.account.isVerified
              && DetailsOf(reply.account)
                 == Details(id, req.email, req.firstName, None, Some(req.lastName), Some(req.countryCode),
                            Some(req.username))
  {
    hide Inv, Register, Login, Edits, Unedited, DetailsOf, Validate, UserInfo, Presents, Consistent, TableGrows,
         Flow.ProperLogin, Flow.PasswordRests, Redeemed, Live;
    var req, rnd := r.steps[i].register, r.steps[i].registerRnd;
    Flow.SignUpWorks(r, i, v, l);
    RegistrationIsTheRow(r.cfg, r.states[i], req, rnd);
    DetailsRest(r, i + 1, n, rnd.userId);
    OwnEmail(r.states[i + 1].table, rnd.userId, req.email);
    Flow.AccountsLast(r, i + 1, l);
    Flow.SameAccount(r.states[i + 1].table, r.states[l].table, rnd.userId);
    LoginSessionLasts(r, l, n);
    ParseIntFormatInt(rnd.userId);
    if Presents(header, cookie, ReplyAt(r, l).access) {
      RunInv(r, n);
      Sessions.UserInfoShowsOwnAccount(r.cfg, r.states[n], header, cookie, ReplyAt(r, l).access);
    }
  }

  lemma OwnEmail(t: Table, u: int64, email: string)
    requires u in t.rows && DetailsOf(t.rows[u]).email == email
    ensures t.rows[u].email == email
  {
  }

  // ---- tokens ----

  /** The token carries the account's own email, names and country. */
  predicate Describes(c: Claims, a: Account) {
    && c.email == a.email && c.firstName == a.firstName
    && c.lastName == (if a.lastName.Some? then a.lastName.value else "")
    && c.country == (if a.countryCode.Some? then a.countryCode.value else "")
  }

  predicate SameIdentity(c: Claims, d: Claims) {
    c.email == d.email && c.firstName == d.firstName && c.lastName == d.lastName && c.country == d.country
  }

  lemma StartSessionDescribes(s: State, user: Account, client: Client, nonce: string, sid: string, data: Fields,
                              refresh: Option<string>, access: Option<string>)
    requires Differ(refresh, access)
    ensures var issued := StartSession(s, user, client, nonce, sid, data, refresh, access).issued;
            && (refresh.Some? ==> refresh.value in issued && Describes(issued[refresh.value].claims, user))
            && (access.Some? ==> access.value in issued && Describes(issued[access.value].claims, user))
  {
    hide InsertSession;
  }

  /** The tokens of a login describe the account as it is stored. */
  lemma LoginDescribes(cfg: Config, s: State, req: LoginRequest, rnd: LoginRandom)
    requires Differ(rnd.refresh, rnd.access) && Login(cfg, s, req, rnd).1.Tokens?
    ensures ByEmail(s.table, req.email).Some?
    ensures var (s', reply), user := Login(cfg, s, req, rnd), ByEmail(s.table, req.email).value;
            && reply.access in s'.issued && Describes(s'.issued[reply.access].claims, user)
            && (reply.refresh != "" ==> reply.refresh in s'.issued && Describes(s'.issued[reply.refresh].claims, user))
  {
    hide StartSession, CreateSessionData, CheckPasswordHash, PutHash, IsLegacyHash, HashPassword, SetAccountPassword,
         Describes;
    var user, client := ByEmail(s.table, req.email).value, cfg.clients[req.clientId];
    var data := CreateSessionData(user.userId, req.clientId, req.deviceModel, req.deviceName, req.language,
                                  false, rnd.location);
    StartSessionDescribes(s, user, client, req.nonce, rnd.sid.value, data, rnd.refresh, rnd.access);
  }

  /** The tokens of a code exchange describe the account the code was minted for. */
  lemma ExchangeDescribes(cfg: Config, s: State, req: TokenRequest, rnd: TokenRandom)
    requires Differ(rnd.refresh, rnd.access) && ExchangeCode(cfg, s, req, rnd).1.Tokens?
    ensures var data := FindHash(s.store, s.now, AuthCode(req.code));
            && data.Some? && ParseInt(Field(data.value, "user_id")).Some?
            && var user := ById(s.table, ParseInt(Field(data.value, "user_id")).value);
               && user.Some?
               && var (s', reply) := ExchangeCode(cfg, s, req, rnd);
                  && reply.access in s'.issued && Describes(s'.issued[reply.access].claims, user.value)
                  && reply.refresh in s'.issued && Describes(s'.issued[reply.refresh].claims, user.value)
  {
    hide StartSession, CreateSessionData, CheckTokenClient, ClientProven, FindHash, S256, ParseInt, Describes;
    TokenClientChecked(cfg, req);
    var data := FindHash(s.store, s.now, AuthCode(req.code));
    var s1 := s.(store := Del(s.store, AuthCode(req.code)));
    if CheckTokenClient(cfg, req).Accepted? && data.Some? {
      var client := CheckTokenClient(cfg, req).client;
      assert ExchangeCode(cfg, s, req, rnd) == RedeemCode(cfg, s1, req, rnd, client, data.value);
      var user := s.table.rows[ParseInt(Field(data.value, "user_id")).value];
      var hash := CreateSessionData(user.userId, Field(data.value, "client_id"), "", "", "", false, rnd.location);
      StartSessionDescribes(s1, user, client, Field(data.value, "nonce"), rnd.sid.value, hash, rnd.refresh, rnd.access);
    }
  }

  /** The account whose current details a refresh was asked to fetch. */
  function Fetched(s: State, req: RefreshRequest): Option<Account> {
    if req.updateInfo && req.refreshToken in s.issued && ParseInt(s.issued[req.refreshToken].claims.sub).Some? then
      ById(s.table, ParseInt(s.issued[req.refreshToken].claims.sub).value)
    else None
  }

  /** The country of a refreshed token: the fetched account's, "N/A" if it has none, or the old token's. */
  function RefreshedCountry(fetched: Option<Account>, was: Claims): string {
    match fetched
    case None => was.country
    case Some(a) => if a.countryCode.Some? then a.countryCode.value else "N/A"
  }

  predicate SameNames(c: Claims, d: Claims) {
    c.email == d.email && c.firstName == d.firstName && c.lastName == d.lastName
  }

  /** Without rotation the new access token stays in the old session and carries the fetched account's
      current details, or repeats the refresh token's. */
  predicate Renewed(s: State, c: Claims, was: Claims, fetched: Option<Account>) {
    && c.sid == was.sid && c.tokenType.Access? && c.iat == s.now && c.exp == s.now + 900
    && c.country == RefreshedCountry(fetched, was)
    && (fetched.None? ==> SameNames(c, was))
    && (fetched.Some? ==>
          && c.email == fetched.value.email && c.firstName == fetched.value.firstName
          && Some(c.lastName) == fetched.value.lastName)
  }

  /** A rotated token repeats the refresh token's names, takes the country, and names the new session. */
  predicate Replaced(s: State, c: Claims, was: Claims, fetched: Option<Account>, sid: string) {
    && c.sid == sid && c.iat == s.now && c.exp == s.now + (if c.tokenType.Access? then 900 else 1_209_600)
    && c.country == RefreshedCountry(fetched, was) && SameNames(c, was)
  }

  lemma RotateReplaces(s: State, token: string, claims: Claims, id: int64, clientId: string, country: string,
                       rnd: RefreshRandom, fetched: Option<Account>)
    requires claims.aud != [] && rnd.sid.Some? && rnd.refresh.Some? && Differ(rnd.refresh, rnd.access2)
    requires country == RefreshedCountry(fetched, claims)
    ensures var issued := Rotate(s, token, claims, id, clientId, country, rnd.sid.value, rnd).issued;
            && rnd.refresh.value in issued && issued[rnd.refresh.value].claims.tokenType.Refresh?
            && Replaced(s, issued[rnd.refresh.value].claims, claims, fetched, rnd.sid.value)
            && (rnd.access2.Some? ==>
                  && rnd.access2.value in issued && issued[rnd.access2.value].claims.tokenType.Access?
                  && Replaced(s, issued[rnd.access2.value].claims, claims, fetched, rnd.sid.value))
  {
    hide InsertSession, CreateSessionData, RefreshedCountry;
  }

  /** What refreshed tokens carry, with and without rotation and with and without an update. */
  lemma RefreshCarries(cfg: Config, s: State, req: RefreshRequest, rnd: RefreshRandom)
    requires Inv(s) && Fresh(s, DoRefresh(req, rnd)) && RefreshTokens(cfg, s, req, rnd).1.Refreshed?
    ensures req.refreshToken in s.issued
    ensures var (s', reply) := RefreshTokens(cfg, s, req, rnd);
            var was, fetched := s.issued[req.refreshToken].claims, Fetched(s, req);
            if reply.newRefresh.None? then
              reply.newAccess in s'.issued && Renewed(s, s'.issued[reply.newAccess].claims, was, fetched)
            else
              && reply.newRefresh.value in s'.issued && rnd.sid.Some?
              && Replaced(s, s'.issued[reply.newRefresh.value].claims, was, fetched, rnd.sid.value)
              && (reply.newAccess != "" ==>
                    && reply.newAccess in s'.issued
                    && Replaced(s, s'.issued[reply.newAccess].claims, was, fetched, rnd.sid.value))
  {
    hide Inv, RefreshTokens, Rotate, ExtendSession, Renewed, Replaced;
    var claims, id, session, who := RefreshAnswered(cfg, s, req, rnd);
    AccessIsRenewed(s, claims, id, who, Fetched(s, req));
    var country := who.country.GetOr("N/A");
    if RotationDue(claims, s.now) && rnd.sid.Some? && rnd.refresh.Some? {
      RotateReplaces(s, req.refreshToken, claims, id, Field(session, "client_id"), country, rnd, Fetched(s, req));
    }
  }

  lemma AccessIsRenewed(s: State, claims: Claims, id: int64, who: Identity, fetched: Option<Account>)
    requires claims.aud != [] && who == CurrentIdentity(claims, fetched)
    requires fetched.Some? ==> fetched.value.lastName.Some?
    ensures who.country.GetOr("N/A") == RefreshedCountry(fetched, claims)
    ensures Renewed(s, NewClaims(id, who.email, who.firstName, who.lastName, Access, s.now, claims.nonce, claims.sid,
                                 who.country.GetOr("N/A"), claims.aud[0]), claims, fetched)
  {
  }

  // ---- sessions ----

  /** The hash of a session opened for this account, client and device. */
  function SessionHash(userId: int64, clientId: string, model: string, name: string, language: string, at: Location):
      Fields
  {
    map["user_id" := FormatInt(userId), "blacklisted" := "0", "client_id" := clientId, "device_model" := model,
        "device_name" := name, "language" := language, "carrier" := at.carrier, "lat" := at.lat, "lon" := at.lon]
  }

  /** The session is stored with this hash, for 14 days. */
  predicate SessionStored(s: State, s': State, uid: string, sid: string, hash: Fields) {
    && Session(uid, sid) in s'.store
    && s'.store[Session(uid, sid)] == Entry(Hash(hash), Some(s.now + 1_209_600))
  }

  lemma OpenSessionStores(s: State, userId: int64, sid: string, clientId: string, model: string, name: string,
                          language: string, at: Location)
    requires Inv(s) && sid !in s.used
    ensures var data := CreateSessionData(userId, clientId, model, name, language, false, at);
            var s' := OpenSession(s, userId, sid, data);
            && SessionStored(s, s', FormatInt(userId), sid, SessionHash(userId, clientId, model, name, language, at))
            && (forall k: Key :: k.Session? && k in s.store ==> k in s'.store && s'.store[k] == s.store[k])
  {
    hide InsertSession, StoreOk, SessionsOk, IndexesOk, GrantsOk, CodesOk, PrunedScores;
    OpenSessionEffect(s, userId, sid, CreateSessionData(userId, clientId, model, name, language, false, at));
  }

  /** Issuing tokens does not touch the store. */
  lemma StartSessionStores(s: State, user: Account, client: Client, nonce: string, sid: string, data: Fields,
                           refresh: Option<string>, access: Option<string>)
    ensures StartSession(s, user, client, nonce, sid, data, refresh, access).store
         == OpenSession(s, user.userId, sid, data).store
  {
    hide InsertSession;
  }

  /** A login stores the session with the client, the device and the language the request named. */
  lemma LoginStores(cfg: Config, s: State, req: LoginRequest, rnd: LoginRandom)
    requires Inv(s) && Fresh(s, DoLogin(req, rnd)) && Login(cfg, s, req, rnd).1.Tokens?
    ensures rnd.sid.Some? && ByEmail(s.table, req.email).Some?
    ensures var id := ByEmail(s.table, req.email).value.userId;
            SessionStored(s, Login(cfg, s, req, rnd).0, FormatInt(id), rnd.sid.value,
                          SessionHash(id, req.clientId, req.deviceModel, req.deviceName, req.language, rnd.location))
  {
    hide Inv, StartSession, OpenSession, CreateSessionData, CheckPasswordHash, PutHash, IsLegacyHash, HashPassword,
         SetAccountPassword, SessionHash;
    var user, client := ByEmail(s.table, req.email).value, cfg.clients[req.clientId];
    var data := CreateSessionData(user.userId, req.clientId, req.deviceModel, req.deviceName, req.language,
                                  false, rnd.location);
    StartSessionStores(s, user, client, req.nonce, rnd.sid.value, data, rnd.refresh, rnd.access);
    OpenSessionStores(s, user.userId, rnd.sid.value, req.clientId, req.deviceModel, req.deviceName, req.language,
                      rnd.location);
  }

  /** A code exchange stores one for the client, without a device. */
  lemma ExchangeStores(cfg: Config, s: State, req: TokenRequest, rnd: TokenRandom)
    requires Inv(s) && Fresh(s, DoToken(req, rnd)) && ExchangeCode(cfg, s, req, rnd).1.Tokens?
    ensures var data := FindHash(s.store, s.now, AuthCode(req.code));
            && rnd.sid.Some? && data.Some? && ParseInt(Field(data.value, "user_id")).Some?
            && var id := ParseInt(Field(data.value, "user_id")).value;
               SessionStored(s, ExchangeCode(cfg, s, req, rnd).0, FormatInt(id), rnd.sid.value,
                             SessionHash(id, req.clientId, "", "", "", rnd.location))
  {
    hide Inv, StartSession, OpenSession, CreateSessionData, CheckTokenClient, ClientProven, FindHash, S256, ParseInt,
         SessionHash, Consistent;
    TokenClientChecked(cfg, req);
    Sessions.HasConsistentTable(s);
    TakeKeepsInv(s, AuthCode(req.code));
    var data := FindHash(s.store, s.now, AuthCode(req.code));
    var s1 := s.(store := TakeHash(s.store, s.now, AuthCode(req.code)).0);
    if CheckTokenClient(cfg, req).Accepted? && data.Some? {
      var id := ParseInt(Field(data.value, "user_id")).value;
      var user := s.table.rows[id];
      var client := CheckTokenClient(cfg, req).client;
      RowOfId(s.table, id);
      var hash := CreateSessionData(id, Field(data.value, "client_id"), "", "", "", false, rnd.location);
      StartSessionStores(s1, user, client, Field(data.value, "nonce"), rnd.sid.value, hash, rnd.refresh, rnd.access);
      OpenSessionStores(s1, id, rnd.sid.value, Field(data.value, "client_id"), "", "", "", rnd.location);
    }
  }

  lemma RowOfId(t: Table, id: int64)
    requires Consistent(t) && id in t.rows
    ensures t.rows[id].userId == id
  {
  }

  lemma RotateStores(s: State, token: string, claims: Claims, id: int64, clientId: string, country: string,
                     sid: string, rnd: RefreshRandom)
    requires claims.aud != [] && Inv(s) && sid !in s.used
    ensures var s' := Rotate(s, token, claims, id, clientId, country, sid, rnd);
            && SessionStored(s, s', FormatInt(id), sid, SessionHash(id, clientId, "", "", "", rnd.location))
            && (forall k: Key :: k.Session? && k in s.store ==> k in s'.store && s'.store[k] == s.store[k])
  {
    hide Inv, OpenSession, CreateSessionData, SessionHash, SessionStored;
    BareSidIsNoKey(s, claims.sid);
    assert s.(store := Del(s.store, Bare(claims.sid))) == s;
    OpenSessionStores(s, id, sid, clientId, "", "", "", rnd.location);
    SameStoreStored(s, OpenSession(s, id, sid, CreateSessionData(id, clientId, "", "", "", false, rnd.location)),
                    Rotate(s, token, claims, id, clientId, country, sid, rnd), FormatInt(id), sid,
                    SessionHash(id, clientId, "", "", "", rnd.location));
  }

  lemma SameStoreStored(s: State, s': State, s'': State, uid: string, sid: string, hash: Fields)
    requires s''.store == s'.store && SessionStored(s, s', uid, sid, hash)
    ensures SessionStored(s, s'', uid, sid, hash)
  {
  }

  /** A refresh rotates exactly when less than two days remain and the new session id and refresh token can be
      made. A rotation stores a new session for the same user and client and leaves the old one; otherwise
      the old session is extended to 14 days, unless a rotation was due. */
  lemma RefreshStores(cfg: Config, s: State, req: RefreshRequest, rnd: RefreshRandom)
    requires Inv(s) && Fresh(s, DoRefresh(req, rnd)) && RefreshTokens(cfg, s, req, rnd).1.Refreshed?
    ensures req.refreshToken in s.issued && s.issued[req.refreshToken].claims.aud != []
    ensures var (s', reply), was := RefreshTokens(cfg, s, req, rnd), s.issued[req.refreshToken].claims;
            var due, k := was.exp - s.now < 172_800, Session(was.sub, was.sid);
            && k in s.store && ParseInt(was.sub).Some?
            && (reply.newRefresh.Some? <==> due && rnd.sid.Some? && rnd.refresh.Some?)
            && (!due ==> s'.store == s.store[k := Entry(s.store[k].value, Some(s.now + 1_209_600))])
            && (due && reply.newRefresh.None? ==> s'.store == s.store)
            && (reply.newRefresh.Some? ==>
                  && SessionStored(s, s', was.sub, rnd.sid.value,
                                   SessionHash(ParseInt(was.sub).value, was.aud[0], "", "", "", rnd.location))
                  && k in s'.store && s'.store[k] == s.store[k])
  {
    hide Inv, RefreshTokens, RefreshSession, SessionStored, SessionHash, FindHash, GrantOk, CurrentIdentity,
         FormatInt, ParseInt, Validate, Fresh, Live;
    var claims, id, session, who := RefreshAnswered(cfg, s, req, rnd);
    FreshSid(s, req, rnd);
    ClientOfSession(s, req.refreshToken);
    FoundIsStored(s, Session(claims.sub, claims.sid));
    RefreshSessionStores(s, req.refreshToken, claims, id, session, who, rnd);
  }

  lemma RefreshSessionStores(s: State, token: string, claims: Claims, id: int64, session: Fields, who: Identity,
                             rnd: RefreshRandom)
    requires Inv(s) && NewValue(s, rnd.sid) && rnd.access.Some? && claims.aud == [Field(session, "client_id")]
    requires FormatInt(id) == claims.sub && Live(s.store, s.now, Session(claims.sub, claims.sid))
    ensures var (s', reply) := RefreshSession(s, token, claims, id, session, who, rnd);
            var due, k := claims.exp - s.now < 172_800, Session(claims.sub, claims.sid);
            && (reply.newRefresh.Some? <==> due && rnd.sid.Some? && rnd.refresh.Some?)
            && (!due ==> s'.store == s.store[k := Entry(s.store[k].value, Some(s.now + 1_209_600))])
            && (due && reply.newRefresh.None? ==> s'.store == s.store)
            && (reply.newRefresh.Some? ==>
                  && SessionStored(s, s', claims.sub, rnd.sid.value,
                                   SessionHash(id, claims.aud[0], "", "", "", rnd.location))
                  && k in s'.store && s'.store[k] == s.store[k])
  {
    hide Inv, Rotate, ExtendSession, SessionStored, SessionHash, NewClaims, FormatInt, Field;
    if !RotationDue(claims, s.now) {
      ExtendStores(s, claims.sub, claims.sid);
    } else if rnd.sid.Some? && rnd.refresh.Some? {
      RotateStores(s, token, claims, id, Field(session, "client_id"), who.country.GetOr("N/A"), rnd.sid.value, rnd);
    }
  }

  lemma FreshSid(s: State, req: RefreshRequest, rnd: RefreshRandom)
    requires Fresh(s, DoRefresh(req, rnd))
    ensures NewValue(s, rnd.sid)
  {
  }

  lemma ClientOfSession(s: State, token: string)
    requires Inv(s) && token in s.issued
    ensures var c := s.issued[token].claims;
            var k := Session(c.sub, c.sid);
            && k in s.store && s.store[k].value.Hash? && c.aud == [Field(s.store[k].value.fields, "client_id")]
  {
    hide Inv;
    Sessions.IssuedGrant(s, token);
  }

  lemma FoundIsStored(s: State, k: Key)
    ensures var found := FindHash(s.store, s.now, k);
            found.Some? ==> Live(s.store, s.now, k) && s.store[k].value == Hash(found.value)
  {
  }

  lemma ExtendStores(s: State, sub: string, sid: string)
    requires Inv(s) && Live(s.store, s.now, Session(sub, sid))
    ensures ExtendSession(s.store, s.now, sub, sid)
         == s.store[Session(sub, sid) := Entry(s.store[Session(sub, sid)].value, Some(s.now + 1_209_600))]
  {
    ExtendEffect(s, sub, sid);
  }
}
