/** Stored passwords over whole runs: what each stored hash accepts, and the one-way move from bcrypt. */
module PasswordHistory {
  import opened Wrappers
  import opened GoStrings
  import opened Decimal
  import opened Base64
  import opened Passwords
  import opened Keys
  import opened Accounts
  import opened TokenStore
  import opened Protocol
  import opened Invariant
  import opened Steps
  import opened Runs
  import opened Provenance
  import opened Authentication
  import Sessions
  import Settings = SettingsUpdate

  /** Every stored hash accepts the password its account was last given. */
  ghost predicate LatestAccepted(cfg: Config, s: State) {
    forall u :: u in s.table.rows ==>
      u in s.passwords && CheckPasswordHash(cfg.crypto, s.passwords[u], s.table.rows[u].password)
  }

  /** A login that shows the password behind a bcrypt hash. */
  predicate Migrates(cfg: Config, s: State, req: LoginRequest) {
    PasswordShown(cfg, s, req) && HasLegacyHash(s, req.email)
  }

  /** A migration for which no new hash could be made. */
  predicate FailedMigration(cfg: Config, s: State, step: Step) {
    step.DoLogin? && Migrates(cfg, s, step.login) && step.loginRnd.salt.None?
  }

  lemma NewHashAccepted(cfg: Config, password: string, salt: seq<Byte>)
    ensures CheckPasswordHash(cfg.crypto, password, HashPassword(cfg.crypto, password, Some(salt)).value)
    ensures !IsLegacyHash(HashPassword(cfg.crypto, password, Some(salt)).value)
  {
    CheckHashRoundTrip(cfg.crypto, password, password, salt);
    HashPasswordIsModern(cfg.crypto, password, salt);
  }

  lemma PasswordSet(cfg: Config, s: State, email: string, encoded: string, password: string)
    requires Consistent(s.table) && LatestAccepted(cfg, s)
    ensures LatestAccepted(cfg, SetAccountPassword(s, email, encoded, password))
       <==> email !in s.table.byEmail || CheckPasswordHash(cfg.crypto, password, encoded)
  {
    hide CheckPasswordHash;
    var s' := SetAccountPassword(s, email, encoded, password);
    if email in s.table.byEmail {
      var u := s.table.byEmail[email];
      assert u in s'.table.rows && s'.table.rows[u].password == encoded && s'.passwords[u] == password;
    }
  }

  lemma LoginPasswords(cfg: Config, s: State, req: LoginRequest, rnd: LoginRandom)
    requires Consistent(s.table) && LatestAccepted(cfg, s)
    ensures LatestAccepted(cfg, Login(cfg, s, req, rnd).0) <==> !FailedMigration(cfg, s, DoLogin(req, rnd))
  {
    hide CheckPasswordHash, Accepts, HashPassword, IsLegacyHash, IsBcrypt, LoginSession, PutHash, SetAccountPassword;
    var found := ByEmail(s.table, req.email);
    if found.Some? && req.clientId in cfg.clients {
      var user := found.value;
      ChecksSay(cfg, req.password, user.password);
      LoginSessionKeepsTable(s, req, rnd, cfg.clients[req.clientId], user);
      LoginSessionAnswers(s, req, rnd, cfg.clients[req.clientId], user);
      var hashed := HashPassword(cfg.crypto, req.password, rnd.salt);
      PasswordSet(cfg, s, user.email, hashed.GetOr(""), req.password);
      HashOutcome(cfg, req.password, rnd.salt);
    }
  }

  lemma HashOutcome(cfg: Config, password: string, salt: Option<seq<Byte>>)
    ensures var encoded := HashPassword(cfg.crypto, password, salt).GetOr("");
            && (CheckPasswordHash(cfg.crypto, password, encoded) <==> salt.Some?)
            && !IsLegacyHash(encoded)
  {
    if salt.Some? {
      NewHashAccepted(cfg, password, salt.value);
    } else {
      EmptyHashRejects(cfg.crypto, password);
    }
  }

  lemma RegisterPasswords(cfg: Config, s: State, req: RegisterRequest, rnd: RegisterRandom)
    requires LatestAccepted(cfg, s)
    ensures LatestAccepted(cfg, Register(cfg, s, req, rnd).0)
  {
    hide CheckPasswordHash, HashPassword, PutHash;
    HashOutcome(cfg, req.password, rnd.salt);
    assert HashPassword(cfg.crypto, req.password, rnd.salt).Some? <==> rnd.salt.Some? by {
      HashMade(cfg, req.password, rnd.salt);
    }
  }

  lemma HashMade(cfg: Config, password: string, salt: Option<seq<Byte>>)
    ensures HashPassword(cfg.crypto, password, salt).Some? <==> salt.Some?
  {
  }

  lemma ResetPasswords(cfg: Config, s: State, token: string, password: string, salt: Option<seq<Byte>>)
    requires Consistent(s.table) && LatestAccepted(cfg, s)
    ensures LatestAccepted(cfg, ResetPassword(cfg, s, token, password, salt).0)
  {
    hide CheckPasswordHash, HashPassword, TakeHash, SetAccountPassword;
    var (store, data) := TakeHash(s.store, s.now, Reset(token));
    if data.Some? {
      HashOutcome(cfg, password, salt);
      HashMade(cfg, password, salt);
      PasswordSet(cfg, s.(store := store), Field(data.value, "email"),
                  HashPassword(cfg.crypto, password, salt).GetOr(""), password);
    }
  }

  lemma VerifyingKeepsPasswords(t: Table, email: string)
    requires Consistent(t)
    ensures SetVerified(t, email).rows.Keys == t.rows.Keys
    ensures forall u :: u in t.rows ==> SetVerified(t, email).rows[u].password == t.rows[u].password
  {
  }

  lemma VerifyKeepsPasswords(cfg: Config, s: State, link: string)
    requires Consistent(s.table)
    ensures var s' := Verify(cfg, s, link).0;
            && s'.passwords == s.passwords && s'.table.rows.Keys == s.table.rows.Keys
            && forall u :: u in s.table.rows ==> s'.table.rows[u].password == s.table.rows[u].password
  {
    hide TakeHash, SetVerified;
    var data := TakeHash(s.store, s.now, SignUp(link)).1;
    if data.Some? {
      VerifyingKeepsPasswords(s.table, Field(data.value, "email"));
    }
  }

  /** No other request touches a password. */
  lemma OthersKeepPasswords(cfg: Config, s: State, step: Step)
    requires Inv(s) && !step.DoLogin? && !step.DoRegister? && !step.DoResetPassword?
    ensures var s' := Exec(cfg, s, step).0;
            && s'.passwords == s.passwords && s'.table.rows.Keys == s.table.rows.Keys
            && forall u :: u in s.table.rows ==> s'.table.rows[u].password == s.table.rows[u].password
  {
    hide Inv, PutHash, Verify, RefreshTokens, ExchangeCode, Authorize, Logout, UpdateProfile;
    match step
    case DoRefresh(req, rnd) => RefreshKeepsTable(cfg, s, req, rnd);
    case DoToken(req, rnd) => TokenKeepsTable(cfg, s, req, rnd);
    case DoAuthorize(p, cookies, rnd) => AuthorizeKeepsTable(cfg, s, p, cookies, rnd);
    case DoVerify(link) =>
      Sessions.HasConsistentTable(s);
      VerifyKeepsPasswords(cfg, s, link);
    case DoLogout(authorization) => LogoutKeeps(cfg, s, authorization);
    case DoUpdateProfile(header, cookie, body) => UpdateKeepsPasswords(cfg, s, header, cookie, body);
    case _ =>
  }

  lemma UpdateKeepsPasswords(cfg: Config, s: State, header: string, cookie: string, body: Settings.ProfileBody)
    ensures var s' := UpdateProfile(cfg, s, header, cookie, body).0;
            && s'.passwords == s.passwords && s'.table.rows.Keys == s.table.rows.Keys
            && forall u :: u in s.table.rows ==> s'.table.rows[u].password == s.table.rows[u].password
  {
    hide Authenticate, Settings.Fits;
  }

  /** A step keeps every stored hash accepting its account's latest password, unless it is a failed
      migration, which always breaks this: the account is left with a hash that accepts nothing. */
  lemma StepPasswords(cfg: Config, s: State, step: Step)
    requires Inv(s) && LatestAccepted(cfg, s)
    ensures LatestAccepted(cfg, Exec(cfg, s, step).0) <==> !FailedMigration(cfg, s, step)
  {
    hide Inv, Login, Register, ResetPassword, CheckPasswordHash, Verify, RequestReset, Authorize, ExchangeCode,
         RefreshTokens, Logout, Introspect, UserInfo, UpdateProfile;
    Sessions.HasConsistentTable(s);
    match step
    case DoLogin(req, rnd) => LoginPasswords(cfg, s, req, rnd);
    case DoRegister(req, rnd) => RegisterPasswords(cfg, s, req, rnd);
    case DoResetPassword(token, password, salt) => ResetPasswords(cfg, s, token, password, salt);
    case _ => OthersKeepPasswords(cfg, s, step);
  }

  /** Over any run in which every migration could hash, each stored hash accepts the password of the
      latest registration, reset or migrating login of its account. */
  lemma {:induction false} RunPasswords(r: Run, n: nat)
    requires IsRun(r) && n < |r.states| && LatestAccepted(r.cfg, r.states[0])
    requires forall i :: 0 <= i < n ==> !FailedMigration(r.cfg, r.states[i], r.steps[i])
    ensures LatestAccepted(r.cfg, r.states[n])
  {
    hide Inv, Exec, Fresh, LatestAccepted, FailedMigration;
    if n > 0 {
      RunPasswords(r, n - 1);
      RunInv(r, n - 1);
      StepPasswords(r.cfg, r.states[n - 1], r.steps[n - 1]);
    }
  }

  // ---- bcrypt only ever leaves ----

  /** Whoever has left bcrypt stays off it, and nobody joins on it. */
  ghost predicate LegacyShrinks(t: Table, t': Table) {
    forall u :: u in t'.rows && IsLegacyHash(t'.rows[u].password) ==>
      u in t.rows && IsLegacyHash(t.rows[u].password)
  }

  lemma ModernPasswordLegacy(t: Table, email: string, encoded: string)
    requires Consistent(t) && !IsLegacyHash(encoded)
    ensures LegacyShrinks(t, SetPassword(t, email, encoded))
    ensures ByEmail(t, email).Some? ==>
              ByEmail(SetPassword(t, email, encoded), email) == Some(ByEmail(t, email).value.(password := encoded))
  {
    hide IsLegacyHash;
  }

  lemma LoginLegacy(cfg: Config, s: State, req: LoginRequest, rnd: LoginRandom)
    requires Consistent(s.table)
    ensures LegacyShrinks(s.table, Login(cfg, s, req, rnd).0.table)
  {
    hide CheckPasswordHash, HashPassword, IsLegacyHash, LoginSession, PutHash, SetPassword;
    var found := ByEmail(s.table, req.email);
    if found.Some? && req.clientId in cfg.clients {
      LoginSessionKeepsTable(s, req, rnd, cfg.clients[req.clientId], found.value);
      HashOutcome(cfg, req.password, rnd.salt);
      ModernPasswordLegacy(s.table, found.value.email, HashPassword(cfg.crypto, req.password, rnd.salt).GetOr(""));
    }
  }

  /** A migration leaves the account with a hash that is no bcrypt one. */
  lemma MigrationLeavesBcrypt(cfg: Config, s: State, req: LoginRequest, rnd: LoginRandom)
    requires Consistent(s.table) && Migrates(cfg, s, req)
    ensures HasLegacyHash(s, req.email) && !HasLegacyHash(Login(cfg, s, req, rnd).0, req.email)
  {
    hide CheckPasswordHash, Accepts, HashPassword, IsLegacyHash, IsBcrypt, LoginSession, PutHash, SetPassword;
    ChecksSay(cfg, req.password, ByEmail(s.table, req.email).value.password);
    LegacyIsBcrypt(HashPassword(cfg.crypto, req.password, rnd.salt).GetOr(""));
    var user := ByEmail(s.table, req.email).value;
    HashOutcome(cfg, req.password, rnd.salt);
    ModernPasswordLegacy(s.table, user.email, HashPassword(cfg.crypto, req.password, rnd.salt).GetOr(""));
  }

  lemma RegisterLegacy(cfg: Config, s: State, req: RegisterRequest, rnd: RegisterRandom)
    ensures LegacyShrinks(s.table, Register(cfg, s, req, rnd).0.table)
  {
    hide HashPassword, IsLegacyHash, PutHash;
    HashOutcome(cfg, req.password, rnd.salt);
  }

  lemma ResetLegacy(cfg: Config, s: State, token: string, password: string, salt: Option<seq<Byte>>)
    requires Consistent(s.table)
    ensures LegacyShrinks(s.table, ResetPassword(cfg, s, token, password, salt).0.table)
  {
    hide HashPassword, IsLegacyHash, TakeHash, SetPassword;
    HashOutcome(cfg, password, salt);
    var data := TakeHash(s.store, s.now, Reset(token)).1;
    if data.Some? {
      ModernPasswordLegacy(s.table, Field(data.value, "email"), HashPassword(cfg.crypto, password, salt).GetOr(""));
    }
  }

  lemma StepLegacy(cfg: Config, s: State, step: Step)
    requires Inv(s)
    ensures LegacyShrinks(s.table, Exec(cfg, s, step).0.table)
  {
    hide Inv, Login, Register, ResetPassword, IsLegacyHash, RefreshTokens, ExchangeCode, Authorize, Verify, Logout,
         RequestReset, Introspect, UserInfo, UpdateProfile;
    Sessions.HasConsistentTable(s);
    match step
    case DoLogin(req, rnd) => LoginLegacy(cfg, s, req, rnd);
    case DoRegister(req, rnd) => RegisterLegacy(cfg, s, req, rnd);
    case DoResetPassword(token, password, salt) => ResetLegacy(cfg, s, token, password, salt);
    case _ => OthersKeepPasswords(cfg, s, step);
  }

  lemma {:induction false} RunLegacy(r: Run, m: nat, n: nat)
    requires IsRun(r) && m <= n < |r.states|
    ensures LegacyShrinks(r.states[m].table, r.states[n].table)
    decreases n
  {
    hide Inv, Exec, Fresh, IsLegacyHash;
    if m < n {
      RunLegacy(r, m, n - 1);
      RunInv(r, n - 1);
      StepLegacy(r.cfg, r.states[n - 1], r.steps[n - 1]);
    }
  }

  /** Each account takes the migration branch at most once in a run. */
  lemma MigratesAtMostOnce(r: Run, i: nat, j: nat)
    requires IsRun(r) && i < j < |r.steps|
    requires r.steps[i].DoLogin? && r.steps[j].DoLogin? && r.steps[i].login.email == r.steps[j].login.email
    requires Migrates(r.cfg, r.states[i], r.steps[i].login)
    ensures !Migrates(r.cfg, r.states[j], r.steps[j].login)
  {
    hide Inv, Fresh, Login, IsLegacyHash, IsBcrypt, PasswordShown;
    forall hash ensures IsLegacyHash(hash) <==> IsBcrypt(hash) { LegacyIsBcrypt(hash); }
    RunInv(r, i);
    RunGrows(r, i, i + 1);
    RunGrows(r, i + 1, j);
    RunLegacy(r, i + 1, j);
    Sessions.HasConsistentTable(r.states[i]);
    Sessions.HasConsistentTable(r.states[i + 1]);
    Sessions.HasConsistentTable(r.states[j]);
    MigrationLeavesBcrypt(r.cfg, r.states[i], r.steps[i].login, r.steps[i].loginRnd);
  }

  // ---- who changes a password ----

  predicate PasswordChanged(t: Table, t': Table, u: int64) {
    u in t.rows && u in t'.rows && t'.rows[u].password != t.rows[u].password
  }

  /** The request is the migrating login of the account, or redeems a reset ticket stored for its email. */
  predicate MayChange(cfg: Config, s: State, step: Step, email: string) {
    || (step.DoLogin? && step.login.email == email && Migrates(cfg, s, step.login))
    || (step.DoResetPassword? && step.resetToken != "" && step.password != ""
        && var data := FindHash(s.store, s.now, Reset(step.resetToken));
           data.Some? && Field(data.value, "email") == email)
  }

  lemma LoginChangesOwn(cfg: Config, s: State, req: LoginRequest, rnd: LoginRandom, u: int64)
    requires Consistent(s.table) && PasswordChanged(s.table, Login(cfg, s, req, rnd).0.table, u)
    ensures MayChange(cfg, s, DoLogin(req, rnd), s.table.rows[u].email)
  {
    hide CheckPasswordHash, Accepts, HashPassword, IsLegacyHash, IsBcrypt, LoginSession, PutHash;
    var found := ByEmail(s.table, req.email);
    if found.Some? && req.clientId in cfg.clients {
      ChecksSay(cfg, req.password, found.value.password);
      LoginSessionKeepsTable(s, req, rnd, cfg.clients[req.clientId], found.value);
    }
  }

  lemma ResetChangesOwn(cfg: Config, s: State, token: string, password: string, salt: Option<seq<Byte>>, u: int64)
    requires Consistent(s.table) && PasswordChanged(s.table, ResetPassword(cfg, s, token, password, salt).0.table, u)
    ensures MayChange(cfg, s, DoResetPassword(token, password, salt), s.table.rows[u].email)
  {
    hide HashPassword, FindHash;
  }

  lemma RegisterChangesNobody(cfg: Config, s: State, req: RegisterRequest, rnd: RegisterRandom, u: int64)
    ensures !PasswordChanged(s.table, Register(cfg, s, req, rnd).0.table, u)
  {
    hide HashPassword, PutHash;
  }

  lemma StepChanges(cfg: Config, s: State, step: Step, u: int64)
    requires Inv(s) && PasswordChanged(s.table, Exec(cfg, s, step).0.table, u)
    ensures MayChange(cfg, s, step, s.table.rows[u].email)
  {
    hide Inv, Login, Register, ResetPassword, RefreshTokens, ExchangeCode, Authorize, Verify, Logout, RequestReset,
         Introspect, UserInfo, UpdateProfile, MayChange;
    Sessions.HasConsistentTable(s);
    match step
    case DoLogin(req, rnd) => LoginChangesOwn(cfg, s, req, rnd, u);
    case DoRegister(req, rnd) => RegisterChangesNobody(cfg, s, req, rnd, u);
    case DoResetPassword(token, password, salt) => ResetChangesOwn(cfg, s, token, password, salt, u);
    case _ => OthersKeepPasswords(cfg, s, step);
  }

  /** Whenever a stored password changes, it is at a login of that account that shows the password behind
      its bcrypt hash, or by redeeming a reset ticket that was requested for that account's own email less
      than 150 minutes before. */
  lemma PasswordChangeOrigin(r: Run, i: nat, u: int64) returns (m: nat)
    requires IsRun(r) && i < |r.steps| && PasswordChanged(r.states[i].table, r.states[i + 1].table, u)
    ensures var email, step := r.states[i].table.rows[u].email, r.steps[i];
            || (step.DoLogin? && step.login.email == email && Migrates(r.cfg, r.states[i], step.login))
            || (step.DoResetPassword? && m < i
                && r.steps[m].DoRequestReset? && r.steps[m].ticket == step.resetToken && r.steps[m].mail == email
                && r.states[m].now <= r.states[i].now < r.states[m].now + 9_000)
  {
    hide Inv, Fresh, Exec, Migrates;
    RunInv(r, i);
    StepChanges(r.cfg, r.states[i], r.steps[i], u);
    m := 0;
    if r.steps[i].DoResetPassword? {
      var k := Reset(r.steps[i].resetToken);
      m := TicketLifetime(r, i, k);
      RunInv(r, m);
      MailTicketMinted(r.cfg, r.states[m], r.steps[m], k);
    }
  }
}
