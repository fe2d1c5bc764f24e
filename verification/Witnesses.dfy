/** Runs in which the two failures happen that the theorems exclude: a token that outlives its session,
    and an account locked out by its own migration. */
module Witnesses {
  import opened Wrappers
  import opened Base64
  import opened Passwords
  import opened Keys
  import opened Accounts
  import opened Jwt
  import opened TokenStore
  import opened Protocol
  import opened Invariant
  import opened Steps
  import opened Runs
  import opened Authentication
  import Sessions
  import PasswordHistory

  // ---- a token that outlives its session ----

  /** The refresh ten minutes before the session ends, for which no session id can be made. */
  function LateRefresh(refresh: string, access: string): Step {
    DoRefresh(RefreshRequest(refresh, false), RefreshRandom(Some(access), None, None, None, Location("", "", "")))
  }

  function LateRun(cfg: Config, s: State, login: Step, refresh: string, access: string): Run {
    var s1 := Exec(cfg, s, login).0;
    var s2 := Exec(cfg, s1, Tick(14 * 86_400 - 600)).0;
    var s3 := Exec(cfg, s2, LateRefresh(refresh, access)).0;
    var s4 := Exec(cfg, s3, Tick(600)).0;
    Run(cfg, [s, s1, s2, s3, s4],
        [login, Tick(14 * 86_400 - 600), LateRefresh(refresh, access), Tick(600)])
  }

  lemma LoginLeaves(cfg: Config, s: State, req: LoginRequest, rnd: LoginRandom)
    requires Init(s) && Fresh(s, DoLogin(req, rnd)) && Login(cfg, s, req, rnd).1.Tokens? && rnd.refresh.Some?
    ensures var s' := Login(cfg, s, req, rnd).0;
            && s'.now == s.now && rnd.access.Some?
            && s'.issued.Keys == {rnd.refresh.value, rnd.access.value}
            && var c := s'.issued[rnd.refresh.value].claims;
               c.tokenType.Refresh? && c.iat == s.now && c.exp == s.now + SESSION_TTL
  {
    hide InsertSession, CreateSessionData, CheckPasswordHash, IsLegacyHash, HashPassword, PutHash, SetAccountPassword;
  }

  lemma SessionEnds(s: State, token: string)
    requires Inv(s) && token in s.issued && s.issued[token].claims.tokenType.Refresh?
    requires s.issued[token].claims.iat == s.now
    ensures var c := s.issued[token].claims;
            var k := Session(c.sub, c.sid);
            k in s.store && s.store[k].expiry == Some(s.now + SESSION_TTL)
  {
    hide Inv;
    Sessions.IssuedGrant(s, token);
    Sessions.OpenSessionOk(s, Session(s.issued[token].claims.sub, s.issued[token].claims.sid));
  }

  /** What the late refresh does: an access token for the old session, which is left as it is. */
  lemma LateRefreshLeaves(cfg: Config, s: State, token: string, access: string)
    requires Inv(s) && token in s.issued && s.issued[token].claims.tokenType.Refresh?
    requires s.issued[token].claims.exp == s.now + 600
    ensures var (s', reply) := Exec(cfg, s, LateRefresh(token, access));
            && reply.Refreshed? && s'.store == s.store && s'.now == s.now && access in s'.issued
            && var c, d := s'.issued[access].claims, s.issued[token].claims;
               c.exp == s.now + 900 && c.iat == s.now && c.sub == d.sub && c.sid == d.sid
  {
    hide Inv, RefreshTokens, FindHash;
    var step := LateRefresh(token, access);
    Sessions.IssuedGrant(s, token);
    Sessions.RefreshAnswersExactly(cfg, s, step.refresh, step.refreshRnd);
    var claims, id, session, who := RefreshAnswered(cfg, s, step.refresh, step.refreshRnd);
  }

  lemma ExpiredIsInactive(cfg: Config, s: State, token: string)
    requires token in s.issued
    requires var k := Session(s.issued[token].claims.sub, s.issued[token].claims.sid);
             k in s.store && s.store[k].expiry == Some(s.now)
    ensures Introspect(cfg, s, token) == Inactive
  {
  }

  /** The late refresh and what introspection says ten minutes later. */
  lemma LateRefreshFails(cfg: Config, s: State, token: string, access: string)
    requires Inv(s) && token in s.issued && access != "" && access !in s.issued
    requires var c := s.issued[token].claims;
             var k := Session(c.sub, c.sid);
             && c.tokenType.Refresh? && c.iat <= s.now && c.exp == s.now + 600
             && k in s.store && s.store[k].expiry == Some(s.now + 600)
    ensures var s' := Exec(cfg, s, LateRefresh(token, access)).0;
            var s'' := Exec(cfg, s', Tick(600)).0;
            && Sessions.LateFailedRotation(s, LateRefresh(token, access)) && Fresh(s, LateRefresh(token, access))
            && access in s''.issued && s''.now < s''.issued[access].claims.exp
            && Introspect(cfg, s'', access) == Inactive
  {
    hide Inv, RefreshTokens, Introspect, Validate, LateRefresh, Sessions.UpdatePanics, Sessions.LateFailedRotation;
    LateRefreshLeaves(cfg, s, token, access);
    LateRefreshIsLate(s, token, access);
    ExpiredIsInactive(cfg, Exec(cfg, Exec(cfg, s, LateRefresh(token, access)).0, Tick(600)).0, access);
  }

  /** After any login that signed both tokens, a refresh ten minutes before the session ends for which no
      session id can be made is a late failed rotation, and ten minutes later the access token it gave is
      unexpired and nevertheless reported inactive. */
  lemma LateFailedRotationHappens(cfg: Config, s: State, req: LoginRequest, rnd: LoginRandom, access: string)
    requires Init(s) && Fresh(s, DoLogin(req, rnd)) && Login(cfg, s, req, rnd).1.Tokens? && rnd.refresh.Some?
    requires access != "" && Some(access) != rnd.refresh && Some(access) != rnd.access
    ensures var r := LateRun(cfg, s, DoLogin(req, rnd), rnd.refresh.value, access);
            && IsRun(r)
            && Sessions.LateFailedRotation(r.states[2], r.steps[2])
            && access in r.states[4].issued && r.states[4].now < r.states[4].issued[access].claims.exp
            && Introspect(cfg, r.states[4], access) == Inactive
  {
    hide Inv, Grows, Login, RefreshTokens, Introspect, LateRefresh, Sessions.LateFailedRotation, Init;
    var token := rnd.refresh.value;
    var s1 := Login(cfg, s, req, rnd).0;
    InitInv(s);
    StepKeeps(cfg, s, DoLogin(req, rnd));
    LoginLeaves(cfg, s, req, rnd);
    SessionEnds(s1, token);
    TickKeepsInv(s1, 14 * 86_400 - 600);
    LateRefreshFails(cfg, s1.(now := s1.now + 14 * 86_400 - 600), token, access);
  }

  lemma LateRefreshIsLate(s: State, token: string, access: string)
    requires token in s.issued && access != "" && access !in s.issued
    requires var c := s.issued[token].claims;
             && c.tokenType.Refresh? && c.iat <= s.now && c.exp == s.now + 600
             && Sessions.SessionEndsBefore(s, c, s.now + 900)
    ensures Sessions.LateFailedRotation(s, LateRefresh(token, access)) && Fresh(s, LateRefresh(token, access))
  {
  }

  // ---- a concrete service ----

  /** Primitives that cannot tell anything apart. */
  function FlatCrypto(): Crypto {
    Primitives((_: string, _: seq<Byte>, n: nat) => seq(n, _ => 0), (_, _) => true, _ => seq(32, _ => 0))
  }

  function DemoConfig(): Config {
    Config(map["app" := Client("app", "", "uri", true)], FlatCrypto(), _ => true, _ => true, (_, _) => true, "https")
  }

  /** One verified account with the given stored hash and nothing else. */
  function DemoState(hash: string): State {
    var user := Account(1, "a@b", hash, "A", None, Some("B"), Some("BE"), None, true);
    State(0, map[], Table(map[1 := user], map["a@b" := 1]), map[], map[], {}, map[1 := "p"])
  }

  const DEMO_LOGIN := LoginRequest("a@b", "p", "n", "app", "uri", "en", "", "")

  function DemoRandom(salt: Option<seq<Byte>>): LoginRandom {
    LoginRandom("t", salt, Some(seq(64, _ => '0')), Some("refresh"), Some("access"), Location("", "", ""))
  }

  lemma DemoStarts(hash: string)
    ensures Init(DemoState(hash)) && ByEmail(DemoState(hash).table, "a@b").Some?
    ensures ByEmail(DemoState(hash).table, "a@b").value.password == hash
    ensures forall salt :: Fresh(DemoState(hash), DoLogin(DEMO_LOGIN, DemoRandom(salt)))
  {
    assert "refresh"[0] != "access"[0];
  }

  lemma DemoShowsPassword(hash: string)
    requires CheckPasswordHash(FlatCrypto(), "p", hash)
    ensures PasswordShown(DemoConfig(), DemoState(hash), DEMO_LOGIN)
    ensures HasLegacyHash(DemoState(hash), "a@b") == IsLegacyHash(hash)
    ensures SessionPossible(DemoState(hash), DEMO_LOGIN, DemoRandom(None))
  {
    hide CheckPasswordHash, Accepts, IsLegacyHash, IsBcrypt, FlatCrypto;
    ChecksSay(DemoConfig(), "p", hash);
    DemoStarts(hash);
  }

  /** There is such a run: the hypothesis of the coverage theorems excludes something that happens. */
  lemma SomeTokenOutlivesItsSession() returns (r: Run, token: string)
    ensures IsRun(r) && |r.states| == 5
    ensures exists i :: 0 <= i < |r.steps| && Sessions.LateFailedRotation(r.states[i], r.steps[i])
    ensures token in r.states[4].issued && r.states[4].now < r.states[4].issued[token].claims.exp
    ensures Introspect(r.cfg, r.states[4], token) == Inactive
  {
    hide CheckPasswordHash, HashPassword, IsLegacyHash, Login, RefreshTokens, Introspect, Init, Fresh, FlatCrypto,
         PasswordShown, HasLegacyHash, SessionPossible, IsRun, Sessions.LateFailedRotation;
    PasswordHistory.HashMade(DemoConfig(), "p", Some([]));
    var hash := HashPassword(FlatCrypto(), "p", Some([])).value;
    PasswordHistory.NewHashAccepted(DemoConfig(), "p", []);
    DemoShowsPassword(hash);
    DemoStarts(hash);
    LoginAnswersExactly(DemoConfig(), DemoState(hash), DEMO_LOGIN, DemoRandom(None));
    LateFailedRotationHappens(DemoConfig(), DemoState(hash), DEMO_LOGIN, DemoRandom(None), "late");
    token := "late";
    r := LateRun(DemoConfig(), DemoState(hash), DoLogin(DEMO_LOGIN, DemoRandom(None)), "refresh", token);
  }

  // ---- an account locked out by its migration ----

  /** A login with the right password against a bcrypt hash, for which no salt can be read. */
  function MigrationRun(hash: string): Run {
    var step := DoLogin(DEMO_LOGIN, DemoRandom(None));
    Run(DemoConfig(), [DemoState(hash), Exec(DemoConfig(), DemoState(hash), step).0], [step])
  }

  lemma EmptyAfterFailedMigration(cfg: Config, s: State, req: LoginRequest, rnd: LoginRandom)
    requires Consistent(s.table) && PasswordShown(cfg, s, req) && HasLegacyHash(s, req.email) && rnd.salt.None?
    ensures ByEmail(Login(cfg, s, req, rnd).0.table, req.email).Some?
    ensures ByEmail(Login(cfg, s, req, rnd).0.table, req.email).value.password == ""
  {
    hide CheckPasswordHash, Accepts, IsLegacyHash, IsBcrypt, LoginSession;
    ChecksSay(cfg, req.password, ByEmail(s.table, req.email).value.password);
  }

  lemma MigrationRunFails(hash: string)
    requires IsLegacyHash(hash) && CheckPasswordHash(FlatCrypto(), "p", hash)
    ensures var r := MigrationRun(hash);
            && IsRun(r) && PasswordHistory.LatestAccepted(r.cfg, r.states[0])
            && PasswordHistory.FailedMigration(r.cfg, r.states[0], r.steps[0])
  {
    hide CheckPasswordHash, Login, Init, PasswordShown, HasLegacyHash, IsLegacyHash, PasswordHistory.LatestAccepted,
         DemoConfig, DemoState, Fresh;
    DemoStarts(hash);
    DemoShowsPassword(hash);
    DemoAccepts(hash);
  }

  lemma LockedOut(cfg: Config, s: State, req: LoginRequest, rnd: LoginRandom)
    requires Consistent(s.table) && PasswordShown(cfg, s, req) && HasLegacyHash(s, req.email) && rnd.salt.None?
    ensures forall login: LoginRequest ::
              login.email == req.email ==> !PasswordShown(cfg, Login(cfg, s, req, rnd).0, login)
  {
    hide Login, PasswordShown, HasLegacyHash;
    EmptyAfterFailedMigration(cfg, s, req, rnd);
    forall login: LoginRequest | login.email == req.email
      ensures !PasswordShown(cfg, Login(cfg, s, req, rnd).0, login)
    {
      EmptyShowsNothing(cfg, Login(cfg, s, req, rnd).0, login);
    }
  }

  /** There is a run in which a failed migration leaves a verified account that accepts no password at all. */
  lemma SomeMigrationLocksOut() returns (r: Run)
    ensures IsRun(r) && |r.states| == 2 && |r.steps| == 1 && PasswordHistory.LatestAccepted(r.cfg, r.states[0])
    ensures PasswordHistory.FailedMigration(r.cfg, r.states[0], r.steps[0])
    ensures !PasswordHistory.LatestAccepted(r.cfg, r.states[1])
    ensures forall login: LoginRequest :: login.email == "a@b" ==> !PasswordShown(r.cfg, r.states[1], login)
  {
    hide CheckPasswordHash, Login, Init, Fresh, PasswordShown, HasLegacyHash, IsLegacyHash, DemoConfig, DemoState,
         PasswordHistory.LatestAccepted, FlatCrypto, IsRun, Inv;
    var hash := "$2b$";
    BcryptAccepts(hash);
    r := MigrationRun(hash);
    MigrationRunFails(hash);
    RunInv(r, 0);
    Sessions.HasConsistentTable(r.states[0]);
    PasswordHistory.StepPasswords(r.cfg, r.states[0], r.steps[0]);
    LockedOut(r.cfg, r.states[0], DEMO_LOGIN, DemoRandom(None));
  }

  lemma BcryptAccepts(hash: string)
    requires hash == "$2b$"
    ensures IsLegacyHash(hash) && CheckPasswordHash(FlatCrypto(), "p", hash)
  {
  }

  lemma DemoAccepts(hash: string)
    requires CheckPasswordHash(FlatCrypto(), "p", hash)
    ensures PasswordHistory.LatestAccepted(DemoConfig(), DemoState(hash))
  {
    hide CheckPasswordHash, FlatCrypto;
  }

  lemma EmptyShowsNothing(cfg: Config, s: State, login: LoginRequest)
    requires ByEmail(s.table, login.email).Some? && ByEmail(s.table, login.email).value.password == ""
    ensures !PasswordShown(cfg, s, login)
  {
    EmptyHashRejects(cfg.crypto, login.password);
  }
}
