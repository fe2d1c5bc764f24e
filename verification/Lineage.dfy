/** Refreshing: where tokens descend from, how far apart rotations lie, and what a client holds that
    always keeps the latest tokens it was given (section 6 of RFC 6749). */
module Lineage {
  import opened Wrappers
  import opened GoStrings
  import opened Decimal
  import opened Passwords
  import opened Keys
  import opened Accounts
  import opened Jwt
  import opened TokenStore
  import opened Protocol
  import opened Invariant
  import opened Steps
  import opened Runs
  import Sessions

  // ---- chains of tokens ----

  /** Each token was obtained with the one before it. */
  ghost predicate Descends(issued: Issued, ts: seq<string>) {
    && ts != []
    && (forall i :: 0 <= i < |ts| ==> ts[i] in issued)
    && (forall i :: 0 < i < |ts| ==> issued[ts[i]].parent == Some(ts[i - 1]))
  }

  lemma LinkFollows(s: State, t: string)
    requires Inv(s) && t in s.issued && s.issued[t].parent.Some?
    ensures var p := s.issued[t].parent.value;
            p in s.issued && Invariant.Follows(s.issued[t].claims, s.issued[p].claims)
  {
    assert GrantOk(s, s.issued[t]);
  }

  lemma PrefixDescends(issued: Issued, ts: seq<string>)
    requires Descends(issued, ts) && |ts| > 1
    ensures Descends(issued, ts[..|ts| - 1])
  {
  }

  /** Along any chain of refreshes, however long, the subject, the nonce and the single audience stay
      those of the login or code exchange it began with. */
  lemma {:induction false} LineagePreserved(s: State, ts: seq<string>)
    requires Inv(s) && Descends(s.issued, ts)
    ensures var first, last := s.issued[ts[0]].claims, s.issued[ts[|ts| - 1]].claims;
            last.sub == first.sub && last.nonce == first.nonce && last.aud == first.aud && |last.aud| == 1
  {
    hide Inv;
    Sessions.IssuedGrant(s, ts[0]);
    if |ts| > 1 {
      PrefixDescends(s.issued, ts);
      LineagePreserved(s, ts[..|ts| - 1]);
      LinkFollows(s, ts[|ts| - 1]);
    }
  }

  ghost predicate AllRefresh(issued: Issued, ts: seq<string>)
    requires Descends(issued, ts)
  {
    forall i :: 0 <= i < |ts| ==> issued[ts[i]].claims.tokenType.Refresh?
  }

  /** The k-th rotation after an issue at t0 falls strictly between t0 + 12k and t0 + 14k days. */
  lemma {:induction false} RotationsAreSpaced(s: State, ts: seq<string>)
    requires Inv(s) && Descends(s.issued, ts) && AllRefresh(s.issued, ts) && |ts| > 1
    ensures var k, t0, t := |ts| - 1, s.issued[ts[0]].claims.iat, s.issued[ts[|ts| - 1]].claims.iat;
            t0 + 12 * DAY * k < t < t0 + 14 * DAY * k
    ensures s.issued[ts[|ts| - 1]].claims.exp - s.issued[ts[|ts| - 2]].claims.exp > 12 * DAY
  {
    hide Inv;
    var last, previous := ts[|ts| - 1], ts[|ts| - 2];
    LinkFollows(s, last);
    Sessions.IssuedGrant(s, last);
    Sessions.IssuedGrant(s, previous);
    if |ts| > 2 {
      PrefixDescends(s.issued, ts);
      RotationsAreSpaced(s, ts[..|ts| - 1]);
    }
  }

  // ---- every issued token was handed out by a request ----

  /** Who handed out t, and on the strength of which refresh token. */
  predicate HandedOut(step: Step, reply: Reply, t: string, g: Grant) {
    || ((step.DoLogin? || step.DoToken?) && reply.Tokens? && (t == reply.access || t == reply.refresh)
        && g.parent == None)
    || (step.DoRefresh? && reply.Refreshed? && (t == reply.newAccess || reply.newRefresh == Some(t))
        && g.parent == Some(step.refresh.refreshToken))
  }

  lemma LoginHandsOut(cfg: Config, s: State, req: LoginRequest, rnd: LoginRandom, t: string)
    requires var s' := Login(cfg, s, req, rnd).0; t in s'.issued && t !in s.issued
    ensures var (s', reply) := Login(cfg, s, req, rnd); HandedOut(DoLogin(req, rnd), reply, t, s'.issued[t])
  {
    hide InsertSession, CreateSessionData, CheckPasswordHash, PutHash, UserClaims;
  }

  lemma TokenHandsOut(cfg: Config, s: State, req: TokenRequest, rnd: TokenRandom, t: string)
    requires var s' := ExchangeCode(cfg, s, req, rnd).0; t in s'.issued && t !in s.issued
    ensures var (s', reply) := ExchangeCode(cfg, s, req, rnd); HandedOut(DoToken(req, rnd), reply, t, s'.issued[t])
  {
    hide InsertSession, CreateSessionData, CheckTokenClient, TakeHash, S256, UserClaims;
  }

  lemma RotateHandsOut(s: State, token: string, claims: Claims, id: int64, clientId: string, country: string,
                       sid: string, rnd: RefreshRandom, t: string)
    requires claims.aud != []
    requires var s' := Rotate(s, token, claims, id, clientId, country, sid, rnd); t in s'.issued && t !in s.issued
    ensures Rotate(s, token, claims, id, clientId, country, sid, rnd).issued[t].parent == Some(token)
    ensures Some(t) == rnd.refresh || Some(t) == rnd.access2
  {
    hide InsertSession, CreateSessionData, RotatedClaims;
  }

  lemma RefreshHandsOut(cfg: Config, s: State, req: RefreshRequest, rnd: RefreshRandom, t: string)
    requires Inv(s)
    requires var s' := RefreshTokens(cfg, s, req, rnd).0; t in s'.issued && t !in s.issued
    ensures var (s', reply) := RefreshTokens(cfg, s, req, rnd); HandedOut(DoRefresh(req, rnd), reply, t, s'.issued[t])
  {
    hide Inv, RefreshTokens, Rotate, FindHash, ExtendSession, NewClaims;
    if !RefreshTokens(cfg, s, req, rnd).1.Refreshed? {
      Sessions.RefusedRefreshIssuesNothing(cfg, s, req, rnd);
    } else {
      var claims, id, session, who := RefreshAnswered(cfg, s, req, rnd);
      if RotationDue(claims, s.now) && rnd.sid.Some? && rnd.refresh.Some? {
        RotateHandsOut(s, req.refreshToken, claims, id, Field(session, "client_id"), who.country.GetOr("N/A"),
                       rnd.sid.value, rnd, t);
      }
    }
  }

  /** Every token known in a reachable state was returned by an earlier login, code exchange or refresh;
      its recorded parent is the refresh token that request presented. */
  lemma {:induction false} TokenOrigin(r: Run, n: nat, t: string) returns (j: nat)
    requires IsRun(r) && n < |r.states| && t in r.states[n].issued
    ensures j < n && t !in r.states[j].issued && t in r.states[j + 1].issued
    ensures HandedOut(r.steps[j], ReplyAt(r, j), t, r.states[n].issued[t])
  {
    hide Inv, Fresh, Login, ExchangeCode, RefreshTokens, HandedOut;
    RunGrows(r, n - 1, n);
    if t in r.states[n - 1].issued {
      j := TokenOrigin(r, n - 1, t);
    } else {
      j := n - 1;
      var s, step := r.states[j], r.steps[j];
      if step.DoLogin? {
        LoginHandsOut(r.cfg, s, step.login, step.loginRnd, t);
      } else if step.DoToken? {
        TokenHandsOut(r.cfg, s, step.exchange, step.tokenRnd, t);
      } else if step.DoRefresh? {
        RefreshHandsOut(r.cfg, s, step.refresh, step.refreshRnd, t);
      } else {
        Sessions.OthersIssueNothing(r.cfg, s, step);
      }
    }
  }

  // ---- a client that keeps the latest tokens ----

  datatype Wallet = Wallet(access: string, refresh: string)

  function Receive(w: Wallet, reply: Reply): Wallet {
    if reply.Refreshed? then Wallet(reply.newAccess, reply.newRefresh.GetOr(w.refresh)) else w
  }

  /** The wallet holds an access and a refresh token of one and the same session. */
  predicate HoldsPair(issued: Issued, w: Wallet) {
    && w.access in issued && issued[w.access].claims.tokenType.Access?
    && w.refresh in issued && issued[w.refresh].claims.tokenType.Refresh?
    && issued[w.access].claims.sid == issued[w.refresh].claims.sid
  }

  predicate SameLineage(c: Claims, d: Claims) {
    c.sub == d.sub && c.nonce == d.nonce && c.aud == d.aud
  }

  lemma StartSessionGivesPair(s: State, user: Account, client: Client, nonce: string, sid: string, data: Fields,
                              refresh: Option<string>, access: Option<string>)
    requires "" !in s.issued && access.Some?
    requires NewToken(s, refresh) && NewToken(s, access) && Differ(refresh, access)
    ensures HoldsPair(StartSession(s, user, client, nonce, sid, data, refresh, access).issued,
                      Wallet(access.value, refresh.GetOr("")))
            <==> refresh.GetOr("") != ""
  {
    hide InsertSession;
  }

  /** A login gives a pair unless the refresh token could not be signed. */
  lemma LoginGivesPair(cfg: Config, s: State, req: LoginRequest, rnd: LoginRandom)
    requires Inv(s) && Fresh(s, DoLogin(req, rnd)) && Login(cfg, s, req, rnd).1.Tokens?
    ensures var (s', reply) := Login(cfg, s, req, rnd);
            && (HoldsPair(s'.issued, Wallet(reply.access, reply.refresh)) <==> rnd.refresh.Some?)
            && (reply.refresh == "" <==> rnd.refresh.None?)
  {
    hide Inv, HoldsPair, StartSession, CreateSessionData, CheckPasswordHash, PutHash;
    Sessions.NoEmptyToken(s);
    var user := ByEmail(s.table, req.email).value;
    var data := CreateSessionData(user.userId, req.clientId, req.deviceModel, req.deviceName, req.language,
                                  false, rnd.location);
    var client := cfg.clients[req.clientId];
    assert Login(cfg, s, req, rnd) == LoginSession(s, req, rnd, client, user);
    StartSessionGivesPair(s, user, client, req.nonce, rnd.sid.value, data, rnd.refresh, rnd.access);
  }

  /** A code exchange always gives a pair. */
  lemma ExchangeGivesPair(cfg: Config, s: State, req: TokenRequest, rnd: TokenRandom)
    requires Inv(s) && Fresh(s, DoToken(req, rnd)) && ExchangeCode(cfg, s, req, rnd).1.Tokens?
    ensures var (s', reply) := ExchangeCode(cfg, s, req, rnd);
            HoldsPair(s'.issued, Wallet(reply.access, reply.refresh))
  {
    hide Inv, HoldsPair, RedeemCode, CheckPasswordHash, TakeHash;
    Sessions.NoEmptyToken(s);
    var (store, found) := TakeHash(s.store, s.now, AuthCode(req.code));
    var checked := CheckTokenClient(cfg, req);
    if checked.Accepted? && found.Some? {
      var s1 := s.(store := store);
      assert ExchangeCode(cfg, s, req, rnd) == RedeemCode(cfg, s1, req, rnd, checked.client, found.value);
      RedeemGivesPair(cfg, s1, req, rnd, checked.client, found.value);
    }
  }

  lemma RedeemGivesPair(cfg: Config, s: State, req: TokenRequest, rnd: TokenRandom, client: Client, data: Fields)
    requires "" !in s.issued && Fresh(s, DoToken(req, rnd)) && RedeemCode(cfg, s, req, rnd, client, data).1.Tokens?
    ensures var (s', reply) := RedeemCode(cfg, s, req, rnd, client, data);
            HoldsPair(s'.issued, Wallet(reply.access, reply.refresh))
  {
    hide HoldsPair, StartSession, CreateSessionData, S256;
    var user := s.table.rows[ParseInt(Field(data, "user_id")).value];
    var hash := CreateSessionData(user.userId, Field(data, "client_id"), "", "", "", false, rnd.location);
    StartSessionGivesPair(s, user, client, Field(data, "nonce"), rnd.sid.value, hash, rnd.refresh, rnd.access);
  }

  lemma RotateGivesPair(s: State, token: string, claims: Claims, id: int64, clientId: string, country: string,
                        sid: string, rnd: RefreshRandom)
    requires claims.aud != [] && "" !in s.issued && rnd.refresh.Some?
    requires NewToken(s, rnd.refresh) && NewToken(s, rnd.access2) && Differ(rnd.refresh, rnd.access2)
    ensures HoldsPair(Rotate(s, token, claims, id, clientId, country, sid, rnd).issued,
                      Wallet(rnd.access2.GetOr(""), rnd.refresh.value))
            <==> rnd.access2.GetOr("") != ""
  {
    hide InsertSession, CreateSessionData;
  }

  /** A rotation goes ahead, but its own access token cannot be signed. */
  predicate RotationWithoutAccess(s: State, req: RefreshRequest, rnd: RefreshRandom) {
    && req.refreshToken in s.issued && RotationDue(s.issued[req.refreshToken].claims, s.now)
    && rnd.sid.Some? && rnd.refresh.Some? && rnd.access2.None?
  }

  /** Refreshing from a pair gives a pair again, rotated or not, also when the new session id or the new
      refresh token of a rotation cannot be made; it fails exactly when a rotation's own access token
      could not be signed and the answer carries an empty one. */
  lemma RefreshKeepsPair(cfg: Config, s: State, req: RefreshRequest, rnd: RefreshRandom, w: Wallet)
    requires Inv(s) && Fresh(s, DoRefresh(req, rnd)) && HoldsPair(s.issued, w) && req.refreshToken == w.refresh
    requires RefreshTokens(cfg, s, req, rnd).1.Refreshed?
    ensures var (s', reply) := RefreshTokens(cfg, s, req, rnd);
            && (HoldsPair(s'.issued, Receive(w, reply)) <==> !RotationWithoutAccess(s, req, rnd))
            && (reply.newAccess == "" <==> RotationWithoutAccess(s, req, rnd))
  {
    hide Inv, RefreshTokens, Rotate, FindHash, ExtendSession;
    var claims, id, session, who := RefreshAnswered(cfg, s, req, rnd);
    Sessions.NoEmptyToken(s);
    if RotationDue(claims, s.now) && rnd.sid.Some? && rnd.refresh.Some? {
      RotateGivesPair(s, req.refreshToken, claims, id, Field(session, "client_id"), who.country.GetOr("N/A"),
                      rnd.sid.value, rnd);
    }
  }

  lemma RotateKeepsLineage(s: State, token: string, claims: Claims, id: int64, clientId: string, country: string,
                           sid: string, rnd: RefreshRandom)
    requires |claims.aud| == 1 && FormatInt(id) == claims.sub && rnd.refresh.Some? && rnd.access2.Some?
    ensures var issued := Rotate(s, token, claims, id, clientId, country, sid, rnd).issued;
            && rnd.refresh.value in issued && SameLineage(issued[rnd.refresh.value].claims, claims)
            && rnd.access2.value in issued && SameLineage(issued[rnd.access2.value].claims, claims)
  {
    hide InsertSession, CreateSessionData;
    assert claims.aud == [claims.aud[0]];
  }

  /** The tokens held after a refresh have the lineage of the refresh token held before. */
  lemma RefreshKeepsLineage(cfg: Config, s: State, req: RefreshRequest, rnd: RefreshRandom, w: Wallet)
    requires Inv(s) && Fresh(s, DoRefresh(req, rnd)) && HoldsPair(s.issued, w) && req.refreshToken == w.refresh
    requires RefreshTokens(cfg, s, req, rnd).1.Refreshed? && RefreshTokens(cfg, s, req, rnd).1.newAccess != ""
    ensures var (s', reply) := RefreshTokens(cfg, s, req, rnd);
            var w' := Receive(w, reply);
            && w'.access in s'.issued && w'.refresh in s'.issued
            && SameLineage(s'.issued[w'.access].claims, s.issued[w.refresh].claims)
            && SameLineage(s'.issued[w'.refresh].claims, s.issued[w.refresh].claims)
  {
    hide Inv, RefreshTokens, Rotate, FindHash, ExtendSession;
    var claims, id, session, who := RefreshAnswered(cfg, s, req, rnd);
    assert claims.aud == [claims.aud[0]];
    if RotationDue(claims, s.now) && rnd.sid.Some? && rnd.refresh.Some? {
      RotateKeepsLineage(s, req.refreshToken, claims, id, Field(session, "client_id"), who.country.GetOr("N/A"),
                         rnd.sid.value, rnd);
    }
  }

  /** The wallet after the steps from start up to n, of which those in mine are its owner's. */
  function WalletAt(r: Run, start: nat, w: Wallet, mine: set<nat>, n: nat): Wallet
    requires |r.states| == |r.steps| + 1 && start <= n <= |r.steps|
    decreases n
  {
    if n == start then w
    else
      var before := WalletAt(r, start, w, mine, n - 1);
      if n - 1 in mine then Receive(before, ReplyAt(r, n - 1)) else before
  }

  /** The owner only refreshes, always with the refresh token held, and never got an empty access token. */
  ghost predicate OwnerRefreshes(r: Run, start: nat, w: Wallet, mine: set<nat>)
    requires |r.states| == |r.steps| + 1 && start <= |r.steps|
  {
    forall i :: start <= i < |r.steps| && i in mine ==>
      && r.steps[i].DoRefresh?
      && r.steps[i].refresh.refreshToken == WalletAt(r, start, w, mine, i).refresh
      && (ReplyAt(r, i).Refreshed? ==> ReplyAt(r, i).newAccess != "")
  }

  /** Whatever else happens in the run, the owner always holds an access and a refresh token of the same
      session, for the subject, nonce and audience it started with. */
  lemma {:induction false} WalletStaysPaired(r: Run, start: nat, w: Wallet, mine: set<nat>, n: nat)
    requires IsRun(r) && start <= n <= |r.steps|
    requires HoldsPair(r.states[start].issued, w) && OwnerRefreshes(r, start, w, mine)
    ensures var held := WalletAt(r, start, w, mine, n);
            && HoldsPair(r.states[n].issued, held)
            && SameLineage(r.states[n].issued[held.refresh].claims, r.states[start].issued[w.refresh].claims)
    decreases n
  {
    hide Inv, Fresh, RefreshTokens, Receive;
    if n > start {
      WalletStaysPaired(r, start, w, mine, n - 1);
      var before := WalletAt(r, start, w, mine, n - 1);
      var s := r.states[n - 1];
      RunGrows(r, n - 1, n);
      assert Fresh(s, r.steps[n - 1]);
      if n - 1 in mine && ReplyAt(r, n - 1).Refreshed? {
        var step := r.steps[n - 1];
        RefreshKeepsPair(r.cfg, s, step.refresh, step.refreshRnd, before);
        RefreshKeepsLineage(r.cfg, s, step.refresh, step.refreshRnd, before);
      } else {
        NothingReceived(before, ReplyAt(r, n - 1));
      }
    }
  }

  lemma NothingReceived(w: Wallet, reply: Reply)
    ensures !reply.Refreshed? ==> Receive(w, reply) == w
  {
  }
}
