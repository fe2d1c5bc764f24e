/** The inductive invariant tying accounts, tokens, sessions, the session index and tickets together,
    and its preservation by the building blocks of the handlers. */
module Invariant {
  import opened Wrappers
  import opened GoStrings
  import opened Decimal
  import opened Keys
  import opened Redis
  import opened Accounts
  import opened Jwt
  import opened TokenStore
  import opened Protocol

  // ---- the invariant ----

  /** uid is the decimal form of the id of a verified account. */
  predicate VerifiedId(t: Table, uid: string) {
    && ParseInt(uid).Some?
    && FormatInt(ParseInt(uid).value) == uid
    && ParseInt(uid).value in t.rows
    && t.rows[ParseInt(uid).value].isVerified
  }

  /** Each family holds its own type of value, always with an expiry; no other family is ever written. */
  predicate ShapeOk(k: Key, e: Entry<Value>) {
    && e.expiry.Some?
    && match k
       case Session(_, _) => e.value.Hash?
       case SessionIndex(_) => e.value.SortedSet?
       case AuthCode(_) => e.value.Hash? && {"user_id", "client_id", "redirect_uri", "nonce"} <= e.value.fields.Keys
       case SignUp(_) => e.value.Hash? && "email" in e.value.fields
       case Reset(_) => e.value.Hash? && "email" in e.value.fields
       case _ => false
  }

  /** The random value in a key; an index key carries none. */
  predicate ValueUsed(used: set<string>, k: Key) {
    match k
    case Session(_, sid) => sid in used
    case AuthCode(code) => code in used
    case SignUp(ticket) => ticket in used
    case Reset(ticket) => ticket in used
    case _ => true
  }

  ghost predicate StoreOk(s: State) {
    forall k :: k in s.store ==> ShapeOk(k, s.store[k]) && ValueUsed(s.used, k)
  }

  /** A session belongs to a verified account, was never blacklisted, and lives at least until its
      first expiry; its user's index outlives the score it was given. */
  predicate SessionOk(s: State, k: Key) {
    && k.Session? && k in s.openedAt
    && k in s.store && ShapeOk(k, s.store[k])
    && SessionIndex(k.uid) in s.store && s.store[SessionIndex(k.uid)].expiry.Some?
    && VerifiedId(s.table, k.uid)
    && var fields, expiry := s.store[k].value.fields, s.store[k].expiry.value;
       var firstExpiry := s.openedAt[k] + SESSION_TTL;
       && "user_id" in fields && fields["user_id"] == k.uid
       && "blacklisted" in fields && fields["blacklisted"] == "0"
       && "client_id" in fields
       && firstExpiry <= expiry <= s.now + SESSION_TTL
       && firstExpiry <= s.store[SessionIndex(k.uid)].expiry.value
  }

  ghost predicate SessionsOk(s: State) {
    && (forall k :: k in s.store && k.Session? ==> k in s.openedAt)
    && (forall k :: k in s.openedAt ==> SessionOk(s, k))
  }

  /** The index holds exactly the sessions whose first expiry was still ahead when it was last pruned,
      which is one session lifetime before it expires itself. */
  ghost predicate IndexOk(s: State, uid: string)
    requires SessionIndex(uid) in s.store
  {
    var e := s.store[SessionIndex(uid)];
    && e.value.SortedSet? && e.expiry.Some?
    && e.expiry.value <= s.now + SESSION_TTL
    && (forall sid :: sid in e.value.scores <==>
          Session(uid, sid) in s.openedAt && s.openedAt[Session(uid, sid)] + 2 * SESSION_TTL > e.expiry.value)
    && (forall sid :: sid in e.value.scores ==> e.value.scores[sid] == s.openedAt[Session(uid, sid)] + SESSION_TTL)
  }

  ghost predicate IndexesOk(s: State) {
    forall uid :: SessionIndex(uid) in s.store ==> IndexOk(s, uid)
  }

  /** A token names a verified subject, one audience, and a stored session of that subject opened for
      that audience. A token obtained by refreshing repeats its parent's subject, nonce and audience;
      a refresh token replaces its parent in the parent's last two days. */
  predicate GrantOk(s: State, g: Grant) {
    var c := g.claims;
    var k := Session(c.sub, c.sid);
    && VerifiedId(s.table, c.sub)
    && |c.aud| == 1
    && c.iat <= s.now && c.exp == c.iat + Lifetime(c.tokenType)
    && k in s.openedAt && k in s.store && s.store[k].value.Hash?
    && Field(s.store[k].value.fields, "client_id") == c.aud[0]
    && (if c.tokenType.Refresh? then c.iat == s.openedAt[k] else s.openedAt[k] <= c.iat)
    && (g.parent.Some? ==> g.parent.value in s.issued && Follows(c, s.issued[g.parent.value].claims))
  }

  predicate Follows(c: Claims, parent: Claims) {
    && parent.tokenType.Refresh?
    && c.sub == parent.sub && c.nonce == parent.nonce && c.aud == parent.aud
    && (c.tokenType.Refresh? ==> 12 * DAY < c.iat - parent.iat < 14 * DAY)
  }

  ghost predicate GrantsOk(s: State) {
    && "" !in s.issued
    && forall t :: t in s.issued ==> GrantOk(s, s.issued[t])
  }

  /** Every stored authorization code is for a verified account. */
  ghost predicate CodesOk(s: State) {
    forall k :: k in s.store && k.AuthCode? ==>
      s.store[k].value.Hash? && VerifiedId(s.table, Field(s.store[k].value.fields, "user_id"))
  }

  ghost predicate Inv(s: State) {
    && Consistent(s.table)
    && StoreOk(s)
    && SessionsOk(s)
    && IndexesOk(s)
    && GrantsOk(s)
    && CodesOk(s)
  }

  /** Existing accounts are allowed; nothing has been stored or issued yet. */
  ghost predicate Init(s: State) {
    && Consistent(s.table)
    && s.store == map[] && s.issued == map[] && s.openedAt == map[] && s.used == {}
  }

  lemma InitInv(s: State)
    requires Init(s)
    ensures Inv(s)
  {
  }

  // ---- what the stored commands amount to ----

  /** Storing a hash leaves the given fields in place and sets the expiry. */
  lemma PutHashEffect(db: Store<Key>, now: int, k: Key, fields: Fields, ttl: int) returns (stored: Fields)
    requires k in db ==> db[k].value.Hash?
    ensures PutHash(db, now, k, fields, ttl) == db[k := Entry(Hash(stored), Some(now + ttl))]
    ensures fields.Keys <= stored.Keys && forall f :: f in fields ==> stored[f] == fields[f]
    ensures k !in db ==> stored == fields
  {
    stored := if Live(db, now, k) then db[k].value.fields + fields else fields;
  }

  /** What the pruned index holds after a session is added. */
  function PrunedScores(db: Store<Key>, now: int, uid: string, sid: string, score: int): map<string, int> {
    var k := SessionIndex(uid);
    var before := if Live(db, now, k) && db[k].value.SortedSet? then db[k].value.scores else map[];
    Above(before[sid := score], now)
  }

  lemma InsertSessionEffect(db: Store<Key>, now: int, uid: string, sid: string, data: Fields, ttl: int)
    requires ttl > 0 && Session(uid, sid) !in db
    requires SessionIndex(uid) in db ==> db[SessionIndex(uid)].value.SortedSet?
    ensures InsertSession(db, now, uid, sid, data, ttl)
         == db[Session(uid, sid) := Entry(Hash(data), Some(now + ttl))]
              [SessionIndex(uid) := Entry(SortedSet(PrunedScores(db, now, uid, sid, now + ttl)), Some(now + ttl))]
  {
    var k := SessionIndex(uid);
    var stored := PutHashEffect(db, now, Session(uid, sid), data, ttl);
    var db1 := PutHash(db, now, Session(uid, sid), data, ttl);
    var kept := PrunedScores(db, now, uid, sid, now + ttl);
    assert sid in kept;
    var db2 := ZAdd(db1, now, k, now + ttl, sid);
    assert Live(db2, now, k);
    assert Above(db2[k].value.scores, now) == kept;
    var db3 := ZRemUpTo(db2, now, k, now);
    assert db3[k].value == SortedSet(kept) && Live(db3, now, k);
  }

  // ---- growth: what no step ever takes back ----

  /** Accounts may appear and become verified; nobody disappears, changes email, or loses verification or
      country. */
  ghost predicate TableGrows(t: Table, t': Table) {
    forall u :: u in t.rows ==>
      u in t'.rows && (t.rows[u].isVerified ==> t'.rows[u].isVerified) && t'.rows[u].email == t.rows[u].email
      && (t.rows[u].countryCode.Some? ==> t'.rows[u].countryCode.Some?)
  }

  /** A stored session keeps its contents, and neither it nor its index expires earlier than before. */
  predicate SessionKept(s: State, s': State, k: Key)
    requires k in s.openedAt && SessionOk(s, k)
  {
    var index := SessionIndex(k.uid);
    && k in s'.store && s'.store[k].value == s.store[k].value && s'.store[k].expiry.Some?
    && s.store[k].expiry.value <= s'.store[k].expiry.value <= s'.now + SESSION_TTL
    && index in s'.store && s'.store[index].expiry.Some?
    && s.store[index].expiry.value <= s'.store[index].expiry.value
  }

  ghost predicate Grows(s: State, s': State)
    requires SessionsOk(s)
  {
    && TableGrows(s.table, s'.table)
    && s.now <= s'.now
    && s.used <= s'.used
    && (forall t :: t in s.issued ==> t in s'.issued && s'.issued[t] == s.issued[t])
    && (forall k :: k in s.openedAt ==> k in s'.openedAt && s'.openedAt[k] == s.openedAt[k])
    && (forall k :: k in s.openedAt ==> SessionKept(s, s', k))
  }

  lemma VerifiedSurvives(t: Table, t': Table, uid: string)
    requires TableGrows(t, t') && VerifiedId(t, uid)
    ensures VerifiedId(t', uid)
  {
  }

  lemma SessionSurvives(s: State, s': State, k: Key)
    requires SessionsOk(s) && Grows(s, s') && k in s.openedAt
    ensures SessionOk(s', k)
  {
    assert SessionOk(s, k) && SessionKept(s, s', k);
    VerifiedSurvives(s.table, s'.table, k.uid);
  }

  lemma GrantSurvives(s: State, s': State, g: Grant)
    requires SessionsOk(s) && Grows(s, s') && GrantOk(s, g)
    ensures GrantOk(s', g)
  {
    var k := Session(g.claims.sub, g.claims.sid);
    assert SessionOk(s, k) && SessionKept(s, s', k);
    VerifiedSurvives(s.table, s'.table, g.claims.sub);
  }

  /** Sessions and tokens stay in order under growth; only what is new needs a look. */
  lemma GrowthKeepsOld(s: State, s': State)
    requires SessionsOk(s) && GrantsOk(s) && Grows(s, s')
    ensures forall k :: k in s.openedAt ==> SessionOk(s', k)
    ensures forall t :: t in s.issued ==> GrantOk(s', s'.issued[t])
  {
    forall k | k in s.openedAt ensures SessionOk(s', k) {
      SessionSurvives(s, s', k);
    }
    forall t | t in s.issued ensures GrantOk(s', s'.issued[t]) {
      assert GrantOk(s, s.issued[t]);
      GrantSurvives(s, s', s.issued[t]);
    }
  }

  lemma GrowsTransitive(s: State, s': State, s'': State)
    requires SessionsOk(s) && SessionsOk(s') && Grows(s, s') && Grows(s', s'')
    ensures Grows(s, s'')
  {
    forall k | k in s.openedAt ensures SessionKept(s, s'', k) {
      assert SessionKept(s, s', k) && SessionOk(s', k) && SessionKept(s', s'', k);
    }
  }

  /** An index whose entry and whose user's sessions are as before. */
  lemma IndexSurvives(s: State, s': State, uid: string)
    requires SessionIndex(uid) in s.store && IndexOk(s, uid) && s.now <= s'.now
    requires SessionIndex(uid) in s'.store && s'.store[SessionIndex(uid)] == s.store[SessionIndex(uid)]
    requires forall sid :: Session(uid, sid) in s'.openedAt <==> Session(uid, sid) in s.openedAt
    requires forall sid :: Session(uid, sid) in s.openedAt ==>
               s'.openedAt[Session(uid, sid)] == s.openedAt[Session(uid, sid)]
    ensures IndexOk(s', uid)
  {
  }

  lemma IndexesSurvive(s: State, s': State)
    requires IndexesOk(s) && s.now <= s'.now && s'.openedAt == s.openedAt
    requires forall uid :: SessionIndex(uid) in s'.store ==>
               SessionIndex(uid) in s.store && s'.store[SessionIndex(uid)] == s.store[SessionIndex(uid)]
    ensures IndexesOk(s')
  {
    forall uid | SessionIndex(uid) in s'.store ensures IndexOk(s', uid) {
      assert IndexOk(s, uid);
      IndexSurvives(s, s', uid);
    }
  }

  // ---- preservation by the building blocks ----

  /** Time, the accounts, the random values and the tickets do not enter into sessions and indexes. */
  lemma SessionsUntouched(s: State, s': State)
    requires Inv(s)
    requires TableGrows(s.table, s'.table) && s.now <= s'.now && s.used <= s'.used
    requires s'.issued == s.issued && s'.openedAt == s.openedAt
    requires forall k: Key :: k.Session? || k.SessionIndex? ==> (k in s'.store <==> k in s.store)
    requires forall k: Key :: (k.Session? || k.SessionIndex?) && k in s.store ==> s'.store[k] == s.store[k]
    ensures Grows(s, s') && SessionsOk(s') && IndexesOk(s') && GrantsOk(s')
  {
    forall k | k in s.openedAt ensures SessionKept(s, s', k) {
      assert SessionOk(s, k);
    }
    GrowthKeepsOld(s, s');
    IndexesSurvive(s, s');
  }

  lemma TableKeepsInv(s: State, t': Table)
    requires Inv(s) && TableGrows(s.table, t') && Consistent(t')
    ensures Inv(s.(table := t')) && Grows(s, s.(table := t'))
  {
    var s' := s.(table := t');
    SessionsUntouched(s, s');
    forall k | k in s'.store && k.AuthCode?
      ensures s'.store[k].value.Hash? && VerifiedId(t', Field(s'.store[k].value.fields, "user_id"))
    {
      VerifiedSurvives(s.table, t', Field(s.store[k].value.fields, "user_id"));
    }
  }

  lemma TickKeepsInv(s: State, seconds: nat)
    requires Inv(s)
    ensures Inv(s.(now := s.now + seconds)) && Grows(s, s.(now := s.now + seconds))
  {
    SessionsUntouched(s, s.(now := s.now + seconds));
  }

  /** The history of passwords is not read by the invariant. */
  lemma PasswordsKeepInv(s: State, passwords: map<int64, string>)
    requires Inv(s)
    ensures Inv(s.(passwords := passwords)) && Grows(s, s.(passwords := passwords))
  {
    SessionsUntouched(s, s.(passwords := passwords));
  }

  /** Changing one ticket. */
  lemma TicketChangeKeepsInv(s: State, s': State, k: Key)
    requires Inv(s) && IsTicket(k)
    requires s' == s.(store := s'.store, used := s'.used) && s.used <= s'.used
    requires s'.store - {k} == s.store - {k}
    requires k in s'.store ==>
               && ShapeOk(k, s'.store[k]) && ValueUsed(s'.used, k)
               && (k.AuthCode? ==> VerifiedId(s.table, Field(s'.store[k].value.fields, "user_id")))
    ensures Inv(s') && Grows(s, s')
  {
    forall j | j != k
      ensures j in s'.store <==> j in s.store
      ensures j in s.store ==> s'.store[j] == s.store[j]
    {
      assert j in s.store - {k} <==> j in s'.store - {k};
      if j in s.store { assert (s.store - {k})[j] == (s'.store - {k})[j]; }
    }
    SessionsUntouched(s, s');
  }

  lemma PutTicketKeepsInv(s: State, k: Key, value: string, fields: Fields, ttl: int)
    requires Inv(s) && IsTicket(k)
    requires ValueUsed({value}, k)
    requires ShapeOk(k, Entry(Hash(fields), Some(s.now + ttl)))
    requires k.AuthCode? ==> VerifiedId(s.table, Field(fields, "user_id"))
    ensures Inv(PutTicket(s, k, value, fields, ttl)) && Grows(s, PutTicket(s, k, value, fields, ttl))
  {
    var stored := PutHashEffect(s.store, s.now, k, fields, ttl);
    TicketChangeKeepsInv(s, PutTicket(s, k, value, fields, ttl), k);
  }

  lemma TakeKeepsInv(s: State, k: Key)
    requires Inv(s) && IsTicket(k)
    ensures var s' := s.(store := TakeHash(s.store, s.now, k).0); Inv(s') && Grows(s, s')
  {
    TicketChangeKeepsInv(s, s.(store := TakeHash(s.store, s.now, k).0), k);
  }

  /** DEL on a bare session id finds nothing: sessions are not stored under that key. */
  lemma DelBareChangesNothing(s: State, text: string)
    requires StoreOk(s)
    ensures Del(s.store, Bare(text)) == s.store
  {
    assert Bare(text) !in s.store;
  }

  lemma IssueKeepsInv(s: State, token: string, claims: Claims, parent: Option<string>)
    requires Inv(s) && token != "" && token !in s.issued && GrantOk(s, Grant(claims, parent))
    ensures Inv(Issue(s, token, claims, parent)) && Grows(s, Issue(s, token, claims, parent))
  {
    var s' := Issue(s, token, claims, parent);
    IssueGrows(s, token, claims, parent);
    IssueKeepsGrants(s, token, claims, parent);
    IndexesSurvive(s, s');
  }

  lemma IssueKeepsGrants(s: State, token: string, claims: Claims, parent: Option<string>)
    requires SessionsOk(s) && GrantsOk(s)
    requires token != "" && token !in s.issued && GrantOk(s, Grant(claims, parent))
    ensures SessionsOk(Issue(s, token, claims, parent)) && GrantsOk(Issue(s, token, claims, parent))
  {
    var s' := Issue(s, token, claims, parent);
    IssueGrows(s, token, claims, parent);
    GrowthKeepsOld(s, s');
    GrantSurvives(s, s', Grant(claims, parent));
  }

  lemma IssueGrows(s: State, token: string, claims: Claims, parent: Option<string>)
    requires SessionsOk(s) && token !in s.issued
    ensures Grows(s, Issue(s, token, claims, parent))
  {
    var s' := Issue(s, token, claims, parent);
    forall k | k in s.openedAt ensures SessionKept(s, s', k) {
      assert SessionOk(s, k);
    }
  }

  /** Extending moves one session's expiry later and touches nothing else. */
  lemma ExtendEffect(s: State, uid: string, sid: string)
    requires StoreOk(s) && Live(s.store, s.now, Session(uid, sid))
    ensures var k := Session(uid, sid);
            ExtendSession(s.store, s.now, uid, sid)
            == s.store[k := Entry(s.store[k].value, Some(s.now + SESSION_TTL))]
  {
    assert LegacyIndex(uid) !in s.store;
  }

  lemma ExtendGrows(s: State, uid: string, sid: string)
    requires SessionsOk(s) && Live(s.store, s.now, Session(uid, sid))
    ensures var k := Session(uid, sid);
            Grows(s, s.(store := s.store[k := Entry(s.store[k].value, Some(s.now + SESSION_TTL))]))
  {
    hide SessionKept, SessionOk;
    var k := Session(uid, sid);
    var s' := s.(store := s.store[k := Entry(s.store[k].value, Some(s.now + SESSION_TTL))]);
    forall j | j in s.openedAt ensures SessionOk(s, j) && SessionKept(s, s', j) {
      KeptByExtension(s, s', k, j);
    }
  }

  /** A renewed session leaves every session in place. */
  lemma KeptByExtension(s: State, s': State, k: Key, j: Key)
    requires SessionsOk(s) && j in s.openedAt && s'.now == s.now && k.Session? && k in s.store
    requires s'.store == s.store[k := Entry(s.store[k].value, Some(s.now + SESSION_TTL))]
    ensures SessionOk(s, j) && SessionKept(s, s', j)
  {
    assert SessionOk(s, j);
  }

  lemma ExtendKeepsStore(s: State, k: Key)
    requires StoreOk(s) && CodesOk(s) && k in s.store && k.Session?
    ensures var s' := s.(store := s.store[k := Entry(s.store[k].value, Some(s.now + SESSION_TTL))]);
            StoreOk(s') && CodesOk(s')
  {
    assert ShapeOk(k, s.store[k]);
  }

  lemma ExtendKeepsInv(s: State, uid: string, sid: string)
    requires Inv(s) && Live(s.store, s.now, Session(uid, sid))
    ensures var s' := s.(store := ExtendSession(s.store, s.now, uid, sid)); Inv(s') && Grows(s, s')
  {
    var k := Session(uid, sid);
    var s' := s.(store := s.store[k := Entry(s.store[k].value, Some(s.now + SESSION_TTL))]);
    ExtendEffect(s, uid, sid);
    ExtendKeepsStore(s, k);
    ExtendGrows(s, uid, sid);
    GrowthKeepsOld(s, s');
    IndexesSurvive(s, s');
  }

  lemma NewSessionKey(s: State, uid: string, sid: string)
    requires StoreOk(s) && SessionsOk(s) && sid !in s.used
    ensures Session(uid, sid) !in s.store && Session(uid, sid) !in s.openedAt
  {
    var k := Session(uid, sid);
    assert k !in s.store;
    assert k in s.openedAt ==> SessionOk(s, k);
  }

  lemma IndexIsSet(s: State, uid: string)
    requires StoreOk(s)
    ensures SessionIndex(uid) in s.store ==> s.store[SessionIndex(uid)].value.SortedSet?
  {
    var k := SessionIndex(uid);
    assert k in s.store ==> ShapeOk(k, s.store[k]);
  }

  /** The store after a new session: two entries written. */
  lemma OpenSessionEffect(s: State, userId: int64, sid: string, data: Fields)
    requires StoreOk(s) && SessionsOk(s) && sid !in s.used
    ensures var uid := FormatInt(userId);
            && Session(uid, sid) !in s.store && Session(uid, sid) !in s.openedAt
            && OpenSession(s, userId, sid, data).store
               == s.store[Session(uid, sid) := Entry(Hash(data), Some(s.now + SESSION_TTL))]
                         [SessionIndex(uid) := Entry(
                            SortedSet(PrunedScores(s.store, s.now, uid, sid, s.now + SESSION_TTL)),
                            Some(s.now + SESSION_TTL))]
  {
    hide InsertSession, SessionsOk, StoreOk, PrunedScores;
    var uid := FormatInt(userId);
    NewSessionKey(s, uid, sid);
    IndexIsSet(s, uid);
    InsertSessionEffect(s.store, s.now, uid, sid, data, SESSION_TTL);
  }

  /** Adding a session and pruning leaves the index exact. */
  lemma PrunedScoresExact(s: State, uid: string, sid: string, m: string)
    requires StoreOk(s) && SessionsOk(s) && IndexesOk(s) && sid !in s.used
    ensures var after := PrunedScores(s.store, s.now, uid, sid, s.now + SESSION_TTL);
            var openTimes := s.openedAt[Session(uid, sid) := s.now];
            && (m in after <==> Session(uid, m) in openTimes && openTimes[Session(uid, m)] + SESSION_TTL > s.now)
            && (m in after ==> after[m] == openTimes[Session(uid, m)] + SESSION_TTL)
  {
    var k, index := Session(uid, m), SessionIndex(uid);
    NewSessionKey(s, uid, sid);
    if index in s.store {
      assert IndexOk(s, uid);
    }
    if m != sid && k in s.openedAt {
      assert SessionOk(s, k);
    }
  }

  ghost predicate FreshSessionData(data: Fields, uid: string) {
    && "user_id" in data && data["user_id"] == uid
    && "blacklisted" in data && data["blacklisted"] == "0"
    && "client_id" in data
  }

  lemma OpenSessionGrows(s: State, userId: int64, sid: string, data: Fields)
    requires StoreOk(s) && SessionsOk(s) && IndexesOk(s) && sid !in s.used
    ensures Grows(s, OpenSession(s, userId, sid, data))
  {
    hide InsertSession, SessionKept, SessionOk, IndexesOk, StoreOk, PrunedScores;
    var s', uid := OpenSession(s, userId, sid, data), FormatInt(userId);
    OpenSessionEffect(s, userId, sid, data);
    forall j | j in s.openedAt ensures SessionOk(s, j) && SessionKept(s, s', j) {
      KeptByInsertion(s, s', Session(uid, sid), SessionIndex(uid), j);
    }
  }

  /** A new session and a renewed index leave every older session in place. */
  lemma KeptByInsertion(s: State, s': State, k: Key, index: Key, j: Key)
    requires SessionsOk(s) && IndexesOk(s) && j in s.openedAt && s'.now == s.now
    requires k !in s.store && k in s'.store && index.SessionIndex? && index in s'.store
    requires s'.store[index].expiry == Some(s.now + SESSION_TTL)
    requires s'.store == s.store[k := s'.store[k]][index := s'.store[index]]
    ensures SessionOk(s, j) && SessionKept(s, s', j)
  {
    IndexExpiry(s, j);
  }

  /** No index is set to live longer than one session lifetime from now. */
  lemma IndexExpiry(s: State, k: Key)
    requires SessionsOk(s) && IndexesOk(s) && k in s.openedAt
    ensures SessionOk(s, k) && s.store[SessionIndex(k.uid)].expiry.value <= s.now + SESSION_TTL
  {
    assert SessionOk(s, k);
    assert IndexOk(s, k.uid);
  }

  lemma OpenSessionIndexesOk(s: State, userId: int64, sid: string, data: Fields)
    requires StoreOk(s) && SessionsOk(s) && IndexesOk(s) && sid !in s.used
    ensures IndexesOk(OpenSession(s, userId, sid, data))
  {
    var uid, s' := FormatInt(userId), OpenSession(s, userId, sid, data);
    OpenSessionEffect(s, userId, sid, data);
    forall u | SessionIndex(u) in s'.store ensures IndexOk(s', u) {
      if u == uid {
        forall m { PrunedScoresExact(s, uid, sid, m); }
      } else {
        assert IndexOk(s, u);
        IndexSurvives(s, s', u);
      }
    }
  }

  lemma OpenSessionKeepsStore(s: State, userId: int64, sid: string, data: Fields)
    requires StoreOk(s) && SessionsOk(s) && CodesOk(s) && sid !in s.used
    ensures StoreOk(OpenSession(s, userId, sid, data)) && CodesOk(OpenSession(s, userId, sid, data))
  {
    hide InsertSession, SessionOk, PrunedScores, VerifiedId;
    OpenSessionEffect(s, userId, sid, data);
  }

  lemma OpenSessionKeepsSessions(s: State, userId: int64, sid: string, data: Fields)
    requires Inv(s) && sid !in s.used
    requires VerifiedId(s.table, FormatInt(userId)) && FreshSessionData(data, FormatInt(userId))
    ensures SessionsOk(OpenSession(s, userId, sid, data)) && GrantsOk(OpenSession(s, userId, sid, data))
  {
    var uid, s' := FormatInt(userId), OpenSession(s, userId, sid, data);
    OpenSessionEffect(s, userId, sid, data);
    OpenSessionGrows(s, userId, sid, data);
    GrowthKeepsOld(s, s');
    assert SessionOk(s', Session(uid, sid));
  }

  lemma OpenSessionKeepsInv(s: State, userId: int64, sid: string, data: Fields)
    requires Inv(s) && sid !in s.used
    requires VerifiedId(s.table, FormatInt(userId)) && FreshSessionData(data, FormatInt(userId))
    ensures Inv(OpenSession(s, userId, sid, data)) && Grows(s, OpenSession(s, userId, sid, data))
  {
    OpenSessionKeepsStore(s, userId, sid, data);
    OpenSessionKeepsSessions(s, userId, sid, data);
    OpenSessionIndexesOk(s, userId, sid, data);
    OpenSessionGrows(s, userId, sid, data);
  }
}
