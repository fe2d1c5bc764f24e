/** The Redis key families of database 0 and the text of each key. */
module Keys {
  import opened Decimal
  import opened GoStrings
  import opened Base64

  datatype Key =
    | Session(uid: string, sid: string)   // session:<uid>:<sid>
    | SessionIndex(uid: string)           // user:sessions:v2:<uid>
    | LegacyIndex(uid: string)            // user:sessions:<uid>
    | AuthCode(code: string)              // auth_code:<code>
    | SignUp(ticket: string)              // signup:<ticket>
    | Reset(ticket: string)               // reset:<ticket>
    | OpToken(token: string)              // op_token:<token>
    | Bare(text: string)                  // a digest or a session id used as a key by itself

  function Text(k: Key): string {
    match k
    case Session(uid, sid) => "session:" + uid + ":" + sid
    case SessionIndex(uid) => "user:sessions:v2:" + uid
    case LegacyIndex(uid) => "user:sessions:" + uid
    case AuthCode(code) => "auth_code:" + code
    case SignUp(ticket) => "signup:" + ticket
    case Reset(ticket) => "reset:" + ticket
    case OpToken(token) => "op_token:" + token
    case Bare(text) => text
  }

  /** User ids, digests and session ids never contain the separator. */
  predicate WellFormed(k: Key) {
    match k
    case Session(uid, _) => ':' !in uid
    case SessionIndex(uid) => ':' !in uid
    case LegacyIndex(uid) => ':' !in uid
    case Bare(text) => ':' !in text
    case _ => true
  }

  /** A colon-free head is determined by the text up to the first colon. */
  lemma HeadInjective(a: string, x: string, b: string, y: string)
    requires ':' !in a && ':' !in b
    requires a + ":" + x == b + ":" + y
    ensures a == b && x == y
  {
    IndexOfSkips(a, ":", x);
    IndexOfSkips(b, ":", y);
    var s, t := a + ":" + x, b + ":" + y;
    assert s[..|a|] == a && t[..|b|] == b;
    assert s[|a| + 1..] == x && t[|b| + 1..] == y;
  }

  /** The part of a key before its first colon: what tells the families apart. */
  function Head(k: Key): string
  {
    match k
    case Session(_, _) => "session"
    case SessionIndex(_) => "user"
    case LegacyIndex(_) => "user"
    case AuthCode(_) => "auth_code"
    case SignUp(_) => "signup"
    case Reset(_) => "reset"
    case OpToken(_) => "op_token"
    case Bare(text) => text
  }

  function Tail(k: Key): string
    requires !k.Bare?
  {
    match k
    case Session(uid, sid) => uid + ":" + sid
    case SessionIndex(uid) => "sessions:v2:" + uid
    case LegacyIndex(uid) => "sessions:" + uid
    case AuthCode(code) => code
    case SignUp(ticket) => ticket
    case Reset(ticket) => ticket
    case OpToken(token) => token
  }

  lemma UserTextSplits(k: Key)
    requires k.Session? || k.SessionIndex? || k.LegacyIndex?
    ensures Text(k) == Head(k) + ":" + Tail(k)
  {
    match k
    case Session(uid, sid) => assert Text(k) == "session" + ":" + (uid + ":" + sid);
    case SessionIndex(uid) => assert Text(k) == "user" + ":" + ("sessions:v2:" + uid);
    case LegacyIndex(uid) => assert Text(k) == "user" + ":" + ("sessions:" + uid);
  }

  lemma TicketTextSplits(k: Key)
    requires k.AuthCode? || k.SignUp? || k.Reset? || k.OpToken?
    ensures Text(k) == Head(k) + ":" + Tail(k)
  {
    match k
    case AuthCode(code) => assert Text(k) == "auth_code" + ":" + code;
    case SignUp(ticket) => assert Text(k) == "signup" + ":" + ticket;
    case Reset(ticket) => assert Text(k) == "reset" + ":" + ticket;
    case OpToken(token) => assert Text(k) == "op_token" + ":" + token;
  }

  lemma TextSplits(k: Key)
    requires !k.Bare?
    ensures Text(k) == Head(k) + ":" + Tail(k)
  {
    if k.Session? || k.SessionIndex? || k.LegacyIndex? {
      UserTextSplits(k);
    } else {
      TicketTextSplits(k);
    }
  }

  lemma IndexTextsDiffer(j: Key, k: Key)
    requires WellFormed(j) && WellFormed(k)
    requires j.SessionIndex? && k.LegacyIndex?
    ensures Tail(j) != Tail(k)
  {
    assert Tail(j)[11] == ':';
    if |k.uid| > 2 {
      assert Tail(k)[11] == k.uid[2] && k.uid[2] in k.uid;
    }
  }

  lemma BareTextDiffers(j: Key, k: Key)
    requires WellFormed(j) && j.Bare? && !k.Bare?
    ensures Text(j) != Text(k)
  {
    TextSplits(k);
    assert Text(k)[|Head(k)|] == ':';
  }

  /** Different keys have different texts, so no two families ever share a Redis key. */
  lemma TextInjective(j: Key, k: Key)
    requires WellFormed(j) && WellFormed(k)
    requires Text(j) == Text(k)
    ensures j == k
  {
    if j.Bare? || k.Bare? {
      if !k.Bare? { BareTextDiffers(j, k); }
      if !j.Bare? { BareTextDiffers(k, j); }
    } else {
      TextSplits(j);
      TextSplits(k);
      HeadInjective(Head(j), Tail(j), Head(k), Tail(k));
      SameHeadSameTail(j, k);
    }
  }

  lemma SameHeadSameTail(j: Key, k: Key)
    requires WellFormed(j) && WellFormed(k) && !j.Bare? && !k.Bare?
    requires Head(j) == Head(k) && Tail(j) == Tail(k)
    ensures j == k
  {
    match j
    case Session(uid, sid) =>
      assert k.Session?;
      HeadInjective(uid, sid, k.uid, k.sid);
    case SessionIndex(uid) =>
      if k.LegacyIndex? { IndexTextsDiffer(j, k); }
      assert Tail(j)[12..] == uid && Tail(k)[12..] == k.uid;
    case LegacyIndex(uid) =>
      if k.SessionIndex? { IndexTextsDiffer(k, j); }
      assert Tail(j)[9..] == uid && Tail(k)[9..] == k.uid;
    case _ =>
  }

  lemma FormatIntColonFree(n: int64)
    ensures ':' !in FormatInt(n)
  {
    if ':' in FormatInt(n) {
      FormatIntAlphabet(n, ':');
    }
  }

  /** The key a session is stored under determines the user and the session id. */
  lemma SessionKeyInjective(m: int64, n: int64, sid: string, tid: string)
    requires Text(Session(FormatInt(m), sid)) == Text(Session(FormatInt(n), tid))
    ensures m == n && sid == tid
  {
    hide Text, FormatInt;
    FormatIntColonFree(m);
    FormatIntColonFree(n);
    TextInjective(Session(FormatInt(m), sid), Session(FormatInt(n), tid));
    FormatIntInjective(m, n);
  }

  lemma HexColonFree(s: string)
    requires IsHex(s)
    ensures ':' !in s
  {
  }
}
