/** routes.go authorize: what the two redirects carry to whoever reads their URL. */
module Redirects {
  import opened Wrappers
  import opened GoStrings
  import opened Passwords
  import opened QueryStrings
  import opened Protocol
  import opened Requests

  // ---- to the login page ----

  lemma {:induction false} GetBytes(ps: Params, key: string)
    ensures IsBytes(Get(ps, key))
  {
    if ps != [] {
      GetBytes(ps[1..], key);
    }
  }

  /** What authorize reads from its query. */
  function RequestOf(ps: Params): AuthParams {
    GetBytes(ps, "client_id");
    GetBytes(ps, "redirect_uri");
    GetBytes(ps, "response_type");
    GetBytes(ps, "scope");
    GetBytes(ps, "state");
    GetBytes(ps, "nonce");
    GetBytes(ps, "code_challenge");
    GetBytes(ps, "code_challenge_method");
    AuthParams(Get(ps, "client_id"), Get(ps, "redirect_uri"), Get(ps, "response_type"), Get(ps, "scope"),
               Get(ps, "state"), Get(ps, "nonce"), Get(ps, "code_challenge"), Get(ps, "code_challenge_method"))
  }

  /** The request as the login page passes it on: PKCE values travel for public clients only. */
  function Carried(client: Client, p: AuthParams): AuthParams {
    if client.isPublic then p else p.(codeChallenge := "", codeChallengeMethod := "")
  }

  /** The login page reads exactly the parameters of the request, for all byte strings. */
  lemma LoginURLParses(cfg: Config, client: Client, p: AuthParams)
    requires '?' !in cfg.frontendURL && '#' !in cfg.frontendURL
    ensures ParseQuery(QueryOf(LoginURL(cfg, client, p))) == LoginParams(client, p)
  {
    hide QueryOf, ParseQuery, LoginParams, EncodeQuery;
    var query := EncodeQuery(LoginParams(client, p));
    EncodeQueryPlain(LoginParams(client, p));
    assert cfg.frontendURL + "/en/login?" + query == (cfg.frontendURL + "/en/login") + "?" + query;
    QueryOfGlued(cfg.frontendURL + "/en/login", query);
    ParseEncodeQuery(LoginParams(client, p));
  }

  lemma {:induction false} GetSkips(ps: Params, qs: Params, key: string)
    requires forall i :: 0 <= i < |ps| ==> ps[i].0 != key
    ensures Get(ps + qs, key) == Get(qs, key)
  {
    if ps == [] {
      assert ps + qs == qs;
    } else {
      assert (ps + qs)[1..] == ps[1..] + qs;
      GetSkips(ps[1..], qs, key);
    }
  }

  lemma GetAt(ps: Params, i: nat)
    requires i < |ps| && forall j :: 0 <= j < i ==> ps[j].0 != ps[i].0
    ensures Get(ps, ps[i].0) == ps[i].1
  {
    assert ps == ps[..i] + ps[i..];
    GetSkips(ps[..i], ps[i..], ps[i].0);
  }

  lemma RequestOfLoginParams(client: Client, p: AuthParams)
    requires p.responseType == "code"
    ensures RequestOf(LoginParams(client, p)) == Carried(client, p)
  {
    hide Get;
    var ps := LoginParams(client, p);
    var n := if client.isPublic then 3 else 1;
    assert ps[0] == ("client_id", p.clientId) && ps[n] == ("nonce", p.nonce);
    assert ps[n + 1] == ("redirect_uri", p.redirectURI) && ps[n + 2] == ("response_type", p.responseType);
    assert ps[n + 3] == ("scope", p.scope) && ps[n + 4] == ("state", p.state) && |ps| == n + 5;
    GetAt(ps, 0);
    GetAt(ps, n);
    GetAt(ps, n + 1);
    GetAt(ps, n + 2);
    GetAt(ps, n + 3);
    GetAt(ps, n + 4);
    if client.isPublic {
      assert ps[1] == ("code_challenge", p.codeChallenge);
      assert ps[2] == ("code_challenge_method", p.codeChallengeMethod);
      GetAt(ps, 1);
      GetAt(ps, 2);
    } else {
      GetAbsent(ps, "code_challenge");
      GetAbsent(ps, "code_challenge_method");
    }
  }

  lemma GetAbsent(ps: Params, key: string)
    requires forall i :: 0 <= i < |ps| ==> ps[i].0 != key
    ensures Get(ps, key) == ""
  {
    GetSkips(ps, [], key);
    assert ps + [] == ps;
  }

  lemma CarriedURL(cfg: Config, client: Client, p: AuthParams)
    ensures LoginURL(cfg, client, Carried(client, p)) == LoginURL(cfg, client, p)
  {
  }

  lemma CarriedPasses(cfg: Config, client: Client, p: AuthParams)
    requires ProperRequest(cfg, p) && client == cfg.clients[p.clientId]
    ensures p.responseType == "code" && ProperRequest(cfg, Carried(client, p))
    ensures Carried(client, p).clientId == p.clientId
  {
  }

  /** A proper request that was sent to the login page comes back as a proper request of the same client and
      would be sent to the identical URL. */
  lemma LoginRedirectRoundTrip(cfg: Config, client: Client, p: AuthParams)
    requires '?' !in cfg.frontendURL && '#' !in cfg.frontendURL
    requires ProperRequest(cfg, p) && client == cfg.clients[p.clientId]
    ensures var read := LoginParams(client, p);
            && ParseQuery(QueryOf(LoginURL(cfg, client, p))) == read
            && RequestOf(read) == Carried(client, p)
            && ProperRequest(cfg, RequestOf(read)) && RequestOf(read).clientId == p.clientId
            && LoginURL(cfg, client, RequestOf(read)) == LoginURL(cfg, client, p)
  {
    hide ParseQuery, QueryOf, RequestOf, EncodeQuery, LoginParams, Carried, LoginURL;
    CarriedURL(cfg, client, p);
    CarriedPasses(cfg, client, p);
    LoginURLParses(cfg, client, p);
    RequestOfLoginParams(client, p);
  }

  // ---- back to the client application ----

  /** The client reads its own code and state from the callback. */
  ghost predicate CallbackReads(redirectURI: string, code: GoString, state: GoString) {
    var ps := ParseQuery(QueryOf(CallbackURL(redirectURI, code, state)));
    Get(ps, "code") == code && Get(ps, "state") == state
  }

  lemma IndexOfStep(s: string, c: char)
    requires s != ""
    ensures s[0] == c ==> IndexOf(s, [c]) == Some(0)
    ensures s[0] != c && IndexOf(s[1..], [c]).Some? ==> IndexOf(s, [c]) == Some(IndexOf(s[1..], [c]).value + 1)
  {
    assert HasPrefix(s, [c]) == (s[0] == c);
  }

  lemma {:induction false} IndexOfLeft(a: string, c: char, b: string)
    requires c in a
    ensures IndexOf(a, [c]).Some? && IndexOf(a + b, [c]) == IndexOf(a, [c])
  {
    hide IndexOf;
    IndexOfStep(a, c);
    IndexOfStep(a + b, c);
    if a[0] != c {
      assert (a + b)[1..] == a[1..] + b;
      IndexOfLeft(a[1..], c, b);
    }
  }

  lemma {:induction false} SplitAppend(a: string, b: string)
    requires '&' !in b
    ensures var parts := Split(a, "&"); var last := |parts| - 1;
            Split(a + b, "&") == parts[..last] + [parts[last] + b]
    decreases |a|
  {
    hide IndexOf;
    if '&' in a {
      IndexOfLeft(a, '&', b);
      var i := IndexOf(a, "&").value;
      assert (a + b)[..i] == a[..i] && (a + b)[i + 1..] == a[i + 1..] + b;
      SplitAppend(a[i + 1..], b);
    } else {
      SplitWhole(a, "&");
      SplitWhole(a + b, "&");
    }
  }

  lemma {:induction false} SplitBoth(a: string, b: string)
    ensures Split(a + "&" + b, "&") == Split(a, "&") + Split(b, "&")
    decreases |a|
  {
    hide IndexOf;
    if '&' in a {
      IndexOfLeft(a, '&', "&" + b);
      var i := IndexOf(a, "&").value;
      var s := a + "&" + b;
      assert s == a + ("&" + b);
      assert s[..i] == a[..i] && s[i + 1..] == a[i + 1..] + "&" + b;
      SplitBoth(a[i + 1..], b);
    } else {
      SplitGlued(a, "&", b);
      SplitWhole(a, "&");
    }
  }

  lemma {:induction false} ParsePiecesAppend(a: seq<string>, b: seq<string>)
    ensures ParsePieces(a + b) == ParsePieces(a) + ParsePieces(b)
  {
    if a == [] {
      assert a + b == b;
    } else {
      assert (a + b)[1..] == a[1..] + b;
      ParsePiecesAppend(a[1..], b);
    }
  }

  lemma {:induction false} GetAppend(a: Pairs, b: Pairs, key: string)
    ensures Get(a + b, key) == if exists i :: 0 <= i < |a| && a[i].0 == key then Get(a, key) else Get(b, key)
  {
    if a == [] {
      assert a + b == b;
    } else {
      assert (a + b)[1..] == a[1..] + b;
      GetAppend(a[1..], b, key);
      if a[0].0 != key {
        assert forall i :: 0 < i < |a| ==> a[i] == a[1..][i - 1];
        assert (exists i :: 0 <= i < |a| && a[i].0 == key) ==> exists i :: 0 <= i < |a[1..]| && a[1..][i].0 == key;
      }
    }
  }

  /** Text that cannot continue a percent escape is never shortened away by unescaping. */
  lemma {:induction false} UnescapeKeepsTail(a: string, tail: string)
    requires tail != "" && UnHex(tail[0]).None? && '%' !in tail
    ensures Unescape(a + tail).Some? ==> |Unescape(a + tail).value| >= |tail|
    decreases |a| + |tail|
  {
    var s := a + tail;
    if a == "" {
      assert s == tail;
      UnescapeLength(tail);
    } else if a[0] == '%' {
      assert |a| == 1 ==> s[1] == tail[0];
      assert |a| == 2 ==> s[2] == tail[0];
      if |a| >= 3 {
        assert s[3..] == a[3..] + tail;
        UnescapeKeepsTail(a[3..], tail);
      }
    } else {
      assert s[1..] == a[1..] + tail;
      UnescapeKeepsTail(a[1..], tail);
    }
  }

  lemma {:induction false} UnescapeLength(s: string)
    requires '%' !in s
    ensures Unescape(s).Some? ==> |Unescape(s).value| == |s|
  {
    if s != "" {
      assert s[0] in s;
      UnescapeLength(s[1..]);
    }
  }

  predicate AllUnreserved(s: string) {
    forall i :: 0 <= i < |s| ==> IsUnreserved(s[i])
  }

  /** What is put between a URL that already has a query and the first value: it holds the name and no '='. */
  predicate IsGlue(glue: string, name: string) {
    |name| < |glue| && UnHex(glue[0]).None? && '%' !in glue && '=' !in glue && '&' !in glue
  }

  /** A value after text that cannot continue an escape is read too long. */
  lemma LongValue(piece: string, tail: string)
    requires '=' in piece && tail != "" && UnHex(tail[0]).None? && '%' !in tail
    ensures var read := ParsePiece(piece + tail); |read| <= 1 && (|read| == 1 ==> |read[0].1| >= |tail|)
  {
    hide Unescape, UnHex, Contains, IndexOf;
    var s := piece + tail;
    IndexOfLeft(piece, '=', tail);
    var i := IndexOf(piece, "=").value;
    assert s[i + 1..] == piece[i + 1..] + tail;
    UnescapeKeepsTail(piece[i + 1..], tail);
  }

  /** So is a name. */
  lemma LongName(piece: string, glue: string, c: string)
    requires '=' !in piece + glue && glue != "" && UnHex(glue[0]).None? && '%' !in glue
    ensures var read := ParsePiece(piece + (glue + "=" + c)); |read| <= 1 && (|read| == 1 ==> |read[0].0| >= |glue|)
  {
    hide Unescape, UnHex, Contains, IndexOf;
    var s := piece + (glue + "=" + c);
    assert s == (piece + glue) + "=" + c;
    IndexOfSkips(piece + glue, "=", c);
    assert s[..|piece| + |glue|] == piece + glue;
    UnescapeKeepsTail(piece, glue);
  }

  /** The piece of a query in which a second '?' swallowed the first value: if it is read under its name at
      all, what is read is too long. */
  lemma SwallowedValue(piece: string, glue: string, name: string, c: string)
    requires IsGlue(glue, name) && AllUnreserved(c)
    ensures var read := ParsePiece(piece + (glue + "=" + c));
            |read| <= 1 && (|read| == 1 && read[0].0 == name ==> |read[0].1| > |c|)
  {
    hide ParsePiece, UnHex;
    if '=' in piece {
      assert (glue + "=" + c)[0] == glue[0];
      assert '%' !in glue + "=" + c;
      LongValue(piece, glue + "=" + c);
    } else {
      LongName(piece, glue, c);
    }
  }

  /** A query appended to a query: the pairs the first one gave, what is left of the first value, the rest. */
  lemma QueryInsideQuery(before: string, first: string, rest: string)
    requires '&' !in first
    ensures var parts := Split(before, "&");
            var last := |parts| - 1;
            && ParseQuery(before + first + "&" + rest)
               == ParsePieces(parts[..last]) + ParsePiece(parts[last] + first) + ParseQuery(rest)
  {
    hide Split, ParsePiece;
    var parts := Split(before, "&");
    var last := |parts| - 1;
    SplitAppend(before, first);
    SplitBoth(before + first, rest);
    ParsePiecesAppend(parts[..last] + [parts[last] + first], Split(rest, "&"));
    ParsePiecesAppend(parts[..last], [parts[last] + first]);
    OnePiece(parts[last] + first);
  }

  lemma OnePiece(piece: string)
    ensures ParsePieces([piece]) == ParsePiece(piece)
  {
    assert [piece][1..] == [];
  }

  /** What a query holds before its last piece. */
  function OwnPairs(before: string): Pairs {
    var parts := Split(before, "&");
    ParsePieces(parts[..|parts| - 1])
  }

  lemma GlueFacts(glue: string, name: string, c: string)
    requires IsGlue(glue, name) && AllUnreserved(c)
    ensures '&' !in glue + "=" + c
  {
  }

  /** So a value is read under its name only if the URL's own query already held it. */
  lemma ValueInsideQuery(before: string, glue: string, name: string, c: string, rest: string)
    requires IsGlue(glue, name) && AllUnreserved(c) && c != "" && Get(ParseQuery(rest), name) != c
    ensures Get(ParseQuery(before + (glue + "=" + c) + "&" + rest), name) == c ==> Get(OwnPairs(before), name) == c
  {
    hide Split, ParsePieces, ParsePiece, ParseQuery, IsGlue, AllUnreserved;
    var parts := Split(before, "&");
    var last := |parts| - 1;
    var own, glued := OwnPairs(before), ParsePiece(parts[last] + (glue + "=" + c));
    GlueFacts(glue, name, c);
    QueryInsideQuery(before, glue + "=" + c, rest);
    SwallowedValue(parts[last], glue, name, c);
    GetAppend(own + glued, ParseQuery(rest), name);
    GetAppend(own, glued, name);
  }

  /** The callback when the URI has a query of its own. */
  lemma CallbackWithQuery(uri: string, code: GoString, state: GoString)
    requires '?' in uri && '#' !in uri
    ensures IndexOf(uri, "?").Some?
    ensures QueryOf(CallbackURL(uri, code, state))
         == uri[IndexOf(uri, "?").value + 1..] + ("?code" + "=" + Escape(code)) + "&" + EncodePair(("state", state))
  {
    hide Escape, IndexOf, EncodePair, QueryOf, CallbackURL, CallbackTail;
    CallbackText(uri, code, state);
    GluedToQuery(uri, CallbackTail(code, state));
    StateLast(uri[IndexOf(uri, "?").value + 1..], code, state);
  }

  /** What authorize puts behind the redirect URI. */
  function CallbackTail(code: GoString, state: GoString): string {
    "?code=" + Escape(code) + "&state=" + Escape(state)
  }

  lemma CallbackText(uri: string, code: GoString, state: GoString)
    ensures CallbackURL(uri, code, state) == uri + CallbackTail(code, state)
    ensures '#' !in CallbackTail(code, state)
  {
    hide Escape;
    EscapeLacks(code, '#');
    EscapeLacks(state, '#');
    var c, t := Escape(code), Escape(state);
    assert uri + "?code=" + c + "&state=" + t == uri + ("?code=" + c + "&state=" + t);
  }

  lemma StateLast(before: string, code: GoString, state: GoString)
    ensures before + CallbackTail(code, state)
         == before + ("?code" + "=" + Escape(code)) + "&" + EncodePair(("state", state))
  {
    hide Escape;
    EscapePlain("state");
    StateText(before, Escape(code), Escape(state));
  }

  lemma StateText(before: string, c: string, t: string)
    ensures before + ("?code=" + c + "&state=" + t) == before + ("?code" + "=" + c) + "&" + ("state" + "=" + t)
  {
    assert "&state=" == "&" + ("state" + "=");
  }

  /** The callback when the URI has a fragment: the parameters land behind it. */
  lemma CallbackWithFragment(uri: string, code: GoString, state: GoString)
    requires '#' in uri
    ensures QueryOf(CallbackURL(uri, code, state)) == QueryOf(uri)
  {
    hide IndexOf, CallbackURL, CallbackTail;
    CallbackText(uri, code, state);
    IndexOfLeft(uri, '#', CallbackTail(code, state));
    var i := IndexOf(uri, "#").value;
    assert CallbackURL(uri, code, state)[..i] == uri[..i];
  }

  lemma ParseState(state: GoString)
    ensures ParseQuery(EncodePair(("state", state))) == [("state", state)]
    ensures Get([("state", state)], "code") == ""
  {
    hide Split, ParsePiece, EncodePair, Escape;
    EncodePairLacks(("state", state), '&');
    SplitWhole(EncodePair(("state", state)), "&");
    OnePiece(EncodePair(("state", state)));
    ParsePieceEncodePair(("state", state));
    GetAbsent([("state", state)], "code");
  }

  lemma TokenIsUnreserved(c: Token)
    ensures AllUnreserved(c) && c != "" && Escape(c) == c
  {
    EscapePlain(c);
  }

  /** With a query of its own the client reads a code only if its URI already held that very code. */
  lemma CodeInsideQuery(uri: string, code: Token, state: GoString)
    requires '?' in uri && '#' !in uri && CallbackReads(uri, code, state)
    ensures IndexOf(uri, "?").Some? && Get(OwnPairs(uri[IndexOf(uri, "?").value + 1..]), "code") == code
  {
    hide QueryOf, ParseQuery, Get, CallbackURL, Escape, EncodePair, OwnPairs, IndexOf, AllUnreserved;
    CallbackWithQuery(uri, code, state);
    TokenIsUnreserved(code);
    ParseState(state);
    ValueInsideQuery(uri[IndexOf(uri, "?").value + 1..], "?code", "code", code, EncodePair(("state", state)));
  }

  /** A registered URI with a query or a fragment of its own loses every code but at most one. */
  lemma CallbackMisreads(uri: string, code: Token, other: Token, state: GoString)
    requires '?' in uri || '#' in uri
    requires code != other && CallbackReads(uri, code, state)
    ensures !CallbackReads(uri, other, state)
  {
    hide QueryOf, ParseQuery, Get, CallbackURL, OwnPairs, IndexOf;
    if '#' in uri {
      CallbackWithFragment(uri, code, state);
      CallbackWithFragment(uri, other, state);
    } else if CallbackReads(uri, other, state) {
      CodeInsideQuery(uri, code, state);
      CodeInsideQuery(uri, other, state);
    }
  }

  lemma CallbackReadsPlain(uri: string, code: Token, state: GoString)
    requires '?' !in uri && '#' !in uri
    ensures CallbackReads(uri, code, state)
  {
    hide QueryOf, ParseQuery, CallbackURL;
    CallbackRoundTrip(uri, code, state);
    GetAt([("code", code), ("state", state)], 0);
    GetAt([("code", code), ("state", state)], 1);
  }

  /** Every code the service can mint and every state it accepts arrive at the client exactly when its
      registered URI has neither a query nor a fragment of its own. */
  lemma CallbackReadsExactly(uri: string)
    ensures (forall code: Token, state: GoString | state != "" :: CallbackReads(uri, code, state))
       <==> '?' !in uri && '#' !in uri
  {
    hide QueryOf, ParseQuery, CallbackURL, CallbackReads;
    if '?' in uri || '#' in uri {
      var code: Token, other: Token := seq(64, _ => '0'), seq(64, _ => '1');
      assert code[0] != other[0];
      if CallbackReads(uri, code, "s") {
        CallbackMisreads(uri, code, other, "s");
      }
    } else {
      forall code: Token, state: GoString | state != "" ensures CallbackReads(uri, code, state) {
        CallbackReadsPlain(uri, code, state);
      }
    }
  }

  // ---- which front-end addresses work ----

  /** The login page reads the parameters of the request, if it is proper. */
  ghost predicate LoginReads(cfg: Config, p: AuthParams) {
    ProperRequest(cfg, p) ==>
      var client := cfg.clients[p.clientId];
      ParseQuery(QueryOf(LoginURL(cfg, client, p))) == LoginParams(client, p)
  }

  /** A registry of one application, and a request it makes. */
  function OneClient(id: string): Clients {
    map[id := Client(id, "", "r", false)]
  }

  function PlainRequest(id: GoString, state: GoString): AuthParams {
    AuthParams(id, "r", "code", "openid", state, "n", "", "")
  }

  lemma PlainRequestPasses(cfg: Config, id: GoString, state: GoString)
    requires id != "" && state != ""
    ensures var at := cfg.(clients := OneClient(id));
            ProperRequest(at, PlainRequest(id, state)) && at.clients[id] == Client(id, "", "r", false)
  {
  }

  lemma {:induction false} EncodeFirst(p: (GoString, GoString), rest: Params)
    requires rest != []
    ensures EncodeQuery([p] + rest) == EncodePair(p) + "&" + EncodeQuery(rest)
  {
    hide EncodePair;
    assert EncodePairs([p] + rest)[1..] == EncodePairs(rest);
  }

  /** Text glued to a URL that already has a query becomes part of that query. */
  lemma GluedToQuery(url: string, tail: string)
    requires '?' in url && '#' !in url && '#' !in tail
    ensures IndexOf(url, "?").Some?
    ensures QueryOf(url + tail) == url[IndexOf(url, "?").value + 1..] + tail
  {
    hide IndexOf;
    IndexOfAbsent(url + tail, "#");
    IndexOfLeft(url, '?', tail);
    var i := IndexOf(url, "?").value;
    assert (url + tail)[i + 1..] == url[i + 1..] + tail;
  }

  /** The login URL when the front-end address has a query of its own. */
  lemma LoginWithQuery(url: string, id: Token, rest: Params)
    requires '?' in url && '#' !in url && rest != []
    ensures IndexOf(url, "?").Some?
    ensures QueryOf(url + "/en/login?" + EncodeQuery([("client_id", id)] + rest))
         == url[IndexOf(url, "?").value + 1..] + ("/en/login?client_id" + "=" + id) + "&" + EncodeQuery(rest)
  {
    hide Escape, IndexOf, EncodeQuery, Join, QueryOf, EncodePair;
    var query := EncodeQuery([("client_id", id)] + rest);
    EncodeQueryPlain([("client_id", id)] + rest);
    assert url + "/en/login?" + query == url + ("/en/login?" + query);
    GluedToQuery(url, "/en/login?" + query);
    EncodeFirst(("client_id", id), rest);
    ClientFirst(id);
    LoginText(url[IndexOf(url, "?").value + 1..], id, EncodeQuery(rest));
  }

  lemma ClientFirst(id: Token)
    ensures EncodePair(("client_id", id)) == "client_id" + "=" + id
  {
    EscapePlain("client_id");
    TokenIsUnreserved(id);
  }

  lemma LoginText(before: string, id: string, rest: string)
    ensures before + ("/en/login?" + ("client_id" + "=" + id + "&" + rest))
         == before + ("/en/login?client_id" + "=" + id) + "&" + rest
  {
    assert "/en/login?" + "client_id" == "/en/login?client_id";
  }

  /** The parameters of a plain request after the client's id. */
  function PlainRest(state: GoString): Params {
    [("nonce", "n"), ("redirect_uri", "r"), ("response_type", "code"), ("scope", "openid"), ("state", state)]
  }

  function AllParams(id: Token, state: GoString): Params {
    [("client_id", id)] + PlainRest(state)
  }

  lemma PlainParams(id: Token, state: GoString)
    ensures LoginParams(Client(id, "", "r", false), PlainRequest(id, state)) == AllParams(id, state)
    ensures Get(AllParams(id, state), "client_id") == id
    ensures Get(PlainRest(state), "client_id") != id
  {
    hide Get;
    GetAt(AllParams(id, state), 0);
    GetAbsent(PlainRest(state), "client_id");
  }

  lemma PlainReads(cfg: Config, id: Token, state: GoString)
    requires state != "" && LoginReads(cfg.(clients := OneClient(id)), PlainRequest(id, state))
    ensures var ps := AllParams(id, state);
            ParseQuery(QueryOf(cfg.frontendURL + "/en/login?" + EncodeQuery(ps))) == ps
  {
    hide ParseQuery, QueryOf, EncodeQuery, LoginParams, AllParams, OneClient, ProperRequest;
    PlainRequestPasses(cfg, id, state);
    PlainParams(id, state);
  }

  lemma LoginGlue()
    ensures IsGlue("/en/login?client_id", "client_id")
  {
  }

  lemma ClientInsideQuery(cfg: Config, id: Token, state: GoString)
    requires '?' in cfg.frontendURL && '#' !in cfg.frontendURL && state != ""
    requires LoginReads(cfg.(clients := OneClient(id)), PlainRequest(id, state))
    ensures var url := cfg.frontendURL;
            IndexOf(url, "?").Some? && Get(OwnPairs(url[IndexOf(url, "?").value + 1..]), "client_id") == id
  {
    hide QueryOf, ParseQuery, EncodeQuery, OwnPairs, IndexOf, AllUnreserved, Get, LoginReads, IsGlue, PlainRequest,
         LoginParams, Escape;
    LoginGlue();
    var url, rest := cfg.frontendURL, PlainRest(state);
    PlainReads(cfg, id, state);
    PlainParams(id, state);
    LoginWithQuery(url, id, rest);
    TokenIsUnreserved(id);
    ParseEncodeQuery(rest);
    ValueInsideQuery(url[IndexOf(url, "?").value + 1..], "/en/login?client_id", "client_id", id, EncodeQuery(rest));
  }

  lemma LoginWithFragment(cfg: Config, client: Client, p: AuthParams)
    requires '#' in cfg.frontendURL
    ensures QueryOf(LoginURL(cfg, client, p)) == QueryOf(cfg.frontendURL)
  {
    hide EncodeQuery, IndexOf, LoginParams;
    var url, rest := cfg.frontendURL, "/en/login?" + EncodeQuery(LoginParams(client, p));
    assert LoginURL(cfg, client, p) == url + rest;
    IndexOfLeft(url, '#', rest);
    assert (url + rest)[..IndexOf(url, "#").value] == url[..IndexOf(url, "#").value];
  }

  lemma LoginMisreads(cfg: Config, id: Token, other: Token)
    requires '?' in cfg.frontendURL || '#' in cfg.frontendURL
    requires id != other
    requires LoginReads(cfg.(clients := OneClient(id)), PlainRequest(id, "s"))
    ensures !LoginReads(cfg.(clients := OneClient(other)), PlainRequest(other, "s"))
  {
    hide QueryOf, ParseQuery, LoginURL, Get, IndexOf, OwnPairs;
    var at, to := cfg.(clients := OneClient(id)), cfg.(clients := OneClient(other));
    if '#' in cfg.frontendURL {
      PlainRequestPasses(cfg, id, "s");
      PlainRequestPasses(cfg, other, "s");
      LoginWithFragment(at, Client(id, "", "r", false), PlainRequest(id, "s"));
      LoginWithFragment(to, Client(other, "", "r", false), PlainRequest(other, "s"));
      assert LoginParams(Client(id, "", "r", false), PlainRequest(id, "s"))[0].1 == id;
      assert LoginParams(Client(other, "", "r", false), PlainRequest(other, "s"))[0].1 == other;
    } else if LoginReads(to, PlainRequest(other, "s")) {
      ClientInsideQuery(cfg, id, "s");
      ClientInsideQuery(cfg, other, "s");
    }
  }

  /** The login page reads every accepted request of every registry exactly when the configured front-end
      address has neither a query nor a fragment. */
  lemma LoginReadsExactly(cfg: Config)
    ensures (forall clients: Clients, p: AuthParams :: LoginReads(cfg.(clients := clients), p))
       <==> '?' !in cfg.frontendURL && '#' !in cfg.frontendURL
  {
    hide QueryOf, ParseQuery, LoginURL, LoginReads, OneClient, PlainRequest;
    if '?' in cfg.frontendURL || '#' in cfg.frontendURL {
      var id: Token, other: Token := seq(64, _ => '0'), seq(64, _ => '1');
      assert id[0] != other[0];
      if LoginReads(cfg.(clients := OneClient(id)), PlainRequest(id, "s")) {
        LoginMisreads(cfg, id, other);
      }
    } else {
      forall clients: Clients, p: AuthParams ensures LoginReads(cfg.(clients := clients), p) {
        LoginReadsPlain(cfg.(clients := clients), p);
      }
    }
  }

  lemma LoginReadsPlain(cfg: Config, p: AuthParams)
    requires '?' !in cfg.frontendURL && '#' !in cfg.frontendURL
    ensures LoginReads(cfg, p)
  {
    hide QueryOf, ParseQuery, LoginURL;
    if ProperRequest(cfg, p) {
      LoginURLParses(cfg, cfg.clients[p.clientId], p);
    }
  }
}
