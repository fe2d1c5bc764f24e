/** net/url query strings as /authorize writes them and as the receiving side reads them. */
module QueryStrings {
  import opened Wrappers
  import opened GoStrings

  // ---- escaping ----

  predicate IsUnreserved(c: char) {
    'a' <= c <= 'z' || 'A' <= c <= 'Z' || '0' <= c <= '9' || c == '-' || c == '_' || c == '.' || c == '~'
  }

  function UpperHex(d: int): (c: char)
    requires 0 <= d < 16
    ensures '0' <= c <= '9' || 'A' <= c <= 'F'
  {
    if d < 10 then (d + '0' as int) as char else (d - 10 + 'A' as int) as char
  }

  function UnHex(c: char): (r: Option<int>)
    ensures r.Some? ==> 0 <= r.value < 16
  {
    if '0' <= c <= '9' then Some(c as int - '0' as int)
    else if 'a' <= c <= 'f' then Some(c as int - 'a' as int + 10)
    else if 'A' <= c <= 'F' then Some(c as int - 'A' as int + 10)
    else None
  }

  function EscapeByte(c: char): string
    requires c as int < 256
  {
    if IsUnreserved(c) then [c]
    else if c == ' ' then "+"
    else ['%', UpperHex(c as int / 16), UpperHex(c as int % 16)]
  }

  /** url.QueryEscape. */
  function Escape(s: GoString): string {
    if s == "" then "" else EscapeByte(s[0]) + Escape(s[1..])
  }

  /** url.QueryUnescape: nothing when a '%' is not followed by two hexadecimal digits. */
  function Unescape(s: string): Option<string> {
    if s == "" then Some("")
    else if s[0] == '%' then
      if |s| < 3 then None
      else
        match (UnHex(s[1]), UnHex(s[2]), Unescape(s[3..]))
        case (Some(hi), Some(lo), Some(rest)) => Some([(16 * hi + lo) as char] + rest)
        case _ => None
    else
      match Unescape(s[1..])
      case Some(rest) => Some([if s[0] == '+' then ' ' else s[0]] + rest)
      case None => None
  }

  lemma UnHexUpperHex(d: int)
    requires 0 <= d < 16
    ensures UnHex(UpperHex(d)) == Some(d)
  {
  }

  lemma {:induction false} UnescapeEscape(s: GoString)
    ensures Unescape(Escape(s)) == Some(s)
  {
    if s != "" {
      UnescapeEscape(s[1..]);
      var e := EscapeByte(s[0]);
      UnHexUpperHex(s[0] as int / 16);
      UnHexUpperHex(s[0] as int % 16);
      assert Escape(s) == e + Escape(s[1..]);
      assert Escape(s)[|e|..] == Escape(s[1..]);
      assert s == [s[0]] + s[1..];
    }
  }

  /** Escaped text uses only unreserved characters, '+' and '%'. */
  lemma {:induction false} EscapeLacks(s: GoString, c: char)
    requires !IsUnreserved(c) && c != '+' && c != '%'
    ensures c !in Escape(s)
  {
    if s != "" {
      EscapeLacks(s[1..], c);
    }
  }

  // ---- queries ----

  type Pairs = seq<(string, string)>
  type Params = seq<(GoString, GoString)>

  function EncodePair(p: (GoString, GoString)): string {
    Escape(p.0) + "=" + Escape(p.1)
  }

  function EncodePairs(ps: Params): (parts: seq<string>)
    ensures |parts| == |ps| && forall i :: 0 <= i < |ps| ==> parts[i] == EncodePair(ps[i])
  {
    seq(|ps|, i requires 0 <= i < |ps| => EncodePair(ps[i]))
  }

  /** url.Values.Encode for pairs given in key order. */
  function EncodeQuery(ps: Params): string {
    Join(EncodePairs(ps), "&")
  }

  /** One '&'-separated piece: blank, malformed and ';'-carrying pieces are dropped. */
  function ParsePiece(piece: string): Pairs {
    if piece == "" || Contains(piece, ";") then []
    else
      var (key, value) :=
        match IndexOf(piece, "=")
        case None => (piece, "")
        case Some(i) => (piece[..i], piece[i + 1..]);
      match (Unescape(key), Unescape(value))
      case (Some(k), Some(v)) => [(k, v)]
      case _ => []
  }

  function ParsePieces(pieces: seq<string>): Pairs {
    if pieces == [] then [] else ParsePiece(pieces[0]) + ParsePieces(pieces[1..])
  }

  /** url.ParseQuery as URL.Query applies it. */
  function ParseQuery(query: string): Pairs {
    ParsePieces(Split(query, "&"))
  }

  /** gin's Context.Query: the first value for the key, or the empty string. */
  function Get(ps: Pairs, key: string): string {
    if ps == [] then "" else if ps[0].0 == key then ps[0].1 else Get(ps[1..], key)
  }

  lemma EncodePairLacks(p: (GoString, GoString), c: char)
    requires !IsUnreserved(c) && c != '+' && c != '%' && c != '='
    ensures c !in EncodePair(p)
  {
    EscapeLacks(p.0, c);
    EscapeLacks(p.1, c);
  }

  lemma ParsePieceEncodePair(p: (GoString, GoString))
    ensures ParsePiece(EncodePair(p)) == [p]
  {
    var key, value := Escape(p.0), Escape(p.1);
    var piece := key + "=" + value;
    EncodePairLacks(p, ';');
    IndexOfAbsent(piece, ";");
    EscapeLacks(p.0, '=');
    IndexOfSkips(key, "=", value);
    assert piece[..|key|] == key && piece[|key| + 1..] == value;
    UnescapeEscape(p.0);
    UnescapeEscape(p.1);
  }

  lemma {:induction false} ParsePiecesEncodePairs(ps: Params)
    ensures ParsePieces(EncodePairs(ps)) == ps
  {
    if ps != [] {
      ParsePieceEncodePair(ps[0]);
      assert EncodePairs(ps)[1..] == EncodePairs(ps[1..]);
      ParsePiecesEncodePairs(ps[1..]);
      assert ps == [ps[0]] + ps[1..];
    }
  }

  /** Reading a written query gives back every pair, in order, for all byte strings. */
  lemma ParseEncodeQuery(ps: Params)
    ensures ParseQuery(EncodeQuery(ps)) == ps
  {
    var parts := EncodePairs(ps);
    if ps != [] {
      forall p | p in parts ensures '&' !in p {
        var i :| 0 <= i < |parts| && parts[i] == p;
        EncodePairLacks(ps[i], '&');
      }
      SplitJoin(parts, "&");
      ParsePiecesEncodePairs(ps);
    } else {
      SplitWhole("", "&");
      assert [""][1..] == [];
      assert ParsePieces([""]) == [];
    }
  }

  lemma {:induction false} EncodeQueryPlain(ps: Params)
    ensures '#' !in EncodeQuery(ps) && '?' !in EncodeQuery(ps)
  {
    if ps != [] {
      EncodePairLacks(ps[0], '#');
      EncodePairLacks(ps[0], '?');
      if |ps| > 1 {
        assert EncodePairs(ps)[1..] == EncodePairs(ps[1..]);
        EncodeQueryPlain(ps[1..]);
      }
    }
  }

  // ---- whole URLs ----

  /** The raw query of a URL: what follows the first '?' before any fragment. */
  function QueryOf(url: string): string {
    var base := match IndexOf(url, "#") case None => url case Some(i) => url[..i];
    match IndexOf(base, "?") case None => "" case Some(i) => base[i + 1..]
  }

  lemma QueryOfGlued(base: string, query: string)
    requires '#' !in base && '?' !in base && '#' !in query
    ensures QueryOf(base + "?" + query) == query
  {
    var url := base + "?" + query;
    assert '#' !in url;
    IndexOfAbsent(url, "#");
    IndexOfSkips(base, "?", query);
    assert url[|base| + 1..] == query;
  }

  /** The redirect back to the client application. */
  function CallbackURL(redirectURI: string, code: GoString, state: GoString): string {
    redirectURI + "?code=" + Escape(code) + "&state=" + Escape(state)
  }

  lemma {:induction false} EscapePlain(s: GoString)
    requires forall i :: 0 <= i < |s| ==> IsUnreserved(s[i])
    ensures Escape(s) == s
  {
    if s != "" {
      EscapePlain(s[1..]);
      assert s == [s[0]] + s[1..];
    }
  }

  lemma EncodeTwo(p: (GoString, GoString), q: (GoString, GoString))
    ensures EncodeQuery([p, q]) == EncodePair(p) + "&" + EncodePair(q)
  {
    var parts := EncodePairs([p, q]);
    assert parts == [EncodePair(p), EncodePair(q)];
    assert parts[1..] == [EncodePair(q)];
    assert Join(parts[1..], "&") == EncodePair(q);
  }

  lemma Regroup(uri: string, c: string, t: string)
    ensures uri + "?code=" + c + "&state=" + t == uri + "?" + ("code" + "=" + c + "&" + ("state" + "=" + t))
  {
    assert "?code=" == "?" + ("code" + "=") && "&state=" == "&" + ("state" + "=");
  }

  lemma CallbackIsEncoded(redirectURI: string, code: GoString, state: GoString)
    ensures CallbackURL(redirectURI, code, state)
         == redirectURI + "?" + EncodeQuery([("code", code), ("state", state)])
  {
    EscapePlain("code");
    EscapePlain("state");
    EncodeTwo(("code", code), ("state", state));
    Regroup(redirectURI, Escape(code), Escape(state));
  }

  /** A client whose registered URI has no query and no fragment reads back exactly the code
      that was minted and exactly the state it sent, whatever bytes the state holds. */
  lemma CallbackRoundTrip(redirectURI: string, code: GoString, state: GoString)
    requires '?' !in redirectURI && '#' !in redirectURI
    ensures ParseQuery(QueryOf(CallbackURL(redirectURI, code, state))) == [("code", code), ("state", state)]
  {
    var ps := [("code", code), ("state", state)];
    CallbackIsEncoded(redirectURI, code, state);
    EncodeQueryPlain(ps);
    QueryOfGlued(redirectURI, EncodeQuery(ps));
    ParseEncodeQuery(ps);
  }

  // ---- the written form ----

  lemma {:induction false} EscapeAppend(s: GoString, t: GoString)
    ensures IsBytes(s + t) && Escape(s + t) == Escape(s) + Escape(t)
  {
    hide Escape, EscapeByte;
    if s == "" {
      assert s + t == t;
      EscapeNothing();
    } else {
      assert (s + t)[0] == s[0] && (s + t)[1..] == s[1..] + t;
      EscapeAppend(s[1..], t);
      EscapeStep(s);
      EscapeStep(s + t);
      assert EscapeByte(s[0]) + (Escape(s[1..]) + Escape(t)) == Escape(s) + Escape(t);
    }
  }

  lemma EscapeNothing()
    ensures Escape("") == ""
  {
  }

  lemma EscapeStep(s: GoString)
    requires s != ""
    ensures Escape(s) == EscapeByte(s[0]) + Escape(s[1..])
  {
  }

  /** Letters, digits and four marks stand for themselves, a space becomes '+', and every other byte '%' with
      its two digits, in capitals. */
  lemma EscapeOne(c: char)
    requires c as int < 256
    ensures Escape([c])
         == if 'a' <= c <= 'z' || 'A' <= c <= 'Z' || '0' <= c <= '9' || c in "-_.~" then [c]
            else if c == ' ' then "+"
            else ['%', "0123456789ABCDEF"[c as int / 16], "0123456789ABCDEF"[c as int % 16]]
  {
    assert [c][1..] == "";
    assert Escape([c]) == EscapeByte(c) + "";
  }

  /** A piece that holds a ';' is no parameter. */
  lemma SemicolonIsDropped(piece: string, i: nat)
    requires OccursAt(piece, ";", i)
    ensures ParsePiece(piece) == []
  {
    IndexOfIsFirst(piece, ";", i);
  }

  /** A piece without '=' is a name with an empty value. */
  lemma NameWithoutValue(piece: string)
    requires piece != "" && '=' !in piece && ';' !in piece && Unescape(piece).Some?
    ensures ParsePiece(piece) == [(Unescape(piece).value, "")]
  {
    IndexOfAbsent(piece, "=");
    IndexOfAbsent(piece, ";");
  }
}
