/** What the handlers make of a request, said without their own tests: which authorization requests are
    proper, and which token a call presents. */
module Requests {
  import opened GoStrings
  import opened Decimal
  import opened Jwt
  import opened Protocol

  // ---- authorization requests ----

  /** The required values are there, the client is registered with exactly this redirect URI, and a public
      client sends a challenge of the one supported kind. */
  predicate ProperRequest(cfg: Config, p: AuthParams) {
    && p.redirectURI != "" && p.responseType == "code" && p.scope != "" && p.state != "" && p.nonce != ""
    && p.clientId != "" && p.clientId in cfg.clients
    && cfg.clients[p.clientId].redirectURI == p.redirectURI
    && (cfg.clients[p.clientId].isPublic ==> p.codeChallenge != "" && p.codeChallengeMethod == "S256")
  }

  /** /authorize lets exactly the proper requests through, for the client they name; others get a 400. */
  lemma CheckParamsExactly(cfg: Config, p: AuthParams)
    ensures CheckParams(cfg, p).Accepted? <==> ProperRequest(cfg, p)
    ensures ProperRequest(cfg, p) ==> CheckParams(cfg, p) == Accepted(cfg.clients[p.clientId])
    ensures !ProperRequest(cfg, p) ==> CheckParams(cfg, p).reply.Refused? && CheckParams(cfg, p).reply.status == 400
  {
  }

  // ---- presented tokens ----

  /** "Bearer " stands somewhere in the header. */
  ghost predicate MentionsBearer(header: string) {
    exists i: nat :: OccursAt(header, "Bearer ", i)
  }

  /** The call presents t: as a bearer token, or as its cookie when the header does not mention one. A header
      that mentions "Bearer " later on is taken for a token as a whole. */
  ghost predicate Presents(header: string, cookie: string, t: string) {
    || header == "Bearer " + t
    || (MentionsBearer(header) && !HasPrefix(header, "Bearer ") && header == t)
    || (!MentionsBearer(header) && cookie == t)
  }

  lemma MentionIsFound(header: string)
    ensures Contains(header, "Bearer ") <==> MentionsBearer(header)
    ensures MentionsBearer(header) ==> |header| >= 7
  {
    if Contains(header, "Bearer ") {
      IndexOfIsFirst(header, "Bearer ", IndexOf(header, "Bearer ").value);
    }
    if i: nat :| OccursAt(header, "Bearer ", i) {
      IndexOfIsFirst(header, "Bearer ", i);
    }
  }

  lemma BearerIsTrimmed(header: string, t: string)
    ensures header == "Bearer " + t ==> HasPrefix(header, "Bearer ") && TrimPrefix(header, "Bearer ") == t
    ensures HasPrefix(header, "Bearer ") && TrimPrefix(header, "Bearer ") == t ==> header == "Bearer " + t
    ensures HasPrefix(header, "Bearer ") ==> OccursAt(header, "Bearer ", 0)
  {
    assert header == "Bearer " + t ==> header[..7] == "Bearer " && header[7..] == t;
    assert HasPrefix(header, "Bearer ") ==> header == header[..7] + header[7..] && header[0..7] == header[..7];
  }

  /** The middleware looks at exactly the presented token. */
  lemma PresentedExactly(header: string, cookie: string, t: string)
    ensures PresentedToken(header, cookie) == t <==> Presents(header, cookie, t)
  {
    hide HasPrefix, TrimPrefix, Contains, OccursAt;
    MentionIsFound(header);
    BearerIsTrimmed(header, t);
    NotTrimmed(header);
  }

  lemma NotTrimmed(header: string)
    ensures !HasPrefix(header, "Bearer ") ==> TrimPrefix(header, "Bearer ") == header
  {
  }

  /** Whoever presents a valid access token is authenticated as its subject in its session, and nobody else
      is authenticated at all. */
  lemma AuthenticateExactly(s: State, header: string, cookie: string, t: string)
    requires Presents(header, cookie, t)
    ensures var claims := Validate(s.issued, s.now, t);
            Authenticate(s, header, cookie)
            == if t == "" then Denied(Refused(401, "Missing or invalid credentials"))
               else if claims.Some? && claims.value.tokenType.Access? && ParseInt(claims.value.sub).Some? then
                 Context(ParseInt(claims.value.sub).value, claims.value.sid)
               else Denied(Refused(401, "Invalid or expired token"))
  {
    hide PresentedToken, Presents, Validate, ParseInt;
    PresentedExactly(header, cookie, t);
  }

  /** In particular a bearer token counts whatever the cookie holds, and the cookie counts without one. */
  lemma BearerThenCookie(t: string, cookie: string, header: string)
    ensures Presents("Bearer " + t, cookie, t)
    ensures !MentionsBearer(header) ==> Presents(header, cookie, cookie)
  {
  }
}
