/** Authorization/authorization.go: the stored password string, its checker, and random tokens. */
module Passwords {
  import opened Wrappers
  import opened GoStrings
  import opened Base64

  const ARGON_KEY_LEN: nat := 32

  /** argon2.IDKey (password, salt, key length), bcrypt.CompareHashAndPassword (hash, password)
      and SHA-256, as functions about which only the output lengths are known. */
  datatype Primitives = Primitives(
    argon2: (string, seq<Byte>, nat) -> seq<Byte>,
    bcrypt: (string, string) -> bool,
    sha256: string -> seq<Byte>)

  ghost predicate RightLengths(p: Primitives) {
    && (forall password, salt, n :: |p.argon2(password, salt, n)| == n)
    && (forall text :: |p.sha256(text)| == 32)
  }

  type Crypto = p: Primitives | RightLengths(p)
    witness Primitives((_: string, _: seq<Byte>, n: nat) => seq(n, _ => 0), (_, _) => false, _ => seq(32, _ => 0))

  /** What GenerateToken and createToken return: the hex form of a SHA-256 digest. */
  predicate IsToken(s: string) {
    |s| == 64 && IsHex(s)
  }

  type Token = s: string | IsToken(s) witness seq(64, _ => '0')

  function Sha256Hex(c: Crypto, text: string): (s: string)
    ensures IsToken(s)
  {
    HexEncode(c.sha256(text))
  }

  predicate IsLegacyHash(encoded: string) {
    HasPrefix(encoded, "$2b$") || HasPrefix(encoded, "$2a$") || HasPrefix(encoded, "$2y$")
  }

  /** The string stored for a password; no salt means the random source failed. */
  function HashPassword(c: Crypto, password: string, salt: Option<seq<Byte>>): Option<string> {
    match salt
    case None => None
    case Some(bytes) =>
      var hash := c.argon2(password, bytes, ARGON_KEY_LEN);
      Some("$argon2id$" + Encode(Std, bytes) + "$" + Encode(Std, hash))
  }

  function CheckPasswordHash(c: Crypto, password: string, encoded: string): bool {
    if IsLegacyHash(encoded) then c.bcrypt(encoded, password)
    else if |encoded| < 10 || !HasPrefix(encoded, "$argon2id$") then false
    else
      var parts := Split(encoded, "$");
      if |parts| != 4 then false
      else
        match (Decode(Std, parts[2]), Decode(Std, parts[3]))
        case (Some(salt), Some(hash)) => c.argon2(password, salt, |hash|) == hash
        case _ => false
  }

  lemma EncodeDollarFree(bytes: seq<Byte>)
    ensures '$' !in Encode(Std, bytes)
  {
    if '$' in Encode(Std, bytes) {
      EncodeAlphabet(Std, bytes, '$');
    }
  }

  lemma ThreeParts(x: string, y: string, z: string, sep: string)
    requires sep != "" && sep[0] !in x && sep[0] !in y && sep[0] !in z
    ensures Split(x + sep + (y + sep + z), sep) == [x, y, z]
  {
    SplitGlued(x, sep, y + sep + z);
    SplitGlued(y, sep, z);
    SplitWhole(z, sep);
  }

  lemma Regroup(x: string, y: string, z: string, sep: string)
    ensures sep + x + sep + y + sep + z == sep + (x + sep + (y + sep + z))
  {
    assert (sep + x + sep + y) + (sep + z) == sep + x + sep + y + sep + z;
    assert (sep + x + sep) + (y + (sep + z)) == (sep + x + sep + y) + (sep + z);
    assert y + (sep + z) == y + sep + z;
    assert (sep + x + sep) + (y + sep + z) == sep + (x + sep + (y + sep + z));
  }

  lemma FourParts(x: string, y: string, z: string, sep: string)
    requires sep != "" && sep[0] !in x && sep[0] !in y && sep[0] !in z
    ensures Split(sep + x + sep + y + sep + z, sep) == ["", x, y, z]
  {
    var rest := x + sep + (y + sep + z);
    calc {
      Split(sep + x + sep + y + sep + z, sep);
      { Regroup(x, y, z, sep); }
      Split(sep + rest, sep);
      { SplitGlued("", sep, rest); assert "" + sep + rest == sep + rest; }
      [""] + Split(rest, sep);
      { ThreeParts(x, y, z, sep); }
      [""] + [x, y, z];
    }
  }

  /** A stored password string always falls apart into exactly four pieces. */
  lemma HashPasswordSplits(c: Crypto, password: string, salt: seq<Byte>)
    ensures Split(HashPassword(c, password, Some(salt)).value, "$")
         == ["", "argon2id", Encode(Std, salt), Encode(Std, c.argon2(password, salt, ARGON_KEY_LEN))]
  {
    var b64Salt := Encode(Std, salt);
    var b64Hash := Encode(Std, c.argon2(password, salt, ARGON_KEY_LEN));
    EncodeDollarFree(salt);
    EncodeDollarFree(c.argon2(password, salt, ARGON_KEY_LEN));
    FourParts("argon2id", b64Salt, b64Hash, "$");
    assert "$argon2id$" == "$" + "argon2id" + "$";
  }

  /** New hashes are recognised as such: never as one of the bcrypt formats. */
  lemma HashPasswordIsModern(c: Crypto, password: string, salt: seq<Byte>)
    ensures var encoded := HashPassword(c, password, Some(salt)).value;
            HasPrefix(encoded, "$argon2id$") && !IsLegacyHash(encoded)
  {
    var encoded := HashPassword(c, password, Some(salt)).value;
    assert encoded[..10] == "$argon2id$";
    assert encoded[..4] == "$arg";
  }

  /** The checker accepts q against the stored form of p exactly when the key derivation
      cannot tell them apart under the stored salt. */
  lemma CheckHashRoundTrip(c: Crypto, p: string, q: string, salt: seq<Byte>)
    ensures CheckPasswordHash(c, q, HashPassword(c, p, Some(salt)).value)
       <==> c.argon2(q, salt, ARGON_KEY_LEN) == c.argon2(p, salt, ARGON_KEY_LEN)
  {
    HashPasswordIsModern(c, p, salt);
    HashPasswordSplits(c, p, salt);
    DecodeEncode(Std, salt);
    DecodeEncode(Std, c.argon2(p, salt, ARGON_KEY_LEN));
  }

  /** The empty string, which a failed hash leaves behind, accepts no password at all. */
  lemma EmptyHashRejects(c: Crypto, q: string)
    ensures !CheckPasswordHash(c, q, "")
  {
  }

  // ---- proof key for code exchange (section 4.6 of RFC 7636) ----

  /** The S256 transformation of a code verifier. */
  function S256(c: Crypto, verifier: string): (challenge: string)
    ensures |challenge| == 43
  {
    Encode(Url, c.sha256(verifier))
  }

  /** Section 4.2 of RFC 7636: the challenge of a verifier is the unpadded text, in letters, digits, '-' and
      '_', that decodes to the verifier's digest. */
  predicate IsChallengeOf(c: Crypto, verifier: string, challenge: string) {
    && |challenge| == 43
    && (forall i :: 0 <= i < |challenge| ==> IsUrlSafe(challenge[i]))
    && Decode(Url, challenge) == Some(c.sha256(verifier))
    && UrlValue(challenge[42]) % 4 == 0
  }

  predicate IsUrlSafe(c: char) {
    'A' <= c <= 'Z' || 'a' <= c <= 'z' || '0' <= c <= '9' || c == '-' || c == '_'
  }

  function UrlValue(c: char): int {
    SextetOf(Url, c).GetOr(0)
  }

  lemma S256Exactly(c: Crypto, verifier: string, challenge: string)
    ensures S256(c, verifier) == challenge <==> IsChallengeOf(c, verifier, challenge)
  {
    hide Decode, Encode;
    EncodeExactly(Url, challenge, c.sha256(verifier));
    assert |S256(c, verifier)| == 43;
    forall ch ensures SextetOf(Url, ch).Some? <==> IsUrlSafe(ch) {}
  }

  // ---- which passwords a stored hash accepts ----

  /** The three prefixes of the old format. */
  predicate IsBcrypt(hash: string) {
    |hash| >= 4 && (hash[..4] == "$2a$" || hash[..4] == "$2b$" || hash[..4] == "$2y$")
  }

  /** "", "argon2id", a salt and a key that argon2 derives from the password with that salt. */
  predicate ArgonAccepts(c: Crypto, password: string, hash: string) {
    var parts := Split(hash, "$");
    && |parts| == 4 && parts[0] == "" && parts[1] == "argon2id"
    && Decode(Std, parts[2]).Some? && Decode(Std, parts[3]).Some?
    && var (salt, key) := (Decode(Std, parts[2]).value, Decode(Std, parts[3]).value);
       c.argon2(password, salt, |key|) == key
  }

  predicate Accepts(c: Crypto, password: string, hash: string) {
    if IsBcrypt(hash) then c.bcrypt(hash, password) else ArgonAccepts(c, password, hash)
  }

  lemma LegacyIsBcrypt(hash: string)
    ensures IsLegacyHash(hash) <==> IsBcrypt(hash)
  {
  }

  lemma ArgonPrefixSplits(rest: string)
    ensures Split("$argon2id$" + rest, "$") == ["", "argon2id"] + Split(rest, "$")
  {
    hide Split;
    assert "$argon2id$" + rest == "" + "$" + ("argon2id" + "$" + rest);
    SplitGlued("", "$", "argon2id" + "$" + rest);
    SplitGlued("argon2id", "$", rest);
    assert [""] + (["argon2id"] + Split(rest, "$")) == ["", "argon2id"] + Split(rest, "$");
  }

  lemma JoinStep(parts: seq<string>, sep: string)
    requires |parts| >= 2
    ensures Join(parts, sep) == parts[0] + sep + Join(parts[1..], sep)
  {
  }

  lemma ArgonPrefix(hash: string)
    ensures var parts := Split(hash, "$");
            |parts| == 4 ==> (HasPrefix(hash, "$argon2id$") <==> parts[0] == "" && parts[1] == "argon2id")
  {
    hide Split, Join;
    var parts := Split(hash, "$");
    if |parts| == 4 {
      JoinSplit(hash, "$");
      JoinStep(parts, "$");
      JoinStep(parts[1..], "$");
      var rest := Join(parts[1..][1..], "$");
      assert hash == parts[0] + "$" + (parts[1] + "$" + rest);
      if parts[0] == "" && parts[1] == "argon2id" {
        assert hash == "$argon2id$" + rest;
      }
      if HasPrefix(hash, "$argon2id$") {
        assert hash == "$argon2id$" + hash[10..];
        ArgonPrefixSplits(hash[10..]);
      }
    }
  }

  /** The checker accepts a bcrypt hash exactly when bcrypt does, and anything else exactly when it is an
      argon2id string of four parts whose key the password derives. */
  lemma CheckPasswordExactly(c: Crypto, password: string, hash: string)
    ensures CheckPasswordHash(c, password, hash) <==> Accepts(c, password, hash)
  {
    hide Split, Decode;
    LegacyIsBcrypt(hash);
    ArgonPrefix(hash);
  }

  /** The printed digest reads back as the digest. */
  lemma DigestReadsBack(c: Crypto, text: string)
    ensures HexDecode(Sha256Hex(c, text)) == Some(c.sha256(text))
  {
    HexDecodeEncode(c.sha256(text));
  }
}
