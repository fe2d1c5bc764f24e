/** Hexadecimal and unpadded base64 (sections 4 and 5 of RFC 4648, padding omitted as in section 3.2). */
module Base64 {
  import opened Wrappers

  type Byte = b: int | 0 <= b < 256

  // ---- hexadecimal ----

  function HexDigit(d: int): (c: char)
    requires 0 <= d < 16
    ensures '0' <= c <= '9' || 'a' <= c <= 'f'
  {
    if d < 10 then (d + '0' as int) as char else (d - 10 + 'a' as int) as char
  }

  predicate IsHex(s: string) {
    forall i :: 0 <= i < |s| ==> '0' <= s[i] <= '9' || 'a' <= s[i] <= 'f'
  }

  /** encoding/hex.EncodeToString. */
  function HexEncode(bytes: seq<Byte>): (s: string)
    ensures |s| == 2 * |bytes| && IsHex(s)
  {
    if bytes == [] then ""
    else [HexDigit(bytes[0] / 16), HexDigit(bytes[0] % 16)] + HexEncode(bytes[1..])
  }

  // ---- base64 ----

  /** The two characters in which the standard and the URL-safe alphabets differ. */
  datatype Alphabet = Std | Url {
    function Char62(): char { if Std? then '+' else '-' }
    function Char63(): char { if Std? then '/' else '_' }
  }

  type Sextet = v: int | 0 <= v < 64

  function Symbol(a: Alphabet, v: Sextet): char {
    if v < 26 then (v + 'A' as int) as char
    else if v < 52 then (v - 26 + 'a' as int) as char
    else if v < 62 then (v - 52 + '0' as int) as char
    else if v == 62 then a.Char62()
    else a.Char63()
  }

  function SextetOf(a: Alphabet, c: char): Option<Sextet> {
    if 'A' <= c <= 'Z' then Some(c as int - 'A' as int)
    else if 'a' <= c <= 'z' then Some(c as int - 'a' as int + 26)
    else if '0' <= c <= '9' then Some(c as int - '0' as int + 52)
    else if c == a.Char62() then Some(62)
    else if c == a.Char63() then Some(63)
    else None
  }

  lemma SextetOfSymbol(a: Alphabet, v: Sextet)
    ensures SextetOf(a, Symbol(a, v)) == Some(v)
  {
  }

  /** Regroups bytes into six-bit values; a short final group is filled with zero bits. */
  function Sextets(b: seq<Byte>): (vs: seq<Sextet>)
    ensures |vs| == 4 * (|b| / 3) + (if |b| % 3 == 0 then 0 else |b| % 3 + 1)
  {
    if |b| == 0 then []
    else if |b| == 1 then [b[0] / 4, b[0] % 4 * 16]
    else if |b| == 2 then [b[0] / 4, b[0] % 4 * 16 + b[1] / 16, b[1] % 16 * 4]
    else [b[0] / 4, b[0] % 4 * 16 + b[1] / 16, b[1] % 16 * 4 + b[2] / 64, b[2] % 64] + Sextets(b[3..])
  }

  /** The three bytes that four sextets spell. */
  function Byte0(v0: Sextet, v1: Sextet): Byte { v0 * 4 + v1 / 16 }
  function Byte1(v1: Sextet, v2: Sextet): Byte { v1 % 16 * 16 + v2 / 4 }
  function Byte2(v2: Sextet, v3: Sextet): Byte { v2 % 4 * 64 + v3 }

  /** The decoder's regrouping: a lone final sextet is an error, left-over bits are dropped. */
  function Bytes(vs: seq<Sextet>): Option<seq<Byte>> {
    if |vs| == 0 then Some([])
    else if |vs| == 1 then None
    else if |vs| == 2 then Some([Byte0(vs[0], vs[1])])
    else if |vs| == 3 then Some([Byte0(vs[0], vs[1]), Byte1(vs[1], vs[2])])
    else
      match Bytes(vs[4..])
      case None => None
      case Some(rest) =>
        Some([Byte0(vs[0], vs[1]), Byte1(vs[1], vs[2]), Byte2(vs[2], vs[3])] + rest)
  }

  function Symbols(a: Alphabet, vs: seq<Sextet>): (s: string)
    ensures |s| == |vs|
    ensures forall i :: 0 <= i < |s| ==> s[i] == Symbol(a, vs[i])
  {
    seq(|vs|, i requires 0 <= i < |vs| => Symbol(a, vs[i]))
  }

  /** RawStdEncoding.EncodeToString and RawURLEncoding.EncodeToString. */
  function Encode(a: Alphabet, b: seq<Byte>): string {
    Symbols(a, Sextets(b))
  }

  /** Reads symbols; line breaks are skipped as Go's decoder does, any other foreign character is an error. */
  function ReadSymbols(a: Alphabet, s: string): Option<seq<Sextet>> {
    if s == "" then Some([])
    else if s[0] == '\r' || s[0] == '\n' then ReadSymbols(a, s[1..])
    else
      match (SextetOf(a, s[0]), ReadSymbols(a, s[1..]))
      case (Some(v), Some(vs)) => Some([v] + vs)
      case _ => None
  }

  function Decode(a: Alphabet, s: string): Option<seq<Byte>> {
    match ReadSymbols(a, s)
    case None => None
    case Some(vs) => Bytes(vs)
  }

  lemma {:induction false} BytesOfSextets(b: seq<Byte>)
    ensures Bytes(Sextets(b)) == Some(b)
  {
    if |b| >= 3 {
      BytesOfSextets(b[3..]);
      var vs := Sextets(b);
      assert vs[4..] == Sextets(b[3..]);
      assert Byte0(vs[0], vs[1]) == b[0] && Byte1(vs[1], vs[2]) == b[1] && Byte2(vs[2], vs[3]) == b[2];
      assert b == [b[0], b[1], b[2]] + b[3..];
    } else if |b| == 2 {
      var vs := Sextets(b);
      assert Byte0(vs[0], vs[1]) == b[0] && Byte1(vs[1], vs[2]) == b[1];
      assert b == [b[0], b[1]];
    } else if |b| == 1 {
      assert Byte0(Sextets(b)[0], Sextets(b)[1]) == b[0];
      assert b == [b[0]];
    }
  }

  lemma {:induction false} ReadSymbolsOfSymbols(a: Alphabet, vs: seq<Sextet>)
    ensures ReadSymbols(a, Symbols(a, vs)) == Some(vs)
  {
    if vs != [] {
      var s := Symbols(a, vs);
      SextetOfSymbol(a, vs[0]);
      assert s[1..] == Symbols(a, vs[1..]);
      ReadSymbolsOfSymbols(a, vs[1..]);
      assert vs == [vs[0]] + vs[1..];
    }
  }

  /** Decoding undoes encoding for every byte string in either alphabet. */
  lemma DecodeEncode(a: Alphabet, b: seq<Byte>)
    ensures Decode(a, Encode(a, b)) == Some(b)
  {
    ReadSymbolsOfSymbols(a, Sextets(b));
    BytesOfSextets(b);
  }

  /** Encodings stay inside the alphabet; in particular they contain no '$', no ':' and no '='. */
  lemma EncodeAlphabet(a: Alphabet, b: seq<Byte>, c: char)
    requires c in Encode(a, b)
    ensures SextetOf(a, c).Some?
  {
    var s := Encode(a, b);
    var i :| 0 <= i < |s| && s[i] == c;
    SextetOfSymbol(a, Sextets(b)[i]);
  }

  // ---- the encoded form is the only one ----

  lemma SymbolOfSextet(a: Alphabet, c: char)
    requires SextetOf(a, c).Some?
    ensures Symbol(a, SextetOf(a, c).value) == c
  {
  }

  predicate InAlphabet(a: Alphabet, s: string) {
    forall i :: 0 <= i < |s| ==> SextetOf(a, s[i]).Some?
  }

  lemma {:induction false} SymbolsOfRead(a: Alphabet, s: string)
    requires InAlphabet(a, s)
    ensures ReadSymbols(a, s).Some? && |ReadSymbols(a, s).value| == |s|
    ensures Symbols(a, ReadSymbols(a, s).value) == s
    ensures s != "" ==> Some(ReadSymbols(a, s).value[|s| - 1]) == SextetOf(a, s[|s| - 1])
  {
    if s != "" {
      SymbolsOfRead(a, s[1..]);
      SymbolOfSextet(a, s[0]);
      assert InAlphabet(a, s[1..]);
      var vs := ReadSymbols(a, s).value;
      assert vs == [vs[0]] + ReadSymbols(a, s[1..]).value;
    }
  }

  /** The bits of a short final group that carry no data are zero. */
  predicate ZeroPadded(vs: seq<Sextet>) {
    && (|vs| % 4 == 2 ==> vs[|vs| - 1] % 16 == 0)
    && (|vs| % 4 == 3 ==> vs[|vs| - 1] % 4 == 0)
  }

  lemma {:induction false} SextetsOfBytes(vs: seq<Sextet>)
    requires Bytes(vs).Some? && ZeroPadded(vs)
    ensures Sextets(Bytes(vs).value) == vs
  {
    hide Byte0, Byte1, Byte2;
    if |vs| >= 4 {
      var quad := [Byte0(vs[0], vs[1]), Byte1(vs[1], vs[2]), Byte2(vs[2], vs[3])];
      var rest := Bytes(vs[4..]).value;
      SextetsOfBytes(vs[4..]);
      assert Bytes(vs).value == quad + rest;
      SextetsSplit(quad, rest);
      QuadOfBytes(vs[0], vs[1], vs[2], vs[3]);
      assert vs == [vs[0], vs[1], vs[2], vs[3]] + vs[4..];
    } else if |vs| == 3 {
      TripleOfBytes(vs[0], vs[1], vs[2]);
      assert vs == [vs[0], vs[1], vs[2]];
    } else if |vs| == 2 {
      PairOfBytes(vs[0], vs[1]);
      assert vs == [vs[0], vs[1]];
    }
  }

  lemma SextetsSplit(three: seq<Byte>, rest: seq<Byte>)
    requires |three| == 3
    ensures Sextets(three + rest) == Sextets(three) + Sextets(rest)
  {
    assert (three + rest)[3..] == rest && three[3..] == [];
    assert Sextets(three)[..4] + Sextets(rest) == Sextets(three + rest);
  }

  lemma QuadOfBytes(v0: Sextet, v1: Sextet, v2: Sextet, v3: Sextet)
    ensures Sextets([Byte0(v0, v1), Byte1(v1, v2), Byte2(v2, v3)]) == [v0, v1, v2, v3]
  {
    var b := [Byte0(v0, v1), Byte1(v1, v2), Byte2(v2, v3)];
    assert b[3..] == [];
    assert b[0] / 4 == v0 && b[0] % 4 * 16 + b[1] / 16 == v1;
    assert b[1] % 16 * 4 + b[2] / 64 == v2 && b[2] % 64 == v3;
  }

  lemma TripleOfBytes(v0: Sextet, v1: Sextet, v2: Sextet)
    requires v2 % 4 == 0
    ensures Sextets([Byte0(v0, v1), Byte1(v1, v2)]) == [v0, v1, v2]
  {
    hide Sextets, Byte0, Byte1;
    SextetsOfTwo(Byte0(v0, v1), Byte1(v1, v2));
    ByteParts(v0, v1, v2);
  }

  lemma PairOfBytes(v0: Sextet, v1: Sextet)
    requires v1 % 16 == 0
    ensures Sextets([Byte0(v0, v1)]) == [v0, v1]
  {
    hide Sextets, Byte0, Byte1;
    SextetsOfOne(Byte0(v0, v1));
    ByteParts(v0, v1, 0);
  }

  lemma SextetsOfOne(b: Byte)
    ensures Sextets([b]) == [b / 4, b % 4 * 16]
  {
  }

  lemma SextetsOfTwo(b: Byte, c: Byte)
    ensures Sextets([b, c]) == [b / 4, b % 4 * 16 + c / 16, c % 16 * 4]
  {
  }

  /** Where the bits of two bytes went. */
  lemma ByteParts(v0: Sextet, v1: Sextet, v2: Sextet)
    ensures Byte0(v0, v1) / 4 == v0 && Byte0(v0, v1) % 4 == v1 / 16
    ensures Byte1(v1, v2) / 16 == v1 % 16 && Byte1(v1, v2) % 16 == v2 / 4
    ensures v1 == 16 * (v1 / 16) + v1 % 16 && v2 == 4 * (v2 / 4) + v2 % 4
  {
    var high, low, top := v1 / 16, v1 % 16, v2 / 4;
    assert v1 == 16 * high + low;
    assert (4 * v0 + high) / 4 == v0 && (16 * low + top) / 16 == low;
  }

  /** s is the encoded form of b: text in the alphabet that decodes to b, with nothing in the unused bits. */
  predicate Encodes(a: Alphabet, s: string, b: seq<Byte>) {
    && InAlphabet(a, s) && Decode(a, s) == Some(b)
    && (|s| % 4 == 2 ==> SextetOf(a, s[|s| - 1]).value % 16 == 0)
    && (|s| % 4 == 3 ==> SextetOf(a, s[|s| - 1]).value % 4 == 0)
  }

  lemma {:induction false} SextetsZeroPadded(b: seq<Byte>)
    ensures ZeroPadded(Sextets(b))
  {
    if |b| >= 3 {
      hide Sextets;
      SextetsZeroPadded(b[3..]);
      SextetsSplit(b[..3], b[3..]);
      assert b == b[..3] + b[3..];
      var first, rest := Sextets(b[..3]), Sextets(b[3..]);
      assert |first| == 4;
      PaddedRest(first, rest);
    } else if |b| == 2 {
      SextetsOfTwo(b[0], b[1]);
      assert b == [b[0], b[1]];
    } else if |b| == 1 {
      SextetsOfOne(b[0]);
      assert b == [b[0]];
    }
  }

  lemma PaddedRest(first: seq<Sextet>, rest: seq<Sextet>)
    requires |first| == 4 && ZeroPadded(rest)
    ensures ZeroPadded(first + rest)
  {
    assert |first + rest| % 4 == |rest| % 4;
    assert |rest| > 0 ==> (first + rest)[|first + rest| - 1] == rest[|rest| - 1];
  }

  lemma EncodeExactly(a: Alphabet, s: string, b: seq<Byte>)
    ensures s == Encode(a, b) <==> Encodes(a, s, b)
  {
    if s == Encode(a, b) {
      DecodeEncode(a, b);
      SextetsZeroPadded(b);
      forall i | 0 <= i < |s| ensures SextetOf(a, s[i]) == Some(Sextets(b)[i]) {
        SextetOfSymbol(a, Sextets(b)[i]);
      }
    }
    if Encodes(a, s, b) {
      SymbolsOfRead(a, s);
      SextetsOfBytes(ReadSymbols(a, s).value);
    }
  }

  // ---- hexadecimal, read back ----

  function HexValue(c: char): Option<int> {
    if '0' <= c <= '9' then Some(c as int - '0' as int)
    else if 'a' <= c <= 'f' then Some(c as int - 'a' as int + 10)
    else None
  }

  function HexDecode(s: string): Option<seq<Byte>> {
    if s == "" then Some([])
    else if |s| == 1 then None
    else
      match (HexValue(s[0]), HexValue(s[1]), HexDecode(s[2..]))
      case (Some(hi), Some(lo), Some(rest)) =>
        if 0 <= hi < 16 && 0 <= lo < 16 then Some([16 * hi + lo] + rest) else None
      case _ => None
  }

  lemma HexPair(b: Byte)
    ensures HexValue(HexDigit(b / 16)) == Some(b / 16) && HexValue(HexDigit(b % 16)) == Some(b % 16)
  {
  }

  lemma {:induction false} HexDecodeEncode(bytes: seq<Byte>)
    ensures HexDecode(HexEncode(bytes)) == Some(bytes)
  {
    hide HexDigit, HexValue;
    if bytes != [] {
      HexDecodeEncode(bytes[1..]);
      HexPair(bytes[0]);
      var s := HexEncode(bytes);
      assert s == [HexDigit(bytes[0] / 16), HexDigit(bytes[0] % 16)] + HexEncode(bytes[1..]);
      assert s[2..] == HexEncode(bytes[1..]);
      assert bytes == [bytes[0]] + bytes[1..];
    }
  }

  /** Line breaks inside encoded text make no difference to the decoder. */
  lemma {:induction false} LineBreaksSkipped(a: Alphabet, before: string, after: string, c: char)
    requires c == '\r' || c == '\n'
    ensures ReadSymbols(a, before + [c] + after) == ReadSymbols(a, before + after)
  {
    if before == "" {
      assert before + [c] + after == [c] + after && before + after == after;
    } else {
      assert (before + [c] + after)[1..] == before[1..] + [c] + after;
      assert (before + after)[1..] == before[1..] + after;
      LineBreaksSkipped(a, before[1..], after, c);
    }
  }
}
