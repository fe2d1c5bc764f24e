/** The parts of Go's strings package the service relies on, and the laws the encodings need. */
module GoStrings {
  import opened Wrappers

  /** A Go string is a sequence of bytes, written here as characters below 256. */
  predicate IsBytes(s: string) {
    forall i :: 0 <= i < |s| ==> s[i] as int < 256
  }

  type GoString = s: string | IsBytes(s)

  /** A map read in Go: a missing key yields the empty string. */
  function Field(m: map<string, string>, key: string): (value: string)
    ensures key !in m ==> value == ""
  {
    if key in m then m[key] else ""
  }

  predicate HasPrefix(s: string, prefix: string) {
    |prefix| <= |s| && s[..|prefix|] == prefix
  }

  function TrimPrefix(s: string, prefix: string): string {
    if HasPrefix(s, prefix) then s[|prefix|..] else s
  }

  /** Position of the first occurrence of sep in s. */
  function IndexOf(s: string, sep: string): (r: Option<nat>)
    ensures r.Some? ==> r.value + |sep| <= |s| && s[r.value..r.value + |sep|] == sep
  {
    if HasPrefix(s, sep) then Some(0)
    else if s == "" then None
    else
      match IndexOf(s[1..], sep)
      case None => None
      case Some(i) =>
        SliceOfTail(s, i, |sep|);
        Some(i + 1)
  }

  lemma SliceOfTail(s: string, i: nat, n: nat)
    requires s != "" && i + n <= |s| - 1
    ensures s[1..][i..i + n] == s[i + 1..i + 1 + n]
  {
  }

  predicate Contains(s: string, sep: string) {
    IndexOf(s, sep).Some?
  }

  function Split(s: string, sep: string): (parts: seq<string>)
    requires sep != ""
    ensures |parts| >= 1
    decreases |s|
  {
    match IndexOf(s, sep)
    case None => [s]
    case Some(i) => [s[..i]] + Split(s[i + |sep|..], sep)
  }

  function Join(parts: seq<string>, sep: string): string {
    if parts == [] then ""
    else if |parts| == 1 then parts[0]
    else parts[0] + sep + Join(parts[1..], sep)
  }

  /** A separator cannot start inside text that lacks its first character. */
  lemma {:induction false} IndexOfSkips(a: string, sep: string, b: string)
    requires sep != "" && sep[0] !in a
    ensures IndexOf(a + sep + b, sep) == Some(|a|)
  {
    if a == "" {
      assert a + sep + b == sep + b;
      assert (sep + b)[..|sep|] == sep;
    } else {
      var s := a + sep + b;
      assert s[0] == a[0] && a[0] in a;
      assert s[1..] == a[1..] + sep + b;
      assert !HasPrefix(s, sep);
      IndexOfSkips(a[1..], sep, b);
    }
  }

  lemma {:induction false} IndexOfAbsent(a: string, sep: string)
    requires sep != "" && sep[0] !in a
    ensures IndexOf(a, sep) == None
  {
    if a != "" {
      assert a[0] in a && !HasPrefix(a, sep);
      IndexOfAbsent(a[1..], sep);
    }
  }

  /** Splitting undoes gluing with a separator whose first character the left part lacks. */
  lemma SplitGlued(a: string, sep: string, b: string)
    requires sep != "" && sep[0] !in a
    ensures Split(a + sep + b, sep) == [a] + Split(b, sep)
  {
    IndexOfSkips(a, sep, b);
    assert (a + sep + b)[..|a|] == a;
    assert (a + sep + b)[|a| + |sep|..] == b;
  }

  lemma SplitWhole(a: string, sep: string)
    requires sep != "" && sep[0] !in a
    ensures Split(a, sep) == [a]
  {
    IndexOfAbsent(a, sep);
  }

  /** strings.Split undoes strings.Join when no part contains the separator's first character. */
  lemma {:induction false} SplitJoin(parts: seq<string>, sep: string)
    requires sep != "" && parts != []
    requires forall p :: p in parts ==> sep[0] !in p
    ensures Split(Join(parts, sep), sep) == parts
  {
    if |parts| == 1 {
      SplitWhole(parts[0], sep);
    } else {
      SplitGlued(parts[0], sep, Join(parts[1..], sep));
      SplitJoin(parts[1..], sep);
    }
  }

  // ---- what searching and splitting mean ----

  /** sep stands at position i of s. */
  predicate OccursAt(s: string, sep: string, i: nat) {
    i + |sep| <= |s| && s[i..i + |sep|] == sep
  }

  /** IndexOf finds the first position at which sep stands, if there is one. */
  lemma {:induction false} IndexOfIsFirst(s: string, sep: string, i: nat)
    ensures IndexOf(s, sep) == Some(i) ==> OccursAt(s, sep, i)
    ensures OccursAt(s, sep, i) ==> IndexOf(s, sep).Some? && IndexOf(s, sep).value <= i
  {
    if i > 0 && s != "" {
      IndexOfIsFirst(s[1..], sep, i - 1);
      if i + |sep| <= |s| {
        SliceOfTail(s, i - 1, |sep|);
      }
    }
  }

  /** The pieces of a split, glued together again, are the text. */
  lemma {:induction false} JoinSplit(s: string, sep: string)
    requires sep != ""
    ensures Join(Split(s, sep), sep) == s
    decreases |s|
  {
    hide IndexOf, Join;
    var found := IndexOf(s, sep);
    if found.Some? {
      var i := found.value;
      var rest := s[i + |sep|..];
      JoinSplit(rest, sep);
      JoinFirst(s[..i], Split(rest, sep), sep);
      assert s == s[..i] + sep + rest;
    } else {
      JoinOne(s, sep);
    }
  }

  lemma JoinFirst(first: string, rest: seq<string>, sep: string)
    requires rest != []
    ensures Join([first] + rest, sep) == first + sep + Join(rest, sep)
  {
    assert ([first] + rest)[1..] == rest;
  }

  lemma JoinOne(word: string, sep: string)
    ensures Join([word], sep) == word
  {
  }
}
