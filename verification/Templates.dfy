/** Mailer/main.go: filling a mail template by one ReplaceAll per key, in Go's unspecified map order. */
module Templates {
  import opened GoStrings

  /** strings.ReplaceAll for a non-empty pattern: left to right, without overlaps. */
  function ReplaceAll(s: string, pattern: string, value: string): string
    requires pattern != ""
    decreases |s|
  {
    if s == "" then ""
    else if HasPrefix(s, pattern) then value + ReplaceAll(s[|pattern|..], pattern, value)
    else [s[0]] + ReplaceAll(s[1..], pattern, value)
  }

  function Pattern(key: string): string {
    "{" + key + "}"
  }

  /** The loop body for each key of order in turn. */
  function ReplaceInOrder(html: string, order: seq<string>, data: map<string, string>): string
    requires forall key :: key in order ==> key in data
  {
    if order == [] then html
    else
      var last := order[|order| - 1];
      ReplaceAll(ReplaceInOrder(html, order[..|order| - 1], data), Pattern(last), data[last])
  }

  /** An order in which a Go map may be ranged over: every key once. */
  ghost predicate IsOrder(order: seq<string>, keys: set<string>) {
    && (forall key :: key in order <==> key in keys)
    && (forall i, j :: 0 <= i < j < |order| ==> order[i] != order[j])
  }

  method PrepareTemplate(templates: map<string, string>, templateName: string, data: map<string, string>)
    returns (html: string, ghost order: seq<string>)
    ensures templateName !in templates ==> html == ""
    ensures templateName in templates ==>
              IsOrder(order, data.Keys) && html == ReplaceInOrder(templates[templateName], order, data)
  {
    order := [];
    if templateName !in templates {
      return "", order;
    }
    html := templates[templateName];
    var rest := data.Keys;
    while rest != {}
      invariant rest <= data.Keys && IsOrder(order, data.Keys - rest)
      invariant html == ReplaceInOrder(templates[templateName], order, data)
      decreases |rest|
    {
      var key :| key in rest;
      html := ReplaceAll(html, Pattern(key), data[key]);
      ghost var longer := order + [key];
      assert longer[..|longer| - 1] == order;
      order := longer;
      rest := rest - {key};
    }
  }

  // ---- templates as literals and placeholders ----

  predicate IsPlain(s: string) {
    '{' !in s && '}' !in s
  }

  datatype Token = Literal(text: string) | Placeholder(key: string) {
    function Text(): string {
      match this
      case Literal(text) => text
      case Placeholder(key) => Pattern(key)
    }

    predicate Plain() {
      match this
      case Literal(text) => IsPlain(text)
      case Placeholder(key) => IsPlain(key)
    }
  }

  function Render(tokens: seq<Token>): string {
    if tokens == [] then "" else tokens[0].Text() + Render(tokens[1..])
  }

  ghost predicate AllPlain(tokens: seq<Token>) {
    forall t :: t in tokens ==> t.Plain()
  }

  function FillToken(t: Token, data: map<string, string>): Token {
    if t.Placeholder? && t.key in data then Literal(data[t.key]) else t
  }

  /** The one simultaneous substitution; unknown placeholders stay. */
  function Fill(tokens: seq<Token>, data: map<string, string>): (filled: seq<Token>)
    ensures |filled| == |tokens|
    ensures forall i :: 0 <= i < |tokens| ==> filled[i] == FillToken(tokens[i], data)
  {
    seq(|tokens|, i requires 0 <= i < |tokens| => FillToken(tokens[i], data))
  }

  // ---- one ReplaceAll is one substitution ----

  /** Text without an opening brace is copied. */
  lemma {:induction false} ReplaceAllSkips(a: string, b: string, pattern: string, value: string)
    requires pattern != "" && pattern[0] == '{' && '{' !in a
    ensures ReplaceAll(a + b, pattern, value) == a + ReplaceAll(b, pattern, value)
  {
    if a == "" {
      assert a + b == b;
    } else {
      assert (a + b)[0] == a[0] && (a + b)[1..] == a[1..] + b;
      ReplaceAllSkips(a[1..], b, pattern, value);
      assert [a[0]] + (a[1..] + ReplaceAll(b, pattern, value)) == a + ReplaceAll(b, pattern, value);
    }
  }

  /** A placeholder starts with the pattern of another key only if it is that key's. */
  lemma PlaceholderMatches(k: string, key: string, rest: string)
    requires IsPlain(k) && IsPlain(key) && HasPrefix(Pattern(k) + rest, Pattern(key))
    ensures k == key
  {
    var s := Pattern(k) + rest;
    var tail := s[|key| + 2..];
    assert s == Pattern(key) + tail;
    assert s[1..] == k + "}" + rest;
    assert s[1..] == key + "}" + tail;
    IndexOfSkips(k, "}", rest);
    IndexOfSkips(key, "}", tail);
    assert (k + "}" + rest)[..|k|] == k && (key + "}" + tail)[..|key|] == key;
  }

  /** The pattern itself is replaced. */
  lemma ReplaceAllHit(pattern: string, rest: string, value: string)
    requires pattern != ""
    ensures ReplaceAll(pattern + rest, pattern, value) == value + ReplaceAll(rest, pattern, value)
  {
    var s := pattern + rest;
    assert s[..|pattern|] == pattern && s[|pattern|..] == rest;
  }

  /** A placeholder with another key is copied. */
  lemma ReplaceAllMiss(k: string, key: string, rest: string, value: string)
    requires IsPlain(k) && IsPlain(key) && k != key
    ensures ReplaceAll(Pattern(k) + rest, Pattern(key), value) == Pattern(k) + ReplaceAll(rest, Pattern(key), value)
  {
    var s, pattern := Pattern(k) + rest, Pattern(key);
    if HasPrefix(s, pattern) { PlaceholderMatches(k, key, rest); }
    ReplaceAllSkips(k + "}", rest, pattern, value);
    hide ReplaceAll, HasPrefix;
    assert s[0] == '{' && s[1..] == (k + "}") + rest;
    OneCharOn(s, pattern, value);
    var r := ReplaceAll(rest, pattern, value);
    assert ['{'] + ((k + "}") + r) == Pattern(k) + r;
  }

  lemma OneCharOn(s: string, pattern: string, value: string)
    requires s != "" && pattern != "" && !HasPrefix(s, pattern)
    ensures ReplaceAll(s, pattern, value) == [s[0]] + ReplaceAll(s[1..], pattern, value)
  {
  }

  lemma ReplaceAllToken(t: Token, rest: string, key: string, value: string)
    requires t.Plain() && IsPlain(key)
    ensures ReplaceAll(t.Text() + rest, Pattern(key), value)
         == FillToken(t, map[key := value]).Text() + ReplaceAll(rest, Pattern(key), value)
  {
    match t
    case Literal(text) => ReplaceAllSkips(text, rest, Pattern(key), value);
    case Placeholder(k) =>
      if k == key {
        ReplaceAllHit(Pattern(key), rest, value);
      } else {
        ReplaceAllMiss(k, key, rest, value);
      }
  }

  lemma {:induction false} ReplaceAllRender(tokens: seq<Token>, key: string, value: string)
    requires AllPlain(tokens) && IsPlain(key)
    ensures ReplaceAll(Render(tokens), Pattern(key), value) == Render(Fill(tokens, map[key := value]))
  {
    if tokens != [] {
      var filled := Fill(tokens, map[key := value]);
      assert filled[1..] == Fill(tokens[1..], map[key := value]);
      assert tokens[0] in tokens;
      ReplaceAllToken(tokens[0], Render(tokens[1..]), key, value);
      ReplaceAllRender(tokens[1..], key, value);
    }
  }

  // ---- when values can complete a placeholder ----

  ghost predicate PlainKeys(data: map<string, string>) {
    forall key :: key in data ==> IsPlain(key)
  }

  /** v ends like the placeholder of b begins: with the brace and x characters of the key. */
  predicate Opens(v: string, b: string, x: nat) {
    x <= |b| && x < |v| && v[|v| - x - 1..] == "{" + b[..x]
  }

  /** v begins like the placeholder of b ends: with y characters of the key and the brace. */
  predicate Closes(v: string, b: string, y: nat) {
    y <= |b| && y < |v| && v[..y + 1] == b[|b| - y..] + "}"
  }

  /** No value of another key holds the placeholder of b, and no two of them, or one twice, can complete it
      from both ends, with literal text for the middle. */
  ghost predicate InertFor(data: map<string, string>, b: string) {
    && (forall a :: a in data && a != b ==> !Contains(data[a], Pattern(b)))
    && (forall left, right, x: nat, y: nat ::
          (left in data && right in data && left != b && right != b
           && Opens(data[left], b, x) && Closes(data[right], b, y)) ==> x + y > |b|)
  }

  /** That holds for every key whose value is not its own placeholder. */
  ghost predicate Inert(data: map<string, string>) {
    forall b :: b in data && data[b] != Pattern(b) ==> InertFor(data, b)
  }

  lemma {:induction false} ContainsAt(s: string, pattern: string, i: nat)
    requires i + |pattern| <= |s| && s[i..i + |pattern|] == pattern
    ensures Contains(s, pattern)
  {
    if i > 0 {
      assert s[1..][i - 1..i - 1 + |pattern|] == pattern;
      ContainsAt(s[1..], pattern, i - 1);
    }
  }

  // ---- one ReplaceAll among values already filled in ----

  /** A token of the template, or the value of a key other than b that has been filled in. */
  ghost predicate Sound(t: Token, data: map<string, string>, b: string) {
    t.Plain() || (t.Literal? && exists a :: a in data && a != b && t.text == data[a])
  }

  ghost predicate AllSound(tokens: seq<Token>, data: map<string, string>, b: string) {
    forall t :: t in tokens ==> Sound(t, data, b)
  }

  /** The end of b's placeholder lies beyond a short head, or in a head that closes it. */
  lemma EndSplits(head: string, rest: string, b: string, x: nat)
    requires IsPlain(b) && x <= |b| && HasPrefix(head + rest, b[x..] + "}")
    ensures head != "" ==> head[0] != '{'
    ensures |head| <= |b| - x ==> HasPrefix(rest, b[x + |head|..] + "}")
    ensures |head| > |b| - x ==> '}' in head && Closes(head, b, |b| - x)
  {
    var text, end := head + rest, b[x..] + "}";
    assert text[..|end|] == end;
    assert end[0] in b || end[0] == '}';
    if |head| <= |b| - x {
      assert end[|head|..] == b[x + |head|..] + "}";
      assert rest[..|end| - |head|] == text[|head|..|end|] == end[|head|..];
    } else {
      assert head[..|end|] == text[..|end|];
      assert head[|b| - x] == end[|b| - x] == '}';
    }
  }

  /** Text that goes on with the end of b's placeholder goes on with a value that closes it. */
  lemma {:induction false} ClosingFound(tokens: seq<Token>, data: map<string, string>, b: string, x: nat)
    returns (right: string, y: nat)
    requires AllSound(tokens, data, b) && IsPlain(b) && x <= |b|
    requires HasPrefix(Render(tokens), b[x..] + "}")
    ensures right in data && right != b && Closes(data[right], b, y) && x + y <= |b|
    decreases |tokens|
  {
    hide HasPrefix, Closes;
    NotEmpty(tokens, b[x..]);
    var t, rest := tokens[0], tokens[1..];
    assert t in tokens;
    EndSplits(t.Text(), Render(rest), b, x);
    if |t.Text()| <= |b| - x {
      right, y := ClosingFound(rest, data, b, x + |t.Text()|);
    } else {
      right :| right in data && right != b && t.Text() == data[right];
      y := |b| - x;
    }
  }

  lemma NotEmpty(tokens: seq<Token>, end: string)
    requires HasPrefix(Render(tokens), end + "}")
    ensures tokens != []
  {
  }

  /** An occurrence that starts in v lies within v, or v opens it and the rest goes on with its end. */
  lemma OccurrenceSplits(v: string, rest: string, b: string, i: nat)
    requires i < |v| && HasPrefix((v + rest)[i..], Pattern(b))
    ensures var x := |v| - i - 1;
            Contains(v, Pattern(b)) || (x <= |b| && Opens(v, b, x) && HasPrefix(rest, b[x..] + "}"))
  {
    hide Contains;
    var pattern, s, x := Pattern(b), (v + rest)[i..], |v| - i - 1;
    assert s == v[i..] + rest;
    if x > |b| {
      assert v[i..i + |pattern|] == s[..|pattern|];
      ContainsAt(v, pattern, i);
    } else {
      var end := b[x..] + "}";
      assert pattern == ("{" + b[..x]) + end;
      PrefixSplits(v[i..], rest, "{" + b[..x], end);
    }
  }

  /** A prefix of two pieces glued together, cut where the pieces meet. */
  lemma PrefixSplits(a: string, rest: string, head: string, end: string)
    requires |a| == |head| && HasPrefix(a + rest, head + end)
    ensures a == head && HasPrefix(rest, end)
  {
    var text, whole := a + rest, head + end;
    assert text[..|whole|] == whole;
    assert a == text[..|a|] == whole[..|a|] == head;
    assert rest[..|end|] == text[|a|..|whole|] == whole[|a|..] == end;
  }

  /** No occurrence of b's placeholder starts inside another key's value. */
  lemma NoOccurrence(left: string, tokens: seq<Token>, data: map<string, string>, b: string, i: nat)
    requires left in data && left != b && IsPlain(b) && InertFor(data, b) && AllSound(tokens, data, b)
    requires i < |data[left]|
    ensures !HasPrefix((data[left] + Render(tokens))[i..], Pattern(b))
  {
    hide HasPrefix, Contains, Opens, Closes, Render, AllSound, Pattern;
    var v := data[left];
    if HasPrefix((v + Render(tokens))[i..], Pattern(b)) {
      OccurrenceSplits(v, Render(tokens), b, i);
      var right, y := ClosingFound(tokens, data, b, |v| - i - 1);
    }
  }

  lemma {:induction false} ReplaceAllSkipsText(a: string, b: string, pattern: string, value: string)
    requires pattern != "" && forall i :: 0 <= i < |a| ==> !HasPrefix((a + b)[i..], pattern)
    ensures ReplaceAll(a + b, pattern, value) == a + ReplaceAll(b, pattern, value)
  {
    if a == "" {
      assert a + b == b;
    } else {
      var s := a + b;
      assert s[0..] == s;
      assert s[0] == a[0] && s[1..] == a[1..] + b;
      forall i | 0 <= i < |a[1..]| ensures !HasPrefix((a[1..] + b)[i..], pattern) {
        assert (a[1..] + b)[i..] == s[i + 1..];
      }
      ReplaceAllSkipsText(a[1..], b, pattern, value);
      assert [a[0]] + (a[1..] + ReplaceAll(b, pattern, value)) == a + ReplaceAll(b, pattern, value);
    }
  }

  lemma {:induction false} ReplaceAllSound(tokens: seq<Token>, data: map<string, string>, b: string)
    requires b in data && IsPlain(b) && InertFor(data, b) && AllSound(tokens, data, b)
    ensures ReplaceAll(Render(tokens), Pattern(b), data[b]) == Render(Fill(tokens, map[b := data[b]]))
  {
    if tokens != [] {
      var t, rest, filled := tokens[0], tokens[1..], Fill(tokens, map[b := data[b]]);
      assert filled[1..] == Fill(rest, map[b := data[b]]);
      assert t in tokens;
      ReplaceAllSound(rest, data, b);
      if t.Plain() {
        ReplaceAllToken(t, Render(rest), b, data[b]);
      } else {
        var left :| left in data && left != b && t.text == data[left];
        forall i | 0 <= i < |t.text| ensures !HasPrefix((t.text + Render(rest))[i..], Pattern(b)) {
          NoOccurrence(left, rest, data, b, i);
        }
        ReplaceAllSkipsText(t.text, Render(rest), Pattern(b), data[b]);
      }
    }
  }

  /** A key that stands for its own placeholder changes nothing. */
  lemma {:induction false} ReplaceByItself(s: string, pattern: string)
    requires pattern != ""
    ensures ReplaceAll(s, pattern, pattern) == s
    decreases |s|
  {
    if s != "" {
      if HasPrefix(s, pattern) {
        ReplaceByItself(s[|pattern|..], pattern);
      } else {
        ReplaceByItself(s[1..], pattern);
      }
    }
  }

  lemma {:induction false} FillByItself(tokens: seq<Token>, b: string)
    ensures Render(Fill(tokens, map[b := Pattern(b)])) == Render(tokens)
  {
    if tokens != [] {
      assert Fill(tokens, map[b := Pattern(b)])[1..] == Fill(tokens[1..], map[b := Pattern(b)]);
      FillByItself(tokens[1..], b);
    }
  }

  // ---- inert data: the loop is the simultaneous substitution, in every order ----

  function Restrict(data: map<string, string>, order: seq<string>): map<string, string> {
    map key | key in data && key in order :: data[key]
  }

  lemma FillIsSound(tokens: seq<Token>, data: map<string, string>, done: seq<string>, b: string)
    requires AllPlain(tokens) && b !in done
    ensures AllSound(Fill(tokens, Restrict(data, done)), data, b)
  {
    var filled := Fill(tokens, Restrict(data, done));
    forall t | t in filled ensures Sound(t, data, b) {
      var i :| 0 <= i < |tokens| && filled[i] == t;
      assert tokens[i] in tokens;
    }
  }

  lemma FillThenFill(tokens: seq<Token>, data: map<string, string>, done: seq<string>, last: string)
    requires last in data && last !in done
    ensures Fill(Fill(tokens, Restrict(data, done)), map[last := data[last]])
         == Fill(tokens, Restrict(data, done + [last]))
  {
  }

  lemma {:induction false} ReplaceInOrderRender(tokens: seq<Token>, order: seq<string>, data: map<string, string>)
    requires AllPlain(tokens) && PlainKeys(data) && Inert(data)
    requires forall key :: key in order ==> key in data
    requires forall i, j :: 0 <= i < j < |order| ==> order[i] != order[j]
    ensures ReplaceInOrder(Render(tokens), order, data) == Render(Fill(tokens, Restrict(data, order)))
  {
    if order == [] {
      assert Restrict(data, order) == map[];
      assert Fill(tokens, map[]) == tokens;
    } else {
      var done, last := order[..|order| - 1], order[|order| - 1];
      assert order == done + [last];
      assert last !in done;
      var filled := Fill(tokens, Restrict(data, done));
      ReplaceInOrderRender(tokens, done, data);
      FillThenFill(tokens, data, done, last);
      if data[last] == Pattern(last) {
        ReplaceByItself(Render(filled), Pattern(last));
        FillByItself(filled, last);
      } else {
        FillIsSound(tokens, data, done, last);
        ReplaceAllSound(filled, data, last);
      }
    }
  }

  // ---- anything else: some template shows the order ----

  /** The loop gives the one simultaneous substitution, in this order, on this template. */
  ghost predicate Fills(tokens: seq<Token>, order: seq<string>, data: map<string, string>) {
    AllPlain(tokens) && IsOrder(order, data.Keys) ==>
      ReplaceInOrder(Render(tokens), order, data) == Render(Fill(tokens, data))
  }

  /** Two orders give the same text on this template. */
  ghost predicate OrdersAgree(tokens: seq<Token>, order: seq<string>, other: seq<string>, data: map<string, string>) {
    AllPlain(tokens) && IsOrder(order, data.Keys) && IsOrder(other, data.Keys) ==>
      ReplaceInOrder(Render(tokens), order, data) == ReplaceInOrder(Render(tokens), other, data)
  }

  lemma {:induction false} ReplaceAllLength(s: string, pattern: string, value: string)
    requires pattern != ""
    ensures |value| >= |pattern| ==> |ReplaceAll(s, pattern, value)| >= |s|
    ensures |value| <= |pattern| ==> |ReplaceAll(s, pattern, value)| <= |s|
    decreases |s|
  {
    if s != "" {
      if HasPrefix(s, pattern) {
        ReplaceAllLength(s[|pattern|..], pattern, value);
      } else {
        ReplaceAllLength(s[1..], pattern, value);
      }
    }
  }

  /** Replacing a text that occurs by another one shows. */
  lemma {:induction false} ReplacingShows(s: string, pattern: string, value: string)
    requires pattern != "" && value != pattern && Contains(s, pattern)
    ensures ReplaceAll(s, pattern, value) != s
    decreases |s|
  {
    var r := ReplaceAll(s, pattern, value);
    if HasPrefix(s, pattern) {
      var rest := s[|pattern|..];
      ReplaceAllLength(rest, pattern, value);
      assert r == value + ReplaceAll(rest, pattern, value);
      if |value| == |pattern| {
        assert r[..|value|] == value && s[..|value|] == pattern;
      }
    } else {
      ReplacingShows(s[1..], pattern, value);
      assert r == [s[0]] + ReplaceAll(s[1..], pattern, value);
      assert r[1..] == ReplaceAll(s[1..], pattern, value);
    }
  }

  lemma {:induction false} NothingToReplace(s: string, pattern: string, value: string)
    requires pattern != "" && !Contains(s, pattern)
    ensures ReplaceAll(s, pattern, value) == s
  {
    if s != "" {
      NothingToReplace(s[1..], pattern, value);
    }
  }

  /** The middle part as literal text completes the placeholder. */
  lemma Completed(left: string, right: string, b: string, x: nat, y: nat)
    requires Opens(left, b, x) && Closes(right, b, y) && x + y <= |b|
    ensures Contains(left + b[x..|b| - y] + right, Pattern(b))
  {
    hide Contains;
    var middle, pattern, i := b[x..|b| - y], Pattern(b), |left| - x - 1;
    var s := left + middle + right;
    assert pattern == ("{" + b[..x]) + middle + (b[|b| - y..] + "}");
    assert s[i..|left|] == left[i..] == "{" + b[..x];
    assert s[|left|..|left| + |middle|] == middle;
    assert s[|left| + |middle|..|left| + |middle| + y + 1] == right[..y + 1];
    assert s[i..i + |pattern|] == s[i..|left|] + middle + s[|left| + |middle|..|left| + |middle| + y + 1];
    ContainsAt(s, pattern, i);
  }

  lemma {:induction false} SomeOrder(keys: set<string>) returns (order: seq<string>)
    ensures IsOrder(order, keys)
    decreases |keys|
  {
    order := [];
    if keys != {} {
      var key :| key in keys;
      var rest := SomeOrder(keys - {key});
      order := rest + [key];
    }
  }

  lemma ReplaceLast(html: string, order: seq<string>, key: string, data: map<string, string>)
    requires key in data && forall k :: k in order ==> k in data
    ensures ReplaceInOrder(html, order + [key], data)
         == ReplaceAll(ReplaceInOrder(html, order, data), Pattern(key), data[key])
  {
    assert (order + [key])[..|order|] == order;
  }

  /** Keys a template does not mention leave it alone. */
  lemma {:induction false} AbsentKeys(tokens: seq<Token>, order: seq<string>, data: map<string, string>)
    requires AllPlain(tokens) && PlainKeys(data)
    requires forall key :: key in order ==> key in data && Placeholder(key) !in tokens
    ensures ReplaceInOrder(Render(tokens), order, data) == Render(tokens)
  {
    if order != [] {
      var before, key := order[..|order| - 1], order[|order| - 1];
      AbsentKeys(tokens, before, data);
      ReplaceAllRender(tokens, key, data[key]);
      assert Fill(tokens, map[key := data[key]]) == tokens;
    }
  }

  /** A template that is one placeholder becomes that key's value, or stays as it is. */
  lemma ReplaceOne(k: string, key: string, value: string)
    requires IsPlain(k) && IsPlain(key)
    ensures ReplaceAll(Pattern(k), Pattern(key), value) == if k == key then value else Pattern(k)
  {
    ReplaceAllToken(Placeholder(k), "", key, value);
    assert Pattern(k) + "" == Pattern(k) && value + "" == value;
  }

  /** A value that holds another key's placeholder is filled in again when that key comes later. */
  lemma HoldingShows(data: map<string, string>, a: string, b: string)
    returns (tokens: seq<Token>, order: seq<string>, other: seq<string>)
    requires PlainKeys(data) && a in data && b in data && a != b
    requires data[b] != Pattern(b) && Contains(data[a], Pattern(b))
    ensures AllPlain(tokens) && IsOrder(order, data.Keys) && IsOrder(other, data.Keys)
    ensures ReplaceInOrder(Render(tokens), other, data) == Render(Fill(tokens, data))
    ensures ReplaceInOrder(Render(tokens), order, data) != Render(Fill(tokens, data))
  {
    hide ReplaceAll, ReplaceInOrder, Contains;
    tokens := [Placeholder(a)];
    var rest := SomeOrder(data.Keys - {a, b});
    order, other := rest + [a] + [b], rest + [b] + [a];
    RenderOne(Placeholder(a));
    RenderOne(Literal(data[a]));
    assert Fill(tokens, data) == [Literal(data[a])];
    ReplaceLast(Pattern(a), rest, a, data);
    ReplaceLast(Pattern(a), rest + [a], b, data);
    ReplaceLast(Pattern(a), rest, b, data);
    ReplaceLast(Pattern(a), rest + [b], a, data);
    AbsentKeys(tokens, rest, data);
    ReplaceOne(a, a, data[a]);
    ReplaceOne(a, b, data[b]);
    ReplacingShows(data[a], Pattern(b), data[b]);
  }

  lemma RenderOne(t: Token)
    ensures Render([t]) == t.Text()
  {
    assert [t][1..] == [];
  }

  lemma RenderThree(t: Token, u: Token, v: Token)
    ensures Render([t, u, v]) == t.Text() + (u.Text() + v.Text())
  {
    assert [t, u, v][1..] == [u, v] && [u, v][1..] == [v];
    RenderOne(v);
  }

  /** What fills the two placeholders around a literal, right before left. */
  function Around(left: string, right: string): seq<string> {
    if left == right then [left] else [right, left]
  }

  /** Filling two placeholders around a literal, when neither value holds the other's placeholder. */
  lemma FillAround(data: map<string, string>, left: string, middle: string, right: string, before: seq<string>)
    requires PlainKeys(data) && left in data && right in data && IsPlain(middle)
    requires left != right ==> !Contains(data[right], Pattern(left))
    requires forall key :: key in before ==> key in data && key != left && key != right
    ensures var tokens := [Placeholder(left), Literal(middle), Placeholder(right)];
            ReplaceInOrder(Render(tokens), before + Around(left, right), data) == data[left] + (middle + data[right])
  {
    hide ReplaceAll, ReplaceInOrder, Contains, Render;
    var tokens := [Placeholder(left), Literal(middle), Placeholder(right)];
    AbsentKeys(tokens, before, data);
    RenderThree(tokens[0], tokens[1], tokens[2]);
    ReplaceAllRender(tokens, right, data[right]);
    ReplaceLast(Render(tokens), before, right, data);
    if left == right {
      assert Fill(tokens, map[right := data[right]]) == [Literal(data[left]), Literal(middle), Literal(data[right])];
      RenderThree(Literal(data[left]), Literal(middle), Literal(data[right]));
    } else {
      assert Fill(tokens, map[right := data[right]]) == [Placeholder(left), Literal(middle), Literal(data[right])];
      RenderThree(Placeholder(left), Literal(middle), Literal(data[right]));
      ReplaceLast(Render(tokens), before + [right], left, data);
      assert before + [right] + [left] == before + Around(left, right);
      ReplaceAllToken(Placeholder(left), middle + data[right], left, data[left]);
      ReplaceAllToken(Literal(middle), data[right], left, data[left]);
      NothingToReplace(data[right], Pattern(left), data[left]);
    }
  }

  /** Two values that complete a placeholder with a literal between them make the order show. */
  lemma CompletingShows(data: map<string, string>, left: string, right: string, b: string, x: nat, y: nat)
    returns (tokens: seq<Token>, order: seq<string>, other: seq<string>)
    requires PlainKeys(data) && left in data && right in data && b in data && left != b && right != b
    requires data[b] != Pattern(b) && Opens(data[left], b, x) && Closes(data[right], b, y) && x + y <= |b|
    requires left != right ==> !Contains(data[right], Pattern(left))
    ensures AllPlain(tokens) && IsOrder(order, data.Keys) && IsOrder(other, data.Keys)
    ensures ReplaceInOrder(Render(tokens), other, data) == Render(Fill(tokens, data))
    ensures ReplaceInOrder(Render(tokens), order, data) != Render(Fill(tokens, data))
  {
    hide ReplaceAll, ReplaceInOrder, Contains, Render, Opens, Closes, Pattern, IsOrder, Fill, Around;
    var middle := b[x..|b| - y];
    tokens := [Placeholder(left), Literal(middle), Placeholder(right)];
    var rest := AroundOrders(data.Keys, left, right, b);
    order, other := rest + Around(left, right) + [b], rest + [b] + Around(left, right);
    FilledAround(data, left, middle, right);
    FillAround(data, left, middle, right, rest);
    FillAround(data, left, middle, right, rest + [b]);
    ReplaceLast(Render(tokens), rest + Around(left, right), b, data);
    CompletedShows(data[left], data[right], b, x, y, data[b]);
  }

  lemma FilledAround(data: map<string, string>, left: string, middle: string, right: string)
    requires left in data && right in data
    ensures var tokens := [Placeholder(left), Literal(middle), Placeholder(right)];
            Render(Fill(tokens, data)) == data[left] + (middle + data[right])
  {
    hide Render;
    var tokens := [Placeholder(left), Literal(middle), Placeholder(right)];
    assert Fill(tokens, data) == [Literal(data[left]), Literal(middle), Literal(data[right])];
    RenderThree(Literal(data[left]), Literal(middle), Literal(data[right]));
  }

  /** Two orders that end with the keys around a literal and with b, either last. */
  lemma AroundOrders(keys: set<string>, left: string, right: string, b: string) returns (rest: seq<string>)
    requires left in keys && right in keys && b in keys && left != b && right != b
    ensures IsOrder(rest + Around(left, right) + [b], keys) && IsOrder(rest + [b] + Around(left, right), keys)
    ensures forall key :: key in rest + Around(left, right) ==> key in keys
    ensures forall key :: key in rest + [b] ==> key in keys && key != left && key != right
  {
    rest := SomeOrder(keys - {left, right, b});
    AppendToOrder(rest, keys - {left, right, b}, Around(left, right), [b], keys);
    AppendToOrder(rest, keys - {left, right, b}, [b], Around(left, right), keys);
  }

  lemma AppendToOrder(rest: seq<string>, others: set<string>, next: seq<string>, last: seq<string>, keys: set<string>)
    requires IsOrder(rest, others)
    requires IsOrder(next + last, keys - others) && others <= keys
    ensures IsOrder(rest + next + last, keys)
  {
    var order, tail := rest + next + last, next + last;
    assert order == rest + tail;
    forall i, j | 0 <= i < j < |order| ensures order[i] != order[j] {
      assert i < |rest| ==> order[i] == rest[i] && rest[i] in rest;
      assert j >= |rest| ==> order[j] == tail[j - |rest|] && tail[j - |rest|] in tail;
    }
  }

  lemma CompletedShows(left: string, right: string, b: string, x: nat, y: nat, value: string)
    requires Opens(left, b, x) && Closes(right, b, y) && x + y <= |b| && value != Pattern(b)
    ensures var text := left + (b[x..|b| - y] + right); ReplaceAll(text, Pattern(b), value) != text
  {
    hide ReplaceAll, Contains, Opens, Closes;
    Completed(left, right, b, x, y);
    assert left + (b[x..|b| - y] + right) == left + b[x..|b| - y] + right;
    ReplacingShows(left + (b[x..|b| - y] + right), Pattern(b), value);
  }

  /** A value that opens a placeholder is no placeholder itself. */
  lemma OpeningIsNoPlaceholder(v: string, b: string, x: nat, k: string)
    requires Opens(v, b, x) && IsPlain(b)
    ensures v != Pattern(k)
  {
    var last := v[|v| - x - 1..];
    assert last[x] == v[|v| - 1];
    assert last == "{" + b[..x];
    assert x > 0 ==> last[x] == b[x - 1] && b[x - 1] in b;
  }

  /** Data that is not inert makes the order show on some template. */
  lemma OrderShows(data: map<string, string>)
    returns (tokens: seq<Token>, order: seq<string>, other: seq<string>)
    requires PlainKeys(data) && !Inert(data)
    ensures AllPlain(tokens) && IsOrder(order, data.Keys) && IsOrder(other, data.Keys)
    ensures ReplaceInOrder(Render(tokens), other, data) == Render(Fill(tokens, data))
    ensures ReplaceInOrder(Render(tokens), order, data) != Render(Fill(tokens, data))
  {
    hide ReplaceInOrder, Render, Contains, Opens, Closes, IsOrder, Pattern;
    if a, b :| a in data && b in data && a != b && data[b] != Pattern(b) && Contains(data[a], Pattern(b)) {
      tokens, order, other := HoldingShows(data, a, b);
    } else {
      var b :| b in data && data[b] != Pattern(b) && !InertFor(data, b);
      var left, right, x: nat, y: nat :|
        left in data && right in data && left != b && right != b
        && Opens(data[left], b, x) && Closes(data[right], b, y) && x + y <= |b|;
      OpeningIsNoPlaceholder(data[left], b, x, left);
      tokens, order, other := CompletingShows(data, left, right, b, x, y);
    }
  }

  // ---- exactly when the order does not matter ----

  /** For inert data, whatever order the map is ranged over in, the mail is the template with all known
      placeholders replaced at once and unknown ones left as they are. */
  lemma InertFills(tokens: seq<Token>, order: seq<string>, data: map<string, string>)
    requires AllPlain(tokens) && PlainKeys(data) && IsOrder(order, data.Keys) && Inert(data)
    ensures ReplaceInOrder(Render(tokens), order, data) == Render(Fill(tokens, data))
  {
    ReplaceInOrderRender(tokens, order, data);
    assert Restrict(data, order) == data;
  }

  /** Values without an opening brace are inert. */
  lemma NoOpeningBraceIsInert(data: map<string, string>)
    requires forall key :: key in data ==> '{' !in data[key]
    ensures Inert(data)
  {
    forall b, a | a in data ensures !Contains(data[a], Pattern(b)) {
      IndexOfAbsent(data[a], Pattern(b));
    }
    forall b, left, x: nat | left in data ensures !Opens(data[left], b, x) {
      if Opens(data[left], b, x) {
        OpeningHasBrace(data[left], b, x);
      }
    }
  }

  lemma OpeningHasBrace(v: string, b: string, x: nat)
    requires Opens(v, b, x)
    ensures '{' in v
  {
    assert v[|v| - x - 1..][0] == '{';
  }

  /** In particular for values without an opening brace. */
  lemma OrderDoesNotMatter(tokens: seq<Token>, order: seq<string>, data: map<string, string>)
    requires AllPlain(tokens) && PlainKeys(data) && IsOrder(order, data.Keys)
    requires forall key :: key in data ==> '{' !in data[key]
    ensures ReplaceInOrder(Render(tokens), order, data) == Render(Fill(tokens, data))
  {
    NoOpeningBraceIsInert(data);
    InertFills(tokens, order, data);
  }

  /** For brace-free keys: every order fills every template with all placeholders at once, and any two
      orders agree on every template, exactly when the data is inert. */
  lemma OrderDoesNotMatterExactly(data: map<string, string>)
    requires PlainKeys(data)
    ensures (forall tokens, order :: Fills(tokens, order, data)) <==> Inert(data)
    ensures (forall tokens, order, other :: OrdersAgree(tokens, order, other, data)) <==> Inert(data)
  {
    hide ReplaceInOrder, Render, Inert, IsOrder;
    if Inert(data) {
      forall tokens, order ensures Fills(tokens, order, data) {
        if AllPlain(tokens) && IsOrder(order, data.Keys) {
          InertFills(tokens, order, data);
        }
      }
      forall tokens, order, other ensures OrdersAgree(tokens, order, other, data) {
        assert Fills(tokens, order, data) && Fills(tokens, other, data);
      }
    } else {
      var tokens, order, other := OrderShows(data);
      assert !Fills(tokens, order, data) && !OrdersAgree(tokens, order, other, data);
    }
  }

  /** The plainest case: a value that is another key's placeholder is filled in again or not, depending on
      which key comes first. */
  lemma OrderMattersForBraces(a: string, b: string, data: map<string, string>)
    requires IsPlain(a) && IsPlain(b) && a != b
    requires data.Keys == {a, b} && data[a] == Pattern(b)
    ensures IsOrder([a, b], data.Keys) && IsOrder([b, a], data.Keys)
    ensures ReplaceInOrder(Pattern(a), [a, b], data) == data[b]
    ensures ReplaceInOrder(Pattern(a), [b, a], data) == Pattern(b)
  {
    hide ReplaceAll, ReplaceInOrder;
    ReplaceInOrderOfTwo(Pattern(a), a, b, data);
    ReplaceInOrderOfTwo(Pattern(a), b, a, data);
    ReplaceOne(a, a, data[a]);
    ReplaceOne(b, b, data[b]);
    ReplaceOne(a, b, data[b]);
  }

  lemma ReplaceInOrderOfTwo(html: string, a: string, b: string, data: map<string, string>)
    requires a in data && b in data
    ensures ReplaceInOrder(html, [a, b], data)
         == ReplaceAll(ReplaceAll(html, Pattern(a), data[a]), Pattern(b), data[b])
  {
    hide ReplaceAll;
    ReplaceLast(html, [], a, data);
    ReplaceLast(html, [a], b, data);
    assert [] + [a] == [a] && [a] + [b] == [a, b];
  }
}
