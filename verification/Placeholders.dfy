/** Templates: `replaceAll` with a table of placeholders, one placeholder after another, against the template
    cut into literals and holes and filled at once. */
module Placeholders {
  import opened Text

  /** `String.replaceAll` with a text to look for; the value holds no `$`, so it stands for itself. */
  function ReplaceAll(s: string, key: string, value: string): string
    requires key != ""
    decreases |s|
  {
    if |s| < |key| then s
    else if StartsWith(s, key) then value + ReplaceAll(s[|key|..], key, value)
    else [s[0]] + ReplaceAll(s[1..], key, value)
  }

  /** `String.replace` with a text to look for: its first occurrence only. */
  function ReplaceFirst(s: string, key: string, value: string): string
    requires key != ""
    decreases |s|
  {
    if |s| < |key| then s
    else if StartsWith(s, key) then value + s[|key|..]
    else [s[0]] + ReplaceFirst(s[1..], key, value)
  }

  // ----- tables -----

  /** A placeholder: capitals and underscores, with two underscores at both ends. */
  ghost predicate IsKey(key: string) {
    && |key| >= 2 && key[0] == key[1] == '_' && key[|key| - 2] == key[|key| - 1] == '_'
    && forall i :: 0 <= i < |key| ==> key[i] == '_' || 'A' <= key[i] <= 'Z'
  }

  predicate NoDouble(v: string) {
    forall i :: 0 <= i < |v| - 1 ==> v[i] != '_' || v[i + 1] != '_'
  }

  /** A value in which no placeholder starts, ends, or lies around it. */
  ghost predicate Inert(v: string) {
    && v != "" && v[0] != '_' && v[|v| - 1] != '_' && NoDouble(v)
    && exists i :: 0 <= i < |v| && v[i] != '_' && !('A' <= v[i] <= 'Z')
  }

  datatype Table = Table(keys: seq<string>, values: seq<string>)

  ghost predicate Proper(t: Table) {
    && |t.keys| == |t.values|
    && (forall k :: 0 <= k < |t.keys| ==> IsKey(t.keys[k]))
    && (forall k :: 0 <= k < |t.values| ==> Inert(t.values[k]))
  }

  /** The first `n` placeholders of the table replaced, in order. */
  function Replaced(source: string, t: Table, n: nat): string
    requires n <= |t.keys| == |t.values| && forall k :: 0 <= k < |t.keys| ==> t.keys[k] != ""
  {
    if n == 0 then source else ReplaceAll(Replaced(source, t, n - 1), t.keys[n - 1], t.values[n - 1])
  }

  /** `replaceAll` of the script: one placeholder of the table after another. */
  method ReplaceEach(source: string, t: Table) returns (rendered: string)
    requires |t.keys| == |t.values| && forall k :: 0 <= k < |t.keys| ==> t.keys[k] != ""
    ensures rendered == Replaced(source, t, |t.keys|)
  {
    rendered := source;
    for i := 0 to |t.keys|
      invariant rendered == Replaced(source, t, i)
    {
      rendered := ReplaceAll(rendered, t.keys[i], t.values[i]);
    }
  }

  // ----- literals and holes -----

  datatype Template = Tail(text: string) | Hole(text: string, place: nat, rest: Template)

  predicate Fits(t: Template, n: nat) {
    t.Hole? ==> t.place < n && Fits(t.rest, n)
  }

  function Fill(t: Template, values: seq<string>): string
    requires Fits(t, |values|)
  {
    match t
    case Tail(text) => text
    case Hole(text, k, rest) => text + values[k] + Fill(rest, values)
  }

  function Prepend(c: char, t: Template): Template {
    match t
    case Tail(text) => Tail([c] + text)
    case Hole(text, k, rest) => Hole([c] + text, k, rest)
  }

  /** A literal cut at one placeholder. */
  function Cut(s: string, k: nat, key: string): Template
    requires key != ""
    decreases |s|
  {
    if |s| < |key| then Tail(s)
    else if StartsWith(s, key) then Hole("", k, Cut(s[|key|..], k, key))
    else Prepend(s[0], Cut(s[1..], k, key))
  }

  /** One template, a hole, and another template. */
  function Around(t: Template, k: nat, rest: Template): Template {
    match t
    case Tail(text) => Hole(text, k, rest)
    case Hole(text, j, next) => Hole(text, j, Around(next, k, rest))
  }

  function CutLiterals(t: Template, k: nat, key: string): Template
    requires key != ""
  {
    match t
    case Tail(text) => Cut(text, k, key)
    case Hole(text, j, rest) => Around(Cut(text, k, key), j, CutLiterals(rest, k, key))
  }

  /** A source cut at the first `n` placeholders: it does not depend on their values. */
  function Parsed(source: string, keys: seq<string>, n: nat): Template
    requires n <= |keys| && forall k :: 0 <= k < |keys| ==> keys[k] != ""
  {
    if n == 0 then Tail(source) else CutLiterals(Parsed(source, keys, n - 1), n - 1, keys[n - 1])
  }

  // ----- filling undoes cutting -----

  lemma {:induction false} CutFits(s: string, k: nat, key: string, n: nat)
    requires key != "" && k < n
    ensures Fits(Cut(s, k, key), n)
    decreases |s|
  {
    if |s| >= |key| {
      if StartsWith(s, key) {
        CutFits(s[|key|..], k, key, n);
      } else {
        CutFits(s[1..], k, key, n);
      }
    }
  }

  lemma {:induction false} AroundFills(t: Template, k: nat, rest: Template, values: seq<string>)
    requires Fits(t, |values|) && Fits(rest, |values|) && k < |values|
    ensures Fits(Around(t, k, rest), |values|)
    ensures Fill(Around(t, k, rest), values) == Fill(t, values) + values[k] + Fill(rest, values)
  {
    match t
    case Tail(_) =>
    case Hole(text, j, next) =>
      AroundFills(next, k, rest, values);
      FourParts(text + values[j], Fill(next, values), values[k], Fill(rest, values));
  }

  lemma FourParts(a: string, b: string, c: string, d: string)
    ensures a + (b + c + d) == a + b + c + d
  {
  }

  lemma {:induction false} CutLiteralsFits(t: Template, k: nat, key: string, values: seq<string>)
    requires key != "" && k < |values| && Fits(t, |values|)
    ensures Fits(CutLiterals(t, k, key), |values|)
  {
    CutFits(t.text, k, key, |values|);
    if t.Hole? {
      CutLiteralsFits(t.rest, k, key, values);
      AroundFills(Cut(t.text, k, key), t.place, CutLiterals(t.rest, k, key), values);
    }
  }

  lemma {:induction false} ParsedFits(source: string, keys: seq<string>, n: nat, values: seq<string>)
    requires n <= |keys| == |values| && forall k :: 0 <= k < |keys| ==> keys[k] != ""
    ensures Fits(Parsed(source, keys, n), |values|)
  {
    if n > 0 {
      ParsedFits(source, keys, n - 1, values);
      CutLiteralsFits(Parsed(source, keys, n - 1), n - 1, keys[n - 1], values);
    }
  }

  lemma PrependFills(c: char, t: Template, values: seq<string>)
    requires Fits(t, |values|)
    ensures Fits(Prepend(c, t), |values|) && Fill(Prepend(c, t), values) == [c] + Fill(t, values)
  {
    match t
    case Tail(_) =>
    case Hole(text, k, rest) =>
      FourParts([c], text, values[k], Fill(rest, values));
  }

  /** Filling a cut literal is replacing the placeholder in it. */
  lemma {:induction false} CutFills(s: string, k: nat, key: string, values: seq<string>)
    requires key != "" && k < |values|
    ensures Fits(Cut(s, k, key), |values|) && Fill(Cut(s, k, key), values) == ReplaceAll(s, key, values[k])
    decreases |s|
  {
    if |s| >= |key| {
      if StartsWith(s, key) {
        CutFills(s[|key|..], k, key, values);
        assert "" + values[k] == values[k];
      } else {
        CutFills(s[1..], k, key, values);
        PrependFills(s[0], Cut(s[1..], k, key), values);
      }
    }
  }

  lemma {:induction false} ReplaceByItself(s: string, key: string)
    requires key != ""
    ensures ReplaceAll(s, key, key) == s
    decreases |s|
  {
    if |s| >= |key| {
      if StartsWith(s, key) {
        ReplaceByItself(s[|key|..], key);
        assert key + s[|key|..] == s;
      } else {
        ReplaceByItself(s[1..], key);
      }
    }
  }

  lemma {:induction false} CutLiteralsUndone(t: Template, k: nat, keys: seq<string>)
    requires k < |keys| && keys[k] != "" && Fits(t, |keys|)
    ensures Fits(CutLiterals(t, k, keys[k]), |keys|) && Fill(CutLiterals(t, k, keys[k]), keys) == Fill(t, keys)
  {
    CutFills(t.text, k, keys[k], keys);
    ReplaceByItself(t.text, keys[k]);
    if t.Hole? {
      CutLiteralsUndone(t.rest, k, keys);
      AroundFills(Cut(t.text, k, keys[k]), t.place, CutLiterals(t.rest, k, keys[k]), keys);
    }
  }

  /** The pieces of a source, with the placeholders themselves in the holes, are the source. */
  lemma {:induction false} ParsedUndone(source: string, keys: seq<string>, n: nat)
    requires n <= |keys| && forall k :: 0 <= k < |keys| ==> keys[k] != ""
    ensures Fits(Parsed(source, keys, n), |keys|) && Fill(Parsed(source, keys, n), keys) == source
  {
    if n > 0 {
      ParsedUndone(source, keys, n - 1);
      CutLiteralsUndone(Parsed(source, keys, n - 1), n - 1, keys);
    }
  }

  // ----- replacing one placeholder after another is filling at once -----

  lemma CharBetween(x: string, v: string, rest: string, i: int)
    ensures 0 <= i < |v| ==> (x + v + rest)[|x| + i] == v[i]
  {
  }

  /** No placeholder reaches into an inert value from the left. */
  lemma KeyStaysLeft(x: string, v: string, rest: string, key: string)
    requires IsKey(key) && Inert(v) && x != "" && StartsWith(x + v + rest, key)
    ensures |key| <= |x| && StartsWith(x, key)
  {
    var s, n := x + v + rest, |key|;
    forall i | 0 <= i < n ensures s[i] == key[i] {
      assert s[..n][i] == s[i];
    }
    var e := n - |x|;
    var i :| 0 <= i < |v| && v[i] != '_' && !('A' <= v[i] <= 'Z');
    CharBetween(x, v, rest, i);
    CharBetween(x, v, rest, e - 1);
    CharBetween(x, v, rest, e - 2);
    if e <= 0 {
      assert x[..n] == s[..n];
    }
  }

  /** None starts inside one. */
  lemma KeyStartsOutside(v: string, i: nat, rest: string, key: string)
    requires IsKey(key) && Inert(v) && i < |v|
    ensures !StartsWith(v[i..] + rest, key)
  {
    var s := v[i..] + rest;
    StartChars(s, key);
    assert s[0] == v[i];
    assert i + 1 < |v| ==> s[1] == v[i + 1];
  }

  lemma {:induction false} ValueCopied(v: string, i: nat, rest: string, key: string, w: string)
    requires IsKey(key) && Inert(v) && i <= |v|
    ensures ReplaceAll(v[i..] + rest, key, w) == v[i..] + ReplaceAll(rest, key, w)
    decreases |v| - i
  {
    if i == |v| {
      assert v[i..] + rest == rest;
    } else {
      var s := v[i..] + rest;
      KeyStartsOutside(v, i, rest, key);
      assert s[1..] == v[i + 1..] + rest;
      ValueCopied(v, i + 1, rest, key, w);
      assert v[i..] == [v[i]] + v[i + 1..];
    }
  }

  lemma {:induction false} ReplaceAround(x: string, v: string, rest: string, key: string, w: string)
    requires IsKey(key) && Inert(v)
    ensures ReplaceAll(x + v + rest, key, w) == ReplaceAll(x, key, w) + v + ReplaceAll(rest, key, w)
    decreases |x|
  {
    if x == "" {
      assert x + v + rest == v[0..] + rest;
      ValueCopied(v, 0, rest, key, w);
    } else {
      var tail := v + rest;
      assert x + v + rest == x + tail;
      if StartsWith(x + tail, key) {
        KeyStaysLeft(x, v, rest, key);
        ReplaceAround(x[|key|..], v, rest, key, w);
        AtFront(x, tail, key, w);
        Passed(x, |key|, v, rest, key, w, w);
      } else {
        ReplaceAround(x[1..], v, rest, key, w);
        NotAtFront(x, tail, key, w);
        Passed(x, 1, v, rest, key, w, [x[0]]);
      }
    }
  }

  /** The rest of a text, behind `n` characters that became `head`. */
  lemma Passed(x: string, n: nat, v: string, rest: string, key: string, w: string, head: string)
    requires n <= |x| && key != ""
    requires ReplaceAll(x[n..] + v + rest, key, w) == ReplaceAll(x[n..], key, w) + v + ReplaceAll(rest, key, w)
    ensures head + ReplaceAll(x[n..] + (v + rest), key, w)
         == head + ReplaceAll(x[n..], key, w) + v + ReplaceAll(rest, key, w)
  {
    assert x[n..] + v + rest == x[n..] + (v + rest);
    FourParts(head, ReplaceAll(x[n..], key, w), v, ReplaceAll(rest, key, w));
  }

  lemma AtFront(x: string, tail: string, key: string, w: string)
    requires key != "" && StartsWith(x + tail, key) && StartsWith(x, key)
    ensures ReplaceAll(x, key, w) == w + ReplaceAll(x[|key|..], key, w)
    ensures ReplaceAll(x + tail, key, w) == w + ReplaceAll(x[|key|..] + tail, key, w)
  {
    assert (x + tail)[|key|..] == x[|key|..] + tail;
  }

  lemma NotAtFront(x: string, tail: string, key: string, w: string)
    requires x != "" && key != "" && !StartsWith(x + tail, key)
    ensures ReplaceAll(x, key, w) == [x[0]] + ReplaceAll(x[1..], key, w)
    ensures ReplaceAll(x + tail, key, w) == [x[0]] + ReplaceAll(x[1..] + tail, key, w)
  {
    assert (x + tail)[1..] == x[1..] + tail;
    assert |x| >= |key| ==> (x + tail)[..|key|] == x[..|key|];
  }

  lemma {:induction false} CutLiteralsFills(t: Template, k: nat, key: string, values: seq<string>)
    requires IsKey(key) && k < |values| && Fits(t, |values|)
    requires forall j :: 0 <= j < |values| ==> Inert(values[j])
    ensures Fits(CutLiterals(t, k, key), |values|)
    ensures Fill(CutLiterals(t, k, key), values) == ReplaceAll(Fill(t, values), key, values[k])
  {
    CutFills(t.text, k, key, values);
    if t.Hole? {
      CutLiteralsFills(t.rest, k, key, values);
      AroundFills(Cut(t.text, k, key), t.place, CutLiterals(t.rest, k, key), values);
      ReplaceAround(t.text, values[t.place], Fill(t.rest, values), key, values[k]);
    }
  }

  /** For every source: replacing the placeholders of a table one after another fills the holes of the
      source, each with its own value, and nothing else. */
  lemma {:induction false} ReplacedIsFilled(source: string, t: Table, n: nat)
    requires Proper(t) && n <= |t.keys|
    ensures Fits(Parsed(source, t.keys, n), |t.values|)
    ensures Replaced(source, t, n) == Fill(Parsed(source, t.keys, n), t.values)
  {
    if n > 0 {
      ReplacedIsFilled(source, t, n - 1);
      CutLiteralsFills(Parsed(source, t.keys, n - 1), n - 1, t.keys[n - 1], t.values);
    }
  }

  // ----- what a filled template holds -----

  /** Some literal holds `p`, or some hole's value does, or `p` begins at the end of a literal and ends in the
      value behind it. */
  predicate Carries(t: Template, values: seq<string>, p: string)
    requires Fits(t, |values|)
  {
    || Includes(t.text, p)
    || (t.Hole?
        && (Includes(values[t.place], p) || Straddles(t.text, values[t.place], p) || Carries(t.rest, values, p)))
  }

  lemma {:induction false} FillIncludes(t: Template, values: seq<string>, p: string)
    requires Fits(t, |values|) && forall k :: 0 <= k < |values| ==> Sealed(values[k], p)
    ensures Includes(Fill(t, values), p) <==> Carries(t, values, p)
  {
    if t.Hole? {
      FillIncludes(t.rest, values, p);
      IncludesAround(t.text, values[t.place], Fill(t.rest, values), p);
    }
  }

  predicate InLiteral(t: Template, p: string) {
    Includes(t.text, p) || (t.Hole? && InLiteral(t.rest, p))
  }

  predicate HasHole(t: Template, k: nat) {
    t.Hole? && (t.place == k || HasHole(t.rest, k))
  }

  // ----- no placeholder is left -----

  lemma IncludesTail(s: string, n: nat, p: string)
    requires n <= |s| && Includes(s[n..], p)
    ensures Includes(s, p)
  {
    var i :| 0 <= i <= |s[n..]| && StartsWith(s[n..][i..], p);
    assert s[n..][i..] == s[n + i..];
  }

  lemma IncludesHead(s: string, n: nat, p: string)
    requires n <= |s| && Includes(s[..n], p)
    ensures Includes(s, p)
  {
    var i :| 0 <= i <= n && StartsWith(s[..n][i..], p);
    assert s[i..][..|p|] == s[..n][i..][..|p|];
  }

  /** The first literal begins the source. */
  lemma {:induction false} CutBegins(s: string, k: nat, key: string)
    requires key != ""
    ensures var x := Cut(s, k, key).text; |x| <= |s| && s[..|x|] == x
    decreases |s|
  {
    if |s| >= |key| && !StartsWith(s, key) {
      CutBegins(s[1..], k, key);
    }
  }

  /** One more character in front of the first literal. */
  lemma PrependLiterals(s: string, t: Template, p: string)
    requires s != "" && |t.text| < |s| && s[1..][..|t.text|] == t.text
    ensures InLiteral(Prepend(s[0], t), p) ==> Includes(s, p) || InLiteral(t, p)
    ensures InLiteral(Prepend(s[0], t), p) && !StartsWith(s, p) ==> InLiteral(t, p)
  {
    var x := [s[0]] + t.text;
    assert s[..|x|] == x;
    if Includes(x, p) {
      IncludesHead(s, |x|, p);
      var i :| 0 <= i <= |x| && StartsWith(x[i..], p);
      if i > 0 {
        assert x[i..] == t.text[i - 1..];
      } else {
        assert s[..|p|] == x[..|p|];
      }
    }
  }

  lemma {:induction false} CutClears(s: string, k: nat, key: string)
    requires key != ""
    ensures !InLiteral(Cut(s, k, key), key)
    decreases |s|
  {
    if |s| >= |key| {
      if StartsWith(s, key) {
        CutClears(s[|key|..], k, key);
      } else {
        CutClears(s[1..], k, key);
        CutBegins(s[1..], k, key);
        PrependLiterals(s, Cut(s[1..], k, key), key);
      }
    }
  }

  lemma {:induction false} CutAddsNone(s: string, k: nat, key: string, p: string)
    requires key != "" && p != "" && !Includes(s, p)
    ensures !InLiteral(Cut(s, k, key), p)
    decreases |s|
  {
    if |s| >= |key| {
      if StartsWith(s, key) {
        if Includes(s[|key|..], p) { IncludesTail(s, |key|, p); }
        CutAddsNone(s[|key|..], k, key, p);
      } else {
        if Includes(s[1..], p) { IncludesTail(s, 1, p); }
        CutAddsNone(s[1..], k, key, p);
        CutBegins(s[1..], k, key);
        PrependLiterals(s, Cut(s[1..], k, key), p);
      }
    }
  }

  lemma {:induction false} AroundLiterals(t: Template, k: nat, rest: Template, p: string)
    ensures InLiteral(Around(t, k, rest), p) <==> InLiteral(t, p) || InLiteral(rest, p)
  {
    if t.Hole? {
      AroundLiterals(t.rest, k, rest, p);
    }
  }

  lemma {:induction false} CutLiteralsClears(t: Template, k: nat, key: string, p: string)
    requires key != "" && p != "" && (p != key ==> !InLiteral(t, p))
    ensures !InLiteral(CutLiterals(t, k, key), p)
  {
    if p == key { CutClears(t.text, k, key); } else { CutAddsNone(t.text, k, key, p); }
    if t.Hole? {
      CutLiteralsClears(t.rest, k, key, p);
      AroundLiterals(Cut(t.text, k, key), t.place, CutLiterals(t.rest, k, key), p);
    }
  }

  lemma {:induction false} ParsedClears(source: string, keys: seq<string>, n: nat, k: nat)
    requires k < n <= |keys| && forall j :: 0 <= j < |keys| ==> keys[j] != ""
    ensures !InLiteral(Parsed(source, keys, n), keys[k])
  {
    if keys[k] != keys[n - 1] { ParsedClears(source, keys, n - 1, k); }
    CutLiteralsClears(Parsed(source, keys, n - 1), n - 1, keys[n - 1], keys[k]);
  }

  lemma BeginStaysOut(v: string, key: string, j: nat)
    requires IsKey(key) && Inert(v) && 0 < j < |key|
    ensures !EndsWith(v, key[..j])
  {
    EndsFirst(v, key, j);
  }

  lemma EndsFirst(v: string, p: string, j: nat)
    requires 0 < j <= |p|
    ensures EndsWith(v, p[..j]) ==> j <= |v| && v[|v| - j] == p[0] && (j > 1 ==> v[|v| - j + 1] == p[1])
  {
    SuffixChars(v, p, j);
    assert EndsWith(v, p[..j]) ==> v[|v| - j + 0] == p[0];
  }

  lemma InertSealed(v: string, key: string)
    requires IsKey(key) && Inert(v)
    ensures Sealed(v, key)
  {
    forall j | 0 < j < |key| ensures !EndsWith(v, key[..j]) {
      BeginStaysOut(v, key, j);
    }
    var i :| 0 <= i < |v| && v[i] != '_' && !('A' <= v[i] <= 'Z');
    if Includes(key, v) {
      IncludesChars(key, v, i);
    }
  }

  lemma InertApart(x: string, v: string, key: string)
    requires IsKey(key) && Inert(v)
    ensures !Includes(v, key) && !Straddles(x, v, key)
  {
    forall i | 0 <= i <= |v| ensures !StartsWith(v[i..], key) {
      if i < |v| { KeyStartsOutside(v, i, "", key); }
      assert v[i..] + "" == v[i..];
    }
    forall j | 0 < j < |key| ensures !StartsWith(v, key[j..]) {
      EndStaysOut(v, key, j);
    }
  }

  lemma EndStaysOut(v: string, key: string, j: nat)
    requires IsKey(key) && Inert(v) && 0 < j < |key|
    ensures !StartsWith(v, key[j..])
  {
    var end, n := key[j..], |key| - j;
    assert end[n - 1] == '_' && (n > 1 ==> end[n - 2] == '_');
    StartChars(v, end);
  }

  lemma {:induction false} FilledLacks(t: Template, values: seq<string>, key: string)
    requires Fits(t, |values|) && IsKey(key) && !InLiteral(t, key)
    requires forall k :: 0 <= k < |values| ==> Inert(values[k])
    ensures !Carries(t, values, key)
  {
    if t.Hole? {
      FilledLacks(t.rest, values, key);
      InertApart(t.text, values[t.place], key);
    }
  }

  /** For every source: no placeholder of the table is left. */
  lemma NothingLeft(source: string, t: Table, k: nat)
    requires Proper(t) && k < |t.keys|
    ensures !Includes(Replaced(source, t, |t.keys|), t.keys[k])
  {
    var pieces := Parsed(source, t.keys, |t.keys|);
    ReplacedIsFilled(source, t, |t.keys|);
    ParsedClears(source, t.keys, |t.keys|, k);
    forall j | 0 <= j < |t.values| ensures Sealed(t.values[j], t.keys[k]) {
      InertSealed(t.values[j], t.keys[k]);
    }
    FilledLacks(pieces, t.values, t.keys[k]);
    FillIncludes(pieces, t.values, t.keys[k]);
  }

  // ----- the first occurrence -----

  /** `r` is `s` with the first `key` in it replaced, and `s` itself when there is none. */
  ghost predicate FirstFilled(s: string, key: string, value: string, r: string) {
    || (!Includes(s, key) && r == s)
    || exists a, b :: s == a + key + b && r == a + value + b && forall j :: 0 <= j < |a| ==> !StartsWith(s[j..], key)
  }

  lemma {:induction false} FirstReplaced(s: string, key: string, value: string)
    requires key != ""
    ensures FirstFilled(s, key, value, ReplaceFirst(s, key, value))
    decreases |s|
  {
    assert s[0..] == s;
    if |s| >= |key| && StartsWith(s, key) {
      var rest := s[|key|..];
      assert s == "" + key + rest && value + rest == "" + value + rest;
    } else if |s| >= |key| {
      FirstReplaced(s[1..], key, value);
      FirstLater(s, key, value, ReplaceFirst(s[1..], key, value));
    }
  }

  lemma FirstLater(s: string, key: string, value: string, r: string)
    requires key != "" && s != "" && !StartsWith(s, key) && FirstFilled(s[1..], key, value, r)
    ensures FirstFilled(s, key, value, [s[0]] + r)
  {
    var rest := s[1..];
    if !Includes(rest, key) && r == rest {
      NotEarlier(s, key);
    } else {
      var a, b :|
        rest == a + key + b && r == a + value + b && forall j :: 0 <= j < |a| ==> !StartsWith(rest[j..], key);
      FirstBehind(s, key, value, a, b);
    }
  }

  lemma NotEarlier(s: string, key: string)
    requires s != "" && !StartsWith(s, key) && !Includes(s[1..], key)
    ensures !Includes(s, key)
  {
    forall i | 0 <= i <= |s| ensures !StartsWith(s[i..], key) {
      assert if i == 0 then s[i..] == s else s[i..] == s[1..][i - 1..];
    }
  }

  lemma FirstBehind(s: string, key: string, value: string, a: string, b: string)
    requires s != "" && !StartsWith(s, key) && s[1..] == a + key + b
    requires forall j :: 0 <= j < |a| ==> !StartsWith(s[1..][j..], key)
    ensures FirstFilled(s, key, value, [s[0]] + (a + value + b))
  {
    var head := [s[0]] + a;
    assert s == head + key + b && [s[0]] + (a + value + b) == head + value + b;
    forall j | 0 <= j < |head| ensures !StartsWith(s[j..], key) {
      assert if j == 0 then s[j..] == s else s[j..] == s[1..][j - 1..];
    }
  }
}
