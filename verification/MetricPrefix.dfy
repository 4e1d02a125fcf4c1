/** `replaceMetricPrefixes`: one global regular-expression pass per known metric root. */
module MetricPrefix {
  import opened Text

  predicate IsAlnum(c: char) {
    'a' <= c <= 'z' || 'A' <= c <= 'Z' || '0' <= c <= '9'
  }

  /** `\w` */
  predicate IsWord(c: char) {
    IsAlnum(c) || c == '_'
  }

  predicate AllWord(s: string) {
    forall i :: 0 <= i < |s| ==> IsWord(s[i])
  }

  /** The length of the leading run of letters and digits. */
  function Run(s: string): (n: nat)
    ensures n <= |s|
  {
    if s == "" || !IsAlnum(s[0]) then 0 else 1 + Run(s[1..])
  }

  /** `[a-zA-Z0-9]+_<root>` at the start of `s`. Letters and digits exclude the underscore, so the run
      before it is the whole leading run. */
  predicate AtToken(s: string, root: string) {
    var n := Run(s);
    n > 0 && StartsWith(s[n..], "_" + root)
  }

  /** How much of `s` the pattern takes. */
  function Taken(s: string, root: string): (n: nat)
    requires AtToken(s, root)
    ensures 1 + |root| < n <= |s|
  {
    Run(s) + 1 + |root|
  }

  /** One `replace` with the `g` flag and a leading `\b`. `inside` says that the character before `s` is a
      word character, so that no word begins here. Every root ends in a word character. */
  function Pass(inside: bool, s: string, prefix: string, root: string): string
    decreases |s|
  {
    if s == "" then ""
    else if !inside && AtToken(s, root) then prefix + root + Pass(true, s[Taken(s, root)..], prefix, root)
    else [s[0]] + Pass(IsWord(s[0]), s[1..], prefix, root)
  }

  const METRIC_ROOTS: seq<string> := ["app_up", "bullmq_", "health_", "http_", "nodejs_", "process_"]

  function Passes(s: string, prefix: string, roots: seq<string>): string {
    if roots == [] then s else Pass(false, Passes(s, prefix, roots[..|roots| - 1]), prefix, roots[|roots| - 1])
  }

  method ReplaceMetricPrefixes(expression: string, prefix: string) returns (next: string)
    ensures next == Passes(expression, prefix, METRIC_ROOTS)
  {
    next := expression;
    for i := 0 to |METRIC_ROOTS|
      invariant next == Passes(expression, prefix, METRIC_ROOTS[..i])
    {
      assert METRIC_ROOTS[..i + 1][..i] == METRIC_ROOTS[..i];
      next := Pass(false, next, prefix, METRIC_ROOTS[i]);
    }
    assert METRIC_ROOTS[..|METRIC_ROOTS|] == METRIC_ROOTS;
  }

  // ----- all passes at once -----

  /** The position of the first root that the start of `s` carries. */
  function RootAt(s: string, roots: seq<string>): (k: nat)
    ensures k <= |roots|
    ensures k < |roots| ==> AtToken(s, roots[k])
    ensures forall j :: 0 <= j < k ==> !AtToken(s, roots[j])
  {
    if roots == [] then 0 else if AtToken(s, roots[0]) then 0 else 1 + RootAt(s, roots[1..])
  }

  /** Every word that carries a known root gets the prefix, in one scan. */
  function AtOnce(inside: bool, s: string, prefix: string, roots: seq<string>): string
    decreases |s|
  {
    if s == "" then ""
    else
      var k := RootAt(s, roots);
      if !inside && k < |roots| then prefix + roots[k] + AtOnce(true, s[Taken(s, roots[k])..], prefix, roots)
      else [s[0]] + AtOnce(IsWord(s[0]), s[1..], prefix, roots)
  }

  /** Word roots of which none starts another, and a prefix of letters and digits plus one underscore. */
  ghost predicate Usable(prefix: string, roots: seq<string>) {
    && |prefix| > 1 && prefix[|prefix| - 1] == '_' && (forall i :: 0 <= i < |prefix| - 1 ==> IsAlnum(prefix[i]))
    && (forall k :: 0 <= k < |roots| ==> roots[k] != "" && AllWord(roots[k]))
    && (forall j, k :: 0 <= j < |roots| && 0 <= k < |roots| && j != k ==> !StartsWith(roots[j], roots[k]))
  }

  lemma {:induction false} RunIs(w: string, rest: string)
    requires (forall i :: 0 <= i < |w| ==> IsAlnum(w[i])) && (rest == "" || !IsAlnum(rest[0]))
    ensures Run(w + rest) == |w|
  {
    if w == "" {
      assert w + rest == rest;
    } else {
      assert (w + rest)[1..] == w[1..] + rest;
      RunIs(w[1..], rest);
    }
  }

  lemma {:induction false} RunLetters(s: string)
    ensures forall i :: 0 <= i < Run(s) ==> IsAlnum(s[i])
    ensures Run(s) < |s| ==> !IsAlnum(s[Run(s)])
  {
    if s != "" && IsAlnum(s[0]) {
      RunLetters(s[1..]);
      assert forall i :: 0 < i < |s| ==> s[i] == s[1..][i - 1];
    }
  }

  /** A word with the prefix carries exactly the root that follows it. */
  lemma PrefixedCarries(prefix: string, tail: string, root: string)
    requires |prefix| > 1 && prefix[|prefix| - 1] == '_' && forall i :: 0 <= i < |prefix| - 1 ==> IsAlnum(prefix[i])
    ensures AtToken(prefix + tail, root) <==> StartsWith(tail, root)
    ensures AtToken(prefix + tail, root) ==> Taken(prefix + tail, root) == |prefix| + |root|
  {
    var n := |prefix| - 1;
    var stem, s := prefix[..n], prefix + tail;
    assert prefix == stem + "_";
    assert s == stem + ("_" + tail);
    RunIs(stem, "_" + tail);
    assert s[n..] == "_" + tail;
    assert ("_" + tail)[1..] == tail;
    assert |root| <= |tail| ==> ("_" + tail)[..1 + |root|] == "_" + tail[..|root|];
    if StartsWith("_" + tail, "_" + root) {
      assert ("_" + root)[1..] == root;
      assert tail[..|root|] == ("_" + tail)[..1 + |root|][1..];
    }
  }

  /** Two roots of the same text: one starts the other. */
  lemma TwoStarts(s: string, p: string, q: string)
    requires StartsWith(s, p) && StartsWith(s, q)
    ensures StartsWith(p, q) || StartsWith(q, p)
  {
    if |p| <= |q| {
      assert q[..|p|] == s[..|q|][..|p|] == p;
    } else {
      assert p[..|q|] == s[..|p|][..|q|] == q;
    }
  }

  /** What the pattern sees lies within one word, so it does not look past the first other character. */
  lemma TokenWithin(t: string, u: string, v: string, root: string)
    requires AllWord(t) && AllWord(root) && (u == "" || !IsWord(u[0])) && (v == "" || !IsWord(v[0]))
    ensures AtToken(t + u, root) <==> AtToken(t + v, root)
    ensures AtToken(t + u, root) ==> AtToken(t + v, root) && Taken(t + u, root) == Taken(t + v, root) <= |t|
  {
    TokenInWord(t, u, root);
    TokenInWord(t, v, root);
  }

  lemma TokenInWord(t: string, u: string, root: string)
    requires AllWord(t) && AllWord(root) && (u == "" || !IsWord(u[0]))
    ensures AtToken(t + u, root) <==> AtToken(t, root)
    ensures AtToken(t, root) ==> AtToken(t + u, root) && Taken(t + u, root) == Taken(t, root) <= |t|
  {
    RunInWord(t, u);
    var n := Run(t);
    assert (t + u)[n..] == t[n..] + u;
    var r := "_" + root;
    if StartsWith(t[n..], r) {
      assert (t[n..] + u)[..|r|] == t[n..][..|r|];
    }
    WordStart(t[n..], u, r);
  }

  lemma RunInWord(t: string, u: string)
    requires u == "" || !IsWord(u[0])
    ensures Run(t + u) == Run(t)
  {
    RunLetters(t);
    var n := Run(t);
    assert t + u == t[..n] + (t[n..] + u);
    RunIs(t[..n], t[n..] + u);
  }

  lemma WordStart(t: string, u: string, r: string)
    requires AllWord(r) && (u == "" || !IsWord(u[0]))
    ensures StartsWith(t + u, r) ==> StartsWith(t, r)
  {
    if StartsWith(t + u, r) {
      assert forall k :: 0 <= k < |r| ==> (t + u)[k] == r[k];
      assert u != "" ==> (t + u)[|t|] == u[0];
      assert |r| <= |t|;
      assert (t + u)[..|r|] == t[..|r|];
    }
  }

  // ----- copying -----

  /** Inside a word nothing matches, so its characters are copied. */
  lemma {:induction false} AtOnceInside(w: string, rest: string, prefix: string, roots: seq<string>)
    requires AllWord(w)
    ensures AtOnce(true, w + rest, prefix, roots) == w + AtOnce(true, rest, prefix, roots)
  {
    if w == "" {
      assert w + rest == rest;
    } else {
      assert (w + rest)[0] == w[0] && (w + rest)[1..] == w[1..] + rest;
      AtOnceInside(w[1..], rest, prefix, roots);
      assert [w[0]] + (w[1..] + AtOnce(true, rest, prefix, roots)) == w + AtOnce(true, rest, prefix, roots);
    }
  }

  lemma {:induction false} PassInside(w: string, rest: string, prefix: string, root: string)
    requires AllWord(w)
    ensures Pass(true, w + rest, prefix, root) == w + Pass(true, rest, prefix, root)
  {
    if w == "" {
      assert w + rest == rest;
    } else {
      assert (w + rest)[0] == w[0] && (w + rest)[1..] == w[1..] + rest;
      PassInside(w[1..], rest, prefix, root);
      assert [w[0]] + (w[1..] + Pass(true, rest, prefix, root)) == w + Pass(true, rest, prefix, root);
    }
  }

  /** The length of the leading word. */
  function Word(s: string): (n: nat)
    ensures n <= |s|
  {
    if s == "" || !IsWord(s[0]) then 0 else 1 + Word(s[1..])
  }

  lemma {:induction false} WordIs(s: string)
    ensures AllWord(s[..Word(s)]) && (Word(s) < |s| ==> !IsWord(s[Word(s)]))
    ensures s != "" && IsWord(s[0]) ==> Word(s) > 0
  {
    if s != "" && IsWord(s[0]) {
      WordIs(s[1..]);
      assert s[..Word(s)] == [s[0]] + s[1..][..Word(s[1..])];
    }
  }

  lemma StartStays(c: char, rest: string, prefix: string, roots: seq<string>)
    requires !IsWord(c)
    ensures AtOnce(true, [c] + rest, prefix, roots) == AtOnce(false, [c] + rest, prefix, roots)
         == [c] + AtOnce(false, rest, prefix, roots)
  {
    var s := [c] + rest;
    assert s[1..] == rest && Run(s) == 0;
  }

  /** After a word the scan starts anew with a character that no root begins with. */
  lemma TailStart(u: string, prefix: string, roots: seq<string>)
    requires u == "" || !IsWord(u[0])
    ensures var v := AtOnce(true, u, prefix, roots); (v == "" <==> u == "") && (v == "" || !IsWord(v[0]))
  {
    if u != "" {
      assert u == [u[0]] + u[1..];
      StartStays(u[0], u[1..], prefix, roots);
    }
  }

  /** `t` is a whole word at the start of `t + u`. */
  predicate WordThen(t: string, u: string) {
    t != "" && AllWord(t) && (u == "" || !IsWord(u[0]))
  }

  /** A scan that starts a word without a known root keeps the word. */
  lemma WordKept(t: string, u: string, prefix: string, roots: seq<string>)
    requires WordThen(t, u) && RootAt(t + u, roots) == |roots|
    ensures AtOnce(false, t + u, prefix, roots) == t + AtOnce(true, u, prefix, roots)
  {
    var s := t + u;
    assert s[0] == t[0] && s[1..] == t[1..] + u;
    AtOnceInside(t[1..], u, prefix, roots);
    FirstAndRest(t, AtOnce(true, u, prefix, roots));
  }

  lemma FirstAndRest(t: string, v: string)
    requires t != ""
    ensures [t[0]] + (t[1..] + v) == t + v
  {
  }

  /** The rest of a word, and what follows it, after `m` characters. */
  lemma AfterTaken(t: string, u: string, m: nat, prefix: string, roots: seq<string>)
    requires AllWord(t) && m <= |t|
    ensures (t + AtOnce(true, u, prefix, roots))[m..] == AtOnce(true, (t + u)[m..], prefix, roots)
  {
    assert (t + u)[m..] == t[m..] + u;
    AtOnceInside(t[m..], u, prefix, roots);
    var v := AtOnce(true, u, prefix, roots);
    assert (t + v)[m..] == t[m..] + v;
  }

  // ----- one more pass is one more root -----

  lemma PassCopies(w: string, rest: string, prefix: string, root: string)
    requires AllWord(w) && w != "" && !AtToken(w + rest, root)
    ensures Pass(false, w + rest, prefix, root) == w + Pass(true, rest, prefix, root)
  {
    assert (w + rest)[0] == w[0] && (w + rest)[1..] == w[1..] + rest;
    PassInside(w[1..], rest, prefix, root);
    FirstAndRest(w, Pass(true, rest, prefix, root));
  }

  lemma {:induction false} RootAtMore(s: string, roots: seq<string>, root: string)
    ensures RootAt(s, roots) < |roots| ==> RootAt(s, roots + [root]) == RootAt(s, roots)
    ensures RootAt(s, roots) == |roots| ==>
              RootAt(s, roots + [root]) == if AtToken(s, root) then |roots| else |roots| + 1
  {
    if roots == [] {
      assert [root][1..] == [];
    } else {
      assert (roots + [root])[1..] == roots[1..] + [root];
      RootAtMore(s, roots[1..], root);
    }
  }

  lemma UsableLess(prefix: string, roots: seq<string>, root: string)
    requires Usable(prefix, roots + [root])
    ensures Usable(prefix, roots) && root != "" && AllWord(root)
    ensures forall k :: 0 <= k < |roots| ==> !StartsWith(roots[k], root) && !StartsWith(root, roots[k])
  {
    var all := roots + [root];
    assert all[|roots|] == root;
    assert forall k :: 0 <= k < |roots| ==> all[k] == roots[k];
  }

  /** A word that a root has just been given to carries no other root. */
  lemma GivenOnce(prefix: string, given: string, rest: string, other: string)
    requires |prefix| > 1 && prefix[|prefix| - 1] == '_' && forall i :: 0 <= i < |prefix| - 1 ==> IsAlnum(prefix[i])
    requires !StartsWith(given, other) && !StartsWith(other, given)
    ensures !AtToken(prefix + given + rest, other)
  {
    assert prefix + given + rest == prefix + (given + rest);
    PrefixedCarries(prefix, given + rest, other);
    if StartsWith(given + rest, other) {
      assert (given + rest)[..|given|] == given;
      TwoStarts(given + rest, given, other);
    }
  }

  lemma AllWordPrefixed(prefix: string, root: string)
    requires |prefix| > 1 && prefix[|prefix| - 1] == '_' && (forall i :: 0 <= i < |prefix| - 1 ==> IsAlnum(prefix[i]))
    requires AllWord(root)
    ensures AllWord(prefix + root)
  {
  }

  /** Running one more pass over the result of the scan for `roots` is the scan for one more root. */
  lemma {:induction false} OneMorePass(inside: bool, s: string, prefix: string, roots: seq<string>, root: string)
    requires Usable(prefix, roots + [root])
    ensures Pass(inside, AtOnce(inside, s, prefix, roots), prefix, root) == AtOnce(inside, s, prefix, roots + [root])
    decreases |s|
  {
    UsableLess(prefix, roots, root);
    if s != "" {
      RootAtMore(s, roots, root);
      var k := RootAt(s, roots);
      if !inside && k < |roots| {
        MoreAfterGiven(s, prefix, roots, root);
      } else if !inside && AtToken(s, root) {
        MoreAtRoot(s, prefix, roots, root);
      } else {
        MoreCopied(inside, s, prefix, roots, root);
      }
    }
  }

  lemma MoreAfterGiven(s: string, prefix: string, roots: seq<string>, root: string)
    requires Usable(prefix, roots + [root]) && s != "" && RootAt(s, roots) < |roots|
    ensures Pass(false, AtOnce(false, s, prefix, roots), prefix, root) == AtOnce(false, s, prefix, roots + [root])
    decreases |s|, 0
  {
    UsableLess(prefix, roots, root);
    RootAtMore(s, roots, root);
    var given := roots[RootAt(s, roots)];
    var rest := s[Taken(s, given)..];
    OneMorePass(true, rest, prefix, roots, root);
    var done := AtOnce(true, rest, prefix, roots);
    GivenOnce(prefix, given, done, root);
    AllWordPrefixed(prefix, given);
    PassCopies(prefix + given, done, prefix, root);
    assert (roots + [root])[RootAt(s, roots)] == given;
  }

  lemma MoreAtRoot(s: string, prefix: string, roots: seq<string>, root: string)
    requires Usable(prefix, roots + [root]) && s != "" && RootAt(s, roots) == |roots| && AtToken(s, root)
    ensures Pass(false, AtOnce(false, s, prefix, roots), prefix, root) == AtOnce(false, s, prefix, roots + [root])
    decreases |s|, 0
  {
    UsableLess(prefix, roots, root);
    RootAtMore(s, roots, root);
    var m := Taken(s, root);
    RootSurvives(s, prefix, roots, root);
    OneMorePass(true, s[m..], prefix, roots, root);
    assert (roots + [root])[|roots|] == root;
  }

  /** The scan for other roots leaves the root of the first word where it was. */
  lemma RootSurvives(s: string, prefix: string, roots: seq<string>, root: string)
    requires AllWord(root) && s != "" && RootAt(s, roots) == |roots| && AtToken(s, root)
    ensures var r := AtOnce(false, s, prefix, roots);
            && r != "" && AtToken(r, root) && Taken(r, root) == Taken(s, root)
            && r[Taken(s, root)..] == AtOnce(true, s[Taken(s, root)..], prefix, roots)
  {
    WordIs(s);
    RunLetters(s);
    var t, u := s[..Word(s)], s[Word(s)..];
    assert s == t + u && WordThen(t, u);
    WordKept(t, u, prefix, roots);
    TailStart(u, prefix, roots);
    TokenWithin(t, u, AtOnce(true, u, prefix, roots), root);
    AfterTaken(t, u, Taken(s, root), prefix, roots);
  }

  lemma MoreCopied(inside: bool, s: string, prefix: string, roots: seq<string>, root: string)
    requires Usable(prefix, roots + [root]) && s != "" && (inside || (RootAt(s, roots) == |roots| && !AtToken(s, root)))
    ensures Pass(inside, AtOnce(inside, s, prefix, roots), prefix, root) == AtOnce(inside, s, prefix, roots + [root])
    decreases |s|, 0
  {
    UsableLess(prefix, roots, root);
    RootAtMore(s, roots, root);
    OneMorePass(IsWord(s[0]), s[1..], prefix, roots, root);
    var copied := AtOnce(inside, s, prefix, roots);
    assert copied[0] == s[0] && copied[1..] == AtOnce(IsWord(s[0]), s[1..], prefix, roots);
    if !inside {
      StillNotAt(s, prefix, roots, root);
    }
  }

  lemma StillNotAt(s: string, prefix: string, roots: seq<string>, root: string)
    requires s != "" && RootAt(s, roots) == |roots| && !AtToken(s, root) && AllWord(root)
    ensures !AtToken(AtOnce(false, s, prefix, roots), root)
  {
    WordIs(s);
    if IsWord(s[0]) {
      var t, u := s[..Word(s)], s[Word(s)..];
      assert s == t + u && WordThen(t, u);
      WordKept(t, u, prefix, roots);
      TailStart(u, prefix, roots);
      TokenWithin(t, u, AtOnce(true, u, prefix, roots), root);
    }
  }

  lemma {:induction false} NoRoots(inside: bool, s: string, prefix: string)
    ensures AtOnce(inside, s, prefix, []) == s
    decreases |s|
  {
    if s != "" {
      NoRoots(IsWord(s[0]), s[1..], prefix);
    }
  }

  /** The passes one after another are one scan for all roots, whatever their order. */
  lemma {:induction false} PassesAtOnce(s: string, prefix: string, roots: seq<string>)
    requires Usable(prefix, roots)
    ensures Passes(s, prefix, roots) == AtOnce(false, s, prefix, roots)
    decreases |roots|
  {
    if roots == [] {
      NoRoots(false, s, prefix);
    } else {
      var init, last := roots[..|roots| - 1], roots[|roots| - 1];
      assert roots == init + [last];
      UsableLess(prefix, init, last);
      PassesAtOnce(s, prefix, init);
      OneMorePass(false, s, prefix, init, last);
    }
  }

  // ----- rewriting twice is rewriting once -----

  lemma RootAtIs(s: string, roots: seq<string>, k: nat)
    requires k <= |roots| && (k < |roots| ==> AtToken(s, roots[k])) && forall j :: 0 <= j < k ==> !AtToken(s, roots[j])
    ensures RootAt(s, roots) == k
  {
  }

  lemma GivenCarriesIts(prefix: string, root: string, rest: string)
    requires |prefix| > 1 && prefix[|prefix| - 1] == '_' && forall i :: 0 <= i < |prefix| - 1 ==> IsAlnum(prefix[i])
    ensures var r := prefix + root + rest;
            AtToken(r, root) && Taken(r, root) == |prefix| + |root| && r[|prefix| + |root|..] == rest
  {
    var r := prefix + root + rest;
    assert r == prefix + (root + rest);
    assert (root + rest)[..|root|] == root;
    PrefixedCarries(prefix, root + rest, root);
  }

  lemma GivenCarries(prefix: string, roots: seq<string>, k: nat, rest: string)
    requires Usable(prefix, roots) && k < |roots|
    ensures var r := prefix + roots[k] + rest;
            RootAt(r, roots) == k && AtToken(r, roots[k]) && r[Taken(r, roots[k])..] == rest
  {
    var r := prefix + roots[k] + rest;
    GivenCarriesIts(prefix, roots[k], rest);
    forall j | 0 <= j < k ensures !AtToken(r, roots[j]) {
      GivenOnce(prefix, roots[k], rest, roots[j]);
    }
    RootAtIs(r, roots, k);
  }

  /** The scan is idempotent. */
  lemma {:induction false} AtOnceTwice(inside: bool, s: string, prefix: string, roots: seq<string>)
    requires Usable(prefix, roots)
    ensures AtOnce(inside, AtOnce(inside, s, prefix, roots), prefix, roots) == AtOnce(inside, s, prefix, roots)
    decreases |s|
  {
    if s != "" {
      var k := RootAt(s, roots);
      if !inside && k < |roots| {
        var rest := s[Taken(s, roots[k])..];
        AtOnceTwice(true, rest, prefix, roots);
        GivenCarries(prefix, roots, k, AtOnce(true, rest, prefix, roots));
      } else {
        AtOnceTwice(IsWord(s[0]), s[1..], prefix, roots);
        var copied := AtOnce(inside, s, prefix, roots);
        assert copied[0] == s[0] && copied[1..] == AtOnce(IsWord(s[0]), s[1..], prefix, roots);
        if !inside {
          forall j | 0 <= j < |roots| ensures !AtToken(copied, roots[j]) {
            StillNotAt(s, prefix, roots, roots[j]);
          }
          RootAtIs(copied, roots, |roots|);
        }
      }
    }
  }

  // ----- what the scan leaves -----

  /** A word begins at position `i`. */
  predicate WordBegins(inside: bool, s: string, i: nat)
    requires i < |s|
  {
    IsWord(s[i]) && if i == 0 then !inside else !IsWord(s[i - 1])
  }

  /** Every word that carries a known root carries it right behind the prefix. */
  ghost predicate AllPrefixed(inside: bool, s: string, prefix: string, roots: seq<string>) {
    forall i, k :: 0 <= i < |s| && 0 <= k < |roots| && WordBegins(inside, s, i) && AtToken(s[i..], roots[k]) ==>
      StartsWith(s[i..], prefix + roots[k])
  }

  lemma {:induction false} ScanPrefixes(inside: bool, s: string, prefix: string, roots: seq<string>)
    requires Usable(prefix, roots)
    ensures AllPrefixed(inside, AtOnce(inside, s, prefix, roots), prefix, roots)
    decreases |s|
  {
    if s != "" {
      var k := RootAt(s, roots);
      if !inside && k < |roots| {
        var rest := AtOnce(true, s[Taken(s, roots[k])..], prefix, roots);
        ScanPrefixes(true, s[Taken(s, roots[k])..], prefix, roots);
        PrefixedGiven(prefix, roots, k, rest);
      } else {
        var rest := AtOnce(IsWord(s[0]), s[1..], prefix, roots);
        ScanPrefixes(IsWord(s[0]), s[1..], prefix, roots);
        if !inside {
          forall j | 0 <= j < |roots| ensures !AtToken([s[0]] + rest, roots[j]) {
            StillNotAt(s, prefix, roots, roots[j]);
          }
        }
        PrefixedCopied(inside, s[0], rest, prefix, roots);
      }
    }
  }

  lemma PrefixedCopied(inside: bool, c: char, rest: string, prefix: string, roots: seq<string>)
    requires AllPrefixed(IsWord(c), rest, prefix, roots)
    requires !inside ==> forall j :: 0 <= j < |roots| ==> !AtToken([c] + rest, roots[j])
    ensures AllPrefixed(inside, [c] + rest, prefix, roots)
  {
    var r := [c] + rest;
    forall i, k | 0 <= i < |r| && 0 <= k < |roots| && WordBegins(inside, r, i) && AtToken(r[i..], roots[k])
      ensures StartsWith(r[i..], prefix + roots[k])
    {
      assert r[0..] == r;
      assert i > 0 ==> r[i..] == rest[i - 1..] && WordBegins(IsWord(c), rest, i - 1);
    }
  }

  lemma PrefixedGiven(prefix: string, roots: seq<string>, k: nat, rest: string)
    requires Usable(prefix, roots) && k < |roots| && AllPrefixed(true, rest, prefix, roots)
    ensures AllPrefixed(false, prefix + roots[k] + rest, prefix, roots)
  {
    var given := prefix + roots[k];
    var r := given + rest;
    AllWordPrefixed(prefix, roots[k]);
    forall i, j | 0 <= i < |r| && 0 <= j < |roots| && WordBegins(false, r, i) && AtToken(r[i..], roots[j])
      ensures StartsWith(r[i..], prefix + roots[j])
    {
      if i == 0 {
        assert r[i..] == r && r[..|given|] == given;
        if j != k {
          GivenOnce(prefix, roots[k], rest, roots[j]);
        }
      } else {
        assert i > |given|;
        assert r[i..] == rest[i - |given|..] && WordBegins(true, rest, i - |given|);
      }
    }
  }

  // ----- a character outside words splits the scan -----

  lemma TokenBefore(a: string, tail: string, root: string)
    requires a != "" && (tail == "" || !IsWord(tail[0])) && AllWord(root)
    ensures AtToken(a + tail, root) <==> AtToken(a, root)
    ensures AtToken(a, root) ==> AtToken(a + tail, root) && Taken(a + tail, root) == Taken(a, root)
  {
    WordIs(a);
    var t, u := a[..Word(a)], a[Word(a)..];
    assert a == t + u && a + tail == t + (u + tail);
    TokenWithin(t, u, u + tail, root);
    TokenWithin(t, u + tail, u, root);
  }

  lemma RootAtBefore(a: string, tail: string, roots: seq<string>)
    requires a != "" && (tail == "" || !IsWord(tail[0])) && forall k :: 0 <= k < |roots| ==> AllWord(roots[k])
    ensures RootAt(a + tail, roots) == RootAt(a, roots)
    ensures RootAt(a, roots) < |roots| ==> Taken(a + tail, roots[RootAt(a, roots)]) == Taken(a, roots[RootAt(a, roots)])
  {
    forall k | 0 <= k < |roots|
      ensures AtToken(a + tail, roots[k]) <==> AtToken(a, roots[k])
    {
      TokenBefore(a, tail, roots[k]);
    }
    RootAtIs(a + tail, roots, RootAt(a, roots));
    if RootAt(a, roots) < |roots| {
      TokenBefore(a, tail, roots[RootAt(a, roots)]);
    }
  }

  /** The first step of a scan does not depend on what follows the first other character. */
  lemma ScanBefore(inside: bool, a: string, tail: string, prefix: string, roots: seq<string>)
    requires a != "" && (tail == "" || !IsWord(tail[0])) && forall k :: 0 <= k < |roots| ==> AllWord(roots[k])
    ensures var k := RootAt(a, roots);
            AtOnce(inside, a + tail, prefix, roots) ==
            if !inside && k < |roots| then
              prefix + roots[k] + AtOnce(true, a[Taken(a, roots[k])..] + tail, prefix, roots)
            else [a[0]] + AtOnce(IsWord(a[0]), a[1..] + tail, prefix, roots)
  {
    RootAtBefore(a, tail, roots);
    var k := RootAt(a, roots);
    if !inside && k < |roots| {
      assert (a + tail)[Taken(a, roots[k])..] == a[Taken(a, roots[k])..] + tail;
    } else {
      assert (a + tail)[0] == a[0] && (a + tail)[1..] == a[1..] + tail;
    }
  }

  lemma {:induction false} SplitScan(inside: bool, a: string, c: char, b: string, prefix: string, roots: seq<string>)
    requires !IsWord(c) && forall k :: 0 <= k < |roots| ==> AllWord(roots[k])
    ensures AtOnce(inside, a + ([c] + b), prefix, roots)
         == AtOnce(inside, a, prefix, roots) + ([c] + AtOnce(false, b, prefix, roots))
    decreases |a|
  {
    var tail, done := [c] + b, [c] + AtOnce(false, b, prefix, roots);
    if a == "" {
      assert a + tail == tail;
      StartStays(c, b, prefix, roots);
      assert "" + done == done;
    } else {
      ScanBefore(inside, a, tail, prefix, roots);
      var k := RootAt(a, roots);
      if !inside && k < |roots| {
        var rest := a[Taken(a, roots[k])..];
        SplitScan(true, rest, c, b, prefix, roots);
        Behind3(prefix + roots[k], AtOnce(true, rest, prefix, roots), done);
      } else {
        SplitScan(IsWord(a[0]), a[1..], c, b, prefix, roots);
        Behind3([a[0]], AtOnce(IsWord(a[0]), a[1..], prefix, roots), done);
      }
    }
  }

  lemma Behind3(x: string, y: string, z: string)
    ensures x + (y + z) == x + y + z
  {
  }

  // ----- what a text ends in is kept -----

  /** A label end such as `job=`, short enough not to reach back beyond a root and its underscore. */
  ghost predicate LabelEnd(end: string, roots: seq<string>) {
    && end != "" && !IsWord(end[|end| - 1])
    && forall k :: 0 <= k < |roots| ==> roots[k] != "" && AllWord(roots[k]) && |end| <= |roots[k]| + 2
  }

  lemma {:induction false} ShortKept(inside: bool, s: string, prefix: string, roots: seq<string>, end: string)
    requires LabelEnd(end, roots) && |prefix| > 1
    ensures |s| < |end| ==> AtOnce(inside, s, prefix, roots) == s
    ensures |s| >= |end| ==> |AtOnce(inside, s, prefix, roots)| >= |end|
    ensures AtOnce(inside, s, prefix, roots) == "" <==> s == ""
    decreases |s|
  {
    if s != "" {
      var k := RootAt(s, roots);
      if !inside && k < |roots| {
      } else {
        ShortKept(IsWord(s[0]), s[1..], prefix, roots, end);
        ShorterEnd(inside, s, prefix, roots, end);
      }
    }
  }

  lemma ShorterEnd(inside: bool, s: string, prefix: string, roots: seq<string>, end: string)
    requires LabelEnd(end, roots) && |prefix| > 1 && s != "" && (inside || RootAt(s, roots) == |roots|)
    requires |s| - 1 < |end| ==> AtOnce(IsWord(s[0]), s[1..], prefix, roots) == s[1..]
    requires |s| - 1 >= |end| ==> |AtOnce(IsWord(s[0]), s[1..], prefix, roots)| >= |end|
    ensures |s| >= |end| ==> |AtOnce(inside, s, prefix, roots)| >= |end|
  {
  }

  lemma EndOfTail(x: string, y: string, end: string)
    requires |y| >= |end|
    ensures EndsWith(x + y, end) <==> EndsWith(y, end)
  {
    assert (x + y)[|x + y| - |end|..] == y[|y| - |end|..];
  }

  /** The scan changes neither whether a text ends in the label, nor whether it is empty. */
  lemma {:induction false} EndKept(inside: bool, s: string, prefix: string, roots: seq<string>, end: string)
    requires LabelEnd(end, roots) && |prefix| > 1 && prefix[|prefix| - 1] == '_'
    ensures EndsWith(AtOnce(inside, s, prefix, roots), end) <==> EndsWith(s, end)
    decreases |s|
  {
    if s != "" {
      var k := RootAt(s, roots);
      if !inside && k < |roots| {
        EndAfterGiven(s, prefix, roots, end);
      } else {
        EndKept(IsWord(s[0]), s[1..], prefix, roots, end);
        ShortKept(IsWord(s[0]), s[1..], prefix, roots, end);
        assert s == [s[0]] + s[1..];
        EndOfSame(s[0], s[1..], AtOnce(IsWord(s[0]), s[1..], prefix, roots), end);
      }
    }
  }

  /** One more character in front of two texts that end alike and, when short, are the same. */
  lemma EndOfSame(c: char, s: string, t: string, end: string)
    requires EndsWith(s, end) <==> EndsWith(t, end)
    requires (|s| < |end| ==> t == s) && (|s| >= |end| ==> |t| >= |end|)
    ensures EndsWith([c] + s, end) <==> EndsWith([c] + t, end)
  {
    if |s| >= |end| {
      EndOfTail([c], s, end);
      EndOfTail([c], t, end);
    }
  }

  lemma EndAfterGiven(s: string, prefix: string, roots: seq<string>, end: string)
    requires LabelEnd(end, roots) && |prefix| > 1 && prefix[|prefix| - 1] == '_'
    requires s != "" && RootAt(s, roots) < |roots|
    ensures EndsWith(AtOnce(false, s, prefix, roots), end) <==> EndsWith(s, end)
    decreases |s|, 0
  {
    var root := roots[RootAt(s, roots)];
    var m := Taken(s, root);
    var rest, done := s[m..], AtOnce(true, s[m..], prefix, roots);
    EndKept(true, rest, prefix, roots, end);
    ShortKept(true, rest, prefix, roots, end);
    assert s == s[..m] + rest;
    if |rest| >= |end| {
      EndOfTail(s[..m], rest, end);
      EndOfTail(prefix + root, done, end);
    } else {
      EndOfShortRest(s, prefix, root, rest, end);
    }
  }

  lemma EndOfShortRest(s: string, prefix: string, root: string, rest: string, end: string)
    requires end != "" && !IsWord(end[|end| - 1]) && root != "" && AllWord(root) && |end| <= |root| + 2
    requires |prefix| > 1 && prefix[|prefix| - 1] == '_' && AtToken(s, root) && rest == s[Taken(s, root)..]
    ensures EndsWith(prefix + root + rest, end) <==> EndsWith(s, end)
  {
    SameEnd(s, Run(s), root);
    if rest != "" {
      EndInCommon(s, Run(s), prefix, root, rest, end);
    } else {
      LastCharDecides(s, end);
      LastCharDecides(prefix + root + rest, end);
    }
  }

  lemma EndInCommon(s: string, n: nat, prefix: string, root: string, rest: string, end: string)
    requires |end| <= |root| + 2 && rest != "" && |prefix| > 1 && prefix[|prefix| - 1] == '_'
    requires n <= |s| && s == s[..n] + ("_" + root + rest)
    ensures EndsWith(prefix + root + rest, end) <==> EndsWith(s, end)
  {
    var common := "_" + root + rest;
    assert prefix == prefix[..|prefix| - 1] + "_";
    assert prefix + root + rest == prefix[..|prefix| - 1] + common;
    EndOfTail(s[..n], common, end);
    EndOfTail(prefix[..|prefix| - 1], common, end);
  }

  lemma SameEnd(s: string, n: nat, root: string)
    requires n <= |s| && StartsWith(s[n..], "_" + root)
    ensures s == s[..n] + ("_" + root + s[n + 1 + |root|..])
    ensures root != "" && n + 1 + |root| == |s| ==> s[|s| - 1] == root[|root| - 1]
  {
    var r := "_" + root;
    assert s[n..] == s[n..][..|r|] + s[n..][|r|..];
    assert s[n..][|r|..] == s[n + |r|..];
    assert s == s[..n] + s[n..];
    if root != "" && n + 1 + |root| == |s| {
      assert s[n..][..|r|][|r| - 1] == s[|s| - 1];
    }
  }

  lemma LastCharDecides(s: string, end: string)
    requires s != "" && end != "" && s[|s| - 1] != end[|end| - 1]
    ensures !EndsWith(s, end)
  {
    assert |end| <= |s| ==> s[|s| - |end|..][|end| - 1] == s[|s| - 1];
  }
}
