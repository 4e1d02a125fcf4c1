/** What rewriting an expression does to its words and to its quoted labels, said without the scan. */
module ExpressionMeaning {
  import opened Expression
  import opened MetricPrefix
  import opened QuotedLabels
  import opened Separated
  import opened Text

  predicate LetterOrDigit(c: char) {
    'a' <= c <= 'z' || 'A' <= c <= 'Z' || '0' <= c <= '9'
  }

  predicate WordChar(c: char) {
    LetterOrDigit(c) || c == '_'
  }

  predicate LettersAndDigits(s: string) {
    forall i :: 0 <= i < |s| ==> LetterOrDigit(s[i])
  }

  predicate IsOneWord(s: string) {
    forall i :: 0 <= i < |s| ==> WordChar(s[i])
  }

  predicate Known(root: string) {
    || root == "app_up" || root == "bullmq_" || root == "health_" || root == "http_" || root == "nodejs_"
    || root == "process_"
  }

  /** A metric name: some letters and digits, an underscore, and a known root. */
  ghost predicate Carries(w: string, x: string, root: string, y: string) {
    x != "" && LettersAndDigits(x) && Known(root) && w == x + "_" + root + y
  }

  // ----- words -----

  lemma KnownIs(root: string)
    ensures Known(root) <==> exists k :: 0 <= k < |METRIC_ROOTS| && METRIC_ROOTS[k] == root
  {
    assert METRIC_ROOTS[0] == "app_up" && METRIC_ROOTS[1] == "bullmq_" && METRIC_ROOTS[2] == "health_";
    assert METRIC_ROOTS[3] == "http_" && METRIC_ROOTS[4] == "nodejs_" && METRIC_ROOTS[5] == "process_";
  }

  lemma CarriesToken(w: string, x: string, root: string, y: string)
    requires Carries(w, x, root, y)
    ensures Run(w) == |x| && AtToken(w, root) && w[Taken(w, root)..] == y
  {
    var rest := "_" + root + y;
    assert w == x + rest && rest[0] == '_';
    RunIs(x, rest);
    assert w[|x|..] == rest && rest[..1 + |root|] == "_" + root;
  }

  lemma OneRootAt(w: string, k: nat)
    requires k < |METRIC_ROOTS| && AtToken(w, METRIC_ROOTS[k])
    ensures RootAt(w, METRIC_ROOTS) == k
  {
    var j := RootAt(w, METRIC_ROOTS);
    assert j <= k;
    if j < k {
      RootsApart(j, k);
      RootsApart(k, j);
      BothAt(w[Run(w)..], METRIC_ROOTS[j], METRIC_ROOTS[k]);
    }
  }

  lemma BothAt(s: string, p: string, q: string)
    requires !StartsWith(p, q) && !StartsWith(q, p)
    ensures !(StartsWith(s, "_" + p) && StartsWith(s, "_" + q))
  {
    if s != "" {
      Shifted(s, p);
      Shifted(s, q);
      if StartsWith(s[1..], p) && StartsWith(s[1..], q) { TwoStarts(s[1..], p, q); }
    }
  }

  lemma Shifted(s: string, p: string)
    requires s != ""
    ensures StartsWith(s, "_" + p) ==> StartsWith(s[1..], p)
  {
    var w := "_" + p;
    assert w[1..] == p;
    assert |w| <= |s| ==> s[1..][..|p|] == s[..|w|][1..];
  }

  /** A word that carries a known root gets the prefix in place of what stood before the root. */
  lemma KnownWord(w: string, x: string, root: string, y: string, settings: Settings)
    requires Carries(w, x, root, y) && IsOneWord(y)
    ensures Scan(w, settings.prefix) == settings.prefix + root + y
  {
    KnownIs(root);
    CarriesToken(w, x, root, y);
    var k :| 0 <= k < |METRIC_ROOTS| && METRIC_ROOTS[k] == root;
    OneRootAt(w, k);
    AtOnceInside(y, "", settings.prefix, METRIC_ROOTS);
    assert y + "" == y;
  }

  /** Any other word stays. */
  lemma OtherWord(w: string, settings: Settings)
    requires IsOneWord(w) && forall x, root, y :: !Carries(w, x, root, y)
    ensures Scan(w, settings.prefix) == w
  {
    if w != "" {
      var k := RootAt(w, METRIC_ROOTS);
      if k < |METRIC_ROOTS| {
        TokenCarries(w, METRIC_ROOTS[k]);
      } else {
        AtOnceInside(w[1..], "", settings.prefix, METRIC_ROOTS);
        assert w[1..] + "" == w[1..] && [w[0]] + w[1..] == w;
      }
    }
  }

  lemma TokenCarries(w: string, root: string)
    requires AtToken(w, root) && root in METRIC_ROOTS
    ensures exists x, y :: Carries(w, x, root, y)
  {
    RunLetters(w);
    KnownIs(root);
    var n := Run(w);
    var rest := w[n..];
    assert w == w[..n] + rest && rest == "_" + root + rest[1 + |root|..];
    assert w == w[..n] + "_" + root + rest[1 + |root|..];
    assert Carries(w, w[..n], root, rest[1 + |root|..]);
  }

  /** A character outside words separates what stands on both sides. With the two laws above this says what becomes
      of every text. */
  lemma ScanSplits(a: string, c: char, b: string, settings: Settings)
    requires !WordChar(c)
    ensures Scan(a + [c] + b, settings.prefix) == Scan(a, settings.prefix) + [c] + Scan(b, settings.prefix)
  {
    forall k | 0 <= k < |METRIC_ROOTS| ensures AllWord(METRIC_ROOTS[k]) {
      RootsAreWords(k);
    }
    assert a + [c] + b == a + ([c] + b);
    SplitScan(false, a, c, b, settings.prefix, METRIC_ROOTS);
  }

  // ----- labels -----

  /** Every quoted value behind `job=` is the job name and every one behind `route!=` the excluded route, both renamed;
      every other piece is only renamed. */
  lemma LabelsSay(s: string, settings: Settings)
    requires Proper(settings)
    ensures var ps, r, route := Split(s, '\"'), Split(RewriteExpression(s, settings), '\"'), settings.excludedRoute;
            && |r| == |ps|
            && (forall i :: 0 <= i && i + 2 < |r| && EndsWith(r[i], "job=") && r[i + 1] != "" ==>
                  r[i + 1] == Scan(settings.jobName, settings.prefix))
            && (forall i :: route.Some? && 0 <= i && i + 2 < |r| && EndsWith(r[i], "route!=") && r[i + 1] != "" ==>
                  r[i + 1] == Scan(route.value, settings.prefix))
            && (forall i :: 0 <= i < |ps| ==>
                  || r[i] == Scan(ps[i], settings.prefix)
                  || (0 < i && i + 1 < |ps| && ps[i] != ""
                      && (EndsWith(ps[i - 1], "job=") || (EndsWith(ps[i - 1], "route!=") && route.Some?))))
  {
    RewriteExpressionMeans(s, settings);
    assert JOB == "job=" && ROUTE == "route!=" && QUOTE == '\"';
  }

  // ----- when renaming leaves a text alone -----

  lemma PrefixedRest(s: string, n: nat, prefix: string)
    requires 0 < n <= |s| && IsWord(s[n - 1]) && AllPrefixed(false, s, prefix, METRIC_ROOTS)
    ensures AllPrefixed(true, s[n..], prefix, METRIC_ROOTS)
  {
    var rest := s[n..];
    forall i, k | 0 <= i < |rest| && 0 <= k < |METRIC_ROOTS| && WordBegins(true, rest, i)
                  && AtToken(rest[i..], METRIC_ROOTS[k])
      ensures StartsWith(rest[i..], prefix + METRIC_ROOTS[k])
    {
      assert rest[i..] == s[n + i..] && WordBegins(false, s, n + i);
    }
  }

  lemma PrefixedTail(inside: bool, s: string, prefix: string)
    requires s != "" && AllPrefixed(inside, s, prefix, METRIC_ROOTS)
    ensures AllPrefixed(IsWord(s[0]), s[1..], prefix, METRIC_ROOTS)
  {
    var rest := s[1..];
    forall i, k | 0 <= i < |rest| && 0 <= k < |METRIC_ROOTS| && WordBegins(IsWord(s[0]), rest, i)
                  && AtToken(rest[i..], METRIC_ROOTS[k])
      ensures StartsWith(rest[i..], prefix + METRIC_ROOTS[k])
    {
      assert rest[i..] == s[i + 1..] && WordBegins(inside, s, i + 1);
    }
  }

  /** A text whose known metric names all carry the prefix already is left alone. */
  lemma {:induction false} PrefixedStays(inside: bool, s: string, prefix: string)
    requires PlainPrefix(prefix) && AllPrefixed(inside, s, prefix, METRIC_ROOTS)
    ensures AtOnce(inside, s, prefix, METRIC_ROOTS) == s
    decreases |s|
  {
    if s != "" {
      var k := RootAt(s, METRIC_ROOTS);
      if !inside && k < |METRIC_ROOTS| {
        GivenAlready(s, prefix, k);
        var n := Taken(s, METRIC_ROOTS[k]);
        PrefixedRest(s, n, prefix);
        PrefixedStays(true, s[n..], prefix);
        CutApart(s, n);
      } else {
        PrefixedTail(inside, s, prefix);
        PrefixedStays(IsWord(s[0]), s[1..], prefix);
        CutApart(s, 1);
      }
    }
  }

  lemma CutApart(s: string, n: nat)
    requires 0 < n <= |s|
    ensures s[..n] + s[n..] == s && (n == 1 ==> s[..n] == [s[0]])
  {
  }

  lemma GivenAlready(s: string, prefix: string, k: nat)
    requires PlainPrefix(prefix) && k < |METRIC_ROOTS| && AtToken(s, METRIC_ROOTS[k])
    requires AllPrefixed(false, s, prefix, METRIC_ROOTS)
    ensures var n := Taken(s, METRIC_ROOTS[k]);
            s[..n] == prefix + METRIC_ROOTS[k] && IsWord(s[n - 1])
  {
    var root := METRIC_ROOTS[k];
    RunLetters(s);
    RootsAreWords(k);
    assert s[0..] == s && WordBegins(false, s, 0);
    var tail := s[|prefix|..];
    assert s[..|prefix|] == (prefix + root)[..|prefix|] == prefix;
    assert s == prefix + tail;
    PrefixedCarries(prefix, tail, root);
    var n := Taken(s, root);
    assert s[n - 1] == s[..n][n - 1] == root[|root| - 1];
  }

  lemma RenamedIff(s: string, settings: Settings)
    requires Proper(settings)
    ensures Scan(s, settings.prefix) == s <==> AllPrefixed(false, s, settings.prefix, METRIC_ROOTS)
  {
    RootsUsable(settings.prefix);
    ScanPrefixes(false, s, settings.prefix, METRIC_ROOTS);
    if AllPrefixed(false, s, settings.prefix, METRIC_ROOTS) {
      PrefixedStays(false, s, settings.prefix);
    }
  }
}
