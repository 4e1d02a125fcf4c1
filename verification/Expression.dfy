/** `rewriteExpression`: the job, the excluded route and the metric prefixes of a query expression. */
module Expression {
  import opened Text
  import opened Separated
  import opened MetricPrefix
  import opened QuotedLabels
  import opened Results

  /** `observabilityConfig`, with the first excluded route. */
  datatype Settings = Settings(jobName: string, metricsPath: string, scrapeTarget: string,
                               excludedRoute: Option<string>, prefix: string)

  const JOB: string := "job="
  const ROUTE: string := "route!="

  function ReplaceExcludedRoute(s: string, excluded: Option<string>): string {
    if excluded.None? then s else ReplaceLabel(s, ROUTE, excluded.value)
  }

  function RewriteExpression(s: string, settings: Settings): string {
    Passes(ReplaceExcludedRoute(ReplaceLabel(s, JOB, settings.jobName), settings.excludedRoute), settings.prefix,
           METRIC_ROOTS)
  }

  /** A value that stands for itself in a replacement and cannot be taken for the start of a label. */
  predicate Plain(v: string) {
    QuoteFree(v) && '$' !in v && (v == "" || v[|v| - 1] != '=')
  }

  ghost predicate PlainPrefix(prefix: string) {
    |prefix| > 1 && prefix[|prefix| - 1] == '_' && forall i :: 0 <= i < |prefix| - 1 ==> IsAlnum(prefix[i])
  }

  ghost predicate Proper(settings: Settings) {
    && Plain(settings.jobName) && (settings.excludedRoute.Some? ==> Plain(settings.excludedRoute.value))
    && PlainPrefix(settings.prefix)
  }

  // ----- the known roots -----

  lemma RootsAreWords(k: nat)
    requires k < |METRIC_ROOTS|
    ensures AllWord(METRIC_ROOTS[k]) && |METRIC_ROOTS[k]| >= 5
  {
  }

  lemma EndChars(s: string, p: string)
    ensures EndsWith(s, p) ==> forall i :: 0 <= i < |p| ==> s[|s| - |p| + i] == p[i]
  {
  }

  lemma RootsApart(j: nat, k: nat)
    requires j < |METRIC_ROOTS| && k < |METRIC_ROOTS| && j != k
    ensures !StartsWith(METRIC_ROOTS[j], METRIC_ROOTS[k])
  {
    var a, b := METRIC_ROOTS[j], METRIC_ROOTS[k];
    assert a[0] != b[0] || a[1] != b[1];
    StartChars(a, b);
  }

  lemma RootsUsable(prefix: string)
    requires PlainPrefix(prefix)
    ensures Usable(prefix, METRIC_ROOTS)
  {
    forall k | 0 <= k < |METRIC_ROOTS| ensures METRIC_ROOTS[k] != "" && AllWord(METRIC_ROOTS[k]) {
      RootsAreWords(k);
    }
    forall j, k | 0 <= j < |METRIC_ROOTS| && 0 <= k < |METRIC_ROOTS| && j != k
      ensures !StartsWith(METRIC_ROOTS[j], METRIC_ROOTS[k])
    {
      RootsApart(j, k);
    }
  }

  lemma RootsEndLabels()
    ensures LabelEnd(JOB, METRIC_ROOTS) && LabelEnd(ROUTE, METRIC_ROOTS)
  {
    forall k | 0 <= k < |METRIC_ROOTS|
      ensures METRIC_ROOTS[k] != "" && AllWord(METRIC_ROOTS[k]) && |METRIC_ROOTS[k]| >= 5
    {
      RootsAreWords(k);
    }
  }

  lemma LabelsAreQuoteFree()
    ensures QuoteFree(JOB) && QuoteFree(ROUTE) && JOB != "" && ROUTE != ""
  {
  }

  lemma LabelsApart(p: string)
    ensures !(EndsWith(p, JOB) && EndsWith(p, ROUTE))
  {
    EndChars(p, JOB);
    EndChars(p, ROUTE);
    assert JOB[2] == 'b' && ROUTE[5] == '!';
    assert EndsWith(p, JOB) ==> p[|p| - 2] == JOB[2];
    assert EndsWith(p, ROUTE) ==> p[|p| - 2] == ROUTE[5];
  }

  lemma PlainEnds(v: string, key: string)
    requires Plain(v) && key != "" && key[|key| - 1] == '='
    ensures !EndsWith(v, key)
  {
    if v != "" {
      LastCharDecides(v, key);
    }
  }

  // ----- the metric scan on pieces -----

  function Scan(s: string, prefix: string): string {
    AtOnce(false, s, prefix, METRIC_ROOTS)
  }

  function Scanned(ps: seq<string>, prefix: string): (r: seq<string>)
    ensures |r| == |ps| && forall i :: 0 <= i < |ps| ==> r[i] == Scan(ps[i], prefix)
  {
    if ps == [] then [] else [Scan(ps[0], prefix)] + Scanned(ps[1..], prefix)
  }

  lemma {:induction false} ScanJoin(ps: seq<string>, prefix: string)
    requires ps != [] && Usable(prefix, METRIC_ROOTS)
    ensures Scan(Join(ps, QUOTE), prefix) == Join(Scanned(ps, prefix), QUOTE)
  {
    if |ps| > 1 {
      ScanJoin(ps[1..], prefix);
      SplitScan(false, ps[0], QUOTE, Join(ps[1..], QUOTE), prefix, METRIC_ROOTS);
      assert Scanned(ps, prefix)[1..] == Scanned(ps[1..], prefix);
    }
  }

  lemma {:induction false} ScanQuoteFree(inside: bool, s: string, prefix: string, roots: seq<string>)
    requires QuoteFree(s) && Usable(prefix, roots)
    ensures QuoteFree(AtOnce(inside, s, prefix, roots))
    decreases |s|
  {
    if s != "" {
      var k := RootAt(s, roots);
      if !inside && k < |roots| {
        ScanQuoteFree(true, s[Taken(s, roots[k])..], prefix, roots);
      } else {
        ScanQuoteFree(IsWord(s[0]), s[1..], prefix, roots);
      }
    }
  }

  /** Pieces that the metric scan cannot tell apart. */
  ghost predicate Alike(xs: seq<string>, ys: seq<string>, prefix: string) {
    |xs| == |ys| && forall i :: 0 <= i < |xs| ==> Scan(xs[i], prefix) == Scan(ys[i], prefix)
  }

  lemma AlikePieces(x: string, y: string, prefix: string, key: string)
    requires Scan(x, prefix) == Scan(y, prefix) && LabelEnd(key, METRIC_ROOTS) && PlainPrefix(prefix)
    ensures EndsWith(x, key) <==> EndsWith(y, key)
    ensures x == "" <==> y == ""
  {
    EndKept(false, x, prefix, METRIC_ROOTS, key);
    EndKept(false, y, prefix, METRIC_ROOTS, key);
    ShortKept(false, x, prefix, METRIC_ROOTS, key);
    ShortKept(false, y, prefix, METRIC_ROOTS, key);
  }

  lemma AlikeTail(xs: seq<string>, ys: seq<string>, prefix: string, n: nat)
    requires Alike(xs, ys, prefix) && n <= |xs|
    ensures Alike(xs[n..], ys[n..], prefix)
  {
    assert forall i :: 0 <= i < |xs| - n ==> xs[n..][i] == xs[n + i] && ys[n..][i] == ys[n + i];
  }

  /** Relabelling pieces that look like settled ones leaves them looking so. */
  lemma {:induction false} RelabelAlike(xs: seq<string>, ys: seq<string>, prefix: string, key: string, value: string)
    requires Alike(xs, ys, prefix) && Settled(ys, key, value) && LabelEnd(key, METRIC_ROOTS) && PlainPrefix(prefix)
    ensures Alike(Relabel(xs, key, value), ys, prefix)
    decreases |xs|
  {
    if xs == [] {
    } else if Labelled(xs, key) {
      AlikePieces(xs[0], ys[0], prefix, key);
      AlikePieces(xs[1], ys[1], prefix, key);
      assert ys[0 + 1] == value;
      AlikeTail(xs, ys, prefix, 2);
      SettledTail(ys, key, value, 2);
      RelabelAlike(xs[2..], ys[2..], prefix, key, value);
      assert forall i :: 2 <= i < |ys| ==> ys[i] == ys[2..][i - 2];
    } else {
      AlikeTail(xs, ys, prefix, 1);
      SettledTail(ys, key, value, 1);
      RelabelAlike(xs[1..], ys[1..], prefix, key, value);
      assert forall i :: 1 <= i < |ys| ==> ys[i] == ys[1..][i - 1];
    }
  }

  // ----- the whole rewriting -----

  function Relabelled(ps: seq<string>, settings: Settings): (r: seq<string>)
    ensures |r| == |ps|
  {
    var jobs := Relabel(ps, JOB, settings.jobName);
    if settings.excludedRoute.None? then jobs else Relabel(jobs, ROUTE, settings.excludedRoute.value)
  }

  /** Rewriting an expression works piece by piece. */
  lemma RewriteIsPieces(ps: seq<string>, settings: Settings)
    requires ps != [] && AllQuoteFree(ps) && Proper(settings)
    ensures AllQuoteFree(Relabelled(ps, settings))
    ensures RewriteExpression(Join(ps, QUOTE), settings)
         == Join(Scanned(Relabelled(ps, settings), settings.prefix), QUOTE)
  {
    LabelsAreQuoteFree();
    RootsUsable(settings.prefix);
    var jobs := Relabel(ps, JOB, settings.jobName);
    ReplaceIsRelabel(ps, JOB, settings.jobName);
    RelabelKeepsLength(ps, JOB, settings.jobName);
    if settings.excludedRoute.Some? {
      ReplaceIsRelabel(jobs, ROUTE, settings.excludedRoute.value);
      RelabelKeepsLength(jobs, ROUTE, settings.excludedRoute.value);
    }
    PassesAtOnce(Join(Relabelled(ps, settings), QUOTE), settings.prefix, METRIC_ROOTS);
    ScanJoin(Relabelled(ps, settings), settings.prefix);
  }

  lemma RelabelledSettled(ps: seq<string>, settings: Settings)
    requires Proper(settings)
    ensures Settled(Relabelled(ps, settings), JOB, settings.jobName)
    ensures settings.excludedRoute.Some? ==> Settled(Relabelled(ps, settings), ROUTE, settings.excludedRoute.value)
  {
    PlainEnds(settings.jobName, JOB);
    RelabelSettles(ps, JOB, settings.jobName);
    if settings.excludedRoute.Some? {
      var route := settings.excludedRoute.value;
      PlainEnds(route, ROUTE);
      PlainEnds(route, JOB);
      RelabelSettles(Relabel(ps, JOB, settings.jobName), ROUTE, route);
      forall p: string ensures !(EndsWith(p, JOB) && EndsWith(p, ROUTE)) {
        LabelsApart(p);
      }
      RelabelKeepsSettled(Relabel(ps, JOB, settings.jobName), ROUTE, route, JOB, settings.jobName);
    }
  }

  /** Which pieces change: a value behind the job label, and a value behind the route label. */
  lemma RelabelledAt(ps: seq<string>, settings: Settings, i: nat)
    requires Proper(settings) && i < |ps|
    ensures var r, route := Relabelled(ps, settings), settings.excludedRoute;
            || r[i] == ps[i]
            || (Behind(ps, i, JOB) && r[i] == settings.jobName)
            || (route.Some? && Behind(ps, i, ROUTE) && r[i] == route.value)
  {
    var jobs := Relabel(ps, JOB, settings.jobName);
    RelabelAt(ps, JOB, settings.jobName, i);
    if settings.excludedRoute.Some? {
      RelabelAt(jobs, ROUTE, settings.excludedRoute.value, i);
      if i > 0 {
        RelabelAt(ps, JOB, settings.jobName, i - 1);
        PlainEnds(settings.jobName, ROUTE);
      }
    }
  }

  lemma ScannedSettled(ps: seq<string>, key: string, value: string, prefix: string)
    requires Settled(ps, key, value) && LabelEnd(key, METRIC_ROOTS) && PlainPrefix(prefix)
    ensures Settled(Scanned(ps, prefix), key, Scan(value, prefix))
  {
    var r := Scanned(ps, prefix);
    forall i | 0 <= i && i + 2 < |r| && EndsWith(r[i], key) && r[i + 1] != ""
      ensures r[i + 1] == Scan(value, prefix)
    {
      EndKept(false, ps[i], prefix, METRIC_ROOTS, key);
      ShortKept(false, ps[i + 1], prefix, METRIC_ROOTS, key);
    }
  }

  lemma ScannedQuoteFree(ps: seq<string>, prefix: string)
    requires AllQuoteFree(ps) && PlainPrefix(prefix)
    ensures AllQuoteFree(Scanned(ps, prefix))
  {
    RootsUsable(prefix);
    forall i | 0 <= i < |ps| ensures QuoteFree(Scanned(ps, prefix)[i]) {
      ScanQuoteFree(false, ps[i], prefix, METRIC_ROOTS);
    }
  }

  /** What rewriting leaves between the quotation marks: every value behind a job label is the job name
      and every value behind a route label the excluded route, both with their metric names renamed; and
      every piece that stood behind neither label has only its metric names renamed. */
  lemma RewriteExpressionMeans(s: string, settings: Settings)
    requires Proper(settings)
    ensures var ps, r, route := Split(s, QUOTE), Split(RewriteExpression(s, settings), QUOTE), settings.excludedRoute;
            && |r| == |ps|
            && Settled(r, JOB, Scan(settings.jobName, settings.prefix))
            && (route.Some? ==> Settled(r, ROUTE, Scan(route.value, settings.prefix)))
            && forall i :: 0 <= i < |ps| && !Behind(ps, i, JOB) && (route.None? || !Behind(ps, i, ROUTE)) ==>
                 r[i] == Scan(ps[i], settings.prefix)
  {
    var ps := Split(s, QUOTE);
    JoinSplit(s, QUOTE);
    SplitFree(s, QUOTE);
    RewriteIsPieces(ps, settings);
    var ys := Relabelled(ps, settings);
    ScannedQuoteFree(ys, settings.prefix);
    SplitJoin(Scanned(ys, settings.prefix), QUOTE);
    RelabelledSettled(ps, settings);
    RootsEndLabels();
    ScannedSettled(ys, JOB, settings.jobName, settings.prefix);
    if settings.excludedRoute.Some? {
      ScannedSettled(ys, ROUTE, settings.excludedRoute.value, settings.prefix);
    }
    forall i | 0 <= i < |ps| && !Behind(ps, i, JOB) && (settings.excludedRoute.None? || !Behind(ps, i, ROUTE))
      ensures ys[i] == ps[i]
    {
      RelabelledAt(ps, settings, i);
    }
  }

  /** Wherever a word of a rewritten expression carries a known metric root, it is the configured prefix
      that stands before it. */
  lemma RewriteExpressionPrefixes(s: string, settings: Settings)
    requires Proper(settings)
    ensures AllPrefixed(false, RewriteExpression(s, settings), settings.prefix, METRIC_ROOTS)
  {
    var labelled := ReplaceExcludedRoute(ReplaceLabel(s, JOB, settings.jobName), settings.excludedRoute);
    RootsUsable(settings.prefix);
    PassesAtOnce(labelled, settings.prefix, METRIC_ROOTS);
    ScanPrefixes(false, labelled, settings.prefix, METRIC_ROOTS);
  }

  lemma RelabelledAlike(xs: seq<string>, ys: seq<string>, settings: Settings)
    requires Proper(settings) && Alike(xs, ys, settings.prefix)
    requires Settled(ys, JOB, settings.jobName)
    requires settings.excludedRoute.Some? ==> Settled(ys, ROUTE, settings.excludedRoute.value)
    ensures Alike(Relabelled(xs, settings), ys, settings.prefix)
  {
    RootsEndLabels();
    RelabelAlike(xs, ys, settings.prefix, JOB, settings.jobName);
    if settings.excludedRoute.Some? {
      RelabelAlike(Relabel(xs, JOB, settings.jobName), ys, settings.prefix, ROUTE, settings.excludedRoute.value);
    }
  }

  /** Rewriting an expression that has been rewritten changes nothing. */
  lemma RewriteExpressionTwice(s: string, settings: Settings)
    requires Proper(settings)
    ensures RewriteExpression(RewriteExpression(s, settings), settings) == RewriteExpression(s, settings)
  {
    var prefix := settings.prefix;
    JoinSplit(s, QUOTE);
    SplitFree(s, QUOTE);
    RewriteIsPieces(Split(s, QUOTE), settings);
    var ys := Relabelled(Split(s, QUOTE), settings);
    var xs := Scanned(ys, prefix);
    RootsUsable(prefix);
    ScannedQuoteFree(ys, prefix);
    forall i | 0 <= i < |ys| ensures Scan(xs[i], prefix) == Scan(ys[i], prefix) {
      AtOnceTwice(false, ys[i], prefix, METRIC_ROOTS);
    }
    RelabelledSettled(Split(s, QUOTE), settings);
    RelabelledAlike(xs, ys, settings);
    RewriteIsPieces(xs, settings);
    assert Scanned(Relabelled(xs, settings), prefix) == Scanned(ys, prefix);
  }
}
