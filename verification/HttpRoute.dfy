/** `normalizeHttpRoute`: the route label of HTTP metrics, against a description by path segments. */
module HttpRoute {
  import opened Results
  import opened Sequences

  // ----- the code -----

  /** `value.replace(/\/+$/, '')`, except for the root path. */
  function TrimTrailingSlash(value: string): string {
    if value == "/" then value else StripSlashes(value)
  }

  function StripSlashes(value: string): string {
    if value != "" && value[|value| - 1] == '/' then StripSlashes(value[..|value| - 1]) else value
  }

  /** `value.replace(/\/{2,}/g, '/')` */
  function Collapse(value: string): string {
    if |value| < 2 then value
    else if value[0] == '/' && value[1] == '/' then Collapse(value[1..])
    else [value[0]] + Collapse(value[1..])
  }

  function NormalizeFragment(value: string): string {
    if value == "" then "" else Collapse(if value[0] == '/' then value else "/" + value)
  }

  /** `request.route?.path`: missing, one pattern, or a list of patterns. */
  datatype RoutePath = Missing | One(path: string) | Many(paths: seq<string>)

  function FirstPath(p: RoutePath): string
    requires !p.Missing?
  {
    match p case One(path) => path case Many(paths) => if paths == [] then "" else paths[0]
  }

  /** The two known parts put together; `route` is not empty. */
  function JoinRoute(base: string, route: string): string {
    var r, b := NormalizeFragment(route), TrimTrailingSlash(NormalizeFragment(base));
    TrimTrailingSlash(if r == "/" then (if b == "" then "/" else b) else b + r)
  }

  function NormalizeHttpRoute(baseUrl: Option<string>, routePath: RoutePath): string {
    if routePath.Missing? || NormalizeFragment(FirstPath(routePath)) == "" then "UNKNOWN"
    else JoinRoute(if baseUrl.None? then "" else baseUrl.value, FirstPath(routePath))
  }

  // ----- the description -----

  /** The length of the part before the first slash. */
  function Head(s: string): (n: nat)
    ensures n <= |s|
  {
    if s == "" || s[0] == '/' then 0 else 1 + Head(s[1..])
  }

  /** The non-empty parts between slashes. */
  function Segments(s: string): seq<string>
    decreases |s|
  {
    if s == "" then []
    else if s[0] == '/' then Segments(s[1..])
    else [s[..Head(s)]] + Segments(s[Head(s)..])
  }

  /** Every segment with a slash in front. */
  function Slashed(segments: seq<string>): string {
    if segments == [] then "" else "/" + segments[0] + Slashed(segments[1..])
  }

  /** The canonical path of a list of segments; no segments is the root. */
  function Canonical(segments: seq<string>): string {
    if segments == [] then "/" else Slashed(segments)
  }

  predicate AllSlashes(s: string) {
    forall i :: 0 <= i < |s| ==> s[i] == '/'
  }

  predicate IsSegment(s: string) {
    s != "" && '/' !in s
  }

  predicate AreSegments(segments: seq<string>) {
    forall i :: 0 <= i < |segments| ==> IsSegment(segments[i])
  }

  // ----- segments of a string -----

  lemma {:induction false} HeadIs(s: string)
    ensures '/' !in s[..Head(s)] && (Head(s) < |s| ==> s[Head(s)] == '/')
    ensures s != "" && s[0] != '/' ==> Head(s) > 0
  {
    if s != "" && s[0] != '/' {
      HeadIs(s[1..]);
      assert s[..Head(s)] == [s[0]] + s[1..][..Head(s[1..])];
    }
  }

  lemma {:induction false} SegmentsAreSegments(s: string)
    ensures AreSegments(Segments(s))
    decreases |s|
  {
    if s != "" {
      if s[0] == '/' {
        SegmentsAreSegments(s[1..]);
      } else {
        HeadIs(s);
        SegmentsAreSegments(s[Head(s)..]);
      }
    }
  }

  lemma {:induction false} NoSegmentsIffSlashes(s: string)
    ensures Segments(s) == [] <==> AllSlashes(s)
    decreases |s|
  {
    if s != "" {
      if s[0] == '/' {
        NoSegmentsIffSlashes(s[1..]);
        assert forall i :: 0 < i < |s| ==> s[i] == s[1..][i - 1];
      } else {
        assert s[0] != '/';
      }
    }
  }

  // ----- collapsing -----

  /** Letters before a slash are copied. */
  lemma {:induction false} CollapseHead(w: string, rest: string)
    requires '/' !in w && (rest == "" || rest[0] == '/')
    ensures Collapse(w + rest) == w + Collapse(rest)
  {
    if w == "" {
      assert w + rest == rest;
    } else {
      CollapseHead(w[1..], rest);
      assert w + rest == [w[0]] + (w[1..] + rest);
      assert w[0] in w;
      CollapseCons(w[0], w[1..] + rest);
      assert [w[0]] + (w[1..] + Collapse(rest)) == w + Collapse(rest);
    }
  }

  lemma CollapseCons(c: char, s: string)
    requires s == "" || c != '/' || s[0] != '/'
    ensures Collapse([c] + s) == [c] + Collapse(s)
  {
    assert ([c] + s)[1..] == s;
  }

  lemma CollapseSegment(w: string, rest: string)
    requires IsSegment(w) && (rest == "" || rest[0] == '/')
    ensures Collapse("/" + (w + rest)) == "/" + w + Collapse(rest)
  {
    assert (w + rest)[0] == w[0] && w[0] in w;
    CollapseCons('/', w + rest);
    CollapseHead(w, rest);
    Associate("/", w, Collapse(rest));
  }

  function EndSlash(s: string): string {
    if s == "" || s[|s| - 1] == '/' then "/" else ""
  }

  /** A slash-led string collapses to its segments, each with one slash, and a last slash when the string
      ends in one. */
  lemma {:induction false} CollapseIs(s: string)
    ensures Collapse("/" + s) == Slashed(Segments(s)) + EndSlash(s)
    decreases |s|, 1
  {
    if s == "" {
      assert "/" + s == "/";
    } else if s[0] == '/' {
      assert ("/" + s)[1..] == s == "/" + s[1..];
      CollapseIs(s[1..]);
    } else {
      CollapseLetters(s);
    }
  }

  lemma CollapseLetters(s: string)
    requires s != "" && s[0] != '/'
    ensures Collapse("/" + s) == Slashed(Segments(s)) + EndSlash(s)
    decreases |s|, 0
  {
    HeadIs(s);
    var w, rest := s[..Head(s)], s[Head(s)..];
    assert s == w + rest;
    if rest != "" {
      RestCollapses(rest);
    }
    CollapseParts(w, rest, Segments(rest), if rest == "" then "" else EndSlash(rest[1..]));
    EndOfRest(s, Head(s));
  }

  lemma EndOfRest(s: string, n: nat)
    requires n <= |s| && s != "" && (n == |s| ==> s[|s| - 1] != '/') && (n < |s| ==> s[n] == '/')
    ensures (if s[n..] == "" then "" else EndSlash(s[n..][1..])) == EndSlash(s)
  {
    if n + 1 < |s| {
      assert s[n..][1..] == s[n + 1..];
    }
  }

  lemma CollapseParts(w: string, rest: string, segments: seq<string>, end: string)
    requires IsSegment(w) && (rest == "" || rest[0] == '/') && Collapse(rest) == Slashed(segments) + end
    ensures Collapse("/" + (w + rest)) == Slashed([w] + segments) + end
  {
    CollapseSegment(w, rest);
    SlashedCons(w, segments);
    Associate("/" + w, Slashed(segments), end);
  }

  lemma RestCollapses(rest: string)
    requires rest != "" && rest[0] == '/'
    ensures Collapse(rest) == Slashed(Segments(rest)) + EndSlash(rest[1..])
    decreases |rest|
  {
    assert rest == "/" + rest[1..];
    CollapseIs(rest[1..]);
  }

  lemma SlashedCons(w: string, rest: seq<string>)
    ensures Slashed([w] + rest) == "/" + w + Slashed(rest)
  {
    assert ([w] + rest)[1..] == rest;
  }

  /** What a fragment becomes: nothing, or a slash-led path. */
  lemma FragmentIs(s: string)
    requires s != ""
    ensures NormalizeFragment(s) == Slashed(Segments(s)) + (if s[|s| - 1] == '/' then "/" else "")
  {
    if s[0] == '/' {
      assert s == "/" + s[1..];
      CollapseIs(s[1..]);
      assert EndSlash(s[1..]) == if s[|s| - 1] == '/' then "/" else "";
    } else {
      CollapseIs(s);
    }
  }

  // ----- trimming -----

  lemma {:induction false} SlashedEnd(segments: seq<string>)
    requires AreSegments(segments) && segments != []
    ensures |Slashed(segments)| > 1 && Slashed(segments)[|Slashed(segments)| - 1] != '/'
  {
    var rest := segments[1..];
    if rest != [] {
      assert forall i :: 0 <= i < |rest| ==> rest[i] == segments[i + 1];
      SlashedEnd(rest);
    } else {
      assert Slashed(segments) == "/" + segments[0];
      assert IsSegment(segments[0]);
      assert segments[0][|segments[0]| - 1] in segments[0];
    }
  }

  lemma StripOnce(s: string)
    ensures s == "" || s[|s| - 1] != '/' ==> StripSlashes(s) == s && StripSlashes(s + "/") == s
  {
    assert (s + "/")[..|s|] == s;
  }

  /** Trimming a path made of segments leaves its canonical form. */
  lemma TrimIs(segments: seq<string>, slash: bool)
    requires AreSegments(segments) && (segments == [] ==> slash)
    ensures TrimTrailingSlash(Slashed(segments) + (if slash then "/" else "")) == Canonical(segments)
  {
    if segments == [] {
      assert Slashed(segments) + "/" == "/";
    } else {
      SlashedEnd(segments);
      StripOnce(Slashed(segments));
      assert slash || Slashed(segments) + "" == Slashed(segments);
    }
  }

  // ----- the route -----

  lemma {:induction false} SlashedAppend(a: seq<string>, b: seq<string>)
    ensures Slashed(a + b) == Slashed(a) + Slashed(b)
  {
    if a == [] {
      assert a + b == b;
    } else {
      assert (a + b)[1..] == a[1..] + b;
      SlashedAppend(a[1..], b);
    }
  }

  lemma BothSlashed(b: seq<string>, r: seq<string>, end: string)
    requires b != []
    ensures Canonical(b) + (Slashed(r) + end) == Slashed(b + r) + end
  {
    SlashedAppend(b, r);
    Associate(Slashed(b), Slashed(r), end);
  }

  /** Exactly when the label is the canonical path of all the segments. The exception is a base that
      consists of slashes only, in front of a route that is not the root: it keeps its slash. */
  lemma JoinRouteIs(base: string, route: string)
    requires route != ""
    ensures var b, r := Segments(base), Segments(route);
            JoinRoute(base, route) == if base != "" && b == [] && r != [] then "/" + Canonical(r) else Canonical(b + r)
  {
    var b, r := Segments(base), Segments(route);
    SegmentsAreSegments(base);
    SegmentsAreSegments(route);
    FragmentIs(route);
    NoSegmentsIffSlashes(route);
    var slash := route[|route| - 1] == '/';
    BaseIs(base);
    RouteIsRoot(route);
    if r == [] {
      assert b + r == b;
      TrimCanonical(b);
    } else if b == [] {
      assert b + r == r;
      TrimIs(r, slash);
      if base != "" {
        SlashFirst(r, slash);
      } else {
        assert "" + NormalizeFragment(route) == NormalizeFragment(route);
      }
    } else {
      BothSlashed(b, r, if slash then "/" else "");
      TrimIs(b + r, slash);
    }
  }

  lemma BaseIs(base: string)
    ensures TrimTrailingSlash(NormalizeFragment(base)) == if base == "" then "" else Canonical(Segments(base))
  {
    if base != "" {
      SegmentsAreSegments(base);
      FragmentIs(base);
      NoSegmentsIffSlashes(base);
      TrimIs(Segments(base), base[|base| - 1] == '/');
    }
  }

  lemma RouteIsRoot(route: string)
    requires route != ""
    ensures NormalizeFragment(route) == "/" <==> Segments(route) == []
    ensures NormalizeFragment(route) != ""
  {
    FragmentIs(route);
    SegmentsAreSegments(route);
    NoSegmentsIffSlashes(route);
    if Segments(route) != [] {
      SlashedEnd(Segments(route));
    }
  }

  lemma TrimCanonical(segments: seq<string>)
    requires AreSegments(segments)
    ensures TrimTrailingSlash(Canonical(segments)) == Canonical(segments)
  {
    if segments != [] {
      TrimIs(segments, false);
      assert Slashed(segments) + "" == Slashed(segments);
    }
  }

  lemma SlashFirst(r: seq<string>, slash: bool)
    requires AreSegments(r) && r != []
    ensures TrimTrailingSlash("/" + (Slashed(r) + (if slash then "/" else ""))) == "/" + Canonical(r)
  {
    SlashedEnd(r);
    var s := "/" + Slashed(r);
    assert s[|s| - 1] == Slashed(r)[|Slashed(r)| - 1];
    StripOnce(s);
    assert "/" + (Slashed(r) + "/") == s + "/" && "/" + (Slashed(r) + "") == s;
  }

  /** Both directions: the label is canonical unless it meets the exception. */
  lemma CanonicalIff(base: string, route: string)
    requires route != ""
    ensures JoinRoute(base, route) == Canonical(Segments(base) + Segments(route))
       <==> !(base != "" && AllSlashes(base) && !AllSlashes(route))
  {
    JoinRouteIs(base, route);
    NoSegmentsIffSlashes(base);
    NoSegmentsIffSlashes(route);
    if base != "" && AllSlashes(base) && !AllSlashes(route) {
      assert Segments(base) + Segments(route) == Segments(route);
      assert |"/" + Canonical(Segments(route))| == 1 + |Canonical(Segments(route))|;
    }
  }

  // ----- what canonical paths are like -----

  lemma {:induction false} SegmentsOfSlashed(segments: seq<string>)
    requires AreSegments(segments)
    ensures Segments(Slashed(segments)) == segments
  {
    if segments != [] {
      var s, rest := Slashed(segments), segments[1..];
      var tail := Slashed(rest);
      assert forall i :: 0 <= i < |rest| ==> rest[i] == segments[i + 1];
      SegmentsOfSlashed(rest);
      assert IsSegment(segments[0]) && s[1..] == segments[0] + tail;
      HeadOf(segments[0], tail);
      assert s[1..][0] == segments[0][0] && segments[0][0] in segments[0];
      assert s[1..][..|segments[0]|] == segments[0] && s[1..][|segments[0]|..] == tail;
    }
  }

  lemma {:induction false} HeadOf(w: string, rest: string)
    requires '/' !in w && (rest == "" || rest[0] == '/')
    ensures Head(w + rest) == |w|
  {
    if w != "" {
      assert (w + rest)[1..] == w[1..] + rest && (w + rest)[0] == w[0];
      HeadOf(w[1..], rest);
    } else {
      assert w + rest == rest;
    }
  }

  /** Reading a canonical path back gives its segments, so distinct lists have distinct labels. */
  lemma CanonicalRoundTrip(segments: seq<string>)
    requires AreSegments(segments)
    ensures Segments(Canonical(segments)) == segments
  {
    SegmentsOfSlashed(segments);
    assert "/"[1..] == "";
  }

  /** Fed back without a base, a canonical label stays as it is. */
  lemma FixedPoint(base: string, route: string)
    requires route != "" && !(base != "" && AllSlashes(base) && !AllSlashes(route))
    ensures JoinRoute("", JoinRoute(base, route)) == JoinRoute(base, route)
  {
    var all := Segments(base) + Segments(route);
    CanonicalIff(base, route);
    SegmentsAreSegments(base);
    SegmentsAreSegments(route);
    CanonicalRoundTrip(all);
    CanonicalIff("", Canonical(all));
    assert Segments("") + Segments(Canonical(all)) == all;
  }

  /** No label that is canonical has two slashes in a row, and only the root ends in one. */
  lemma {:induction false} NoDoubleSlash(segments: seq<string>)
    requires AreSegments(segments)
    ensures forall i :: 0 <= i < |Slashed(segments)| - 1 ==>
              !(Slashed(segments)[i] == '/' && Slashed(segments)[i + 1] == '/')
    ensures segments != [] ==> Slashed(segments)[0] == '/' && Slashed(segments)[|Slashed(segments)| - 1] != '/'
  {
    if segments != [] {
      var head, rest := "/" + segments[0], segments[1..];
      var s, tail := Slashed(segments), Slashed(rest);
      assert forall i :: 0 <= i < |rest| ==> rest[i] == segments[i + 1];
      NoDoubleSlash(rest);
      SlashedEnd(segments);
      assert IsSegment(segments[0]) && s == head + tail;
      forall i | 0 <= i < |s| - 1 ensures !(s[i] == '/' && s[i + 1] == '/') {
        if i + 1 < |head| {
          assert s[i + 1] == segments[0][i];
        } else if i < |head| {
          assert s[i] == segments[0][i - 1];
        } else {
          assert s[i] == tail[i - |head|] && s[i + 1] == tail[i + 1 - |head|];
        }
      }
    }
  }

  /** The label is `UNKNOWN` exactly when the request has no usable route pattern. */
  lemma UnknownIff(baseUrl: Option<string>, routePath: RoutePath)
    ensures NormalizeHttpRoute(baseUrl, routePath) == "UNKNOWN" <==> (routePath.Missing? || FirstPath(routePath) == "")
  {
    if !routePath.Missing? && FirstPath(routePath) != "" {
      var base, route := if baseUrl.None? then "" else baseUrl.value, FirstPath(routePath);
      RouteIsRoot(route);
      JoinRouteIs(base, route);
      SegmentsAreSegments(base);
      SegmentsAreSegments(route);
      LeadingSlash(Segments(base) + Segments(route));
      assert "UNKNOWN"[0] == 'U';
    }
  }

  lemma LeadingSlash(segments: seq<string>)
    ensures Canonical(segments)[0] == '/'
  {
  }

  // ----- the parts of a request -----

  /** A slash between two texts separates their segments. With `SegmentsOf` this says what the segments of every text
      are. */
  lemma {:induction false} SegmentsSplit(a: string, b: string)
    ensures Segments(a + "/" + b) == Segments(a) + Segments(b)
    decreases |a|
  {
    var s := a + "/" + b;
    if a == "" {
      assert s[1..] == b;
    } else if a[0] == '/' {
      assert s[1..] == a[1..] + "/" + b;
      SegmentsSplit(a[1..], b);
    } else {
      HeadIs(a);
      var n, tail := Head(a), a[Head(a)..];
      assert s == a[..n] + (tail + "/" + b);
      HeadOf(a[..n], tail + "/" + b);
      assert s[..n] == a[..n] && s[n..] == tail + "/" + b;
      SegmentsSplit(tail, b);
      Associate([a[..n]], Segments(tail), Segments(b));
    }
  }

  lemma SegmentsOf(s: string)
    requires '/' !in s
    ensures Segments(s) == if s == "" then [] else [s]
  {
    if s != "" {
      assert s[0] in s;
      HeadOf(s, "");
      assert s + "" == s && s[..|s|] == s && s[|s|..] == "";
    }
  }

  /** Of several patterns the first counts; no pattern and an empty one are unknown; a missing base is an empty one;
      and otherwise the label is that of the two parts. */
  lemma PartsOfRequest(baseUrl: Option<string>, base: string, path: string, more: seq<string>)
    ensures NormalizeHttpRoute(baseUrl, Missing) == "UNKNOWN" && NormalizeHttpRoute(baseUrl, Many([])) == "UNKNOWN"
    ensures NormalizeHttpRoute(baseUrl, Many([path] + more)) == NormalizeHttpRoute(baseUrl, One(path))
    ensures NormalizeHttpRoute(None, One(path)) == NormalizeHttpRoute(Some(""), One(path))
    ensures NormalizeHttpRoute(Some(base), One(path)) == if path == "" then "UNKNOWN" else JoinRoute(base, path)
  {
    if path != "" { RouteIsRoot(path); }
  }
}
