/** Texts split at a separator character, and joined again. */
module Separated {
  predicate Free(s: string, sep: char) {
    forall i :: 0 <= i < |s| ==> s[i] != sep
  }

  ghost predicate AllFree(ps: seq<string>, sep: char) {
    forall i :: 0 <= i < |ps| ==> Free(ps[i], sep)
  }

  /** How far the first separator is. */
  function To(s: string, sep: char): (n: nat)
    ensures n <= |s| && Free(s[..n], sep) && (n < |s| ==> s[n] == sep)
  {
    if s == "" || s[0] == sep then 0
    else
      var n := To(s[1..], sep);
      assert s[..1 + n] == [s[0]] + s[1..][..n];
      1 + n
  }

  /** `split`: a text without the separator is one piece, so there is always one. */
  function Split(s: string, sep: char): (ps: seq<string>)
    ensures ps != []
    decreases |s|
  {
    var n := To(s, sep);
    if n == |s| then [s] else [s[..n]] + Split(s[n + 1..], sep)
  }

  /** `join`; the empty list gives the empty text. */
  function Join(ps: seq<string>, sep: char): string {
    if ps == [] then "" else if |ps| == 1 then ps[0] else ps[0] + ([sep] + Join(ps[1..], sep))
  }

  lemma CutAt(s: string, n: nat)
    requires n < |s|
    ensures s[..n] + ([s[n]] + s[n + 1..]) == s
  {
  }

  lemma JoinCons(p: string, ps: seq<string>, sep: char)
    requires ps != []
    ensures Join([p] + ps, sep) == p + ([sep] + Join(ps, sep))
  {
    assert ([p] + ps)[1..] == ps;
  }

  lemma {:induction false} JoinSplit(s: string, sep: char)
    ensures Join(Split(s, sep), sep) == s
    decreases |s|
  {
    var n := To(s, sep);
    if n == |s| {
      assert s[..n] == s;
    } else {
      JoinSplit(s[n + 1..], sep);
      JoinCons(s[..n], Split(s[n + 1..], sep), sep);
      CutAt(s, n);
    }
  }

  lemma {:induction false} SplitFree(s: string, sep: char)
    ensures AllFree(Split(s, sep), sep)
    decreases |s|
  {
    var n := To(s, sep);
    if n < |s| {
      SplitFree(s[n + 1..], sep);
    } else {
      assert s[..n] == s;
    }
  }

  lemma {:induction false} ToIs(p: string, tail: string, sep: char)
    requires Free(p, sep) && (tail == "" || tail[0] == sep)
    ensures To(p + tail, sep) == |p|
  {
    if p == "" {
      assert p + tail == tail;
    } else {
      assert (p + tail)[1..] == p[1..] + tail;
      ToIs(p[1..], tail, sep);
    }
  }

  /** The pieces are determined by the text. */
  lemma {:induction false} SplitJoin(ps: seq<string>, sep: char)
    requires ps != [] && AllFree(ps, sep)
    ensures Split(Join(ps, sep), sep) == ps
  {
    if |ps| == 1 {
      assert ps[0] + "" == ps[0];
      ToIs(ps[0], "", sep);
      assert ps == [ps[0]];
    } else {
      var tail := [sep] + Join(ps[1..], sep);
      ToIs(ps[0], tail, sep);
      SplitJoin(ps[1..], sep);
      assert (ps[0] + tail)[..|ps[0]|] == ps[0];
      assert (ps[0] + tail)[|ps[0]| + 1..] == Join(ps[1..], sep);
    }
  }

  /** Joining is injective on separator-free pieces, except that the empty list and the list of one empty
      piece join to the same text. */
  lemma JoinInjective(a: seq<string>, b: seq<string>, sep: char)
    requires AllFree(a, sep) && AllFree(b, sep)
    ensures Join(a, sep) == Join(b, sep) <==> (a == b || (a == [] && b == [""]) || (a == [""] && b == []))
  {
    assert Split("", sep) == [""];
    if a != [] {
      SplitJoin(a, sep);
    }
    if b != [] {
      SplitJoin(b, sep);
    }
  }
}
