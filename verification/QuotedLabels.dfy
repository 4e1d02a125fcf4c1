/** `replace` of every `<label>"[^"]+"` by `<label>"<value>"`, as a rewriting of the pieces between the
    quotation marks. */
module QuotedLabels {
  import opened Sequences
  import opened Text
  import opened Separated

  const QUOTE: char := '\"'

  predicate QuoteFree(s: string) {
    Free(s, QUOTE)
  }

  /** How far the first quotation mark is. */
  function ToQuote(s: string): nat {
    To(s, QUOTE)
  }

  /** `<label>"[^"]+"` at the start of `s`. */
  predicate AtLabel(s: string, key: string) {
    StartsWith(s, key + [QUOTE]) && 0 < ToQuote(s[|key| + 1..]) < |s| - |key| - 1
  }

  /** What follows the closing quotation mark. */
  function AfterLabel(s: string, key: string): (r: string)
    requires AtLabel(s, key)
    ensures |r| < |s|
  {
    s[|key| + 1..][ToQuote(s[|key| + 1..]) + 1..]
  }

  /** One `replace` with the `g` flag; the value holds no `$`, so it stands for itself. */
  function ReplaceLabel(s: string, key: string, value: string): string
    decreases |s|
  {
    if s == "" then ""
    else if AtLabel(s, key) then key + [QUOTE] + value + [QUOTE] + ReplaceLabel(AfterLabel(s, key), key, value)
    else [s[0]] + ReplaceLabel(s[1..], key, value)
  }

  // ----- pieces -----

  ghost predicate AllQuoteFree(ps: seq<string>) {
    AllFree(ps, QUOTE)
  }

  /** The replacement on pieces: a non-empty piece between a piece that ends in the label and a further
      piece becomes the value. */
  function Relabel(ps: seq<string>, key: string, value: string): (r: seq<string>)
    ensures |r| == |ps| && (ps != [] ==> r[0] == ps[0])
    decreases |ps|
  {
    if ps == [] then []
    else if Labelled(ps, key) then [ps[0], value] + Relabel(ps[2..], key, value)
    else [ps[0]] + Relabel(ps[1..], key, value)
  }

  predicate Labelled(ps: seq<string>, key: string) {
    |ps| > 2 && EndsWith(ps[0], key) && ps[1] != ""
  }

  /** A piece is copied up to a label at its end that is followed by a quoted value. */
  lemma {:induction false} CopiedToLabel(p: string, tail: string, key: string, value: string)
    requires QuoteFree(p) && QuoteFree(key) && key != ""
    requires tail == "" || tail[0] == QUOTE
    requires EndsWith(p, key) && AtLabel(key + tail, key)
    ensures ReplaceLabel(p + tail, key, value) == p[..|p| - |key|] + ReplaceLabel(key + tail, key, value)
  {
    if p == key {
      LabelThenTail(tail, key, value);
    } else {
      StepsOver(p, tail, key, value);
      EndsLater(p, key);
      CopiedToLabel(p[1..], tail, key, value);
      Prepend(p, |p| - 1 - |key|, ReplaceLabel(key + tail, key, value));
    }
  }

  lemma Prepend(p: string, n: nat, v: string)
    requires n < |p|
    ensures [p[0]] + (p[1..][..n] + v) == p[..n + 1] + v
  {
    assert [p[0]] + p[1..][..n] == p[..n + 1];
    Associate([p[0]], p[1..][..n], v);
  }

  /** Any other piece is copied whole. */
  lemma {:induction false} CopiedThrough(p: string, tail: string, key: string, value: string)
    requires QuoteFree(p) && QuoteFree(key) && key != ""
    requires tail == "" || tail[0] == QUOTE
    requires !(EndsWith(p, key) && AtLabel(key + tail, key))
    ensures ReplaceLabel(p + tail, key, value) == p + ReplaceLabel(tail, key, value)
  {
    if p == "" {
      assert p + tail == tail;
    } else if p == key {
      LabelThenTail(tail, key, value);
    } else {
      StepsOver(p, tail, key, value);
      EndsLater(p, key);
      CopiedThrough(p[1..], tail, key, value);
      assert [p[0]] + p[1..] == p;
      Associate([p[0]], p[1..], ReplaceLabel(tail, key, value));
    }
  }

  lemma StepsOver(p: string, tail: string, key: string, value: string)
    requires QuoteFree(p) && QuoteFree(key) && key != ""
    requires p != "" && p != key && (tail == "" || tail[0] == QUOTE)
    ensures ReplaceLabel(p + tail, key, value) == [p[0]] + ReplaceLabel(p[1..] + tail, key, value)
  {
    NotAtLabel(p, tail, key);
    assert (p + tail)[0] == p[0] && (p + tail)[1..] == p[1..] + tail;
  }

  lemma EndsLater(p: string, key: string)
    requires p != "" && p != key
    ensures EndsWith(p, key) <==> EndsWith(p[1..], key)
  {
    if |key| < |p| {
      assert p[1..][|p| - 1 - |key|..] == p[|p| - |key|..];
    } else if |key| == |p| {
      assert p[0..] == p;
    }
  }

  /** The label must be followed by a quotation mark, so it is the whole of the piece. */
  lemma LabelIsPiece(p: string, tail: string, key: string)
    requires QuoteFree(p) && QuoteFree(key) && (tail == "" || tail[0] == QUOTE)
    requires StartsWith(p + tail, key + [QUOTE])
    ensures p == key
  {
    var s, w := p + tail, key + [QUOTE];
    assert forall i :: 0 <= i < |w| ==> s[i] == w[i];
    assert s[|key|] == QUOTE;
    assert |p| <= |key|;
    assert |p| < |s| && s[|p|] == QUOTE;
    assert s[|p|] == w[|p|];
    assert |p| == |key|;
    assert p == s[..|key|] == w[..|key|] == key;
  }

  lemma NotAtLabel(p: string, tail: string, key: string)
    requires QuoteFree(p) && QuoteFree(key) && p != key && (tail == "" || tail[0] == QUOTE)
    ensures !AtLabel(p + tail, key)
  {
    if StartsWith(p + tail, key + [QUOTE]) {
      LabelIsPiece(p, tail, key);
    }
  }

  /** A label that is not followed by a quoted value is copied, character by character. */
  lemma LabelThenTail(tail: string, key: string, value: string)
    requires QuoteFree(key) && key != "" && (tail == "" || tail[0] == QUOTE)
    ensures !AtLabel(key + tail, key) ==> ReplaceLabel(key + tail, key, value) == key + ReplaceLabel(tail, key, value)
    ensures key[..0] + ReplaceLabel(key + tail, key, value) == ReplaceLabel(key + tail, key, value)
  {
    if !AtLabel(key + tail, key) {
      assert (key + tail)[0] == key[0] && (key + tail)[1..] == key[1..] + tail;
      Shorter(key[1..], tail, key, value);
      assert [key[0]] + key[1..] == key;
      Associate([key[0]], key[1..], ReplaceLabel(tail, key, value));
    }
  }

  /** A piece shorter than the label is copied. */
  lemma {:induction false} Shorter(p: string, tail: string, key: string, value: string)
    requires QuoteFree(p) && QuoteFree(key) && |p| < |key| && (tail == "" || tail[0] == QUOTE)
    ensures ReplaceLabel(p + tail, key, value) == p + ReplaceLabel(tail, key, value)
    decreases |p|
  {
    if p == "" {
      assert p + tail == tail;
    } else {
      NotAtLabel(p, tail, key);
      assert (p + tail)[0] == p[0] && (p + tail)[1..] == p[1..] + tail;
      Shorter(p[1..], tail, key, value);
      assert [p[0]] + p[1..] == p;
      Associate([p[0]], p[1..], ReplaceLabel(tail, key, value));
    }
  }

  lemma QuoteCopied(rest: string, key: string, value: string)
    requires QuoteFree(key) && key != ""
    ensures ReplaceLabel([QUOTE] + rest, key, value) == [QUOTE] + ReplaceLabel(rest, key, value)
  {
    var s := [QUOTE] + rest;
    assert s[1..] == rest;
    FirstOfLabel(s, key);
  }

  lemma FirstOfLabel(s: string, key: string)
    requires key != ""
    ensures StartsWith(s, key + [QUOTE]) ==> s[0] == key[0]
  {
    if StartsWith(s, key + [QUOTE]) {
      assert (key + [QUOTE])[0] == s[..|key| + 1][0];
    }
  }

  /** When a label and its tail are the head of a list of pieces, the pattern matches exactly when they
      are labelled. */
  lemma LabelAtSplit(ps: seq<string>, key: string)
    requires |ps| > 1 && AllQuoteFree(ps)
    ensures var s := key + ([QUOTE] + Join(ps[1..], QUOTE));
            && (AtLabel(s, key) <==> |ps| > 2 && ps[1] != "")
            && (AtLabel(s, key) ==> AfterLabel(s, key) == Join(ps[2..], QUOTE))
  {
    var rest := ps[1..];
    var s := key + ([QUOTE] + Join(rest, QUOTE));
    assert s[..|key| + 1] == key + [QUOTE];
    assert s[|key| + 1..] == Join(rest, QUOTE);
    if |rest| == 1 {
      assert rest[0] + "" == rest[0];
      ToIs(rest[0], "", QUOTE);
    } else {
      ToIs(rest[0], [QUOTE] + Join(rest[1..], QUOTE), QUOTE);
      assert rest[1..] == ps[2..];
      assert Join(rest, QUOTE)[|rest[0]| + 1..] == Join(ps[2..], QUOTE);
    }
  }

  /** Replacing labels in a text is relabelling its pieces. */
  lemma {:induction false} ReplaceIsRelabel(ps: seq<string>, key: string, value: string)
    requires ps != [] && AllQuoteFree(ps) && QuoteFree(key) && key != ""
    ensures ReplaceLabel(Join(ps, QUOTE), key, value) == Join(Relabel(ps, key, value), QUOTE)
    decreases |ps|
  {
    if |ps| == 1 {
      assert ps[0] + "" == ps[0];
      assert !AtLabel(key + "", key);
      CopiedThrough(ps[0], "", key, value);
      assert ps[0] + ReplaceLabel("", key, value) == ps[0];
      assert Relabel(ps[1..], key, value) == [];
    } else {
      LabelAtSplit(ps, key);
      var tail := [QUOTE] + Join(ps[1..], QUOTE);
      if Labelled(ps, key) {
        CopiedToLabel(ps[0], tail, key, value);
        LabelledHead(ps, key, value);
      } else {
        CopiedThrough(ps[0], tail, key, value);
        QuoteCopied(Join(ps[1..], QUOTE), key, value);
        ReplaceIsRelabel(ps[1..], key, value);
        assert ([ps[0]] + Relabel(ps[1..], key, value))[1..] == Relabel(ps[1..], key, value);
      }
    }
  }

  lemma LabelledHead(ps: seq<string>, key: string, value: string)
    requires Labelled(ps, key) && AllQuoteFree(ps) && QuoteFree(key) && key != ""
    ensures ps[0][..|ps[0]| - |key|] + ReplaceLabel(key + ([QUOTE] + Join(ps[1..], QUOTE)), key, value)
         == Join(Relabel(ps, key, value), QUOTE)
    decreases |ps|, 0
  {
    LabelAtSplit(ps, key);
    ReplaceIsRelabel(ps[2..], key, value);
    var tail := Relabel(ps[2..], key, value);
    var all := [ps[0], value] + tail;
    assert all[1..] == [value] + tail && ([value] + tail)[1..] == tail;
    assert Join(all, QUOTE) == ps[0] + ([QUOTE] + (value + ([QUOTE] + Join(tail, QUOTE))));
    assert ps[0] == ps[0][..|ps[0]| - |key|] + key;
    QuotedParts(ps[0][..|ps[0]| - |key|], key, value, Join(tail, QUOTE));
  }

  lemma QuotedParts(a: string, key: string, value: string, z: string)
    ensures a + (key + [QUOTE] + value + [QUOTE] + z) == (a + key) + ([QUOTE] + (value + ([QUOTE] + z)))
  {
  }

  // ----- what a second replacement finds -----

  /** Every labelled piece holds the value. */
  ghost predicate Settled(ps: seq<string>, key: string, value: string) {
    forall i :: 0 <= i && i + 2 < |ps| && EndsWith(ps[i], key) && ps[i + 1] != "" ==> ps[i + 1] == value
  }

  lemma {:induction false} RelabelKeepsLength(ps: seq<string>, key: string, value: string)
    requires QuoteFree(value)
    ensures AllQuoteFree(ps) ==> AllQuoteFree(Relabel(ps, key, value))
    decreases |ps|
  {
    if ps != [] {
      RelabelKeepsLength(if Labelled(ps, key) then ps[2..] else ps[1..], key, value);
    }
  }

  /** A list of pieces is settled when its head is and its tail is. */
  lemma SettledCons(p: string, ps: seq<string>, key: string, value: string)
    requires Settled(ps, key, value)
    requires |ps| > 1 && EndsWith(p, key) && ps[0] != "" ==> ps[0] == value
    ensures Settled([p] + ps, key, value)
  {
    var all := [p] + ps;
    forall i | 0 <= i && i + 2 < |all| && EndsWith(all[i], key) && all[i + 1] != ""
      ensures all[i + 1] == value
    {
      if i > 0 {
        assert all[i] == ps[i - 1] && all[i + 1] == ps[i - 1 + 1];
      }
    }
  }

  /** One replacement settles its own label, when the value does not end in it. */
  lemma {:induction false} RelabelSettles(ps: seq<string>, key: string, value: string)
    requires !EndsWith(value, key)
    ensures Settled(Relabel(ps, key, value), key, value)
    decreases |ps|
  {
    if ps == [] {
    } else if Labelled(ps, key) {
      var tail := Relabel(ps[2..], key, value);
      RelabelSettles(ps[2..], key, value);
      SettledCons(value, tail, key, value);
      SettledCons(ps[0], [value] + tail, key, value);
      assert [ps[0]] + ([value] + tail) == Relabel(ps, key, value);
    } else {
      RelabelSettles(ps[1..], key, value);
      SettledCons(ps[0], Relabel(ps[1..], key, value), key, value);
    }
  }

  lemma SettledTail(ps: seq<string>, key: string, value: string, n: nat)
    requires Settled(ps, key, value) && n <= |ps|
    ensures Settled(ps[n..], key, value)
  {
    var t := ps[n..];
    forall i | 0 <= i && i + 2 < |t| && EndsWith(t[i], key) && t[i + 1] != ""
      ensures t[i + 1] == value
    {
      assert t[i] == ps[n + i] && t[i + 1] == ps[n + i + 1];
    }
  }

  /** Replacing another label keeps a settled label settled, when neither value ends in the first label
      and no piece can end in both. */
  lemma {:induction false} RelabelKeepsSettled(ps: seq<string>, other: string, w: string, key: string, value: string)
    requires Settled(ps, key, value) && !EndsWith(w, key)
    requires forall p: string :: !(EndsWith(p, key) && EndsWith(p, other))
    ensures Settled(Relabel(ps, other, w), key, value)
    decreases |ps|
  {
    if ps == [] {
    } else if Labelled(ps, other) {
      var tail := Relabel(ps[2..], other, w);
      SettledTail(ps, key, value, 2);
      RelabelKeepsSettled(ps[2..], other, w, key, value);
      SettledCons(w, tail, key, value);
      SettledCons(ps[0], [w] + tail, key, value);
      assert [ps[0]] + ([w] + tail) == Relabel(ps, other, w);
    } else {
      SettledTail(ps, key, value, 1);
      RelabelKeepsSettled(ps[1..], other, w, key, value);
      var tail := Relabel(ps[1..], other, w);
      assert |tail| > 1 && EndsWith(ps[0], key) && tail[0] != "" ==> ps[0 + 1] == value;
      SettledCons(ps[0], tail, key, value);
    }
  }

  /** Piece `i` lies between a piece that ends in the label and a further piece. */
  predicate Behind(ps: seq<string>, i: nat, key: string) {
    0 < i && i + 1 < |ps| && EndsWith(ps[i - 1], key) && ps[i] != ""
  }

  /** Only pieces behind the label change. */
  lemma {:induction false} RelabelAt(ps: seq<string>, key: string, value: string, i: nat)
    requires i < |ps|
    ensures Relabel(ps, key, value)[i] == ps[i] || (Behind(ps, i, key) && Relabel(ps, key, value)[i] == value)
    decreases |ps|
  {
    if Labelled(ps, key) {
      if i > 1 {
        RelabelAt(ps[2..], key, value, i - 2);
      }
    } else if i > 0 {
      RelabelAt(ps[1..], key, value, i - 1);
    }
  }
}
