/** `withDatabaseUrlCompose`: a line edit of the printed compose file. The lines that begin with six
    spaces and a key are the entries of the maps three levels below the top, in document order. */
module ComposeUrl {
  import opened OrderedMap
  import opened Sequences
  import opened Yaml

  datatype Edit = Overwrite(value: Node) | InsertAfter(key: string, value: Node)

  /** Whether the entry is named `key`, or holds such an entry `depth` levels down. */
  predicate Hit(e: Entry<Node>, depth: nat, key: string)
    decreases depth, 0
  {
    if depth == 0 then e.key == key
    else e.value.Map? && First(e.value.entries, depth - 1, key) < |e.value.entries|
  }

  /** The first entry, in document order, that leads to the key. */
  function First(m: Entries, depth: nat, key: string): (i: nat)
    ensures i <= |m|
    decreases depth, |m| + 1
  {
    if m == [] then 0 else if Hit(m[0], depth, key) then 0 else 1 + First(m[1..], depth, key)
  }

  predicate HasDeep(m: Entries, depth: nat, key: string) {
    First(m, depth, key) < |m|
  }

  /** The value on the line that the pattern finds. */
  function Target(m: Entries, depth: nat, key: string): Node
    requires HasDeep(m, depth, key)
    decreases depth
  {
    FirstHits(m, depth, key);
    var e := m[First(m, depth, key)];
    if depth == 0 then e.value else Target(e.value.entries, depth - 1, key)
  }

  function EditDeep(m: Entries, depth: nat, key: string, edit: Edit): Entries
    requires HasDeep(m, depth, key)
    decreases depth
  {
    FirstHits(m, depth, key);
    var i := First(m, depth, key);
    if depth > 0 then m[i := Entry(m[i].key, Map(EditDeep(m[i].value.entries, depth - 1, key, edit)))]
    else match edit
      case Overwrite(v) => m[i := Entry(key, v)]
      case InsertAfter(k, v) => m[..i + 1] + [Entry(k, v)] + m[i + 1..]
  }

  /** Values that the printer puts on the line of their key. A line edit above any other value leaves
      an indented block without a parent, which is not YAML. */
  predicate OneLine(n: Node) {
    match n
    case Str(text) => '\n' !in text
    case Items(xs) => xs == []
    case Map(es) => es == []
    case _ => true
  }

  const URL_KEY := "DATABASE_URL"
  const ANCHOR_KEY := "DB_DATABASE"

  function WithDatabaseUrlCompose(root: Node, url: string): File {
    if !root.Map? then Readable(root)
    else if HasDeep(root.entries, 3, URL_KEY) then
      if OneLine(Target(root.entries, 3, URL_KEY))
      then Readable(Map(EditDeep(root.entries, 3, URL_KEY, Overwrite(Str(url))))) else Unreadable
    else if HasDeep(root.entries, 3, ANCHOR_KEY) then
      if OneLine(Target(root.entries, 3, ANCHOR_KEY))
      then Readable(Map(EditDeep(root.entries, 3, ANCHOR_KEY, InsertAfter(URL_KEY, Str(url))))) else Unreadable
    else Readable(root)
  }

  lemma {:induction false} FirstIs(m: Entries, depth: nat, key: string, i: nat)
    requires i <= |m| && (i < |m| ==> Hit(m[i], depth, key))
    requires forall j :: 0 <= j < i ==> !Hit(m[j], depth, key)
    ensures First(m, depth, key) == i
    decreases |m|
  {
    if i > 0 {
      assert forall j :: 0 <= j < i - 1 ==> m[1..][j] == m[j + 1];
      FirstIs(m[1..], depth, key, i - 1);
    }
  }

  lemma {:induction false} FirstHits(m: Entries, depth: nat, key: string)
    ensures HasDeep(m, depth, key) ==> Hit(m[First(m, depth, key)], depth, key)
    ensures forall j :: 0 <= j < First(m, depth, key) ==> !Hit(m[j], depth, key)
    decreases |m|
  {
    if m != [] && !Hit(m[0], depth, key) {
      FirstHits(m[1..], depth, key);
      forall j | 0 <= j < First(m, depth, key) ensures !Hit(m[j], depth, key) {
        if j > 0 { assert m[1..][j - 1] == m[j]; }
      }
    }
  }

  // ----- the last URL wins -----

  lemma FirstAfterReplace(m: Entries, depth: nat, key: string, e: Entry<Node>)
    requires HasDeep(m, depth, key) && Hit(e, depth, key)
    ensures First(m[First(m, depth, key) := e], depth, key) == First(m, depth, key)
  {
    FirstHits(m, depth, key);
    FirstIs(m[First(m, depth, key) := e], depth, key, First(m, depth, key));
  }

  /** Editing below an entry whose child has just been replaced by `c`. */
  lemma EditBelow(m: Entries, i: nat, c: Entries, depth: nat, key: string, edit: Edit)
    requires i < |m| && depth > 0 && HasDeep(c, depth - 1, key)
    requires forall j :: 0 <= j < i ==> !Hit(m[j], depth, key)
    ensures var r := m[i := Entry(m[i].key, Map(c))];
            && HasDeep(r, depth, key) && Target(r, depth, key) == Target(c, depth - 1, key)
            && EditDeep(r, depth, key, edit) == m[i := Entry(m[i].key, Map(EditDeep(c, depth - 1, key, edit)))]
  {
    var e := Entry(m[i].key, Map(c));
    var r := m[i := e];
    assert Hit(e, depth, key);
    FirstIs(r, depth, key, i);
    assert r[i] == e;
  }

  lemma {:induction false} OverwriteTwice(m: Entries, depth: nat, key: string, v: Node, w: Node)
    requires HasDeep(m, depth, key)
    ensures var r := EditDeep(m, depth, key, Overwrite(v));
            && HasDeep(r, depth, key) && Target(r, depth, key) == v
            && EditDeep(r, depth, key, Overwrite(w)) == EditDeep(m, depth, key, Overwrite(w))
    decreases depth
  {
    FirstHits(m, depth, key);
    var i := First(m, depth, key);
    if depth > 0 {
      var child := m[i].value.entries;
      OverwriteTwice(child, depth - 1, key, v, w);
      EditBelow(m, i, EditDeep(child, depth - 1, key, Overwrite(v)), depth, key, Overwrite(w));
    } else {
      FirstAfterReplace(m, 0, key, Entry(key, v));
    }
  }

  lemma InsertThenOverwriteLeaf(m: Entries, anchor: string, key: string, v: Node, w: Node)
    requires HasDeep(m, 0, anchor) && !HasDeep(m, 0, key)
    ensures var r := EditDeep(m, 0, anchor, InsertAfter(key, v));
            && HasDeep(r, 0, key) && Target(r, 0, key) == v
            && EditDeep(r, 0, key, Overwrite(w)) == EditDeep(m, 0, anchor, InsertAfter(key, w))
  {
    FirstHits(m, 0, anchor);
    FirstHits(m, 0, key);
    var i, r := First(m, 0, anchor), EditDeep(m, 0, anchor, InsertAfter(key, v));
    assert forall j :: 0 <= j <= i ==> r[j] == m[j] && !Hit(m[j], 0, key);
    FirstIs(r, 0, key, i + 1);
    assert r[i + 1 := Entry(key, w)] == m[..i + 1] + [Entry(key, w)] + m[i + 1..];
  }

  lemma {:induction false} InsertThenOverwrite(m: Entries, depth: nat, anchor: string, key: string, v: Node, w: Node)
    requires HasDeep(m, depth, anchor) && !HasDeep(m, depth, key)
    ensures var r := EditDeep(m, depth, anchor, InsertAfter(key, v));
            && HasDeep(r, depth, key) && Target(r, depth, key) == v
            && EditDeep(r, depth, key, Overwrite(w)) == EditDeep(m, depth, anchor, InsertAfter(key, w))
    decreases depth
  {
    if depth == 0 {
      InsertThenOverwriteLeaf(m, anchor, key, v, w);
    } else {
      FirstHits(m, depth, anchor);
      FirstHits(m, depth, key);
      var i := First(m, depth, anchor);
      var child := m[i].value.entries;
      assert forall j :: 0 <= j < |m| ==> !Hit(m[j], depth, key);
      InsertThenOverwrite(child, depth - 1, anchor, key, v, w);
      EditBelow(m, i, EditDeep(child, depth - 1, anchor, InsertAfter(key, v)), depth, key, Overwrite(w));
    }
  }

  /** Writing the URL for one database and then for another is writing it for the other, whether the
      key was there or had to be inserted. */
  lemma LastUrlWins(root: Node, a: string, b: string)
    requires WithDatabaseUrlCompose(root, a).Readable? && '\n' !in a
    ensures WithDatabaseUrlCompose(WithDatabaseUrlCompose(root, a).root, b) == WithDatabaseUrlCompose(root, b)
  {
    if root.Map? {
      if HasDeep(root.entries, 3, URL_KEY) {
        OverwriteTwice(root.entries, 3, URL_KEY, Str(a), Str(b));
      } else if HasDeep(root.entries, 3, ANCHOR_KEY) {
        InsertThenOverwrite(root.entries, 3, ANCHOR_KEY, URL_KEY, Str(a), Str(b));
      }
    }
  }

  // ----- nothing else is touched -----

  /** The same document, but for entries named `key` exactly `depth` levels down. */
  ghost predicate SameBut(m: Entries, r: Entries, depth: nat, key: string)
    decreases depth
  {
    if depth == 0 then Remove(m, key) == Remove(r, key)
    else |m| == |r| && forall i :: 0 <= i < |m| ==>
      && m[i].key == r[i].key
      && (m[i].value == r[i].value
          || (m[i].value.Map? && r[i].value.Map? && SameBut(m[i].value.entries, r[i].value.entries, depth - 1, key)))
  }

  lemma {:induction false} RemoveAppend(a: Entries, b: Entries, key: string)
    ensures Remove(a + b, key) == Remove(a, key) + Remove(b, key)
  {
    if a == [] {
      assert a + b == b;
    } else {
      assert (a + b)[1..] == a[1..] + b;
      RemoveAppend(a[1..], b, key);
    }
  }

  lemma RemoveFirst(x: Entry<Node>, after: Entries, key: string)
    requires x.key == key
    ensures Remove([x] + after, key) == Remove(after, key)
  {
    assert ([x] + after)[1..] == after;
  }

  lemma RemoveAround(before: Entries, x: Entry<Node>, after: Entries, key: string)
    requires x.key == key
    ensures Remove(before + [x] + after, key) == Remove(before, key) + Remove(after, key)
  {
    assert before + [x] + after == before + ([x] + after);
    RemoveAppend(before, [x] + after, key);
    RemoveFirst(x, after, key);
  }

  lemma EditTouchesLeaf(m: Entries, found: string, edit: Edit, key: string)
    requires HasDeep(m, 0, found)
    requires match edit case Overwrite(_) => found == key case InsertAfter(k, _) => k == key
    ensures Remove(m, key) == Remove(EditDeep(m, 0, found, edit), key)
  {
    FirstHits(m, 0, found);
    var i := First(m, 0, found);
    var tail := m[i + 1..];
    match edit {
      case Overwrite(v) =>
        assert m == m[..i] + [m[i]] + tail && m[i := Entry(key, v)] == m[..i] + [Entry(key, v)] + tail;
        RemoveAround(m[..i], m[i], tail, key);
        RemoveAround(m[..i], Entry(key, v), tail, key);
      case InsertAfter(k, v) =>
        assert m == m[..i + 1] + tail;
        RemoveAppend(m[..i + 1], tail, key);
        RemoveAround(m[..i + 1], Entry(k, v), tail, key);
    }
  }

  lemma {:induction false} EditsTouchOnly(m: Entries, depth: nat, found: string, edit: Edit, key: string)
    requires HasDeep(m, depth, found)
    requires match edit case Overwrite(_) => found == key case InsertAfter(k, _) => k == key
    ensures SameBut(m, EditDeep(m, depth, found, edit), depth, key)
    decreases depth
  {
    FirstHits(m, depth, found);
    if depth > 0 {
      EditsTouchOnly(m[First(m, depth, found)].value.entries, depth - 1, found, edit, key);
    } else {
      EditTouchesLeaf(m, found, edit, key);
    }
  }

  /** Looking up another key in documents that differ only in `key` entries. */
  lemma LookUpLeaf(m: Entries, r: Entries, key: string, other: string)
    requires SameBut(m, r, 0, key) && other != key
    ensures Has(m, other) == Has(r, other)
    ensures Has(m, other) ==> Get(m, other) == Get(r, other)
  {
    RemoveOther(m, key, other);
    RemoveOther(r, key, other);
  }

  lemma LookUpInner(m: Entries, r: Entries, depth: nat, key: string, name: string)
    requires depth > 0 && SameBut(m, r, depth, key)
    ensures Has(m, name) == Has(r, name)
    ensures Has(m, name) ==> Get(m, name).Map? == Get(r, name).Map?
    ensures Has(m, name) && !Get(m, name).Map? ==> Get(m, name) == Get(r, name)
    ensures Has(m, name) && Get(m, name).Map? ==> SameBut(Get(m, name).entries, Get(r, name).entries, depth - 1, key)
  {
    SameKeysSameFind(m, r, name);
    if Has(m, name) && Get(m, name).Map? {
      SameReflexive(Get(m, name).entries, depth - 1, key);
    }
  }

  lemma {:induction false} SameReflexive(m: Entries, depth: nat, key: string)
    ensures SameBut(m, m, depth, key)
    decreases depth
  {
  }

  /** The edited file differs from the original in `DATABASE_URL` entries only. */
  lemma UrlEditTouchesOnlyUrl(root: Node, url: string)
    requires root.Map? && WithDatabaseUrlCompose(root, url).Readable?
    ensures WithDatabaseUrlCompose(root, url).root.Map?
    ensures SameBut(root.entries, WithDatabaseUrlCompose(root, url).root.entries, 3, URL_KEY)
  {
    if HasDeep(root.entries, 3, URL_KEY) {
      EditsTouchOnly(root.entries, 3, URL_KEY, Overwrite(Str(url)), URL_KEY);
    } else if HasDeep(root.entries, 3, ANCHOR_KEY) {
      EditsTouchOnly(root.entries, 3, ANCHOR_KEY, InsertAfter(URL_KEY, Str(url)), URL_KEY);
    } else {
      SameReflexive(root.entries, 3, URL_KEY);
    }
  }

  // ----- the edit as an edit of one line -----

  /** The entries `depth` levels down, in document order: for three levels, the lines that begin with six spaces
      and a key. */
  function Deep(m: Entries, depth: nat): Entries
    decreases depth, |m|
  {
    if depth == 0 then m else if m == [] then [] else LinesBelow(m[0], depth) + Deep(m[1..], depth)
  }

  function LinesBelow(e: Entry<Node>, depth: nat): Entries
    requires depth > 0
    decreases depth, 0
  {
    if e.value.Map? then Deep(e.value.entries, depth - 1) else []
  }

  lemma {:induction false} DeepAround(a: Entries, b: Entries, depth: nat)
    requires depth > 0
    ensures Deep(a + b, depth) == Deep(a, depth) + Deep(b, depth)
    decreases |a|
  {
    if a == [] {
      assert a + b == b;
    } else {
      assert (a + b)[1..] == a[1..] + b;
      DeepAround(a[1..], b, depth);
      Associate(LinesBelow(a[0], depth), Deep(a[1..], depth), Deep(b, depth));
    }
  }

  /** The entries around position `i`. */
  lemma DeepAt(m: Entries, i: nat, e: Entry<Node>, depth: nat)
    requires depth > 0 && i < |m|
    ensures Deep(m[i := e], depth) == Deep(m[..i], depth) + LinesBelow(e, depth) + Deep(m[i + 1..], depth)
  {
    var tail := m[i + 1..];
    assert m[i := e] == m[..i] + ([e] + tail);
    DeepAround(m[..i], [e] + tail, depth);
    assert ([e] + tail)[1..] == tail;
    Associate(Deep(m[..i], depth), LinesBelow(e, depth), Deep(tail, depth));
  }

  lemma DeepSplit(m: Entries, i: nat, depth: nat)
    requires depth > 0 && i < |m|
    ensures Deep(m, depth) == Deep(m[..i], depth) + LinesBelow(m[i], depth) + Deep(m[i + 1..], depth)
  {
    DeepAt(m, i, m[i], depth);
    assert m[i := m[i]] == m;
  }

  lemma {:induction false} FindJoin(a: Entries, b: Entries, key: string)
    ensures Find(a + b, key) == if Has(a, key) then Find(a, key) else |a| + Find(b, key)
  {
    if a == [] {
      assert a + b == b;
    } else {
      assert (a + b)[1..] == a[1..] + b;
      FindJoin(a[1..], b, key);
    }
  }

  lemma FindBetween(a: Entries, lines: Entries, b: Entries, key: string)
    requires !Has(a, key) && Has(lines, key)
    ensures Find(a + lines + b, key) == |a| + Find(lines, key) && Get(a + lines + b, key) == Get(lines, key)
  {
    FindJoin(a, lines, key);
    FindJoin(a + lines, b, key);
  }

  /** The line that the pattern finds is the first entry of that name among them. */
  lemma {:induction false} DeepFirst(m: Entries, depth: nat, key: string)
    ensures HasDeep(m, depth, key) <==> Has(Deep(m, depth), key)
    ensures HasDeep(m, depth, key) ==> Target(m, depth, key) == Get(Deep(m, depth), key)
    decreases depth
  {
    var i := First(m, depth, key);
    FirstHits(m, depth, key);
    if depth == 0 {
      LeafFirst(m, key);
    } else {
      NoneBefore(m[..i], depth, key);
      if i < |m| {
        DeepFirst(m[i].value.entries, depth - 1, key);
        DeepSplit(m, i, depth);
        FindBetween(Deep(m[..i], depth), LinesBelow(m[i], depth), Deep(m[i + 1..], depth), key);
      } else {
        assert m[..i] == m;
      }
    }
  }

  lemma LeafFirst(m: Entries, key: string)
    ensures First(m, 0, key) == Find(m, key)
  {
    FirstIs(m, 0, key, Find(m, key));
  }

  lemma {:induction false} NoneBefore(m: Entries, depth: nat, key: string)
    requires depth > 0 && forall j :: 0 <= j < |m| ==> !Hit(m[j], depth, key)
    ensures !Has(Deep(m, depth), key)
    decreases depth, |m|
  {
    if m != [] {
      NoneBefore(m[1..], depth, key);
      if m[0].value.Map? {
        var children := m[0].value.entries;
        if depth == 1 {
          LeafFirst(children, key);
        } else {
          FirstHits(children, depth - 1, key);
          NoneBefore(children, depth - 1, key);
        }
      }
      FindJoin(LinesBelow(m[0], depth), Deep(m[1..], depth), key);
    }
  }

  /** The line overwritten, or a new line put behind it. */
  function EditedLines(lines: Entries, key: string, edit: Edit): Entries
    requires Has(lines, key)
  {
    var i := Find(lines, key);
    match edit
    case Overwrite(v) => lines[i := Entry(key, v)]
    case InsertAfter(k, v) => lines[..i + 1] + [Entry(k, v)] + lines[i + 1..]
  }

  lemma EditedBetween(a: Entries, lines: Entries, b: Entries, key: string, edit: Edit)
    requires !Has(a, key) && Has(lines, key)
    ensures Has(a + lines + b, key)
    ensures EditedLines(a + lines + b, key, edit) == a + EditedLines(lines, key, edit) + b
  {
    FindBetween(a, lines, b, key);
    var i := Find(lines, key);
    match edit {
      case Overwrite(v) => SetBetween(a, lines, b, i, Entry(key, v));
      case InsertAfter(k, v) =>
        CutBetween(a, lines, b, i + 1);
        Around(a, lines[..i + 1], [Entry(k, v)], lines[i + 1..], b);
    }
  }

  /** Of all entries at that depth the edit changes the first of the name only, or adds one right behind it. */
  lemma {:induction false} EditIsOneLine(m: Entries, depth: nat, key: string, edit: Edit)
    requires HasDeep(m, depth, key)
    ensures Has(Deep(m, depth), key)
    ensures Deep(EditDeep(m, depth, key, edit), depth) == EditedLines(Deep(m, depth), key, edit)
    decreases depth
  {
    var i := First(m, depth, key);
    FirstHits(m, depth, key);
    DeepFirst(m, depth, key);
    if depth == 0 {
      LeafFirst(m, key);
    } else {
      var children := m[i].value.entries;
      EditIsOneLine(children, depth - 1, key, edit);
      NoneBefore(m[..i], depth, key);
      DeepSplit(m, i, depth);
      DeepAt(m, i, Entry(m[i].key, Map(EditDeep(children, depth - 1, key, edit))), depth);
      EditedBetween(Deep(m[..i], depth), Deep(children, depth - 1), Deep(m[i + 1..], depth), key, edit);
    }
  }

  /** The lines three levels down after the URL edit: the first `DATABASE_URL` is overwritten, or, when there is none,
      one is added behind the first `DB_DATABASE`; every other line, also a further `DATABASE_URL`, stays. */
  lemma UrlEditIsOneLine(root: Node, url: string)
    requires root.Map? && WithDatabaseUrlCompose(root, url).Readable?
    ensures WithDatabaseUrlCompose(root, url).root.Map?
    ensures var lines, r := Deep(root.entries, 3), Deep(WithDatabaseUrlCompose(root, url).root.entries, 3);
            var i, j := Find(lines, URL_KEY), Find(lines, ANCHOR_KEY);
            r == if i < |lines| then lines[i := Entry(URL_KEY, Str(url))]
                 else if j < |lines| then lines[..j + 1] + [Entry(URL_KEY, Str(url))] + lines[j + 1..]
                 else lines
  {
    DeepFirst(root.entries, 3, URL_KEY);
    DeepFirst(root.entries, 3, ANCHOR_KEY);
    if HasDeep(root.entries, 3, URL_KEY) {
      EditIsOneLine(root.entries, 3, URL_KEY, Overwrite(Str(url)));
    } else if HasDeep(root.entries, 3, ANCHOR_KEY) {
      EditIsOneLine(root.entries, 3, ANCHOR_KEY, InsertAfter(URL_KEY, Str(url)));
    }
  }

  // ----- the edited file can be read back exactly when the original could -----

  lemma OneLineUnique(n: Node)
    requires OneLine(n)
    ensures UniqueKeys(n)
  {
  }

  lemma ReplaceUniqueIff(m: Entries, i: nat, e: Entry<Node>)
    requires i < |m| && e.key == m[i].key && (UniqueKeys(m[i].value) <==> UniqueKeys(e.value))
    ensures UniqueKeys(Map(m)) <==> UniqueKeys(Map(m[i := e]))
  {
    var r := m[i := e];
    assert r[i] == e;
    assert forall j :: 0 <= j < |m| && j != i ==> r[j] == m[j];
    assert forall j :: 0 <= j < |m| ==> r[j].key == m[j].key;
    assert (forall j :: 0 <= j < |m| ==> UniqueKeys(m[j].value))
       <==> (forall j :: 0 <= j < |m| ==> UniqueKeys(r[j].value));
  }

  /** Where the entries of two lists end up around a new one. */
  lemma InsertedAt(a: Entries, e: Entry<Node>, b: Entries, j: nat)
    requires j < |a| + |b|
    ensures (a + b)[j] == (a + [e] + b)[if j < |a| then j else j + 1] && (a + [e] + b)[|a|] == e
  {
  }

  lemma InsertUniqueIff(m: Entries, i: nat, e: Entry<Node>)
    requires i < |m| && !Has(m, e.key) && UniqueKeys(e.value)
    ensures UniqueKeys(Map(m)) <==> UniqueKeys(Map(m[..i + 1] + [e] + m[i + 1..]))
  {
    var r := m[..i + 1] + [e] + m[i + 1..];
    assert m == m[..i + 1] + m[i + 1..];
    forall j | 0 <= j < |m| ensures m[j] == r[if j <= i then j else j + 1] && r[i + 1] == e {
      InsertedAt(m[..i + 1], e, m[i + 1..], j);
    }
    if UniqueKeys(Map(m)) {
      InsertedUnique(m, i, e, r);
    } else if UniqueKeys(Map(r)) {
      OthersUnique(m, i, r);
    }
  }

  lemma InsertedUnique(m: Entries, i: nat, e: Entry<Node>, r: Entries)
    requires i < |m| && |r| == |m| + 1 && UniqueKeys(Map(m)) && UniqueKeys(e.value) && r[i + 1] == e
    requires forall j :: 0 <= j < |m| ==> m[j] == r[if j <= i then j else j + 1]
    requires !Has(m, e.key)
    ensures UniqueKeys(Map(r))
  {
    forall j | 0 <= j < |r| && j != i + 1
      ensures r[j] == m[if j <= i then j else j - 1] && UniqueKeys(r[j].value) && r[j].key != e.key
    {
      InsertedFrom(m, i, r, j);
    }
    forall j, k | 0 <= j < k < |r| ensures r[j].key != r[k].key {
      if j != i + 1 && k != i + 1 {
        assert m[if j <= i then j else j - 1].key != m[if k <= i then k else k - 1].key;
      }
    }
  }

  lemma InsertedFrom(m: Entries, i: nat, r: Entries, j: nat)
    requires i < |m| && |r| == |m| + 1 && UniqueKeys(Map(m)) && j < |r| && j != i + 1
    requires forall l :: 0 <= l < |m| ==> m[l] == r[if l <= i then l else l + 1]
    ensures r[j] == m[if j <= i then j else j - 1] && UniqueKeys(r[j].value)
  {
    var l := if j <= i then j else j - 1;
    assert m[l] == r[j];
  }

  lemma OthersUnique(m: Entries, i: nat, r: Entries)
    requires i < |m| && |r| == |m| + 1 && UniqueKeys(Map(r))
    requires forall j :: 0 <= j < |m| ==> m[j] == r[if j <= i then j else j + 1]
    ensures UniqueKeys(Map(m))
  {
  }

  lemma {:induction false} EditUniqueIff(m: Entries, depth: nat, found: string, edit: Edit)
    requires HasDeep(m, depth, found) && OneLine(Target(m, depth, found)) && OneLine(edit.value)
    requires edit.InsertAfter? ==> !HasDeep(m, depth, edit.key)
    ensures UniqueKeys(Map(m)) <==> UniqueKeys(Map(EditDeep(m, depth, found, edit)))
    decreases depth
  {
    FirstHits(m, depth, found);
    if edit.InsertAfter? { FirstHits(m, depth, edit.key); }
    var i := First(m, depth, found);
    OneLineUnique(edit.value);
    if depth > 0 {
      assert edit.InsertAfter? ==> !Hit(m[i], depth, edit.key);
      EditUniqueIff(m[i].value.entries, depth - 1, found, edit);
      ReplaceUniqueIff(m, i, Entry(m[i].key, Map(EditDeep(m[i].value.entries, depth - 1, found, edit))));
    } else {
      OneLineUnique(m[i].value);
      match edit {
        case Overwrite(v) => ReplaceUniqueIff(m, i, Entry(found, v));
        case InsertAfter(k, v) =>
          assert forall j :: 0 <= j < |m| ==> !Hit(m[j], 0, k);
          InsertUniqueIff(m, i, Entry(k, v));
      }
    }
  }

  lemma UrlEditReadableIff(root: Node, url: string)
    requires WithDatabaseUrlCompose(root, url).Readable? && '\n' !in url
    ensures UniqueKeys(WithDatabaseUrlCompose(root, url).root) <==> UniqueKeys(root)
  {
    if root.Map? {
      if HasDeep(root.entries, 3, URL_KEY) {
        EditUniqueIff(root.entries, 3, URL_KEY, Overwrite(Str(url)));
      } else if HasDeep(root.entries, 3, ANCHOR_KEY) {
        EditUniqueIff(root.entries, 3, ANCHOR_KEY, InsertAfter(URL_KEY, Str(url)));
      }
    }
  }
}
