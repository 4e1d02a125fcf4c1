/** Keyed documents whose entries keep their order: the `items` of a YAML map, the properties of a
    JSON object, the entries of a JavaScript record. Keys may repeat in such a sequence; `Unique`
    says that they do not. */
module OrderedMap {
  datatype Entry<V> = Entry(key: string, value: V)

  ghost predicate Unique<V>(m: seq<Entry<V>>) {
    forall i, j :: 0 <= i < j < |m| ==> m[i].key != m[j].key
  }

  /** The position of the first entry named `key`, or the length when there is none. */
  function Find<V>(m: seq<Entry<V>>, key: string): (i: nat)
    ensures i <= |m|
    ensures i < |m| ==> m[i].key == key
    ensures forall j :: 0 <= j < i ==> m[j].key != key
  {
    if m == [] then 0 else if m[0].key == key then 0 else 1 + Find(m[1..], key)
  }

  predicate Has<V>(m: seq<Entry<V>>, key: string) {
    Find(m, key) < |m|
  }

  function Get<V>(m: seq<Entry<V>>, key: string): V
    requires Has(m, key)
  {
    m[Find(m, key)].value
  }

  /** Assignment: overwrite in place, or append. */
  function Put<V>(m: seq<Entry<V>>, key: string, value: V): (r: seq<Entry<V>>)
  {
    if Has(m, key) then m[Find(m, key) := Entry(key, value)] else m + [Entry(key, value)]
  }

  /** Assignment gives the key its new value and keeps keys unique. */
  lemma PutSame<V>(m: seq<Entry<V>>, key: string, value: V)
    ensures var r := Put(m, key, value);
            Find(r, key) == Find(m, key) && Has(r, key) && Get(r, key) == value && (Unique(m) ==> Unique(r))
  {
    var r := Put(m, key, value);
    FindIs(r, key, Find(m, key));
  }

  /** Assignment leaves every other key alone. */
  lemma PutOther<V>(m: seq<Entry<V>>, key: string, value: V, other: string)
    requires other != key
    ensures var r := Put(m, key, value);
            Has(r, other) == Has(m, other)
            && (Has(m, other) ==> Get(r, other) == Get(m, other) && Find(r, other) == Find(m, other))
  {
    var r := Put(m, key, value);
    if Has(m, other) {
      assert r[Find(m, other)] == m[Find(m, other)];
      FindIs(r, other, Find(m, other));
    }
  }

  lemma FindIs<V>(m: seq<Entry<V>>, key: string, i: nat)
    requires i < |m| && m[i].key == key
    requires forall j :: 0 <= j < i ==> m[j].key != key
    ensures Find(m, key) == i
  {
  }

  lemma HasAt<V>(m: seq<Entry<V>>, key: string, i: nat)
    requires i < |m| && m[i].key == key
    ensures Has(m, key)
    ensures Unique(m) ==> Find(m, key) == i
  {
  }

  /** Deletion: every other entry keeps its value and its place in the order. */
  function Remove<V>(m: seq<Entry<V>>, key: string): (r: seq<Entry<V>>)
    ensures !Has(r, key)
    ensures forall i :: 0 <= i < |r| ==> r[i] in m
    ensures Unique(m) ==> Unique(r)
  {
    if m == [] then []
    else if m[0].key == key then Remove(m[1..], key)
    else
      var rest := Remove(m[1..], key);
      [m[0]] + rest
  }

  lemma PutPut<V>(m: seq<Entry<V>>, key: string, v: V, w: V)
    ensures Put(Put(m, key, v), key, w) == Put(m, key, w)
  {
    PutSame(m, key, v);
  }

  lemma PutsCommute<V>(m: seq<Entry<V>>, j: string, v: V, k: string, w: V)
    requires j != k && Has(m, k)
    ensures Put(Put(m, j, v), k, w) == Put(Put(m, k, w), j, v)
  {
    PutOther(m, j, v, k);
    PutOther(m, k, w, j);
  }

  /** Assigning the same three keys a second time leaves the second values, in the same places. */
  lemma ThreePutsLastWins<V>(m: seq<Entry<V>>, i: string, j: string, k: string, a: V, b: V, c: V, x: V, y: V, z: V)
    requires i != j && j != k && i != k
    ensures Put(Put(Put(Put(Put(Put(m, i, a), j, b), k, c), i, x), j, y), k, z) == Put(Put(Put(m, i, x), j, y), k, z)
  {
    var m1 := Put(m, i, a);
    var m2 := Put(m1, j, b);
    PutSame(m, i, a);
    PutOther(m1, j, b, i);
    PutsCommute(m2, k, c, i, x);
    PutsCommute(m1, j, b, i, x);
    PutPut(m, i, a, x);
    var n2 := Put(Put(m, i, x), j, b);
    PutSame(Put(m, i, x), j, b);
    PutsCommute(n2, k, c, j, y);
    PutPut(Put(m, i, x), j, b, y);
    PutPut(Put(Put(m, i, x), j, y), k, c, z);
  }

  lemma {:induction false} RemoveOther<V>(m: seq<Entry<V>>, key: string, other: string)
    requires other != key
    ensures Has(Remove(m, key), other) == Has(m, other)
    ensures Has(m, other) ==> Get(Remove(m, key), other) == Get(m, other)
  {
    if m != [] {
      RemoveOther(m[1..], key, other);
    }
  }
}
