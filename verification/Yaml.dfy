/** Parsed YAML documents. A map is an ordered sequence of entries (section 3.2.1.1 of YAML 1.2.2 asks
    for unique keys; a document that breaks this can be built, but not parsed back). */
module Yaml {
  import opened OrderedMap
  import opened Results

  datatype Node =
    | Null
    | Str(text: string)
    | Number(n: int)
    | Flag(b: bool)
    | Items(items: seq<Node>)
    | Map(entries: seq<Entry<Node>>)

  type Entries = seq<Entry<Node>>

  /** No map of the document repeats a key, so the document can be printed and parsed back. */
  predicate UniqueKeys(n: Node)
    decreases n
  {
    match n
    case Map(es) =>
      && (forall i, j :: 0 <= i < j < |es| ==> es[i].key != es[j].key)
      && (forall i :: 0 <= i < |es| ==> UniqueKeys(es[i].value))
    case Items(xs) => forall i :: 0 <= i < |xs| ==> UniqueKeys(xs[i])
    case _ => true
  }

  /** A printed file: a tree of entries, or text that is not YAML at all. */
  datatype File = Readable(root: Node) | Unreadable

  /** The parser accepts a file that is a tree of entries and repeats no key. */
  predicate Parses(f: File) {
    f.Readable? && UniqueKeys(f.root)
  }

  /** `getIn(path, true)`: the node at a path of map keys. */
  function GetIn(n: Node, path: seq<string>): Option<Node>
    decreases |path|
  {
    if path == [] then Some(n)
    else if n.Map? && Has(n.entries, path[0]) then GetIn(Get(n.entries, path[0]), path[1..])
    else None
  }

  function MapIn(n: Node, path: seq<string>): Option<Entries> {
    var at := GetIn(n, path);
    if at.Some? && at.value.Map? then Some(at.value.entries) else None
  }

  /** The document with the node at `path` replaced. */
  function UpdateIn(n: Node, path: seq<string>, v: Node): Node
    requires GetIn(n, path).Some?
    decreases |path|
  {
    if path == [] then v
    else
      var i := Find(n.entries, path[0]);
      Map(n.entries[i := Entry(path[0], UpdateIn(n.entries[i].value, path[1..], v))])
  }

  lemma GetInStep(n: Node, key: string, rest: seq<string>)
    ensures GetIn(n, [key] + rest) == if n.Map? && Has(n.entries, key) then GetIn(Get(n.entries, key), rest) else None
  {
    assert ([key] + rest)[1..] == rest;
  }

  lemma UpdateInStep(n: Node, key: string, rest: seq<string>, v: Node)
    requires GetIn(n, [key] + rest).Some?
    ensures n.Map? && Has(n.entries, key) && GetIn(Get(n.entries, key), rest).Some?
    ensures UpdateIn(n, [key] + rest, v)
         == Map(n.entries[Find(n.entries, key) := Entry(key, UpdateIn(Get(n.entries, key), rest, v))])
  {
    assert ([key] + rest)[1..] == rest;
  }

  lemma SameKeysSameFind(m: Entries, r: Entries, key: string)
    requires |m| == |r| && forall j :: 0 <= j < |m| ==> (m[j].key == key <==> r[j].key == key)
    ensures Find(r, key) == Find(m, key)
  {
  }

  /** Overwriting the entry at position `i` keeps every other key where it was. */
  lemma FindAfterReplace(m: Entries, i: nat, e: Entry<Node>, key: string)
    requires i < |m| && m[i].key != key && e.key != key
    ensures Find(m[i := e], key) == Find(m, key)
    ensures Has(m, key) ==> Has(m[i := e], key) && Get(m[i := e], key) == Get(m, key)
  {
    SameKeysSameFind(m, m[i := e], key);
  }

  /** A fresh chain of maps that holds `v` at `path`. */
  function Nested(path: seq<string>, v: Node): Node
    requires path != []
    decreases |path|
  {
    Map([Entry(path[0], if |path| == 1 then v else Nested(path[1..], v))])
  }

  /** `setIn(path, v)`: missing maps are created, anything but a map on the way is an error and the
      result names its key. */
  function SetIn(n: Node, path: seq<string>, v: Node): Result<Node, string>
    requires path != []
    decreases |path|
  {
    if !n.Map? then Failure(path[0])
    else if |path| == 1 then Success(Map(Put(n.entries, path[0], v)))
    else if !Has(n.entries, path[0]) then Success(Map(Put(n.entries, path[0], Nested(path[1..], v))))
    else
      var child := Get(n.entries, path[0]);
      if !child.Map? then Failure(path[0])
      else
        var r := SetIn(child, path[1..], v);
        if r.Failure? then r else Success(Map(n.entries[Find(n.entries, path[0]) := Entry(path[0], r.value)]))
  }

  lemma SetInStep(n: Node, key: string, rest: seq<string>, v: Node)
    requires rest != []
    ensures SetIn(n, [key] + rest, v) ==
            if !n.Map? then Failure(key)
            else if !Has(n.entries, key) then Success(Map(Put(n.entries, key, Nested(rest, v))))
            else if !Get(n.entries, key).Map? then Failure(key)
            else
              var r := SetIn(Get(n.entries, key), rest, v);
              if r.Failure? then r else Success(Map(n.entries[Find(n.entries, key) := Entry(key, r.value)]))
  {
    assert ([key] + rest)[1..] == rest;
  }
}
