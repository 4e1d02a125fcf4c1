/** The CORS origin list: one parser for the production rule that validates it and the options that use it. */
module Cors {
  import opened Results
  import opened Text
  import opened Separated

  const CORS_WILDCARD := "*"
  const SCHEME_MARK := "://"

  function Trim(s: string): string {
    TrimEnd(TrimStart(s))
  }

  /** `map(trim)` and `filter` by length. */
  function Entries(pieces: seq<string>): seq<string> {
    if pieces == [] then []
    else
      var entry := Trim(pieces[0]);
      (if |entry| > 0 then [entry] else []) + Entries(pieces[1..])
  }

  function ParseCorsOrigins(raw: string): seq<string> {
    Entries(Split(raw, ','))
  }

  predicate HasWildcardOrigin(raw: string) {
    CORS_WILDCARD in ParseCorsOrigins(raw)
  }

  datatype OriginsError = NoOrigins | WildcardOrigin | MalformedOrigins(invalid: seq<string>)

  function WithoutScheme(origins: seq<string>): seq<string> {
    if origins == [] then []
    else (if !Includes(origins[0], SCHEME_MARK) then [origins[0]] else []) + WithoutScheme(origins[1..])
  }

  /** The custom rule of `productionCorsOrigins`. */
  function ProductionCorsOrigins(value: string): Result<string, OriginsError> {
    var origins := ParseCorsOrigins(value);
    if |origins| == 0 then Failure(NoOrigins)
    else if HasWildcardOrigin(value) then Failure(WildcardOrigin)
    else
      var invalid := WithoutScheme(origins);
      if |invalid| > 0 then Failure(MalformedOrigins(invalid)) else Success(value)
  }

  /** The `origin` option: `true` for every origin, or the listed ones. */
  datatype OriginOption = AnyOrigin | Listed(origins: seq<string>)

  function CorsOrigin(configured: Option<string>): OriginOption {
    var raw := if configured.None? then CORS_WILDCARD else configured.value;
    if HasWildcardOrigin(raw) then AnyOrigin else Listed(ParseCorsOrigins(raw))
  }

  // ----- trimming -----

  predicate AllSpace(s: string) {
    forall i :: 0 <= i < |s| ==> IsSpace(s[i])
  }

  predicate Trimmed(s: string) {
    s != "" ==> !IsSpace(s[0]) && !IsSpace(s[|s| - 1])
  }

  lemma {:induction false} TrimStartIs(a: string, b: string)
    requires AllSpace(a) && (b == "" || !IsSpace(b[0]))
    ensures TrimStart(a + b) == b
  {
    if a == "" {
      assert a + b == b;
    } else {
      assert (a + b)[1..] == a[1..] + b;
      TrimStartIs(a[1..], b);
    }
  }

  lemma {:induction false} TrimEndIs(a: string, b: string)
    requires AllSpace(b) && (a == "" || !IsSpace(a[|a| - 1]))
    ensures TrimEnd(a + b) == a
  {
    if b == "" {
      assert a + b == a;
    } else {
      assert (a + b)[..|a + b| - 1] == a + b[..|b| - 1];
      TrimEndIs(a, b[..|b| - 1]);
    }
  }

  /** Space around a core, which has none at its ends. */
  ghost predicate Padded(s: string, core: string) {
    Trimmed(core) && exists a, b :: AllSpace(a) && AllSpace(b) && s == a + core + b
  }

  /** Trimming takes the space off, and nothing but space. */
  lemma TrimIs(s: string, core: string)
    ensures Padded(s, core) <==> Trim(s) == core
  {
    if Padded(s, core) {
      var a, b :| AllSpace(a) && AllSpace(b) && s == a + core + b;
      if core == "" {
        assert s == (a + b) + "";
        TrimStartIs(a + b, "");
      } else {
        assert s == a + (core + b);
        TrimStartIs(a, core + b);
        TrimEndIs(core, b);
      }
    }
    TrimIsPadded(s);
  }

  lemma PaddedBy(s: string, a: string, t: string, core: string, b: string)
    requires AllSpace(a) && AllSpace(b) && Trimmed(core) && s == a + t && t == core + b
    ensures Padded(s, core)
  {
    assert s == a + core + b;
  }

  lemma TrimEndDropsSpace(t: string)
    requires t == "" || !IsSpace(t[0])
    ensures AllSpace(t[|TrimEnd(t)|..]) && t == TrimEnd(t) + t[|TrimEnd(t)|..] && Trimmed(TrimEnd(t))
  {
  }

  lemma TrimIsPadded(s: string)
    ensures Padded(s, Trim(s))
  {
    var t := TrimStart(s);
    TrimStartDropsSpace(s);
    TrimEndDropsSpace(t);
    PaddedBy(s, s[..|s| - |t|], t, TrimEnd(t), t[|TrimEnd(t)|..]);
  }

  lemma {:induction false} TrimStartDrops(s: string, i: nat)
    requires i < |s| - |TrimStart(s)|
    ensures IsSpace(s[i])
  {
    if i > 0 {
      TrimStartDrops(s[1..], i - 1);
    }
  }

  lemma TrimStartDropsSpace(s: string)
    ensures AllSpace(s[..|s| - |TrimStart(s)|]) && s == s[..|s| - |TrimStart(s)|] + TrimStart(s)
  {
    forall i | 0 <= i < |s| - |TrimStart(s)| ensures IsSpace(s[i]) {
      TrimStartDrops(s, i);
    }
  }

  // ----- parsing -----

  function NonEmpty(cores: seq<string>): seq<string> {
    if cores == [] then [] else (if cores[0] != "" then [cores[0]] else []) + NonEmpty(cores[1..])
  }

  lemma {:induction false} EntriesMean(pieces: seq<string>, cores: seq<string>)
    requires |pieces| == |cores| && forall i :: 0 <= i < |pieces| ==> Padded(pieces[i], cores[i])
    ensures Entries(pieces) == NonEmpty(cores)
  {
    if pieces != [] {
      TrimIs(pieces[0], cores[0]);
      EntriesMean(pieces[1..], cores[1..]);
    }
  }

  /** Any list of comma-free pieces, padded with any space and joined by commas, parses to its non-empty
      cores, in order. */
  lemma ParseMeans(pieces: seq<string>, cores: seq<string>)
    requires pieces != [] && AllFree(pieces, ',')
    requires |pieces| == |cores| && forall i :: 0 <= i < |pieces| ==> Padded(pieces[i], cores[i])
    ensures ParseCorsOrigins(Join(pieces, ',')) == NonEmpty(cores)
  {
    SplitJoin(pieces, ',');
    EntriesMean(pieces, cores);
  }

  /** A list as the parser returns it. */
  ghost predicate OriginList(origins: seq<string>) {
    forall i :: 0 <= i < |origins| ==> origins[i] != "" && Trimmed(origins[i]) && Free(origins[i], ',')
  }

  lemma {:induction false} AllNonEmpty(origins: seq<string>)
    requires OriginList(origins)
    ensures NonEmpty(origins) == origins
  {
    if origins != [] {
      AllNonEmpty(origins[1..]);
    }
  }

  /** Writing out a list of origins and parsing it gives the list back. */
  lemma ParseJoin(origins: seq<string>)
    requires OriginList(origins)
    ensures ParseCorsOrigins(Join(origins, ',')) == origins
  {
    AllNonEmpty(origins);
    if origins == [] {
      assert Split("", ',') == [""];
      assert Entries([""][1..]) == [];
    } else {
      forall i | 0 <= i < |origins| ensures Padded(origins[i], origins[i]) {
        assert AllSpace("") && origins[i] == "" + origins[i] + "";
      }
      ParseMeans(origins, origins);
    }
  }

  lemma TrimFree(s: string)
    requires Free(s, ',')
    ensures Free(Trim(s), ',')
  {
    var t := TrimStart(s);
    assert forall i :: 0 <= i < |t| ==> t[i] == s[|s| - |t| + i];
  }

  lemma {:induction false} EntriesAreOrigins(pieces: seq<string>)
    requires AllFree(pieces, ',')
    ensures OriginList(Entries(pieces))
  {
    if pieces != [] {
      TrimIsPadded(pieces[0]);
      TrimFree(pieces[0]);
      EntriesAreOrigins(pieces[1..]);
    }
  }

  lemma ParseGivesOrigins(raw: string)
    ensures OriginList(ParseCorsOrigins(raw))
  {
    SplitFree(raw, ',');
    EntriesAreOrigins(Split(raw, ','));
  }

  /** Parsing what was parsed and written out again changes nothing. */
  lemma ParseJoinParse(raw: string)
    ensures ParseCorsOrigins(Join(ParseCorsOrigins(raw), ',')) == ParseCorsOrigins(raw)
  {
    ParseGivesOrigins(raw);
    ParseJoin(ParseCorsOrigins(raw));
  }

  // ----- validation and use agree -----

  ghost predicate AllSchemed(origins: seq<string>) {
    forall i :: 0 <= i < |origins| ==> Includes(origins[i], "://")
  }

  lemma {:induction false} NoneInvalid(origins: seq<string>)
    ensures WithoutScheme(origins) == [] <==> AllSchemed(origins)
  {
    if origins != [] {
      NoneInvalid(origins[1..]);
    }
  }

  /** The production rule accepts a value exactly when the options built from it list at least one origin
      and nothing but entries with a scheme, so an accepted value never allows every origin. */
  lemma AcceptedIff(raw: string)
    ensures ProductionCorsOrigins(raw) == Success(raw) <==>
              (var option := CorsOrigin(Some(raw));
               option.Listed? && option.origins != [] && AllSchemed(option.origins))
  {
    NoneInvalid(ParseCorsOrigins(raw));
  }

  /** Which of its three errors the rule reports, in terms of the options. */
  lemma RejectedIff(raw: string)
    ensures var result, option := ProductionCorsOrigins(raw), CorsOrigin(Some(raw));
            && (result == Failure(WildcardOrigin) <==> option == AnyOrigin)
            && (result == Failure(NoOrigins) <==> option == Listed([]))
            && (result.Failure? && result.error.MalformedOrigins? <==>
                  option.Listed? && exists i :: 0 <= i < |option.origins| && !Includes(option.origins[i], "://"))
            && (forall invalid, o: string :: result == Failure(MalformedOrigins(invalid)) && option.Listed? ==>
                  multiset(invalid)[o] == if Includes(o, "://") then 0 else multiset(option.origins)[o])
  {
    NoneInvalid(ParseCorsOrigins(raw));
    forall o: string
      ensures multiset(WithoutScheme(ParseCorsOrigins(raw)))[o]
           == if Includes(o, "://") then 0 else multiset(ParseCorsOrigins(raw))[o]
    {
      InvalidCount(ParseCorsOrigins(raw), o);
    }
    assert HasWildcardOrigin(raw) ==> ParseCorsOrigins(raw) != [];
  }

  lemma {:induction false} InvalidCount(origins: seq<string>, o: string)
    ensures multiset(WithoutScheme(origins))[o] == if Includes(o, "://") then 0 else multiset(origins)[o]
  {
    if origins != [] {
      InvalidCount(origins[1..], o);
      assert origins == [origins[0]] + origins[1..];
    }
  }

  /** The options and the rule's answer for a written list of origins: `*` among them opens every origin, no other
      text does, and without a configured list every origin is open. */
  lemma OptionsOf(origins: seq<string>)
    requires OriginList(origins)
    ensures CorsOrigin(Some(Join(origins, ','))) == if "*" in origins then AnyOrigin else Listed(origins)
    ensures ProductionCorsOrigins(Join(origins, ',')).Success?
       <==> (origins != [] && "*" !in origins && forall i :: 0 <= i < |origins| ==> Includes(origins[i], "://"))
    ensures CorsOrigin(None) == AnyOrigin
  {
    ParseJoin(origins);
    NoneInvalid(origins);
    DefaultParses();
  }

  lemma DefaultParses()
    ensures ParseCorsOrigins("*") == ["*"]
  {
    assert !IsSpace('*') && "*"[0] == '*';
    ParseJoin(["*"]);
  }

  /** A wildcard as any entry, with any space around it, allows every origin. */
  lemma WildcardAnywhere(pieces: seq<string>, i: nat)
    requires AllFree(pieces, ',') && i < |pieces| && Padded(pieces[i], "*")
    ensures CorsOrigin(Some(Join(pieces, ','))) == AnyOrigin
    ensures ProductionCorsOrigins(Join(pieces, ',')) == Failure(WildcardOrigin)
  {
    SplitJoin(pieces, ',');
    TrimIs(pieces[i], "*");
    EntryAt(pieces, i);
  }

  lemma {:induction false} EntryAt(pieces: seq<string>, i: nat)
    requires i < |pieces| && Trim(pieces[i]) != ""
    ensures Trim(pieces[i]) in Entries(pieces)
  {
    var entry := Trim(pieces[0]);
    var head := if |entry| > 0 then [entry] else [];
    if i > 0 {
      EntryAt(pieces[1..], i - 1);
    }
    InEither(Trim(pieces[i]), head, Entries(pieces[1..]));
  }

  lemma InEither(entry: string, a: seq<string>, b: seq<string>)
    ensures entry in a + b <==> entry in a || entry in b
  {
  }
}
