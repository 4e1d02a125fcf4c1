/** `migrationNames` and `typeOrmMigrationConsistencyIssues`: source and built migrations are compared
    as sorted name lists joined with NUL. */
module MigrationCheck {
  import opened Results
  import opened Selection
  import opened Separated
  import opened Text

  const NUL: char := '\U{0000}'

  ghost predicate NulFree(names: seq<string>) {
    AllFree(names, '\U{0000}')
  }

  /** Lexicographic order by code unit, the order of `sort()` without a comparator. */
  predicate Before(a: string, b: string) {
    if a == "" then true
    else if b == "" then false
    else if a[0] != b[0] then a[0] < b[0]
    else Before(a[1..], b[1..])
  }

  predicate Sorted(s: seq<string>) {
    forall i, j :: 0 <= i < j < |s| ==> Before(s[i], s[j])
  }

  lemma {:induction false} BeforeTotal(a: string, b: string)
    ensures Before(a, b) || Before(b, a)
    ensures Before(a, b) && Before(b, a) ==> a == b
  {
    if a != "" && b != "" && a[0] == b[0] {
      BeforeTotal(a[1..], b[1..]);
      assert a == [a[0]] + a[1..] && b == [b[0]] + b[1..];
    }
  }

  lemma {:induction false} BeforeTransitive(a: string, b: string, c: string)
    requires Before(a, b) && Before(b, c)
    ensures Before(a, c)
  {
    if a != "" && b != "" && c != "" && a[0] == b[0] == c[0] {
      BeforeTransitive(a[1..], b[1..], c[1..]);
    }
  }

  function Insert(x: string, s: seq<string>): seq<string> {
    if s == [] then [x] else if Before(x, s[0]) then [x] + s else [s[0]] + Insert(x, s[1..])
  }

  /** The `sort()` of the runtime: the properties below determine it, whatever the algorithm. */
  function Sort(s: seq<string>): seq<string> {
    if s == [] then [] else Insert(s[0], Sort(s[1..]))
  }

  lemma {:induction false} InsertSorts(x: string, s: seq<string>)
    requires Sorted(s)
    ensures Sorted(Insert(x, s)) && multiset(Insert(x, s)) == multiset{x} + multiset(s)
  {
    if s != [] {
      assert s == [s[0]] + s[1..];
      if Before(x, s[0]) {
        forall j | 0 <= j < |s| ensures Before(x, s[j]) {
          if j > 0 { BeforeTransitive(x, s[0], s[j]); }
        }
      } else {
        BeforeTotal(x, s[0]);
        var rest := Insert(x, s[1..]);
        InsertSorts(x, s[1..]);
        forall j | 0 <= j < |rest| ensures Before(s[0], rest[j]) {
          assert rest[j] in multiset(rest);
        }
      }
    }
  }

  lemma {:induction false} SortSorts(s: seq<string>)
    ensures Sorted(Sort(s)) && multiset(Sort(s)) == multiset(s)
  {
    if s != [] {
      assert s == [s[0]] + s[1..];
      SortSorts(s[1..]);
      InsertSorts(s[0], Sort(s[1..]));
    }
  }

  lemma SameFirst(a: seq<string>, b: seq<string>)
    requires Sorted(a) && Sorted(b) && multiset(a) == multiset(b) && a != [] && b != []
    ensures a[0] == b[0]
  {
    assert a[0] in multiset(b) && b[0] in multiset(a);
    var i :| 0 <= i < |b| && b[i] == a[0];
    var j :| 0 <= j < |a| && a[j] == b[0];
    BeforeTotal(a[0], b[0]);
  }

  /** There is only one way to sort a multiset of names. */
  lemma {:induction false} SortedUnique(a: seq<string>, b: seq<string>)
    requires Sorted(a) && Sorted(b) && multiset(a) == multiset(b)
    ensures a == b
  {
    if a == [] {
      assert multiset(b) == multiset{};
    } else {
      assert a[0] in multiset(b) && b != [];
      SameFirst(a, b);
      assert a == [a[0]] + a[1..] && b == [b[0]] + b[1..];
      assert multiset(a[1..]) == multiset(a) - multiset{a[0]};
      assert multiset(b[1..]) == multiset(b) - multiset{b[0]};
      SortedUnique(a[1..], b[1..]);
    }
  }

  // ----- the check -----

  function Stems(files: seq<string>, extension: string): seq<string> {
    if files == [] then []
    else (if EndsWith(files[0], extension) then [files[0][..|files[0]| - |extension|]] else [])
         + Stems(files[1..], extension)
  }

  function MigrationNames(files: seq<string>, extension: string): seq<string> {
    Sort(Stems(files, extension))
  }

  predicate MigrationsMismatch(source: seq<string>, built: seq<string>) {
    Join(MigrationNames(source, ".ts"), NUL) != Join(MigrationNames(built, ".js"), NUL)
  }

  /** A stem is listed once for every file that is the stem with the extension behind it. */
  lemma {:induction false} StemsCount(files: seq<string>, extension: string, stem: string)
    ensures multiset(Stems(files, extension))[stem] == multiset(files)[stem + extension]
  {
    if files != [] {
      var file, rest := files[0], files[1..];
      StemsCount(rest, extension, stem);
      StemIs(file, extension, stem);
      assert files == [file] + rest;
      CountCons(file, rest, stem + extension);
      if EndsWith(file, extension) {
        CountCons(file[..|file| - |extension|], Stems(rest, extension), stem);
      } else {
        assert [] + Stems(rest, extension) == Stems(rest, extension);
      }
    }
  }

  lemma CountCons(x: string, rest: seq<string>, e: string)
    ensures multiset([x] + rest)[e] == (if x == e then 1 else 0) + multiset(rest)[e]
  {
  }

  lemma StemIs(file: string, extension: string, stem: string)
    ensures file == stem + extension <==> EndsWith(file, extension) && file[..|file| - |extension|] == stem
  {
    if EndsWith(file, extension) {
      assert file == file[..|file| - |extension|] + extension;
    }
    if file == stem + extension {
      assert file[|file| - |extension|..] == extension;
    }
  }

  /** The names are listed in the order of their code units: a name before its longer forms, and otherwise by the first
      difference. */
  lemma {:induction false} BeforeIff(a: string, b: string)
    ensures Before(a, b)
       <==> (a <= b || exists i :: 0 <= i < |a| && i < |b| && a[..i] == b[..i] && a[i] < b[i])
  {
    if a != "" && b != "" && a[0] == b[0] {
      BeforeIff(a[1..], b[1..]);
      assert a <= b <==> a[1..] <= b[1..];
      if i: int :| 0 <= i < |a| && i < |b| && a[..i] == b[..i] && a[i] < b[i] {
        DifferLater(a, b, i);
      }
      if i: int :| 0 <= i < |a| - 1 && i < |b| - 1 && a[1..][..i] == b[1..][..i] && a[1..][i] < b[1..][i] {
        DifferLater(a, b, i + 1);
      }
    } else if a != "" && b != "" {
      assert a[..0] == b[..0];
    }
  }

  lemma DifferLater(a: string, b: string, i: nat)
    requires 0 < i < |a| && i < |b| && a[0] == b[0]
    ensures a[..i] == b[..i] <==> a[1..][..i - 1] == b[1..][..i - 1]
    ensures a[i] == a[1..][i - 1] && b[i] == b[1..][i - 1]
  {
    assert a[..i] == [a[0]] + a[1..][..i - 1] && b[..i] == [b[0]] + b[1..][..i - 1];
    assert a[..i][1..] == a[1..][..i - 1] && b[..i][1..] == b[1..][..i - 1];
  }

  /** In the terms of the listings: the built migrations match exactly when every name has as many sources as outputs,
      the blind spot of a bare extension apart. */
  lemma MismatchCounts(source: seq<string>, built: seq<string>)
    requires NulFree(source) && NulFree(built)
    ensures (forall stem: string :: multiset(source)[stem + ".ts"] == multiset(built)[stem + ".js"])
       <==> multiset(Stems(source, ".ts")) == multiset(Stems(built, ".js"))
    ensures (forall stem: string :: multiset(source)[stem + ".ts"] == multiset(built)[stem + ".js"]) ==>
              !MigrationsMismatch(source, built)
  {
    var s, b := multiset(Stems(source, ".ts")), multiset(Stems(built, ".js"));
    forall stem: string
      ensures s[stem] == multiset(source)[stem + ".ts"] && b[stem] == multiset(built)[stem + ".js"]
    {
      StemsCount(source, ".ts", stem);
      StemsCount(built, ".js", stem);
    }
    if forall stem: string :: multiset(source)[stem + ".ts"] == multiset(built)[stem + ".js"] {
      assert forall stem: string :: s[stem] == b[stem];
    }
    MismatchIff(source, built);
  }

  lemma {:induction false} StemsNulFree(files: seq<string>, extension: string)
    requires NulFree(files)
    ensures NulFree(Stems(files, extension))
  {
    if files != [] {
      StemsNulFree(files[1..], extension);
    }
  }

  /** The check reports a mismatch exactly when the names differ as multisets, in any listing order; the
      one blind spot is a file named just `.ts` or `.js` against no migration at all. */
  lemma MismatchIff(source: seq<string>, built: seq<string>)
    requires NulFree(source) && NulFree(built)
    ensures var s, b := multiset(Stems(source, ".ts")), multiset(Stems(built, ".js"));
            MigrationsMismatch(source, built) <==>
              (s != b && !(s == multiset{} && b == multiset{""}) && !(s == multiset{""} && b == multiset{}))
  {
    var s, b := Stems(source, ".ts"), Stems(built, ".js");
    SortSorts(s);
    SortSorts(b);
    StemsNulFree(source, ".ts");
    StemsNulFree(built, ".js");
    SortNulFree(s);
    SortNulFree(b);
    JoinInjective(Sort(s), Sort(b), NUL);
    if multiset(s) == multiset(b) {
      SortedUnique(Sort(s), Sort(b));
    }
    OneEmptyName(Sort(s));
    OneEmptyName(Sort(b));
  }

  lemma SortNulFree(s: seq<string>)
    requires NulFree(s)
    ensures NulFree(Sort(s))
  {
    SortSorts(s);
    forall i | 0 <= i < |Sort(s)| ensures Free(Sort(s)[i], NUL) {
      assert Sort(s)[i] in multiset(s);
    }
  }

  lemma OneEmptyName(s: seq<string>)
    ensures s == [] <==> multiset(s) == multiset{}
    ensures s == [""] <==> multiset(s) == multiset{""}
  {
    if multiset(s) == multiset{""} {
      assert |multiset(s)| == |s| == 1;
      assert s[0] in multiset(s);
    }
    if multiset(s) == multiset{} {
      assert |multiset(s)| == |s| == 0;
    }
  }

  /** The blind spot exists. */
  lemma BlindSpot()
    ensures !MigrationsMismatch([".ts"], []) && multiset(Stems([".ts"], ".ts")) != multiset(Stems([], ".js"))
  {
    assert ".ts"[..0] == "";
    assert Stems([".ts"], ".ts") == [""];
    MismatchIff([".ts"], []);
    assert multiset([""]) == multiset{""};
  }

  // ----- the list that the check returns -----

  datatype MigrationIssue = NotSelfLocating | OutOfStep(source: seq<string>, built: seq<string>)

  predicate SelfLocating(databaseConfig: string) {
    Includes(databaseConfig, "fileURLToPath(import.meta.url)")
    && Includes(databaseConfig, "../database/migrations/*{.ts,.js}")
  }

  /** `typeOrmMigrationConsistencyIssues`; `built` is absent unless the build output is checked. */
  method MigrationIssues(orm: Orm, databaseConfig: string, source: seq<string>,
                         built: Option<seq<string>>) returns (issues: seq<MigrationIssue>)
    ensures issues == []
       <==> (orm != Typeorm
             || (SelfLocating(databaseConfig) && (built.None? || !MigrationsMismatch(source, built.value))))
    ensures NotSelfLocating in issues
       <==> (orm == Typeorm
             && !(Includes(databaseConfig, "fileURLToPath(import.meta.url)")
                  && Includes(databaseConfig, "../database/migrations/*{.ts,.js}")))
    ensures forall s, b :: OutOfStep(s, b) in issues <==>
              orm == Typeorm && built.Some? && s == MigrationNames(source, ".ts")
              && b == MigrationNames(built.value, ".js") && MigrationsMismatch(source, built.value)
    ensures |issues| <= 2 && (|issues| == 2 ==> issues[0] == NotSelfLocating && issues[1].OutOfStep?)
  {
    issues := [];
    if orm != Typeorm {
      return;
    }
    if !SelfLocating(databaseConfig) {
      issues := issues + [NotSelfLocating];
    }
    if built.None? {
      return;
    }
    var sourceNames, builtNames := MigrationNames(source, ".ts"), MigrationNames(built.value, ".js");
    if Join(sourceNames, NUL) != Join(builtNames, NUL) {
      issues := issues + [OutOfStep(sourceNames, builtNames)];
    }
  }
}
