/** The premises of the history theorem can be met: a small project that the script accepts. */
module ScaffoldWitness {
  import opened ComposeAgreement
  import opened ComposeGenerator
  import opened ComposeRepeat
  import opened ComposeUrlRoom
  import opened ComposeUrl
  import opened EnvGenerator
  import opened OrderedMap
  import opened Placeholders
  import opened ProfileTemplates
  import opened Results
  import opened ScaffoldConsistency
  import opened ScaffoldHistory
  import opened ScaffoldRun
  import opened Selection
  import opened TestEnvGenerator
  import opened Text
  import opened TextFile
  import opened Yaml

  import Checker = ScaffoldChecker
  import PackageGenerator

  // ----- a compose file -----

  function Settings(): Entries {
    [Entry("DB_TYPE", Null), Entry("DB_HOST", Null), Entry("DB_PORT", Null)]
  }

  function SmallApp(name: string): Entries {
    [Entry("depends_on", Map([Entry(name, HEALTHY)])), Entry("environment", Map(Settings()))]
  }

  function SmallServices(name: string): Entries {
    [Entry(name, Null), Entry("app", Map(SmallApp(name)))]
  }

  /** One RDB service, an app that depends on it, and its volume. */
  function SmallCompose(name: string): Node {
    Map([Entry("services", Map(SmallServices(name))), Entry("volumes", Map([Entry(name + "-data", Null)]))])
  }

  lemma SettingsUnique()
    ensures UniqueKeys(Map(Settings())) && HasSettings(Settings())
  {
    EnvironmentKeysDiffer();
    FindIs(Settings(), "DB_TYPE", 0);
    FindIs(Settings(), "DB_HOST", 1);
    FindIs(Settings(), "DB_PORT", 2);
  }

  lemma SmallAppFits(name: string)
    ensures UniqueKeys(Map(SmallApp(name))) && AppSet(SmallApp(name), name)
    ensures Get(SmallApp(name), "depends_on") == Map([Entry(name, HEALTHY)])
  {
    EnvironmentKeysDiffer();
    SettingsUnique();
    FindIs(SmallApp(name), "depends_on", 0);
    FindIs(SmallApp(name), "environment", 1);
    FindIs([Entry(name, HEALTHY)], name, 0);
  }

  lemma SmallServicesFit(name: string)
    requires IsRdb(name) && Foreign(name)
    ensures UniqueKeys(Map(SmallServices(name))) && ServicesSet(SmallServices(name), 0)
    ensures AppFits(SmallServices(name), name)
    ensures Get(SmallServices(name), "app") == Map(SmallApp(name)) && Has(SmallServices(name), name)
  {
    EnvironmentKeysDiffer();
    SmallAppFits(name);
    FindIs(SmallServices(name), name, 0);
    FindIs(SmallServices(name), "app", 1);
  }

  lemma SmallComposeSet(name: string)
    requires IsRdb(name) && Foreign(name)
    ensures UniqueKeys(SmallCompose(name)) && FileSet(SmallCompose(name), name, 0)
    ensures forall to: string :: IsRdb(to) ==> TargetFresh(SmallCompose(name), name, to)
  {
    EnvironmentKeysDiffer();
    SmallServicesFit(name);
    SmallAppFits(name);
    var root, volumes := SmallCompose(name), [Entry(name + "-data", Null)];
    FindIs(root.entries, "services", 0);
    FindIs(root.entries, "volumes", 1);
    FindIs(volumes, name + "-data", 0);
    forall to: string | IsRdb(to) ensures TargetFresh(root, name, to) {
      OnlyOneName([Entry(name, HEALTHY)], name, to);
      OnlyOneName(volumes, name + "-data", to + "-data");
    }
  }

  lemma OnlyOneName(m: Entries, name: string, to: string)
    requires |m| == 1 && m[0].key == name
    ensures Fresh(m, name, to)
  {
  }

  lemma SmallNoUrl(name: string, key: string)
    requires Foreign(name) && !Foreign(key)
    ensures !HasDeep(SmallCompose(name).entries, 3, key)
  {
    ForeignKeys(Postgres);
    FirstIs(Settings(), 0, key, 3);
    FirstIs([Entry(name, HEALTHY)], 0, key, 1);
    FirstIs(SmallApp(name), 1, key, 2);
    FirstIs(SmallServices(name), 2, key, 2);
    FirstIs([Entry(name + "-data", Null)], 2, key, 1);
    FirstIs(SmallCompose(name).entries, 3, key, 2);
  }

  lemma SmallSelectable(name: string, to: string)
    requires IsRdb(name) && Foreign(name) && IsRdb(to)
    ensures SelectableFor(Readable(SmallCompose(name)), to)
  {
    SmallComposeSet(name);
    SmallNoUrl(name, URL_KEY);
    SmallNoUrl(name, ANCHOR_KEY);
    SelectableWithoutUrl(SmallCompose(name), name, 0, to);
  }

  lemma SmallComposeSelectable(d: Database)
    ensures ComposeSelectable(Readable(SmallCompose(Postgres.Name())), d)
  {
    ForeignKeys(Postgres);
    NamesDiffer(Postgres, d);
    SmallSelectable(Postgres.Name(), d.Name());
  }

  // ----- the other files -----

  lemma NotMentioned(line: string, needle: string, k: nat)
    requires k < |needle| && needle[k] !in line
    ensures !Includes(line, needle)
  {
    if Includes(line, needle) {
      IncludesChars(line, needle, k);
    }
  }

  lemma SaysItself(line: string)
    ensures Includes(line, line)
  {
    assert line[0..][..|line|] == line;
  }

  lemma OwnMarker()
    ensures ModuleAgrees(Typeorm, Checker.Marker(Typeorm))
  {
    var line := Checker.Marker(Typeorm);
    SaysItself(line);
    MarkerLetters();
    NotMentioned(line, Checker.Marker(Drizzle), 5);
    NotMentioned(line, Checker.Marker(Mikroorm), 1);
    NotMentioned(line, Checker.Marker(Prisma), 0);
  }

  lemma MarkerLetters()
    ensures Checker.Marker(Drizzle)[5] == '\'' && Checker.Marker(Mikroorm)[1] == 'i' && Checker.Marker(Prisma)[0] == 'P'
    ensures '\'' !in Checker.Marker(Typeorm) && 'i' !in Checker.Marker(Typeorm) && 'P' !in Checker.Marker(Typeorm)
  {
    TypeormLetters("TypeOrmModule.forRootAsync");
  }

  lemma TypeormLetters(line: string)
    requires line == "TypeOrmModule.forRootAsync"
    ensures '\'' !in line && 'i' !in line && 'P' !in line
  {
  }

  function SmallPaths(): set<string> {
    Checker.Names(Checker.RequiredFiles(Typeorm)) + {E2E_FILE}
  }

  function SmallFiles(): map<string, string> {
    map path | path in SmallPaths() ::
      if path == MODULE_FILE then Checker.Marker(Typeorm)
      else if path == E2E_FILE then Checker.E2E_SCHEMA + Checker.E2E_TYPE else ""
  }

  lemma OwnFiles()
    ensures FilesSelectable(SmallPaths(), Typeorm)
  {
    forall o: Orm
      ensures (Checker.Names(Checker.RequiredFiles(o)) - Checker.Names(Checker.RequiredFiles(Typeorm))) !! SmallPaths()
    {
      if o != Typeorm {
        OthersApart(o, Prisma);
        assert E2E_FILE in TYPEORM_FILES;
      }
    }
  }

  lemma SaysBoth(first: string, second: string)
    ensures E2eSays(first + second, first, second)
  {
    IncludesAt(first + second, "", first, second);
    assert "" + first + second == first + second;
    IncludesAt(first + second, first, second, "");
    assert first + second + "" == first + second;
  }

  predicate E2eSays(text: string, first: string, second: string) {
    Includes(text, first) && Includes(text, second)
  }

  lemma SmallFilesSuit()
    ensures SmallFiles().Keys == SmallPaths() && ScaffoldRun.OwnModule(SmallFiles(), Typeorm)
    ensures E2eAgrees(TextAt(SmallFiles(), E2E_FILE))
  {
    ModuleRequired(Typeorm);
    OwnMarker();
    SaysBoth(Checker.E2E_SCHEMA, Checker.E2E_TYPE);
    assert |E2E_FILE| == 28 && |MODULE_FILE| == 36;
  }

  lemma StartsItself(p: Pattern)
    requires Flat(p.prefix + p.suffix)
    ensures Anchored(LinesOf(p.prefix + p.suffix), p)
  {
    OneLineFile(p.prefix + p.suffix);
    Framed(p.prefix, "", p.suffix);
    assert p.prefix + "" + p.suffix == p.prefix + p.suffix;
    FirstMatchIs([p.prefix + p.suffix], p, 0);
  }

  const EMPTY_MANIFEST := PackageGenerator.Manifest([], [], [])

  function SmallProject(): Project {
    Project(None, Some("RdbDatabaseModule"), Some(Readable(SmallCompose(Postgres.Name()))), None, Some("DB_TYPE="),
            SmallFiles(),
            Some(TYPE_PREFIX + "';"), Some(EMPTY_MANIFEST), None)
  }

  const START := Choice(Postgres, Typeorm)

  lemma SmallLinesAnchored()
    ensures LinesAnchored(SmallProject())
  {
    assert Flat("DB_TYPE=" + "");
    StartsItself(Key("DB_TYPE"));
    assert Key("DB_TYPE").prefix + Key("DB_TYPE").suffix == "DB_TYPE=";
    PrefixesFlat();
    FlatJoin(TYPE_PREFIX, "';");
    StartsItself(Pattern(TYPE_PREFIX, "';"));
  }

  lemma SmallProjectSelectable(templates: Templates)
    ensures Selectable(SmallProject(), START, templates)
  {
    SaysItself("RdbDatabaseModule");
    SmallComposeSelectable(Postgres);
    SmallLinesAnchored();
    AnchorsSuffice("DB_TYPE=", TYPE_PREFIX + "';", Postgres);
    OwnFiles();
    SmallFilesSuit();
  }

  lemma SmallEverySelectable()
    ensures EverySelectable(SmallProject())
  {
    forall d: Database ensures ComposeSelectable(SmallProject().compose.value, d) {
      SmallComposeSelectable(d);
    }
  }

  /** Some project meets the premises of `EveryHistoryPasses`: the one that the script makes of the small
      project. */
  lemma SomeProjectIsTurnable()
    ensures exists p: Project :: Turnable(p, START)
  {
    var templates: Templates := map[];
    SmallProjectSelectable(templates);
    SelectedPasses(SmallProject(), START, templates);
    SmallLinesAnchored();
    SmallEverySelectable();
    RunKeeps(SmallProject(), START, templates);
    assert Turnable(Apply(SmallProject(), START, templates).value, START);
  }

  // ----- templates -----

  /** A module template that only asks for the driver's imports. */
  const SMALL_MODULE := DrizzleKey(DRIVER_IMPORTS)

  function SmallTemplates(): Templates {
    map path | path in TemplatePaths(Drizzle) :: SMALL_MODULE
  }

  lemma TailIncludes(s: string, key: string)
    requires s != ""
    ensures Includes(s[1..], key) ==> Includes(s, key)
  {
    if Includes(s[1..], key) {
      IncludesLonger([s[0]], s[1..], "", key);
      assert [s[0]] + s[1..] + "" == s;
    }
  }

  lemma {:induction false} UncutWithout(s: string, k: nat, key: string)
    requires key != "" && !Includes(s, key)
    ensures Cut(s, k, key) == Tail(s)
    decreases |s|
  {
    if |s| >= |key| {
      assert s[0..] == s;
      TailIncludes(s, key);
      UncutWithout(s[1..], k, key);
    }
  }

  lemma OtherKeysMissing(k: nat)
    requires k < DRIVER_IMPORTS
    ensures !Includes(SMALL_MODULE, DrizzleKey(k))
  {
    assert DrizzleKey(k)[if k == 3 then 8 else if k == 2 then 3 else 2] == if k == 3 then 'Y' else if k == 2 then 'B'
           else 'C';
    NotMentioned(SMALL_MODULE, DrizzleKey(k), if k == 3 then 8 else if k == 2 then 3 else 2);
  }

  lemma CutsItself(k: nat, key: string)
    requires key != ""
    ensures Cut(key, k, key) == Hole("", k, Tail(""))
  {
    assert key[..|key|] == key && key[|key|..] == "";
  }

  lemma {:induction false} UncutBefore(n: nat)
    requires n <= DRIVER_IMPORTS
    ensures |ModuleKeys(Drizzle)| == 7 && forall k :: 0 <= k < 7 ==> ModuleKeys(Drizzle)[k] == DrizzleKey(k) != ""
    ensures Parsed(SMALL_MODULE, ModuleKeys(Drizzle), n) == Tail(SMALL_MODULE)
  {
    KeysNonEmpty(Drizzle);
    if n > 0 {
      UncutBefore(n - 1);
      OtherKeysMissing(n - 1);
      UncutWithout(SMALL_MODULE, n - 1, DrizzleKey(n - 1));
    }
  }

  lemma HoleUncut(k: nat, key: string)
    requires key != ""
    ensures CutLiterals(Hole("", DRIVER_IMPORTS, Tail("")), k, key) == Hole("", DRIVER_IMPORTS, Tail(""))
  {
    assert Cut("", k, key) == Tail("");
  }

  lemma SmallPieces()
    ensures Pieces(Drizzle, SMALL_MODULE) == Hole("", DRIVER_IMPORTS, Tail(""))
  {
    var keys, hole := ModuleKeys(Drizzle), Hole("", DRIVER_IMPORTS, Tail(""));
    UncutBefore(4);
    CutsItself(4, SMALL_MODULE);
    assert Parsed(SMALL_MODULE, keys, 5) == hole;
    HoleUncut(5, keys[5]);
    HoleUncut(6, keys[6]);
    assert Parsed(SMALL_MODULE, keys, 6) == hole;
  }

  lemma ImportsLackOthers(d: Database, o: Orm)
    requires o != Drizzle
    ensures !Includes(DriverImports(d), Checker.Marker(o))
  {
    DrizzleImports(d, 'C');
    DrizzleImports(d, 'R');
    if o == Prisma {
      PrismaMarkerHasC();
      NotMentioned(DriverImports(d), Checker.Marker(o), 6);
    } else {
      assert Checker.Marker(o)[if o == Mikroorm then 18 else 17] == 'R';
      NotMentioned(DriverImports(d), Checker.Marker(o), if o == Mikroorm then 18 else 17);
    }
  }

  lemma OneHoleCarries(values: seq<string>, k: nat, p: string)
    requires k < |values| && p != ""
    ensures Carries(Hole("", k, Tail("")), values, p) <==> Includes(values[k], p)
  {
  }

  lemma SmallModuleCarries(d: Database, o: Orm)
    ensures CarriesMarker(Drizzle, d, SMALL_MODULE, o) <==> Includes(DriverImports(d), Checker.Marker(o))
  {
    SmallPieces();
    PiecesFit(Drizzle, SMALL_MODULE);
    OneHoleCarries(ModuleValues(Drizzle, d), DRIVER_IMPORTS, Checker.Marker(o));
  }

  lemma SmallTemplateAgrees(d: Database)
    ensures TemplateAgrees(Drizzle, d, SMALL_MODULE)
  {
    forall o: Orm ensures CarriesMarker(Drizzle, d, SMALL_MODULE, o) <==> o == Drizzle {
      SmallModuleCarries(d, o);
      if o == Drizzle {
        ImportsHaveMarker(d);
      } else {
        ImportsLackOthers(d, o);
      }
    }
  }

  /** Some templates are ready: with these, Drizzle can be selected for every database. */
  lemma SomeProfileIsReady(d: Database)
    ensures ProfileReady(Choice(d, Drizzle), SmallTemplates())
  {
    SmallTemplateAgrees(d);
  }

  /** So TypeORM can be left for Drizzle, and every history of databases is supported after that. */
  lemma {:induction false} SomeHistoryIsSupported(from: Orm, history: seq<Choice>)
    requires from == Typeorm || from == Drizzle
    requires forall i :: 0 <= i < |history| ==> history[i].orm == Drizzle
    ensures AllSupported(from, history, SmallTemplates())
    decreases |history|
  {
    if history != [] {
      SomeProfileIsReady(history[0].database);
      SomeHistoryIsSupported(Drizzle, history[1..]);
    }
  }
}
