/** The checker's list as a whole: of a fixed list of candidates exactly those that are due, in order. */
module IssueOrder {
  import opened IssueMeaning
  import opened OrderedMap
  import opened Results
  import opened ScaffoldChecker
  import opened Selection
  import opened Sequences
  import opened Text
  import opened Yaml

  /** The issues that are due among some candidates. */
  ghost function Chosen(c: Choice, s: State, candidates: seq<Issue>): seq<Issue> {
    if candidates == [] then []
    else (if Due(c, s, candidates[0]) then [candidates[0]] else []) + Chosen(c, s, candidates[1..])
  }

  // ----- the candidates -----

  function PackagesOf(o: Orm): seq<string> {
    match o
    case Typeorm => ["@nestjs/typeorm", "typeorm"]
    case Prisma => ["@prisma/client"]
    case Mikroorm => ["@mikro-orm/core", "@mikro-orm/migrations", "@mikro-orm/nestjs"]
    case Drizzle => ["drizzle-orm"]
  }

  function ToolsOf(o: Orm): seq<string> {
    match o
    case Typeorm | Mikroorm => []
    case Prisma => ["prisma"]
    case Drizzle => ["drizzle-kit"]
  }

  function DriversOf(o: Orm, d: Database): seq<string> {
    match o
    case Typeorm | Drizzle => if d == Postgres then ["pg"] else ["mysql2"]
    case Prisma => if d == Postgres then ["@prisma/adapter-pg"] else ["@prisma/adapter-mariadb"]
    case Mikroorm =>
      (match d
       case Postgres => ["@mikro-orm/postgresql"]
       case Mysql => ["@mikro-orm/mysql"]
       case Mariadb => ["@mikro-orm/mariadb"])
  }

  function FilesOf(o: Orm): seq<string> {
    match o
    case Typeorm => ["src/common/persistence/typeorm-repository.adapter.ts", "src/config/typeorm-data-source.ts",
                     "src/infra/rdb/rdb-database.module.ts"]
    case Prisma => ["src/infra/rdb/rdb-database.module.ts", "prisma/schema.prisma", "prisma.config.ts"]
    case Mikroorm => ["src/infra/rdb/rdb-database.module.ts", "src/infra/rdb/mikro-orm.config.ts"]
    case Drizzle => ["src/infra/rdb/rdb-database.module.ts", "src/infra/rdb/schema.ts", "drizzle.config.ts"]
  }

  function MarkerOf(o: Orm): string {
    match o
    case Typeorm => "TypeOrmModule.forRootAsync"
    case Prisma => "PrismaClient"
    case Mikroorm => "MikroOrmModule.forRoot"
    case Drizzle => "from 'drizzle-orm/"
  }

  /** These are the names and markers that the checker looks for. */
  lemma ContractIs(o: Orm, d: Database)
    ensures PackagesOf(o) == RequiredDependencies(o) && ToolsOf(o) == RequiredDevDependencies(o)
    ensures DriversOf(o, d) == DriverPackages(o, d) && FilesOf(o) == RequiredFiles(o) && Marker(o) == MarkerOf(o)
  {
  }

  /** One issue for each name. */
  function Each(names: seq<string>, of: string -> Issue): seq<Issue> {
    if names == [] then [] else [of(names[0])] + Each(names[1..], of)
  }

  function DriversFor(c: Choice, d: Database): seq<Issue> {
    if d == c.database then [] else Each(DriversOf(c.orm, d), name => UnselectedDriver(name))
  }

  function OtherDrivers(c: Choice, databases: seq<Database>): seq<Issue> {
    if databases == [] then [] else DriversFor(c, databases[0]) + OtherDrivers(c, databases[1..])
  }

  function PackagesFor(c: Choice, o: Orm): seq<Issue> {
    if o == c.orm then []
    else Each(PackagesOf(o), name => UnselectedDependency(name))
         + Each(ToolsOf(o), name => UnselectedDevDependency(name))
  }

  function OtherPackages(c: Choice, orms: seq<Orm>): seq<Issue> {
    if orms == [] then [] else PackagesFor(c, orms[0]) + OtherPackages(c, orms[1..])
  }

  function FilesFor(c: Choice, o: Orm): seq<Issue> {
    if o == c.orm then [] else Each(FilesOf(o), name => UnselectedFile(name))
  }

  function OtherFiles(c: Choice, orms: seq<Orm>): seq<Issue> {
    if orms == [] then [] else FilesFor(c, orms[0]) + OtherFiles(c, orms[1..])
  }

  function Activations(c: Choice, orms: seq<Orm>): seq<Issue> {
    if orms == [] then []
    else [if orms[0] == c.orm then InactiveOrm(orms[0]) else AlsoActive(orms[0])] + Activations(c, orms[1..])
  }

  function PackageCandidates(c: Choice): seq<Issue> {
    Each(PackagesOf(c.orm), name => MissingDependency(c.orm, name))
    + Each(ToolsOf(c.orm), name => MissingDevDependency(c.orm, name))
    + Each(DriversOf(c.orm, c.database), name => MissingDriver(c.orm, c.database, name))
    + OtherDrivers(c, [Postgres, Mysql, Mariadb]) + OtherPackages(c, [Typeorm, Prisma, Mikroorm, Drizzle])
  }

  function FileCandidates(c: Choice): seq<Issue> {
    Each(FilesOf(c.orm), name => MissingFile(c.orm, name)) + OtherFiles(c, [Typeorm, Prisma, Mikroorm, Drizzle])
  }

  function ModuleCandidates(c: Choice): seq<Issue> {
    Activations(c, [Typeorm, Prisma, Mikroorm, Drizzle])
  }

  function ServiceCandidates(path: Path, d: Database, file: File): seq<Issue> {
    if !HasServices(file) then []
    else
      [RdbMismatch(path, d, Present(file.root, Postgres) + Present(file.root, Mysql) + Present(file.root, Mariadb)),
       ImageMismatch(path, d, GetIn(file.root, ["services", d.Name(), "image"])),
       UnselectedService(path, Postgres), UnselectedService(path, Mysql), UnselectedService(path, Mariadb)]
  }

  function ShapeCandidates(path: Path): seq<Issue> {
    [InvalidYaml(path), NotAnObject(path), NoServices(path)]
  }

  function BaseCandidates(d: Database, file: File): seq<Issue> {
    ShapeCandidates(BaseCompose) + ServiceCandidates(BaseCompose, d, file)
    + AppCandidates(d)
  }

  function TestCandidates(d: Database, file: File): seq<Issue> {
    HeadCandidates() + ServiceCandidates(TestCompose, d, file) + ContainerCandidates(d)
  }

  function Candidates(c: Choice, s: State): seq<Issue> {
    [ActiveDatabase(c.database), ActiveOrm(c.orm), NoRdbModuleImport]
    + PackageCandidates(c) + FileCandidates(c) + ModuleCandidates(c)
    + [EnvType(c.database), TestEnvType(c.database), E2eSchema, E2eType]
    + BaseCandidates(c.database, s.compose) + TestCandidates(c.database, s.testCompose)
  }

  // ----- choosing part by part -----

  lemma HeadOfBoth(a: seq<Issue>, b: seq<Issue>)
    requires a != []
    ensures (a + b)[0] == a[0] && (a + b)[1..] == a[1..] + b
  {
  }

  lemma {:induction false} ChosenBoth(c: Choice, s: State, a: seq<Issue>, b: seq<Issue>)
    ensures Chosen(c, s, a + b) == Chosen(c, s, a) + Chosen(c, s, b)
  {
    if a == [] {
      assert a + b == b;
    } else {
      HeadOfBoth(a, b);
      ChosenBoth(c, s, a[1..], b);
      Associate(if Due(c, s, a[0]) then [a[0]] else [], Chosen(c, s, a[1..]), Chosen(c, s, b));
    }
  }

  lemma ChosenOne(c: Choice, s: State, issue: Issue, bad: bool)
    requires Due(c, s, issue) <==> bad
    ensures Chosen(c, s, [issue]) == When(bad, issue)
  {
    assert [issue][1..] == [];
  }

  lemma ChosenThree(c: Choice, s: State, x: seq<Issue>, y: seq<Issue>, z: seq<Issue>)
    ensures Chosen(c, s, x + y + z) == Chosen(c, s, x) + Chosen(c, s, y) + Chosen(c, s, z)
  {
    ChosenBoth(c, s, x, y);
    ChosenBoth(c, s, x + y, z);
  }

  lemma ChosenFour(c: Choice, s: State, w: seq<Issue>, x: seq<Issue>, y: seq<Issue>, z: seq<Issue>)
    ensures Chosen(c, s, w + x + y + z)
         == Chosen(c, s, w) + Chosen(c, s, x) + Chosen(c, s, y) + Chosen(c, s, z)
  {
    ChosenThree(c, s, w, x, y);
    ChosenBoth(c, s, w + x + y, z);
  }

  lemma IssuesCons(k: Kind, name: string, names: seq<string>)
    ensures Issues(k, [name] + names) == [Issued(k, name)] + Issues(k, names)
  {
  }

  lemma {:induction false} EachAbsent(c: Choice, s: State, k: Kind, names: seq<string>, present: set<string>,
                                      of: string -> Issue)
    requires forall name :: name in names ==> of(name) == Issued(k, name) && (Due(c, s, of(name)) <==> name !in present)
    ensures Issues(k, Absent(names, present)) == Chosen(c, s, Each(names, of))
  {
    if names != [] {
      var name, rest := names[0], names[1..];
      assert name in names && forall n :: n in rest ==> n in names;
      EachAbsent(c, s, k, rest, present, of);
      IssuesCons(k, name, Absent(rest, present));
      ChosenBoth(c, s, [of(name)], Each(rest, of));
      ChosenOne(c, s, of(name), name !in present);
    }
  }

  lemma {:induction false} EachListed(c: Choice, s: State, k: Kind, names: seq<string>, present: set<string>,
                                      of: string -> Issue)
    requires forall name :: name in names ==> of(name) == Issued(k, name) && (Due(c, s, of(name)) <==> name in present)
    ensures Issues(k, Listed(names, present)) == Chosen(c, s, Each(names, of))
  {
    if names != [] {
      var name, rest := names[0], names[1..];
      assert name in names && forall n :: n in rest ==> n in names;
      EachListed(c, s, k, rest, present, of);
      IssuesCons(k, name, Listed(rest, present));
      ChosenBoth(c, s, [of(name)], Each(rest, of));
      ChosenOne(c, s, of(name), name in present);
    }
  }

  // ----- what is due of one kind -----

  lemma DueHeader(c: Choice, s: State, issue: Issue)
    requires issue.ActiveDatabase? || issue.ActiveOrm? || issue.NoRdbModuleImport?
    ensures Due(c, s, issue) <==> HeaderDue(c, s, issue)
  {
  }

  lemma DueMissing(c: Choice, s: State, issue: Issue)
    requires issue.MissingDependency? || issue.MissingDevDependency? || issue.MissingDriver?
    ensures Due(c, s, issue) <==> MissingDue(c, s, issue)
  {
  }

  lemma DueLeftover(c: Choice, s: State, issue: Issue)
    requires issue.UnselectedDriver? || issue.UnselectedDependency? || issue.UnselectedDevDependency?
    ensures Due(c, s, issue) <==> LeftoverDue(c, s, issue)
  {
  }

  lemma DueFile(c: Choice, s: State, issue: Issue)
    requires issue.MissingFile? || issue.UnselectedFile?
    ensures Due(c, s, issue) <==> FileDue(c, s, issue)
  {
  }

  lemma DueModule(c: Choice, s: State, issue: Issue)
    requires issue.InactiveOrm? || issue.AlsoActive?
    ensures Due(c, s, issue) <==> ModuleDue(c, s, issue)
  {
  }

  lemma DueEnv(c: Choice, s: State, issue: Issue)
    requires issue.EnvType? || issue.TestEnvType? || issue.E2eSchema? || issue.E2eType?
    ensures Due(c, s, issue) <==> EnvDue(c, s, issue)
  {
  }

  // ----- the sections -----

  lemma HeaderChosen(c: Choice, s: State)
    ensures HeaderIssues(c, s) == Chosen(c, s, [ActiveDatabase(c.database), ActiveOrm(c.orm), NoRdbModuleImport])
  {
    var x, y, z := ActiveDatabase(c.database), ActiveOrm(c.orm), NoRdbModuleImport;
    DueHeader(c, s, x);
    DueHeader(c, s, y);
    DueHeader(c, s, z);
    ChosenTriple(c, s, x, y, z);
  }

  lemma PackagesChosen(c: Choice, s: State)
    ensures Issues(KMissing(c.orm), Absent(RequiredDependencies(c.orm), s.dependencies))
         == Chosen(c, s, Each(PackagesOf(c.orm), name => MissingDependency(c.orm, name)))
  {
    ContractIs(c.orm, c.database);
    forall name
      ensures Due(c, s, MissingDependency(c.orm, name)) <==> MissingDue(c, s, MissingDependency(c.orm, name))
    {
      DueMissing(c, s, MissingDependency(c.orm, name));
    }
    EachAbsent(c, s, KMissing(c.orm), PackagesOf(c.orm), s.dependencies, name => MissingDependency(c.orm, name));
  }

  lemma ToolsChosen(c: Choice, s: State)
    ensures Issues(KMissingDev(c.orm), Absent(RequiredDevDependencies(c.orm), s.devDependencies))
         == Chosen(c, s, Each(ToolsOf(c.orm), name => MissingDevDependency(c.orm, name)))
  {
    ContractIs(c.orm, c.database);
    forall name
      ensures Due(c, s, MissingDevDependency(c.orm, name)) <==> MissingDue(c, s, MissingDevDependency(c.orm, name))
    {
      DueMissing(c, s, MissingDevDependency(c.orm, name));
    }
    EachAbsent(c, s, KMissingDev(c.orm), ToolsOf(c.orm), s.devDependencies,
               name => MissingDevDependency(c.orm, name));
  }

  lemma DriversChosen(c: Choice, s: State)
    ensures Issues(KDriver(c.orm, c.database), Absent(DriverPackages(c.orm, c.database), s.dependencies))
         == Chosen(c, s, Each(DriversOf(c.orm, c.database), name => MissingDriver(c.orm, c.database, name)))
  {
    ContractIs(c.orm, c.database);
    forall name
      ensures Due(c, s, MissingDriver(c.orm, c.database, name))
         <==> MissingDue(c, s, MissingDriver(c.orm, c.database, name))
    {
      DueMissing(c, s, MissingDriver(c.orm, c.database, name));
    }
    EachAbsent(c, s, KDriver(c.orm, c.database), DriversOf(c.orm, c.database), s.dependencies,
               name => MissingDriver(c.orm, c.database, name));
  }

  lemma DriversForChosen(c: Choice, s: State, d: Database)
    requires d != c.database
    ensures Chosen(c, s, DriversFor(c, d))
         == Issues(KUnselectedDriver, Listed(DriverPackages(c.orm, d),
                                             s.dependencies - Names(DriverPackages(c.orm, c.database))))
  {
    var others := s.dependencies - Names(DriverPackages(c.orm, c.database));
    ContractIs(c.orm, d);
    forall name | name in DriversOf(c.orm, d) ensures Due(c, s, UnselectedDriver(name)) <==> name in others {
      DueLeftover(c, s, UnselectedDriver(name));
    }
    EachListed(c, s, KUnselectedDriver, DriversOf(c.orm, d), others, name => UnselectedDriver(name));
  }

  lemma {:induction false} OtherDriversChosen(c: Choice, s: State, databases: seq<Database>)
    ensures Chosen(c, s, OtherDrivers(c, databases)) == UnselectedDrivers(c, s.dependencies, databases)
  {
    if databases != [] {
      OtherDriversChosen(c, s, databases[1..]);
      ChosenBoth(c, s, DriversFor(c, databases[0]), OtherDrivers(c, databases[1..]));
      if databases[0] != c.database { DriversForChosen(c, s, databases[0]); }
    }
  }

  lemma PackagesForChosen(c: Choice, s: State, o: Orm)
    requires o != c.orm
    ensures Chosen(c, s, Each(PackagesOf(o), name => UnselectedDependency(name)))
         == Issues(KUnselected, Listed(RequiredDependencies(o), s.dependencies))
  {
    ContractIs(o, c.database);
    forall name | name in PackagesOf(o) ensures Due(c, s, UnselectedDependency(name)) <==> name in s.dependencies {
      DueLeftover(c, s, UnselectedDependency(name));
    }
    EachListed(c, s, KUnselected, PackagesOf(o), s.dependencies, name => UnselectedDependency(name));
  }

  lemma ToolsForChosen(c: Choice, s: State, o: Orm)
    requires o != c.orm
    ensures Chosen(c, s, Each(ToolsOf(o), name => UnselectedDevDependency(name)))
         == Issues(KUnselectedDev, Listed(RequiredDevDependencies(o), s.devDependencies))
  {
    ContractIs(o, c.database);
    forall name | name in ToolsOf(o)
      ensures Due(c, s, UnselectedDevDependency(name)) <==> name in s.devDependencies
    {
      DueLeftover(c, s, UnselectedDevDependency(name));
    }
    EachListed(c, s, KUnselectedDev, ToolsOf(o), s.devDependencies, name => UnselectedDevDependency(name));
  }

  lemma {:induction false} OtherPackagesChosen(c: Choice, s: State, orms: seq<Orm>)
    ensures Chosen(c, s, OtherPackages(c, orms)) == UnselectedOrms(c, s, orms)
  {
    if orms != [] {
      var o := orms[0];
      OtherPackagesChosen(c, s, orms[1..]);
      ChosenBoth(c, s, PackagesFor(c, o), OtherPackages(c, orms[1..]));
      if o != c.orm {
        PackagesForChosen(c, s, o);
        ToolsForChosen(c, s, o);
        ChosenBoth(c, s, Each(PackagesOf(o), name => UnselectedDependency(name)),
                   Each(ToolsOf(o), name => UnselectedDevDependency(name)));
      }
    }
  }

  lemma OtherFileDue(c: Choice, s: State, o: Orm, name: string)
    requires o != c.orm && name in RequiredFiles(o)
    ensures Due(c, s, UnselectedFile(name)) <==> name in s.files - Names(RequiredFiles(c.orm))
  {
    DueFile(c, s, UnselectedFile(name));
  }

  lemma FilesForChosen(c: Choice, s: State, o: Orm)
    requires o != c.orm
    ensures Chosen(c, s, FilesFor(c, o))
         == Issues(KUnselectedFile, Listed(RequiredFiles(o), s.files - Names(RequiredFiles(c.orm))))
  {
    var others := s.files - Names(RequiredFiles(c.orm));
    ContractIs(o, c.database);
    forall name | name in FilesOf(o) ensures Due(c, s, UnselectedFile(name)) <==> name in others {
      OtherFileDue(c, s, o, name);
    }
    EachListed(c, s, KUnselectedFile, FilesOf(o), others, name => UnselectedFile(name));
  }

  lemma {:induction false} OtherFilesChosen(c: Choice, s: State, orms: seq<Orm>)
    ensures Chosen(c, s, OtherFiles(c, orms)) == UnselectedFiles(c, s.files, orms)
  {
    if orms != [] {
      OtherFilesChosen(c, s, orms[1..]);
      ChosenBoth(c, s, FilesFor(c, orms[0]), OtherFiles(c, orms[1..]));
      if orms[0] != c.orm { FilesForChosen(c, s, orms[0]); }
    }
  }

  lemma PackageSection(c: Choice, s: State)
    ensures PackageIssues(c, s) == Chosen(c, s, PackageCandidates(c))
  {
    var x, y := Each(PackagesOf(c.orm), name => MissingDependency(c.orm, name)),
        Each(ToolsOf(c.orm), name => MissingDevDependency(c.orm, name));
    var z := Each(DriversOf(c.orm, c.database), name => MissingDriver(c.orm, c.database, name));
    var d, o := OtherDrivers(c, [Postgres, Mysql, Mariadb]), OtherPackages(c, [Typeorm, Prisma, Mikroorm, Drizzle]);
    PackagesChosen(c, s);
    ToolsChosen(c, s);
    DriversChosen(c, s);
    OtherDriversChosen(c, s, RDB_CHOICES);
    OtherPackagesChosen(c, s, ORM_CHOICES);
    ChosenFour(c, s, x, y, z, d);
    ChosenBoth(c, s, x + y + z + d, o);
  }

  lemma FileSection(c: Choice, s: State)
    ensures FileIssues(c, s.files) == Chosen(c, s, FileCandidates(c))
  {
    ContractIs(c.orm, c.database);
    forall name ensures Due(c, s, MissingFile(c.orm, name)) <==> FileDue(c, s, MissingFile(c.orm, name)) {
      DueFile(c, s, MissingFile(c.orm, name));
    }
    EachAbsent(c, s, KFile(c.orm), FilesOf(c.orm), s.files, name => MissingFile(c.orm, name));
    OtherFilesChosen(c, s, ORM_CHOICES);
    ChosenBoth(c, s, Each(FilesOf(c.orm), name => MissingFile(c.orm, name)),
               OtherFiles(c, [Typeorm, Prisma, Mikroorm, Drizzle]));
  }

  lemma {:induction false} ModuleSection(c: Choice, s: State, orms: seq<Orm>)
    ensures ModuleIssues(c, s.rdbModule, orms) == Chosen(c, s, Activations(c, orms))
  {
    if orms != [] {
      var o := orms[0];
      var issue := if o == c.orm then InactiveOrm(o) else AlsoActive(o);
      ModuleSection(c, s, orms[1..]);
      ChosenBoth(c, s, [issue], Activations(c, orms[1..]));
      DueModule(c, s, issue);
      ChosenOne(c, s, issue, ModuleDue(c, s, issue));
    }
  }

  lemma ChosenSingles(c: Choice, s: State, w: Issue, x: Issue, y: Issue, z: Issue)
    ensures Chosen(c, s, [w, x, y, z])
         == When(Due(c, s, w), w) + When(Due(c, s, x), x) + When(Due(c, s, y), y) + When(Due(c, s, z), z)
  {
    ChosenFour(c, s, [w], [x], [y], [z]);
    ChosenOne(c, s, w, Due(c, s, w));
    ChosenOne(c, s, x, Due(c, s, x));
    ChosenOne(c, s, y, Due(c, s, y));
    ChosenOne(c, s, z, Due(c, s, z));
    assert [w] + [x] + [y] + [z] == [w, x, y, z];
  }

  lemma EnvSection(c: Choice, s: State)
    ensures EnvIssues(c, s) == Chosen(c, s, [EnvType(c.database), TestEnvType(c.database), E2eSchema, E2eType])
  {
    var w, x := EnvType(c.database), TestEnvType(c.database);
    ChosenSingles(c, s, w, x, E2eSchema, E2eType);
    DueEnv(c, s, w);
    DueEnv(c, s, x);
    DueEnv(c, s, E2eSchema);
    DueEnv(c, s, E2eType);
    E2eSection(c, s);
    Associate(When(EnvDue(c, s, w), w) + When(EnvDue(c, s, x), x), When(EnvDue(c, s, E2eSchema), E2eSchema),
              When(EnvDue(c, s, E2eType), E2eType));
  }

  lemma E2eSection(c: Choice, s: State)
    ensures (if c.orm != Typeorm then [] else
               When(s.persistenceE2e.None? || !Includes(s.persistenceE2e.value, E2E_SCHEMA), E2eSchema)
               + When(s.persistenceE2e.None? || !Includes(s.persistenceE2e.value, E2E_TYPE), E2eType))
         == When(EnvDue(c, s, E2eSchema), E2eSchema) + When(EnvDue(c, s, E2eType), E2eType)
  {
  }

  // ----- the compose files -----

  lemma DueBase(c: Choice, s: State, issue: Issue)
    requires || issue.NotADependency? || issue.AppSetting?
             || ((issue.InvalidYaml? || issue.NotAnObject? || issue.NoServices? || issue.RdbMismatch?
                  || issue.ImageMismatch? || issue.UnselectedService?) && issue.path == BaseCompose)
    ensures Due(c, s, issue) <==> BaseDue(c.database, s.compose, issue)
  {
  }

  lemma DueTest(c: Choice, s: State, issue: Issue)
    requires || issue.ProjectName? || issue.TestPort? || issue.TestTmpfs? || issue.TestVolume?
             || ((issue.InvalidYaml? || issue.NotAnObject? || issue.NoServices? || issue.RdbMismatch?
                  || issue.ImageMismatch? || issue.UnselectedService?) && issue.path == TestCompose)
    ensures Due(c, s, issue) <==> TestFileDue(c.database, s.testCompose, issue)
  {
  }

  function FileAt(s: State, path: Path): File {
    if path == BaseCompose then s.compose else s.testCompose
  }

  lemma DueService(c: Choice, s: State, path: Path, issue: Issue)
    requires (issue.RdbMismatch? || issue.ImageMismatch? || issue.UnselectedService?) && issue.path == path
    requires HasServices(FileAt(s, path))
    ensures Due(c, s, issue) <==> RdbDue(path, c.database, FileAt(s, path).root, issue)
  {
    if path == BaseCompose { DueBase(c, s, issue); } else { DueTest(c, s, issue); }
  }

  lemma {:induction false} UnselectedBoth(path: Path, d: Database, a: seq<Database>, b: seq<Database>)
    ensures UnselectedServices(path, d, a + b) == UnselectedServices(path, d, a) + UnselectedServices(path, d, b)
  {
    if a == [] {
      assert a + b == b;
    } else {
      assert (a + b)[1..] == a[1..] + b;
      UnselectedBoth(path, d, a[1..], b);
      Associate(When(a[0] != d, UnselectedService(path, a[0])), UnselectedServices(path, d, a[1..]),
                UnselectedServices(path, d, b));
    }
  }

  lemma UnselectedOne(path: Path, d: Database, root: Node, e: Database)
    ensures UnselectedServices(path, d, Present(root, e))
         == When(e != d && GetIn(root, ["services", e.Name()]).Some?, UnselectedService(path, e))
  {
    assert [e][1..] == [];
  }

  lemma UnselectedChosen(c: Choice, s: State, path: Path, root: Node, e: Database)
    requires HasServices(FileAt(s, path)) && root == FileAt(s, path).root
    ensures UnselectedServices(path, c.database, Present(root, e)) == Chosen(c, s, [UnselectedService(path, e)])
  {
    UnselectedOne(path, c.database, root, e);
    DueService(c, s, path, UnselectedService(path, e));
    ChosenOne(c, s, UnselectedService(path, e), e != c.database && GetIn(root, ["services", e.Name()]).Some?);
  }

  lemma ThreeUnselectedChosen(c: Choice, s: State, path: Path, root: Node)
    requires HasServices(FileAt(s, path)) && root == FileAt(s, path).root
    ensures UnselectedServices(path, c.database,
                               Present(root, Postgres) + Present(root, Mysql) + Present(root, Mariadb))
         == Chosen(c, s, [UnselectedService(path, Postgres), UnselectedService(path, Mysql),
                          UnselectedService(path, Mariadb)])
  {
    var x, y, z := UnselectedService(path, Postgres), UnselectedService(path, Mysql), UnselectedService(path, Mariadb);
    UnselectedBoth(path, c.database, Present(root, Postgres), Present(root, Mysql));
    UnselectedBoth(path, c.database, Present(root, Postgres) + Present(root, Mysql), Present(root, Mariadb));
    UnselectedChosen(c, s, path, root, Postgres);
    UnselectedChosen(c, s, path, root, Mysql);
    UnselectedChosen(c, s, path, root, Mariadb);
    ChosenThree(c, s, [x], [y], [z]);
    assert [x] + [y] + [z] == [x, y, z];
  }

  lemma SelectedChosen(c: Choice, s: State, path: Path, found: seq<Database>, selected: Option<Entries>,
                       image: Option<Node>)
    requires HasServices(FileAt(s, path))
    requires var root := FileAt(s, path).root;
             && found == Present(root, Postgres) + Present(root, Mysql) + Present(root, Mariadb)
             && selected == MapIn(root, ["services", c.database.Name()])
             && image == GetIn(root, ["services", c.database.Name(), "image"])
    ensures (if selected.None? then [RdbMismatch(path, c.database, found)]
             else When(image != Some(Str(DatabaseImage(c.database))), ImageMismatch(path, c.database, image)))
         == Chosen(c, s, [RdbMismatch(path, c.database, found), ImageMismatch(path, c.database, image)])
  {
    var x, y := RdbMismatch(path, c.database, found), ImageMismatch(path, c.database, image);
    DueService(c, s, path, x);
    DueService(c, s, path, y);
    ChosenOne(c, s, x, selected.None?);
    ChosenOne(c, s, y, selected.Some? && image != Some(Str(DatabaseImage(c.database))));
    ChosenBoth(c, s, [x], [y]);
    assert [x] + [y] == [x, y];
  }

  lemma CandidatesChosen(c: Choice, s: State, x: Issue, y: Issue, u: Issue, v: Issue, w: Issue)
    ensures Chosen(c, s, [x, y, u, v, w]) == Chosen(c, s, [x, y]) + Chosen(c, s, [u, v, w])
  {
    Five(x, y, u, v, w);
    ChosenBoth(c, s, [x, y], [u, v, w]);
  }

  lemma Five(x: Issue, y: Issue, u: Issue, v: Issue, w: Issue)
    ensures [x, y] + [u, v, w] == [x, y, u, v, w]
  {
  }

  lemma ServiceLookups(root: Node, services: Entries, path: Path, d: Database, found: seq<Database>,
                       selected: Option<Entries>, image: Option<Node>)
    requires MapIn(root, ["services"]) == Some(services)
    requires found == Present(root, Postgres) + Present(root, Mysql) + Present(root, Mariadb)
    requires selected == MapIn(root, ["services", d.Name()])
    requires image == GetIn(root, ["services", d.Name(), "image"])
    ensures ServiceIssues(path, d, services)
         == (if selected.None? then [RdbMismatch(path, d, found)]
             else When(image != Some(Str(DatabaseImage(d))), ImageMismatch(path, d, image)))
            + UnselectedServices(path, d, found)
  {
    FoundIs(root, services);
    InServices(root, services, d.Name());
    InService(root, services, d.Name(), "image");
  }

  lemma ServiceSection(c: Choice, s: State, path: Path, services: Entries)
    requires HasServices(FileAt(s, path)) && MapIn(FileAt(s, path).root, ["services"]) == Some(services)
    ensures ServiceIssues(path, c.database, services)
         == Chosen(c, s, ServiceCandidates(path, c.database, FileAt(s, path)))
  {
    var root, d := FileAt(s, path).root, c.database;
    var found := Present(root, Postgres) + Present(root, Mysql) + Present(root, Mariadb);
    var selected, image := MapIn(root, ["services", d.Name()]), GetIn(root, ["services", d.Name(), "image"]);
    ServiceLookups(root, services, path, d, found, selected, image);
    SelectedChosen(c, s, path, found, selected, image);
    ThreeUnselectedChosen(c, s, path, root);
    CandidatesChosen(c, s, RdbMismatch(path, d, found), ImageMismatch(path, d, image),
                     UnselectedService(path, Postgres), UnselectedService(path, Mysql),
                     UnselectedService(path, Mariadb));
  }

  // ----- docker-compose.yml -----

  lemma SettingsCons(environment: Option<Entries>, x: (string, string), rest: seq<(string, string)>)
    ensures SettingIssues(environment, [x] + rest)
         == When(Field(environment, x.0) != Some(Str(x.1)), AppSetting(x.0, x.1)) + SettingIssues(environment, rest)
  {
    assert ([x] + rest)[1..] == rest;
  }

  lemma SettingsUnrolled(environment: Option<Entries>, x: (string, string), y: (string, string), z: (string, string))
    ensures SettingIssues(environment, [x, y, z])
         == When(Field(environment, x.0) != Some(Str(x.1)), AppSetting(x.0, x.1))
            + (When(Field(environment, y.0) != Some(Str(y.1)), AppSetting(y.0, y.1))
               + When(Field(environment, z.0) != Some(Str(z.1)), AppSetting(z.0, z.1)))
  {
    SettingsCons(environment, x, [y, z]);
    SettingsCons(environment, y, [z]);
    SettingsCons(environment, z, []);
    assert [x] + [y, z] == [x, y, z] && [y] + [z] == [y, z] && [z] + [] == [z];
  }

  lemma SettingDue(c: Choice, s: State, services: Entries, name: string, expected: string)
    requires HasServices(s.compose) && MapIn(s.compose.root, ["services"]) == Some(services)
    requires || (name == "DB_HOST" && expected == "${DOCKER_DB_HOST:-" + c.database.Name() + "}")
             || (name == "DB_PORT" && expected == "${DB_PORT:-" + DatabasePort(c.database) + "}")
             || (name == "DB_TYPE" && expected == c.database.Name())
    ensures var environment := Record(Field(Record(Field(Some(services), "app")), "environment"));
            Due(c, s, AppSetting(name, expected)) <==> Field(environment, name) != Some(Str(expected))
  {
    DueBase(c, s, AppSetting(name, expected));
    InApp(s.compose.root, services, "environment", name);
  }

  lemma DependencyDue(c: Choice, s: State, services: Entries)
    requires HasServices(s.compose) && MapIn(s.compose.root, ["services"]) == Some(services)
    ensures var dependsOn := Record(Field(Record(Field(Some(services), "app")), "depends_on"));
            Due(c, s, NotADependency(c.database)) <==> dependsOn.None? || !Has(dependsOn.value, c.database.Name())
  {
    DueBase(c, s, NotADependency(c.database));
    InApp(s.compose.root, services, "depends_on", c.database.Name());
  }

  lemma AppUnrolled(d: Database, services: Entries, bad: bool, environment: Option<Entries>, x: (string, string),
                    y: (string, string), z: (string, string))
    requires var dependsOn := Record(Field(Record(Field(Some(services), "app")), "depends_on"));
             bad == (dependsOn.None? || !Has(dependsOn.value, d.Name()))
    requires environment == Record(Field(Record(Field(Some(services), "app")), "environment"))
    requires ExpectedSettings(d) == [x, y, z]
    ensures AppIssues(d, services)
         == When(bad, NotADependency(d)) + When(Field(environment, x.0) != Some(Str(x.1)), AppSetting(x.0, x.1))
            + When(Field(environment, y.0) != Some(Str(y.1)), AppSetting(y.0, y.1))
            + When(Field(environment, z.0) != Some(Str(z.1)), AppSetting(z.0, z.1))
  {
    SettingsUnrolled(environment, x, y, z);
    InARow(When(bad, NotADependency(d)), When(Field(environment, x.0) != Some(Str(x.1)), AppSetting(x.0, x.1)),
           When(Field(environment, y.0) != Some(Str(y.1)), AppSetting(y.0, y.1)),
           When(Field(environment, z.0) != Some(Str(z.1)), AppSetting(z.0, z.1)));
  }

  lemma InARow(a: seq<Issue>, b: seq<Issue>, c: seq<Issue>, d: seq<Issue>)
    ensures a + (b + (c + d)) == a + b + c + d
  {
  }

  lemma AppSection(c: Choice, s: State, services: Entries, host: string, port: string)
    requires HasServices(s.compose) && MapIn(s.compose.root, ["services"]) == Some(services)
    requires host == "${DOCKER_DB_HOST:-" + c.database.Name() + "}"
    requires port == "${DB_PORT:-" + DatabasePort(c.database) + "}"
    ensures AppIssues(c.database, services)
         == Chosen(c, s, [NotADependency(c.database), AppSetting("DB_HOST", host), AppSetting("DB_PORT", port),
                          AppSetting("DB_TYPE", c.database.Name())])
  {
    var name := c.database.Name();
    var environment := Record(Field(Record(Field(Some(services), "app")), "environment"));
    DependencyDue(c, s, services);
    SettingDue(c, s, services, "DB_HOST", host);
    SettingDue(c, s, services, "DB_PORT", port);
    SettingDue(c, s, services, "DB_TYPE", name);
    ChosenSingles(c, s, NotADependency(c.database), AppSetting("DB_HOST", host), AppSetting("DB_PORT", port),
                  AppSetting("DB_TYPE", name));
    AppUnrolled(c.database, services, Due(c, s, NotADependency(c.database)), environment, ("DB_HOST", host),
                ("DB_PORT", port), ("DB_TYPE", name));
  }

  ghost predicate NoneDue(c: Choice, s: State, issues: seq<Issue>) {
    forall i :: 0 <= i < |issues| ==> !Due(c, s, issues[i])
  }

  lemma {:induction false} NoneChosen(c: Choice, s: State, issues: seq<Issue>)
    requires NoneDue(c, s, issues)
    ensures Chosen(c, s, issues) == []
  {
    if issues != [] {
      assert forall i :: 0 <= i < |issues| - 1 ==> issues[1..][i] == issues[i + 1];
      NoneChosen(c, s, issues[1..]);
    }
  }

  lemma ShapesDue(c: Choice, s: State, path: Path)
    ensures var file := FileAt(s, path);
            && (Due(c, s, InvalidYaml(path)) <==> !Parses(file))
            && (Due(c, s, NotAnObject(path)) <==> Parses(file) && !file.root.Map?)
            && (Due(c, s, NoServices(path)) <==>
                  Parses(file) && file.root.Map? && MapIn(file.root, ["services"]).None?)
  {
    if path == BaseCompose {
      DueBase(c, s, InvalidYaml(path));
      DueBase(c, s, NotAnObject(path));
      DueBase(c, s, NoServices(path));
    } else {
      DueTest(c, s, InvalidYaml(path));
      DueTest(c, s, NotAnObject(path));
      DueTest(c, s, NoServices(path));
    }
  }

  function AppCandidates(d: Database): seq<Issue> {
    [NotADependency(d), AppSetting("DB_HOST", "${DOCKER_DB_HOST:-" + d.Name() + "}"),
     AppSetting("DB_PORT", "${DB_PORT:-" + DatabasePort(d) + "}"), AppSetting("DB_TYPE", d.Name())]
  }

  lemma AppNotDue(c: Choice, s: State)
    requires !HasServices(s.compose)
    ensures NoneDue(c, s, AppCandidates(c.database))
  {
    var all := AppCandidates(c.database);
    DueBase(c, s, all[0]);
    DueBase(c, s, all[1]);
    DueBase(c, s, all[2]);
    DueBase(c, s, all[3]);
  }

  lemma ShapesOne(c: Choice, s: State, path: Path)
    ensures var file := FileAt(s, path);
            Chosen(c, s, ShapeCandidates(path))
            == if !Parses(file) then [InvalidYaml(path)]
               else if !file.root.Map? then [NotAnObject(path)]
               else if MapIn(file.root, ["services"]).None? then [NoServices(path)] else []
  {
    var x, y, z := InvalidYaml(path), NotAnObject(path), NoServices(path);
    ShapesDue(c, s, path);
    ChosenTriple(c, s, x, y, z);
  }

  lemma BaseCases(d: Database, file: File)
    ensures HasServices(file) ==>
              BaseComposeIssues(d, file) == ServiceIssues(BaseCompose, d, MapIn(file.root, ["services"]).value)
                                            + AppIssues(d, MapIn(file.root, ["services"]).value)
    ensures !HasServices(file) ==>
              BaseComposeIssues(d, file) == [if !Parses(file) then InvalidYaml(BaseCompose)
                                             else if !file.root.Map? then NotAnObject(BaseCompose)
                                             else NoServices(BaseCompose)]
  {
    if Parses(file) && file.root.Map? {
      TopField(file.root, "services");
    }
  }

  lemma BaseWithServices(c: Choice, s: State, services: Entries)
    requires HasServices(s.compose) && MapIn(s.compose.root, ["services"]) == Some(services)
    ensures BaseComposeIssues(c.database, s.compose)
         == Chosen(c, s, ServiceCandidates(BaseCompose, c.database, s.compose))
           + Chosen(c, s, AppCandidates(c.database))
  {
    var d := c.database;
    BaseCases(d, s.compose);
    ServiceSection(c, s, BaseCompose, services);
    AppSection(c, s, services, "${DOCKER_DB_HOST:-" + d.Name() + "}", "${DB_PORT:-" + DatabasePort(d) + "}");
  }

  lemma BaseWithout(c: Choice, s: State)
    requires !HasServices(s.compose)
    ensures BaseComposeIssues(c.database, s.compose) == Chosen(c, s, ShapeCandidates(BaseCompose))
    ensures ServiceCandidates(BaseCompose, c.database, s.compose) == [] == Chosen(c, s, AppCandidates(c.database))
  {
    ShapesOne(c, s, BaseCompose);
    BaseCases(c.database, s.compose);
    AppNotDue(c, s);
    NoneChosen(c, s, AppCandidates(c.database));
  }

  lemma NoShapeChosen(c: Choice, s: State)
    requires HasServices(s.compose)
    ensures Chosen(c, s, ShapeCandidates(BaseCompose)) == []
  {
    ShapesOne(c, s, BaseCompose);
  }

  lemma EmptyParts(x: seq<Issue>, y: seq<Issue>, z: seq<Issue>)
    ensures x == [] ==> x + y + z == y + z
    ensures y == [] && z == [] ==> x + y + z == x
  {
  }

  lemma BaseSection(c: Choice, s: State)
    ensures BaseComposeIssues(c.database, s.compose) == Chosen(c, s, BaseCandidates(c.database, s.compose))
  {
    var x, y := ShapeCandidates(BaseCompose), ServiceCandidates(BaseCompose, c.database, s.compose);
    var z := AppCandidates(c.database);
    ChosenThree(c, s, x, y, z);
    EmptyParts(Chosen(c, s, x), Chosen(c, s, y), Chosen(c, s, z));
    if HasServices(s.compose) {
      BaseWithServices(c, s, MapIn(s.compose.root, ["services"]).value);
      NoShapeChosen(c, s);
    } else {
      BaseWithout(c, s);
    }
  }

  // ----- docker-compose.test.yml -----

  function ContainerCandidates(d: Database): seq<Issue> {
    [TestPort("${DB_TEST_HOST_PORT:-15432}:" + DatabasePort(d)), TestTmpfs(DatabaseDataPath(d)), TestVolume]
  }

  lemma ContainerNotDue(c: Choice, s: State)
    requires !HasServices(s.testCompose)
    ensures NoneDue(c, s, ContainerCandidates(c.database))
  {
    var all := ContainerCandidates(c.database);
    DueTest(c, s, all[0]);
    DueTest(c, s, all[1]);
    DueTest(c, s, all[2]);
  }

  lemma PortDue(c: Choice, s: State, services: Entries, port: string)
    requires HasServices(s.testCompose) && MapIn(s.testCompose.root, ["services"]) == Some(services)
    requires port == "${DB_TEST_HOST_PORT:-15432}:" + DatabasePort(c.database)
    ensures var selected := Record(Field(Some(services), c.database.Name()));
            Due(c, s, TestPort(port)) <==> !ListHas(Field(selected, "ports"), port)
  {
    DueTest(c, s, TestPort(port));
    InService(s.testCompose.root, services, c.database.Name(), "ports");
  }

  lemma TmpfsDue(c: Choice, s: State, services: Entries, path: string)
    requires HasServices(s.testCompose) && MapIn(s.testCompose.root, ["services"]) == Some(services)
    requires path == DatabaseDataPath(c.database)
    ensures var selected := Record(Field(Some(services), c.database.Name()));
            Due(c, s, TestTmpfs(path)) <==> !ListHas(Field(selected, "tmpfs"), path)
  {
    DueTest(c, s, TestTmpfs(path));
    InService(s.testCompose.root, services, c.database.Name(), "tmpfs");
  }

  lemma VolumeDue(c: Choice, s: State, services: Entries)
    requires HasServices(s.testCompose) && MapIn(s.testCompose.root, ["services"]) == Some(services)
    ensures var selected := Record(Field(Some(services), c.database.Name()));
            Due(c, s, TestVolume) <==> selected.Some? && Has(selected.value, "volumes")
  {
    DueTest(c, s, TestVolume);
    InService(s.testCompose.root, services, c.database.Name(), "volumes");
  }

  lemma ChosenTriple(c: Choice, s: State, x: Issue, y: Issue, z: Issue)
    ensures Chosen(c, s, [x, y, z])
         == When(Due(c, s, x), x) + When(Due(c, s, y), y) + When(Due(c, s, z), z)
  {
    ChosenThree(c, s, [x], [y], [z]);
    ChosenOne(c, s, x, Due(c, s, x));
    ChosenOne(c, s, y, Due(c, s, y));
    ChosenOne(c, s, z, Due(c, s, z));
    assert [x] + [y] + [z] == [x, y, z];
  }

  lemma ContainerParts(d: Database, services: Entries, port: string, a: bool, b: bool, v: bool)
    requires port == "${DB_TEST_HOST_PORT:-15432}:" + DatabasePort(d)
    requires var selected := Record(Field(Some(services), d.Name()));
             && a == !ListHas(Field(selected, "ports"), port)
             && b == !ListHas(Field(selected, "tmpfs"), DatabaseDataPath(d))
             && v == (selected.Some? && Has(selected.value, "volumes"))
    ensures TestServiceIssues(d, services)
         == When(a, TestPort(port)) + When(b, TestTmpfs(DatabaseDataPath(d))) + When(v, TestVolume)
  {
  }

  lemma ContainerSection(c: Choice, s: State, services: Entries, port: string, path: string)
    requires HasServices(s.testCompose) && MapIn(s.testCompose.root, ["services"]) == Some(services)
    requires port == "${DB_TEST_HOST_PORT:-15432}:" + DatabasePort(c.database) && path == DatabaseDataPath(c.database)
    ensures TestServiceIssues(c.database, services) == Chosen(c, s, [TestPort(port), TestTmpfs(path), TestVolume])
  {
    PortDue(c, s, services, port);
    TmpfsDue(c, s, services, path);
    VolumeDue(c, s, services);
    ChosenTriple(c, s, TestPort(port), TestTmpfs(path), TestVolume);
    ContainerParts(c.database, services, port, Due(c, s, TestPort(port)), Due(c, s, TestTmpfs(path)),
                   Due(c, s, TestVolume));
  }

  function HeadCandidates(): seq<Issue> {
    [InvalidYaml(TestCompose), NotAnObject(TestCompose), ProjectName, NoServices(TestCompose)]
  }

  lemma HeadChosen(c: Choice, s: State)
    ensures var file := s.testCompose;
            Chosen(c, s, HeadCandidates())
            == if !Parses(file) then [InvalidYaml(TestCompose)]
               else if !file.root.Map? then [NotAnObject(TestCompose)]
               else When(Due(c, s, ProjectName), ProjectName)
                    + When(MapIn(file.root, ["services"]).None?, NoServices(TestCompose))
  {
    ShapesDue(c, s, TestCompose);
    DueTest(c, s, ProjectName);
    ChosenSingles(c, s, InvalidYaml(TestCompose), NotAnObject(TestCompose), ProjectName, NoServices(TestCompose));
  }

  lemma TestCases(c: Choice, s: State)
    ensures var d, file := c.database, s.testCompose;
            && (!Parses(file) ==> TestComposeIssues(d, file) == [InvalidYaml(TestCompose)])
            && (Parses(file) && !file.root.Map? ==> TestComposeIssues(d, file) == [NotAnObject(TestCompose)])
            && (Parses(file) && file.root.Map? && MapIn(file.root, ["services"]).None? ==>
                  TestComposeIssues(d, file) == When(Due(c, s, ProjectName), ProjectName) + [NoServices(TestCompose)])
            && (HasServices(file) ==>
                  TestComposeIssues(d, file)
                  == When(Due(c, s, ProjectName), ProjectName)
                       + ServiceIssues(TestCompose, d, MapIn(file.root, ["services"]).value)
                       + TestServiceIssues(d, MapIn(file.root, ["services"]).value))
  {
    var file := s.testCompose;
    DueTest(c, s, ProjectName);
    if Parses(file) && file.root.Map? {
      TopField(file.root, "services");
      TopField(file.root, "name");
    }
  }

  lemma HeadWithServices(c: Choice, s: State)
    requires HasServices(s.testCompose)
    ensures Chosen(c, s, HeadCandidates()) == When(Due(c, s, ProjectName), ProjectName)
  {
    HeadChosen(c, s);
  }

  lemma TestWithServices(c: Choice, s: State, services: Entries)
    requires HasServices(s.testCompose) && MapIn(s.testCompose.root, ["services"]) == Some(services)
    ensures TestComposeIssues(c.database, s.testCompose)
         == Chosen(c, s, HeadCandidates()) + Chosen(c, s, ServiceCandidates(TestCompose, c.database, s.testCompose))
            + Chosen(c, s, ContainerCandidates(c.database))
  {
    TestCases(c, s);
    HeadWithServices(c, s);
    ServiceSection(c, s, TestCompose, services);
    ContainerSection(c, s, services, "${DB_TEST_HOST_PORT:-15432}:" + DatabasePort(c.database),
                     DatabaseDataPath(c.database));
  }

  lemma TestWithout(c: Choice, s: State)
    requires !HasServices(s.testCompose)
    ensures TestComposeIssues(c.database, s.testCompose) == Chosen(c, s, HeadCandidates())
    ensures ServiceCandidates(TestCompose, c.database, s.testCompose) == []
    ensures Chosen(c, s, ContainerCandidates(c.database)) == []
  {
    TestCases(c, s);
    HeadChosen(c, s);
    ContainerNotDue(c, s);
    NoneChosen(c, s, ContainerCandidates(c.database));
  }

  lemma TestSection(c: Choice, s: State)
    ensures TestComposeIssues(c.database, s.testCompose) == Chosen(c, s, TestCandidates(c.database, s.testCompose))
  {
    var x, y := HeadCandidates(), ServiceCandidates(TestCompose, c.database, s.testCompose);
    var z := ContainerCandidates(c.database);
    ChosenThree(c, s, x, y, z);
    EmptyParts(Chosen(c, s, x), Chosen(c, s, y), Chosen(c, s, z));
    if HasServices(s.testCompose) {
      TestWithServices(c, s, MapIn(s.testCompose.root, ["services"]).value);
    } else {
      TestWithout(c, s);
    }
  }

  /** For every state and selection the checker's list is, of the candidates, those that are due, in their order and
      as often as they are candidates. */
  lemma ListIsChosen(c: Choice, s: State)
    ensures ScaffoldIssues(c, s) == Chosen(c, s, Candidates(c, s))
  {
    var header := [ActiveDatabase(c.database), ActiveOrm(c.orm), NoRdbModuleImport];
    var env := [EnvType(c.database), TestEnvType(c.database), E2eSchema, E2eType];
    HeaderChosen(c, s);
    PackageSection(c, s);
    FileSection(c, s);
    ModuleSection(c, s, ORM_CHOICES);
    EnvSection(c, s);
    BaseSection(c, s);
    TestSection(c, s);
    SevenChosen(c, s, header, PackageCandidates(c), FileCandidates(c), ModuleCandidates(c), env,
                BaseCandidates(c.database, s.compose), TestCandidates(c.database, s.testCompose));
  }

  lemma SevenChosen(c: Choice, s: State, h: seq<Issue>, p: seq<Issue>, f: seq<Issue>, m: seq<Issue>, e: seq<Issue>,
                    b: seq<Issue>, t: seq<Issue>)
    ensures Chosen(c, s, h + p + f + m + e + b + t)
         == Chosen(c, s, h) + Chosen(c, s, p) + Chosen(c, s, f) + Chosen(c, s, m) + Chosen(c, s, e) + Chosen(c, s, b)
            + Chosen(c, s, t)
  {
    ChosenFour(c, s, h, p, f, m);
    ChosenBoth(c, s, h + p + f + m, e);
    ChosenBoth(c, s, h + p + f + m + e, b);
    ChosenBoth(c, s, h + p + f + m + e + b, t);
  }
}
