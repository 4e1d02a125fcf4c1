/** `scaffoldConsistencyIssues`: the separately written judge of a materialized project. It lists every
    way in which a project disagrees with a selection. */
module ScaffoldChecker {
  import opened OrderedMap
  import opened Results
  import opened Selection
  import opened Sequences
  import opened Text
  import opened Yaml

  datatype State = State(
    activeScaffold: string,
    appModule: string,
    compose: File,
    dependencies: set<string>,
    devDependencies: set<string>,
    envExample: string,
    files: set<string>,
    loadTestEnv: string,
    persistenceE2e: Option<string>,
    rdbModule: string,
    testCompose: File)

  datatype Path = BaseCompose | TestCompose

  datatype Issue =
    | ActiveDatabase(database: Database)
    | ActiveOrm(orm: Orm)
    | NoRdbModuleImport
    | MissingDependency(orm: Orm, name: string)
    | MissingDevDependency(orm: Orm, name: string)
    | MissingDriver(orm: Orm, database: Database, name: string)
    | UnselectedDriver(name: string)
    | UnselectedDependency(name: string)
    | UnselectedDevDependency(name: string)
    | MissingFile(orm: Orm, name: string)
    | UnselectedFile(name: string)
    | InactiveOrm(orm: Orm)
    | AlsoActive(orm: Orm)
    | EnvType(database: Database)
    | TestEnvType(database: Database)
    | E2eSchema
    | E2eType
    | InvalidYaml(path: Path)
    | NotAnObject(path: Path)
    | NoServices(path: Path)
    | RdbMismatch(path: Path, database: Database, found: seq<Database>)
    | ImageMismatch(path: Path, database: Database, image: Option<Node>)
    | UnselectedService(path: Path, database: Database)
    | NotADependency(database: Database)
    | AppSetting(name: string, expected: string)
    | ProjectName
    | TestPort(expected: string)
    | TestTmpfs(expected: string)
    | TestVolume

  // ----- the checker's own tables -----

  function Marker(orm: Orm): string {
    match orm
    case Drizzle => "from 'drizzle-orm/"
    case Mikroorm => "MikroOrmModule.forRoot"
    case Prisma => "PrismaClient"
    case Typeorm => "TypeOrmModule.forRootAsync"
  }

  function RequiredDependencies(orm: Orm): seq<string> {
    match orm
    case Drizzle => ["drizzle-orm"]
    case Mikroorm => ["@mikro-orm/core", "@mikro-orm/migrations", "@mikro-orm/nestjs"]
    case Prisma => ["@prisma/client"]
    case Typeorm => ["@nestjs/typeorm", "typeorm"]
  }

  function RequiredDevDependencies(orm: Orm): seq<string> {
    match orm
    case Drizzle => ["drizzle-kit"]
    case Mikroorm => []
    case Prisma => ["prisma"]
    case Typeorm => []
  }

  function RequiredFiles(orm: Orm): seq<string> {
    match orm
    case Drizzle => ["src/infra/rdb/rdb-database.module.ts", "src/infra/rdb/schema.ts", "drizzle.config.ts"]
    case Mikroorm => ["src/infra/rdb/rdb-database.module.ts", "src/infra/rdb/mikro-orm.config.ts"]
    case Prisma => ["src/infra/rdb/rdb-database.module.ts", "prisma/schema.prisma", "prisma.config.ts"]
    case Typeorm => ["src/common/persistence/typeorm-repository.adapter.ts", "src/config/typeorm-data-source.ts",
                     "src/infra/rdb/rdb-database.module.ts"]
  }

  function DriverPackages(orm: Orm, d: Database): seq<string> {
    match orm
    case Drizzle => if d == Postgres then ["pg"] else ["mysql2"]
    case Mikroorm =>
      (match d
       case Mariadb => ["@mikro-orm/mariadb"]
       case Mysql => ["@mikro-orm/mysql"]
       case Postgres => ["@mikro-orm/postgresql"])
    case Prisma => if d == Postgres then ["@prisma/adapter-pg"] else ["@prisma/adapter-mariadb"]
    case Typeorm => if d == Postgres then ["pg"] else ["mysql2"]
  }

  function DatabaseImage(d: Database): string {
    match d case Mariadb => "mariadb:lts" case Mysql => "mysql:8.4" case Postgres => "postgres:17-alpine"
  }

  function DatabasePort(d: Database): string {
    match d case Mariadb => "3306" case Mysql => "3306" case Postgres => "5432"
  }

  function DatabaseDataPath(d: Database): string {
    match d case Mariadb => "/var/lib/mysql" case Mysql => "/var/lib/mysql" case Postgres => "/var/lib/postgresql/data"
  }

  function OrmName(orm: Orm): string {
    match orm case Typeorm => "typeorm" case Prisma => "prisma" case Mikroorm => "mikroorm" case Drizzle => "drizzle"
  }

  const E2E_SCHEMA := "schema: database === 'postgres' ? process.env.DB_SCHEMA : undefined"
  const E2E_TYPE := "type: database"

  // ----- the list that the checker returns -----

  /** The issue, when the condition holds. */
  function When(bad: bool, issue: Issue): seq<Issue> {
    if bad then [issue] else []
  }

  function HeaderIssues(c: Choice, s: State): seq<Issue> {
    When(!Includes(s.activeScaffold, "database: '" + c.database.Name() + "'"), ActiveDatabase(c.database))
    + When(!Includes(s.activeScaffold, "orm: '" + OrmName(c.orm) + "'"), ActiveOrm(c.orm))
    + When(!Includes(s.appModule, "RdbDatabaseModule"), NoRdbModuleImport)
  }

  /** The names outside `present`, and the names inside it, in order. */
  function Absent(names: seq<string>, present: set<string>): seq<string> {
    if names == [] then []
    else if names[0] in present then Absent(names[1..], present)
    else [names[0]] + Absent(names[1..], present)
  }

  function Listed(names: seq<string>, present: set<string>): seq<string> {
    if names == [] then []
    else if names[0] in present then [names[0]] + Listed(names[1..], present)
    else Listed(names[1..], present)
  }

  datatype Kind =
    | KMissing(orm: Orm)
    | KMissingDev(orm: Orm)
    | KDriver(orm: Orm, database: Database)
    | KUnselectedDriver
    | KUnselected
    | KUnselectedDev
    | KFile(orm: Orm)
    | KUnselectedFile

  function Issued(k: Kind, name: string): Issue {
    match k
    case KMissing(o) => MissingDependency(o, name)
    case KMissingDev(o) => MissingDevDependency(o, name)
    case KDriver(o, d) => MissingDriver(o, d, name)
    case KUnselectedDriver => UnselectedDriver(name)
    case KUnselected => UnselectedDependency(name)
    case KUnselectedDev => UnselectedDevDependency(name)
    case KFile(o) => MissingFile(o, name)
    case KUnselectedFile => UnselectedFile(name)
  }

  function Issues(k: Kind, names: seq<string>): seq<Issue> {
    seq(|names|, i requires 0 <= i < |names| => Issued(k, names[i]))
  }

  function Names(xs: seq<string>): set<string> {
    set x | x in xs
  }

  function UnselectedDrivers(c: Choice, installed: set<string>, databases: seq<Database>): seq<Issue> {
    if databases == [] then []
    else if databases[0] == c.database then UnselectedDrivers(c, installed, databases[1..])
    else Issues(KUnselectedDriver,
                Listed(DriverPackages(c.orm, databases[0]), installed - Names(DriverPackages(c.orm, c.database)))) +
         UnselectedDrivers(c, installed, databases[1..])
  }

  function OrmLeftovers(orm: Orm, s: State): seq<Issue> {
    Issues(KUnselected, Listed(RequiredDependencies(orm), s.dependencies)) +
    Issues(KUnselectedDev, Listed(RequiredDevDependencies(orm), s.devDependencies))
  }

  function UnselectedOrms(c: Choice, s: State, orms: seq<Orm>): seq<Issue> {
    if orms == [] then []
    else if orms[0] == c.orm then UnselectedOrms(c, s, orms[1..])
    else OrmLeftovers(orms[0], s) + UnselectedOrms(c, s, orms[1..])
  }

  function PackageIssues(c: Choice, s: State): seq<Issue> {
    Issues(KMissing(c.orm), Absent(RequiredDependencies(c.orm), s.dependencies))
    + Issues(KMissingDev(c.orm), Absent(RequiredDevDependencies(c.orm), s.devDependencies))
    + Issues(KDriver(c.orm, c.database), Absent(DriverPackages(c.orm, c.database), s.dependencies))
    + UnselectedDrivers(c, s.dependencies, RDB_CHOICES)
    + UnselectedOrms(c, s, ORM_CHOICES)
  }

  function UnselectedFiles(c: Choice, files: set<string>, orms: seq<Orm>): seq<Issue> {
    if orms == [] then []
    else if orms[0] == c.orm then UnselectedFiles(c, files, orms[1..])
    else Issues(KUnselectedFile, Listed(RequiredFiles(orms[0]), files - Names(RequiredFiles(c.orm)))) +
         UnselectedFiles(c, files, orms[1..])
  }

  function FileIssues(c: Choice, files: set<string>): seq<Issue> {
    Issues(KFile(c.orm), Absent(RequiredFiles(c.orm), files)) + UnselectedFiles(c, files, ORM_CHOICES)
  }

  function OrmIssue(c: Choice, orm: Orm, present: bool): seq<Issue> {
    if orm == c.orm then When(!present, InactiveOrm(orm)) else When(present, AlsoActive(orm))
  }

  function ModuleIssues(c: Choice, module_: string, orms: seq<Orm>): seq<Issue> {
    if orms == [] then []
    else OrmIssue(c, orms[0], Includes(module_, Marker(orms[0]))) + ModuleIssues(c, module_, orms[1..])
  }

  function EnvIssues(c: Choice, s: State): seq<Issue> {
    When(!Includes(s.envExample, "DB_TYPE=" + c.database.Name()), EnvType(c.database))
    + When(!Includes(s.loadTestEnv, "process.env.DB_TYPE = '" + c.database.Name() + "'"), TestEnvType(c.database))
    + (if c.orm != Typeorm then [] else
         When(s.persistenceE2e.None? || !Includes(s.persistenceE2e.value, E2E_SCHEMA), E2eSchema)
         + When(s.persistenceE2e.None? || !Includes(s.persistenceE2e.value, E2E_TYPE), E2eType))
  }

  /** `record(...)`: the entries of a map, and nothing for any other value. */
  function Record(n: Option<Node>): Option<Entries> {
    if n.Some? && n.value.Map? then Some(n.value.entries) else None
  }

  function Field(m: Option<Entries>, key: string): Option<Node> {
    if m.Some? && Has(m.value, key) then Some(Get(m.value, key)) else None
  }

  function DatabaseServices(services: Entries, databases: seq<Database>): seq<Database> {
    if databases == [] then []
    else (if Has(services, databases[0].Name()) then [databases[0]] else [])
         + DatabaseServices(services, databases[1..])
  }

  function UnselectedServices(path: Path, d: Database, found: seq<Database>): seq<Issue> {
    if found == [] then []
    else When(found[0] != d, UnselectedService(path, found[0])) + UnselectedServices(path, d, found[1..])
  }

  /** The issues about the RDB services that both compose files share. */
  function ServiceIssues(path: Path, d: Database, services: Entries): seq<Issue> {
    var found, selected := DatabaseServices(services, RDB_CHOICES), Record(Field(Some(services), d.Name()));
    (if selected.None? then [RdbMismatch(path, d, found)]
     else When(Field(selected, "image") != Some(Str(DatabaseImage(d))),
               ImageMismatch(path, d, Field(selected, "image"))))
    + UnselectedServices(path, d, found)
  }

  function ExpectedSettings(d: Database): seq<(string, string)> {
    [("DB_HOST", "${DOCKER_DB_HOST:-" + d.Name() + "}"), ("DB_PORT", "${DB_PORT:-" + DatabasePort(d) + "}"),
     ("DB_TYPE", d.Name())]
  }

  function SettingIssues(environment: Option<Entries>, expected: seq<(string, string)>): seq<Issue> {
    if expected == [] then []
    else When(Field(environment, expected[0].0) != Some(Str(expected[0].1)), AppSetting(expected[0].0, expected[0].1)) +
         SettingIssues(environment, expected[1..])
  }

  function AppIssues(d: Database, services: Entries): seq<Issue> {
    var app := Record(Field(Some(services), "app"));
    var dependsOn := Record(Field(app, "depends_on"));
    When(dependsOn.None? || !Has(dependsOn.value, d.Name()), NotADependency(d))
    + SettingIssues(Record(Field(app, "environment")), ExpectedSettings(d))
  }

  function BaseComposeIssues(d: Database, file: File): seq<Issue> {
    if !Parses(file) then [InvalidYaml(BaseCompose)]
    else if !file.root.Map? then [NotAnObject(BaseCompose)]
    else
      var services := Record(Field(Some(file.root.entries), "services"));
      if services.None? then [NoServices(BaseCompose)]
      else ServiceIssues(BaseCompose, d, services.value) + AppIssues(d, services.value)
  }

  predicate ListHas(n: Option<Node>, text: string) {
    n.Some? && n.value.Items? && Str(text) in n.value.items
  }

  function TestServiceIssues(d: Database, services: Entries): seq<Issue> {
    var selected := Record(Field(Some(services), d.Name()));
    var port := "${DB_TEST_HOST_PORT:-15432}:" + DatabasePort(d);
    When(!ListHas(Field(selected, "ports"), port), TestPort(port))
    + When(!ListHas(Field(selected, "tmpfs"), DatabaseDataPath(d)), TestTmpfs(DatabaseDataPath(d)))
    + When(selected.Some? && Has(selected.value, "volumes"), TestVolume)
  }

  function TestComposeIssues(d: Database, file: File): seq<Issue> {
    if !Parses(file) then [InvalidYaml(TestCompose)]
    else if !file.root.Map? then [NotAnObject(TestCompose)]
    else
      var name := When(Field(Some(file.root.entries), "name") != Some(Str("barebones-test")), ProjectName);
      var services := Record(Field(Some(file.root.entries), "services"));
      if services.None? then name + [NoServices(TestCompose)]
      else name + ServiceIssues(TestCompose, d, services.value) + TestServiceIssues(d, services.value)
  }

  function ScaffoldIssues(c: Choice, s: State): seq<Issue> {
    HeaderIssues(c, s) + PackageIssues(c, s) + FileIssues(c, s.files) + ModuleIssues(c, s.rdbModule, ORM_CHOICES)
    + EnvIssues(c, s) + BaseComposeIssues(c.database, s.compose) + TestComposeIssues(c.database, s.testCompose)
  }

  // ----- the collector itself: loops that push onto one list -----

  /** `for (const name of names) if (!present.has(name)) issues.push(...)` */
  method PushAbsent(k: Kind, names: seq<string>, present: set<string>) returns (issues: seq<Issue>)
    ensures issues == Issues(k, Absent(names, present))
  {
    issues := [];
    for i := 0 to |names|
      invariant issues + Issues(k, Absent(names[i..], present)) == Issues(k, Absent(names, present))
    {
      IssuesStep(k, names, present, i);
      if names[i] !in present {
        Associate(issues, [Issued(k, names[i])], Issues(k, Absent(names[i + 1..], present)));
        issues := issues + [Issued(k, names[i])];
      }
    }
    assert names[|names|..] == [];
  }

  /** `for (const name of names) if (present.has(name)) issues.push(...)` */
  method PushListed(k: Kind, names: seq<string>, present: set<string>) returns (issues: seq<Issue>)
    ensures issues == Issues(k, Listed(names, present))
  {
    issues := [];
    for i := 0 to |names|
      invariant issues + Issues(k, Listed(names[i..], present)) == Issues(k, Listed(names, present))
    {
      IssuesStep(k, names, present, i);
      if names[i] in present {
        Associate(issues, [Issued(k, names[i])], Issues(k, Listed(names[i + 1..], present)));
        issues := issues + [Issued(k, names[i])];
      }
    }
    assert names[|names|..] == [];
  }

  lemma IssuesCons(k: Kind, name: string, rest: seq<string>)
    ensures Issues(k, [name] + rest) == [Issued(k, name)] + Issues(k, rest)
  {
  }

  lemma IssuesStep(k: Kind, names: seq<string>, present: set<string>, i: nat)
    requires i < |names|
    ensures Issues(k, Absent(names[i..], present)) ==
            if names[i] in present then Issues(k, Absent(names[i + 1..], present))
            else [Issued(k, names[i])] + Issues(k, Absent(names[i + 1..], present))
    ensures Issues(k, Listed(names[i..], present)) ==
            if names[i] in present then [Issued(k, names[i])] + Issues(k, Listed(names[i + 1..], present))
            else Issues(k, Listed(names[i + 1..], present))
  {
    assert names[i..][0] == names[i] && names[i..][1..] == names[i + 1..];
    IssuesCons(k, names[i], Absent(names[i + 1..], present));
    IssuesCons(k, names[i], Listed(names[i + 1..], present));
  }

  method PackageSection(c: Choice, s: State) returns (issues: seq<Issue>)
    ensures issues == PackageIssues(c, s)
  {
    issues := PushAbsent(KMissing(c.orm), RequiredDependencies(c.orm), s.dependencies);
    var more := PushAbsent(KMissingDev(c.orm), RequiredDevDependencies(c.orm), s.devDependencies);
    issues := issues + more;
    more := PushAbsent(KDriver(c.orm, c.database), DriverPackages(c.orm, c.database), s.dependencies);
    issues := issues + more;
    more := DriverLoop(c, s.dependencies);
    issues := issues + more;
    more := OrmLoop(c, s);
    issues := issues + more;
  }

  method DriverLoop(c: Choice, installed: set<string>) returns (issues: seq<Issue>)
    ensures issues == UnselectedDrivers(c, installed, RDB_CHOICES)
  {
    issues := [];
    var selected := Names(DriverPackages(c.orm, c.database));
    for i := 0 to |RDB_CHOICES|
      invariant issues + UnselectedDrivers(c, installed, RDB_CHOICES[i..])
                  == UnselectedDrivers(c, installed, RDB_CHOICES)
    {
      assert RDB_CHOICES[i..][0] == RDB_CHOICES[i] && RDB_CHOICES[i..][1..] == RDB_CHOICES[i + 1..];
      if RDB_CHOICES[i] == c.database {
        continue;
      }
      var more := PushListed(KUnselectedDriver, DriverPackages(c.orm, RDB_CHOICES[i]), installed - selected);
      Associate(issues, more, UnselectedDrivers(c, installed, RDB_CHOICES[i + 1..]));
      issues := issues + more;
    }
  }

  method OrmLoop(c: Choice, s: State) returns (issues: seq<Issue>)
    ensures issues == UnselectedOrms(c, s, ORM_CHOICES)
  {
    issues := [];
    for i := 0 to |ORM_CHOICES|
      invariant issues + UnselectedOrms(c, s, ORM_CHOICES[i..]) == UnselectedOrms(c, s, ORM_CHOICES)
    {
      var orm := ORM_CHOICES[i];
      assert ORM_CHOICES[i..][0] == orm && ORM_CHOICES[i..][1..] == ORM_CHOICES[i + 1..];
      if orm == c.orm {
        continue;
      }
      var more := UnselectedOrm(orm, s);
      Associate(issues, more, UnselectedOrms(c, s, ORM_CHOICES[i + 1..]));
      issues := issues + more;
    }
  }

  method UnselectedOrm(orm: Orm, s: State) returns (issues: seq<Issue>)
    ensures issues == OrmLeftovers(orm, s)
  {
    issues := PushListed(KUnselected, RequiredDependencies(orm), s.dependencies);
    var more := PushListed(KUnselectedDev, RequiredDevDependencies(orm), s.devDependencies);
    issues := issues + more;
  }

  method FileSection(c: Choice, files: set<string>) returns (issues: seq<Issue>)
    ensures issues == FileIssues(c, files)
  {
    var missing := PushAbsent(KFile(c.orm), RequiredFiles(c.orm), files);
    var unselected := UnselectedFileLoop(c, files);
    issues := missing + unselected;
  }

  method UnselectedFileLoop(c: Choice, files: set<string>) returns (issues: seq<Issue>)
    ensures issues == UnselectedFiles(c, files, ORM_CHOICES)
  {
    var selected := Names(RequiredFiles(c.orm));
    issues := [];
    for i := 0 to |ORM_CHOICES|
      invariant issues + UnselectedFiles(c, files, ORM_CHOICES[i..]) == UnselectedFiles(c, files, ORM_CHOICES)
    {
      assert ORM_CHOICES[i..][0] == ORM_CHOICES[i] && ORM_CHOICES[i..][1..] == ORM_CHOICES[i + 1..];
      if ORM_CHOICES[i] == c.orm {
        continue;
      }
      var more := PushListed(KUnselectedFile, RequiredFiles(ORM_CHOICES[i]), files - selected);
      Associate(issues, more, UnselectedFiles(c, files, ORM_CHOICES[i + 1..]));
      issues := issues + more;
    }
  }

  method ModuleSection(c: Choice, module_: string) returns (issues: seq<Issue>)
    ensures issues == ModuleIssues(c, module_, ORM_CHOICES)
  {
    issues := [];
    for i := 0 to |ORM_CHOICES|
      invariant issues + ModuleIssues(c, module_, ORM_CHOICES[i..]) == ModuleIssues(c, module_, ORM_CHOICES)
    {
      var orm := ORM_CHOICES[i];
      assert ORM_CHOICES[i..][0] == orm && ORM_CHOICES[i..][1..] == ORM_CHOICES[i + 1..];
      var more := PushMarker(c, orm, Includes(module_, Marker(orm)));
      Associate(issues, more, ModuleIssues(c, module_, ORM_CHOICES[i + 1..]));
      issues := issues + more;
    }
  }

  method PushMarker(c: Choice, orm: Orm, markerIsPresent: bool) returns (issues: seq<Issue>)
    ensures issues == OrmIssue(c, orm, markerIsPresent)
  {
    issues := [];
    if orm == c.orm && !markerIsPresent {
      issues := issues + [InactiveOrm(c.orm)];
    }
    if orm != c.orm && markerIsPresent {
      issues := issues + [AlsoActive(orm)];
    }
  }

  lemma DatabaseServicesStep(services: Entries, databases: seq<Database>, i: nat)
    requires i < |databases|
    ensures var rest := DatabaseServices(services, databases[i + 1..]);
            DatabaseServices(services, databases[i..])
              == if Has(services, databases[i].Name()) then [databases[i]] + rest else rest
  {
    assert databases[i..][0] == databases[i] && databases[i..][1..] == databases[i + 1..];
  }

  lemma PushDatabase(found: seq<Database>, d: Database, rest: seq<Database>)
    ensures found + [d] + rest == found + ([d] + rest)
  {
  }

  method FoundDatabases(services: Entries) returns (found: seq<Database>)
    ensures found == DatabaseServices(services, RDB_CHOICES)
  {
    found := [];
    for i := 0 to |RDB_CHOICES|
      invariant found + DatabaseServices(services, RDB_CHOICES[i..]) == DatabaseServices(services, RDB_CHOICES)
    {
      DatabaseServicesStep(services, RDB_CHOICES, i);
      if Has(services, RDB_CHOICES[i].Name()) {
        PushDatabase(found, RDB_CHOICES[i], DatabaseServices(services, RDB_CHOICES[i + 1..]));
        found := found + [RDB_CHOICES[i]];
      }
    }
    assert RDB_CHOICES[|RDB_CHOICES|..] == [];
  }

  method ServiceSection(path: Path, d: Database, services: Entries) returns (issues: seq<Issue>)
    ensures issues == ServiceIssues(path, d, services)
  {
    var found := FoundDatabases(services);
    var selected := Record(Field(Some(services), d.Name()));
    issues := [];
    if selected.None? {
      issues := [RdbMismatch(path, d, found)];
    } else if Field(selected, "image") != Some(Str(DatabaseImage(d))) {
      issues := [ImageMismatch(path, d, Field(selected, "image"))];
    }
    var more := UnselectedServiceLoop(path, d, found);
    issues := issues + more;
  }

  lemma UnselectedServicesStep(path: Path, d: Database, found: seq<Database>, i: nat)
    requires i < |found|
    ensures var rest := UnselectedServices(path, d, found[i + 1..]);
            UnselectedServices(path, d, found[i..])
              == if found[i] != d then [UnselectedService(path, found[i])] + rest else rest
  {
    assert found[i..][0] == found[i] && found[i..][1..] == found[i + 1..];
  }

  method UnselectedServiceLoop(path: Path, d: Database, found: seq<Database>) returns (issues: seq<Issue>)
    ensures issues == UnselectedServices(path, d, found)
  {
    issues := [];
    for i := 0 to |found|
      invariant issues + UnselectedServices(path, d, found[i..]) == UnselectedServices(path, d, found)
    {
      UnselectedServicesStep(path, d, found, i);
      if found[i] != d {
        Associate(issues, [UnselectedService(path, found[i])], UnselectedServices(path, d, found[i + 1..]));
        issues := issues + [UnselectedService(path, found[i])];
      }
    }
    assert found[|found|..] == [];
  }

  method AppSection(d: Database, services: Entries) returns (issues: seq<Issue>)
    ensures issues == AppIssues(d, services)
  {
    var app := Record(Field(Some(services), "app"));
    var dependsOn := Record(Field(app, "depends_on"));
    issues := [];
    if dependsOn.None? || !Has(dependsOn.value, d.Name()) {
      issues := [NotADependency(d)];
    }
    var more := SettingLoop(Record(Field(app, "environment")), ExpectedSettings(d));
    issues := issues + more;
  }

  lemma SettingIssuesAt(environment: Option<Entries>, expected: seq<(string, string)>, i: nat)
    requires i < |expected|
    ensures var rest := SettingIssues(environment, expected[i + 1..]);
            SettingIssues(environment, expected[i..]) ==
            if Field(environment, expected[i].0) != Some(Str(expected[i].1)) then
              [AppSetting(expected[i].0, expected[i].1)] + rest else rest
  {
    assert expected[i..][0] == expected[i] && expected[i..][1..] == expected[i + 1..];
  }

  method SettingLoop(environment: Option<Entries>, expected: seq<(string, string)>) returns (issues: seq<Issue>)
    ensures issues == SettingIssues(environment, expected)
  {
    issues := [];
    for i := 0 to |expected|
      invariant issues + SettingIssues(environment, expected[i..]) == SettingIssues(environment, expected)
    {
      SettingIssuesAt(environment, expected, i);
      if Field(environment, expected[i].0) != Some(Str(expected[i].1)) {
        Associate(issues, [AppSetting(expected[i].0, expected[i].1)], SettingIssues(environment, expected[i + 1..]));
        issues := issues + [AppSetting(expected[i].0, expected[i].1)];
      }
    }
    assert expected[|expected|..] == [];
  }

  method BaseComposeSection(d: Database, file: File) returns (issues: seq<Issue>)
    ensures issues == BaseComposeIssues(d, file)
  {
    if !Parses(file) {
      return [InvalidYaml(BaseCompose)];
    }
    if !file.root.Map? {
      return [NotAnObject(BaseCompose)];
    }
    var services := Record(Field(Some(file.root.entries), "services"));
    if services.None? {
      return [NoServices(BaseCompose)];
    }
    issues := ServiceSection(BaseCompose, d, services.value);
    var more := AppSection(d, services.value);
    issues := issues + more;
  }

  method TestComposeSection(d: Database, file: File) returns (issues: seq<Issue>)
    ensures issues == TestComposeIssues(d, file)
  {
    if !Parses(file) {
      return [InvalidYaml(TestCompose)];
    }
    if !file.root.Map? {
      return [NotAnObject(TestCompose)];
    }
    issues := [];
    if Field(Some(file.root.entries), "name") != Some(Str("barebones-test")) {
      issues := [ProjectName];
    }
    var services := Record(Field(Some(file.root.entries), "services"));
    if services.None? {
      return issues + [NoServices(TestCompose)];
    }
    var more := ServiceSection(TestCompose, d, services.value);
    issues := issues + more + TestServiceIssues(d, services.value);
  }

  /** `scaffoldConsistencyIssues` */
  method ScaffoldConsistencyIssues(c: Choice, s: State) returns (issues: seq<Issue>)
    ensures issues == ScaffoldIssues(c, s)
  {
    issues := HeaderIssues(c, s);
    var more := PackageSection(c, s);
    issues := issues + more;
    more := FileSection(c, s.files);
    issues := issues + more;
    more := ModuleSection(c, s.rdbModule);
    issues := issues + more + EnvIssues(c, s);
    more := BaseComposeSection(c.database, s.compose);
    issues := issues + more;
    more := TestComposeSection(c.database, s.testCompose);
    issues := issues + more;
  }
}
