/** What each issue on the checker's list says: exactly which issues are listed for a state of a project, read off
    the state itself. */
module IssueMeaning {
  import opened OrderedMap
  import opened Results
  import opened ScaffoldChecker
  import opened ScaffoldConsistency
  import opened Selection
  import opened Text
  import opened Yaml

  // ----- when an issue is due -----

  ghost predicate HeaderDue(c: Choice, s: State, issue: Issue) {
    match issue
    case ActiveDatabase(d) => d == c.database && !Includes(s.activeScaffold, "database: '" + d.Name() + "'")
    case ActiveOrm(o) => o == c.orm && !Includes(s.activeScaffold, "orm: '" + OrmName(o) + "'")
    case NoRdbModuleImport => !Includes(s.appModule, "RdbDatabaseModule")
    case _ => false
  }

  ghost predicate MissingDue(c: Choice, s: State, issue: Issue) {
    match issue
    case MissingDependency(o, name) => o == c.orm && name in RequiredDependencies(o) && name !in s.dependencies
    case MissingDevDependency(o, name) => o == c.orm && name in RequiredDevDependencies(o) && name !in s.devDependencies
    case MissingDriver(o, d, name) =>
      o == c.orm && d == c.database && name in DriverPackages(o, d) && name !in s.dependencies
    case _ => false
  }

  ghost predicate LeftoverDue(c: Choice, s: State, issue: Issue) {
    match issue
    case UnselectedDriver(name) =>
      && name in s.dependencies && name !in DriverPackages(c.orm, c.database)
      && exists d: Database :: d != c.database && name in DriverPackages(c.orm, d)
    case UnselectedDependency(name) =>
      name in s.dependencies && exists o: Orm :: o != c.orm && name in RequiredDependencies(o)
    case UnselectedDevDependency(name) =>
      name in s.devDependencies && exists o: Orm :: o != c.orm && name in RequiredDevDependencies(o)
    case _ => false
  }

  ghost predicate FileDue(c: Choice, s: State, issue: Issue) {
    match issue
    case MissingFile(o, name) => o == c.orm && name in RequiredFiles(o) && name !in s.files
    case UnselectedFile(name) =>
      && name in s.files && name !in RequiredFiles(c.orm)
      && exists o: Orm :: o != c.orm && name in RequiredFiles(o)
    case _ => false
  }

  ghost predicate ModuleDue(c: Choice, s: State, issue: Issue) {
    match issue
    case InactiveOrm(o) => o == c.orm && !Includes(s.rdbModule, Marker(o))
    case AlsoActive(o) => o != c.orm && Includes(s.rdbModule, Marker(o))
    case _ => false
  }

  ghost predicate EnvDue(c: Choice, s: State, issue: Issue) {
    match issue
    case EnvType(d) => d == c.database && !Includes(s.envExample, "DB_TYPE=" + d.Name())
    case TestEnvType(d) => d == c.database && !Includes(s.loadTestEnv, "process.env.DB_TYPE = '" + d.Name() + "'")
    case E2eSchema =>
      c.orm == Typeorm && !E2eSays(s, "schema: database === 'postgres' ? process.env.DB_SCHEMA : undefined")
    case E2eType => c.orm == Typeorm && !E2eSays(s, "type: database")
    case _ => false
  }

  predicate E2eSays(s: State, text: string) {
    s.persistenceE2e.Some? && Includes(s.persistenceE2e.value, text)
  }

  /** The services of a file that is a map, with their RDB service when it is a map too. */
  predicate HasServices(file: File) {
    Parses(file) && file.root.Map? && MapIn(file.root, ["services"]).Some?
  }

  function Present(root: Node, d: Database): seq<Database> {
    if GetIn(root, ["services", d.Name()]).Some? then [d] else []
  }

  ghost predicate ShapeDue(path: Path, file: File, issue: Issue) {
    match issue
    case InvalidYaml(p) => p == path && !Parses(file)
    case NotAnObject(p) => p == path && Parses(file) && !file.root.Map?
    case NoServices(p) => p == path && Parses(file) && file.root.Map? && MapIn(file.root, ["services"]).None?
    case _ => false
  }

  ghost predicate RdbDue(path: Path, d: Database, root: Node, issue: Issue) {
    match issue
    case RdbMismatch(p, e, found) =>
      && p == path && e == d && MapIn(root, ["services", d.Name()]).None?
      && found == Present(root, Postgres) + Present(root, Mysql) + Present(root, Mariadb)
    case ImageMismatch(p, e, image) =>
      && p == path && e == d && MapIn(root, ["services", d.Name()]).Some?
      && image == GetIn(root, ["services", d.Name(), "image"]) && image != Some(Str(DatabaseImage(d)))
    case UnselectedService(p, e) => p == path && e != d && GetIn(root, ["services", e.Name()]).Some?
    case _ => false
  }

  /** What is due of either compose file. */
  ghost predicate ComposeDue(path: Path, d: Database, file: File, issue: Issue) {
    ShapeDue(path, file, issue) || (HasServices(file) && RdbDue(path, d, file.root, issue))
  }

  ghost predicate AppDue(d: Database, root: Node, issue: Issue) {
    match issue
    case NotADependency(e) => e == d && !DependsOnRdb(root, d)
    case AppSetting(name, expected) =>
      && (|| (name == "DB_HOST" && expected == "${DOCKER_DB_HOST:-" + d.Name() + "}")
          || (name == "DB_PORT" && expected == "${DB_PORT:-" + DatabasePort(d) + "}")
          || (name == "DB_TYPE" && expected == d.Name()))
      && GetIn(root, ["services", "app", "environment", name]) != Some(Str(expected))
    case _ => false
  }

  predicate DependsOnRdb(root: Node, d: Database) {
    GetIn(root, ["services", "app", "depends_on", d.Name()]).Some?
  }

  ghost predicate NameDue(file: File, issue: Issue) {
    issue == ProjectName && Parses(file) && file.root.Map? && GetIn(file.root, ["name"]) != Some(Str("barebones-test"))
  }

  ghost predicate TestDue(d: Database, root: Node, issue: Issue) {
    match issue
    case TestPort(expected) =>
      && expected == "${DB_TEST_HOST_PORT:-15432}:" + DatabasePort(d)
      && !ListHas(GetIn(root, ["services", d.Name(), "ports"]), expected)
    case TestTmpfs(expected) =>
      && expected == DatabaseDataPath(d)
      && !ListHas(GetIn(root, ["services", d.Name(), "tmpfs"]), expected)
    case TestVolume => GetIn(root, ["services", d.Name(), "volumes"]).Some?
    case _ => false
  }

  ghost predicate BaseDue(d: Database, file: File, issue: Issue) {
    ComposeDue(BaseCompose, d, file, issue) || (HasServices(file) && AppDue(d, file.root, issue))
  }

  ghost predicate TestFileDue(d: Database, file: File, issue: Issue) {
    ComposeDue(TestCompose, d, file, issue) || NameDue(file, issue)
    || (HasServices(file) && TestDue(d, file.root, issue))
  }

  ghost predicate Due(c: Choice, s: State, issue: Issue) {
    || HeaderDue(c, s, issue) || MissingDue(c, s, issue) || LeftoverDue(c, s, issue) || FileDue(c, s, issue)
    || ModuleDue(c, s, issue) || EnvDue(c, s, issue)
    || BaseDue(c.database, s.compose, issue) || TestFileDue(c.database, s.testCompose, issue)
  }

  // ----- sections of the list -----

  lemma InBoth<T>(x: T, a: seq<T>, b: seq<T>)
    ensures x in a + b <==> x in a || x in b
  {
  }

  lemma HeaderIs(c: Choice, s: State, issue: Issue)
    ensures issue in HeaderIssues(c, s) <==> HeaderDue(c, s, issue)
  {
  }

  lemma {:induction false} AbsentHas(names: seq<string>, present: set<string>, name: string)
    ensures name in Absent(names, present) <==> name in names && name !in present
  {
    if names != [] {
      AbsentHas(names[1..], present, name);
      assert names == [names[0]] + names[1..];
    }
  }

  lemma {:induction false} ListedHas(names: seq<string>, present: set<string>, name: string)
    ensures name in Listed(names, present) <==> name in names && name in present
  {
    if names != [] {
      ListedHas(names[1..], present, name);
      assert names == [names[0]] + names[1..];
    }
  }

  lemma IssuesHave(k: Kind, names: seq<string>, issue: Issue)
    ensures issue in Issues(k, names) <==> exists name :: name in names && issue == Issued(k, name)
  {
    if name :| name in names && issue == Issued(k, name) {
      var i :| 0 <= i < |names| && names[i] == name;
      assert Issues(k, names)[i] == issue;
    }
  }

  lemma MissingHave(k: Kind, names: seq<string>, present: set<string>, issue: Issue)
    ensures issue in Issues(k, Absent(names, present))
       <==> exists name :: name in names && name !in present && issue == Issued(k, name)
  {
    IssuesHave(k, Absent(names, present), issue);
    forall name ensures name in Absent(names, present) <==> name in names && name !in present {
      AbsentHas(names, present, name);
    }
  }

  lemma ListedHave(k: Kind, names: seq<string>, present: set<string>, issue: Issue)
    ensures issue in Issues(k, Listed(names, present))
       <==> exists name :: name in names && name in present && issue == Issued(k, name)
  {
    IssuesHave(k, Listed(names, present), issue);
    forall name ensures name in Listed(names, present) <==> name in names && name in present {
      ListedHas(names, present, name);
    }
  }

  lemma {:induction false} DriversHave(c: Choice, installed: set<string>, databases: seq<Database>, issue: Issue)
    ensures issue in UnselectedDrivers(c, installed, databases) <==>
              && issue.UnselectedDriver?
              && issue.name in installed && issue.name !in DriverPackages(c.orm, c.database)
              && exists d :: d in databases && d != c.database && issue.name in DriverPackages(c.orm, d)
  {
    if databases != [] {
      var d, rest := databases[0], databases[1..];
      DriversHave(c, installed, rest, issue);
      ListedHave(KUnselectedDriver, DriverPackages(c.orm, d), installed - Names(DriverPackages(c.orm, c.database)),
                 issue);
      assert forall e :: e in databases <==> e == d || e in rest;
    }
  }

  lemma LeftoversHave(orm: Orm, s: State, issue: Issue)
    ensures issue in OrmLeftovers(orm, s) <==>
              || (issue.UnselectedDependency? && issue.name in s.dependencies
                  && issue.name in RequiredDependencies(orm))
              || (issue.UnselectedDevDependency? && issue.name in s.devDependencies
                  && issue.name in RequiredDevDependencies(orm))
  {
    ListedHave(KUnselected, RequiredDependencies(orm), s.dependencies, issue);
    ListedHave(KUnselectedDev, RequiredDevDependencies(orm), s.devDependencies, issue);
  }

  lemma {:induction false} OrmsHave(c: Choice, s: State, orms: seq<Orm>, issue: Issue)
    ensures issue in UnselectedOrms(c, s, orms)
       <==> exists o :: o in orms && o != c.orm && issue in OrmLeftovers(o, s)
  {
    if orms != [] {
      OrmsHave(c, s, orms[1..], issue);
      assert forall o :: o in orms <==> o == orms[0] || o in orms[1..];
    }
  }

  lemma {:induction false} FilesHave(c: Choice, files: set<string>, orms: seq<Orm>, issue: Issue)
    ensures issue in UnselectedFiles(c, files, orms) <==>
              && issue.UnselectedFile? && issue.name in files && issue.name !in RequiredFiles(c.orm)
              && exists o :: o in orms && o != c.orm && issue.name in RequiredFiles(o)
  {
    if orms != [] {
      FilesHave(c, files, orms[1..], issue);
      ListedHave(KUnselectedFile, RequiredFiles(orms[0]), files - Names(RequiredFiles(c.orm)), issue);
      assert forall o :: o in orms <==> o == orms[0] || o in orms[1..];
    }
  }

  lemma MissingIs(c: Choice, s: State, issue: Issue)
    ensures issue in Issues(KMissing(c.orm), Absent(RequiredDependencies(c.orm), s.dependencies))
                     + Issues(KMissingDev(c.orm), Absent(RequiredDevDependencies(c.orm), s.devDependencies))
                     + Issues(KDriver(c.orm, c.database), Absent(DriverPackages(c.orm, c.database), s.dependencies))
       <==> MissingDue(c, s, issue)
  {
    MissingHave(KMissing(c.orm), RequiredDependencies(c.orm), s.dependencies, issue);
    MissingHave(KMissingDev(c.orm), RequiredDevDependencies(c.orm), s.devDependencies, issue);
    MissingHave(KDriver(c.orm, c.database), DriverPackages(c.orm, c.database), s.dependencies, issue);
  }

  lemma LeftoverIs(c: Choice, s: State, issue: Issue)
    ensures issue in UnselectedDrivers(c, s.dependencies, RDB_CHOICES) + UnselectedOrms(c, s, ORM_CHOICES)
       <==> LeftoverDue(c, s, issue)
  {
    EveryChoiceListed();
    DriversHave(c, s.dependencies, RDB_CHOICES, issue);
    OrmsHave(c, s, ORM_CHOICES, issue);
    forall o: Orm ensures issue in OrmLeftovers(o, s) <==>
        || (issue.UnselectedDependency? && issue.name in s.dependencies && issue.name in RequiredDependencies(o))
        || (issue.UnselectedDevDependency? && issue.name in s.devDependencies
            && issue.name in RequiredDevDependencies(o))
    {
      LeftoversHave(o, s, issue);
    }
  }

  lemma PackageIs(c: Choice, s: State, issue: Issue)
    ensures issue in PackageIssues(c, s) <==> MissingDue(c, s, issue) || LeftoverDue(c, s, issue)
  {
    MissingIs(c, s, issue);
    LeftoverIs(c, s, issue);
  }

  lemma FileIs(c: Choice, s: State, issue: Issue)
    ensures issue in FileIssues(c, s.files) <==> FileDue(c, s, issue)
  {
    EveryChoiceListed();
    MissingHave(KFile(c.orm), RequiredFiles(c.orm), s.files, issue);
    FilesHave(c, s.files, ORM_CHOICES, issue);
  }

  lemma {:induction false} ModuleHas(c: Choice, s: State, orms: seq<Orm>, issue: Issue)
    ensures issue in ModuleIssues(c, s.rdbModule, orms) <==>
              || (issue.InactiveOrm? && issue.orm in orms && issue.orm == c.orm
                  && !Includes(s.rdbModule, Marker(issue.orm)))
              || (issue.AlsoActive? && issue.orm in orms && issue.orm != c.orm
                  && Includes(s.rdbModule, Marker(issue.orm)))
  {
    if orms != [] {
      ModuleHas(c, s, orms[1..], issue);
      OneOrm(c, orms[0], Includes(s.rdbModule, Marker(orms[0])), issue);
      assert forall o :: o in orms <==> o == orms[0] || o in orms[1..];
    }
  }

  lemma OneOrm(c: Choice, orm: Orm, present: bool, issue: Issue)
    ensures issue in OrmIssue(c, orm, present) <==>
              || (issue == InactiveOrm(orm) && orm == c.orm && !present)
              || (issue == AlsoActive(orm) && orm != c.orm && present)
  {
  }

  lemma ModuleIs(c: Choice, s: State, issue: Issue)
    ensures issue in ModuleIssues(c, s.rdbModule, ORM_CHOICES) <==> ModuleDue(c, s, issue)
  {
    EveryChoiceListed();
    ModuleHas(c, s, ORM_CHOICES, issue);
  }

  lemma EnvIs(c: Choice, s: State, issue: Issue)
    ensures issue in EnvIssues(c, s) <==> EnvDue(c, s, issue)
  {
  }

  // ----- paths -----

  lemma {:induction false} OneFurther(n: Node, path: seq<string>, key: string)
    ensures GetIn(n, path + [key]) == Field(Record(GetIn(n, path)), key)
    decreases |path|
  {
    if path == [] {
      assert path + [key] == [key] && [key] == [key] + [];
      GetInStep(n, key, []);
    } else {
      assert path + [key] == [path[0]] + (path[1..] + [key]) && path == [path[0]] + path[1..];
      GetInStep(n, path[0], path[1..] + [key]);
      GetInStep(n, path[0], path[1..]);
      if n.Map? && Has(n.entries, path[0]) {
        OneFurther(Get(n.entries, path[0]), path[1..], key);
      }
    }
  }

  lemma RecordIn(n: Node, path: seq<string>)
    ensures Record(GetIn(n, path)) == MapIn(n, path)
  {
  }

  lemma TopField(root: Node, key: string)
    requires root.Map?
    ensures Field(Some(root.entries), key) == GetIn(root, [key])
  {
    OneFurther(root, [], key);
    assert [] + [key] == [key];
  }

  lemma InServices(root: Node, services: Entries, name: string)
    requires MapIn(root, ["services"]) == Some(services)
    ensures Field(Some(services), name) == GetIn(root, ["services", name])
    ensures Record(Field(Some(services), name)) == MapIn(root, ["services", name])
    ensures Has(services, name) <==> GetIn(root, ["services", name]).Some?
  {
    OneFurther(root, ["services"], name);
    assert ["services"] + [name] == ["services", name];
  }

  lemma InService(root: Node, services: Entries, name: string, key: string)
    requires MapIn(root, ["services"]) == Some(services)
    ensures Field(Record(Field(Some(services), name)), key) == GetIn(root, ["services", name, key])
    ensures Record(Field(Record(Field(Some(services), name)), key)) == MapIn(root, ["services", name, key])
  {
    InServices(root, services, name);
    OneFurther(root, ["services", name], key);
    assert ["services", name] + [key] == ["services", name, key];
  }

  lemma InApp(root: Node, services: Entries, part: string, key: string)
    requires MapIn(root, ["services"]) == Some(services)
    ensures Field(Record(Field(Record(Field(Some(services), "app")), part)), key)
         == GetIn(root, ["services", "app", part, key])
  {
    InService(root, services, "app", part);
    OneFurther(root, ["services", "app", part], key);
    assert ["services", "app", part] + [key] == ["services", "app", part, key];
  }

  // ----- the compose files -----

  lemma FoundIs(root: Node, services: Entries)
    requires MapIn(root, ["services"]) == Some(services)
    ensures DatabaseServices(services, RDB_CHOICES)
         == Present(root, Postgres) + Present(root, Mysql) + Present(root, Mariadb)
  {
    InServices(root, services, Postgres.Name());
    InServices(root, services, Mysql.Name());
    InServices(root, services, Mariadb.Name());
    var rest := RDB_CHOICES[1..];
    assert rest == [Mysql, Mariadb] && rest[1..] == [Mariadb] && rest[1..][1..] == [];
    assert DatabaseServices(services, rest[1..]) == Present(root, Mariadb) + [];
    assert DatabaseServices(services, rest) == Present(root, Mysql) + (Present(root, Mariadb) + []);
  }

  lemma {:induction false} UnselectedHave(path: Path, d: Database, found: seq<Database>, issue: Issue)
    ensures issue in UnselectedServices(path, d, found)
       <==> issue.UnselectedService? && issue.path == path && issue.database != d && issue.database in found
  {
    if found != [] {
      UnselectedHave(path, d, found[1..], issue);
      assert forall e :: e in found <==> e == found[0] || e in found[1..];
    }
  }

  lemma SelectedIs(path: Path, d: Database, found: seq<Database>, selected: Option<Entries>, image: Option<Node>,
                   issue: Issue)
    ensures issue in (if selected.None? then [RdbMismatch(path, d, found)]
                      else When(image != Some(Str(DatabaseImage(d))), ImageMismatch(path, d, image)))
       <==> || (selected.None? && issue == RdbMismatch(path, d, found))
            || (selected.Some? && issue == ImageMismatch(path, d, image) && image != Some(Str(DatabaseImage(d))))
  {
  }

  lemma ServicesHave(path: Path, d: Database, services: Entries, found: seq<Database>, selected: Option<Entries>,
                     issue: Issue)
    requires found == DatabaseServices(services, RDB_CHOICES) && selected == Record(Field(Some(services), d.Name()))
    ensures issue in ServiceIssues(path, d, services) <==>
              || (selected.None? && issue == RdbMismatch(path, d, found))
              || (selected.Some? && issue == ImageMismatch(path, d, Field(selected, "image"))
                  && Field(selected, "image") != Some(Str(DatabaseImage(d))))
              || (issue.UnselectedService? && issue.path == path && issue.database != d && issue.database in found)
  {
    SelectedIs(path, d, found, selected, Field(selected, "image"), issue);
    UnselectedHave(path, d, found, issue);
  }

  lemma InFound(root: Node, services: Entries, e: Database)
    requires MapIn(root, ["services"]) == Some(services)
    ensures e in DatabaseServices(services, RDB_CHOICES) <==> GetIn(root, ["services", e.Name()]).Some?
  {
    EveryChoiceListed();
    DatabaseServicesHold(services, RDB_CHOICES, e);
    InServices(root, services, e.Name());
  }

  lemma MismatchListed(path: Path, d: Database, root: Node, services: Entries, issue: Issue)
    requires MapIn(root, ["services"]) == Some(services) && issue.RdbMismatch?
    ensures issue in ServiceIssues(path, d, services) <==> RdbDue(path, d, root, issue)
  {
    ServicesHave(path, d, services, DatabaseServices(services, RDB_CHOICES), Record(Field(Some(services), d.Name())),
                 issue);
    InServices(root, services, d.Name());
    FoundIs(root, services);
  }

  lemma ImageHave(path: Path, d: Database, services: Entries, image: Option<Node>, selected: Option<Entries>,
                  issue: Issue)
    requires selected == Record(Field(Some(services), d.Name())) && image == Field(selected, "image")
    requires issue.ImageMismatch?
    ensures issue in ServiceIssues(path, d, services)
       <==> selected.Some? && issue == ImageMismatch(path, d, image) && image != Some(Str(DatabaseImage(d)))
  {
    ServicesHave(path, d, services, DatabaseServices(services, RDB_CHOICES), selected, issue);
  }

  lemma ImageDueIs(path: Path, d: Database, root: Node, image: Option<Node>, selected: Option<Entries>, issue: Issue)
    requires selected == MapIn(root, ["services", d.Name()]) && image == GetIn(root, ["services", d.Name(), "image"])
    requires issue.ImageMismatch?
    ensures RdbDue(path, d, root, issue)
       <==> selected.Some? && issue == ImageMismatch(path, d, image) && image != Some(Str(DatabaseImage(d)))
  {
  }

  lemma ImageListed(path: Path, d: Database, root: Node, services: Entries, issue: Issue)
    requires MapIn(root, ["services"]) == Some(services) && issue.ImageMismatch?
    ensures issue in ServiceIssues(path, d, services) <==> RdbDue(path, d, root, issue)
  {
    var selected := Record(Field(Some(services), d.Name()));
    InServices(root, services, d.Name());
    InService(root, services, d.Name(), "image");
    ImageHave(path, d, services, Field(selected, "image"), selected, issue);
    ImageDueIs(path, d, root, Field(selected, "image"), selected, issue);
  }

  lemma UnselectedListed(path: Path, d: Database, root: Node, services: Entries, issue: Issue)
    requires MapIn(root, ["services"]) == Some(services) && issue.UnselectedService?
    ensures issue in ServiceIssues(path, d, services) <==> RdbDue(path, d, root, issue)
  {
    ServicesHave(path, d, services, DatabaseServices(services, RDB_CHOICES), Record(Field(Some(services), d.Name())),
                 issue);
    InFound(root, services, issue.database);
  }

  lemma NoOtherListed(path: Path, d: Database, services: Entries, issue: Issue)
    requires issue in ServiceIssues(path, d, services)
    ensures issue.RdbMismatch? || issue.ImageMismatch? || issue.UnselectedService?
  {
    ServicesHave(path, d, services, DatabaseServices(services, RDB_CHOICES), Record(Field(Some(services), d.Name())),
                 issue);
  }

  /** The issues about the RDB services. */
  lemma ServicesAre(path: Path, d: Database, root: Node, services: Entries, issue: Issue)
    requires MapIn(root, ["services"]) == Some(services)
    ensures issue in ServiceIssues(path, d, services) <==> RdbDue(path, d, root, issue)
  {
    match issue {
      case RdbMismatch(_, _, _) => MismatchListed(path, d, root, services, issue);
      case ImageMismatch(_, _, _) => ImageListed(path, d, root, services, issue);
      case UnselectedService(_, _) => UnselectedListed(path, d, root, services, issue);
      case _ =>
        if issue in ServiceIssues(path, d, services) {
          NoOtherListed(path, d, services, issue);
        }
    }
  }

  lemma SettingsHave(environment: Option<Entries>, d: Database, issue: Issue)
    ensures issue in SettingIssues(environment, ExpectedSettings(d)) <==>
              && issue.AppSetting?
              && (|| (issue.name == "DB_HOST" && issue.expected == "${DOCKER_DB_HOST:-" + d.Name() + "}")
                  || (issue.name == "DB_PORT" && issue.expected == "${DB_PORT:-" + DatabasePort(d) + "}")
                  || (issue.name == "DB_TYPE" && issue.expected == d.Name()))
              && Field(environment, issue.name) != Some(Str(issue.expected))
  {
    var e := ExpectedSettings(d);
    assert e[1..][1..] == e[2..] && e[2..][1..] == [];
    SettingsStep(environment, e, issue);
    SettingsStep(environment, e[1..], issue);
    SettingsStep(environment, e[2..], issue);
  }

  lemma SettingsStep(environment: Option<Entries>, e: seq<(string, string)>, issue: Issue)
    requires e != []
    ensures issue in SettingIssues(environment, e) <==>
              || issue in SettingIssues(environment, e[1..])
              || (issue == AppSetting(e[0].0, e[0].1) && Field(environment, e[0].0) != Some(Str(e[0].1)))
  {
  }

  lemma AppHave(d: Database, services: Entries, issue: Issue)
    ensures var app := Record(Field(Some(services), "app"));
            issue in AppIssues(d, services) <==>
              || (issue == NotADependency(d) && Field(Record(Field(app, "depends_on")), d.Name()).None?)
              || issue in SettingIssues(Record(Field(app, "environment")), ExpectedSettings(d))
  {
    var app := Record(Field(Some(services), "app"));
    var dependsOn := Record(Field(app, "depends_on"));
    InBoth(issue, When(dependsOn.None? || !Has(dependsOn.value, d.Name()), NotADependency(d)),
           SettingIssues(Record(Field(app, "environment")), ExpectedSettings(d)));
  }

  lemma AppIs(d: Database, root: Node, services: Entries, issue: Issue)
    requires MapIn(root, ["services"]) == Some(services)
    ensures issue in AppIssues(d, services) <==> AppDue(d, root, issue)
  {
    AppHave(d, services, issue);
    SettingsHave(Record(Field(Record(Field(Some(services), "app")), "environment")), d, issue);
    InApp(root, services, "depends_on", d.Name());
    if issue.AppSetting? {
      InApp(root, services, "environment", issue.name);
    }
  }

  /** The list about docker-compose.yml, part by part. */
  lemma BaseSplit(d: Database, file: File, issue: Issue)
    ensures issue in BaseComposeIssues(d, file) <==>
              || ShapeDue(BaseCompose, file, issue)
              || (HasServices(file) && issue in ServiceIssues(BaseCompose, d, MapIn(file.root, ["services"]).value))
              || (HasServices(file) && issue in AppIssues(d, MapIn(file.root, ["services"]).value))
  {
    if Parses(file) && file.root.Map? {
      TopField(file.root, "services");
    }
  }

  lemma BaseIs(d: Database, file: File, issue: Issue)
    ensures issue in BaseComposeIssues(d, file) <==> BaseDue(d, file, issue)
  {
    BaseSplit(d, file, issue);
    if HasServices(file) {
      ServicesAre(BaseCompose, d, file.root, MapIn(file.root, ["services"]).value, issue);
      AppIs(d, file.root, MapIn(file.root, ["services"]).value, issue);
    }
  }

  lemma ThreeIs(a: bool, b: bool, v: bool, port: string, path: string, issue: Issue)
    ensures issue in When(a, TestPort(port)) + When(b, TestTmpfs(path)) + When(v, TestVolume)
       <==> (a && issue == TestPort(port)) || (b && issue == TestTmpfs(path)) || (v && issue == TestVolume)
  {
  }

  lemma TestServiceHave(d: Database, services: Entries, selected: Option<Entries>, issue: Issue)
    requires selected == Record(Field(Some(services), d.Name()))
    ensures issue in TestServiceIssues(d, services) <==>
              || (issue == TestPort("${DB_TEST_HOST_PORT:-15432}:" + DatabasePort(d))
                  && !ListHas(Field(selected, "ports"), "${DB_TEST_HOST_PORT:-15432}:" + DatabasePort(d)))
              || (issue == TestTmpfs(DatabaseDataPath(d)) && !ListHas(Field(selected, "tmpfs"), DatabaseDataPath(d)))
              || (issue == TestVolume && Field(selected, "volumes").Some?)
  {
    var port := "${DB_TEST_HOST_PORT:-15432}:" + DatabasePort(d);
    ThreeIs(!ListHas(Field(selected, "ports"), port), !ListHas(Field(selected, "tmpfs"), DatabaseDataPath(d)),
            selected.Some? && Has(selected.value, "volumes"), port, DatabaseDataPath(d), issue);
  }

  lemma TestServiceIs(d: Database, root: Node, services: Entries, issue: Issue)
    requires MapIn(root, ["services"]) == Some(services)
    ensures issue in TestServiceIssues(d, services) <==> TestDue(d, root, issue)
  {
    TestServiceHave(d, services, Record(Field(Some(services), d.Name())), issue);
    InService(root, services, d.Name(), "ports");
    InService(root, services, d.Name(), "tmpfs");
    InService(root, services, d.Name(), "volumes");
  }

  lemma NameIs(root: Node, issue: Issue)
    requires root.Map?
    ensures issue in When(Field(Some(root.entries), "name") != Some(Str("barebones-test")), ProjectName)
       <==> issue == ProjectName && GetIn(root, ["name"]) != Some(Str("barebones-test"))
  {
    TopField(root, "name");
  }

  /** The list about the test file, part by part. */
  lemma TestSplit(d: Database, file: File, issue: Issue)
    ensures issue in TestComposeIssues(d, file) <==>
              || ShapeDue(TestCompose, file, issue) || NameDue(file, issue)
              || (HasServices(file) && issue in ServiceIssues(TestCompose, d, MapIn(file.root, ["services"]).value))
              || (HasServices(file) && issue in TestServiceIssues(d, MapIn(file.root, ["services"]).value))
  {
    if Parses(file) && file.root.Map? {
      NameIs(file.root, issue);
      TopField(file.root, "services");
    }
  }

  lemma TestIs(d: Database, file: File, issue: Issue)
    ensures issue in TestComposeIssues(d, file) <==> TestFileDue(d, file, issue)
  {
    TestSplit(d, file, issue);
    if HasServices(file) {
      ServicesAre(TestCompose, d, file.root, MapIn(file.root, ["services"]).value, issue);
      TestServiceIs(d, file.root, MapIn(file.root, ["services"]).value, issue);
    }
  }

  /** Exactly the issues that are due are listed, for every project state and selection. */
  lemma ListedIffDue(c: Choice, s: State, issue: Issue)
    ensures issue in ScaffoldIssues(c, s) <==> Due(c, s, issue)
  {
    HeaderIs(c, s, issue);
    PackageIs(c, s, issue);
    FileIs(c, s, issue);
    ModuleIs(c, s, issue);
    EnvIs(c, s, issue);
    BaseIs(c.database, s.compose, issue);
    TestIs(c.database, s.testCompose, issue);
  }
}
