/** What the checker's list means: a project agrees with a selection, and with no other. */
module ScaffoldConsistency {
  import opened OrderedMap
  import opened Results
  import opened ScaffoldChecker
  import opened Selection
  import opened Text
  import opened Yaml

  // ----- agreement, stated without lists -----

  predicate HeaderAgrees(c: Choice, s: State) {
    && Includes(s.activeScaffold, "database: '" + c.database.Name() + "'")
    && Includes(s.activeScaffold, "orm: '" + OrmName(c.orm) + "'")
    && Includes(s.appModule, "RdbDatabaseModule")
  }

  /** Everything the selection needs is installed; of the other drivers and ORMs, nothing is. */
  ghost predicate PackagesAgree(c: Choice, dependencies: set<string>, devDependencies: set<string>) {
    && Names(RequiredDependencies(c.orm)) + Names(DriverPackages(c.orm, c.database)) <= dependencies
    && Names(RequiredDevDependencies(c.orm)) <= devDependencies
    && (forall d: Database ::
        (Names(DriverPackages(c.orm, d)) - Names(DriverPackages(c.orm, c.database))) !! dependencies)
    && (forall o: Orm :: o != c.orm ==>
        Names(RequiredDependencies(o)) !! dependencies && Names(RequiredDevDependencies(o)) !! devDependencies)
  }

  ghost predicate FilesAgree(c: Choice, files: set<string>) {
    && Names(RequiredFiles(c.orm)) <= files
    && forall o: Orm :: (Names(RequiredFiles(o)) - Names(RequiredFiles(c.orm))) !! files
  }

  /** The module activates the selected ORM and no other. */
  ghost predicate ModuleAgrees(orm: Orm, module_: string) {
    forall o: Orm :: Includes(module_, Marker(o)) <==> o == orm
  }

  predicate E2eAgrees(e2e: Option<string>) {
    e2e.Some? && Includes(e2e.value, E2E_SCHEMA) && Includes(e2e.value, E2E_TYPE)
  }

  predicate EnvAgrees(c: Choice, s: State) {
    && Includes(s.envExample, "DB_TYPE=" + c.database.Name())
    && Includes(s.loadTestEnv, "process.env.DB_TYPE = '" + c.database.Name() + "'")
    && (c.orm == Typeorm ==> E2eAgrees(s.persistenceE2e))
  }

  /** The selected RDB is the only RDB service, and it runs the expected image. */
  ghost predicate RdbServicesAgree(d: Database, services: Entries) {
    && (forall e: Database :: Has(services, e.Name()) <==> e == d)
    && Field(Record(Field(Some(services), d.Name())), "image") == Some(Str(DatabaseImage(d)))
  }

  predicate AppAgrees(d: Database, services: Entries) {
    var app := Record(Field(Some(services), "app"));
    var dependsOn, environment := Record(Field(app, "depends_on")), Record(Field(app, "environment"));
    && dependsOn.Some? && Has(dependsOn.value, d.Name())
    && Field(environment, "DB_HOST") == Some(Str("${DOCKER_DB_HOST:-" + d.Name() + "}"))
    && Field(environment, "DB_PORT") == Some(Str("${DB_PORT:-" + DatabasePort(d) + "}"))
    && Field(environment, "DB_TYPE") == Some(Str(d.Name()))
  }

  function FileServices(file: File): Option<Entries> {
    if Parses(file) && file.root.Map? then Record(Field(Some(file.root.entries), "services")) else None
  }

  ghost predicate ComposeAgrees(d: Database, file: File) {
    var services := FileServices(file);
    services.Some? && RdbServicesAgree(d, services.value) && AppAgrees(d, services.value)
  }

  predicate TestServiceAgrees(d: Database, services: Entries) {
    var selected := Record(Field(Some(services), d.Name()));
    && ListHas(Field(selected, "ports"), "${DB_TEST_HOST_PORT:-15432}:" + DatabasePort(d))
    && ListHas(Field(selected, "tmpfs"), DatabaseDataPath(d))
    && (selected.None? || !Has(selected.value, "volumes"))
  }

  ghost predicate TestComposeAgrees(d: Database, file: File) {
    var services := FileServices(file);
    && services.Some? && RdbServicesAgree(d, services.value) && TestServiceAgrees(d, services.value)
    && Field(Some(file.root.entries), "name") == Some(Str("barebones-test"))
  }

  ghost predicate Consistent(c: Choice, s: State) {
    && HeaderAgrees(c, s) && PackagesAgree(c, s.dependencies, s.devDependencies) && FilesAgree(c, s.files)
    && ModuleAgrees(c.orm, s.rdbModule) && EnvAgrees(c, s)
    && ComposeAgrees(c.database, s.compose) && TestComposeAgrees(c.database, s.testCompose)
  }

  // ----- an empty list means agreement, section by section -----

  lemma {:induction false} AbsentEmpty(names: seq<string>, present: set<string>)
    ensures Absent(names, present) == [] <==> Names(names) <= present
  {
    if names != [] {
      AbsentEmpty(names[1..], present);
      NamesCons(names);
    }
  }

  lemma {:induction false} ListedEmpty(names: seq<string>, present: set<string>)
    ensures Listed(names, present) == [] <==> Names(names) !! present
  {
    if names != [] {
      ListedEmpty(names[1..], present);
      NamesCons(names);
    }
  }

  lemma NamesCons(names: seq<string>)
    requires names != []
    ensures Names(names) == {names[0]} + Names(names[1..])
  {
    assert names == [names[0]] + names[1..];
  }

  lemma EveryChoiceListed()
    ensures forall d: Database :: d in RDB_CHOICES
    ensures forall o: Orm :: o in ORM_CHOICES
  {
    forall d: Database ensures d in RDB_CHOICES {
      match d
      case Postgres => assert RDB_CHOICES[0] == d;
      case Mysql => assert RDB_CHOICES[1] == d;
      case Mariadb => assert RDB_CHOICES[2] == d;
    }
    forall o: Orm ensures o in ORM_CHOICES {
      match o
      case Typeorm => assert ORM_CHOICES[0] == o;
      case Prisma => assert ORM_CHOICES[1] == o;
      case Mikroorm => assert ORM_CHOICES[2] == o;
      case Drizzle => assert ORM_CHOICES[3] == o;
    }
  }

  lemma {:induction false} UnselectedDriversEmpty(c: Choice, installed: set<string>, databases: seq<Database>)
    ensures UnselectedDrivers(c, installed, databases) == []
       <==> forall d :: d in databases ==>
         (Names(DriverPackages(c.orm, d)) - Names(DriverPackages(c.orm, c.database))) !! installed
  {
    if databases != [] {
      var d, selected := databases[0], Names(DriverPackages(c.orm, c.database));
      UnselectedDriversEmpty(c, installed, databases[1..]);
      ListedEmpty(DriverPackages(c.orm, d), installed - selected);
      assert Names(DriverPackages(c.orm, d)) !! installed - selected
         <==> (Names(DriverPackages(c.orm, d)) - selected) !! installed;
      assert databases == [d] + databases[1..];
    }
  }

  lemma {:induction false} UnselectedOrmsEmpty(c: Choice, s: State, orms: seq<Orm>)
    ensures UnselectedOrms(c, s, orms) == []
       <==> forall o :: o in orms && o != c.orm ==>
         Names(RequiredDependencies(o)) !! s.dependencies && Names(RequiredDevDependencies(o)) !! s.devDependencies
  {
    if orms != [] {
      UnselectedOrmsEmpty(c, s, orms[1..]);
      ListedEmpty(RequiredDependencies(orms[0]), s.dependencies);
      ListedEmpty(RequiredDevDependencies(orms[0]), s.devDependencies);
      assert orms == [orms[0]] + orms[1..];
    }
  }

  lemma PackageIssuesEmpty(c: Choice, s: State)
    ensures PackageIssues(c, s) == [] <==> PackagesAgree(c, s.dependencies, s.devDependencies)
  {
    EveryChoiceListed();
    AbsentEmpty(RequiredDependencies(c.orm), s.dependencies);
    AbsentEmpty(RequiredDevDependencies(c.orm), s.devDependencies);
    AbsentEmpty(DriverPackages(c.orm, c.database), s.dependencies);
    UnselectedDriversEmpty(c, s.dependencies, RDB_CHOICES);
    UnselectedOrmsEmpty(c, s, ORM_CHOICES);
  }

  lemma {:induction false} UnselectedFilesEmpty(c: Choice, files: set<string>, orms: seq<Orm>)
    ensures UnselectedFiles(c, files, orms) == []
       <==> forall o :: o in orms ==> (Names(RequiredFiles(o)) - Names(RequiredFiles(c.orm))) !! files
  {
    if orms != [] {
      var o, selected := orms[0], Names(RequiredFiles(c.orm));
      UnselectedFilesEmpty(c, files, orms[1..]);
      ListedEmpty(RequiredFiles(o), files - selected);
      assert Names(RequiredFiles(o)) !! files - selected <==> (Names(RequiredFiles(o)) - selected) !! files;
      assert orms == [o] + orms[1..];
    }
  }

  lemma FileIssuesEmpty(c: Choice, files: set<string>)
    ensures FileIssues(c, files) == [] <==> FilesAgree(c, files)
  {
    EveryChoiceListed();
    AbsentEmpty(RequiredFiles(c.orm), files);
    UnselectedFilesEmpty(c, files, ORM_CHOICES);
  }

  lemma OrmIssueEmpty(c: Choice, orm: Orm, present: bool)
    ensures OrmIssue(c, orm, present) == [] <==> (present <==> orm == c.orm)
  {
  }

  lemma BothEmpty<T>(a: seq<T>, b: seq<T>)
    ensures a + b == [] <==> a == [] && b == []
  {
  }

  lemma {:induction false} ModuleIssuesEmpty(c: Choice, module_: string, orms: seq<Orm>)
    ensures ModuleIssues(c, module_, orms) == []
       <==> forall o :: o in orms ==> (Includes(module_, Marker(o)) <==> o == c.orm)
  {
    if orms != [] {
      var present, rest := Includes(module_, Marker(orms[0])), ModuleIssues(c, module_, orms[1..]);
      ModuleIssuesEmpty(c, module_, orms[1..]);
      OrmIssueEmpty(c, orms[0], present);
      BothEmpty(OrmIssue(c, orms[0], present), rest);
      assert orms == [orms[0]] + orms[1..];
    }
  }

  lemma {:induction false} DatabaseServicesHold(services: Entries, databases: seq<Database>, e: Database)
    ensures e in DatabaseServices(services, databases) <==> e in databases && Has(services, e.Name())
  {
    if databases != [] {
      DatabaseServicesHold(services, databases[1..], e);
      assert databases == [databases[0]] + databases[1..];
    }
  }

  lemma {:induction false} UnselectedServicesEmpty(path: ScaffoldChecker.Path, d: Database, found: seq<Database>)
    ensures UnselectedServices(path, d, found) == [] <==> forall e :: e in found ==> e == d
  {
    if found != [] {
      UnselectedServicesEmpty(path, d, found[1..]);
      assert UnselectedServices(path, d, found) == []
         <==> found[0] == d && UnselectedServices(path, d, found[1..]) == [];
      assert found[0] in found && forall e :: e in found ==> e == found[0] || e in found[1..];
      assert forall e :: e in found[1..] ==> e in found;
    }
  }

  lemma OnlySelectedFound(d: Database, services: Entries)
    ensures var found := DatabaseServices(services, RDB_CHOICES);
            (d in found && forall e :: e in found ==> e == d) <==>
              forall e: Database :: Has(services, e.Name()) <==> e == d
  {
    var found := DatabaseServices(services, RDB_CHOICES);
    EveryChoiceListed();
    forall e: Database ensures e in found <==> Has(services, e.Name()) {
      DatabaseServicesHold(services, RDB_CHOICES, e);
    }
  }

  /** Nothing is listed exactly when the selected service runs the image and no other RDB is found. */
  lemma ServiceIssuesSplit(path: ScaffoldChecker.Path, d: Database, services: Entries, found: seq<Database>)
    requires found == DatabaseServices(services, RDB_CHOICES)
    ensures ServiceIssues(path, d, services) == [] <==>
              (Field(Record(Field(Some(services), d.Name())), "image") == Some(Str(DatabaseImage(d)))
               && UnselectedServices(path, d, found) == [])
  {
  }

  lemma ServiceIssuesEmpty(path: ScaffoldChecker.Path, d: Database, services: Entries)
    ensures ServiceIssues(path, d, services) == [] <==> RdbServicesAgree(d, services)
  {
    var found := DatabaseServices(services, RDB_CHOICES);
    ServiceIssuesSplit(path, d, services, found);
    UnselectedServicesEmpty(path, d, found);
    OnlySelectedFound(d, services);
    SelectedIsFound(d, services);
  }

  lemma SelectedIsFound(d: Database, services: Entries)
    ensures Field(Record(Field(Some(services), d.Name())), "image").Some? ==>
              d in DatabaseServices(services, RDB_CHOICES)
  {
    EveryChoiceListed();
    DatabaseServicesHold(services, RDB_CHOICES, d);
  }

  lemma AppIssuesEmpty(d: Database, services: Entries)
    ensures AppIssues(d, services) == [] <==> AppAgrees(d, services)
  {
    SettingIssuesEmpty(Record(Field(Record(Field(Some(services), "app")), "environment")), d);
  }

  lemma SettingIssuesEmpty(environment: Option<Entries>, d: Database)
    ensures SettingIssues(environment, ExpectedSettings(d)) == []
       <==> (&& Field(environment, "DB_HOST") == Some(Str("${DOCKER_DB_HOST:-" + d.Name() + "}"))
             && Field(environment, "DB_PORT") == Some(Str("${DB_PORT:-" + DatabasePort(d) + "}"))
             && Field(environment, "DB_TYPE") == Some(Str(d.Name())))
  {
    var e := ExpectedSettings(d);
    SettingIssuesStep(environment, e);
    SettingIssuesStep(environment, e[1..]);
    SettingIssuesStep(environment, e[2..]);
    assert e[1..][1..] == e[2..] && e[2..][1..] == [];
  }

  lemma SettingIssuesStep(environment: Option<Entries>, e: seq<(string, string)>)
    requires e != []
    ensures SettingIssues(environment, e) == [] <==>
            (Field(environment, e[0].0) == Some(Str(e[0].1)) && SettingIssues(environment, e[1..]) == [])
  {
  }

  lemma ComposeIssuesEmpty(d: Database, file: File)
    ensures BaseComposeIssues(d, file) == [] <==> ComposeAgrees(d, file)
  {
    var services := FileServices(file);
    if services.Some? {
      ServiceIssuesEmpty(BaseCompose, d, services.value);
      AppIssuesEmpty(d, services.value);
    }
  }

  lemma TestServiceIssuesEmpty(d: Database, services: Entries)
    ensures TestServiceIssues(d, services) == [] <==> TestServiceAgrees(d, services)
  {
  }

  lemma TestIssuesEmpty(d: Database, file: File)
    ensures TestComposeIssues(d, file) == [] <==> TestComposeAgrees(d, file)
  {
    var services := FileServices(file);
    if services.Some? {
      ServiceIssuesEmpty(TestCompose, d, services.value);
      TestServiceIssuesEmpty(d, services.value);
    }
  }

  lemma HeaderIssuesEmpty(c: Choice, s: State)
    ensures HeaderIssues(c, s) == [] <==> HeaderAgrees(c, s)
  {
  }

  lemma EnvIssuesEmpty(c: Choice, s: State)
    ensures EnvIssues(c, s) == [] <==> EnvAgrees(c, s)
  {
  }

  lemma ModuleSectionEmpty(c: Choice, module_: string)
    ensures ModuleIssues(c, module_, ORM_CHOICES) == [] <==> ModuleAgrees(c.orm, module_)
  {
    EveryChoiceListed();
    ModuleIssuesEmpty(c, module_, ORM_CHOICES);
  }

  /** The checker lists no issue exactly when the project agrees with the selection. */
  lemma NoIssuesIffConsistent(c: Choice, s: State)
    ensures ScaffoldIssues(c, s) == [] <==> Consistent(c, s)
  {
    HeaderIssuesEmpty(c, s);
    PackageIssuesEmpty(c, s);
    FileIssuesEmpty(c, s.files);
    ModuleSectionEmpty(c, s.rdbModule);
    EnvIssuesEmpty(c, s);
    ComposeIssuesEmpty(c.database, s.compose);
    TestIssuesEmpty(c.database, s.testCompose);
    AllSections(HeaderIssues(c, s), PackageIssues(c, s), FileIssues(c, s.files),
                ModuleIssues(c, s.rdbModule, ORM_CHOICES),
                EnvIssues(c, s), BaseComposeIssues(c.database, s.compose),
                  TestComposeIssues(c.database, s.testCompose));
  }

  lemma AllSections(a: seq<Issue>, b: seq<Issue>, c: seq<Issue>, d: seq<Issue>, e: seq<Issue>, f: seq<Issue>,
                    g: seq<Issue>)
    ensures a + b + c + d + e + f + g == []
       <==> a == [] && b == [] && c == [] && d == [] && e == [] && f == [] && g == []
  {
  }

  /** No project passes for two selections. */
  lemma AtMostOneSelection(a: Choice, b: Choice, s: State)
    ensures ScaffoldIssues(a, s) == [] && ScaffoldIssues(b, s) == [] ==> a == b
  {
    NoIssuesIffConsistent(a, s);
    NoIssuesIffConsistent(b, s);
    if Consistent(a, s) && Consistent(b, s) {
      assert Includes(s.rdbModule, Marker(b.orm));
      assert Has(FileServices(s.compose).value, b.database.Name());
    }
  }
}
