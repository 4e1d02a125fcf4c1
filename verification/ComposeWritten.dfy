/** What the compose step writes: the dependency, the volume, the service and the URL of the new database, value by
    value. */
module ComposeWritten {
  import opened ComposeAgreement
  import opened ComposeGenerator
  import opened ComposeLaws
  import opened ComposeStays
  import opened ComposeUrl
  import opened ComposeUrlRoom
  import opened OrderedMap
  import opened Results
  import opened Selection
  import opened TestComposeGenerator
  import opened Yaml

  // ----- the dependency -----

  lemma {:induction false} RemoveKeepsIn(m: Entries, key: string, e: Entry<Node>)
    requires e.key != key
    ensures e in m <==> e in Remove(m, key)
  {
    if m != [] {
      RemoveKeepsIn(m[1..], key, e);
      assert m == [m[0]] + m[1..];
    }
  }

  lemma RewrittenDependency(app: Entries, current: string, m: Materialization)
    requires Has(app, "depends_on") && Get(app, "depends_on").Map? && Has(Get(app, "depends_on").entries, current)
    ensures var r, healthy := RewrittenApp(app, current, m), Map([Entry("condition", Str("service_healthy"))]);
            && Has(r, "depends_on") && Get(r, "depends_on").Map?
            && Entry(m.name, healthy) in Get(r, "depends_on").entries
            && (Fresh(Get(app, "depends_on").entries, current, m.name) ==>
                  && Has(Get(r, "depends_on").entries, m.name)
                  && Get(Get(r, "depends_on").entries, m.name) == healthy)
  {
    AppLookups(app, current, m);
    var dep := Get(app, "depends_on").entries;
    var r := Renamed(dep, current, m.name, HEALTHY);
    assert r[Find(dep, current)] == Entry(m.name, Map([Entry("condition", Str("service_healthy"))]));
    if Fresh(dep, current, m.name) {
      RenamedTwice(dep, current, m.name, HEALTHY, m.name, HEALTHY);
    }
  }

  lemma StepDependency(root: Node, m: Materialization, url: string)
    requires Accepts(root) && IsRdb(m.name) && m.name != URL_KEY
    requires WithDatabaseUrlCompose(Generate(root, m).value, url).Readable?
    ensures var out := WithDatabaseUrlCompose(Generate(root, m).value, url).root;
            var healthy := Map([Entry("condition", Str("service_healthy"))]);
            && Shaped(out) && Fits(root, Current(root))
            && Entry(m.name, healthy) in Get(App(out), "depends_on").entries
            && (TargetFresh(root, Current(root), m.name) ==>
                  GetIn(out, ["services", "app", "depends_on", m.name]) == Some(healthy))
  {
    var x := Generate(root, m).value;
    var out := WithDatabaseUrlCompose(x, url).root;
    var healthy := Map([Entry("condition", Str("service_healthy"))]);
    AcceptsIff(root);
    StepStays(root, m, url);
    StepParts(root, m, url);
    RewrittenDependency(App(root), Current(root), m);
    var before, after := Get(App(x), "depends_on").entries, Get(App(out), "depends_on").entries;
    RemoveKeepsIn(before, URL_KEY, Entry(m.name, healthy));
    RemoveKeepsIn(after, URL_KEY, Entry(m.name, healthy));
    LookUpLeaf(before, after, URL_KEY, m.name);
    InAppMap(out, "depends_on", m.name);
  }

  /** The parts of the rewritten tree and of the written one, level by level. */
  lemma StepParts(root: Node, m: Materialization, url: string)
    requires Accepts(root) && IsRdb(m.name) && WithDatabaseUrlCompose(Generate(root, m).value, url).Readable?
    ensures var current, x, out := Current(root), Generate(root, m).value,
            WithDatabaseUrlCompose(Generate(root, m).value, url).root;
            && Fits(root, current) && HasApp(root) && Shaped(x) && Shaped(out)
            && App(x) == RewrittenApp(App(root), current, m)
            && Get(x.entries, "volumes") == Map(RenamedVolumes(Get(root.entries, "volumes").entries, current, m))
            && SameBut(Get(App(x), "depends_on").entries, Get(App(out), "depends_on").entries, 0, URL_KEY)
            && SameBut(Get(x.entries, "volumes").entries, Get(out.entries, "volumes").entries, 2, URL_KEY)
            && SameBut(AppEnvironment(App(x)), AppEnvironment(App(out)), 0, URL_KEY)
  {
    AcceptsIff(root);
    var i := AcceptedSetTo(root);
    var x := Generate(root, m).value;
    RootLookups(root, Current(root), m);
    ServicesLookups(Get(root.entries, "services").entries, i, m);
    AppLookups(App(root), Current(root), m);
    UrlEditTouchesOnlyUrl(x, url);
    AppShapes(x, WithDatabaseUrlCompose(x, url).root);
  }

  lemma InAppMap(root: Node, part: string, key: string)
    requires HasApp(root) && Has(App(root), part) && Get(App(root), part).Map?
    ensures GetIn(root, ["services", "app", part, key])
         == if Has(Get(App(root), part).entries, key) then Some(Get(Get(App(root), part).entries, key)) else None
  {
    var services := Get(root.entries, "services");
    assert ["services", "app", part, key] == ["services"] + ["app", part, key];
    assert ["app", part, key] == ["app"] + [part, key] && [part, key] == [part] + [key];
    GetInStep(root, "services", ["app", part, key]);
    GetInStep(services, "app", [part, key]);
    GetInStep(Map(App(root)), part, [key]);
    TopPath(Get(App(root), part), key);
  }

  // ----- the volume -----

  lemma InTopMap(root: Node, part: string, key: string)
    requires root.Map? && Has(root.entries, part) && Get(root.entries, part).Map?
    ensures GetIn(root, [part, key])
         == if Has(Get(root.entries, part).entries, key) then Some(Get(Get(root.entries, part).entries, key)) else None
  {
    assert [part, key] == [part] + [key];
    GetInStep(root, part, [key]);
    TopPath(Get(root.entries, part), key);
  }

  /** A node that is kept, but for `DATABASE_URL` entries below it. */
  ghost predicate SameNode(v: Node, w: Node, depth: nat) {
    v == w || (v.Map? && w.Map? && SameBut(v.entries, w.entries, depth, URL_KEY))
  }

  lemma StepVolume(root: Node, m: Materialization, url: string)
    requires Accepts(root) && IsRdb(m.name) && Fits(root, Current(root)) && TargetFresh(root, Current(root), m.name)
    requires WithDatabaseUrlCompose(Generate(root, m).value, url).Readable?
    ensures var old_, new_ := GetIn(root, ["volumes", Current(root) + "-data"]),
                GetIn(WithDatabaseUrlCompose(Generate(root, m).value, url).root, ["volumes", m.name + "-data"]);
            old_.Some? && new_.Some? && SameNode(old_.value, new_.value, 1)
  {
    var current, x := Current(root), Generate(root, m).value;
    var out, volumes := WithDatabaseUrlCompose(x, url).root, Get(root.entries, "volumes").entries;
    StepParts(root, m, url);
    var data := Get(volumes, current + "-data");
    RenamedTwice(volumes, current + "-data", m.name + "-data", data, m.name + "-data", data);
    var before := Get(x.entries, "volumes").entries;
    assert before[Find(volumes, current + "-data")] == Entry(m.name + "-data", data);
    LookUpInner(before, Get(out.entries, "volumes").entries, 2, URL_KEY, m.name + "-data");
    InTopMap(root, "volumes", current + "-data");
    InTopMap(out, "volumes", m.name + "-data");
  }

  // ----- the service -----

  /** The edit leaves alone what it does not pass through. */
  lemma EntryUntouched(m: Entries, depth: nat, found: string, edit: Edit, name: string)
    requires depth > 0 && HasDeep(m, depth, found) && Has(m, name) && !Hit(m[Find(m, name)], depth, found)
    ensures var r := EditDeep(m, depth, found, edit); Has(r, name) && Get(r, name) == Get(m, name)
  {
    FirstHits(m, depth, found);
    SameKeysSameFind(m, EditDeep(m, depth, found, edit), name);
  }

  lemma ServiceUntouched(m: Entries, found: string, edit: Edit, name: string)
    requires HasDeep(m, 3, found) && Has(m, "services") && Get(m, "services").Map?
    requires Has(Get(m, "services").entries, name)
    requires !Hit(Get(m, "services").entries[Find(Get(m, "services").entries, name)], 2, found)
    ensures var r := EditDeep(m, 3, found, edit);
            && Has(r, "services") && Get(r, "services").Map? && Has(Get(r, "services").entries, name)
            && Get(Get(r, "services").entries, name) == Get(Get(m, "services").entries, name)
  {
    FirstHits(m, 3, found);
    var r := EditDeep(m, 3, found, edit);
    SameKeysSameFind(m, r, "services");
    if First(m, 3, found) == Find(m, "services") {
      EntryUntouched(Get(m, "services").entries, 2, found, edit, name);
    }
  }

  /** No key on the way is the one that the edit looks for. */
  lemma ServiceMissed(m: Entries, name: string)
    requires Has(m, "services") && Get(m, "services").Map? && Has(Get(m, "services").entries, name)
    requires NoUrl(Get(Get(m, "services").entries, name))
    ensures var e := Get(m, "services").entries[Find(Get(m, "services").entries, name)];
            !Hit(e, 2, URL_KEY) && !Hit(e, 2, ANCHOR_KEY)
  {
  }

  lemma EditLeavesService(x: Node, url: string, name: string)
    requires x.Map? && Has(x.entries, "services") && Get(x.entries, "services").Map?
    requires Has(Get(x.entries, "services").entries, name) && NoUrl(Get(Get(x.entries, "services").entries, name))
    requires WithDatabaseUrlCompose(x, url).Readable?
    ensures GetIn(WithDatabaseUrlCompose(x, url).root, ["services", name])
         == Some(Get(Get(x.entries, "services").entries, name))
  {
    ServiceMissed(x.entries, name);
    if HasDeep(x.entries, 3, URL_KEY) {
      ServiceUntouched(x.entries, URL_KEY, Overwrite(Str(url)), name);
    } else if HasDeep(x.entries, 3, ANCHOR_KEY) {
      ServiceUntouched(x.entries, ANCHOR_KEY, InsertAfter(URL_KEY, Str(url)), name);
    }
    InTopMap(WithDatabaseUrlCompose(x, url).root, "services", name);
  }

  lemma StepService(root: Node, m: Materialization, url: string)
    requires Accepts(root) && RowSet(m) && WithDatabaseUrlCompose(Generate(root, m).value, url).Readable?
    ensures GetIn(WithDatabaseUrlCompose(Generate(root, m).value, url).root, ["services", m.name]) == Some(m.service)
  {
    var i := AcceptedSetTo(root);
    AcceptsIff(root);
    RootLookups(root, Current(root), m);
    ServicesLookups(Get(root.entries, "services").entries, i, m);
    EditLeavesService(Generate(root, m).value, url, m.name);
  }

  // ----- the address settings of the app -----

  lemma StepEnvironment(root: Node, m: Materialization)
    requires Accepts(root) && IsRdb(m.name)
    ensures HasApp(root) && Generate(root, m).Success? && HasApp(Generate(root, m).value)
    ensures AppEnvironment(App(Generate(root, m).value)) == RewrittenEnvironment(AppEnvironment(App(root)), m)
  {
    var i := AcceptedSetTo(root);
    AcceptsIff(root);
    RootLookups(root, Current(root), m);
    ServicesLookups(Get(root.entries, "services").entries, i, m);
    AppLookups(App(root), Current(root), m);
  }

  lemma StepSetting(root: Node, m: Materialization, url: string, environment: Entries, key: string)
    requires Accepts(root) && IsRdb(m.name) && WithDatabaseUrlCompose(Generate(root, m).value, url).Readable?
    requires HasApp(root) && environment == RewrittenEnvironment(AppEnvironment(App(root)), m)
    requires key != URL_KEY && Has(environment, key)
    ensures GetIn(WithDatabaseUrlCompose(Generate(root, m).value, url).root, ["services", "app", "environment", key])
         == Some(Get(environment, key))
  {
    var out := WithDatabaseUrlCompose(Generate(root, m).value, url).root;
    StepParts(root, m, url);
    StepEnvironment(root, m);
    LookUpLeaf(environment, AppEnvironment(App(out)), URL_KEY, key);
    InAppMap(out, "environment", key);
  }

  // ----- the rows of the table, word by word -----

  lemma {:induction false} TwoTexts(m: seq<Node>, a: string, b: string)
    requires |m| == 2 && m[0] == Str(a) && m[1] == Str(b)
    ensures m == [Str(a), Str(b)]
  {
  }

  lemma OneText(text: string)
    ensures Texts([text]) == Items([Str(text)])
  {
    assert Texts([text]).items == [Str(text)];
  }

  lemma PostgresSettings()
    ensures ServiceEnvironment(Postgres)
         == Map([Entry("POSTGRES_DB", Str("${DB_DATABASE:-app}")), Entry("POSTGRES_USER", Str("${DB_USERNAME:-app}")),
                 Entry("POSTGRES_PASSWORD", Str("${DB_PASSWORD:-app}"))])
  {
    var r := ServiceEnvironment(Postgres).entries;
    assert "POSTGRES_" + "DB" == "POSTGRES_DB" && "POSTGRES_" + "USER" == "POSTGRES_USER";
    assert "POSTGRES_" + "PASSWORD" == "POSTGRES_PASSWORD";
    assert r == [r[0], r[1], r[2]];
  }

  lemma MysqlSettings()
    ensures ServiceEnvironment(Mysql)
         == Map([Entry("MYSQL_DATABASE", Str("${DB_DATABASE:-app}")), Entry("MYSQL_USER", Str("${DB_USERNAME:-app}")),
                 Entry("MYSQL_PASSWORD", Str("${DB_PASSWORD:-app}")),
                 Entry("MYSQL_ROOT_PASSWORD", Str("${DB_ROOT_PASSWORD:-root}"))])
  {
    var r := ServiceEnvironment(Mysql).entries;
    assert "MYSQL_" + "DATABASE" == "MYSQL_DATABASE" && "MYSQL_" + "USER" == "MYSQL_USER";
    assert "MYSQL_" + "PASSWORD" == "MYSQL_PASSWORD" && "MYSQL_" + "ROOT_PASSWORD" == "MYSQL_ROOT_PASSWORD";
    assert r == [r[0], r[1], r[2], r[3]];
  }

  lemma MariadbSettings()
    ensures ServiceEnvironment(Mariadb)
         == Map([Entry("MARIADB_DATABASE", Str("${DB_DATABASE:-app}")),
                 Entry("MARIADB_USER", Str("${DB_USERNAME:-app}")),
                 Entry("MARIADB_PASSWORD", Str("${DB_PASSWORD:-app}")),
                 Entry("MARIADB_ROOT_PASSWORD", Str("${DB_ROOT_PASSWORD:-root}"))])
  {
    var r := ServiceEnvironment(Mariadb).entries;
    assert "MARIADB_" + "DATABASE" == "MARIADB_DATABASE" && "MARIADB_" + "USER" == "MARIADB_USER";
    assert "MARIADB_" + "PASSWORD" == "MARIADB_PASSWORD" && "MARIADB_" + "ROOT_PASSWORD" == "MARIADB_ROOT_PASSWORD";
    assert r == [r[0], r[1], r[2], r[3]];
  }

  const MYSQL_PING := "mysqladmin ping -h 127.0.0.1" + " -u\"$$MYSQL_USER\" --password=\"$$MYSQL_PASSWORD\""
  const POSTGRES_READY := "pg_isready -U ${DB_USERNAME:-app}" + " -d ${DB_DATABASE:-app}"

  /** How a container is asked whether it is healthy. */
  lemma HealthTests()
    ensures HealthTest(Postgres) == Items([Str("CMD-SHELL"), Str(POSTGRES_READY)])
    ensures HealthTest(Mysql) == Items([Str("CMD-SHELL"), Str(MYSQL_PING)])
    ensures HealthTest(Mariadb)
         == Items([Str("CMD"), Str("healthcheck.sh"), Str("--connect"), Str("--innodb_initialized")])
  {
    PostgresTest();
    MysqlTest();
    MariadbTest();
  }

  lemma PostgresTest()
    ensures HealthTest(Postgres) == Items([Str("CMD-SHELL"), Str(POSTGRES_READY)])
  {
    assert HealthWord(Postgres, 1) == POSTGRES_READY;
    assert HealthTest(Postgres).items == [Str("CMD-SHELL"), Str(POSTGRES_READY)];
  }

  lemma MysqlTest()
    ensures HealthTest(Mysql) == Items([Str("CMD-SHELL"), Str(MYSQL_PING)])
  {
    assert HealthWord(Mysql, 1) == MYSQL_PING;
    assert HealthTest(Mysql).items == [Str("CMD-SHELL"), Str(MYSQL_PING)];
  }

  lemma MariadbTest()
    ensures HealthTest(Mariadb)
         == Items([Str("CMD"), Str("healthcheck.sh"), Str("--connect"), Str("--innodb_initialized")])
  {
    assert HealthTest(Mariadb).items
        == [Str("CMD"), Str("healthcheck.sh"), Str("--connect"), Str("--innodb_initialized")];
  }

  lemma Mounts(d: Database)
    ensures DataPath(d) == if d == Postgres then "/var/lib/postgresql/data" else "/var/lib/mysql"
  {
  }

  lemma Publishes(d: Database)
    ensures "${DB_HOST_PORT:-" + Port(d) + "}:" + Port(d)
         == if d == Postgres then "${DB_HOST_PORT:-5432}:5432" else "${DB_HOST_PORT:-3306}:3306"
  {
  }

  /** What a container declares: the settings that create the database and its user. */
  function DeclaredSettings(d: Database): Entries {
    match d
    case Postgres =>
      [Entry("POSTGRES_DB", Str("${DB_DATABASE:-app}")), Entry("POSTGRES_USER", Str("${DB_USERNAME:-app}")),
       Entry("POSTGRES_PASSWORD", Str("${DB_PASSWORD:-app}"))]
    case Mysql =>
      [Entry("MYSQL_DATABASE", Str("${DB_DATABASE:-app}")), Entry("MYSQL_USER", Str("${DB_USERNAME:-app}")),
       Entry("MYSQL_PASSWORD", Str("${DB_PASSWORD:-app}")),
       Entry("MYSQL_ROOT_PASSWORD", Str("${DB_ROOT_PASSWORD:-root}"))]
    case Mariadb =>
      [Entry("MARIADB_DATABASE", Str("${DB_DATABASE:-app}")), Entry("MARIADB_USER", Str("${DB_USERNAME:-app}")),
       Entry("MARIADB_PASSWORD", Str("${DB_PASSWORD:-app}")),
       Entry("MARIADB_ROOT_PASSWORD", Str("${DB_ROOT_PASSWORD:-root}"))]
  }

  function DeclaredTest(d: Database): seq<Node> {
    match d
    case Postgres => [Str("CMD-SHELL"), Str(POSTGRES_READY)]
    case Mysql => [Str("CMD-SHELL"), Str(MYSQL_PING)]
    case Mariadb => [Str("CMD"), Str("healthcheck.sh"), Str("--connect"), Str("--innodb_initialized")]
  }

  function Published(d: Database): string {
    if d == Postgres then "${DB_HOST_PORT:-5432}:5432" else "${DB_HOST_PORT:-3306}:3306"
  }

  function Image(d: Database): string {
    match d
    case Postgres => "postgres:17-alpine"
    case Mysql => "mysql:8.4"
    case Mariadb => "mariadb:lts"
  }

  function Mounted(d: Database): string {
    d.Name() + "-data:" + if d == Postgres then "/var/lib/postgresql/data" else "/var/lib/mysql"
  }

  function DeclaredHealth(d: Database): Node {
    Map([Entry("test", Items(DeclaredTest(d))), Entry("interval", Str("10s")), Entry("timeout", Str("5s")),
         Entry("retries", Number(10))])
  }

  function DeclaredService(d: Database): Entries {
    [Entry("image", Str(Image(d))), Entry("restart", Str("unless-stopped")),
     Entry("environment", Map(DeclaredSettings(d))), Entry("ports", Items([Str(Published(d))])),
     Entry("volumes", Items([Str(Mounted(d))])), Entry("healthcheck", DeclaredHealth(d))]
  }

  lemma SameSettings(d: Database)
    ensures ServiceEnvironment(d) == Map(DeclaredSettings(d))
  {
    match d {
      case Postgres => PostgresSettings();
      case Mysql => MysqlSettings();
      case Mariadb => MariadbSettings();
    }
  }

  lemma SameTest(d: Database)
    ensures HealthTest(d) == Items(DeclaredTest(d))
  {
    HealthTests();
  }

  lemma SamePlaces(d: Database)
    ensures Texts(["${DB_HOST_PORT:-" + Port(d) + "}:" + Port(d)]) == Items([Str(Published(d))])
    ensures Texts([d.Name() + "-data:" + DataPath(d)]) == Items([Str(Mounted(d))]) && ImageOf(d) == Image(d)
  {
    Publishes(d);
    Mounts(d);
    OneText("${DB_HOST_PORT:-" + Port(d) + "}:" + Port(d));
    OneText(d.Name() + "-data:" + DataPath(d));
  }

  lemma ServiceParts(image: Node, environment: Node, ports: Node, volumes: Node, test: Node)
    ensures Service(image, environment, ports, volumes, test)
         == Map([Entry("image", image), Entry("restart", Str("unless-stopped")), Entry("environment", environment),
                 Entry("ports", ports), Entry("volumes", volumes),
                 Entry("healthcheck", Map([Entry("test", test), Entry("interval", Str("10s")),
                                           Entry("timeout", Str("5s")), Entry("retries", Number(10))]))])
  {
  }

  lemma RowIsDeclared(d: Database)
    ensures ComposeService(d) == Map(DeclaredService(d))
  {
    SameSettings(d);
    SameTest(d);
    SamePlaces(d);
    ServiceParts(Str(ImageOf(d)), ServiceEnvironment(d), Texts(["${DB_HOST_PORT:-" + Port(d) + "}:" + Port(d)]),
                 Texts([d.Name() + "-data:" + DataPath(d)]), HealthTest(d));
  }

  // ----- the file that the script writes -----

  /** The dependency of the app on its database, in every file that is written; when no other dependency had the
      name it is the one that a lookup finds. */
  lemma DependencyWritten(file: File, d: Database)
    requires GeneratedCompose(file, d).Success? && GeneratedCompose(file, d).value.Readable?
    ensures var out := GeneratedCompose(file, d).value.root;
            var healthy := Map([Entry("condition", Str("service_healthy"))]);
            && Shaped(out) && Fits(file.root, Current(file.root))
            && Entry(d.Name(), healthy) in Get(App(out), "depends_on").entries
            && (TargetFresh(file.root, Current(file.root), d.Name()) ==>
                  GetIn(out, ["services", "app", "depends_on", d.Name()]) == Some(healthy))
  {
    NameIsRdb(d);
    RdbKeysDiffer(d);
    StepDependency(file.root, MaterializationOf(d), DockerUrl(d));
  }

  /** The data volume is the old one under its new name. */
  lemma VolumeWritten(file: File, d: Database)
    requires ComposeSelectable(file, d)
    requires GeneratedCompose(file, d).Success? && GeneratedCompose(file, d).value.Readable?
    ensures var out := GeneratedCompose(file, d).value.root;
            var kept := GetIn(file.root, ["volumes", Current(file.root) + "-data"]);
            var renamed := GetIn(out, ["volumes", d.Name() + "-data"]);
            kept.Some? && renamed.Some? && SameNode(kept.value, renamed.value, 1)
  {
    NameIsRdb(d);
    StepVolume(file.root, MaterializationOf(d), DockerUrl(d));
  }

  /** The service of the selected database is written as its image asks for it, key by key. */
  lemma ServiceWritten(file: File, d: Database)
    requires GeneratedCompose(file, d).Success? && GeneratedCompose(file, d).value.Readable?
    ensures GetIn(GeneratedCompose(file, d).value.root, ["services", d.Name()]) == Some(Map(DeclaredService(d)))
  {
    RowIsSet(d);
    RowIsDeclared(d);
    StepService(file.root, MaterializationOf(d), DockerUrl(d));
  }

  /** The address settings of the app name that service and its port. */
  lemma SettingsWritten(file: File, d: Database)
    requires GeneratedCompose(file, d).Success? && GeneratedCompose(file, d).value.Readable?
    ensures var out := GeneratedCompose(file, d).value.root;
            && GetIn(out, ["services", "app", "environment", "DB_TYPE"]) == Some(Str(d.Name()))
            && GetIn(out, ["services", "app", "environment", "DB_HOST"])
            == Some(Str("${DOCKER_DB_HOST:-" + d.Name() + "}"))
            && GetIn(out, ["services", "app", "environment", "DB_PORT"])
            == Some(Str(if d == Postgres then "${DB_PORT:-5432}" else "${DB_PORT:-3306}"))
  {
    var m := MaterializationOf(d);
    NameIsRdb(d);
    RdbKeysDiffer(d);
    PortSetting(d);
    AcceptsIff(file.root);
    var environment := RewrittenEnvironment(AppEnvironment(App(file.root)), m);
    EnvironmentLookups(AppEnvironment(App(file.root)), m);
    StepSetting(file.root, m, DockerUrl(d), environment, "DB_TYPE");
    StepSetting(file.root, m, DockerUrl(d), environment, "DB_HOST");
    StepSetting(file.root, m, DockerUrl(d), environment, "DB_PORT");
  }

  lemma PortSetting(d: Database)
    ensures "${DB_PORT:-" + Port(d) + "}" == if d == Postgres then "${DB_PORT:-5432}" else "${DB_PORT:-3306}"
  {
  }

  // ----- the URL names what the service declares -----

  /** The text at a path. */
  function TextAt(root: Node, path: seq<string>): string {
    var at := GetIn(root, path);
    if at.Some? && at.value.Str? then at.value.text else ""
  }

  function UserKey(d: Database): string {
    match d
    case Postgres => "POSTGRES_USER"
    case Mysql => "MYSQL_USER"
    case Mariadb => "MARIADB_USER"
  }

  function PasswordKey(d: Database): string {
    match d
    case Postgres => "POSTGRES_PASSWORD"
    case Mysql => "MYSQL_PASSWORD"
    case Mariadb => "MARIADB_PASSWORD"
  }

  function DatabaseKey(d: Database): string {
    match d
    case Postgres => "POSTGRES_DB"
    case Mysql => "MYSQL_DATABASE"
    case Mariadb => "MARIADB_DATABASE"
  }

  lemma DeclaredPlaces(d: Database)
    ensures Find(DeclaredSettings(d), DatabaseKey(d)) == 0 && Find(DeclaredSettings(d), UserKey(d)) == 1
    ensures Find(DeclaredSettings(d), PasswordKey(d)) == 2
  {
    var s := DeclaredSettings(d);
    var n := if d == Postgres then 9 else if d == Mysql then 6 else 8;
    assert s[0].key[n] == 'D' && s[1].key[n] == 'U' && s[2].key[n] == 'P';
    FindIs(s, DatabaseKey(d), 0);
    FindIs(s, UserKey(d), 1);
    FindIs(s, PasswordKey(d), 2);
  }

  lemma DeclaredEnvironment(d: Database)
    ensures Find(DeclaredService(d), "environment") == 2
  {
    assert "image"[0] == 'i' && "restart"[0] == 'r' && "environment"[0] == 'e';
    FindIs(DeclaredService(d), "environment", 2);
  }

  /** A setting of the service, read at its path. */
  lemma ServiceSetting(root: Node, name: string, service: Entries, settings: Entries, key: string)
    requires GetIn(root, ["services", name]) == Some(Map(service)) && Has(service, "environment")
    requires Get(service, "environment") == Map(settings) && Has(settings, key) && Get(settings, key).Str?
    ensures TextAt(root, ["services", name, "environment", key]) == Get(settings, key).text
  {
    assert ["services", name, "environment", key] == ["services"] + [name, "environment", key];
    assert [name, "environment", key] == [name] + ["environment", key];
    assert ["environment", key] == ["environment"] + [key] && ["services", name] == ["services"] + [name];
    GetInStep(root, "services", [name]);
    GetInStep(root, "services", [name, "environment", key]);
    TopPath(Get(root.entries, "services"), name);
    GetInStep(Get(root.entries, "services"), name, ["environment", key]);
    GetInStep(Map(service), "environment", [key]);
    TopPath(Map(settings), key);
  }

  lemma UserPiece()
    ensures URL_USER == "://" + "${DB_USERNAME:-app}" + ":" + "${DB_PASSWORD:-app}" + "@"
  {
    assert "://${DB_USERNAME:-app}" == "://" + "${DB_USERNAME:-app}";
    PasswordPiece("://${DB_USERNAME:-app}");
  }

  lemma PasswordPiece(before: string)
    ensures before + ":${DB_PASSWORD:-app}@" == before + ":" + "${DB_PASSWORD:-app}" + "@"
  {
    assert ":${DB_PASSWORD:-app}@" == ":" + "${DB_PASSWORD:-app}" + "@";
  }

  lemma PortPieces()
    ensures URL_HOST == "${DOCKER_DB_HOST:-" && URL_PORT == "}" + ":" + "${DB_PORT:-"
    ensures URL_DATABASE == "}" + "/" + "${DB_DATABASE:-app}"
  {
  }

  lemma Grouped(first: string, host: string, name: string, close: string, colon: string, port: string, number: string,
                slash: string, database: string)
    ensures first + host + name + (close + colon + port) + number + (close + slash + database)
         == first + (host + name + close) + colon + (port + number + close) + slash + database
  {
  }

  lemma UserGrouped(scheme: string, b: string, user: string, c: string, password: string, e: string)
    ensures scheme + (b + user + c + password + e) == scheme + b + user + c + password + e
  {
  }

  lemma UrlPieces(scheme: string, name: string, port: string)
    ensures scheme + URL_USER + URL_HOST + name + URL_PORT + port + URL_DATABASE
         == scheme + "://" + "${DB_USERNAME:-app}" + ":" + "${DB_PASSWORD:-app}" + "@"
              + ("${DOCKER_DB_HOST:-" + name + "}") + ":" + ("${DB_PORT:-" + port + "}") + "/" + "${DB_DATABASE:-app}"
  {
    UserPiece();
    PortPieces();
    var first := scheme + "://" + "${DB_USERNAME:-app}" + ":" + "${DB_PASSWORD:-app}" + "@";
    UserGrouped(scheme, "://", "${DB_USERNAME:-app}", ":", "${DB_PASSWORD:-app}", "@");
    Grouped(first, "${DOCKER_DB_HOST:-", name, "}", ":", "${DB_PORT:-", port, "/", "${DB_DATABASE:-app}");
  }

  /** The URL for a container is put together from what the same file says elsewhere: user, password and database as
      the service declares them, host and port as the app is told. */
  lemma UrlAgrees(file: File, d: Database)
    requires GeneratedCompose(file, d).Success? && GeneratedCompose(file, d).value.Readable?
    ensures var out := GeneratedCompose(file, d).value.root;
            DockerUrl(d) == (if d == Postgres then "postgresql" else "mysql") + "://"
              + TextAt(out, ["services", d.Name(), "environment", UserKey(d)]) + ":"
              + TextAt(out, ["services", d.Name(), "environment", PasswordKey(d)]) + "@"
              + TextAt(out, ["services", "app", "environment", "DB_HOST"]) + ":"
              + TextAt(out, ["services", "app", "environment", "DB_PORT"]) + "/"
              + TextAt(out, ["services", d.Name(), "environment", DatabaseKey(d)])
  {
    var out := GeneratedCompose(file, d).value.root;
    ServiceWritten(file, d);
    SettingsWritten(file, d);
    PortSetting(d);
    Credentials(out, d);
    UrlPieces(if d == Postgres then "postgresql" else "mysql", d.Name(), Port(d));
  }

  lemma Credentials(out: Node, d: Database)
    requires GetIn(out, ["services", d.Name()]) == Some(Map(DeclaredService(d)))
    ensures TextAt(out, ["services", d.Name(), "environment", UserKey(d)]) == "${DB_USERNAME:-app}"
    ensures TextAt(out, ["services", d.Name(), "environment", PasswordKey(d)]) == "${DB_PASSWORD:-app}"
    ensures TextAt(out, ["services", d.Name(), "environment", DatabaseKey(d)]) == "${DB_DATABASE:-app}"
  {
    DeclaredPlaces(d);
    DeclaredEnvironment(d);
    ServiceSetting(out, d.Name(), DeclaredService(d), DeclaredSettings(d), UserKey(d));
    ServiceSetting(out, d.Name(), DeclaredService(d), DeclaredSettings(d), PasswordKey(d));
    ServiceSetting(out, d.Name(), DeclaredService(d), DeclaredSettings(d), DatabaseKey(d));
  }

  /** The first `DATABASE_URL` line of the written file holds that URL, and there is one wherever there is a
      `DB_DATABASE` line. */
  lemma UrlWritten(file: File, d: Database)
    requires GeneratedCompose(file, d).Success? && GeneratedCompose(file, d).value.Readable?
    ensures var out := GeneratedCompose(file, d).value.root;
            && out.Map?
            && (Has(Deep(out.entries, 3), "DATABASE_URL") ==>
                  Get(Deep(out.entries, 3), "DATABASE_URL") == Str(DockerUrl(d)))
            && (Has(Deep(out.entries, 3), "DB_DATABASE") ==> Has(Deep(out.entries, 3), "DATABASE_URL"))
  {
    var x := Generate(file.root, MaterializationOf(d)).value;
    NameIsRdb(d);
    StepParts(file.root, MaterializationOf(d), DockerUrl(d));
    UrlEdited(x, DockerUrl(d));
  }

  lemma UrlEdited(x: Node, url: string)
    requires x.Map? && WithDatabaseUrlCompose(x, url).Readable?
    ensures var out := WithDatabaseUrlCompose(x, url).root;
            && out.Map?
            && (Has(Deep(out.entries, 3), "DATABASE_URL") ==> Get(Deep(out.entries, 3), "DATABASE_URL") == Str(url))
            && (Has(Deep(out.entries, 3), "DB_DATABASE") ==> Has(Deep(out.entries, 3), "DATABASE_URL"))
  {
    UrlEditIsOneLine(x, url);
    UrlLineHolds(Deep(x.entries, 3), Deep(WithDatabaseUrlCompose(x, url).root.entries, 3), url);
  }

  lemma UrlLineHolds(lines: Entries, r: Entries, url: string)
    requires var i, j := Find(lines, URL_KEY), Find(lines, ANCHOR_KEY);
             r == if i < |lines| then lines[i := Entry(URL_KEY, Str(url))]
                  else if j < |lines| then lines[..j + 1] + [Entry(URL_KEY, Str(url))] + lines[j + 1..]
                  else lines
    ensures Has(r, "DATABASE_URL") ==> Get(r, "DATABASE_URL") == Str(url)
    ensures Has(r, "DB_DATABASE") ==> Has(r, "DATABASE_URL")
  {
    var i, j := Find(lines, URL_KEY), Find(lines, ANCHOR_KEY);
    if i < |lines| {
      FindIs(r, URL_KEY, i);
    } else if j < |lines| {
      assert forall k :: 0 <= k <= j ==> r[k] == lines[k];
      FindIs(r, URL_KEY, j + 1);
    }
  }

  // ----- the test file -----

  lemma TestServiceAt(service: Entries, ports: Node, tmpfs: Node, key: string)
    ensures var r := TestService(service, ports, tmpfs);
            && (key == "ports" ==> Has(r, key) && Get(r, key) == ports)
            && (key == "tmpfs" ==> Has(r, key) && Get(r, key) == tmpfs)
            && (key == "restart" || key == "volumes" ==> !Has(r, key))
            && (key != "ports" && key != "tmpfs" && key != "restart" && key != "volumes" ==>
                  Has(r, key) == Has(service, key) && (Has(r, key) ==> Get(r, key) == Get(service, key)))
  {
    TestKeysDiffer();
    var r1 := Remove(service, "restart");
    var r2 := Remove(r1, "volumes");
    var r3 := Put(r2, "ports", ports);
    PutSame(r2, "ports", ports);
    PutSame(r3, "tmpfs", tmpfs);
    if key != "tmpfs" { PutOther(r3, "tmpfs", tmpfs, key); }
    if key != "ports" { PutOther(r2, "ports", ports, key); }
    if key != "volumes" { RemoveOther(r1, "volumes", key); }
    if key != "restart" { RemoveOther(service, "restart", key); }
  }

  lemma TestKeysDiffer()
    ensures "ports" != "tmpfs" && "ports" != "restart" && "ports" != "volumes"
    ensures "tmpfs" != "restart" && "tmpfs" != "volumes" && "restart" != "volumes"
  {
    assert "ports"[0] == 'p' && "tmpfs"[0] == 't' && "restart"[0] == 'r' && "volumes"[0] == 'v';
  }

  lemma TestPath(name: string, service: Entries, key: string)
    ensures GetIn(TestDocument(name, service), ["services", name, key])
         == if Has(service, key) then Some(Get(service, key)) else None
  {
    var services, document := [Entry(name, Map(service))], TestDocument(name, service);
    assert "name"[0] != "services"[0];
    FindIs(document.entries, "services", 1);
    FindIs(services, name, 0);
    assert ["services", name, key] == ["services"] + [name, key] && [name, key] == [name] + [key];
    GetInStep(document, "services", [name, key]);
    GetInStep(Map(services), name, [key]);
    TopPath(Map(service), key);
  }

  /** The isolated test service is the real one, on the test port and in memory, without a restart policy and
      without a volume. */
  lemma TestServiceWritten(d: Database, key: string)
    ensures GetIn(TestComposeOf(d), ["services", d.Name(), key])
         == (match key
             case "restart" | "volumes" => None
             case "ports" =>
               Some(Items([Str("${DB_TEST_HOST_PORT:-15432}:" + if d == Postgres then "5432" else "3306")]))
             case "tmpfs" => Some(Items([Str(if d == Postgres then "/var/lib/postgresql/data" else "/var/lib/mysql")]))
             case _ => if Has(DeclaredService(d), key) then Some(Get(DeclaredService(d), key)) else None)
  {
    RowIsDeclared(d);
    Mounts(d);
    OneText("${DB_TEST_HOST_PORT:-15432}:" + Port(d));
    OneText(DataPath(d));
    TestServiceAt(DeclaredService(d), TestPorts(d), Texts([DataPath(d)]), key);
    TestPath(d.Name(), TestService(DeclaredService(d), TestPorts(d), Texts([DataPath(d)])), key);
  }

  /** The project name keeps it apart from the development database. */
  lemma TestNameWritten(d: Database)
    ensures GetIn(TestComposeOf(d), ["name"]) == Some(Str("barebones-test"))
  {
    FindIs(TestComposeOf(d).entries, "name", 0);
    TopPath(TestComposeOf(d), "name");
  }
}
