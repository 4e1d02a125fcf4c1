/** Laws of the compose rewriting: the last selection wins, nothing else moves, and the file can be
    parsed back exactly when the target's names were fresh. */
module ComposeLaws {
  import opened ComposeGenerator
  import opened OrderedMap
  import opened Results
  import opened Selection
  import opened Yaml

  // ----- the generator's table -----

  function Texts(xs: seq<string>): Node {
    Items(seq(|xs|, i requires 0 <= i < |xs| => Str(xs[i])))
  }

  function ImageOf(d: Database): string {
    match d
    case Postgres => "postgres:17-alpine"
    case Mysql => "mysql:8.4"
    case Mariadb => "mariadb:lts"
  }

  function DataPath(d: Database): string {
    if d == Postgres then "/var/lib/postgresql/data" else "/var/lib/mysql"
  }

  function Prefix(d: Database): string {
    match d
    case Postgres => "POSTGRES_"
    case Mysql => "MYSQL_"
    case Mariadb => "MARIADB_"
  }

  /** The settings of a database image: its name, user, password and, but for postgres, root password. */
  function Setting(d: Database, i: nat): Entry<Node> {
    if i == 0 then Entry(Prefix(d) + (if d == Postgres then "DB" else "DATABASE"), Str("${DB_DATABASE:-app}"))
    else if i == 1 then Entry(Prefix(d) + "USER", Str("${DB_USERNAME:-app}"))
    else if i == 2 then Entry(Prefix(d) + "PASSWORD", Str("${DB_PASSWORD:-app}"))
    else Entry(Prefix(d) + "ROOT_PASSWORD", Str("${DB_ROOT_PASSWORD:-root}"))
  }

  function ServiceEnvironment(d: Database): Node {
    Map(seq(if d == Postgres then 3 else 4, i requires 0 <= i => Setting(d, i)))
  }

  /** The words of the health test. */
  function HealthWord(d: Database, i: nat): string {
    match d
    case Postgres => if i == 0 then "CMD-SHELL" else "pg_isready -U ${DB_USERNAME:-app}" + " -d ${DB_DATABASE:-app}"
    case Mysql =>
      if i == 0 then "CMD-SHELL"
      else "mysqladmin ping -h 127.0.0.1" + " -u\"$$MYSQL_USER\" --password=\"$$MYSQL_PASSWORD\""
    case Mariadb =>
      if i == 0 then "CMD" else if i == 1 then "healthcheck.sh"
      else if i == 2 then "--connect" else "--innodb_initialized"
  }

  function HealthTest(d: Database): Node {
    Items(seq(if d == Mariadb then 4 else 2, i requires 0 <= i => Str(HealthWord(d, i))))
  }

  function Healthcheck(test: Node): Node {
    Map([Entry("test", test), Entry("interval", Str("10s")), Entry("timeout", Str("5s")), Entry("retries", Number(10))])
  }

  function Service(image: Node, environment: Node, ports: Node, volumes: Node, test: Node): Node {
    Map([Entry("image", image), Entry("restart", Str("unless-stopped")), Entry("environment", environment),
         Entry("ports", ports), Entry("volumes", volumes),
         Entry("healthcheck", Healthcheck(test))])
  }

  function ComposeService(d: Database): Node {
    Service(Str(ImageOf(d)), ServiceEnvironment(d), Texts(["${DB_HOST_PORT:-" + Port(d) + "}:" + Port(d)]),
            Texts([d.Name() + "-data:" + DataPath(d)]), HealthTest(d))
  }

  function MaterializationOf(d: Database): Materialization {
    Materialization(d.Name(), ComposeService(d), d.Name(), Port(d))
  }

  lemma TextsUnique(xs: seq<string>)
    ensures UniqueKeys(Texts(xs))
  {
  }

  lemma HealthcheckUnique(test: Node)
    requires UniqueKeys(test)
    ensures UniqueKeys(Healthcheck(test))
  {
    var health := Healthcheck(test).entries;
    assert "test"[0] == 't' && "test"[1] == 'e' && "timeout"[1] == 'i' && "interval"[0] == 'i' && "retries"[0] == 'r';
    assert forall i, j :: 0 <= i < j < 4 ==> health[i].key != health[j].key;
  }

  lemma ServiceUnique(image: Node, environment: Node, ports: Node, volumes: Node, test: Node)
    requires UniqueKeys(image) && UniqueKeys(environment) && UniqueKeys(ports) && UniqueKeys(volumes)
    requires UniqueKeys(test)
    ensures UniqueKeys(Service(image, environment, ports, volumes, test))
  {
    HealthcheckUnique(test);
    SixUnique(Entry("image", image), Entry("restart", Str("unless-stopped")), Entry("environment", environment),
              Entry("ports", ports), Entry("volumes", volumes), Entry("healthcheck", Healthcheck(test)));
  }

  /** Keys that start with six different letters. */
  lemma SixUnique(a: Entry<Node>, b: Entry<Node>, c: Entry<Node>, d: Entry<Node>, e: Entry<Node>, f: Entry<Node>)
    requires a.key == "image" && b.key == "restart" && c.key == "environment" && d.key == "ports" && e.key == "volumes"
    requires f.key == "healthcheck"
    requires UniqueKeys(a.value) && UniqueKeys(b.value) && UniqueKeys(c.value) && UniqueKeys(d.value)
    requires UniqueKeys(e.value) && UniqueKeys(f.value)
    ensures UniqueKeys(Map([a, b, c, d, e, f]))
  {
    assert a.key[0] == 'i' && b.key[0] == 'r' && c.key[0] == 'e' && d.key[0] == 'p' && e.key[0] == 'v'
           && f.key[0] == 'h';
  }

  lemma SettingsDiffer(d: Database, i: nat, j: nat)
    requires i < j < 4
    ensures Setting(d, i).key != Setting(d, j).key && UniqueKeys(Setting(d, i).value) && UniqueKeys(Setting(d, j).value)
  {
    var n := |Prefix(d)|;
    assert |Setting(d, i).key| > n && |Setting(d, j).key| > n && Setting(d, i).key[n] != Setting(d, j).key[n];
  }

  lemma EnvironmentUnique(d: Database)
    ensures UniqueKeys(ServiceEnvironment(d))
  {
    var m := ServiceEnvironment(d).entries;
    forall i, j | 0 <= i < j < |m| ensures m[i].key != m[j].key && UniqueKeys(m[i].value) && UniqueKeys(m[j].value) {
      SettingsDiffer(d, i, j);
    }
    assert UniqueKeys(m[0].value) by { SettingsDiffer(d, 0, 1); }
  }

  lemma HealthTestUnique(d: Database)
    ensures UniqueKeys(HealthTest(d))
  {
  }

  lemma NameIsRdb(d: Database)
    ensures IsRdb(MaterializationOf(d).name)
  {
    NamesDiffer(d, d);
  }

  /** Everything the laws below need to know about a row of the table. */
  lemma MaterializationFits(d: Database)
    ensures IsRdb(MaterializationOf(d).name) && UniqueKeys(MaterializationOf(d).service)
  {
    NameIsRdb(d);
    EnvironmentUnique(d);
    HealthTestUnique(d);
    TextsUnique(["${DB_HOST_PORT:-" + Port(d) + "}:" + Port(d)]);
    TextsUnique([d.Name() + "-data:" + DataPath(d)]);
    ServiceUnique(Str(ImageOf(d)), ServiceEnvironment(d), Texts(["${DB_HOST_PORT:-" + Port(d) + "}:" + Port(d)]),
                  Texts([d.Name() + "-data:" + DataPath(d)]), HealthTest(d));
  }

  // ----- the laws -----

  lemma AcceptedSetTo(root: Node) returns (i: nat)
    requires Accepts(root)
    ensures Services(root).Some? && |RdbKeys(Services(root).value)| == 1 && SetTo(root, Current(root), i)
    ensures UniqueKeys(root)
  {
    AcceptsIff(root);
    TopPath(root, "services");
    i := RdbKeyPlace(Services(root).value);
  }

  lemma SetToAccepted(root: Node, current: string, i: nat)
    requires SetTo(root, current, i)
    ensures Services(root).Some? && RdbKeys(Services(root).value) == [Rdb(current)] && Current(root) == current
    ensures Accepts(root) <==> UniqueKeys(root)
  {
    TopPath(root, "services");
    OneRdbKey(Services(root).value, i);
    AcceptsIff(root);
  }

  /** After the rewriting the target is the only RDB service, and its body is the target's. */
  lemma OnlyTargetRemains(root: Node, m: Materialization)
    requires Accepts(root) && IsRdb(m.name)
    ensures Generate(root, m).Success?
    ensures var services := Services(Generate(root, m).value);
            services.Some? && RdbKeys(services.value) == [Rdb(m.name)] && Has(services.value, m.name)
            && Get(services.value, m.name) == m.service
  {
    var i := AcceptedSetTo(root);
    AcceptsIff(root);
    RootLookups(root, Current(root), m);
    ServicesLookups(Get(root.entries, "services").entries, i, m);
    TopPath(Rewritten(root, Current(root), m), "services");
  }

  /** The rewritten file can be read again exactly when no other entry already had the target's name. */
  lemma ReadableIff(root: Node, m: Materialization)
    requires Accepts(root) && IsRdb(m.name) && UniqueKeys(m.service)
    ensures Fits(root, Current(root))
    ensures UniqueKeys(Generate(root, m).value) <==> TargetFresh(root, Current(root), m.name)
  {
    var i := AcceptedSetTo(root);
    RewrittenUnique(root, Current(root), i, m);
  }

  /** Turning a file to `a` and then to `b` gives what turning it to `b` gives, exactly when `a` was
      fresh; otherwise the second run stops at a file that it cannot parse. */
  lemma LastSelectionWins(root: Node, a: Materialization, b: Materialization)
    requires Accepts(root) && IsRdb(a.name)
    ensures Fits(root, Current(root))
    ensures UniqueKeys(a.service) ==>
              (var second, free := Generate(Generate(root, a).value, b), TargetFresh(root, Current(root), a.name);
               (second == Generate(root, b) <==> free) && (!free ==> second == Failure(InvalidYaml)))
  {
    var i := AcceptedSetTo(root);
    AcceptsIff(root);
    if UniqueKeys(a.service) {
      ReadableIff(root, a);
      if TargetFresh(root, Current(root), a.name) {
        RewrittenTwice(root, Current(root), i, a, b);
        SetToAccepted(Generate(root, a).value, a.name, i);
      }
    }
  }

  /** Every entry outside `touched` keeps its value and its place, and nothing else is added. */
  ghost predicate Kept(m: Entries, r: Entries, touched: set<string>) {
    && |m| <= |r|
    && (forall p :: 0 <= p < |m| && m[p].key !in touched ==> r[p] == m[p])
    && (forall p :: |m| <= p < |r| ==> r[p].key in touched)
  }

  lemma PutKept(m: Entries, r: Entries, touched: set<string>, key: string, v: Node)
    requires Kept(m, r, touched) && key in touched
    requires forall p :: 0 <= p < |m| && r[p].key == key ==> m[p].key in touched
    ensures Kept(m, Put(r, key, v), touched)
  {
    var q := Put(r, key, v);
    forall p | 0 <= p < |m| && m[p].key !in touched
      ensures q[p] == m[p]
    {
      assert r[p] == m[p];
    }
  }

  lemma EnvironmentKept(environment: Entries, m: Materialization)
    ensures Kept(environment, RewrittenEnvironment(environment, m), {"DB_TYPE", "DB_HOST", "DB_PORT"})
  {
    var touched := {"DB_TYPE", "DB_HOST", "DB_PORT"};
    var e1 := Put(environment, "DB_TYPE", Str(m.name));
    var e2 := Put(e1, "DB_HOST", Str("${DOCKER_DB_HOST:-" + m.host + "}"));
    PutKept(environment, environment, touched, "DB_TYPE", Str(m.name));
    PutKeys(environment, "DB_TYPE", Str(m.name));
    PutKept(environment, e1, touched, "DB_HOST", Str("${DOCKER_DB_HOST:-" + m.host + "}"));
    PutKeys(e1, "DB_HOST", Str("${DOCKER_DB_HOST:-" + m.host + "}"));
    PutKept(environment, e2, touched, "DB_PORT", Str("${DB_PORT:-" + m.port + "}"));
  }

  lemma PutKeys(m: Entries, key: string, v: Node)
    ensures forall p :: 0 <= p < |m| ==> Put(m, key, v)[p].key == m[p].key
  {
  }

  lemma AppKept(app: Entries, current: string, m: Materialization)
    requires Has(app, "depends_on") && Get(app, "depends_on").Map? && Has(Get(app, "depends_on").entries, current)
    ensures Kept(app, RewrittenApp(app, current, m), {"depends_on", "environment"})
  {
    var i := Find(app, "depends_on");
    var app1 := app[i := Entry("depends_on", Map(Renamed(Get(app, "depends_on").entries, current, m.name, HEALTHY)))];
    PutKept(app, app1, {"depends_on", "environment"}, "environment", Map(RewrittenEnvironment(AppEnvironment(app), m)));
  }

  lemma SetBothKept(m: Entries, j: string, v: Node, k: string, w: Node)
    requires Has(m, j) && Has(m, k)
    ensures Kept(m, SetBoth(m, j, v, k, w), {j, k}) && |SetBoth(m, j, v, k, w)| == |m|
  {
  }

  lemma RenamedKept(m: Entries, from: string, to: string, v: Node)
    requires Has(m, from)
    ensures Kept(m, Renamed(m, from, to, v), {from})
  {
  }

  lemma ServicesKept(services: Entries, current: string, m: Materialization)
    requires Has(services, current) && AppFits(services, current)
    ensures Kept(services, RewrittenServices(services, current, m), {current, "app"})
  {
    var at, app := Find(services, "app"), Entry("app", Map(RewrittenApp(Get(services, "app").entries, current, m)));
    var i := Find(services, current);
    assert RewrittenServices(services, current, m) == services[i := Entry(m.name, m.service)][at := app];
  }

  /** Everything that the selection does not own keeps its value and its position: at the top level,
      among the services, and among the volumes. */
  lemma EverythingElseStays(root: Node, m: Materialization)
    requires Accepts(root) && IsRdb(m.name)
    ensures Fits(root, Current(root)) && Generate(root, m).Success? && Generate(root, m).value.Map?
    ensures var current, x := Current(root), Generate(root, m).value;
            var services, volumes := Get(root.entries, "services").entries, Get(root.entries, "volumes").entries;
            && Kept(root.entries, x.entries, {"services", "volumes"}) && |x.entries| == |root.entries|
            && GetIn(x, ["services"]) == Some(Map(RewrittenServices(services, current, m)))
            && Kept(services, RewrittenServices(services, current, m), {current, "app"})
            && GetIn(x, ["volumes"]) == Some(Map(RenamedVolumes(volumes, current, m)))
            && Kept(volumes, RenamedVolumes(volumes, current, m), {current + "-data"})
  {
    AcceptsIff(root);
    var current, x := Current(root), Rewritten(root, Current(root), m);
    var services, volumes := Get(root.entries, "services").entries, Get(root.entries, "volumes").entries;
    SetBothKept(root.entries, "services", Map(RewrittenServices(services, current, m)), "volumes",
                Map(RenamedVolumes(volumes, current, m)));
    ServicesKept(services, current, m);
    RenamedKept(volumes, current + "-data", m.name + "-data", Get(volumes, current + "-data"));
    RewrittenPaths(root, current, m);
  }

  lemma RewrittenPaths(root: Node, current: string, m: Materialization)
    requires Fits(root, current)
    ensures var services, volumes, x := Get(root.entries, "services").entries, Get(root.entries, "volumes").entries,
            Rewritten(root, current, m);
            && GetIn(x, ["services"]) == Some(Map(RewrittenServices(services, current, m)))
            && GetIn(x, ["volumes"]) == Some(Map(RenamedVolumes(volumes, current, m)))
  {
    var x := Rewritten(root, current, m);
    RootLookups(root, current, m);
    TopPath(x, "services");
    TopPath(x, "volumes");
  }

  /** What stays within `app`, seen from the entries of `app` before and after. */
  ghost predicate AppStays(app: Entries, x: Entries, current: string, name: string) {
    && Kept(app, x, {"depends_on", "environment"})
    && Has(app, "depends_on") && Get(app, "depends_on").Map?
    && Has(x, "depends_on") && Get(x, "depends_on").Map? && Has(x, "environment") && Get(x, "environment").Map?
    && Kept(Get(app, "depends_on").entries, Get(x, "depends_on").entries, {current})
    && Has(Get(x, "depends_on").entries, name)
    && Kept(AppEnvironment(app), Get(x, "environment").entries, {"DB_TYPE", "DB_HOST", "DB_PORT"})
  }

  lemma RewrittenAppStays(app: Entries, current: string, m: Materialization)
    requires Has(app, "depends_on") && Get(app, "depends_on").Map? && Has(Get(app, "depends_on").entries, current)
    ensures AppStays(app, RewrittenApp(app, current, m), current, m.name)
  {
    AppKept(app, current, m);
    AppLookups(app, current, m);
    EnvironmentKept(AppEnvironment(app), m);
    var dep := Get(app, "depends_on").entries;
    RenamedKept(dep, current, m.name, HEALTHY);
    assert Renamed(dep, current, m.name, HEALTHY)[Find(dep, current)].key == m.name;
    HasAt(Renamed(dep, current, m.name, HEALTHY), m.name, Find(dep, current));
  }

  /** Everything that the selection does not own keeps its value and its position within `app`, its
      dependencies and its environment. */
  lemma EverythingElseStaysInApp(root: Node, m: Materialization)
    requires Accepts(root) && IsRdb(m.name)
    ensures HasApp(root) && HasApp(Generate(root, m).value)
    ensures AppStays(App(root), App(Generate(root, m).value), Current(root), m.name)
  {
    var i := AcceptedSetTo(root);
    AcceptsIff(root);
    RootLookups(root, Current(root), m);
    ServicesLookups(Get(root.entries, "services").entries, i, m);
    RewrittenAppStays(App(root), Current(root), m);
  }
}
