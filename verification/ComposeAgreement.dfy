/** The compose files that the generator writes, as the checker reads them. */
module ComposeAgreement {
  import opened ComposeGenerator
  import opened ComposeLaws
  import opened ComposeUrl
  import opened ComposeUrlRoom
  import opened OrderedMap
  import opened Results
  import opened Selection
  import opened Yaml

  import Checker = ScaffoldChecker
  import opened ScaffoldConsistency

  const URL_USER := "://${DB_USERNAME:-app}" + ":${DB_PASSWORD:-app}@"
  const URL_HOST := "${DOCKER_DB_HOST:-"
  const URL_PORT := "}:${DB_PORT:-"
  const URL_DATABASE := "}/${DB_DATABASE:-app}"

  /** `databaseUrl(database, true)` */
  function DockerUrl(d: Database): string {
    (if d == Postgres then "postgresql" else "mysql") + URL_USER + URL_HOST + d.Name() + URL_PORT + Port(d)
      + URL_DATABASE
  }

  lemma NoNewline(x: string, y: string)
    requires '\n' !in x && '\n' !in y
    ensures '\n' !in x + y
  {
  }

  lemma NamesOneLine(d: Database)
    ensures '\n' !in d.Name() && '\n' !in Port(d) && '\n' !in (if d == Postgres then "postgresql" else "mysql")
  {
  }

  lemma UserOneLine()
    ensures '\n' !in URL_USER
  {
  }

  lemma UrlPartsOneLine()
    ensures '\n' !in URL_HOST && '\n' !in URL_PORT && '\n' !in URL_DATABASE
  {
  }

  lemma DockerUrlOneLine(d: Database)
    ensures '\n' !in DockerUrl(d)
  {
    var scheme := if d == Postgres then "postgresql" else "mysql";
    NamesOneLine(d);
    UserOneLine();
    UrlPartsOneLine();
    NoNewline(scheme, URL_USER);
    Concatenated(scheme + URL_USER, URL_HOST, d.Name(), URL_PORT, Port(d), URL_DATABASE);
  }

  lemma Concatenated(a: string, b: string, c: string, d: string, e: string, f: string)
    requires '\n' !in a && '\n' !in b && '\n' !in c && '\n' !in d && '\n' !in e && '\n' !in f
    ensures '\n' !in a + b + c + d + e + f
  {
    NoNewline(a, b);
    NoNewline(a + b, c);
    NoNewline(a + b + c, d);
    NoNewline(a + b + c + d, e);
    NoNewline(a + b + c + d + e, f);
  }

  lemma TablesAgree(d: Database)
    ensures ImageOf(d) == Checker.DatabaseImage(d) && Port(d) == Checker.DatabasePort(d)
    ensures DataPath(d) == Checker.DatabaseDataPath(d)
  {
  }

  /** The docker-compose.yml that the script writes. */
  function GeneratedCompose(file: File, d: Database): Result<File, ComposeError> {
    ComposeFor(file, MaterializationOf(d), DockerUrl(d))
  }

  function ComposeFor(file: File, m: Materialization, url: string): Result<File, ComposeError> {
    if !Parses(file) then Failure(InvalidYaml)
    else
      var r := Generate(file.root, m);
      if r.Failure? then Failure(r.error) else Success(WithDatabaseUrlCompose(r.value, url))
  }

  // ----- the rewritten tree agrees, lookup by lookup -----

  lemma EnvironmentLookups(environment: Entries, m: Materialization)
    ensures var r := RewrittenEnvironment(environment, m);
            && Has(r, "DB_TYPE") && Get(r, "DB_TYPE") == Str(m.name)
            && Has(r, "DB_HOST") && Get(r, "DB_HOST") == Str("${DOCKER_DB_HOST:-" + m.host + "}")
            && Has(r, "DB_PORT") && Get(r, "DB_PORT") == Str("${DB_PORT:-" + m.port + "}")
  {
    EnvironmentKeysDiffer();
    var v1, v2, v3 := Str(m.name), Str("${DOCKER_DB_HOST:-" + m.host + "}"), Str("${DB_PORT:-" + m.port + "}");
    var e1 := Put(environment, "DB_TYPE", v1);
    var e2 := Put(e1, "DB_HOST", v2);
    PutSame(environment, "DB_TYPE", v1);
    PutSame(e1, "DB_HOST", v2);
    PutOther(e1, "DB_HOST", v2, "DB_TYPE");
    PutSame(e2, "DB_PORT", v3);
    PutOther(e2, "DB_PORT", v3, "DB_TYPE");
    PutOther(e2, "DB_PORT", v3, "DB_HOST");
  }

  /** What the checker looks at in the services of a rewritten file. */
  ghost predicate ServicesRead(services: Entries, name: string, image: Node, host: string, port: string) {
    && (forall e: Database :: Has(services, e.Name()) <==> e.Name() == name)
    && Has(services, name) && Get(services, name).Map? && Has(Get(services, name).entries, "image")
    && Get(Get(services, name).entries, "image") == image
    && Has(services, "app") && Get(services, "app").Map?
    && AppRead(Get(services, "app").entries, name, host, port)
  }

  predicate AppRead(app: Entries, name: string, host: string, port: string) {
    && Has(app, "depends_on") && Get(app, "depends_on").Map? && Has(Get(app, "depends_on").entries, name)
    && Has(app, "environment") && Get(app, "environment").Map?
    && var environment := Get(app, "environment").entries;
       && Has(environment, "DB_TYPE") && Get(environment, "DB_TYPE") == Str(name)
       && Has(environment, "DB_HOST") && Get(environment, "DB_HOST") == Str("${DOCKER_DB_HOST:-" + host + "}")
       && Has(environment, "DB_PORT") && Get(environment, "DB_PORT") == Str("${DB_PORT:-" + port + "}")
  }

  lemma RewrittenAppRead(app: Entries, current: string, m: Materialization)
    requires Has(app, "depends_on") && Get(app, "depends_on").Map? && Has(Get(app, "depends_on").entries, current)
    ensures AppRead(RewrittenApp(app, current, m), m.name, m.host, m.port)
  {
    AppLookups(app, current, m);
    EnvironmentLookups(AppEnvironment(app), m);
    var dep := Get(app, "depends_on").entries;
    assert Renamed(dep, current, m.name, HEALTHY)[Find(dep, current)].key == m.name;
    HasAt(Renamed(dep, current, m.name, HEALTHY), m.name, Find(dep, current));
  }

  lemma OnlyRdbLookups(services: Entries, i: nat, e: Database)
    requires OnlyRdbAt(services, i)
    ensures Has(services, e.Name()) <==> e.Name() == services[i].key
  {
    NamesDiffer(e, e);
    if Has(services, e.Name()) {
      assert IsRdb(services[Find(services, e.Name())].key);
    } else if e.Name() == services[i].key {
      HasAt(services, e.Name(), i);
    }
  }

  lemma RewrittenServicesRead(services: Entries, i: nat, m: Materialization, image: Node)
    requires OnlyRdbAt(services, i) && AppFits(services, services[i].key) && IsRdb(m.name)
    requires m.service.Map? && Has(m.service.entries, "image") && Get(m.service.entries, "image") == image
    ensures ServicesRead(RewrittenServices(services, services[i].key, m), m.name, image, m.host, m.port)
  {
    ServicesLookups(services, i, m);
    var app := RewrittenApp(Get(services, "app").entries, services[i].key, m);
    RewrittenAppRead(Get(services, "app").entries, services[i].key, m);
    PartsRead(RewrittenServices(services, services[i].key, m), i, app, m, image);
  }

  lemma PartsRead(services: Entries, i: nat, app: Entries, m: Materialization, image: Node)
    requires OnlyRdbAt(services, i) && services[i] == Entry(m.name, m.service) && Find(services, m.name) == i
    requires Has(services, "app") && Get(services, "app") == Map(app) && AppRead(app, m.name, m.host, m.port)
    requires m.service.Map? && Has(m.service.entries, "image") && Get(m.service.entries, "image") == image
    ensures ServicesRead(services, m.name, image, m.host, m.port)
  {
    OnlyRdbHas(services, i);
  }

  lemma OnlyRdbHas(services: Entries, i: nat)
    requires OnlyRdbAt(services, i)
    ensures forall e: Database :: Has(services, e.Name()) <==> e.Name() == services[i].key
  {
    forall e: Database ensures Has(services, e.Name()) <==> e.Name() == services[i].key {
      OnlyRdbLookups(services, i, e);
    }
  }

  // ----- the URL edit does not change what the checker reads -----

  lemma RdbKeysDiffer(d: Database)
    ensures d.Name() != URL_KEY && "DB_TYPE" != URL_KEY && "DB_HOST" != URL_KEY && "DB_PORT" != URL_KEY
  {
    assert |URL_KEY| == 12;
  }

  lemma AppReadSame(app: Entries, r: Entries, d: Database, host: string, port: string)
    requires SameBut(app, r, 1, URL_KEY) && AppRead(app, d.Name(), host, port)
    ensures AppRead(r, d.Name(), host, port)
  {
    RdbKeysDiffer(d);
    LookUpInner(app, r, 1, URL_KEY, "depends_on");
    LookUpInner(app, r, 1, URL_KEY, "environment");
    LookUpLeaf(Get(app, "depends_on").entries, Get(r, "depends_on").entries, URL_KEY, d.Name());
    var a, b := Get(app, "environment").entries, Get(r, "environment").entries;
    LookUpLeaf(a, b, URL_KEY, "DB_TYPE");
    LookUpLeaf(a, b, URL_KEY, "DB_HOST");
    LookUpLeaf(a, b, URL_KEY, "DB_PORT");
  }

  lemma ServicesReadSame(services: Entries, r: Entries, d: Database, image: string, host: string, port: string)
    requires SameBut(services, r, 2, URL_KEY) && ServicesRead(services, d.Name(), Str(image), host, port)
    ensures ServicesRead(r, d.Name(), Str(image), host, port)
  {
    forall e: Database ensures Has(r, e.Name()) <==> e.Name() == d.Name() {
      LookUpInner(services, r, 2, URL_KEY, e.Name());
    }
    LookUpInner(services, r, 2, URL_KEY, d.Name());
    LookUpInner(services, r, 2, URL_KEY, "app");
    LookUpInner(Get(services, d.Name()).entries, Get(r, d.Name()).entries, 1, URL_KEY, "image");
    AppReadSame(Get(services, "app").entries, Get(r, "app").entries, d, host, port);
  }

  lemma ReadMeansServicesAgree(services: Entries, d: Database, host: string, port: string)
    requires ServicesRead(services, d.Name(), Str(Checker.DatabaseImage(d)), host, port)
    ensures RdbServicesAgree(d, services)
  {
    forall e: Database ensures Has(services, e.Name()) <==> e == d {
      NamesDiffer(e, d);
    }
  }

  lemma ReadMeansAppAgrees(services: Entries, d: Database)
    requires Has(services, "app") && Get(services, "app").Map?
    requires AppRead(Get(services, "app").entries, d.Name(), d.Name(), Checker.DatabasePort(d))
    ensures AppAgrees(d, services)
  {
  }

  lemma ImageRead(d: Database)
    ensures var s := ComposeService(d); s.Map? && Has(s.entries, "image") && Get(s.entries, "image") == Str(ImageOf(d))
  {
    FindIs(ComposeService(d).entries, "image", 0);
  }

  /** A compose file that the script can turn to the RDB of that name: the generator accepts it, no other entry
      has the new names, and the URL line has room. */
  predicate SelectableFor(file: File, name: string) {
    && Parses(file) && Accepts(file.root) && Fits(file.root, Current(file.root))
    && TargetFresh(file.root, Current(file.root), name) && UrlRoom(file.root, Current(file.root))
  }

  predicate ComposeSelectable(file: File, d: Database) {
    SelectableFor(file, d.Name())
  }

  /** A row of the generator's table that carries the checker's values. */
  ghost predicate RowFits(m: Materialization, d: Database) {
    && m.name == d.Name() && m.host == d.Name() && m.port == Checker.DatabasePort(d) && IsRdb(m.name)
    && UniqueKeys(m.service)
    && m.service.Map? && Has(m.service.entries, "image")
    && Get(m.service.entries, "image") == Str(Checker.DatabaseImage(d))
  }

  lemma RowsFit(d: Database)
    ensures RowFits(MaterializationOf(d), d)
  {
    MaterializationFits(d);
    ImageRead(d);
    TablesAgree(d);
  }

  lemma EditedServicesRead(root: Node, current: string, i: nat, m: Materialization, d: Database, url: string)
    requires SetTo(root, current, i) && RowFits(m, d)
    ensures var file := WithDatabaseUrlCompose(Rewritten(root, current, m), url);
            file.Readable? ==>
              && file.root.Map? && Has(file.root.entries, "services") && Get(file.root.entries, "services").Map?
              && ServicesRead(Get(file.root.entries, "services").entries, d.Name(), Str(Checker.DatabaseImage(d)),
                              d.Name(),
                              Checker.DatabasePort(d))
  {
    var services, x := Get(root.entries, "services").entries, Rewritten(root, current, m);
    var file := WithDatabaseUrlCompose(x, url);
    RootLookups(root, current, m);
    RewrittenServicesRead(services, i, m, Str(Checker.DatabaseImage(d)));
    if file.Readable? {
      UrlEditTouchesOnlyUrl(x, url);
      LookUpInner(x.entries, file.root.entries, 3, URL_KEY, "services");
      ServicesReadSame(Get(x.entries, "services").entries, Get(file.root.entries, "services").entries, d,
                       Checker.DatabaseImage(d), d.Name(), Checker.DatabasePort(d));
    }
  }

  lemma ReadableServicesAgree(file: File, d: Database)
    requires Parses(file) && file.root.Map? && Has(file.root.entries, "services")
    requires Get(file.root.entries, "services").Map?
    requires ServicesRead(Get(file.root.entries, "services").entries, d.Name(), Str(Checker.DatabaseImage(d)), d.Name(),
                          Checker.DatabasePort(d))
    ensures ComposeAgrees(d, file)
  {
    var services := Get(file.root.entries, "services").entries;
    ReadMeansServicesAgree(services, d, d.Name(), Checker.DatabasePort(d));
    ReadMeansAppAgrees(services, d);
  }

  lemma EditedAgreesIff(root: Node, m: Materialization, d: Database, url: string)
    requires Accepts(root) && RowFits(m, d) && RowSet(m) && '\n' !in url
    ensures Fits(root, Current(root))
    ensures ComposeAgrees(d, WithDatabaseUrlCompose(Generate(root, m).value, url))
       <==> (TargetFresh(root, Current(root), d.Name()) && UrlRoom(root, Current(root)))
  {
    ReadableIff(root, m);
    var i := AcceptedSetTo(root);
    var x := Generate(root, m).value;
    UrlRoomIff(root, Current(root), i, m, url);
    var file := WithDatabaseUrlCompose(x, url);
    if file.Readable? {
      UrlEditReadableIff(x, url);
    }
    if Parses(file) {
      EditedAgrees(root, m, d, url);
    } else {
      NotAgreed(d, file);
    }
  }

  lemma NotAgreed(d: Database, file: File)
    requires !Parses(file)
    ensures !ComposeAgrees(d, file)
  {
  }

  lemma EditedAgrees(root: Node, m: Materialization, d: Database, url: string)
    requires Accepts(root) && RowFits(m, d)
    ensures var file := WithDatabaseUrlCompose(Generate(root, m).value, url); Parses(file) ==> ComposeAgrees(d, file)
  {
    var i := AcceptedSetTo(root);
    var file := WithDatabaseUrlCompose(Generate(root, m).value, url);
    EditedServicesRead(root, Current(root), i, m, d, url);
    if Parses(file) {
      ReadableServicesAgree(file, d);
    }
  }

  lemma ComposeForAgrees(file: File, m: Materialization, d: Database, url: string)
    requires RowFits(m, d) && RowSet(m) && '\n' !in url
    ensures match ComposeFor(file, m, url)
            case Success(written) => ComposeAgrees(d, written) <==> SelectableFor(file, m.name)
            case Failure(_) => !SelectableFor(file, m.name)
  {
    if Parses(file) && Accepts(file.root) {
      EditedAgreesIff(file.root, m, d, url);
    }
  }

  /** The compose file that the script writes agrees with the selection exactly when no other entry of
      `depends_on` or `volumes` had the new name and the URL line had room. */
  lemma GeneratedComposeAgrees(file: File, d: Database)
    ensures match GeneratedCompose(file, d)
            case Success(written) => ComposeAgrees(d, written) <==> ComposeSelectable(file, d)
            case Failure(_) => !ComposeSelectable(file, d)
  {
    RowsFit(d);
    RowIsSet(d);
    DockerUrlOneLine(d);
    ComposeForAgrees(file, MaterializationOf(d), d, DockerUrl(d));
  }
}
