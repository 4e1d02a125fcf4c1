/** `materializeTypeOrmCompose`: turning a project's docker-compose.yml to another RDB. */
module ComposeGenerator {
  import opened OrderedMap
  import opened Results
  import opened Selection
  import opened Yaml

  datatype ComposeError =
    | InvalidYaml
    | MapMissing(name: string)
    | NotOneRdb
    | EntryMissing(key: string)
    | NotACollection(key: string)

  /** What the generator writes for one RDB: the service body and the two address settings. */
  datatype Materialization = Materialization(name: string, service: Node, host: string, port: string)

  /** `{ condition: service_healthy }` */
  const HEALTHY: Node := Map([Entry("condition", Str("service_healthy"))])

  // ----- the reference description of the rewriting -----

  /** The RDB services of a compose file, in order. */
  function RdbKeys(services: Entries): seq<Database> {
    if services == [] then []
    else (if IsRdb(services[0].key) then [Rdb(services[0].key)] else []) + RdbKeys(services[1..])
  }

  predicate OnlyRdbAt(services: Entries, i: nat) {
    i < |services| && IsRdb(services[i].key) && forall j :: 0 <= j < |services| && j != i ==> !IsRdb(services[j].key)
  }

  function Services(root: Node): Option<Entries> { MapIn(root, ["services"]) }

  function DependsOn(root: Node): Option<Entries> { MapIn(root, ["services", "app", "depends_on"]) }

  function Volumes(root: Node): Option<Entries> { MapIn(root, ["volumes"]) }

  /** The name of the RDB a file is set to. */
  function Current(root: Node): string
    requires Services(root).Some? && |RdbKeys(Services(root).value)| == 1
  {
    RdbKeys(Services(root).value)[0].Name()
  }

  /** What stops the generator at `app`. */
  function AppProblem(root: Node, current: string): Option<ComposeError> {
    if DependsOn(root).None? then Some(MapMissing("depends_on"))
    else if !Has(DependsOn(root).value, current) then Some(EntryMissing(current))
    else
      var environment := GetIn(root, ["services", "app", "environment"]);
      if environment.Some? && !environment.value.Map? then Some(NotACollection("environment")) else None
  }

  /** What stops it at the volumes. */
  function VolumesProblem(root: Node, current: string): Option<ComposeError> {
    if Volumes(root).None? then Some(MapMissing("volumes"))
    else if !Has(Volumes(root).value, current + "-data") then Some(EntryMissing(current + "-data"))
    else None
  }

  /** The first thing that stops the generator, in the order in which it looks. */
  function FirstProblem(root: Node): Option<ComposeError> {
    if !UniqueKeys(root) then Some(InvalidYaml)
    else if Services(root).None? then Some(MapMissing("services"))
    else if |RdbKeys(Services(root).value)| != 1 then Some(NotOneRdb)
    else if AppProblem(root, Current(root)).Some? then AppProblem(root, Current(root))
    else VolumesProblem(root, Current(root))
  }

  predicate Accepts(root: Node) {
    FirstProblem(root).None?
  }

  function RewrittenEnvironment(environment: Entries, m: Materialization): Entries {
    Put(Put(Put(environment, "DB_TYPE", Str(m.name)), "DB_HOST", Str("${DOCKER_DB_HOST:-" + m.host + "}")),
        "DB_PORT", Str("${DB_PORT:-" + m.port + "}"))
  }

  /** The entry named `from` becomes `to`, in its place. */
  function Renamed(m: Entries, from: string, to: string, value: Node): Entries
    requires Has(m, from)
  {
    m[Find(m, from) := Entry(to, value)]
  }

  function AppEnvironment(app: Entries): Entries {
    if Has(app, "environment") && Get(app, "environment").Map? then Get(app, "environment").entries else []
  }

  function RewrittenApp(app: Entries, current: string, m: Materialization): Entries
    requires Has(app, "depends_on") && Get(app, "depends_on").Map? && Has(Get(app, "depends_on").entries, current)
  {
    Put(app[Find(app, "depends_on") :=
            Entry("depends_on", Map(Renamed(Get(app, "depends_on").entries, current, m.name, HEALTHY)))],
        "environment", Map(RewrittenEnvironment(AppEnvironment(app), m)))
  }

  /** An `app` service of the shape that the generator accepts. */
  predicate AppFits(services: Entries, current: string) {
    && Has(services, "app") && Get(services, "app").Map?
    && var app := Get(services, "app").entries;
       && Has(app, "depends_on") && Get(app, "depends_on").Map? && Has(Get(app, "depends_on").entries, current)
       && (Has(app, "environment") ==> Get(app, "environment").Map?)
  }

  function RewrittenServices(services: Entries, current: string, m: Materialization): Entries
    requires Has(services, current) && AppFits(services, current)
  {
    services[Find(services, current) := Entry(m.name, m.service)]
            [Find(services, "app") := Entry("app", Map(RewrittenApp(Get(services, "app").entries, current, m)))]
  }

  /** A file of the shape that the generator accepts, set to `current`. */
  predicate Fits(root: Node, current: string) {
    && root.Map? && Has(root.entries, "services") && Get(root.entries, "services").Map?
    && Has(Get(root.entries, "services").entries, current) && AppFits(Get(root.entries, "services").entries, current)
    && Has(root.entries, "volumes") && Get(root.entries, "volumes").Map?
    && Has(Get(root.entries, "volumes").entries, current + "-data")
  }

  function RenamedVolumes(volumes: Entries, current: string, m: Materialization): Entries
    requires Has(volumes, current + "-data")
  {
    Renamed(volumes, current + "-data", m.name + "-data", Get(volumes, current + "-data"))
  }

  function Rewritten(root: Node, current: string, m: Materialization): Node
    requires Fits(root, current)
  {
    var services, volumes := Get(root.entries, "services").entries, Get(root.entries, "volumes").entries;
    Map(SetBoth(root.entries,
                "services", Map(RewrittenServices(services, current, m)),
                "volumes", Map(RenamedVolumes(volumes, current, m))))
  }

  /** The values of two present keys replaced. */
  function SetBoth(m: Entries, j: string, v: Node, k: string, w: Node): Entries
    requires Has(m, j) && Has(m, k)
  {
    m[Find(m, j) := Entry(j, v)][Find(m, k) := Entry(k, w)]
  }

  // ----- counting the RDB services -----

  lemma {:induction false} NoRdbKeys(services: Entries)
    ensures RdbKeys(services) == [] <==> forall j :: 0 <= j < |services| ==> !IsRdb(services[j].key)
  {
    if services != [] {
      NoRdbKeys(services[1..]);
    }
  }

  lemma {:induction false} OneRdbKey(services: Entries, i: nat)
    requires OnlyRdbAt(services, i)
    ensures RdbKeys(services) == [Rdb(services[i].key)]
  {
    if i == 0 {
      NoRdbKeys(services[1..]);
    } else {
      OneRdbKey(services[1..], i - 1);
    }
  }

  lemma {:induction false} RdbKeyPlace(services: Entries) returns (i: nat)
    requires |RdbKeys(services)| == 1
    ensures OnlyRdbAt(services, i) && Find(services, RdbKeys(services)[0].Name()) == i
  {
    if IsRdb(services[0].key) {
      NoRdbKeys(services[1..]);
      i := 0;
    } else {
      var j := RdbKeyPlace(services[1..]);
      i := j + 1;
      assert services[1..][j].key == services[i].key;
      forall k | 0 <= k < |services| && k != i ensures !IsRdb(services[k].key) {
        if k > 0 { assert services[1..][k - 1] == services[k]; }
      }
    }
    OneRdbKey(services, i);
    FindIs(services, RdbKeys(services)[0].Name(), i);
  }

  // ----- paths -----

  lemma TopPath(root: Node, key: string)
    ensures GetIn(root, [key]) == if root.Map? && Has(root.entries, key) then Some(Get(root.entries, key)) else None
  {
    GetInStep(root, key, []);
    assert [key] + [] == [key];
  }

  /** The node at `services.app.<key>`. */
  function AppNode(root: Node, key: string): Option<Node> {
    var services := GetIn(root, ["services"]);
    if services.None? || !services.value.Map? || !Has(services.value.entries, "app") then None
    else
      var app := Get(services.value.entries, "app");
      if app.Map? && Has(app.entries, key) then Some(Get(app.entries, key)) else None
  }

  lemma AppPath(root: Node, key: string)
    ensures GetIn(root, ["services", "app", key]) == AppNode(root, key)
  {
    TopPath(root, "services");
    GetInStep(root, "services", ["app", key]);
    assert ["services", "app", key] == ["services"] + ["app", key];
    if root.Map? && Has(root.entries, "services") {
      var services := Get(root.entries, "services");
      GetInStep(services, "app", [key]);
      assert ["app", key] == ["app"] + [key];
      if services.Map? && Has(services.entries, "app") {
        TopPath(Get(services.entries, "app"), key);
      }
    }
  }

  /** The generator accepts exactly the files that parse, hold one RDB service, and fit its shape. */
  lemma AcceptsIff(root: Node)
    ensures Accepts(root)
       <==> (UniqueKeys(root) && Services(root).Some? && |RdbKeys(Services(root).value)| == 1
             && Fits(root, Current(root)))
  {
    TopPath(root, "services");
    TopPath(root, "volumes");
    AppPath(root, "depends_on");
    AppPath(root, "environment");
    if Services(root).Some? && |RdbKeys(Services(root).value)| == 1 {
      var i := RdbKeyPlace(Services(root).value);
    }
  }

  /** What the generator makes of a parsed file. */
  function Generate(root: Node, m: Materialization): Result<Node, ComposeError> {
    if FirstProblem(root).Some? then Failure(FirstProblem(root).value)
    else
      AcceptsIff(root);
      Success(Rewritten(root, Current(root), m))
  }

  // ----- the last selection wins -----

  predicate Fresh(m: Entries, from: string, to: string) {
    from == to || !Has(m, to)
  }

  lemma RenamedTwice(m: Entries, from: string, to: string, value: Node, last: string, lastValue: Node)
    requires Has(m, from) && Fresh(m, from, to)
    ensures Has(Renamed(m, from, to, value), to) && Find(Renamed(m, from, to, value), to) == Find(m, from)
    ensures Renamed(Renamed(m, from, to, value), to, last, lastValue) == Renamed(m, from, last, lastValue)
  {
    var r := Renamed(m, from, to, value);
    assert r[Find(m, from)].key == to;
    FindIs(r, to, Find(m, from));
  }

  lemma EnvironmentTwice(environment: Entries, a: Materialization, b: Materialization)
    ensures RewrittenEnvironment(RewrittenEnvironment(environment, a), b) == RewrittenEnvironment(environment, b)
  {
    EnvironmentKeysDiffer();
    ThreePutsLastWins(environment, "DB_TYPE", "DB_HOST", "DB_PORT",
      Str(a.name), Str("${DOCKER_DB_HOST:-" + a.host + "}"), Str("${DB_PORT:-" + a.port + "}"),
      Str(b.name), Str("${DOCKER_DB_HOST:-" + b.host + "}"), Str("${DB_PORT:-" + b.port + "}"));
  }

  lemma EnvironmentKeysDiffer()
    ensures "DB_TYPE" != "DB_HOST" && "DB_HOST" != "DB_PORT" && "DB_TYPE" != "DB_PORT"
    ensures "depends_on" != "environment" && "services" != "volumes" && !IsRdb("app")
  {
    assert "DB_TYPE"[3] != "DB_HOST"[3] && "DB_HOST"[3] != "DB_PORT"[3] && "DB_TYPE"[3] != "DB_PORT"[3];
    assert "depends_on"[0] != "environment"[0] && "services"[0] != "volumes"[0];
  }

  lemma AppLookups(app: Entries, current: string, m: Materialization)
    requires Has(app, "depends_on") && Get(app, "depends_on").Map? && Has(Get(app, "depends_on").entries, current)
    ensures var r := RewrittenApp(app, current, m);
            && Has(r, "depends_on") && Find(r, "depends_on") == Find(app, "depends_on")
            && Get(r, "depends_on") == Map(Renamed(Get(app, "depends_on").entries, current, m.name, HEALTHY))
            && Has(r, "environment") && Get(r, "environment") == Map(RewrittenEnvironment(AppEnvironment(app), m))
  {
    EnvironmentKeysDiffer();
    var i := Find(app, "depends_on");
    var app1 := app[i := Entry("depends_on", Map(Renamed(Get(app, "depends_on").entries, current, m.name, HEALTHY)))];
    FindIs(app1, "depends_on", i);
    PutOther(app1, "environment", Map(RewrittenEnvironment(AppEnvironment(app), m)), "depends_on");
    PutSame(app1, "environment", Map(RewrittenEnvironment(AppEnvironment(app), m)));
  }

  lemma AppTwice(app: Entries, current: string, a: Materialization, b: Materialization)
    requires Has(app, "depends_on") && Get(app, "depends_on").Map? && Has(Get(app, "depends_on").entries, current)
    requires Fresh(Get(app, "depends_on").entries, current, a.name)
    ensures var r := RewrittenApp(app, current, a);
            && Has(r, "depends_on") && Get(r, "depends_on").Map? && Has(Get(r, "depends_on").entries, a.name)
            && RewrittenApp(r, a.name, b) == RewrittenApp(app, current, b)
  {
    EnvironmentKeysDiffer();
    var r, i, dep := RewrittenApp(app, current, a), Find(app, "depends_on"), Get(app, "depends_on").entries;
    AppLookups(app, current, a);
    RenamedTwice(dep, current, a.name, HEALTHY, b.name, HEALTHY);
    EnvironmentTwice(AppEnvironment(app), a, b);
    var da, db := Entry("depends_on", Map(Renamed(dep, current, a.name, HEALTHY))),
        Entry("depends_on", Map(Renamed(dep, current, b.name, HEALTHY)));
    var ea, eb := Map(RewrittenEnvironment(AppEnvironment(app), a)), Map(RewrittenEnvironment(AppEnvironment(app), b));
    assert r == Put(app[i := da], "environment", ea);
    assert RewrittenApp(r, a.name, b) == Put(r[i := db], "environment", eb);
    assert RewrittenApp(app, current, b) == Put(app[i := db], "environment", eb);
    SetThenPut(app, i, da, db, "environment", ea, eb);
  }

  /** Overwriting position `i` twice around an assignment to another key. */
  lemma SetThenPut(m: Entries, i: nat, x: Entry<Node>, y: Entry<Node>, key: string, v: Node, w: Node)
    requires i < |m| && x.key == y.key == m[i].key != key
    ensures Put(Put(m[i := x], key, v)[i := y], key, w) == Put(m[i := y], key, w)
  {
    SameKeysSameFind(m, m[i := x], key);
    SameKeysSameFind(m, m[i := y], key);
    var r := Put(m[i := x], key, v);
    PutSame(m[i := x], key, v);
    SameKeysSameFind(r, r[i := y], key);
  }

  /** Two positions overwritten, one of them with an RDB service. */
  lemma TwoPlaces(services: Entries, i: nat, at: nat, x: Entry<Node>, y: Entry<Node>)
    requires OnlyRdbAt(services, i) && at < |services| && i != at && IsRdb(x.key) && services[at].key == y.key
    requires Find(services, y.key) == at
    ensures var r := services[i := x][at := y];
            OnlyRdbAt(r, i) && r[i] == x && Find(r, x.key) == i && Find(r, y.key) == at && r[at] == y
  {
    var r := services[i := x][at := y];
    assert r[i] == x && r[at] == y;
    assert forall j :: 0 <= j < |r| && j != i ==> r[j].key == services[j].key;
    FindIs(r, x.key, i);
    FindIs(r, y.key, at);
  }

  lemma ServicesLookups(services: Entries, i: nat, m: Materialization)
    requires OnlyRdbAt(services, i) && AppFits(services, services[i].key) && IsRdb(m.name)
    ensures Find(services, services[i].key) == i && Find(services, "app") != i
    ensures var r := RewrittenServices(services, services[i].key, m);
            && OnlyRdbAt(r, i) && r[i] == Entry(m.name, m.service) && Find(r, m.name) == i
            && RdbKeys(r) == [Rdb(m.name)]
            && Has(r, "app") && Find(r, "app") == Find(services, "app")
            && Get(r, "app") == Map(RewrittenApp(Get(services, "app").entries, services[i].key, m))
  {
    EnvironmentKeysDiffer();
    var current, at := services[i].key, Find(services, "app");
    FindIs(services, current, i);
    var app := Entry("app", Map(RewrittenApp(Get(services, "app").entries, current, m)));
    TwoPlaces(services, i, at, Entry(m.name, m.service), app);
    OneRdbKey(RewrittenServices(services, current, m), i);
  }

  lemma PlacesTwice(services: Entries, i: nat, at: nat, x: Entry<Node>, y: Entry<Node>, x': Entry<Node>,
                    y': Entry<Node>)
    requires i < |services| && at < |services| && i != at
    ensures services[i := x][at := y][i := x'][at := y'] == services[i := x'][at := y']
  {
  }

  lemma ServicesTwice(services: Entries, i: nat, a: Materialization, b: Materialization)
    requires OnlyRdbAt(services, i) && AppFits(services, services[i].key) && IsRdb(a.name)
    requires Fresh(Get(Get(services, "app").entries, "depends_on").entries, services[i].key, a.name)
    ensures var r := RewrittenServices(services, services[i].key, a);
            && Has(r, a.name) && AppFits(r, a.name)
            && RewrittenServices(r, a.name, b) == RewrittenServices(services, services[i].key, b)
  {
    var current, app, at := services[i].key, Get(services, "app").entries, Find(services, "app");
    ServicesLookups(services, i, a);
    AppTwice(app, current, a, b);
    AppLookups(app, current, a);
    PlacesTwice(services, i, at, Entry(a.name, a.service), Entry("app", Map(RewrittenApp(app, current, a))),
                Entry(b.name, b.service), Entry("app", Map(RewrittenApp(app, current, b))));
  }

  lemma SetBothLookups(m: Entries, j: string, v: Node, k: string, w: Node)
    requires Has(m, j) && Has(m, k) && j != k
    ensures var r := SetBoth(m, j, v, k, w);
            && Has(r, j) && Find(r, j) == Find(m, j) && Get(r, j) == v
            && Has(r, k) && Find(r, k) == Find(m, k) && Get(r, k) == w
  {
    var r := SetBoth(m, j, v, k, w);
    assert r[Find(m, j)] == Entry(j, v) && r[Find(m, k)] == Entry(k, w);
    FindIs(r, j, Find(m, j));
    FindIs(r, k, Find(m, k));
  }

  lemma SetBothTwice(m: Entries, j: string, v: Node, k: string, w: Node, x: Node, y: Node)
    requires Has(m, j) && Has(m, k) && j != k
    ensures var r := SetBoth(m, j, v, k, w);
            Has(r, j) && Has(r, k) && SetBoth(r, j, x, k, y) == SetBoth(m, j, x, k, y)
  {
    SetBothLookups(m, j, v, k, w);
  }

  lemma RootLookups(root: Node, current: string, m: Materialization)
    requires Fits(root, current)
    ensures var r, volumes := Rewritten(root, current, m), Get(root.entries, "volumes").entries;
            && Has(r.entries, "services")
            && Get(r.entries, "services") == Map(RewrittenServices(Get(root.entries, "services").entries, current, m))
            && Has(r.entries, "volumes")
            && Get(r.entries, "volumes") == Map(RenamedVolumes(volumes, current, m))
  {
    EnvironmentKeysDiffer();
    var services, volumes := Get(root.entries, "services").entries, Get(root.entries, "volumes").entries;
    SetBothLookups(root.entries, "services", Map(RewrittenServices(services, current, m)), "volumes",
                   Map(RenamedVolumes(volumes, current, m)));
  }

  /** Both maps that name the RDB by key are free of the target's name, or the target is current. */
  predicate TargetFresh(root: Node, current: string, name: string)
    requires Fits(root, current)
  {
    && Fresh(Get(Get(Get(root.entries, "services").entries, "app").entries, "depends_on").entries, current, name)
    && Fresh(Get(root.entries, "volumes").entries, current + "-data", name + "-data")
  }

  /** The place of the one RDB service. */
  predicate SetTo(root: Node, current: string, i: nat) {
    && Fits(root, current)
    && var services := Get(root.entries, "services").entries;
       OnlyRdbAt(services, i) && services[i].key == current
  }

  /** Turning a file to `a` and then to `b` is turning it to `b`. */
  lemma RewrittenTwice(root: Node, current: string, i: nat, a: Materialization, b: Materialization)
    requires SetTo(root, current, i) && IsRdb(a.name) && TargetFresh(root, current, a.name)
    ensures SetTo(Rewritten(root, current, a), a.name, i)
    ensures Rewritten(Rewritten(root, current, a), a.name, b) == Rewritten(root, current, b)
  {
    var services, volumes := Get(root.entries, "services").entries, Get(root.entries, "volumes").entries;
    RootLookups(root, current, a);
    ServicesLookups(services, i, a);
    ServicesTwice(services, i, a, b);
    var data := Get(volumes, current + "-data");
    RenamedTwice(volumes, current + "-data", a.name + "-data", data, b.name + "-data", data);
    EnvironmentKeysDiffer();
    SetBothTwice(root.entries, "services", Map(RewrittenServices(services, current, a)),
                 "volumes", Map(Renamed(volumes, current + "-data", a.name + "-data", data)),
                 Map(RewrittenServices(services, current, b)),
                   Map(Renamed(volumes, current + "-data", b.name + "-data", data)));
  }

  // ----- when the rewritten file can be parsed back -----

  lemma ReplaceUnique(m: Entries, i: nat, v: Node)
    requires UniqueKeys(Map(m)) && i < |m|
    ensures UniqueKeys(Map(m[i := Entry(m[i].key, v)])) <==> UniqueKeys(v)
  {
    var r := m[i := Entry(m[i].key, v)];
    assert r[i].value == v;
    if UniqueKeys(v) {
      forall j | 0 <= j < |r| ensures UniqueKeys(r[j].value) {
        assert j != i ==> r[j] == m[j];
      }
    }
  }

  lemma PutUnique(m: Entries, key: string, v: Node)
    requires UniqueKeys(Map(m))
    ensures UniqueKeys(Map(Put(m, key, v))) <==> UniqueKeys(v)
  {
    if Has(m, key) {
      ReplaceUnique(m, Find(m, key), v);
    } else {
      var r := Put(m, key, v);
      assert r[|m|].value == v;
      forall j | 0 <= j < |m| ensures r[j] == m[j] {}
    }
  }

  lemma RenamedUnique(m: Entries, from: string, to: string, v: Node)
    requires UniqueKeys(Map(m)) && Has(m, from) && UniqueKeys(v)
    ensures UniqueKeys(Map(Renamed(m, from, to, v))) <==> Fresh(m, from, to)
  {
    var r, i := Renamed(m, from, to, v), Find(m, from);
    assert r[i] == Entry(to, v);
    if Fresh(m, from, to) {
      forall j | 0 <= j < |r| ensures UniqueKeys(r[j].value) {
        assert j != i ==> r[j] == m[j];
      }
      forall j, k | 0 <= j < k < |r| ensures r[j].key != r[k].key {
        assert m[j].key != m[k].key;
      }
    } else {
      var j := Find(m, to);
      assert r[j].key == to;
      assert j < i || i < j;
    }
  }

  lemma EnvironmentUnique(environment: Entries, m: Materialization)
    requires UniqueKeys(Map(environment))
    ensures UniqueKeys(Map(RewrittenEnvironment(environment, m)))
  {
    var v1, v2, v3 := Str(m.name), Str("${DOCKER_DB_HOST:-" + m.host + "}"), Str("${DB_PORT:-" + m.port + "}");
    PutUnique(environment, "DB_TYPE", v1);
    PutUnique(Put(environment, "DB_TYPE", v1), "DB_HOST", v2);
    PutUnique(Put(Put(environment, "DB_TYPE", v1), "DB_HOST", v2), "DB_PORT", v3);
  }

  /** Overwriting one entry and assigning another key keeps keys unique exactly when both values do. */
  lemma SetThenPutUnique(m: Entries, i: nat, v: Node, key: string, w: Node)
    requires UniqueKeys(Map(m)) && i < |m| && m[i].key != key && UniqueKeys(w)
    ensures UniqueKeys(Map(Put(m[i := Entry(m[i].key, v)], key, w))) <==> UniqueKeys(v)
  {
    var r := m[i := Entry(m[i].key, v)];
    ReplaceUnique(m, i, v);
    if UniqueKeys(v) {
      PutUnique(r, key, w);
    } else {
      assert Put(r, key, w)[i].value == v;
    }
  }

  lemma AppUnique(app: Entries, current: string, m: Materialization)
    requires UniqueKeys(Map(app)) && Has(app, "depends_on") && Get(app, "depends_on").Map?
    requires Has(Get(app, "depends_on").entries, current)
    ensures UniqueKeys(Map(RewrittenApp(app, current, m))) <==> Fresh(Get(app, "depends_on").entries, current, m.name)
  {
    EnvironmentKeysDiffer();
    var i, dep := Find(app, "depends_on"), Get(app, "depends_on").entries;
    EnvironmentUnique(AppEnvironment(app), m);
    RenamedUnique(dep, current, m.name, HEALTHY);
    SetThenPutUnique(app, i, Map(Renamed(dep, current, m.name, HEALTHY)), "environment",
                     Map(RewrittenEnvironment(AppEnvironment(app), m)));
  }

  lemma ServicesUnique(services: Entries, i: nat, m: Materialization)
    requires UniqueKeys(Map(services)) && OnlyRdbAt(services, i) && AppFits(services, services[i].key)
    requires IsRdb(m.name) && UniqueKeys(m.service)
    ensures UniqueKeys(Map(RewrittenServices(services, services[i].key, m)))
       <==> Fresh(Get(Get(services, "app").entries, "depends_on").entries, services[i].key, m.name)
  {
    var app, at := Get(services, "app").entries, Find(services, "app");
    ServicesLookups(services, i, m);
    AppUnique(app, services[i].key, m);
    RenamedUnique(services, services[i].key, m.name, m.service);
    var mid := Renamed(services, services[i].key, m.name, m.service);
    if Has(services, m.name) {
      assert services[Find(services, m.name)].key == m.name;
    }
    assert mid[at] == services[at];
    ReplaceUnique(mid, at, Map(RewrittenApp(app, services[i].key, m)));
  }

  /** The rewritten file parses back exactly when the target's names were fresh. */
  lemma RewrittenUnique(root: Node, current: string, i: nat, m: Materialization)
    requires UniqueKeys(root) && SetTo(root, current, i) && IsRdb(m.name) && UniqueKeys(m.service)
    ensures UniqueKeys(Rewritten(root, current, m)) <==> TargetFresh(root, current, m.name)
  {
    EnvironmentKeysDiffer();
    var services, volumes := Get(root.entries, "services").entries, Get(root.entries, "volumes").entries;
    ServicesUnique(services, i, m);
    VolumesUnique(volumes, current, m);
    SetBothUnique(root.entries, "services", Map(RewrittenServices(services, current, m)), "volumes",
                  Map(RenamedVolumes(volumes, current, m)));
  }

  lemma VolumesUnique(volumes: Entries, current: string, m: Materialization)
    requires UniqueKeys(Map(volumes)) && Has(volumes, current + "-data")
    ensures UniqueKeys(Map(RenamedVolumes(volumes, current, m)))
       <==> Fresh(volumes, current + "-data", m.name + "-data")
  {
    RenamedUnique(volumes, current + "-data", m.name + "-data", Get(volumes, current + "-data"));
  }

  lemma SetBothUnique(m: Entries, j: string, v: Node, k: string, w: Node)
    requires UniqueKeys(Map(m)) && Has(m, j) && Has(m, k) && j != k
    ensures UniqueKeys(Map(SetBoth(m, j, v, k, w))) <==> UniqueKeys(v) && UniqueKeys(w)
  {
    var r := m[Find(m, j) := Entry(j, v)];
    ReplaceUnique(m, Find(m, j), v);
    if UniqueKeys(v) {
      ReplaceUnique(r, Find(m, k), w);
    } else {
      SetBothLookups(m, j, v, k, w);
    }
  }

  // ----- the document that the generator edits in place -----

  predicate HasApp(root: Node) {
    && root.Map? && Has(root.entries, "services") && Get(root.entries, "services").Map?
    && Has(Get(root.entries, "services").entries, "app") && Get(Get(root.entries, "services").entries, "app").Map?
  }

  function App(root: Node): Entries
    requires HasApp(root)
  {
    Get(Get(root.entries, "services").entries, "app").entries
  }

  function WithServices(root: Node, services: Entries): Node
    requires root.Map? && Has(root.entries, "services")
  {
    Map(root.entries[Find(root.entries, "services") := Entry("services", Map(services))])
  }

  function WithApp(root: Node, app: Entries): Node
    requires HasApp(root)
  {
    var services := Get(root.entries, "services").entries;
    WithServices(root, services[Find(services, "app") := Entry("app", Map(app))])
  }

  lemma ReplaceLooksUp(m: Entries, key: string, v: Node)
    requires Has(m, key)
    ensures var r := m[Find(m, key) := Entry(key, v)]; Has(r, key) && Find(r, key) == Find(m, key) && Get(r, key) == v
  {
    FindIs(m[Find(m, key) := Entry(key, v)], key, Find(m, key));
  }

  lemma WithAppLooksUp(root: Node, app: Entries, other: Entries)
    requires HasApp(root)
    ensures HasApp(WithApp(root, app)) && App(WithApp(root, app)) == app
    ensures WithApp(WithApp(root, app), other) == WithApp(root, other)
  {
    var services, at := Get(root.entries, "services").entries, Find(Get(root.entries, "services").entries, "app");
    var first := services[at := Entry("app", Map(app))];
    ReplaceLooksUp(services, "app", Map(app));
    ReplaceLooksUp(root.entries, "services", Map(first));
    assert first[at := Entry("app", Map(other))] == services[at := Entry("app", Map(other))];
    assert WithApp(WithApp(root, app), other).entries == WithApp(root, other).entries;
  }

  lemma UpdateInApp(root: Node, key: string, v: Node)
    requires HasApp(root) && Has(App(root), key)
    ensures GetIn(root, ["services", "app", key]).Some?
    ensures UpdateIn(root, ["services", "app", key], v)
         == WithApp(root, App(root)[Find(App(root), key) := Entry(key, v)])
  {
    var path := ["services", "app", key];
    AppPath(root, key);
    TopPath(root, "services");
    assert path == ["services"] + ["app", key] && ["app", key] == ["app"] + [key] && [key] == [key] + [];
    UpdateInStep(root, "services", ["app", key], v);
    UpdateInStep(Get(root.entries, "services"), "app", [key], v);
    UpdateInStep(Map(App(root)), key, [], v);
  }

  lemma UpdateInTop(root: Node, key: string, v: Node)
    requires root.Map? && Has(root.entries, key)
    ensures GetIn(root, [key]).Some?
    ensures UpdateIn(root, [key], v) == Map(root.entries[Find(root.entries, key) := Entry(key, v)])
  {
    TopPath(root, key);
    assert [key] == [key] + [];
    UpdateInStep(root, key, [], v);
  }

  lemma SetInEnvironment(root: Node, key: string, v: Node)
    requires HasApp(root)
    ensures var app := App(root);
            SetIn(root, ["services", "app", "environment", key], v) ==
            if Has(app, "environment") && !Get(app, "environment").Map? then Failure("environment")
            else Success(WithApp(root, Put(app, "environment", Map(Put(AppEnvironment(app), key, v)))))
  {
    var app := Map(App(root));
    assert ["services", "app", "environment", key] == ["services"] + ["app", "environment", key];
    assert ["app", "environment", key] == ["app"] + ["environment", key]
           && ["environment", key] == ["environment"] + [key];
    SetInStep(root, "services", ["app", "environment", key], v);
    SetInStep(Get(root.entries, "services"), "app", ["environment", key], v);
    SetInStep(app, "environment", [key], v);
    assert Put([], key, v) == [Entry(key, v)];
  }
}
