/** Room for the URL line: which value the line edit of the rewritten file meets, said of the file before
    the run. */
module ComposeUrlRoom {
  import opened ComposeGenerator
  import opened ComposeLaws
  import opened ComposeUrl
  import opened OrderedMap
  import opened Results
  import opened Selection
  import opened Yaml

  function SetAt(m: Entries, name: string, e: Entry<Node>): Entries
    requires Has(m, name)
  {
    m[Find(m, name) := e]
  }

  /** A key that the URL edits never look for or write. */
  predicate Foreign(key: string) {
    key != URL_KEY && key != ANCHOR_KEY
  }

  lemma ForeignKeys(d: Database)
    ensures Foreign("DB_TYPE") && Foreign("DB_HOST") && Foreign("DB_PORT") && Foreign(d.Name())
  {
    assert |URL_KEY| == 12 && |ANCHOR_KEY| == 11 && |"DB_TYPE"| == 7 && |"DB_HOST"| == 7 && |"DB_PORT"| == 7;
    assert |d.Name()| < 9;
  }

  // ----- the value that a line edit meets -----

  function Reach(m: Entries, depth: nat, key: string): Option<Node> {
    if HasDeep(m, depth, key) then Some(Target(m, depth, key)) else None
  }

  /** What one entry leads to. */
  function Lead(e: Entry<Node>, depth: nat, key: string): Option<Node> {
    if depth > 0 then (if e.value.Map? then Reach(e.value.entries, depth - 1, key) else None)
    else if e.key == key then Some(e.value)
    else None
  }

  lemma HitLeads(e: Entry<Node>, depth: nat, key: string)
    ensures Hit(e, depth, key) <==> Lead(e, depth, key).Some?
  {
  }

  /** The first entry that leads somewhere decides. */
  lemma ReachIs(m: Entries, depth: nat, key: string, i: nat)
    requires i <= |m| && forall j :: 0 <= j < i ==> Lead(m[j], depth, key) == None
    requires i < |m| ==> Lead(m[i], depth, key).Some?
    ensures Reach(m, depth, key) == if i < |m| then Lead(m[i], depth, key) else None
  {
    forall j | 0 <= j < |m| ensures Hit(m[j], depth, key) <==> Lead(m[j], depth, key).Some? {
      HitLeads(m[j], depth, key);
    }
    FirstIs(m, depth, key, i);
  }

  lemma LeadsBefore(m: Entries, depth: nat, key: string) returns (i: nat)
    ensures i <= |m| && (forall j :: 0 <= j < i ==> Lead(m[j], depth, key) == None)
    ensures i < |m| ==> Lead(m[i], depth, key).Some?
  {
    i := 0;
    while i < |m| && Lead(m[i], depth, key).None?
      invariant i <= |m| && forall j :: 0 <= j < i ==> Lead(m[j], depth, key) == None
    {
      i := i + 1;
    }
  }

  lemma SameReach(m: Entries, r: Entries, depth: nat, key: string)
    requires |m| == |r| && forall j :: 0 <= j < |m| ==> Lead(m[j], depth, key) == Lead(r[j], depth, key)
    ensures Reach(m, depth, key) == Reach(r, depth, key)
  {
    var i := LeadsBefore(m, depth, key);
    ReachIs(m, depth, key, i);
    ReachIs(r, depth, key, i);
  }

  lemma SetReach(m: Entries, i: nat, e: Entry<Node>, depth: nat, key: string)
    requires i < |m| && Lead(e, depth, key) == Lead(m[i], depth, key)
    ensures Reach(m[i := e], depth, key) == Reach(m, depth, key)
  {
    SameReach(m[i := e], m, depth, key);
  }

  lemma AppendReach(m: Entries, e: Entry<Node>, depth: nat, key: string)
    requires Lead(e, depth, key) == None
    ensures Reach(m + [e], depth, key) == Reach(m, depth, key)
  {
    var i := LeadsBefore(m, depth, key);
    ReachIs(m, depth, key, i);
    ReachIs(m + [e], depth, key, if i < |m| then i else i + 1);
  }

  /** Assigning a key leads where its old entry led, or nowhere. */
  lemma PutReach(m: Entries, name: string, v: Node, depth: nat, key: string)
    requires Lead(Entry(name, v), depth, key) == if Has(m, name) then Lead(m[Find(m, name)], depth, key) else None
    ensures Reach(Put(m, name, v), depth, key) == Reach(m, depth, key)
  {
    if Has(m, name) {
      SetReach(m, Find(m, name), Entry(name, v), depth, key);
    } else {
      AppendReach(m, Entry(name, v), depth, key);
    }
  }

  // ----- the rewriting, level by level -----

  lemma EnvironmentReach(environment: Entries, m: Materialization, key: string)
    requires !Foreign(key)
    ensures Reach(RewrittenEnvironment(environment, m), 0, key) == Reach(environment, 0, key)
  {
    ForeignKeys(Postgres);
    var type_, host, port := Str(m.name), Str("${DOCKER_DB_HOST:-" + m.host + "}"), Str("${DB_PORT:-" + m.port + "}");
    PutReach(environment, "DB_TYPE", type_, 0, key);
    PutReach(Put(environment, "DB_TYPE", type_), "DB_HOST", host, 0, key);
    PutReach(Put(Put(environment, "DB_TYPE", type_), "DB_HOST", host), "DB_PORT", port, 0, key);
  }

  lemma DependsReach(dep: Entries, current: string, to: string, key: string)
    requires Has(dep, current) && Foreign(current) && Foreign(to) && !Foreign(key)
    ensures Reach(Renamed(dep, current, to, HEALTHY), 0, key) == Reach(dep, 0, key)
  {
    SetReach(dep, Find(dep, current), Entry(to, HEALTHY), 0, key);
  }

  lemma AppReach(app: Entries, current: string, m: Materialization, key: string)
    requires Has(app, "depends_on") && Get(app, "depends_on").Map? && Has(Get(app, "depends_on").entries, current)
    requires Has(app, "environment") ==> Get(app, "environment").Map?
    requires Foreign(current) && Foreign(m.name) && !Foreign(key)
    ensures Reach(RewrittenApp(app, current, m), 1, key) == Reach(app, 1, key)
  {
    EnvironmentKeysDiffer();
    var i, dep := Find(app, "depends_on"), Get(app, "depends_on").entries;
    var e := Entry("depends_on", Map(Renamed(dep, current, m.name, HEALTHY)));
    DependsReach(dep, current, m.name, key);
    SetReach(app, i, e, 1, key);
    EnvironmentReach(AppEnvironment(app), m, key);
    SameKeysSameFind(app, app[i := e], "environment");
    PutReach(app[i := e], "environment", Map(RewrittenEnvironment(AppEnvironment(app), m)), 1, key);
  }

  /** A service body whose maps hold neither key of the URL edits. */
  predicate NoUrl(service: Node) {
    service.Map? ==> !HasDeep(service.entries, 1, URL_KEY) && !HasDeep(service.entries, 1, ANCHOR_KEY)
  }

  lemma ServicesReach(services: Entries, i: nat, m: Materialization, key: string)
    requires OnlyRdbAt(services, i) && AppFits(services, services[i].key) && RowSet(m)
    requires Foreign(services[i].key) && !Foreign(key)
    ensures Has(services, services[i].key)
    ensures Reach(RewrittenServices(services, services[i].key, m), 2, key)
         == Reach(services[i := Entry(services[i].key, Null)], 2, key)
  {
    var current, at, app := services[i].key, Find(services, "app"), Get(services, "app").entries;
    ServicesLookups(services, i, m);
    AppReach(app, current, m, key);
    var r, blank := RewrittenServices(services, current, m), services[i := Entry(current, Null)];
    forall j | 0 <= j < |services| ensures Lead(r[j], 2, key) == Lead(blank[j], 2, key) {
      if j == i {
        BodyLeadsNowhere(m, key);
      } else {
        assert j != at ==> r[j] == services[j] == blank[j];
      }
    }
    SameReach(r, blank, 2, key);
  }

  lemma BodyLeadsNowhere(m: Materialization, key: string)
    requires RowSet(m) && !Foreign(key)
    ensures Lead(Entry(m.name, m.service), 2, key) == None
  {
  }

  lemma VolumesReach(volumes: Entries, current: string, m: Materialization, key: string)
    requires Has(volumes, current + "-data")
    ensures Reach(RenamedVolumes(volumes, current, m), 2, key) == Reach(volumes, 2, key)
  {
    var data := current + "-data";
    SetReach(volumes, Find(volumes, data), Entry(m.name + "-data", Get(volumes, data)), 2, key);
  }

  lemma RewrittenIs(root: Node, current: string, m: Materialization)
    requires Fits(root, current)
    ensures var services, volumes := Get(root.entries, "services").entries, Get(root.entries, "volumes").entries;
            var top := SetAt(root.entries, "services", Entry("services", Map(RewrittenServices(services, current, m))));
            && Has(top, "volumes") && Get(top, "volumes") == Get(root.entries, "volumes")
            && Rewritten(root, current, m)
                 == Map(SetAt(top, "volumes", Entry("volumes", Map(RenamedVolumes(volumes, current, m)))))
  {
    EnvironmentKeysDiffer();
    var services := Get(root.entries, "services").entries;
    FindAfterReplace(root.entries, Find(root.entries, "services"),
                     Entry("services", Map(RewrittenServices(services, current, m))), "volumes");
  }

  // ----- the condition on the file before the run -----

  /** The file without the body of its RDB service, which the rewriting throws away. */
  function Blanked(root: Node, current: string): Entries
    requires Fits(root, current)
  {
    var services := Get(root.entries, "services").entries;
    SetAt(root.entries, "services", Entry("services", Map(SetAt(services, current, Entry(current, Null)))))
  }

  predicate RoomIn(m: Entries) {
    match Reach(m, 3, URL_KEY)
    case Some(v) => OneLine(v)
    case None => match Reach(m, 3, ANCHOR_KEY) case Some(v) => OneLine(v) case None => true
  }

  /** Outside the RDB service, the first `DATABASE_URL` entry three levels down, or else the first
      `DB_DATABASE`, holds a value that fits on its line. */
  predicate UrlRoom(root: Node, current: string)
    requires Fits(root, current)
  {
    RoomIn(Blanked(root, current))
  }

  lemma EditReadableIff(root: Node, url: string)
    requires root.Map?
    ensures WithDatabaseUrlCompose(root, url).Readable? <==> RoomIn(root.entries)
  {
  }

  lemma RootReach(root: Node, current: string, i: nat, m: Materialization, key: string)
    requires SetTo(root, current, i) && RowSet(m) && Foreign(current) && !Foreign(key)
    ensures Reach(Rewritten(root, current, m).entries, 3, key) == Reach(Blanked(root, current), 3, key)
  {
    var services, volumes := Get(root.entries, "services").entries, Get(root.entries, "volumes").entries;
    var written, blank := RewrittenServices(services, current, m), SetAt(services, current, Entry(current, Null));
    FindIs(services, current, i);
    ServicesReach(services, i, m, key);
    VolumesReach(volumes, current, m, key);
    RewrittenIs(root, current, m);
    MapReach(SetAt(root.entries, "services", Entry("services", Map(written))), "volumes", volumes,
             RenamedVolumes(volumes, current, m), 3, key);
    TwoMapsReach(root.entries, "services", written, blank, 3, key);
  }

  lemma MapReach(m: Entries, name: string, child: Entries, other: Entries, depth: nat, key: string)
    requires Has(m, name) && Get(m, name) == Map(child)
    requires depth > 0 && Reach(child, depth - 1, key) == Reach(other, depth - 1, key)
    ensures Reach(SetAt(m, name, Entry(name, Map(other))), depth, key) == Reach(m, depth, key)
  {
    SetReach(m, Find(m, name), Entry(name, Map(other)), depth, key);
  }

  lemma TwoMapsReach(m: Entries, name: string, a: Entries, b: Entries, depth: nat, key: string)
    requires Has(m, name) && depth > 0 && Reach(a, depth - 1, key) == Reach(b, depth - 1, key)
    ensures Reach(SetAt(m, name, Entry(name, Map(a))), depth, key)
         == Reach(SetAt(m, name, Entry(name, Map(b))), depth, key)
  {
    SameReach(SetAt(m, name, Entry(name, Map(a))), SetAt(m, name, Entry(name, Map(b))), depth, key);
  }

  lemma CurrentIsForeign(root: Node, current: string, i: nat)
    requires SetTo(root, current, i)
    ensures Foreign(current)
  {
    ForeignKeys(Rdb(current));
  }

  /** The URL line of the rewritten file can be edited exactly when the file before the run had room. */
  lemma UrlRoomIff(root: Node, current: string, i: nat, m: Materialization, url: string)
    requires SetTo(root, current, i) && RowSet(m)
    ensures WithDatabaseUrlCompose(Rewritten(root, current, m), url).Readable? <==> UrlRoom(root, current)
  {
    CurrentIsForeign(root, current, i);
    RootReach(root, current, i, m, URL_KEY);
    RootReach(root, current, i, m, ANCHOR_KEY);
    EditReadableIff(Rewritten(root, current, m), url);
  }

  // ----- the rows of the table -----

  /** A value of the table that the URL edits pass by. */
  ghost predicate RowSet(m: Materialization) {
    IsRdb(m.name) && Foreign(m.name) && NoUrl(m.service) && UniqueKeys(m.service)
  }

  lemma {:induction false} NoDeepKey(m: Entries, key: string)
    requires key != "" && key[0] == 'D' && forall j :: 0 <= j < |m| ==> m[j].key != "" && m[j].key[0] != 'D'
    ensures !HasDeep(m, 0, key)
  {
    FirstIs(m, 0, key, |m|);
  }

  lemma SixPassed(m: Entries, key: string)
    requires |m| == 6 && m[2].value.Map? && m[5].value.Map? && !m[0].value.Map? && !m[1].value.Map? && !m[3].value.Map?
    requires !m[4].value.Map?
    requires !HasDeep(m[2].value.entries, 0, key) && !HasDeep(m[5].value.entries, 0, key)
    ensures !HasDeep(m, 1, key)
  {
    FirstIs(m, 1, key, 6);
  }

  lemma ServicePassesUrl(d: Database, key: string)
    requires key != "" && key[0] == 'D'
    ensures !HasDeep(ComposeService(d).entries, 1, key)
  {
    EnvironmentInitials(d);
    NoDeepKey(ServiceEnvironment(d).entries, key);
    ServicePasses(Str(ImageOf(d)), ServiceEnvironment(d), Texts(["${DB_HOST_PORT:-" + Port(d) + "}:" + Port(d)]),
                  Texts([d.Name() + "-data:" + DataPath(d)]), HealthTest(d), key);
  }

  lemma ServicePasses(image: Node, environment: Node, ports: Node, volumes: Node, test: Node, key: string)
    requires !image.Map? && environment.Map? && !ports.Map? && !volumes.Map? && !HasDeep(environment.entries, 0, key)
    requires key != "" && key[0] == 'D'
    ensures !HasDeep(Service(image, environment, ports, volumes, test).entries, 1, key)
  {
    HealthcheckPasses(test, key);
    SixPassed(Service(image, environment, ports, volumes, test).entries, key);
  }

  lemma HealthcheckPasses(test: Node, key: string)
    requires key != "" && key[0] == 'D'
    ensures !HasDeep(Healthcheck(test).entries, 0, key)
  {
    NoDeepKey(Healthcheck(test).entries, key);
  }

  lemma EnvironmentInitials(d: Database)
    ensures forall j :: 0 <= j < |ServiceEnvironment(d).entries| ==>
              ServiceEnvironment(d).entries[j].key != "" && ServiceEnvironment(d).entries[j].key[0] != 'D'
  {
    var m := ServiceEnvironment(d).entries;
    forall j | 0 <= j < |m| ensures m[j].key != "" && m[j].key[0] != 'D' {
      assert m[j] == Setting(d, j);
      assert Prefix(d)[0] != 'D';
    }
  }

  lemma RowIsSet(d: Database)
    ensures RowSet(MaterializationOf(d))
  {
    MaterializationFits(d);
    ForeignKeys(d);
    assert URL_KEY[0] == 'D' && ANCHOR_KEY[0] == 'D';
    ServicePassesUrl(d, URL_KEY);
    ServicePassesUrl(d, ANCHOR_KEY);
  }
}
