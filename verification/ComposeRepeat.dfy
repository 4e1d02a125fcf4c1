/** The whole compose step of the script, run twice: the rewriting of the tree and the edit of the URL line
    do not disturb each other, so the last selection wins. */
module ComposeRepeat {
  import opened ComposeAgreement
  import opened ComposeGenerator
  import opened ComposeLaws
  import opened ComposeUrl
  import opened ComposeUrlRoom
  import opened OrderedMap
  import opened Results
  import opened Selection
  import opened Yaml

  /** The two edits of the URL line. */
  predicate IsUrlEdit(found: string, edit: Edit) {
    match edit
    case Overwrite(_) => found == URL_KEY
    case InsertAfter(key, _) => found == ANCHOR_KEY && key == URL_KEY
  }

  // ----- one entry replaced, and an edit -----

  lemma SetFirst(m: Entries, depth: nat, key: string, name: string, e: Entry<Node>)
    requires Has(m, name) && Hit(e, depth, key) == Hit(m[Find(m, name)], depth, key)
    ensures First(SetAt(m, name, e), depth, key) == First(m, depth, key)
  {
    FirstHits(m, depth, key);
    var r := SetAt(m, name, e);
    assert forall j :: 0 <= j < |m| ==> Hit(r[j], depth, key) == Hit(m[j], depth, key);
    FirstIs(r, depth, key, First(m, depth, key));
  }

  lemma LeafOverwrite(m: Entries, found: string, v: Node, name: string, e: Entry<Node>)
    requires Has(m, name) && HasDeep(m, 0, found) && name != found && e.key != found
    ensures var r := EditDeep(m, 0, found, Overwrite(v));
            && Has(r, name) && Get(r, name) == Get(m, name) && HasDeep(SetAt(m, name, e), 0, found)
            && Target(SetAt(m, name, e), 0, found) == Target(m, 0, found)
            && EditDeep(SetAt(m, name, e), 0, found, Overwrite(v)) == SetAt(r, name, e)
  {
    FirstHits(m, 0, found);
    SetFirst(m, 0, found, name, e);
    var i, j := First(m, 0, found), Find(m, name);
    FindAfterReplace(m, i, Entry(found, v), name);
    assert m[j := e][i := Entry(found, v)] == m[i := Entry(found, v)][j := e];
  }

  lemma FindAfterInsert(m: Entries, i: nat, x: Entry<Node>, name: string)
    requires i < |m| && Has(m, name) && x.key != name
    ensures var r := m[..i + 1] + [x] + m[i + 1..]; var j := Find(m, name);
            Find(r, name) == (if j <= i then j else j + 1) && Has(r, name) && Get(r, name) == Get(m, name)
  {
    var r, j := m[..i + 1] + [x] + m[i + 1..], Find(m, name);
    FindIs(r, name, if j <= i then j else j + 1);
  }

  lemma SetAroundInsert(m: Entries, i: nat, x: Entry<Node>, j: nat, e: Entry<Node>)
    requires i < |m| && j < |m| && i != j
    ensures m[j := e][..i + 1] + [x] + m[j := e][i + 1..]
         == (m[..i + 1] + [x] + m[i + 1..])[(if j <= i then j else j + 1) := e]
  {
  }

  lemma LeafInsert(m: Entries, found: string, key: string, v: Node, name: string, e: Entry<Node>)
    requires Has(m, name) && HasDeep(m, 0, found) && name != found && e.key != found && name != key
    ensures var r := EditDeep(m, 0, found, InsertAfter(key, v));
            && Has(r, name) && Get(r, name) == Get(m, name) && HasDeep(SetAt(m, name, e), 0, found)
            && Target(SetAt(m, name, e), 0, found) == Target(m, 0, found)
            && EditDeep(SetAt(m, name, e), 0, found, InsertAfter(key, v)) == SetAt(r, name, e)
  {
    FirstHits(m, 0, found);
    SetFirst(m, 0, found, name, e);
    var i, j := First(m, 0, found), Find(m, name);
    FindAfterInsert(m, i, Entry(key, v), name);
    SetAroundInsert(m, i, Entry(key, v), j, e);
  }

  /** On the level of the edit: replacing a foreign entry by a foreign one and editing commute. */
  lemma LeafCommutes(m: Entries, found: string, edit: Edit, name: string, e: Entry<Node>)
    requires Has(m, name) && HasDeep(m, 0, found) && IsUrlEdit(found, edit) && Foreign(name) && Foreign(e.key)
    ensures var r := EditDeep(m, 0, found, edit);
            && Has(r, name) && Get(r, name) == Get(m, name) && HasDeep(SetAt(m, name, e), 0, found)
            && Target(SetAt(m, name, e), 0, found) == Target(m, 0, found)
            && EditDeep(SetAt(m, name, e), 0, found, edit) == SetAt(r, name, e)
  {
    match edit
    case Overwrite(v) => LeafOverwrite(m, found, v, name, e);
    case InsertAfter(key, v) => LeafInsert(m, found, key, v, name, e);
  }

  /** The value behind a name, edited below when the edit falls there. */
  function Below(n: Node, here: bool, depth: nat, found: string, edit: Edit): Node
    requires here ==> n.Map? && HasDeep(n.entries, depth, found)
  {
    if here then Map(EditDeep(n.entries, depth, found, edit)) else n
  }

  /** Above the level of the edit: replacing an entry by one that the edit reaches exactly when it reached
      the old one, and editing, commute. */
  lemma InnerCommutes(m: Entries, depth: nat, found: string, edit: Edit, name: string, e: Entry<Node>)
    requires depth > 0 && Has(m, name) && HasDeep(m, depth, found)
    requires Hit(e, depth, found) == Hit(m[Find(m, name)], depth, found)
    ensures var here, r := First(m, depth, found) == Find(m, name), EditDeep(m, depth, found, edit);
            && (here ==> Hit(m[Find(m, name)], depth, found) && Hit(e, depth, found))
            && Find(r, name) == Find(m, name) && Has(r, name)
            && Get(r, name) == Below(Get(m, name), here, depth - 1, found, edit)
            && First(SetAt(m, name, e), depth, found) == First(m, depth, found)
            && EditDeep(SetAt(m, name, e), depth, found, edit)
                 == SetAt(r, name, Entry(e.key, Below(e.value, here, depth - 1, found, edit)))
  {
    FirstHits(m, depth, found);
    SetFirst(m, depth, found, name, e);
    var i, r := First(m, depth, found), EditDeep(m, depth, found, edit);
    SameKeysSameFind(m, r, name);
  }

  lemma InnerTarget(m: Entries, depth: nat, found: string, name: string, e: Entry<Node>)
    requires depth > 0 && Has(m, name) && HasDeep(m, depth, found)
    requires Hit(e, depth, found) == Hit(m[Find(m, name)], depth, found)
    requires First(m, depth, found) == Find(m, name) && Hit(e, depth, found) ==>
               Get(m, name).Map? && HasDeep(Get(m, name).entries, depth - 1, found)
               && Target(e.value.entries, depth - 1, found) == Target(Get(m, name).entries, depth - 1, found)
    ensures HasDeep(SetAt(m, name, e), depth, found)
    ensures Target(SetAt(m, name, e), depth, found) == Target(m, depth, found)
  {
    FirstHits(m, depth, found);
    SetFirst(m, depth, found, name, e);
  }

  // ----- the environment -----

  predicate HasSettings(environment: Entries) {
    Has(environment, "DB_TYPE") && Has(environment, "DB_HOST") && Has(environment, "DB_PORT")
  }

  lemma PutCommutes(m: Entries, found: string, edit: Edit, name: string, v: Node)
    requires Has(m, name) && HasDeep(m, 0, found) && IsUrlEdit(found, edit) && Foreign(name)
    ensures var r := EditDeep(m, 0, found, edit);
            && Has(r, name) && HasDeep(Put(m, name, v), 0, found)
            && Target(Put(m, name, v), 0, found) == Target(m, 0, found)
            && EditDeep(Put(m, name, v), 0, found, edit) == Put(r, name, v)
  {
    LeafCommutes(m, found, edit, name, Entry(name, v));
  }

  lemma PutFirst(m: Entries, key: string, name: string, v: Node)
    requires Has(m, name) && name != key
    ensures First(Put(m, name, v), 0, key) == First(m, 0, key) && |Put(m, name, v)| == |m|
  {
    SetFirst(m, 0, key, name, Entry(name, v));
  }

  /** Three assignments to present, foreign keys. */
  function PutThree(m: Entries, a: string, u: Node, b: string, v: Node, c: string, w: Node): Entries {
    Put(Put(Put(m, a, u), b, v), c, w)
  }

  lemma PutThreeHas(m: Entries, a: string, u: Node, b: string, v: Node, c: string)
    requires Has(m, a) && Has(m, b) && Has(m, c) && a != b && b != c && a != c
    ensures Has(Put(m, a, u), b) && Has(Put(Put(m, a, u), b, v), c)
  {
    PutOther(m, a, u, b);
    PutOther(m, a, u, c);
    PutOther(Put(m, a, u), b, v, c);
  }

  lemma PutThreeCommutes(m: Entries, found: string, edit: Edit, a: string, u: Node, b: string, v: Node, c: string,
                         w: Node)
    requires Has(m, a) && Has(m, b) && Has(m, c) && a != b && b != c && a != c && Foreign(a) && Foreign(b) && Foreign(c)
    requires HasDeep(m, 0, found) && IsUrlEdit(found, edit)
    ensures var r, x := EditDeep(m, 0, found, edit), PutThree(m, a, u, b, v, c, w);
            && Has(r, a) && Has(r, b) && Has(r, c) && HasDeep(x, 0, found) && Target(x, 0, found) == Target(m, 0, found)
            && EditDeep(x, 0, found, edit) == PutThree(r, a, u, b, v, c, w)
  {
    PutThreeHas(m, a, u, b, v, c);
    PutCommutes(m, found, edit, a, u);
    PutCommutes(m, found, edit, b, v);
    PutCommutes(m, found, edit, c, w);
    PutCommutes(Put(m, a, u), found, edit, b, v);
    PutCommutes(Put(Put(m, a, u), b, v), found, edit, c, w);
  }

  lemma PutThreeFirst(m: Entries, key: string, a: string, u: Node, b: string, v: Node, c: string, w: Node)
    requires Has(m, a) && Has(m, b) && Has(m, c) && a != b && b != c && a != c && a != key && b != key && c != key
    ensures First(PutThree(m, a, u, b, v, c, w), 0, key) == First(m, 0, key) && |PutThree(m, a, u, b, v, c, w)| == |m|
  {
    PutThreeHas(m, a, u, b, v, c);
    PutFirst(m, key, a, u);
    PutFirst(Put(m, a, u), key, b, v);
    PutFirst(Put(Put(m, a, u), b, v), key, c, w);
  }

  lemma EnvironmentCommutes(environment: Entries, m: Materialization, found: string, edit: Edit)
    requires HasSettings(environment) && HasDeep(environment, 0, found) && IsUrlEdit(found, edit)
    ensures var r, x := EditDeep(environment, 0, found, edit), RewrittenEnvironment(environment, m);
            && HasSettings(r) && HasDeep(x, 0, found) && Target(x, 0, found) == Target(environment, 0, found)
            && EditDeep(x, 0, found, edit) == RewrittenEnvironment(r, m)
  {
    EnvironmentKeysDiffer();
    ForeignKeys(Postgres);
    PutThreeCommutes(environment, found, edit, "DB_TYPE", Str(m.name), "DB_HOST",
                     Str("${DOCKER_DB_HOST:-" + m.host + "}"),
                     "DB_PORT", Str("${DB_PORT:-" + m.port + "}"));
  }

  lemma EnvironmentFirst(environment: Entries, m: Materialization, key: string)
    requires HasSettings(environment) && !Foreign(key)
    ensures First(RewrittenEnvironment(environment, m), 0, key) == First(environment, 0, key)
    ensures |RewrittenEnvironment(environment, m)| == |environment|
  {
    EnvironmentKeysDiffer();
    ForeignKeys(Postgres);
    PutThreeFirst(environment, key, "DB_TYPE", Str(m.name), "DB_HOST", Str("${DOCKER_DB_HOST:-" + m.host + "}"),
                  "DB_PORT", Str("${DB_PORT:-" + m.port + "}"));
  }

  // ----- the app service -----

  lemma DependsCommutes(dep: Entries, current: string, to: string, found: string, edit: Edit)
    requires Has(dep, current) && HasDeep(dep, 0, found) && IsUrlEdit(found, edit) && Foreign(current) && Foreign(to)
    ensures var r, x := EditDeep(dep, 0, found, edit), Renamed(dep, current, to, HEALTHY);
            && Has(r, current) && HasDeep(x, 0, found) && Target(x, 0, found) == Target(dep, 0, found)
            && EditDeep(x, 0, found, edit) == Renamed(r, current, to, HEALTHY)
  {
    LeafCommutes(dep, found, edit, current, Entry(to, HEALTHY));
  }

  lemma DependsFirst(dep: Entries, current: string, to: string, key: string)
    requires Has(dep, current) && Foreign(current) && Foreign(to) && !Foreign(key)
    ensures First(Renamed(dep, current, to, HEALTHY), 0, key) == First(dep, 0, key)
  {
    SetFirst(dep, 0, key, current, Entry(to, HEALTHY));
  }

  /** An `app` that a first run has left. */
  predicate AppSet(app: Entries, current: string) {
    && Has(app, "depends_on") && Get(app, "depends_on").Map? && Has(Get(app, "depends_on").entries, current)
    && Has(app, "environment") && Get(app, "environment").Map? && HasSettings(Get(app, "environment").entries)
  }

  function DependsEntry(app: Entries, current: string, to: string): Entry<Node>
    requires AppSet(app, current)
  {
    Entry("depends_on", Map(Renamed(Get(app, "depends_on").entries, current, to, HEALTHY)))
  }

  function EnvironmentEntry(app: Entries, current: string, m: Materialization): Entry<Node>
    requires AppSet(app, current)
  {
    Entry("environment", Map(RewrittenEnvironment(Get(app, "environment").entries, m)))
  }

  lemma RewrittenAppIs(app: Entries, current: string, m: Materialization)
    requires AppSet(app, current)
    ensures Has(SetAt(app, "depends_on", DependsEntry(app, current, m.name)), "environment")
    ensures Get(SetAt(app, "depends_on", DependsEntry(app, current, m.name)), "environment") == Get(app, "environment")
    ensures RewrittenApp(app, current, m)
         == SetAt(SetAt(app, "depends_on", DependsEntry(app, current, m.name)), "environment",
                  EnvironmentEntry(app, current, m))
  {
    EnvironmentKeysDiffer();
    FindAfterReplace(app, Find(app, "depends_on"), DependsEntry(app, current, m.name), "environment");
  }

  lemma HitMap(e: Entry<Node>, depth: nat, key: string)
    requires depth > 0 && e.value.Map?
    ensures Hit(e, depth, key) <==> HasDeep(e.value.entries, depth - 1, key)
  {
  }

  lemma AppHits(app: Entries, current: string, m: Materialization, key: string)
    requires AppSet(app, current) && Foreign(current) && Foreign(m.name) && !Foreign(key)
    ensures Hit(DependsEntry(app, current, m.name), 1, key) == Hit(app[Find(app, "depends_on")], 1, key)
    ensures Hit(EnvironmentEntry(app, current, m), 1, key) == Hit(app[Find(app, "environment")], 1, key)
  {
    DependsFirst(Get(app, "depends_on").entries, current, m.name, key);
    EnvironmentFirst(Get(app, "environment").entries, m, key);
  }

  lemma AppFirst(app: Entries, current: string, m: Materialization, key: string)
    requires AppSet(app, current) && Foreign(current) && Foreign(m.name) && !Foreign(key)
    ensures First(RewrittenApp(app, current, m), 1, key) == First(app, 1, key)
    ensures |RewrittenApp(app, current, m)| == |app|
  {
    RewrittenAppIs(app, current, m);
    AppHits(app, current, m, key);
    var app1 := SetAt(app, "depends_on", DependsEntry(app, current, m.name));
    SetFirst(app, 1, key, "depends_on", DependsEntry(app, current, m.name));
    assert app1[Find(app1, "environment")].value == Get(app, "environment");
    HitMap(app1[Find(app1, "environment")], 1, key);
    HitMap(app[Find(app, "environment")], 1, key);
    SetFirst(app1, 1, key, "environment", EnvironmentEntry(app, current, m));
  }

  lemma DependsPart(app: Entries, current: string, to: string, found: string, edit: Edit)
    requires AppSet(app, current) && Foreign(current) && Foreign(to) && HasDeep(app, 1, found) && IsUrlEdit(found, edit)
    ensures var r, x := EditDeep(app, 1, found, edit), SetAt(app, "depends_on", DependsEntry(app, current, to));
            && Has(r, "depends_on") && Get(r, "depends_on").Map? && Has(Get(r, "depends_on").entries, current)
            && HasDeep(x, 1, found) && Target(x, 1, found) == Target(app, 1, found)
            && EditDeep(x, 1, found, edit)
               == SetAt(r, "depends_on",
                        Entry("depends_on", Map(Renamed(Get(r, "depends_on").entries, current, to, HEALTHY))))
  {
    var dep, e := Get(app, "depends_on").entries, DependsEntry(app, current, to);
    DependsFirst(dep, current, to, found);
    HitMap(e, 1, found);
    HitMap(app[Find(app, "depends_on")], 1, found);
    InnerCommutes(app, 1, found, edit, "depends_on", e);
    if First(app, 1, found) == Find(app, "depends_on") {
      DependsCommutes(dep, current, to, found, edit);
    }
    InnerTarget(app, 1, found, "depends_on", e);
  }

  lemma EnvironmentPart(app: Entries, environment: Entries, m: Materialization, found: string, edit: Edit)
    requires Has(app, "environment") && Get(app, "environment") == Map(environment) && HasSettings(environment)
    requires HasDeep(app, 1, found) && IsUrlEdit(found, edit)
    ensures var r, x := EditDeep(app, 1, found, edit),
            SetAt(app, "environment", Entry("environment", Map(RewrittenEnvironment(environment, m))));
            && Has(r, "environment") && Get(r, "environment").Map? && HasSettings(Get(r, "environment").entries)
            && HasDeep(x, 1, found) && Target(x, 1, found) == Target(app, 1, found)
            && EditDeep(x, 1, found, edit)
               == SetAt(r, "environment",
                        Entry("environment", Map(RewrittenEnvironment(Get(r, "environment").entries, m))))
  {
    var e := Entry("environment", Map(RewrittenEnvironment(environment, m)));
    EnvironmentFirst(environment, m, found);
    HitMap(e, 1, found);
    HitMap(app[Find(app, "environment")], 1, found);
    InnerCommutes(app, 1, found, edit, "environment", e);
    if First(app, 1, found) == Find(app, "environment") {
      EnvironmentCommutes(environment, m, found, edit);
    }
    InnerTarget(app, 1, found, "environment", e);
  }

  lemma AppCommutes(app: Entries, current: string, m: Materialization, found: string, edit: Edit)
    requires AppSet(app, current) && Foreign(current) && Foreign(m.name) && HasDeep(app, 1, found)
    requires IsUrlEdit(found, edit)
    ensures var r, x := EditDeep(app, 1, found, edit), RewrittenApp(app, current, m);
            && AppSet(r, current) && HasDeep(x, 1, found) && Target(x, 1, found) == Target(app, 1, found)
            && EditDeep(x, 1, found, edit) == RewrittenApp(r, current, m)
  {
    var environment, r := Get(app, "environment").entries, EditDeep(app, 1, found, edit);
    var app1 := SetAt(app, "depends_on", DependsEntry(app, current, m.name));
    DependsPart(app, current, m.name, found, edit);
    EnvironmentPart(app, environment, m, found, edit);
    RewrittenAppIs(app, current, m);
    EnvironmentPart(app1, environment, m, found, edit);
    RewrittenAppIs(r, current, m);
  }

  // ----- the services -----

  /** Services that a first run has left: the one RDB service has a body of the table. */
  predicate ServicesSet(services: Entries, i: nat) {
    && OnlyRdbAt(services, i) && NoUrl(services[i].value) && Foreign(services[i].key)
    && Has(services, "app") && Get(services, "app").Map? && AppSet(Get(services, "app").entries, services[i].key)
  }

  lemma NoUrlMisses(e: Entry<Node>, key: string)
    requires NoUrl(e.value) && !Foreign(key)
    ensures !Hit(e, 2, key)
  {
  }

  function AppEntry(services: Entries, i: nat, m: Materialization): Entry<Node>
    requires ServicesSet(services, i)
  {
    Entry("app", Map(RewrittenApp(Get(services, "app").entries, services[i].key, m)))
  }

  lemma RewrittenServicesIs(services: Entries, i: nat, m: Materialization)
    requires ServicesSet(services, i) && IsRdb(m.name)
    ensures Find(services, services[i].key) == i && AppFits(services, services[i].key)
    ensures var s1 := services[i := Entry(m.name, m.service)];
            && Has(s1, "app") && Find(s1, "app") == Find(services, "app") && Get(s1, "app") == Get(services, "app")
            && RewrittenServices(services, services[i].key, m) == SetAt(s1, "app", AppEntry(services, i, m))
  {
    EnvironmentKeysDiffer();
    FindIs(services, services[i].key, i);
    FindAfterReplace(services, i, Entry(m.name, m.service), "app");
  }

  lemma AppHit(services: Entries, i: nat, m: Materialization, key: string)
    requires ServicesSet(services, i) && Foreign(m.name) && !Foreign(key)
    ensures Hit(AppEntry(services, i, m), 2, key) == Hit(services[Find(services, "app")], 2, key)
  {
    AppFirst(Get(services, "app").entries, services[i].key, m, key);
  }

  lemma ServicesFirst(services: Entries, i: nat, m: Materialization, key: string)
    requires ServicesSet(services, i) && IsRdb(m.name) && Foreign(m.name) && NoUrl(m.service) && !Foreign(key)
    ensures AppFits(services, services[i].key) && Has(services, services[i].key)
    ensures var x := RewrittenServices(services, services[i].key, m);
            First(x, 2, key) == First(services, 2, key) && |x| == |services|
  {
    RewrittenServicesIs(services, i, m);
    NoUrlMisses(services[i], key);
    NoUrlMisses(Entry(m.name, m.service), key);
    SetFirst(services, 2, key, services[i].key, Entry(m.name, m.service));
    AppHit(services, i, m, key);
    var s1 := services[i := Entry(m.name, m.service)];
    assert s1[Find(s1, "app")] == services[Find(services, "app")];
    SetFirst(s1, 2, key, "app", AppEntry(services, i, m));
  }

  /** The edit passes the RDB service by. */
  lemma ServicePassed(services: Entries, i: nat, m: Materialization, found: string, edit: Edit)
    requires ServicesSet(services, i) && NoUrl(m.service) && HasDeep(services, 2, found) && IsUrlEdit(found, edit)
    ensures var r, s1 := EditDeep(services, 2, found, edit), services[i := Entry(m.name, m.service)];
            && |r| == |services| && r[i] == services[i] && (forall j :: 0 <= j < |r| ==> r[j].key == services[j].key)
            && HasDeep(s1, 2, found) && Target(s1, 2, found) == Target(services, 2, found)
            && EditDeep(s1, 2, found, edit) == r[i := Entry(m.name, m.service)]
  {
    FindIs(services, services[i].key, i);
    NoUrlMisses(services[i], found);
    NoUrlMisses(Entry(m.name, m.service), found);
    FirstHits(services, 2, found);
    InnerCommutes(services, 2, found, edit, services[i].key, Entry(m.name, m.service));
    InnerTarget(services, 2, found, services[i].key, Entry(m.name, m.service));
  }

  lemma AppPart(services: Entries, app: Entries, current: string, m: Materialization, found: string, edit: Edit)
    requires Has(services, "app") && Get(services, "app") == Map(app) && AppSet(app, current) && Foreign(current)
    requires Foreign(m.name)
    requires HasDeep(services, 2, found) && IsUrlEdit(found, edit)
    ensures var r, x := EditDeep(services, 2, found, edit),
            SetAt(services, "app", Entry("app", Map(RewrittenApp(app, current, m))));
            && Has(r, "app") && Find(r, "app") == Find(services, "app") && Get(r, "app").Map?
            && AppSet(Get(r, "app").entries, current)
            && HasDeep(x, 2, found) && Target(x, 2, found) == Target(services, 2, found)
            && EditDeep(x, 2, found, edit)
                 == SetAt(r, "app", Entry("app", Map(RewrittenApp(Get(r, "app").entries, current, m))))
  {
    var e := Entry("app", Map(RewrittenApp(app, current, m)));
    AppFirst(app, current, m, found);
    HitMap(e, 2, found);
    HitMap(services[Find(services, "app")], 2, found);
    InnerCommutes(services, 2, found, edit, "app", e);
    if First(services, 2, found) == Find(services, "app") {
      AppCommutes(app, current, m, found, edit);
    }
    InnerTarget(services, 2, found, "app", e);
  }

  lemma ServicesCommute(services: Entries, i: nat, m: Materialization, found: string, edit: Edit)
    requires ServicesSet(services, i) && IsRdb(m.name) && Foreign(m.name) && NoUrl(m.service)
    requires HasDeep(services, 2, found) && IsUrlEdit(found, edit)
    ensures AppFits(services, services[i].key) && Has(services, services[i].key)
    ensures var r, x := EditDeep(services, 2, found, edit), RewrittenServices(services, services[i].key, m);
            && |r| == |services| && ServicesSet(r, i) && r[i].key == services[i].key
            && AppFits(r, services[i].key) && Has(r, services[i].key)
            && HasDeep(x, 2, found) && Target(x, 2, found) == Target(services, 2, found)
            && EditDeep(x, 2, found, edit) == RewrittenServices(r, services[i].key, m)
  {
    var current, app, r := services[i].key, Get(services, "app").entries, EditDeep(services, 2, found, edit);
    RewrittenServicesIs(services, i, m);
    ServicePassed(services, i, m, found, edit);
    EditedServicesSet(services, i, found, edit, m);
    AppPart(services[i := Entry(m.name, m.service)], app, current, m, found, edit);
    RewrittenServicesIs(r, i, m);
    SameAppAfter(services, r, i, Entry(m.name, m.service));
  }

  lemma EditedServicesSet(services: Entries, i: nat, found: string, edit: Edit, m: Materialization)
    requires ServicesSet(services, i) && Foreign(m.name) && NoUrl(m.service) && HasDeep(services, 2, found)
    requires IsUrlEdit(found, edit)
    ensures var r := EditDeep(services, 2, found, edit); |r| == |services| && ServicesSet(r, i) && r[i] == services[i]
  {
    ServicePassed(services, i, m, found, edit);
    AppPart(services, Get(services, "app").entries, services[i].key, m, found, edit);
  }

  /** Replacing the RDB service does not touch `app`. */
  lemma SameAppAfter(services: Entries, r: Entries, i: nat, e: Entry<Node>)
    requires ServicesSet(services, i) && ServicesSet(r, i) && IsRdb(e.key)
    ensures Has(services[i := e], "app") && Get(services[i := e], "app") == Get(services, "app")
    ensures Has(r[i := e], "app") && Get(r[i := e], "app") == Get(r, "app")
  {
    EnvironmentKeysDiffer();
    FindAfterReplace(services, i, e, "app");
    FindAfterReplace(r, i, e, "app");
  }

  // ----- the volumes -----

  lemma VolumesCommute(volumes: Entries, current: string, m: Materialization, found: string, edit: Edit)
    requires Has(volumes, current + "-data") && HasDeep(volumes, 2, found)
    ensures var r, x := EditDeep(volumes, 2, found, edit), RenamedVolumes(volumes, current, m);
            && Has(r, current + "-data") && HasDeep(x, 2, found) && Target(x, 2, found) == Target(volumes, 2, found)
            && EditDeep(x, 2, found, edit) == RenamedVolumes(r, current, m)
  {
    var name := current + "-data";
    InnerCommutes(volumes, 2, found, edit, name, Entry(m.name + "-data", Get(volumes, name)));
    InnerTarget(volumes, 2, found, name, Entry(m.name + "-data", Get(volumes, name)));
  }

  lemma VolumesFirst(volumes: Entries, current: string, m: Materialization, key: string)
    requires Has(volumes, current + "-data")
    ensures First(RenamedVolumes(volumes, current, m), 2, key) == First(volumes, 2, key)
  {
    SetFirst(volumes, 2, key, current + "-data", Entry(m.name + "-data", Get(volumes, current + "-data")));
  }

  // ----- the whole file -----

  /** A file that a first run has set to `current`, before or after the URL edit. */
  predicate FileSet(root: Node, current: string, i: nat) {
    SetTo(root, current, i) && ServicesSet(Get(root.entries, "services").entries, i)
  }

  lemma ServicesPart(top: Entries, services: Entries, i: nat, m: Materialization, found: string, edit: Edit)
    requires Has(top, "services") && Get(top, "services") == Map(services) && ServicesSet(services, i)
    requires IsRdb(m.name) && Foreign(m.name) && NoUrl(m.service) && HasDeep(top, 3, found) && IsUrlEdit(found, edit)
    ensures AppFits(services, services[i].key) && Has(services, services[i].key)
    ensures var r, current := EditDeep(top, 3, found, edit), services[i].key;
            var x := SetAt(top, "services", Entry("services", Map(RewrittenServices(services, current, m))));
            && Has(r, "services") && Get(r, "services").Map?
            && var next := Get(r, "services").entries;
               && |next| == |services| && ServicesSet(next, i) && next[i].key == current && AppFits(next, current)
               && Has(next, current)
               && HasDeep(x, 3, found) && Target(x, 3, found) == Target(top, 3, found)
               && EditDeep(x, 3, found, edit)
                    == SetAt(r, "services", Entry("services", Map(RewrittenServices(next, current, m))))
  {
    ServicesFirst(services, i, m, found);
    var e := Entry("services", Map(RewrittenServices(services, services[i].key, m)));
    HitMap(e, 3, found);
    HitMap(top[Find(top, "services")], 3, found);
    InnerCommutes(top, 3, found, edit, "services", e);
    if First(top, 3, found) == Find(top, "services") {
      ServicesCommute(services, i, m, found, edit);
    }
    InnerTarget(top, 3, found, "services", e);
  }

  lemma VolumesPart(top: Entries, volumes: Entries, current: string, m: Materialization, found: string, edit: Edit)
    requires Has(top, "volumes") && Get(top, "volumes") == Map(volumes) && Has(volumes, current + "-data")
    requires HasDeep(top, 3, found)
    ensures var r, x := EditDeep(top, 3, found, edit),
            SetAt(top, "volumes", Entry("volumes", Map(RenamedVolumes(volumes, current, m))));
            && Has(r, "volumes") && Get(r, "volumes").Map? && Has(Get(r, "volumes").entries, current + "-data")
            && HasDeep(x, 3, found) && Target(x, 3, found) == Target(top, 3, found)
            && EditDeep(x, 3, found, edit)
                 == SetAt(r, "volumes", Entry("volumes", Map(RenamedVolumes(Get(r, "volumes").entries, current, m))))
  {
    VolumesFirst(volumes, current, m, found);
    var e := Entry("volumes", Map(RenamedVolumes(volumes, current, m)));
    HitMap(e, 3, found);
    HitMap(top[Find(top, "volumes")], 3, found);
    InnerCommutes(top, 3, found, edit, "volumes", e);
    if First(top, 3, found) == Find(top, "volumes") {
      VolumesCommute(volumes, current, m, found, edit);
    }
    InnerTarget(top, 3, found, "volumes", e);
  }

  lemma RootFirst(root: Node, current: string, i: nat, m: Materialization, key: string)
    requires FileSet(root, current, i) && IsRdb(m.name) && Foreign(m.name) && NoUrl(m.service) && !Foreign(key)
    ensures var x := Rewritten(root, current, m).entries;
            First(x, 3, key) == First(root.entries, 3, key) && |x| == |root.entries|
  {
    var services, volumes := Get(root.entries, "services").entries, Get(root.entries, "volumes").entries;
    RewrittenIs(root, current, m);
    var e := Entry("services", Map(RewrittenServices(services, current, m)));
    ServicesFirst(services, i, m, key);
    SetFirst(root.entries, 3, key, "services", e);
    VolumesFirst(volumes, current, m, key);
    var top := SetAt(root.entries, "services", e);
    assert top[Find(top, "volumes")].value == Map(volumes);
    SetFirst(top, 3, key, "volumes", Entry("volumes", Map(RenamedVolumes(volumes, current, m))));
  }

  /** Rewriting the tree and editing the URL line commute. */
  lemma RootCommutes(root: Node, current: string, i: nat, m: Materialization, found: string, edit: Edit)
    requires FileSet(root, current, i) && IsRdb(m.name) && Foreign(m.name) && NoUrl(m.service)
    requires HasDeep(root.entries, 3, found) && IsUrlEdit(found, edit)
    ensures var r, x := Map(EditDeep(root.entries, 3, found, edit)), Rewritten(root, current, m).entries;
            && FileSet(r, current, i) && HasDeep(x, 3, found) && Target(x, 3, found) == Target(root.entries, 3, found)
            && Map(EditDeep(x, 3, found, edit)) == Rewritten(r, current, m)
  {
    var services, volumes := Get(root.entries, "services").entries, Get(root.entries, "volumes").entries;
    var r := Map(EditDeep(root.entries, 3, found, edit));
    ServicesPart(root.entries, services, i, m, found, edit);
    VolumesPart(root.entries, volumes, current, m, found, edit);
    RewrittenIs(root, current, m);
    VolumesPart(SetAt(root.entries, "services", Entry("services", Map(RewrittenServices(services, current, m)))),
                volumes, current, m, found, edit);
    RewrittenIs(r, current, m);
  }

  /** What editing gives: `x` is the rewriting of `root`, and so are the results. */
  ghost predicate SameEdit(root: Node, x: Node, current: string, i: nat, m: Materialization, u: File, v: File) {
    (u.Readable? <==> v.Readable?)
    && (u.Readable? ==> FileSet(u.root, current, i) && v.root == Rewritten(u.root, current, m))
  }

  /** The file with the line of the key edited, when its value has room. */
  function EditedFile(root: Node, found: string, edit: Edit): File
    requires root.Map? && HasDeep(root.entries, 3, found)
  {
    if OneLine(Target(root.entries, 3, found)) then Readable(Map(EditDeep(root.entries, 3, found, edit)))
    else Unreadable
  }

  lemma EditCommutes(root: Node, current: string, i: nat, m: Materialization, found: string, edit: Edit)
    requires FileSet(root, current, i) && RowSet(m) && HasDeep(root.entries, 3, found) && IsUrlEdit(found, edit)
    ensures var x := Rewritten(root, current, m);
            && HasDeep(x.entries, 3, found)
            && SameEdit(root, x, current, i, m, EditedFile(root, found, edit), EditedFile(x, found, edit))
  {
    RootCommutes(root, current, i, m, found, edit);
  }

  lemma UrlEditIs(root: Node, url: string)
    requires root.Map?
    ensures HasDeep(root.entries, 3, URL_KEY) ==>
              WithDatabaseUrlCompose(root, url) == EditedFile(root, URL_KEY, Overwrite(Str(url)))
    ensures !HasDeep(root.entries, 3, URL_KEY) && HasDeep(root.entries, 3, ANCHOR_KEY) ==>
              WithDatabaseUrlCompose(root, url) == EditedFile(root, ANCHOR_KEY, InsertAfter(URL_KEY, Str(url)))
  {
  }

  lemma UrlCommutes(root: Node, current: string, i: nat, m: Materialization, url: string)
    requires FileSet(root, current, i) && RowSet(m)
    ensures var x := Rewritten(root, current, m);
            SameEdit(root, x, current, i, m, WithDatabaseUrlCompose(root, url), WithDatabaseUrlCompose(x, url))
  {
    RootFirst(root, current, i, m, URL_KEY);
    RootFirst(root, current, i, m, ANCHOR_KEY);
    UrlEditIs(root, url);
    UrlEditIs(Rewritten(root, current, m), url);
    if HasDeep(root.entries, 3, URL_KEY) {
      EditCommutes(root, current, i, m, URL_KEY, Overwrite(Str(url)));
    } else if HasDeep(root.entries, 3, ANCHOR_KEY) {
      EditCommutes(root, current, i, m, ANCHOR_KEY, InsertAfter(URL_KEY, Str(url)));
    }
  }

  lemma RewrittenIsSet(root: Node, current: string, i: nat, m: Materialization)
    requires SetTo(root, current, i) && RowSet(m) && TargetFresh(root, current, m.name)
    ensures FileSet(Rewritten(root, current, m), m.name, i)
  {
    RewrittenTwice(root, current, i, m, m);
    RootLookups(root, current, m);
    var services := Get(root.entries, "services").entries;
    ServicesLookups(services, i, m);
    RewrittenAppRead(Get(services, "app").entries, current, m);
  }

  // ----- two runs of the compose step -----

  /** The written file parses exactly when the file was selectable. */
  lemma WrittenParsesIff(file: File, m: Materialization, url: string)
    requires Parses(file) && Accepts(file.root) && RowSet(m) && '\n' !in url
    ensures Fits(file.root, Current(file.root)) && ComposeFor(file, m, url).Success?
    ensures Parses(ComposeFor(file, m, url).value) <==> SelectableFor(file, m.name)
  {
    ReadableIff(file.root, m);
    var i := AcceptedSetTo(file.root);
    var x := Generate(file.root, m).value;
    UrlRoomIff(file.root, Current(file.root), i, m, url);
    if WithDatabaseUrlCompose(x, url).Readable? {
      UrlEditReadableIff(x, url);
    }
  }

  lemma SecondRun(file: File, a: Materialization, b: Materialization, ua: string, ub: string)
    requires RowSet(a) && RowSet(b) && '\n' !in ua
    ensures SelectableFor(file, a.name) ==>
              ComposeFor(file, a, ua).Success?
              && ComposeFor(ComposeFor(file, a, ua).value, b, ub) == ComposeFor(file, b, ub)
  {
    if SelectableFor(file, a.name) {
      WrittenParsesIff(file, a, ua);
      var root := file.root;
      var current := Current(root);
      var i := AcceptedSetTo(root);
      var w := Rewritten(root, current, a);
      RewrittenIsSet(root, current, i, a);
      RewrittenTwice(root, current, i, a, b);
      UrlCommutes(w, a.name, i, b, ua);
      var y := WithDatabaseUrlCompose(w, ua);
      SetToAccepted(y.root, a.name, i);
      LastUrlWins(Rewritten(root, current, b), ua, ub);
    }
  }

  lemma SecondRunIff(file: File, a: Materialization, b: Materialization, ua: string, ub: string)
    requires Parses(file) && Accepts(file.root) && RowSet(a) && RowSet(b) && '\n' !in ua
    ensures ComposeFor(file, a, ua).Success?
    ensures var second := ComposeFor(ComposeFor(file, a, ua).value, b, ub);
            && (second == ComposeFor(file, b, ub) <==> SelectableFor(file, a.name))
            && (!SelectableFor(file, a.name) ==> second == Failure(InvalidYaml))
  {
    WrittenParsesIff(file, a, ua);
    WrittenParsesIff(file, b, "");
    if Parses(ComposeFor(file, a, ua).value) {
      SecondRun(file, a, b, ua, ub);
    }
  }

  /** Running the whole compose step for `a` and then for `b` gives the file that running it for `b` gives,
      exactly when the file was selectable for `a`. */
  lemma GeneratedComposeLastWins(file: File, a: Database, b: Database, first: File)
    ensures GeneratedCompose(file, a) == Success(first) ==>
              (GeneratedCompose(first, b) == GeneratedCompose(file, b) <==> ComposeSelectable(file, a))
  {
    LastWinsFor(file, MaterializationOf(a), MaterializationOf(b), DockerUrl(a), DockerUrl(b), first);
  }

  lemma LastWinsFor(file: File, a: Materialization, b: Materialization, ua: string, ub: string, first: File)
    requires InTable(a, ua) && InTable(b, ub)
    ensures ComposeFor(file, a, ua) == Success(first) ==>
              (ComposeFor(first, b, ub) == ComposeFor(file, b, ub) <==> SelectableFor(file, a.name))
  {
    TableRowSet(a, ua);
    TableRowSet(b, ub);
    if ComposeFor(file, a, ua) == Success(first) {
      SecondRunIff(file, a, b, ua, ub);
    }
  }

  /** A row of the table with the URL of its database. */
  ghost predicate InTable(m: Materialization, url: string) {
    exists d: Database :: m == MaterializationOf(d) && url == DockerUrl(d)
  }

  lemma TableRowSet(m: Materialization, url: string)
    requires InTable(m, url)
    ensures RowSet(m) && '\n' !in url
  {
    var d: Database :| m == MaterializationOf(d) && url == DockerUrl(d);
    RowIsSet(d);
    DockerUrlOneLine(d);
  }

  // ----- a file without a URL line -----

  /** A file without a URL line needs no room for one. */
  lemma SelectableWithoutUrl(root: Node, name: string, i: nat, to: string)
    requires UniqueKeys(root) && FileSet(root, name, i) && TargetFresh(root, name, to)
    requires !HasDeep(root.entries, 3, URL_KEY) && !HasDeep(root.entries, 3, ANCHOR_KEY)
    ensures SelectableFor(Readable(root), to)
  {
    SetToAccepted(root, name, i);
    BlankedMisses(root, name, i, URL_KEY);
    BlankedMisses(root, name, i, ANCHOR_KEY);
  }

  lemma BlankedMisses(root: Node, name: string, i: nat, key: string)
    requires FileSet(root, name, i) && !Foreign(key) && !HasDeep(root.entries, 3, key)
    ensures Reach(Blanked(root, name), 3, key) == None
  {
    var services := Get(root.entries, "services").entries;
    FindIs(services, name, i);
    NoUrlMisses(services[i], key);
    HitLeads(services[i], 2, key);
    SetReach(services, i, Entry(name, Null), 2, key);
    MapReach(root.entries, "services", services, SetAt(services, name, Entry(name, Null)), 3, key);
  }
}
