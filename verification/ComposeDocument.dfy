/** The in-place editing of a compose document, step by step as the generator does it. */
module ComposeDocument {
  import opened ComposeGenerator
  import opened OrderedMap
  import opened Results
  import opened Yaml

  import Selection

  class Document {
    var contents: Node

    constructor (source: Node)
      ensures contents == source
    {
      contents := source;
    }

    /** `replaceMapEntry`: the first entry named `currentKey` of the map at `path` gets a new key and value. */
    method ReplaceMapEntry(path: seq<string>, currentKey: string, nextKey: string,
                           value: Node) returns (r: Outcome<ComposeError>)
      requires MapIn(contents, path).Some?
      modifies this
      ensures var m := MapIn(old(contents), path).value;
              if Has(m, currentKey)
              then r == Pass && contents == UpdateIn(old(contents), path, Map(Renamed(m, currentKey, nextKey, value)))
              else r == Fail(EntryMissing(currentKey)) && contents == old(contents)
    {
      var items := MapIn(contents, path).value;
      var i := IndexOf(items, currentKey);
      if i == |items| {
        return Fail(EntryMissing(currentKey));
      }
      contents := UpdateIn(contents, path, Map(items[i := Entry(nextKey, value)]));
      return Pass;
    }

    /** `renameMapEntry`: as above, but the value stays. */
    method RenameMapEntry(path: seq<string>, currentKey: string, nextKey: string) returns (r: Outcome<ComposeError>)
      requires MapIn(contents, path).Some?
      modifies this
      ensures var m := MapIn(old(contents), path).value;
              if Has(m, currentKey)
              then r == Pass
                   && contents
                        == UpdateIn(old(contents), path, Map(Renamed(m, currentKey, nextKey, Get(m, currentKey))))
              else r == Fail(EntryMissing(currentKey)) && contents == old(contents)
    {
      var items := MapIn(contents, path).value;
      var i := IndexOf(items, currentKey);
      if i == |items| {
        return Fail(EntryMissing(currentKey));
      }
      contents := UpdateIn(contents, path, Map(items[i := Entry(nextKey, items[i].value)]));
      return Pass;
    }

    /** `document.setIn(path, text)` */
    method SetText(path: seq<string>, text: string) returns (r: Outcome<ComposeError>)
      requires path != []
      modifies this
      ensures match SetIn(old(contents), path, Str(text))
              case Success(n) => r == Pass && contents == n
              case Failure(key) => r == Fail(NotACollection(key)) && contents == old(contents)
    {
      match SetIn(contents, path, Str(text)) {
        case Success(n) => contents := n; r := Pass;
        case Failure(key) => r := Fail(NotACollection(key));
      }
    }

    /** The three `setIn` calls on the environment of `app`. */
    method SetEnvironment(m: Materialization) returns (r: Outcome<ComposeError>)
      requires HasApp(contents)
      modifies this
      ensures var app := App(old(contents));
              if Has(app, "environment") && !Get(app, "environment").Map? then r == Fail(NotACollection("environment"))
              else r == Pass
                   && contents
                        == WithApp(old(contents),
                                   Put(app, "environment", Map(RewrittenEnvironment(AppEnvironment(app), m))))
    {
      ghost var root, app := contents, App(contents);
      ghost var e0 := AppEnvironment(app);
      SetInEnvironment(contents, "DB_TYPE", Str(m.name));
      r := SetText(["services", "app", "environment", "DB_TYPE"], m.name);
      if r.Fail? { return; }
      ghost var e1 := Put(e0, "DB_TYPE", Str(m.name));
      NextEnvironment(root, app, e1);
      var host := "${DOCKER_DB_HOST:-" + m.host + "}";
      SetInEnvironment(contents, "DB_HOST", Str(host));
      r := SetText(["services", "app", "environment", "DB_HOST"], host);
      ghost var e2 := Put(e1, "DB_HOST", Str(host));
      EnvironmentAgain(root, app, e1, e2);
      NextEnvironment(root, app, e2);
      var port := "${DB_PORT:-" + m.port + "}";
      SetInEnvironment(contents, "DB_PORT", Str(port));
      r := SetText(["services", "app", "environment", "DB_PORT"], port);
      EnvironmentAgain(root, app, e2, Put(e2, "DB_PORT", Str(port)));
    }

    /** The part of the generator that finds the one RDB service and replaces it. */
    method TurnServices(m: Materialization) returns (r: Result<string, ComposeError>)
      modifies this
      ensures var services := Services(old(contents));
              if services.None? then r == Failure(MapMissing("services"))
              else if |RdbKeys(services.value)| != 1 then r == Failure(NotOneRdb)
              else (r == Success(Current(old(contents))) && Has(services.value, r.value)
                    && contents
                         == UpdateIn(old(contents), ["services"],
                                     Map(Renamed(services.value, r.value, m.name, m.service))))
    {
      var services := MapIn(contents, ["services"]);
      if services.None? {
        return Failure(MapMissing("services"));
      }
      var found := CurrentDatabases(services.value);
      if |found| != 1 {
        return Failure(NotOneRdb);
      }
      var current := found[0].Name();
      ghost var i := RdbKeyPlace(services.value);
      var o := ReplaceMapEntry(["services"], current, m.name, m.service);
      return Success(current);
    }

    /** The part that turns `app` to the new RDB. */
    method TurnApp(current: string, m: Materialization) returns (r: Outcome<ComposeError>)
      modifies this
      ensures var problem := AppProblem(old(contents), current);
              if problem.Some? then r == Fail(problem.value)
              else (r == Pass && AppReady(old(contents), current)
                    && contents == WithApp(old(contents), RewrittenApp(App(old(contents)), current, m)))
    {
      ghost var root := contents;
      AppProblemShape(root, current);
      var dependsOn := MapIn(contents, ["services", "app", "depends_on"]);
      if dependsOn.None? {
        return Fail(MapMissing("depends_on"));
      }
      r := ReplaceMapEntry(["services", "app", "depends_on"], current, m.name, HEALTHY);
      if r.Fail? {
        return;
      }
      AfterDependsOn(root, current, m);
      ghost var app :=
        App(root)[Find(App(root), "depends_on") :=
                  Entry("depends_on", Map(Renamed(dependsOn.value, current, m.name, HEALTHY)))];
      WithAppLooksUp(root, app, Put(app, "environment", Map(RewrittenEnvironment(AppEnvironment(app), m))));
      r := SetEnvironment(m);
    }

    /** The part that renames the data volume. */
    method TurnVolumes(current: string, m: Materialization) returns (r: Outcome<ComposeError>)
      modifies this
      ensures var problem := VolumesProblem(old(contents), current);
              if problem.Some? then r == Fail(problem.value)
              else r == Pass
                   && contents
                        == UpdateIn(old(contents), ["volumes"],
                                    Map(RenamedVolumes(Volumes(old(contents)).value, current, m)))
    {
      var volumes := MapIn(contents, ["volumes"]);
      if volumes.None? {
        return Fail(MapMissing("volumes"));
      }
      r := RenameMapEntry(["volumes"], current + "-data", m.name + "-data");
    }
  }

  lemma NextEnvironment(root: Node, app: Entries, e: Entries)
    requires HasApp(root) && app == App(root)
    ensures var next := WithApp(root, Put(app, "environment", Map(e)));
            && HasApp(next) && App(next) == Put(app, "environment", Map(e))
            && Has(App(next), "environment") && Get(App(next), "environment") == Map(e)
            && AppEnvironment(App(next)) == e
  {
    WithAppLooksUp(root, Put(app, "environment", Map(e)), app);
    PutSame(app, "environment", Map(e));
  }

  lemma EnvironmentAgain(root: Node, app: Entries, e: Entries, f: Entries)
    requires HasApp(root) && app == App(root)
    ensures var next := WithApp(root, Put(app, "environment", Map(e)));
            HasApp(next)
            && WithApp(next, Put(App(next), "environment", Map(f))) == WithApp(root, Put(app, "environment", Map(f)))
  {
    WithAppLooksUp(root, Put(app, "environment", Map(e)), Put(app, "environment", Map(f)));
    PutPut(app, "environment", Map(e), Map(f));
  }

  /** `items.find(item => String(item.key) === key)`, as an index. */
  method IndexOf(items: Entries, key: string) returns (i: nat)
    ensures i == Find(items, key)
  {
    i := 0;
    while i < |items| && items[i].key != key
      invariant i <= |items|
      invariant forall j :: 0 <= j < i ==> items[j].key != key
    {
      i := i + 1;
    }
  }

  /** The RDB services of a compose file, in order. */
  method CurrentDatabases(services: Entries) returns (found: seq<Selection.Database>)
    ensures found == RdbKeys(services)
  {
    found := [];
    for i := 0 to |services|
      invariant found + RdbKeys(services[i..]) == RdbKeys(services)
    {
      assert services[i..][0] == services[i] && services[i..][1..] == services[i + 1..];
      if Selection.IsRdb(services[i].key) {
        found := found + [Selection.Rdb(services[i].key)];
      }
    }
    assert services[|services|..] == [];
  }

  predicate AppReady(root: Node, current: string) {
    HasApp(root) && AppFits(Get(root.entries, "services").entries, current)
  }

  lemma AppProblemShape(root: Node, current: string)
    ensures DependsOn(root).Some? ==>
              HasApp(root) && Has(App(root), "depends_on") && Get(App(root), "depends_on") == Map(DependsOn(root).value)
    ensures DependsOn(root).Some? ==>
              GetIn(root, ["services", "app", "environment"])
                == if Has(App(root), "environment") then Some(Get(App(root), "environment")) else None
    ensures AppProblem(root, current).None? <==> AppReady(root, current)
  {
    TopPath(root, "services");
    AppPath(root, "depends_on");
    AppPath(root, "environment");
  }

  lemma AfterServices(root: Node, current: string, i: nat, m: Materialization)
    requires Services(root).Some? && OnlyRdbAt(Services(root).value, i) && Find(Services(root).value, current) == i
    requires Selection.IsRdb(m.name)
    ensures var next := UpdateIn(root, ["services"], Map(Renamed(Services(root).value, current, m.name, m.service)));
            && next == WithServices(root, Renamed(Services(root).value, current, m.name, m.service))
            && DependsOn(next) == DependsOn(root)
            && GetIn(next, ["services", "app", "environment"]) == GetIn(root, ["services", "app", "environment"])
            && Volumes(next) == Volumes(root)
            && (DependsOn(root).Some? ==> HasApp(root) && HasApp(next) && App(next) == App(root))
  {
    EnvironmentKeysDiffer();
    TopPath(root, "services");
    var services := Services(root).value;
    var s' := Renamed(services, current, m.name, m.service);
    var next := WithServices(root, s');
    UpdateInTop(root, "services", Map(s'));
    ReplaceLooksUp(root.entries, "services", Map(s'));
    FindAfterReplace(services, i, Entry(m.name, m.service), "app");
    FindAfterReplace(root.entries, Find(root.entries, "services"), Entry("services", Map(s')), "volumes");
    TopPath(next, "services");
    TopPath(next, "volumes");
    TopPath(root, "volumes");
    AppPath(root, "depends_on");
    AppPath(next, "depends_on");
    AppPath(root, "environment");
    AppPath(next, "environment");
  }

  lemma AfterDependsOn(root: Node, current: string, m: Materialization)
    requires HasApp(root) && DependsOn(root).Some? && Has(DependsOn(root).value, current)
    ensures Has(App(root), "depends_on") && Get(App(root), "depends_on") == Map(DependsOn(root).value)
    ensures GetIn(root, ["services", "app", "depends_on"]).Some?
    ensures var renamed := Map(Renamed(DependsOn(root).value, current, m.name, HEALTHY));
            var app := App(root)[Find(App(root), "depends_on") := Entry("depends_on", renamed)];
            && UpdateIn(root, ["services", "app", "depends_on"], renamed) == WithApp(root, app)
            && Has(app, "environment") == Has(App(root), "environment")
            && (Has(app, "environment") ==> Get(app, "environment") == Get(App(root), "environment"))
  {
    EnvironmentKeysDiffer();
    AppPath(root, "depends_on");
    TopPath(root, "services");
    var renamed := Map(Renamed(DependsOn(root).value, current, m.name, HEALTHY));
    UpdateInApp(root, "depends_on", renamed);
    FindAfterReplace(App(root), Find(App(root), "depends_on"), Entry("depends_on", renamed), "environment");
  }

  lemma VolumesAfterApp(root: Node, app: Entries)
    requires HasApp(root)
    ensures Volumes(WithApp(root, app)) == Volumes(root)
  {
    EnvironmentKeysDiffer();
    var next := WithApp(root, app);
    TopPath(root, "volumes");
    TopPath(next, "volumes");
    var i := Find(root.entries, "services");
    FindAfterReplace(root.entries, i, next.entries[i], "volumes");
  }

  /** The edited document is the reference rewriting. */
  lemma EditedIsRewritten(root: Node, current: string, m: Materialization)
    requires Fits(root, current)
    requires Find(Get(root.entries, "services").entries, current) != Find(Get(root.entries, "services").entries, "app")
    requires m.name != "app"
    ensures var services, volumes := Get(root.entries, "services").entries, Get(root.entries, "volumes").entries;
            var step := WithServices(root, Renamed(services, current, m.name, m.service));
            && HasApp(step)
            && var last := WithApp(step, RewrittenApp(Get(services, "app").entries, current, m));
               && last.Map? && Has(last.entries, "volumes")
               && Map(last.entries[Find(last.entries, "volumes") :=
                                   Entry("volumes", Map(RenamedVolumes(volumes, current, m)))])
                  == Rewritten(root, current, m)
  {
    EnvironmentKeysDiffer();
    var services := Get(root.entries, "services").entries;
    var s' := Renamed(services, current, m.name, m.service);
    var step := WithServices(root, s');
    ReplaceLooksUp(root.entries, "services", Map(s'));
    FindAfterReplace(services, Find(services, current), Entry(m.name, m.service), "app");
    var app := RewrittenApp(Get(services, "app").entries, current, m);
    var last := WithApp(step, app);
    assert last.entries
             == root.entries[Find(root.entries, "services") :=
                             Entry("services", Map(RewrittenServices(services, current, m)))];
    SameKeysSameFind(root.entries, last.entries, "volumes");
  }

  /** `step` is what the services part makes of `root`, whose one RDB service stands at `i`. */
  ghost predicate ServicesTurned(root: Node, current: string, i: nat, m: Materialization, step: Node) {
    && Services(root).Some? && OnlyRdbAt(Services(root).value, i) && Find(Services(root).value, current) == i
    && Selection.IsRdb(m.name)
    && root.Map? && Has(root.entries, "services")
    && step == WithServices(root, Renamed(Services(root).value, current, m.name, m.service))
    && DependsOn(step) == DependsOn(root) && Volumes(step) == Volumes(root)
    && GetIn(step, ["services", "app", "environment"]) == GetIn(root, ["services", "app", "environment"])
  }

  lemma ServicesAreTurned(root: Node, current: string, i: nat, m: Materialization)
    requires Services(root).Some? && OnlyRdbAt(Services(root).value, i) && Find(Services(root).value, current) == i
    requires Selection.IsRdb(m.name)
    ensures ServicesTurned(root, current, i, m,
                           UpdateIn(root, ["services"], Map(Renamed(Services(root).value, current, m.name, m.service))))
  {
    TopPath(root, "services");
    AfterServices(root, current, i, m);
  }

  /** The later parts meet the same problems after the services part as before it. */
  lemma SameAppProblem(root: Node, current: string, i: nat, m: Materialization, step: Node)
    requires ServicesTurned(root, current, i, m, step)
    ensures AppProblem(step, current) == AppProblem(root, current)
  {
  }

  lemma SameVolumesProblem(root: Node, current: string, i: nat, m: Materialization, step: Node)
    requires ServicesTurned(root, current, i, m, step) && AppReady(step, current)
    ensures Volumes(WithApp(step, RewrittenApp(App(step), current, m))) == Volumes(root)
  {
    VolumesAfterApp(step, RewrittenApp(App(step), current, m));
  }

  lemma LastStep(root: Node, current: string, i: nat, m: Materialization, step: Node)
    requires ServicesTurned(root, current, i, m, step) && Fits(root, current)
    requires AppReady(step, current) && Volumes(root).Some? && Has(Volumes(root).value, current + "-data")
    ensures var next := WithApp(step, RewrittenApp(App(step), current, m));
            && GetIn(next, ["volumes"]).Some?
            && UpdateIn(next, ["volumes"], Map(RenamedVolumes(Volumes(root).value, current, m)))
                 == Rewritten(root, current, m)
  {
    TopPath(root, "services");
    TopPath(root, "volumes");
    EnvironmentKeysDiffer();
    EditedIsRewritten(root, current, m);
    FindAfterReplace(Services(root).value, i, Entry(m.name, m.service), "app");
    ReplaceLooksUp(root.entries, "services", Map(Renamed(Services(root).value, current, m.name, m.service)));
    UpdateInTop(WithApp(step, RewrittenApp(App(step), current, m)), "volumes",
                Map(RenamedVolumes(Volumes(root).value, current, m)));
  }

  /** Once the services are turned, the rest of the document edits completes `Generate`. */
  lemma TurnedCompletes(source: Node, m: Materialization)
    requires Services(source).Some? && |RdbKeys(Services(source).value)| == 1 && Selection.IsRdb(m.name)
    ensures Has(Services(source).value, Current(source))
    ensures var current := Current(source);
            var step :=
                  UpdateIn(source, ["services"], Map(Renamed(Services(source).value, current, m.name, m.service)));
            var problem := AppProblem(step, current);
            UniqueKeys(source) ==>
              if problem.Some? then Generate(source, m) == Failure(problem.value)
              else AppReady(step, current)
                   && VolumesComplete(source, current, m, WithApp(step, RewrittenApp(App(step), current, m)))
  {
    var i := RdbKeyPlace(Services(source).value);
    var current := Current(source);
    var step := UpdateIn(source, ["services"], Map(Renamed(Services(source).value, current, m.name, m.service)));
    ServicesAreTurned(source, current, i, m);
    SameAppProblem(source, current, i, m, step);
    AppProblemShape(step, current);
    if UniqueKeys(source) && AppProblem(step, current).None? {
      SameVolumesProblem(source, current, i, m, step);
      AcceptsIff(source);
      if VolumesProblem(source, current).None? {
        LastStep(source, current, i, m, step);
      }
    }
  }

  ghost predicate VolumesComplete(source: Node, current: string, m: Materialization, next: Node) {
    var problem := VolumesProblem(next, current);
    if problem.Some? then Generate(source, m) == Failure(problem.value)
    else Generate(source, m)
           == Success(UpdateIn(next, ["volumes"], Map(RenamedVolumes(Volumes(next).value, current, m))))
  }

  /** The generator computes `Generate`: the same file, or the same first problem. */
  method MaterializeTypeOrmCompose(source: Node, m: Materialization) returns (r: Result<Node, ComposeError>)
    requires Selection.IsRdb(m.name)
    ensures r == Generate(source, m)
  {
    if !UniqueKeys(source) {
      return Failure(InvalidYaml);
    }
    var document := new Document(source);
    var current := document.TurnServices(m);
    if current.Failure? {
      return Failure(current.error);
    }
    TurnedCompletes(source, m);
    var o := document.TurnApp(current.value, m);
    if o.Fail? {
      return Failure(o.error);
    }
    o := document.TurnVolumes(current.value, m);
    if o.Fail? {
      return Failure(o.error);
    }
    return Success(document.contents);
  }
}
