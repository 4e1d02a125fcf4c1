/** `renderTestCompose`: an isolated test database made from the generator's own table. */
module TestComposeGenerator {
  import opened ComposeAgreement
  import opened ComposeGenerator
  import opened ComposeLaws
  import opened OrderedMap
  import opened Results
  import opened Selection
  import opened Yaml

  import Checker = ScaffoldChecker
  import opened ScaffoldConsistency

  function TestPorts(d: Database): Node {
    Texts(["${DB_TEST_HOST_PORT:-15432}:" + Port(d)])
  }

  /** The service body without restart policy and volume, on its own port and in memory. */
  function TestService(service: Entries, ports: Node, tmpfs: Node): Entries {
    Put(Put(Remove(Remove(service, "restart"), "volumes"), "ports", ports), "tmpfs", tmpfs)
  }

  function TestDocument(name: string, service: Entries): Node {
    Map([Entry("name", Str("barebones-test")), Entry("services", Map([Entry(name, Map(service))]))])
  }

  function TestComposeOf(d: Database): Node {
    TestDocument(d.Name(), TestService(ComposeService(d).entries, TestPorts(d), Texts([DataPath(d)])))
  }

  /** The script's steps. */
  method RenderTestCompose(d: Database) returns (document: Node)
    ensures document == TestComposeOf(d)
  {
    var service := Remove(ComposeService(d).entries, "restart");
    service := Remove(service, "volumes");
    service := Put(service, "ports", TestPorts(d));
    service := Put(service, "tmpfs", Texts([DataPath(d)]));
    assert service == TestService(ComposeService(d).entries, TestPorts(d), Texts([DataPath(d)]));
    document := IsolatedDocument(d, service);
  }

  /** A document with a placeholder service, which the database replaces. */
  method IsolatedDocument(d: Database, service: Entries) returns (document: Node)
    ensures document == TestDocument(d.Name(), service)
  {
    var services := [Entry("placeholder", Map([]))];
    PlaceholderGoes(d.Name(), Map(service));
    NotPlaceholder(d);
    services := Put(services, d.Name(), Map(service));
    services := Remove(services, "placeholder");
    document := Map([Entry("name", Str("barebones-test")), Entry("services", Map(services))]);
  }

  lemma NotPlaceholder(d: Database)
    ensures d.Name() != "placeholder"
  {
    assert |"placeholder"| == 11;
  }

  lemma PlaceholderGoes(name: string, service: Node)
    requires name != "placeholder"
    ensures Remove(Put([Entry("placeholder", Map([]))], name, service), "placeholder") == [Entry(name, service)]
  {
    var m := [Entry("placeholder", Map([]))];
    assert Find(m, name) == 1;
    assert Put(m, name, service)[1..] == [Entry(name, service)];
    assert Remove([Entry(name, service)], "placeholder") == [Entry(name, service)];
  }

  lemma ServiceKeysDiffer()
    ensures "image" != "restart" && "image" != "volumes" && "image" != "ports" && "image" != "tmpfs"
    ensures "ports" != "tmpfs" && "volumes" != "ports" && "volumes" != "tmpfs"
  {
    assert "image"[0] == 'i' && "restart"[0] == 'r' && "volumes"[0] == 'v' && "ports"[0] == 'p' && "tmpfs"[0] == 't';
  }

  lemma RemoveUnique(m: Entries, key: string)
    requires UniqueKeys(Map(m))
    ensures UniqueKeys(Map(Remove(m, key)))
  {
    var r := Remove(m, key);
    assert Unique(m);
    forall i | 0 <= i < |r| ensures UniqueKeys(r[i].value) {
      assert r[i] in m;
    }
  }

  /** What the checker reads of the test service, whatever service it was made from. */
  lemma TestServiceLookups(service: Entries, ports: Node, tmpfs: Node)
    requires UniqueKeys(Map(service)) && UniqueKeys(ports) && UniqueKeys(tmpfs)
    ensures var r := TestService(service, ports, tmpfs);
            && UniqueKeys(Map(r))
            && Has(r, "image") == Has(service, "image")
            && (Has(service, "image") ==> Get(r, "image") == Get(service, "image"))
            && Has(r, "ports") && Get(r, "ports") == ports && Has(r, "tmpfs") && Get(r, "tmpfs") == tmpfs
            && !Has(r, "volumes")
  {
    ServiceKeysDiffer();
    var r1 := Remove(service, "restart");
    var r2 := Remove(r1, "volumes");
    var r3 := Put(r2, "ports", ports);
    RemoveUnique(service, "restart");
    RemoveUnique(r1, "volumes");
    PutUnique(r2, "ports", ports);
    PutUnique(r3, "tmpfs", tmpfs);
    RemoveOther(service, "restart", "image");
    RemoveOther(r1, "volumes", "image");
    PutOther(r2, "ports", ports, "image");
    PutOther(r3, "tmpfs", tmpfs, "image");
    PutSame(r2, "ports", ports);
    PutOther(r3, "tmpfs", tmpfs, "ports");
    PutSame(r3, "tmpfs", tmpfs);
    PutOther(r2, "ports", ports, "volumes");
    PutOther(r3, "tmpfs", tmpfs, "volumes");
  }

  lemma TestDocumentLookups(name: string, service: Entries)
    requires UniqueKeys(Map(service))
    ensures var r := TestDocument(name, service);
            && UniqueKeys(r) && Has(r.entries, "name") && Get(r.entries, "name") == Str("barebones-test")
            && Has(r.entries, "services") && Get(r.entries, "services") == Map([Entry(name, Map(service))])
  {
    var r := TestDocument(name, service).entries;
    assert "name"[0] != "services"[0];
    assert UniqueKeys(Map([Entry(name, Map(service))]));
    FindIs(r, "name", 0);
    FindIs(r, "services", 1);
  }

  lemma OneServiceAgrees(d: Database, service: Entries)
    requires Has(service, "image") && Get(service, "image") == Str(Checker.DatabaseImage(d))
    ensures RdbServicesAgree(d, [Entry(d.Name(), Map(service))])
  {
    var services := [Entry(d.Name(), Map(service))];
    FindIs(services, d.Name(), 0);
    forall e: Database ensures Has(services, e.Name()) <==> e == d {
      NamesDiffer(e, d);
    }
  }

  lemma OneTestServiceAgrees(d: Database, service: Entries)
    requires Has(service, "ports")
    requires Get(service, "ports") == Texts(["${DB_TEST_HOST_PORT:-15432}:" + Checker.DatabasePort(d)])
    requires Has(service, "tmpfs") && Get(service, "tmpfs") == Texts([Checker.DatabaseDataPath(d)])
    requires !Has(service, "volumes")
    ensures TestServiceAgrees(d, [Entry(d.Name(), Map(service))])
  {
    var services := [Entry(d.Name(), Map(service))];
    FindIs(services, d.Name(), 0);
    TextsHold("${DB_TEST_HOST_PORT:-15432}:" + Checker.DatabasePort(d));
    TextsHold(Checker.DatabaseDataPath(d));
  }

  lemma TextsHold(text: string)
    ensures Checker.ListHas(Some(Texts([text])), text)
  {
    assert Texts([text]).items[0] == Str(text);
  }

  lemma TestDocumentAgrees(d: Database, service: Entries)
    requires UniqueKeys(Map(service)) && Has(service, "image") && Get(service, "image") == Str(Checker.DatabaseImage(d))
    requires Has(service, "ports")
    requires Get(service, "ports") == Texts(["${DB_TEST_HOST_PORT:-15432}:" + Checker.DatabasePort(d)])
    requires Has(service, "tmpfs") && Get(service, "tmpfs") == Texts([Checker.DatabaseDataPath(d)])
    requires !Has(service, "volumes")
    ensures TestComposeAgrees(d, Readable(TestDocument(d.Name(), service)))
  {
    TestDocumentLookups(d.Name(), service);
    OneServiceAgrees(d, service);
    OneTestServiceAgrees(d, service);
  }

  /** The rendered test file agrees with its selection: image, port, tmpfs, and no volume. */
  lemma RenderedTestComposeAgrees(d: Database)
    ensures TestComposeAgrees(d, Readable(TestComposeOf(d)))
  {
    var service := ComposeService(d).entries;
    MaterializationFits(d);
    ImageRead(d);
    TablesAgree(d);
    TextsUnique(["${DB_TEST_HOST_PORT:-15432}:" + Port(d)]);
    TextsUnique([DataPath(d)]);
    TestServiceLookups(service, TestPorts(d), Texts([DataPath(d)]));
    TestDocumentAgrees(d, TestService(service, TestPorts(d), Texts([DataPath(d)])));
  }
}
