/** What the whole compose step leaves alone: the rewriting of the tree followed by the edit of the URL line. */
module ComposeStays {
  import opened ComposeAgreement
  import opened ComposeGenerator
  import opened ComposeLaws
  import opened ComposeUrl
  import opened OrderedMap
  import opened Selection
  import opened Yaml

  /** Every entry outside `touched` keeps its place and its value, and nothing is added outside it, but for
      `DATABASE_URL` entries `depth` levels down, of which `UrlEditIsOneLine` says what happens. */
  ghost predicate KeptBut(m: Entries, r: Entries, touched: set<string>, depth: nat) {
    exists y: Entries :: Kept(m, y, touched) && SameBut(y, r, depth, URL_KEY)
  }

  /** The parts of a file that the step works on. */
  predicate Shaped(root: Node) {
    HasApp(root) && Has(root.entries, "volumes") && Get(root.entries, "volumes").Map?
    && Has(App(root), "depends_on") && Get(App(root), "depends_on").Map?
  }

  /** Everything that the selection does not own keeps its value and its place, at every level: at the top, among
      the services and volumes, in `app`, in its dependencies and in its environment. */
  ghost predicate ElseStays(root: Node, out: Node, current: string)
    requires Shaped(root) && Shaped(out)
  {
    && KeptBut(root.entries, out.entries, {"services", "volumes"}, 3)
    && KeptBut(Get(root.entries, "services").entries, Get(out.entries, "services").entries, {current, "app"}, 2)
    && KeptBut(Get(root.entries, "volumes").entries, Get(out.entries, "volumes").entries, {current + "-data"}, 2)
    && KeptBut(App(root), App(out), {"depends_on", "environment"}, 1)
    && KeptBut(Get(App(root), "depends_on").entries, Get(App(out), "depends_on").entries, {current}, 0)
    && KeptBut(AppEnvironment(App(root)), AppEnvironment(App(out)), {"DB_TYPE", "DB_HOST", "DB_PORT"}, 0)
  }

  lemma AppShapes(x: Node, out: Node)
    requires Shaped(x) && Has(App(x), "environment") && Get(App(x), "environment").Map?
    requires out.Map? && SameBut(x.entries, out.entries, 3, URL_KEY)
    ensures Shaped(out)
    ensures SameBut(Get(x.entries, "services").entries, Get(out.entries, "services").entries, 2, URL_KEY)
    ensures SameBut(Get(x.entries, "volumes").entries, Get(out.entries, "volumes").entries, 2, URL_KEY)
    ensures SameBut(App(x), App(out), 1, URL_KEY)
    ensures SameBut(Get(App(x), "depends_on").entries, Get(App(out), "depends_on").entries, 0, URL_KEY)
    ensures SameBut(AppEnvironment(App(x)), AppEnvironment(App(out)), 0, URL_KEY)
  {
    LookUpInner(x.entries, out.entries, 3, URL_KEY, "services");
    LookUpInner(x.entries, out.entries, 3, URL_KEY, "volumes");
    LookUpInner(Get(x.entries, "services").entries, Get(out.entries, "services").entries, 2, URL_KEY, "app");
    LookUpInner(App(x), App(out), 1, URL_KEY, "depends_on");
    LookUpInner(App(x), App(out), 1, URL_KEY, "environment");
  }

  lemma StepStays(root: Node, m: Materialization, url: string)
    requires Accepts(root) && IsRdb(m.name) && WithDatabaseUrlCompose(Generate(root, m).value, url).Readable?
    ensures var out := WithDatabaseUrlCompose(Generate(root, m).value, url).root;
            Shaped(root) && Shaped(out) && ElseStays(root, out, Current(root))
  {
    AcceptsIff(root);
    EverythingElseStays(root, m);
    EverythingElseStaysInApp(root, m);
    var x := Generate(root, m).value;
    TopPath(x, "services");
    TopPath(x, "volumes");
    UrlEditTouchesOnlyUrl(x, url);
    AppShapes(x, WithDatabaseUrlCompose(x, url).root);
  }

  /** The compose file that the script writes: nothing but the selection's own entries and one URL line has
      changed. */
  lemma GeneratedElseStays(file: File, d: Database)
    requires GeneratedCompose(file, d).Success? && GeneratedCompose(file, d).value.Readable?
    ensures var out := GeneratedCompose(file, d).value.root;
            Shaped(file.root) && Shaped(out) && ElseStays(file.root, out, Current(file.root))
  {
    NameIsRdb(d);
    StepStays(file.root, MaterializationOf(d), DockerUrl(d));
  }
}
