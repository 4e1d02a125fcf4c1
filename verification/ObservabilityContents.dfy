/** Which files the observability generator writes, what stands in them, and whether its dashboards select the job
    that Prometheus scrapes. */
module ObservabilityContents {
  import opened Dashboard
  import opened Expression
  import opened ExpressionMeaning
  import opened MetricPrefix
  import opened Observability
  import opened QuotedLabels
  import opened Results
  import opened Separated
  import opened Text

  // ----- prometheus.yml -----

  const SCRAPE_HEAD: seq<string> :=
    ["global:", "  scrape_interval: 15s", "  evaluation_interval: 15s", "", "scrape_configs:"]

  const SCRAPE_SELF: seq<string> := [
    "", "  - job_name: prometheus", "    static_configs:", "      - targets:", "          - localhost:9090", ""]

  function ScrapedJob(name: string, path: string, target: string): seq<string> {
    ["  - job_name: " + name, "    metrics_path: " + path, "    static_configs:", "      - targets:",
     "          - " + target]
  }

  lemma PrometheusLines(settings: Settings)
    ensures RenderPrometheusConfig(settings)
         == Join(SCRAPE_HEAD + ScrapedJob(settings.jobName, settings.metricsPath, settings.scrapeTarget) + SCRAPE_SELF,
                 '\n')
  {
    var all := SCRAPE_HEAD + ScrapedJob(settings.jobName, settings.metricsPath, settings.scrapeTarget) + SCRAPE_SELF;
    Sixteen(all, settings.jobName, settings.metricsPath, settings.scrapeTarget);
  }

  lemma Sixteen(all: seq<string>, name: string, path: string, target: string)
    requires all == SCRAPE_HEAD + ScrapedJob(name, path, target) + SCRAPE_SELF
    ensures all == ["global:", "  scrape_interval: 15s", "  evaluation_interval: 15s", "", "scrape_configs:",
                    "  - job_name: " + name, "    metrics_path: " + path, "    static_configs:", "      - targets:",
                    "          - " + target, "", "  - job_name: prometheus", "    static_configs:",
                    "      - targets:", "          - localhost:9090", ""]
  {
  }

  // ----- which files a run writes -----

  /** The contents that a run leaves in the file of an artifact are those for the file as it was before the run. */
  lemma {:induction false} GeneratedAt(files: Files, artifacts: seq<Artifact>, i: nat, settings: Settings,
                                       printer: Printer)
    requires i < |artifacts| && Generated(files, artifacts, false, settings, printer).Done?
    requires forall j, k :: 0 <= j < k < |artifacts| ==> artifacts[j].path != artifacts[k].path
    ensures artifacts[i].path in files && Target(files, artifacts[i], settings, printer).Some?
    ensures var after := Generated(files, artifacts, false, settings, printer).files;
            artifacts[i].path in after
            && after[artifacts[i].path] == Target(files, artifacts[i], settings, printer).value
    decreases |artifacts|
  {
    var a := artifacts[0];
    var text := Target(files, a, settings, printer).value;
    var next := if files[a.path] == text then files else files[a.path := text];
    assert forall j :: 0 <= j < |artifacts| - 1 ==> artifacts[1..][j] == artifacts[j + 1];
    if i == 0 {
      OthersStay(next, artifacts[1..], a.path, settings, printer);
    } else {
      GeneratedAt(next, artifacts[1..], i - 1, settings, printer);
    }
  }

  lemma {:induction false} OthersStay(files: Files, artifacts: seq<Artifact>, path: string, settings: Settings,
                                      printer: Printer)
    requires Generated(files, artifacts, false, settings, printer).Done?
    requires forall j :: 0 <= j < |artifacts| ==> artifacts[j].path != path
    ensures var after := Generated(files, artifacts, false, settings, printer).files;
            (path in after <==> path in files) && (path in files ==> after[path] == files[path])
    decreases |artifacts|
  {
    if artifacts != [] {
      var a := artifacts[0];
      var text := Target(files, a, settings, printer).value;
      var next := if files[a.path] == text then files else files[a.path := text];
      OthersStay(next, artifacts[1..], path, settings, printer);
    }
  }

  /** A check lists the artifacts whose file differs, in order. */
  function Differing(files: Files, artifacts: seq<Artifact>, settings: Settings, printer: Printer): seq<string> {
    if artifacts == [] then []
    else
      var a := artifacts[0];
      (if a.path in files && Target(files, a, settings, printer) == Some(files[a.path]) then [] else [a.path])
      + Differing(files, artifacts[1..], settings, printer)
  }

  predicate Generatable(files: Files, artifacts: seq<Artifact>, settings: Settings, printer: Printer) {
    forall i :: 0 <= i < |artifacts| ==> Target(files, artifacts[i], settings, printer).Some?
  }

  lemma {:induction false} CheckLists(files: Files, artifacts: seq<Artifact>, settings: Settings, printer: Printer)
    ensures Generated(files, artifacts, true, settings, printer)
         == if Generatable(files, artifacts, settings, printer)
            then Done(files, Differing(files, artifacts, settings, printer)) else Thrown(files)
    decreases |artifacts|
  {
    if artifacts != [] {
      CheckLists(files, artifacts[1..], settings, printer);
      assert Generatable(files, artifacts, settings, printer) <==>
        Target(files, artifacts[0], settings, printer).Some?
        && Generatable(files, artifacts[1..], settings, printer);
      var rest := Differing(files, artifacts[1..], settings, printer);
      assert [] + rest == rest;
    }
  }

  // ----- the program's own artifacts -----

  const PROMETHEUS_FILE := "ops/prometheus/prometheus.yml"

  function BoardFile(i: nat): string {
    if i == 0 then "ops/grafana/provisioning/dashboards/" + "json/bullmq-jobs.json"
    else if i == 1 then "ops/grafana/provisioning/dashboards/" + "json/http-performance.json"
    else if i == 2 then "ops/grafana/provisioning/dashboards/" + "json/infra-health.json"
    else "ops/grafana/provisioning/dashboards/" + "json/nodejs-overview.json"
  }

  function OwnArtifacts(settings: Settings): seq<Artifact> {
    [Config(PROMETHEUS_FILE, RenderPrometheusConfig(settings)), Board(BoardFile(0)), Board(BoardFile(1)),
     Board(BoardFile(2)), Board(BoardFile(3))]
  }

  lemma ArtifactsAre(prometheus: string)
    ensures Artifacts(prometheus) == [Config(PROMETHEUS_FILE, prometheus), Board(BoardFile(0)), Board(BoardFile(1)),
                                      Board(BoardFile(2)), Board(BoardFile(3))]
  {
    var all := Artifacts(prometheus);
    BoardFilesAre();
    assert all == [all[0], all[1], all[2], all[3], all[4]];
  }

  lemma BoardFilesAre()
    ensures forall i :: 0 <= i < 4 ==> DASHBOARD_FILES[i] == BoardFile(i)
  {
  }

  lemma PathsApart(i: nat, j: nat)
    requires i < j < 4
    ensures BoardFile(i) != BoardFile(j) && BoardFile(i) != PROMETHEUS_FILE && BoardFile(j) != PROMETHEUS_FILE
  {
    assert |BoardFile(i)| != |BoardFile(j)| && |PROMETHEUS_FILE| == 29;
  }

  lemma ArtifactPathsApart(prometheus: string)
    ensures var all := Artifacts(prometheus);
            forall j, k :: 0 <= j < k < |all| ==> all[j].path != all[k].path
  {
    var all := Artifacts(prometheus);
    ArtifactsAre(prometheus);
    forall j, k | 0 <= j < k < |all| ensures all[j].path != all[k].path {
      if j > 0 { PathsApart(j - 1, k - 1); } else if k < 4 { PathsApart(k - 1, 3); } else { PathsApart(0, 3); }
    }
  }

  /** A run without `--check` that does not throw leaves the scrape configuration in prometheus.yml, each dashboard
      rewritten in its own file, and every other file as it was. */
  lemma ProgramWrites(files: Files, settings: Settings, printer: Printer)
    requires ProgramRun(files, false, settings, printer).Done?
    ensures var after := ProgramRun(files, false, settings, printer).files;
            && PROMETHEUS_FILE in after
            && after[PROMETHEUS_FILE] == TrimEnd(RenderPrometheusConfig(settings)) + "\n"
            && (forall i :: 0 <= i < 4 ==> BoardRewritten(files, after, BoardFile(i), settings, printer))
            && OthersKept(files, after)
  {
    ProgramWritesConfig(files, settings, printer);
    forall i | 0 <= i < 4
      ensures BoardRewritten(files, ProgramRun(files, false, settings, printer).files, BoardFile(i), settings, printer)
    {
      ProgramWritesBoard(files, i, settings, printer);
    }
    ProgramKeepsOthers(files, settings, printer);
  }

  predicate Own(path: string) {
    path == PROMETHEUS_FILE || path == BoardFile(0) || path == BoardFile(1) || path == BoardFile(2)
    || path == BoardFile(3)
  }

  ghost predicate OthersKept(files: Files, after: Files) {
    forall path: string :: !Own(path) ==>
      (path in after <==> path in files) && (path in files ==> after[path] == files[path])
  }

  lemma ProgramKeepsOthers(files: Files, settings: Settings, printer: Printer)
    requires ProgramRun(files, false, settings, printer).Done?
    ensures OthersKept(files, ProgramRun(files, false, settings, printer).files)
  {
    var all := Artifacts(RenderPrometheusConfig(settings));
    ArtifactsAre(RenderPrometheusConfig(settings));
    forall path: string | !Own(path)
      ensures var after := ProgramRun(files, false, settings, printer).files;
              (path in after <==> path in files) && (path in files ==> after[path] == files[path])
    {
      assert forall j :: 0 <= j < 5 ==> all[j].path != path;
      OthersStay(files, all, path, settings, printer);
    }
  }

  lemma ProgramWritesConfig(files: Files, settings: Settings, printer: Printer)
    requires ProgramRun(files, false, settings, printer).Done?
    ensures var after := ProgramRun(files, false, settings, printer).files;
            PROMETHEUS_FILE in after && after[PROMETHEUS_FILE] == TrimEnd(RenderPrometheusConfig(settings)) + "\n"
  {
    var prometheus := RenderPrometheusConfig(settings);
    ArtifactsAre(prometheus);
    ArtifactPathsApart(prometheus);
    GeneratedAt(files, Artifacts(prometheus), 0, settings, printer);
  }

  lemma ProgramWritesBoard(files: Files, i: nat, settings: Settings, printer: Printer)
    requires i < 4 && ProgramRun(files, false, settings, printer).Done?
    ensures BoardRewritten(files, ProgramRun(files, false, settings, printer).files, BoardFile(i), settings, printer)
  {
    var prometheus := RenderPrometheusConfig(settings);
    ArtifactsAre(prometheus);
    ArtifactPathsApart(prometheus);
    GeneratedAt(files, Artifacts(prometheus), i + 1, settings, printer);
  }

  ghost predicate BoardRewritten(files: Files, after: Files, path: string, settings: Settings, printer: Printer) {
    && path in files && path in after && printer.parse(files[path]).Some?
    && after[path]
    == TrimEnd(printer.stringify(RewriteValue(printer.parse(files[path]).value, None, settings)) + "\n") + "\n"
  }

  /** With `--check` it writes nothing, and lists in this order the files that differ from what it would leave there;
      it throws exactly when one of them is missing or is no JSON. */
  lemma ProgramChecks(files: Files, settings: Settings, printer: Printer)
    ensures ProgramRun(files, true, settings, printer)
         == if Generatable(files, OwnArtifacts(settings), settings, printer)
            then Done(files, Differing(files, OwnArtifacts(settings), settings, printer)) else Thrown(files)
  {
    ArtifactsAre(RenderPrometheusConfig(settings));
    CheckLists(files, Artifacts(RenderPrometheusConfig(settings)), settings, printer);
  }

  // ----- the job that is scraped and the job that is selected -----

  /** The quoted texts behind `job=` in a rewritten expression. */
  ghost predicate Selects(expression: string, settings: Settings, job: string) {
    exists i :: SelectsAt(Split(RewriteExpression(expression, settings), '\"'), i, job)
  }

  predicate SelectsAt(r: seq<string>, i: int, job: string) {
    0 <= i && i + 2 < |r| && EndsWith(r[i], "job=") && r[i + 1] == job && job != ""
  }

  /** `job="x"`, rewritten, selects the renamed job name. */
  lemma SomeExpressionSelects(settings: Settings)
    requires Proper(settings) && settings.jobName != ""
    ensures Selects(Join(["job=", "x", ""], '\"'), settings, Scan(settings.jobName, settings.prefix))
  {
    var ps, prefix := ["job=", "x", ""], settings.prefix;
    var ys := ["job=", settings.jobName, ""];
    RewriteIsPieces(ps, settings);
    JobRelabelled(settings);
    RootsUsable(prefix);
    RootsEndLabels();
    ScannedQuoteFree(ys, prefix);
    SplitJoin(Scanned(ys, prefix), '\"');
    EndKept(false, "job=", prefix, METRIC_ROOTS, JOB);
    ShortKept(false, settings.jobName, prefix, METRIC_ROOTS, JOB);
    assert SelectsAt(Scanned(ys, prefix), 0, Scan(settings.jobName, prefix));
  }

  lemma JobRelabelled(settings: Settings)
    ensures Relabelled(["job=", "x", ""], settings) == ["job=", settings.jobName, ""]
  {
    var ps, jobs := ["job=", "x", ""], ["job=", settings.jobName, ""];
    assert EndsWith("job=", JOB) && ps[2..] == [""] && [""][1..] == [];
    assert Relabel([""], JOB, settings.jobName) == [""];
    assert Relabel(ps, JOB, settings.jobName) == jobs;
    if settings.excludedRoute.Some? {
      RouteLeaves(jobs, settings.excludedRoute.value);
    }
  }

  lemma RouteLeaves(jobs: seq<string>, route: string)
    requires |jobs| == 3 && jobs[0] == "job="
    ensures Relabel(jobs, ROUTE, route) == jobs
  {
    assert |ROUTE| == 7 && |"job="| == 4;
    assert jobs[1..] == [jobs[1], jobs[2]] && [jobs[1], jobs[2]][1..] == [jobs[2]] && [jobs[2]][1..] == [];
  }

  lemma SelectedIs(expression: string, settings: Settings, job: string)
    requires Proper(settings) && Selects(expression, settings, job)
    ensures job == Scan(settings.jobName, settings.prefix)
  {
    LabelsSay(expression, settings);
    var i :| SelectsAt(Split(RewriteExpression(expression, settings), '\"'), i, job);
  }

  /** The dashboards select the job that prometheus.yml names exactly when no known metric name in the job name stands
      behind another prefix: the renaming of metrics reaches into the label's value. */
  lemma SelectsScrapedJobIff(settings: Settings)
    requires Proper(settings)
    ensures (forall expression, job :: Selects(expression, settings, job) ==> job == settings.jobName)
       <==> AllPrefixed(false, settings.jobName, settings.prefix, METRIC_ROOTS)
  {
    RenamedIff(settings.jobName, settings);
    forall expression, job | Selects(expression, settings, job) ensures job == Scan(settings.jobName, settings.prefix) {
      SelectedIs(expression, settings, job);
    }
    if settings.jobName != "" {
      SomeExpressionSelects(settings);
    }
  }

  lemma RenamedName(settings: Settings)
    requires settings.prefix == "acme_"
    ensures Scan("my_http_api", settings.prefix) == "acme_http_api"
  {
    assert "my_http_api" == "my" + "_" + "http_" + "api" && "acme_" + "http_" + "api" == "acme_http_api";
    KnownWord("my_http_api", "my", "http_", "api", settings);
  }

  lemma RenamedProper(settings: Settings)
    requires settings.jobName == "my_http_api" && settings.prefix == "acme_" && settings.excludedRoute == None
    ensures Proper(settings) && "my_http_api"[0] != "acme_http_api"[0] && settings.jobName != ""
  {
  }

  /** The job `my_http_api` under the prefix `acme_`: prometheus.yml scrapes it, the dashboards ask for
      `acme_http_api`. */
  lemma RenamedJob(settings: Settings)
    requires settings.jobName == "my_http_api" && settings.prefix == "acme_" && settings.excludedRoute == None
    ensures Selects(Join(["job=", "x", ""], '\"'), settings, "acme_http_api") && settings.jobName != "acme_http_api"
    ensures Proper(settings) && !AllPrefixed(false, settings.jobName, settings.prefix, METRIC_ROOTS)
  {
    RenamedProper(settings);
    RenamedName(settings);
    SomeExpressionSelects(settings);
    RenamedIff(settings.jobName, settings);
  }
}
