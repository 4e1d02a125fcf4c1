/** The observability generator as a program over files: it writes its artifacts, or with `--check` lists
    the ones that are stale. */
module Observability {
  import opened Results
  import opened Text
  import opened Separated
  import opened Expression
  import opened Dashboard

  /** JSON printing (with the indentation the generator asks for) and parsing. */
  datatype Printer = Printer(stringify: Json -> string, parse: string -> Option<Json>)

  type Files = map<string, string>

  /** One artifact: a text that is wholly generated, or a dashboard that is rewritten in place. */
  datatype Artifact = Config(path: string, text: string) | Board(path: string)

  /** How a run ends: with the stale artifacts, or by an exception (a file that is missing or is not JSON). */
  datatype Run = Done(files: Files, stale: seq<string>) | Thrown(files: Files)

  function Normalized(contents: string): string {
    TrimEnd(contents) + "\n"
  }

  function Printed(dashboard: Json, settings: Settings, printer: Printer): string {
    Normalized(printer.stringify(RewriteValue(dashboard, None, settings)) + "\n")
  }

  /** What the file of an artifact should hold, read off the files as they are. */
  function Target(files: Files, a: Artifact, settings: Settings, printer: Printer): Option<string> {
    if a.path !in files then None
    else
      match a
      case Config(_, text) => Some(Normalized(text))
      case Board(path) =>
        match printer.parse(files[path])
        case None => None
        case Some(dashboard) => Some(Printed(dashboard, settings, printer))
  }

  function Generated(files: Files, artifacts: seq<Artifact>, checkOnly: bool, settings: Settings, printer: Printer): Run
    decreases |artifacts|
  {
    if artifacts == [] then Done(files, [])
    else
      var a := artifacts[0];
      match Target(files, a, settings, printer)
      case None => Thrown(files)
      case Some(text) =>
        if files[a.path] == text then Generated(files, artifacts[1..], checkOnly, settings, printer)
        else if checkOnly then Listed(a.path, Generated(files, artifacts[1..], checkOnly, settings, printer))
        else Generated(files[a.path := text], artifacts[1..], checkOnly, settings, printer)
  }

  function Listed(path: string, run: Run): Run {
    if run.Done? then Done(run.files, [path] + run.stale) else run
  }

  /** The printer gives back every dashboard that the generator prints, with the newline after it. */
  ghost predicate GivesBack(printer: Printer, settings: Settings) {
    forall text: string :: printer.parse(text).Some? ==>
      printer.parse(Printed(printer.parse(text).value, settings, printer))
        == Some(RewriteValue(printer.parse(text).value, None, settings))
  }

  /** A wholly generated file is nothing else at the same time. */
  ghost predicate NoClash(artifacts: seq<Artifact>) {
    forall i, j :: 0 <= i < |artifacts| && 0 <= j < |artifacts| && artifacts[i].path == artifacts[j].path ==>
      artifacts[i] == artifacts[j]
  }

  predicate Fresh(files: Files, a: Artifact, settings: Settings, printer: Printer) {
    a.path in files && Target(files, a, settings, printer) == Some(files[a.path])
  }

  ghost predicate AllFresh(files: Files, artifacts: seq<Artifact>, settings: Settings, printer: Printer) {
    forall i :: 0 <= i < |artifacts| ==> Fresh(files, artifacts[i], settings, printer)
  }

  /** Writing an artifact makes it fresh and keeps the others so. */
  lemma WriteFreshens(files: Files, a: Artifact, b: Artifact, settings: Settings, printer: Printer)
    requires Proper(settings) && GivesBack(printer, settings)
    requires Target(files, a, settings, printer).Some?
    requires a == b || (a.path != b.path && Fresh(files, b, settings, printer))
    ensures Fresh(files[a.path := Target(files, a, settings, printer).value], b, settings, printer)
  {
    if a == b && a.Board? {
      var dashboard := printer.parse(files[a.path]).value;
      RewriteTwice(dashboard, None, settings);
      assert printer.parse(files[a.path]).Some?;
    }
  }

  /** Generating only extends and overwrites; what was fresh stays fresh. */
  lemma {:induction false} GenerateKeepsFresh(files: Files, artifacts: seq<Artifact>, b: Artifact, settings: Settings,
                                              printer: Printer)
    requires Proper(settings) && GivesBack(printer, settings) && NoClash([b] + artifacts)
    requires Fresh(files, b, settings, printer)
    ensures Fresh(Generated(files, artifacts, false, settings, printer).files, b, settings, printer)
    decreases |artifacts|
  {
    if artifacts != [] {
      var a := artifacts[0];
      var all := [b] + artifacts;
      assert all[0] == b && all[1] == a;
      assert NoClash([b] + artifacts[1..]) by { LessClash(b, artifacts); }
      if Target(files, a, settings, printer).Some? {
        var text := Target(files, a, settings, printer).value;
        if files[a.path] == text {
          GenerateKeepsFresh(files, artifacts[1..], b, settings, printer);
        } else {
          WriteFreshens(files, a, b, settings, printer);
          GenerateKeepsFresh(files[a.path := text], artifacts[1..], b, settings, printer);
        }
      }
    }
  }

  lemma LessClash(b: Artifact, artifacts: seq<Artifact>)
    requires NoClash([b] + artifacts) && artifacts != []
    ensures NoClash([b] + artifacts[1..])
  {
    var all, less := [b] + artifacts, [b] + artifacts[1..];
    forall i, j | 0 <= i < |less| && 0 <= j < |less| && less[i].path == less[j].path
      ensures less[i] == less[j]
    {
      assert less[i] == all[if i == 0 then 0 else i + 1] && less[j] == all[if j == 0 then 0 else j + 1];
    }
  }

  /** After generating, every artifact is fresh. */
  lemma {:induction false} GenerateFreshens(files: Files, artifacts: seq<Artifact>, settings: Settings,
                                            printer: Printer)
    requires Proper(settings) && GivesBack(printer, settings) && NoClash(artifacts)
    requires Generated(files, artifacts, false, settings, printer).Done?
    ensures AllFresh(Generated(files, artifacts, false, settings, printer).files, artifacts, settings, printer)
    decreases |artifacts|
  {
    if artifacts != [] {
      var a := artifacts[0];
      var text := Target(files, a, settings, printer).value;
      var next := if files[a.path] == text then files else files[a.path := text];
      WriteFreshens(files, a, a, settings, printer);
      assert [a] + artifacts[1..] == artifacts;
      assert NoClash(artifacts[1..]);
      GenerateKeepsFresh(next, artifacts[1..], a, settings, printer);
      GenerateFreshens(next, artifacts[1..], settings, printer);
    }
  }

  /** A check lists nothing exactly when every artifact is fresh, and it never writes. */
  lemma {:induction false} CheckIff(files: Files, artifacts: seq<Artifact>, settings: Settings, printer: Printer)
    ensures Generated(files, artifacts, true, settings, printer).files == files
    ensures Generated(files, artifacts, true, settings, printer) == Done(files, [])
       <==> AllFresh(files, artifacts, settings, printer)
    decreases |artifacts|
  {
    if artifacts != [] {
      CheckIff(files, artifacts[1..], settings, printer);
      assert AllFresh(files, artifacts, settings, printer) <==>
        Fresh(files, artifacts[0], settings, printer) && AllFresh(files, artifacts[1..], settings, printer);
    }
  }

  lemma {:induction false} FreshIsKept(files: Files, artifacts: seq<Artifact>, settings: Settings, printer: Printer)
    requires AllFresh(files, artifacts, settings, printer)
    ensures Generated(files, artifacts, false, settings, printer) == Done(files, [])
    decreases |artifacts|
  {
    if artifacts != [] {
      assert Fresh(files, artifacts[0], settings, printer);
      FreshIsKept(files, artifacts[1..], settings, printer);
    }
  }

  /** Generate, then check: the check is clean, and generating again changes nothing. */
  lemma GenerateThenCheck(files: Files, artifacts: seq<Artifact>, settings: Settings, printer: Printer)
    requires Proper(settings) && GivesBack(printer, settings) && NoClash(artifacts)
    requires Generated(files, artifacts, false, settings, printer).Done?
    ensures var after := Generated(files, artifacts, false, settings, printer).files;
            && Generated(after, artifacts, true, settings, printer) == Done(after, [])
            && Generated(after, artifacts, false, settings, printer) == Done(after, [])
  {
    var after := Generated(files, artifacts, false, settings, printer).files;
    GenerateFreshens(files, artifacts, settings, printer);
    CheckIff(after, artifacts, settings, printer);
    FreshIsKept(after, artifacts, settings, printer);
  }

  /** The check is clean exactly when generating would succeed and change nothing. */
  lemma CheckPredictsGenerate(files: Files, artifacts: seq<Artifact>, settings: Settings, printer: Printer)
    requires Proper(settings) && GivesBack(printer, settings) && NoClash(artifacts)
    ensures Generated(files, artifacts, true, settings, printer) == Done(files, [])
       <==> Generated(files, artifacts, false, settings, printer) == Done(files, [])
  {
    CheckIff(files, artifacts, settings, printer);
    if AllFresh(files, artifacts, settings, printer) {
      FreshIsKept(files, artifacts, settings, printer);
    } else if Generated(files, artifacts, false, settings, printer) == Done(files, []) {
      GenerateFreshens(files, artifacts, settings, printer);
    }
  }

  // ----- the program -----

  const PROMETHEUS_OUTPUT_PATH := "ops/prometheus/prometheus.yml"

  const DASHBOARD_FILES: seq<string> := [
    "ops/grafana/provisioning/dashboards/" + "json/bullmq-jobs.json",
    "ops/grafana/provisioning/dashboards/" + "json/http-performance.json",
    "ops/grafana/provisioning/dashboards/" + "json/infra-health.json",
    "ops/grafana/provisioning/dashboards/" + "json/nodejs-overview.json"]

  function Boards(paths: seq<string>): (r: seq<Artifact>)
    ensures |r| == |paths| && forall i :: 0 <= i < |paths| ==> r[i] == Board(paths[i])
  {
    if paths == [] then [] else [Board(paths[0])] + Boards(paths[1..])
  }

  function Artifacts(prometheus: string): seq<Artifact> {
    [Config(PROMETHEUS_OUTPUT_PATH, prometheus)] + Boards(DASHBOARD_FILES)
  }

  lemma BoardsElsewhere()
    ensures forall i :: 0 <= i < |DASHBOARD_FILES| ==> DASHBOARD_FILES[i] != PROMETHEUS_OUTPUT_PATH
  {
    assert |PROMETHEUS_OUTPUT_PATH| < 40;
    assert |DASHBOARD_FILES[0]| > 40 && |DASHBOARD_FILES[1]| > 40 && |DASHBOARD_FILES[2]| > 40
           && |DASHBOARD_FILES[3]| > 40;
  }

  lemma ArtifactsDoNotClash(prometheus: string)
    ensures NoClash(Artifacts(prometheus))
  {
    var all := Artifacts(prometheus);
    BoardsElsewhere();
    assert forall i :: 0 < i < |all| ==> all[i] == Board(DASHBOARD_FILES[i - 1]);
  }

  /** `renderPrometheusConfig` */
  function RenderPrometheusConfig(settings: Settings): string {
    Join([
        "global:",
        "  scrape_interval: 15s",
        "  evaluation_interval: 15s",
        "",
        "scrape_configs:",
        "  - job_name: " + settings.jobName,
        "    metrics_path: " + settings.metricsPath,
        "    static_configs:",
        "      - targets:",
        "          - " + settings.scrapeTarget,
        "",
        "  - job_name: prometheus",
        "    static_configs:",
        "      - targets:",
        "          - localhost:9090",
        ""], '\n')
  }

  /** One run of the program: it writes the artifacts, or with `--check` compares them. */
  function ProgramRun(files: Files, checkOnly: bool, settings: Settings, printer: Printer): Run {
    Generated(files, Artifacts(RenderPrometheusConfig(settings)), checkOnly, settings, printer)
  }

  /** The program generates, and then its own check is clean and generating again changes nothing. */
  lemma ProgramThenCheck(files: Files, settings: Settings, printer: Printer)
    requires Proper(settings) && GivesBack(printer, settings)
    requires ProgramRun(files, false, settings, printer).Done?
    ensures var after := ProgramRun(files, false, settings, printer).files;
            && ProgramRun(after, true, settings, printer) == Done(after, [])
            && ProgramRun(after, false, settings, printer) == Done(after, [])
  {
    var prometheus := RenderPrometheusConfig(settings);
    ArtifactsDoNotClash(prometheus);
    GenerateThenCheck(files, Artifacts(prometheus), settings, printer);
  }

  /** The program's check is clean exactly when generating would succeed and change nothing. */
  lemma ProgramCheckPredicts(files: Files, settings: Settings, printer: Printer)
    requires Proper(settings) && GivesBack(printer, settings)
    ensures ProgramRun(files, true, settings, printer) == Done(files, [])
       <==> ProgramRun(files, false, settings, printer) == Done(files, [])
  {
    var prometheus := RenderPrometheusConfig(settings);
    ArtifactsDoNotClash(prometheus);
    CheckPredictsGenerate(files, Artifacts(prometheus), settings, printer);
  }

  /** Artifacts already listed, in front of what the rest of a run lists. */
  function After(listed: seq<string>, run: Run): Run {
    if run.Done? then Done(run.files, listed + run.stale) else run
  }

  class Generator {
    var files: Files
    const settings: Settings
    const printer: Printer

    constructor (files: Files, settings: Settings, printer: Printer)
      ensures this.files == files && this.settings == settings && this.printer == printer
    {
      this.files, this.settings, this.printer := files, settings, printer;
    }

    /** `None` is an exception, an empty list a fresh or written file, a path a stale one. */
    method WriteFile(path: string, contents: string, checkOnly: bool) returns (changed: Option<seq<string>>)
      modifies this
      ensures path !in old(files) ==> changed == None && files == old(files)
      ensures path in old(files) ==>
                && changed == Some(if checkOnly && old(files)[path] != Normalized(contents) then [path] else [])
                && files == (if checkOnly then old(files) else old(files)[path := Normalized(contents)])
    {
      if path !in files {
        return None;
      }
      var normalized := Normalized(contents);
      if files[path] == normalized {
        assert files == files[path := normalized];
        return Some([]);
      }
      if checkOnly {
        return Some([path]);
      }
      files := files[path := normalized];
      return Some([]);
    }

    method RewriteDashboard(path: string, checkOnly: bool) returns (changed: Option<seq<string>>)
      modifies this
      ensures var target := Target(old(files), Board(path), settings, printer);
              && (target.None? ==> changed == None && files == old(files))
              && (target.Some? ==>
                    && changed == Some(if checkOnly && old(files)[path] != target.value then [path] else [])
                    && files == if checkOnly then old(files) else old(files)[path := target.value])
    {
      if path !in files {
        return None;
      }
      var existing := printer.parse(files[path]);
      if existing.None? {
        return None;
      }
      changed := WriteFile(path, printer.stringify(RewriteValue(existing.value, None, settings)) + "\n", checkOnly);
    }

    /** The loop over the dashboards, up to the first that cannot be read. */
    method RewriteEach(paths: seq<string>, checkOnly: bool) returns (listed: Option<seq<string>>)
      modifies this
      ensures Generated(old(files), Boards(paths), checkOnly, settings, printer)
           == if listed.None? then Thrown(files) else Done(files, listed.value)
    {
      ghost var all := Boards(paths);
      ghost var whole := Generated(files, all, checkOnly, settings, printer);
      var found := [];
      AfterNothing(whole);
      assert all[0..] == all;
      for i := 0 to |paths|
        invariant whole == After(found, Generated(files, all[i..], checkOnly, settings, printer))
      {
        ghost var before := files;
        var result := RewriteDashboard(paths[i], checkOnly);
        if result.None? {
          return None;
        }
        assert all[i..][0] == Board(paths[i]) && all[i..][1..] == all[i + 1..];
        FirstArtifact(before, all[i..], checkOnly, settings, printer, files, result.value);
        AfterBoth(found, result.value, Generated(files, all[i + 1..], checkOnly, settings, printer));
        found := found + result.value;
      }
      assert all[|paths|..] == [];
      return Some(found);
    }

    method Generate(prometheus: string, checkOnly: bool) returns (changedFiles: Option<seq<string>>, exitCode: int)
      modifies this
      ensures var run := Generated(old(files), Artifacts(prometheus), checkOnly, settings, printer);
              && run == (if changedFiles.None? then Thrown(files) else Done(files, changedFiles.value))
              && exitCode == if changedFiles.None? || (checkOnly && changedFiles.value != []) then 1 else 0
    {
      ghost var all := Artifacts(prometheus);
      var result := WriteFile(PROMETHEUS_OUTPUT_PATH, prometheus, checkOnly);
      if result.None? {
        return None, 1;
      }
      assert all[1..] == Boards(DASHBOARD_FILES);
      FirstArtifact(old(files), all, checkOnly, settings, printer, files, result.value);
      var listed := RewriteEach(DASHBOARD_FILES, checkOnly);
      if listed.None? {
        return None, 1;
      }
      var changed := result.value + listed.value;
      return Some(changed), if checkOnly && changed != [] then 1 else 0;
    }

    /** `main`: the exit code is 1 for an exception and for a check that lists an artifact. */
    method Run(checkOnly: bool) returns (changedFiles: Option<seq<string>>, exitCode: int)
      modifies this
      ensures var run := ProgramRun(old(files), checkOnly, settings, printer);
              && run == (if changedFiles.None? then Thrown(files) else Done(files, changedFiles.value))
              && exitCode == if changedFiles.None? || (checkOnly && changedFiles.value != []) then 1 else 0
    {
      changedFiles, exitCode := Generate(RenderPrometheusConfig(settings), checkOnly);
    }
  }

  lemma AfterNothing(run: Run)
    ensures After([], run) == run
  {
    if run.Done? {
      assert [] + run.stale == run.stale;
    }
  }

  lemma AfterBoth(a: seq<string>, b: seq<string>, run: Run)
    ensures After(a, After(b, run)) == After(a + b, run)
  {
    if run.Done? {
      assert a + (b + run.stale) == a + b + run.stale;
    }
  }

  /** One artifact of a run, in terms of the files after it and what it lists. */
  lemma FirstArtifact(files: Files, artifacts: seq<Artifact>, checkOnly: bool, settings: Settings, printer: Printer,
                      next: Files, listed: seq<string>)
    requires artifacts != [] && Target(files, artifacts[0], settings, printer).Some?
    requires var path, text := artifacts[0].path, Target(files, artifacts[0], settings, printer).value;
             && listed == (if checkOnly && files[path] != text then [path] else [])
             && next == if checkOnly then files else files[path := text]
    ensures Generated(files, artifacts, checkOnly, settings, printer)
         == After(listed, Generated(next, artifacts[1..], checkOnly, settings, printer))
  {
    var path, text := artifacts[0].path, Target(files, artifacts[0], settings, printer).value;
    var rest := Generated(next, artifacts[1..], checkOnly, settings, printer);
    assert files[path] == text ==> files[path := text] == files;
    assert rest.Done? ==> [] + rest.stale == rest.stale;
  }
}
