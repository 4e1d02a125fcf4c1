/** The selection script itself: it plans everything, then writes the files one after another, deletes TypeORM's,
    and runs the commands that follow. */
module ScaffoldScript {
  import opened ComposeAgreement
  import ComposeDocument
  import opened ComposeGenerator
  import opened ComposeLaws
  import opened ComposeUrl
  import opened EnvGenerator
  import opened PackageGenerator
  import opened ProfileTemplates
  import opened Results
  import opened ScaffoldConfig
  import opened ScaffoldRun
  import opened Selection
  import opened TestComposeGenerator
  import opened TestEnvGenerator
  import opened Yaml

  import Checker = ScaffoldChecker

  /** The commands that a run with `--apply` starts after writing. */
  datatype Command = Install | GenerateClient | CheckScaffold | Lint | Typecheck

  datatype Stop = BadSelection(refusal: ConfigError) | NotPlanned(error: RunError) | CommandFailed(command: Command)

  function Commands(orm: Orm): seq<Command> {
    [Install] + (if orm == Prisma then [GenerateClient] else []) + [CheckScaffold, Lint, Typecheck]
  }

  function FirstFailed(commands: seq<Command>, succeeds: Command -> bool): Option<Command> {
    if commands == [] then None
    else if !succeeds(commands[0]) then Some(commands[0])
    else FirstFailed(commands[1..], succeeds)
  }

  /** How the commands end a run. */
  function Ending(orm: Orm, succeeds: Command -> bool): Option<Stop> {
    match FirstFailed(Commands(orm), succeeds)
    case Some(command) => Some(CommandFailed(command))
    case None => None
  }

  /** The contents of the files, computed before the first of them is written. */
  datatype Plan = Plan(
    profile: map<string, string>,
    env: string,
    config: Choice,
    compose: File,
    testCompose: File,
    manifest: Manifest,
    loadTestEnv: string,
    activeScaffold: string)

  /** The project with the planned contents. */
  function Carried(p: Project, plan: Plan): Project {
    Project(Some(plan.activeScaffold), p.appModule, Some(plan.compose), Some(plan.config), Some(plan.env),
            FilesAfter(p.files, plan.config.orm, plan.profile), Some(plan.loadTestEnv), Some(plan.manifest),
              Some(plan.testCompose))
  }

  method PlanCompose(file: File, m: Materialization, url: string) returns (r: Result<File, ComposeError>)
    requires IsRdb(m.name)
    ensures r == ComposeFor(file, m, url)
  {
    if !Parses(file) {
      return Failure(InvalidYaml);
    }
    var compose := ComposeDocument.MaterializeTypeOrmCompose(file.root, m);
    if compose.Failure? {
      return Failure(compose.error);
    }
    return Success(WithDatabaseUrlCompose(compose.value, url));
  }

  method ConfiguredManifest(manifest: Manifest, c: Choice) returns (r: Manifest)
    ensures r == Configured(manifest, c)
  {
    var package := new PackageManifest(manifest);
    package.ConfigurePackages(c);
    r := package.Contents();
  }

  /** `main` up to the printed plan: what stops it there has changed nothing. */
  method MakePlan(p: Project, c: Choice, templates: Templates) returns (r: Result<Plan, RunError>)
    ensures match r
            case Failure(error) => Apply(p, c, templates) == Failure(error)
            case Success(plan) => Apply(p, c, templates) == Success(Carried(p, plan)) && plan.config == c
  {
    if p.manifest.None? {
      return Failure(Missing("package.json"));
    }
    var manifest := ConfiguredManifest(p.manifest.value, c);
    var profile := ProfileFiles(c, templates);
    if profile.Failure? {
      return Failure(Missing(profile.error));
    }
    if p.compose.None? {
      return Failure(Missing("docker-compose.yml"));
    }
    NameIsRdb(c.database);
    var compose := PlanCompose(p.compose.value, MaterializationOf(c.database), DockerUrl(c.database));
    if compose.Failure? {
      return Failure(Rejected(compose.error));
    }
    if p.env.None? {
      return Failure(Missing(".env.example"));
    }
    var testCompose := RenderTestCompose(c.database);
    if p.loadTestEnv.None? {
      return Failure(Missing("test/load-test-env.ts"));
    }
    return Success(Plan(profile.value, GeneratedEnv(p.env.value, c.database), c, compose.value, Readable(testCompose),
                        manifest,
                        GeneratedTestEnv(p.loadTestEnv.value, c.database), ActiveScaffold(c)));
  }

  /** The project that a run with these arguments writes, or what stops it before it writes anything. */
  function Planned(p: Project, database: Option<string>, orm: Option<string>, templates: Templates):
    Result<Project, Stop>
  {
    var c := ParseScaffoldConfig(database, orm);
    if c.Failure? then Failure(BadSelection(c.error))
    else
      var r := Apply(p, c.value, templates);
      if r.Failure? then Failure(NotPlanned(r.error)) else Success(r.value)
  }

  /** The script gets to writing exactly with the names of a selection for which everything that it reads is there
      and the compose file is accepted. */
  lemma PlannedIff(p: Project, database: Option<string>, orm: Option<string>, templates: Templates)
    ensures Planned(p, database, orm, templates).Success? <==>
              exists c: Choice ::
                database == Some(c.database.Name()) && orm == Some(Checker.OrmName(c.orm)) && Runs(p, c, templates)
  {
    var parsed := ParseScaffoldConfig(database, orm);
    forall c: Choice
      ensures parsed == Success(c) <==> database == Some(c.database.Name()) && orm == Some(Checker.OrmName(c.orm))
    {
      ParsedIff(database, orm, c);
    }
    if parsed.Success? {
      RunFailsIff(p, parsed.value, templates);
    }
  }

  /** The working directory that the script reads and writes. */
  class Workspace {
    var project: Project
    const templates: Templates

    constructor (p: Project, templates: Templates)
      ensures project == p && this.templates == templates
    {
      project, this.templates := p, templates;
    }

    method WriteFile(path: string, contents: string)
      modifies this
      ensures project == old(project).(files := old(project).files[path := contents])
    {
      project := project.(files := project.files[path := contents]);
    }

    /** The profile's files, one after another. */
    method WriteEach(contents: map<string, string>)
      modifies this
      ensures project == old(project).(files := old(project).files + contents)
    {
      var rest := contents.Keys;
      ghost var before := project.files;
      while rest != {}
        invariant rest <= contents.Keys && project == old(project).(files := before + (contents - rest))
        decreases |rest|
      {
        var path :| path in rest;
        WriteFile(path, contents[path]);
        WrittenOne(before, contents, rest, path);
        rest := rest - {path};
      }
      assert contents - {} == contents;
    }

    /** `paths.forEach((path) => { if (existsSync(path)) unlinkSync(path); })` */
    method DeleteEach(paths: set<string>)
      modifies this
      ensures project == old(project).(files := old(project).files - paths)
    {
      var rest := paths;
      ghost var before := project.files;
      while rest != {}
        invariant rest <= paths && project == old(project).(files := before - (paths - rest))
        decreases |rest|
      {
        var path :| path in rest;
        DeletedOne(before, paths, rest, path);
        if path in project.files {
          project := project.(files := project.files - {path});
        }
        rest := rest - {path};
      }
      assert paths - {} == paths;
    }

    /** Writes every planned file, in the order of the plan, and deletes TypeORM's. */
    method Carry(plan: Plan)
      modifies this
      ensures project == Carried(old(project), plan)
    {
      WriteEach(plan.profile);
      project := project.(env := Some(plan.env));
      project := project.(config := Some(plan.config));
      project := project.(compose := Some(plan.compose));
      project := project.(testCompose := Some(plan.testCompose));
      project := project.(manifest := Some(plan.manifest));
      project := project.(loadTestEnv := Some(plan.loadTestEnv));
      project := project.(activeScaffold := Some(plan.activeScaffold));
      if plan.config.orm != Typeorm {
        DeleteEach(TYPEORM_FILES);
      } else {
        assert project.files - {} == project.files;
      }
    }

    /** `main`, from its arguments on. */
    method SelectNamed(database: Option<string>, orm: Option<string>, apply: bool, succeeds: Command -> bool)
      returns (stopped: Option<Stop>)
      modifies this
      ensures match Planned(old(project), database, orm, templates)
              case Failure(stop) => stopped == Some(stop) && project == old(project)
              case Success(after) =>
                if !apply then stopped == None && project == old(project)
                else
                  && project == after && ParseScaffoldConfig(database, orm).Success?
                  && stopped == Ending(ParseScaffoldConfig(database, orm).value.orm, succeeds)
    {
      var c := ParseScaffoldConfig(database, orm);
      if c.Failure? {
        return Some(BadSelection(c.error));
      }
      stopped := Select(c.value, apply, succeeds);
    }

    /** `main` for a selection: plans, and with `--apply` writes, deletes, and runs the commands until one fails.
        A run that stops while it plans, and a dry run, leave the directory as it was; a failing command leaves it
        written. `succeeds` says how the commands end; they change none of these files. */
    method Select(c: Choice, apply: bool, succeeds: Command -> bool) returns (stopped: Option<Stop>)
      modifies this
      ensures match Apply(old(project), c, templates)
              case Failure(error) => stopped == Some(NotPlanned(error)) && project == old(project)
              case Success(after) =>
                if !apply then stopped == None && project == old(project)
                else
                  && project == after
                  && stopped == Ending(c.orm, succeeds)
    {
      var plan := MakePlan(project, c, templates);
      if plan.Failure? {
        return Some(NotPlanned(plan.error));
      }
      if !apply {
        return None;
      }
      Carry(plan.value);
      stopped := RunCommands(Commands(c.orm), succeeds);
    }
  }

  method RunCommands(commands: seq<Command>, succeeds: Command -> bool) returns (stopped: Option<Stop>)
    ensures stopped
         == match FirstFailed(commands, succeeds) case Some(command) => Some(CommandFailed(command)) case None => None
  {
    assert commands[0..] == commands;
    for i := 0 to |commands|
      invariant FirstFailed(commands, succeeds) == FirstFailed(commands[i..], succeeds)
    {
      assert commands[i..][0] == commands[i] && commands[i..][1..] == commands[i + 1..];
      if !succeeds(commands[i]) {
        return Some(CommandFailed(commands[i]));
      }
    }
    return None;
  }

  lemma WrittenOne(files: map<string, string>, contents: map<string, string>, rest: set<string>, path: string)
    requires path in rest && rest <= contents.Keys
    ensures (files + (contents - rest))[path := contents[path]] == files + (contents - (rest - {path}))
  {
    var now, next := (files + (contents - rest))[path := contents[path]], files + (contents - (rest - {path}));
    assert now.Keys == next.Keys;
    assert forall k :: k in now ==> now[k] == next[k];
  }

  lemma DeletedOne(files: map<string, string>, paths: set<string>, rest: set<string>, path: string)
    requires path in rest && rest <= paths
    ensures files - (paths - rest) - {path} == files - (paths - (rest - {path}))
    ensures path !in files - (paths - rest) ==> files - (paths - rest) == files - (paths - (rest - {path}))
  {
    var now, next := files - (paths - rest) - {path}, files - (paths - (rest - {path}));
    assert now.Keys == next.Keys;
    assert path !in files - (paths - rest) ==> (files - (paths - rest)).Keys == next.Keys;
  }
}
