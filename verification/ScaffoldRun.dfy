/** `select-scaffold --apply` as a whole, against `check-scaffold`. */
module ScaffoldRun {
  import opened ComposeAgreement
  import opened ComposeGenerator
  import opened ComposeLaws
  import opened ComposeRepeat
  import opened EnvGenerator
  import opened PackageGenerator
  import opened ProfileTemplates
  import opened Results
  import opened ScaffoldConsistency
  import opened Selection
  import opened TestComposeGenerator
  import opened TestEnvGenerator
  import opened Text
  import opened TextFile
  import opened Yaml

  import Checker = ScaffoldChecker
  import PackageAgreement

  /** The parts of a project that the two scripts read or write. `None` is a file that is missing, or that does
      not parse where JSON is read. `files` are the texts of all other files, by path. */
  datatype Project = Project(
    activeScaffold: Option<string>,
    appModule: Option<string>,
    compose: Option<File>,
    config: Option<Choice>,
    env: Option<string>,
    files: map<string, string>,
    loadTestEnv: Option<string>,
    manifest: Option<Manifest>,
    testCompose: Option<File>)

  /** What stops the script before it writes anything. */
  datatype RunError = Missing(path: string) | Rejected(error: ComposeError)

  const E2E_FILE := "test/persistence.e2e-spec.ts"

  /** Files that only TypeORM projects keep. */
  const TYPEORM_FILES: set<string> := {
    "src/common/persistence/provide-repository-port.spec.ts",
    "src/common/persistence/provide-repository-port.ts",
    "src/common/persistence/typeorm-repository.adapter.spec.ts",
    "src/common/persistence/typeorm-repository.adapter.ts",
    "src/config/database.config.spec.ts",
    "src/config/database.config.ts",
    "src/config/typeorm-data-source.ts",
    E2E_FILE}

  /** The paths of the profile files that the script writes; a TypeORM selection writes none. */
  function ProfilePaths(orm: Orm): set<string> {
    match orm
    case Typeorm => {}
    case Prisma => {"prisma.config.ts", "prisma/schema.prisma", MODULE_FILE}
    case Mikroorm => {"src/infra/rdb/mikro-orm.config.ts", MODULE_FILE}
    case Drizzle => {"drizzle.config.ts", MODULE_FILE, "src/infra/rdb/schema.ts"}
  }

  const ACTIVE_HEADER :=
    "import type { ScaffoldConfig } from './scaffold.config.js';\n" + "\n"
    + "/** 생성기가 materialize한 현재 프로젝트 선택. barebones.config.json과 항상 같아야 한다. */\n"
    + "export const activeScaffold: ScaffoldConfig = {\n" + "  rdb: {\n"

  /** `renderActiveScaffold` */
  function ActiveScaffold(c: Choice): string {
    ACTIVE_HEADER + "    " + ("database: '" + c.database.Name() + "'") + ",\n" + "    "
      + ("orm: '" + Checker.OrmName(c.orm) + "'") + ",\n"
    + "  },\n};\n"
  }

  /** The project after the script, or what stops it. */
  function Apply(p: Project, c: Choice, templates: Templates): Result<Project, RunError> {
    Assembled(p, c, Profile(c, templates), if p.compose.None? then None
              else Some(GeneratedCompose(p.compose.value, c.database)))
  }

  /** The files are read in this order; the first that is missing stops the script. */
  function Assembled(p: Project, c: Choice, profile: Result<map<string, string>, string>, compose: Option<Result<File,
                     ComposeError>>):
    Result<Project, RunError>
  {
    if p.manifest.None? then Failure(Missing("package.json"))
    else if profile.Failure? then Failure(Missing(profile.error))
    else if compose.None? then Failure(Missing("docker-compose.yml"))
    else if compose.value.Failure? then Failure(Rejected(compose.value.error))
    else if p.env.None? then Failure(Missing(".env.example"))
    else if p.loadTestEnv.None? then Failure(Missing("test/load-test-env.ts"))
    else Success(Written(p, c, profile.value, compose.value.value))
  }

  /** The project with a given profile and compose file and everything else as the script writes it. */
  function Written(p: Project, c: Choice, profile: map<string, string>, compose: File): Project
    requires p.env.Some? && p.loadTestEnv.Some? && p.manifest.Some?
  {
    Project(Some(ActiveScaffold(c)), p.appModule, Some(compose), Some(c), Some(GeneratedEnv(p.env.value, c.database)),
            FilesAfter(p.files, c.orm, profile), Some(GeneratedTestEnv(p.loadTestEnv.value, c.database)),
            Some(Configured(p.manifest.value, c)), Some(Readable(TestComposeOf(c.database))))
  }

  /** Writing the profile and deleting TypeORM's files. */
  function FilesAfter(files: map<string, string>, orm: Orm, profile: map<string, string>): map<string, string> {
    files + profile - (if orm == Typeorm then {} else TYPEORM_FILES)
  }

  /** The paths whose presence `check-scaffold` looks up. */
  const CANDIDATE_FILES: set<string> := {
    "drizzle.config.ts", "prisma.config.ts", "prisma/schema.prisma",
    "src/common/persistence/typeorm-repository.adapter.ts", "src/config/typeorm-data-source.ts",
    "src/infra/rdb/rdb-database.module.ts", "src/infra/rdb/mikro-orm.config.ts", "src/infra/rdb/schema.ts"}

  function TextAt(files: map<string, string>, path: string): Option<string> {
    if path in files then Some(files[path]) else None
  }

  /** Everything that `check-scaffold` must be able to read is there. */
  predicate Observable(p: Project) {
    && p.activeScaffold.Some? && p.appModule.Some? && p.compose.Some? && p.env.Some? && p.loadTestEnv.Some?
    && p.manifest.Some? && p.testCompose.Some? && MODULE_FILE in p.files
  }

  /** What it reads. */
  function Observed(p: Project): Checker.State
    requires Observable(p)
  {
    Checker.State(p.activeScaffold.value, p.appModule.value, p.compose.value,
                  PackageGenerator.Names(p.manifest.value.dependencies),
                    PackageGenerator.Names(p.manifest.value.devDependencies),
                  p.env.value, CANDIDATE_FILES * p.files.Keys, p.loadTestEnv.value, TextAt(p.files, E2E_FILE),
                  p.files[MODULE_FILE], p.testCompose.value)
  }

  /** The issues for the selection in `barebones.config.json`; `None` when a file cannot be read. */
  function Check(p: Project): Option<seq<Checker.Issue>> {
    if p.config.None? || !Observable(p) then None else Some(Checker.ScaffoldIssues(p.config.value, Observed(p)))
  }

  /** A project that passes for the selection in its `barebones.config.json`. */
  ghost predicate Passes(p: Project, c: Choice) {
    p.config == Some(c) && Check(p) == Some([])
  }

  // ----- when the script's output passes -----

  /** The files of a project lead to the profile's files: nothing of a third ORM is there and, for
      TypeORM, whose files the script does not write, everything of TypeORM is. */
  ghost predicate FilesSelectable(files: set<string>, orm: Orm) {
    && (orm == Typeorm ==> Checker.Names(Checker.RequiredFiles(Typeorm)) <= files)
    && forall o: Orm :: (orm == Typeorm || o != Typeorm) ==>
         (Checker.Names(Checker.RequiredFiles(o)) - Checker.Names(Checker.RequiredFiles(orm))) !! files
  }

  /** TypeORM's module is the one that is there; any other is rendered from its template. */
  ghost predicate ModuleSelectable(p: Project, c: Choice, templates: Templates) {
    if c.orm == Typeorm then OwnModule(p.files, Typeorm)
    else TemplateAgrees(c.orm, c.database, ModuleTemplate(c.orm, templates))
  }

  predicate E2eSelectable(p: Project, c: Choice) {
    c.orm == Typeorm ==> E2eAgrees(TextAt(p.files, E2E_FILE))
  }

  /** What the script reads is there, and it accepts the compose file. */
  predicate Runs(p: Project, c: Choice, templates: Templates) {
    && p.manifest.Some? && TemplatesThere(c.orm, templates)
    && p.compose.Some? && Parses(p.compose.value) && Accepts(p.compose.value.root)
    && p.env.Some? && p.loadTestEnv.Some?
  }

  ghost predicate EnvLeads(p: Project, c: Choice)
    requires p.env.Some? && p.loadTestEnv.Some?
  {
    EnvSelectable(p.env.value, c.database) && TestEnvSelectable(p.loadTestEnv.value, c.database) && E2eSelectable(p, c)
  }

  /** Where a run that does not stop leads to a project that passes, compose file and RDB module apart. */
  ghost predicate Leads(p: Project, c: Choice)
    requires p.env.Some? && p.loadTestEnv.Some?
  {
    && p.appModule.Some? && Includes(p.appModule.value, "RdbDatabaseModule")
    && FilesSelectable(p.files.Keys, c.orm) && EnvLeads(p, c)
  }

  /** A project that the script can turn to `c`: a condition on the project and the templates before the run. */
  ghost predicate Selectable(p: Project, c: Choice, templates: Templates) {
    && Runs(p, c, templates) && ComposeSelectable(p.compose.value, c.database)
    && ModuleSelectable(p, c, templates) && Leads(p, c)
  }

  lemma FieldsMentioned(header: string, first: string, second: string, footer: string)
    ensures Includes(header + "    " + first + ",\n" + "    " + second + ",\n" + footer, first)
    ensures Includes(header + "    " + first + ",\n" + "    " + second + ",\n" + footer, second)
  {
    var all := header + "    " + first + ",\n" + "    " + second + ",\n" + footer;
    assert all == (header + "    ") + first + (",\n" + "    " + second + ",\n" + footer);
    IncludesAt(all, header + "    ", first, ",\n" + "    " + second + ",\n" + footer);
    assert all == (header + "    " + first + ",\n" + "    ") + second + (",\n" + footer);
    IncludesAt(all, header + "    " + first + ",\n" + "    ", second, ",\n" + footer);
  }

  lemma ActiveScaffoldAgrees(c: Choice)
    ensures Includes(ActiveScaffold(c), "database: '" + c.database.Name() + "'")
    ensures Includes(ActiveScaffold(c), "orm: '" + Checker.OrmName(c.orm) + "'")
  {
    FieldsMentioned(ACTIVE_HEADER, "database: '" + c.database.Name() + "'", "orm: '" + Checker.OrmName(c.orm) + "'",
                    "  },\n};\n");
  }

  lemma EnvironmentAgrees(env: string, loadTestEnv: string, d: Database)
    ensures Includes(GeneratedEnv(env, d), "DB_TYPE=" + d.Name()) <==> EnvSelectable(env, d)
    ensures Includes(GeneratedTestEnv(loadTestEnv, d), "process.env.DB_TYPE = '" + d.Name() + "'")
       <==> TestEnvSelectable(loadTestEnv, d)
  {
    GeneratedEnvMentions(env, d);
    GeneratedTestEnvMentions(loadTestEnv, d);
  }

  // ----- files -----

  lemma ProfilePathsRequired(orm: Orm)
    requires orm != Typeorm
    ensures ProfilePaths(orm) == Checker.Names(Checker.RequiredFiles(orm))
  {
    var r := Checker.RequiredFiles(orm);
    assert forall i :: 0 <= i < |r| ==> r[i] in r;
  }

  lemma RenderedKeys(c: Choice, texts: seq<string>)
    requires |texts| == |TemplatePaths(c.orm)|
    ensures Rendered(c, texts).Keys == ProfilePaths(c.orm)
  {
  }

  lemma ProfileKeys(c: Choice, templates: Templates)
    requires Profile(c, templates).Success?
    ensures Profile(c, templates).value.Keys == ProfilePaths(c.orm)
  {
    RenderedKeys(c, ReadAll(TemplatePaths(c.orm), templates).value);
  }

  lemma RequiredAreCandidates(o: Orm)
    ensures Checker.Names(Checker.RequiredFiles(o)) <= CANDIDATE_FILES
  {
  }

  lemma TypeormFilesApart(orm: Orm)
    requires orm != Typeorm
    ensures Checker.Names(Checker.RequiredFiles(orm)) !! TYPEORM_FILES
    ensures Checker.Names(Checker.RequiredFiles(Typeorm)) - Checker.Names(Checker.RequiredFiles(orm)) <= TYPEORM_FILES
  {
    assert Checker.RequiredFiles(Typeorm)[2] == "src/infra/rdb/rdb-database.module.ts";
    assert "src/infra/rdb/rdb-database.module.ts" in Checker.RequiredFiles(orm) by {
      match orm { case Mikroorm => assert Checker.RequiredFiles(orm)[0] in Checker.RequiredFiles(orm);
                  case Prisma => assert Checker.RequiredFiles(orm)[0] in Checker.RequiredFiles(orm);
                  case Drizzle => assert Checker.RequiredFiles(orm)[0] in Checker.RequiredFiles(orm); }
    }
  }

  lemma OthersApart(o: Orm, orm: Orm)
    requires o != Typeorm && orm != Typeorm
    ensures Checker.Names(Checker.RequiredFiles(o)) !! TYPEORM_FILES
  {
    TypeormFilesApart(o);
  }

  /** The paths after a run. */
  function PathsAfter(files: set<string>, orm: Orm): set<string> {
    files + ProfilePaths(orm) - (if orm == Typeorm then {} else TYPEORM_FILES)
  }

  /** Writing the profile and deleting TypeORM's files leaves the right files exactly when nothing of a
      third ORM was there. */
  lemma FilesAfterRun(files: map<string, string>, c: Choice, profile: map<string, string>)
    requires profile.Keys == ProfilePaths(c.orm)
    ensures FilesAgree(c, CANDIDATE_FILES * FilesAfter(files, c.orm, profile).Keys)
       <==> FilesSelectable(files.Keys, c.orm)
  {
    assert FilesAfter(files, c.orm, profile).Keys == PathsAfter(files.Keys, c.orm);
    PathsAfterRun(files.Keys, c);
  }

  lemma PathsAfterRun(files: set<string>, c: Choice)
    ensures FilesAgree(c, CANDIDATE_FILES * PathsAfter(files, c.orm)) <==> FilesSelectable(files, c.orm)
  {
    var after := CANDIDATE_FILES * PathsAfter(files, c.orm);
    var own := Checker.Names(Checker.RequiredFiles(c.orm));
    RequiredAreCandidates(c.orm);
    if c.orm != Typeorm {
      ProfilePathsRequired(c.orm);
      TypeormFilesApart(c.orm);
      assert own <= after;
    }
    forall o: Orm
      ensures (c.orm == Typeorm || o != Typeorm) ==>
                ((Checker.Names(Checker.RequiredFiles(o)) - own) !! after
                 <==> (Checker.Names(Checker.RequiredFiles(o)) - own) !! files)
      ensures c.orm != Typeorm && o == Typeorm ==> (Checker.Names(Checker.RequiredFiles(o)) - own) !! after
    {
      FilesOfOne(files, c.orm, o, Checker.Names(Checker.RequiredFiles(o)) - own, after);
    }
  }

  lemma FilesOfOne(files: set<string>, orm: Orm, o: Orm, others: set<string>, after: set<string>)
    requires others == Checker.Names(Checker.RequiredFiles(o)) - Checker.Names(Checker.RequiredFiles(orm))
    requires after == CANDIDATE_FILES * PathsAfter(files, orm)
    ensures orm == Typeorm || o != Typeorm ==> (others !! after <==> others !! files)
    ensures orm != Typeorm && o == Typeorm ==> others !! after
  {
    RequiredAreCandidates(o);
    if orm != Typeorm {
      ProfilePathsRequired(orm);
      TypeormFilesApart(orm);
      if o != Typeorm {
        OthersApart(o, orm);
      }
    }
  }

  // ----- the generator against the checker -----

  lemma ModuleAfterRun(p: Project, c: Choice, templates: Templates)
    requires Profile(c, templates).Success?
    ensures OwnModule(FilesAfter(p.files, c.orm, Profile(c, templates).value), c.orm)
       <==> ModuleSelectable(p, c, templates)
  {
    var profile := Profile(c, templates).value;
    if c.orm != Typeorm {
      ProfileModuleAgrees(c, templates);
      ProfileNotTypeorm(c.orm);
      ProfileKeys(c, templates);
    } else {
      assert FilesAfter(p.files, c.orm, profile) == p.files;
    }
  }

  lemma ProfileNotTypeorm(orm: Orm)
    ensures ProfilePaths(orm) !! TYPEORM_FILES
  {
    if orm != Typeorm {
      ProfilePathsRequired(orm);
      TypeormFilesApart(orm);
    }
  }

  /** What every run settles. */
  lemma RunSettles(c: Choice, s: Checker.State, manifest: Manifest)
    requires s.activeScaffold == ActiveScaffold(c) && s.testCompose == Readable(TestComposeOf(c.database))
    requires s.dependencies == PackageGenerator.Names(Configured(manifest, c).dependencies)
    requires s.devDependencies == PackageGenerator.Names(Configured(manifest, c).devDependencies)
    ensures Includes(s.activeScaffold, "database: '" + c.database.Name() + "'")
    ensures Includes(s.activeScaffold, "orm: '" + Checker.OrmName(c.orm) + "'")
    ensures PackagesAgree(c, s.dependencies, s.devDependencies) && TestComposeAgrees(c.database, s.testCompose)
  {
    ActiveScaffoldAgrees(c);
    PackageAgreement.ConfiguredPackagesAgree(manifest, c);
    RenderedTestComposeAgrees(c.database);
  }

  lemma RunEnvironment(c: Choice, s: Checker.State, env: string, loadTestEnv: string)
    requires s.envExample == GeneratedEnv(env, c.database) && s.loadTestEnv == GeneratedTestEnv(loadTestEnv, c.database)
    ensures EnvAgrees(c, s) <==>
              (EnvSelectable(env, c.database) && TestEnvSelectable(loadTestEnv, c.database)
               && (c.orm == Typeorm ==> E2eAgrees(s.persistenceE2e)))
  {
    EnvironmentAgrees(env, loadTestEnv, c.database);
  }

  /** The sections of the checker that a run does not settle decide. */
  lemma SectionsDecide(c: Choice, s: Checker.State, manifest: Manifest)
    requires s.activeScaffold == ActiveScaffold(c) && s.testCompose == Readable(TestComposeOf(c.database))
    requires s.dependencies == PackageGenerator.Names(Configured(manifest, c).dependencies)
    requires s.devDependencies == PackageGenerator.Names(Configured(manifest, c).devDependencies)
    ensures Checker.ScaffoldIssues(c, s) == [] <==>
              (&& Includes(s.appModule, "RdbDatabaseModule") && FilesAgree(c, s.files)
               && ModuleAgrees(c.orm, s.rdbModule)
               && EnvAgrees(c, s) && ComposeAgrees(c.database, s.compose))
  {
    RunSettles(c, s, manifest);
    NoIssuesIffConsistent(c, s);
  }

  lemma WrittenDecided(p: Project, c: Choice, profile: map<string, string>, compose: File)
    requires p.env.Some? && p.loadTestEnv.Some? && p.manifest.Some?
    ensures var after := Written(p, c, profile, compose);
            Observable(after) ==>
              var s := Observed(after);
              Checker.ScaffoldIssues(c, s) == [] <==>
                (&& Includes(s.appModule, "RdbDatabaseModule") && FilesAgree(c, s.files)
                 && ModuleAgrees(c.orm, s.rdbModule)
                 && EnvAgrees(c, s) && ComposeAgrees(c.database, s.compose))
  {
    var after := Written(p, c, profile, compose);
    if Observable(after) {
      SectionsDecide(c, Observed(after), p.manifest.value);
    }
  }

  lemma TypeormKeepsFiles(files: map<string, string>, profile: map<string, string>)
    requires profile.Keys == {}
    ensures FilesAfter(files, Typeorm, profile) == files
  {
  }

  lemma WrittenFiles(p: Project, c: Choice, profile: map<string, string>, compose: File)
    requires p.env.Some? && p.loadTestEnv.Some? && p.manifest.Some? && profile.Keys == ProfilePaths(c.orm)
    ensures var after := Written(p, c, profile, compose);
            Observable(after) ==>
              var s := Observed(after);
              && (FilesAgree(c, s.files) <==> FilesSelectable(p.files.Keys, c.orm))
              && (EnvAgrees(c, s) <==> EnvLeads(p, c))
  {
    var after := Written(p, c, profile, compose);
    if Observable(after) {
      FilesAfterRun(p.files, c, profile);
      if c.orm == Typeorm {
        TypeormKeepsFiles(p.files, profile);
      }
      RunEnvironment(c, Observed(after), p.env.value, p.loadTestEnv.value);
    }
  }

  /** What is left of a project that passes, when the checker's sections are decided. */
  lemma DecidedPasses(after: Project, c: Choice, files: bool, env: bool)
    requires after.config == Some(c) && after.activeScaffold.Some? && after.compose.Some? && after.env.Some?
    requires after.loadTestEnv.Some? && after.manifest.Some? && after.testCompose.Some?
    requires Observable(after) ==>
               var s := Observed(after);
               && (Checker.ScaffoldIssues(c, s) == [] <==>
                   (&& Includes(s.appModule, "RdbDatabaseModule") && FilesAgree(c, s.files)
                    && ModuleAgrees(c.orm, s.rdbModule)
                    && EnvAgrees(c, s) && ComposeAgrees(c.database, s.compose)))
               && (FilesAgree(c, s.files) <==> files) && (EnvAgrees(c, s) <==> env)
    ensures Passes(after, c) <==>
              (&& after.appModule.Some? && Includes(after.appModule.value, "RdbDatabaseModule") && files && env
               && ComposeAgrees(c.database, after.compose.value) && OwnModule(after.files, c.orm))
  {
  }

  lemma WrittenPassesIff(p: Project, c: Choice, profile: map<string, string>, compose: File)
    requires p.env.Some? && p.loadTestEnv.Some? && p.manifest.Some? && profile.Keys == ProfilePaths(c.orm)
    ensures Passes(Written(p, c, profile, compose), c) <==>
              (&& Leads(p, c) && ComposeAgrees(c.database, compose)
               && OwnModule(FilesAfter(p.files, c.orm, profile), c.orm))
  {
    WrittenDecided(p, c, profile, compose);
    WrittenFiles(p, c, profile, compose);
    DecidedPasses(Written(p, c, profile, compose), c, FilesSelectable(p.files.Keys, c.orm), EnvLeads(p, c));
  }

  /** The RDB module activates the ORM and no other. */
  ghost predicate OwnModule(files: map<string, string>, orm: Orm) {
    MODULE_FILE in files && ModuleAgrees(orm, files[MODULE_FILE])
  }

  /** Whatever the project and the templates were, what the script writes passes the check exactly when they were
      selectable: the check finds nothing, or the state before the run explains what it finds. A run that stops
      was not selectable either. */
  lemma RunPassesIff(p: Project, c: Choice, templates: Templates)
    ensures match Apply(p, c, templates)
            case Success(after) => Passes(after, c) <==> Selectable(p, c, templates)
            case Failure(_) => !Selectable(p, c, templates)
  {
    RunFailsIff(p, c, templates);
    if Runs(p, c, templates) {
      FinishedPassesIff(p, c, templates, Profile(c, templates), GeneratedCompose(p.compose.value, c.database));
    }
  }

  lemma FinishedPassesIff(p: Project, c: Choice, templates: Templates, profile: Result<map<string, string>, string>,
                          compose: Result<File, ComposeError>)
    requires profile == Profile(c, templates) && profile.Success?
    requires Runs(p, c, templates) && compose == GeneratedCompose(p.compose.value, c.database) && compose.Success?
    ensures Passes(Written(p, c, profile.value, compose.value), c) <==> Selectable(p, c, templates)
  {
    GeneratedComposeAgrees(p.compose.value, c.database);
    ModuleAfterRun(p, c, templates);
    ProfileKeys(c, templates);
    WrittenPassesIff(p, c, profile.value, compose.value);
  }

  /** The script stops exactly when a file or a template that it reads is missing, or at a compose file that it
      cannot parse or does not accept. */
  lemma RunFailsIff(p: Project, c: Choice, templates: Templates)
    ensures Apply(p, c, templates).Failure? <==> !Runs(p, c, templates)
  {
    ProfileIff(c, templates);
    if p.compose.Some? {
      ComposeSucceedsIff(p.compose.value, MaterializationOf(c.database), DockerUrl(c.database));
    }
    AssembledIff(p, c, Profile(c, templates), if p.compose.None? then None
                 else Some(GeneratedCompose(p.compose.value, c.database)));
  }

  lemma AssembledIff(p: Project, c: Choice, profile: Result<map<string, string>, string>, compose: Option<Result<File,
                     ComposeError>>)
    ensures Assembled(p, c, profile, compose).Success? <==>
              p.manifest.Some? && profile.Success? && compose.Some? && compose.value.Success? && p.env.Some?
              && p.loadTestEnv.Some?
  {
  }

  lemma ComposeSucceedsIff(file: File, m: Materialization, url: string)
    ensures ComposeFor(file, m, url).Success? <==> Parses(file) && Accepts(file.root)
  {
  }

  /** The RDB module is the only file that TypeORM's profile shares with another one. */
  lemma OnlyModuleShared(o: Orm, orm: Orm)
    requires o != Typeorm
    ensures Checker.Names(Checker.RequiredFiles(o)) * Checker.Names(Checker.RequiredFiles(Typeorm))
         <= Checker.Names(Checker.RequiredFiles(orm))
  {
    ModuleRequired(orm);
    SharedWithTypeorm(o);
  }

  lemma ModuleRequired(orm: Orm)
    ensures MODULE_FILE in Checker.Names(Checker.RequiredFiles(orm))
  {
    var r := Checker.RequiredFiles(orm);
    assert r[if orm == Typeorm then 2 else 0] == MODULE_FILE;
  }

  lemma SharedWithTypeorm(o: Orm)
    requires o != Typeorm
    ensures Checker.Names(Checker.RequiredFiles(o)) * Checker.Names(Checker.RequiredFiles(Typeorm)) <= {MODULE_FILE}
  {
    TypeormFilesApart(o);
  }

  lemma ConsistentFilesSelectable(files: set<string>, before: Choice, orm: Orm)
    requires FilesAgree(before, CANDIDATE_FILES * files) && (before.orm == Typeorm || before.orm == orm)
    ensures FilesSelectable(files, orm)
  {
    forall o: Orm | orm == Typeorm || o != Typeorm
      ensures (Checker.Names(Checker.RequiredFiles(o)) - Checker.Names(Checker.RequiredFiles(orm))) !! files
    {
      RequiredAreCandidates(o);
      var required := Checker.Names(Checker.RequiredFiles(o));
      var others := required - Checker.Names(Checker.RequiredFiles(orm));
      var known := required - Checker.Names(Checker.RequiredFiles(before.orm));
      if before.orm != orm {
        OnlyModuleShared(o, orm);
      }
      assert others <= known && known !! CANDIDATE_FILES * files;
    }
    RequiredAreCandidates(Typeorm);
  }

  /** The templates of the selected profile are there, and its module template activates that ORM only. */
  ghost predicate ProfileReady(c: Choice, templates: Templates) {
    && TemplatesThere(c.orm, templates)
    && (c.orm != Typeorm ==> TemplateAgrees(c.orm, c.database, ModuleTemplate(c.orm, templates)))
  }

  /** A consistent project, on TypeORM or on the ORM it stays with: the database lines of both env files start
      their lines, the compose file has room for the new names, and the profile's templates are ready. */
  ghost predicate CanTurn(p: Project, before: Choice, target: Choice, templates: Templates) {
    && Passes(p, before) && (before.orm == Typeorm || before.orm == target.orm)
    && Anchored(LinesOf(p.env.value), Key("DB_TYPE"))
    && Anchored(LinesOf(p.loadTestEnv.value), Pattern(TYPE_PREFIX, "';"))
    && ComposeSelectable(p.compose.value, target.database)
    && ProfileReady(target, templates)
  }

  /** Such a project can be turned to any database: the run does not stop, and its result passes. */
  lemma ConsistentProjectCanBeTurned(p: Project, before: Choice, target: Choice, templates: Templates)
    requires CanTurn(p, before, target, templates)
    ensures var r := Apply(p, target, templates); r.Success? && Passes(r.value, target)
  {
    CanTurnIsSelectable(p, before, target, templates);
    SelectedPasses(p, target, templates);
  }

  lemma SelectedPasses(p: Project, c: Choice, templates: Templates)
    requires Selectable(p, c, templates)
    ensures var r := Apply(p, c, templates); r.Success? && Passes(r.value, c)
  {
    RunPassesIff(p, c, templates);
  }

  lemma CanTurnIsSelectable(p: Project, before: Choice, target: Choice, templates: Templates)
    requires CanTurn(p, before, target, templates)
    ensures Selectable(p, target, templates)
  {
    ConsistentParts(p, before, target, templates);
    AnchorsSuffice(p.env.value, p.loadTestEnv.value, target.database);
  }

  lemma AnchorsSuffice(env: string, loadTestEnv: string, d: Database)
    requires Anchored(LinesOf(env), Key("DB_TYPE")) && Anchored(LinesOf(loadTestEnv), Pattern(TYPE_PREFIX, "';"))
    ensures EnvSelectable(env, d) && TestEnvSelectable(loadTestEnv, d)
  {
  }

  lemma ConsistentParts(p: Project, before: Choice, target: Choice, templates: Templates)
    requires Passes(p, before) && (before.orm == Typeorm || before.orm == target.orm) && ProfileReady(target, templates)
    ensures Includes(p.appModule.value, "RdbDatabaseModule") && FilesSelectable(p.files.Keys, target.orm)
    ensures ModuleSelectable(p, target, templates) && E2eSelectable(p, target)
  {
    NoIssuesIffConsistent(before, Observed(p));
    ConsistentFilesSelectable(p.files.Keys, before, target.orm);
  }

  // ----- the last run wins -----

  /** The project that a run leaves: a run that stops has written nothing. */
  function Next(p: Project, c: Choice, templates: Templates): Project {
    var r := Apply(p, c, templates);
    if r.Success? then r.value else p
  }

  /** Every file of the first profile that the second does not rewrite was already there with exactly that text,
      and no file of TypeORM was needed twice. */
  ghost predicate FilesRepeatable(files: map<string, string>, first: Orm, a: map<string, string>, second: Orm,
                                  b: map<string, string>) {
    && (forall path :: path in a && path !in b ==> path in files && files[path] == a[path])
    && (second == Typeorm && first != Typeorm ==> files.Keys !! TYPEORM_FILES)
  }

  lemma FilesTwice(files: map<string, string>, first: Orm, a: map<string, string>, second: Orm, b: map<string, string>)
    requires a.Keys == ProfilePaths(first) && b.Keys == ProfilePaths(second)
    ensures FilesAfter(FilesAfter(files, first, a), second, b) == FilesAfter(files, second, b)
       <==> FilesRepeatable(files, first, a, second, b)
  {
    ProfileNotTypeorm(first);
    ProfileNotTypeorm(second);
    MapsTwice(files, a, b, TYPEORM_FILES, first == Typeorm, second == Typeorm);
  }

  function Dropped(files: map<string, string>, t: set<string>, keep: bool): map<string, string> {
    files - (if keep then {} else t)
  }

  lemma MapsTwice(files: map<string, string>, a: map<string, string>, b: map<string, string>, t: set<string>,
                  keep: bool, keepToo: bool)
    requires a.Keys !! t && b.Keys !! t && (keep ==> a.Keys == {}) && (keepToo ==> b.Keys == {})
    ensures Dropped(Dropped(files + a, t, keep) + b, t, keepToo) == Dropped(files + b, t, keepToo) <==>
              ((forall path :: path in a && path !in b ==> path in files && files[path] == a[path])
               && (keepToo && !keep ==> files.Keys !! t))
  {
    var once, twice := Dropped(files + b, t, keepToo), Dropped(Dropped(files + a, t, keep) + b, t, keepToo);
    forall path | path in a && path !in b
      ensures path in twice && twice[path] == a[path] && (path in once <==> path in files)
      ensures (path in once ==> once[path] == files[path])
    {
    }
    if (forall path :: path in a && path !in b ==> path in files && files[path] == a[path])
    && (keepToo && !keep ==> files.Keys !! t) {
      assert once.Keys == twice.Keys;
      assert once == twice;
    } else if keepToo && !keep && !(files.Keys !! t) {
      var x :| x in files && x in t;
      assert x in once && x !in twice;
    }
  }

  /** No line carries the old comment, or one does and the database stays. */
  ghost predicate TestEnvRepeatable(source: string, a: Database, b: Database) {
    var lines, stale := LinesOf(source), Pattern(STALE_PREFIX, "");
    !Anchored(lines, stale) || (a == b && MatchesOnce(lines, stale))
  }

  /** What a first run must leave for a second one to give the same project. */
  ghost predicate Repeatable(p: Project, a: Choice, b: Choice, templates: Templates)
    requires Runs(p, a, templates) && TemplatesThere(b.orm, templates)
  {
    ProfileIff(a, templates);
    ProfileIff(b, templates);
    && ComposeSelectable(p.compose.value, a.database)
    && TestEnvRepeatable(p.loadTestEnv.value, a.database, b.database)
    && FilesRepeatable(p.files, a.orm, Profile(a, templates).value, b.orm, Profile(b, templates).value)
  }

  lemma WrittenTwice(p: Project, a: Choice, b: Choice, fa: map<string, string>, fb: map<string, string>, ca: File,
                     cb: File, cc: File)
    requires p.env.Some? && p.loadTestEnv.Some? && p.manifest.Some?
    requires fa.Keys == ProfilePaths(a.orm) && fb.Keys == ProfilePaths(b.orm)
    ensures Written(Written(p, a, fa, ca), b, fb, cb) == Written(p, b, fb, cc) <==>
              (&& cb == cc && FilesRepeatable(p.files, a.orm, fa, b.orm, fb)
               && TestEnvRepeatable(p.loadTestEnv.value, a.database, b.database))
  {
    GeneratedTestEnvLastWins(p.loadTestEnv.value, a.database, b.database);
    GeneratedEnvLastWins(p.env.value, a.database, b.database);
    LastConfigurationWins(p.manifest.value, a, b);
    FilesTwice(p.files, a.orm, fa, b.orm, fb);
  }

  /** Selecting `a` and then `b` leaves exactly the project that selecting `b` leaves, in every file, if and only if
      the first run left nothing behind that the second does not rewrite. A run that stops leaves nothing, and
      without the templates of `b` both second runs stop alike. */
  lemma LastRunWins(p: Project, a: Choice, b: Choice, templates: Templates)
    ensures Apply(Next(p, a, templates), b, templates) == Apply(p, b, templates)
       <==> (Runs(p, a, templates) && TemplatesThere(b.orm, templates) ==> Repeatable(p, a, b, templates))
  {
    RunFailsIff(p, a, templates);
    ProfileIff(a, templates);
    ProfileIff(b, templates);
    if Runs(p, a, templates) && TemplatesThere(b.orm, templates) {
      SecondRunWins(p, a, b, templates);
    }
  }

  /** A profile file that the second selection does not write sticks: whatever text it had, unless it was the
      rendered one, the second selection does not win. */
  lemma ProfileFileSticks(p: Project, a: Choice, b: Choice, templates: Templates, path: string)
    requires Runs(p, a, templates) && TemplatesThere(b.orm, templates)
    requires path in ProfilePaths(a.orm) && path !in ProfilePaths(b.orm)
    ensures Profile(a, templates).Success? && path in Profile(a, templates).value
    ensures TextAt(p.files, path) != Some(Profile(a, templates).value[path]) ==>
              Apply(Next(p, a, templates), b, templates) != Apply(p, b, templates)
  {
    ProfileIff(a, templates);
    ProfileIff(b, templates);
    ProfileKeys(a, templates);
    ProfileKeys(b, templates);
    SecondRunWins(p, a, b, templates);
  }

  lemma SecondRunWins(p: Project, a: Choice, b: Choice, templates: Templates)
    requires Runs(p, a, templates) && TemplatesThere(b.orm, templates)
    ensures Apply(Next(p, a, templates), b, templates) == Apply(p, b, templates) <==> Repeatable(p, a, b, templates)
  {
    ProfileIff(a, templates);
    ProfileIff(b, templates);
    ProfileKeys(a, templates);
    ProfileKeys(b, templates);
    RunFailsIff(p, a, templates);
    var file := p.compose.value;
    var ca := GeneratedCompose(file, a.database).value;
    ComposeSucceedsIff(file, MaterializationOf(b.database), DockerUrl(b.database));
    GeneratedComposeLastWins(file, a.database, b.database, ca);
    AssembledTwice(p, a, b, Profile(a, templates).value, Profile(b, templates).value, ca,
                   GeneratedCompose(ca, b.database),
                   GeneratedCompose(file, b.database));
  }

  lemma AssembledTwice(p: Project, a: Choice, b: Choice, fa: map<string, string>, fb: map<string, string>,
                       ca: File, second: Result<File, ComposeError>, once: Result<File, ComposeError>)
    requires p.env.Some? && p.loadTestEnv.Some? && p.manifest.Some? && once.Success?
    requires fa.Keys == ProfilePaths(a.orm) && fb.Keys == ProfilePaths(b.orm)
    ensures (Assembled(Written(p, a, fa, ca), b, Success(fb), Some(second)) == Assembled(p, b, Success(fb), Some(once)))
       <==> (&& second == once && FilesRepeatable(p.files, a.orm, fa, b.orm, fb)
             && TestEnvRepeatable(p.loadTestEnv.value, a.database, b.database))
  {
    if second.Success? {
      WrittenTwice(p, a, b, fa, fb, ca, second.value, once.value);
    }
  }
}
