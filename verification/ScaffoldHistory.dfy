/** Any number of selections, one after another. */
module ScaffoldHistory {
  import opened ComposeAgreement
  import opened ComposeGenerator
  import opened ComposeLaws
  import opened ComposeRepeat
  import opened ComposeUrlRoom
  import opened EnvGenerator
  import opened ProfileTemplates
  import opened Results
  import opened ScaffoldRun
  import opened Selection
  import opened TestEnvGenerator
  import opened Text
  import opened TextFile
  import opened Yaml

  // ----- what one run keeps -----

  lemma ApartKeepsAnchor(lines: Lines, e: Edit, p: Pattern)
    requires Apart(e.pattern, p) && !p.Matches(e.line)
    ensures FirstMatch(Rewrite(lines, e), p) == FirstMatch(lines, p)
  {
    var i, r := FirstMatch(lines, e.pattern), Rewrite(lines, e);
    if i < |lines| {
      ApartExcludes(e.pattern, p, lines[i]);
    }
    FirstMatchIs(r, p, FirstMatch(lines, p));
  }

  /** A `DB_TYPE` line stays at the start of its line. */
  lemma EnvStaysAnchored(env: string, d: Database)
    requires Anchored(LinesOf(env), Key("DB_TYPE"))
    ensures Anchored(LinesOf(GeneratedEnv(env, d)), Key("DB_TYPE"))
  {
    GeneratedEnvReads(env, d);
    EnvEditsIndependent(d);
    FirstFour(d);
    KeyPatterns(0);
    FirstStaysAnchored(LinesOf(env), TypeOrmEnvEdits(d), UrlEdit(d), EnvEdits(d));
  }

  /** The first of several independent keys keeps its line. */
  lemma FirstStaysAnchored(lines: Lines, init: seq<Edit>, last: Edit, all: seq<Edit>)
    requires all == init + [last] && init != [] && Independent(all) && Independent(init)
    requires KeyPattern(all[0].pattern) && Anchored(lines, all[0].pattern)
    ensures Anchored(RewriteOrAppend(RewriteAll(lines, init), last), all[0].pattern)
  {
    var p := all[0].pattern;
    assert all[|init|] == last;
    assert Apart(all[|init|].pattern, all[0].pattern);
    forall k | 0 <= k < |init| ensures init[k].pattern == p || Apart(init[k].pattern, p) {
      assert init[k] == all[k];
      assert k != 0 ==> Apart(all[k].pattern, all[0].pattern);
    }
    RewriteAllKeepsMatches(lines, init, p);
    AppendKeepsAnchor(RewriteAll(lines, init), last, p);
  }

  lemma AppendKeepsAnchor(lines: Lines, e: Edit, p: Pattern)
    requires Anchored(lines, p) && KeyPattern(p) && Apart(e.pattern, p) && e.pattern.Matches(e.line)
    ensures Anchored(RewriteOrAppend(lines, e), p)
  {
    if Anchored(lines, e.pattern) {
      RewriteKeepsMatches(lines, e, p);
    } else {
      TrimEndTextKeepsKey(lines, p);
      FirstMatchAppend(TrimEndText(lines), [e.line, ""], p);
    }
  }

  lemma TestEnvStaysAnchored(source: string, d: Database)
    requires Anchored(LinesOf(source), Pattern(TYPE_PREFIX, "';"))
    ensures Anchored(LinesOf(GeneratedTestEnv(source, d)), Pattern(TYPE_PREFIX, "';"))
  {
    var lines, es, p := LinesOf(source), TestEnvEdits(d), TypeEdit(d).pattern;
    TestEnvFlat(d);
    ErasingReads(source, es, StaleEdit(d));
    EditsApart(d);
    StaleErases(d, d);
    assert es[0].pattern == p && Apart(StaleEdit(d).pattern, es[0].pattern)
           && !es[0].pattern.Matches(StaleEdit(d).line);
    forall k | 0 <= k < |es| ensures es[k].pattern == p || Apart(es[k].pattern, p) {
      assert k != 0 ==> Apart(es[k].pattern, es[0].pattern);
    }
    RewriteAllKeepsMatches(lines, es, p);
    ApartKeepsAnchor(RewriteAll(lines, es), StaleEdit(d), p);
  }

  /** A file that can be turned to `a` can, after that, be turned to exactly the databases it could be turned
      to before. */
  lemma SelectableStays(file: File, a: Materialization, b: Materialization, ua: string, ub: string)
    requires RowSet(a) && RowSet(b) && '\n' !in ua && '\n' !in ub
    ensures SelectableFor(file, a.name) ==>
              ComposeFor(file, a, ua).Success?
              && (SelectableFor(ComposeFor(file, a, ua).value, b.name) <==> SelectableFor(file, b.name))
  {
    if SelectableFor(file, a.name) {
      WrittenParsesIff(file, a, ua);
      WrittenParsesIff(file, b, ub);
      SecondRun(file, a, b, ua, ub);
      var next := ComposeFor(file, a, ua).value;
      AcceptedWhenWritten(next, b, ub);
      WrittenParsesIff(next, b, ub);
    }
  }

  lemma AcceptedWhenWritten(file: File, m: Materialization, url: string)
    ensures ComposeFor(file, m, url).Success? ==> Parses(file) && Accepts(file.root)
  {
  }

  lemma AllSelectableStays(file: File, a: Database, b: Database)
    ensures ComposeSelectable(file, a) && ComposeSelectable(file, b) ==>
              GeneratedCompose(file, a).Success? && ComposeSelectable(GeneratedCompose(file, a).value, b)
  {
    RowIsSet(a);
    RowIsSet(b);
    DockerUrlOneLine(a);
    DockerUrlOneLine(b);
    SelectableStays(file, MaterializationOf(a), MaterializationOf(b), DockerUrl(a), DockerUrl(b));
  }

  // ----- any number of runs -----

  /** The database lines of both env files start their lines. */
  ghost predicate LinesAnchored(p: Project) {
    && p.env.Some? && Anchored(LinesOf(p.env.value), Key("DB_TYPE"))
    && p.loadTestEnv.Some? && Anchored(LinesOf(p.loadTestEnv.value), Pattern(TYPE_PREFIX, "';"))
  }

  ghost predicate EverySelectable(p: Project) {
    p.compose.Some? && forall d: Database :: ComposeSelectable(p.compose.value, d)
  }

  /** A project that passes for its selection and can be turned to every database. */
  ghost predicate Turnable(p: Project, c: Choice) {
    Passes(p, c) && LinesAnchored(p) && EverySelectable(p)
  }

  /** A selection that the script supports after `from`: TypeORM can be left, another ORM is kept, and the
      templates of the profile are ready. */
  ghost predicate Supported(from: Orm, next: Choice, templates: Templates) {
    (from == Typeorm || next.orm == from) && ProfileReady(next, templates)
  }

  ghost predicate AllSupported(from: Orm, history: seq<Choice>, templates: Templates)
    decreases |history|
  {
    history != [] ==> Supported(from, history[0], templates) && AllSupported(history[0].orm, history[1..], templates)
  }

  function LastChoice(before: Choice, history: seq<Choice>): Choice {
    if history == [] then before else history[|history| - 1]
  }

  lemma RunPasses(p: Project, c: Choice, next: Choice, templates: Templates)
    requires Turnable(p, c) && Supported(c.orm, next, templates)
    ensures var r := Apply(p, next, templates); r.Success? && Passes(r.value, next)
  {
    ConsistentProjectCanBeTurned(p, c, next, templates);
  }

  lemma WrittenStaysAnchored(p: Project, c: Choice, profile: map<string, string>, compose: File)
    requires LinesAnchored(p) && p.manifest.Some?
    ensures LinesAnchored(Written(p, c, profile, compose))
  {
    EnvStaysAnchored(p.env.value, c.database);
    TestEnvStaysAnchored(p.loadTestEnv.value, c.database);
  }

  lemma GeneratedStaysSelectable(file: File, a: Database)
    requires forall d: Database :: ComposeSelectable(file, d)
    ensures GeneratedCompose(file, a).Success?
            && forall d: Database :: ComposeSelectable(GeneratedCompose(file, a).value, d)
  {
    GeneratedForSelectable(file, MaterializationOf(a), DockerUrl(a), a);
  }

  lemma GeneratedForSelectable(file: File, m: Materialization, url: string, a: Database)
    requires m == MaterializationOf(a) && url == DockerUrl(a)
    requires forall d: Database :: ComposeSelectable(file, d)
    ensures ComposeFor(file, m, url).Success?
            && forall d: Database :: ComposeSelectable(ComposeFor(file, m, url).value, d)
  {
    assert ComposeSelectable(file, a);
    forall d: Database
      ensures ComposeFor(file, m, url).Success? && ComposeSelectable(ComposeFor(file, m, url).value, d)
    {
      assert ComposeSelectable(file, d);
      AllSelectableStays(file, a, d);
    }
  }

  /** A run keeps the lines anchored, and the compose file selectable. */
  lemma RunKeeps(p: Project, c: Choice, templates: Templates)
    requires LinesAnchored(p) && EverySelectable(p) && Apply(p, c, templates).Success?
    ensures var after := Apply(p, c, templates).value; LinesAnchored(after) && EverySelectable(after)
  {
    AssembledIff(p, c, Profile(c, templates), Some(GeneratedCompose(p.compose.value, c.database)));
    GeneratedStaysSelectable(p.compose.value, c.database);
    WrittenStaysAnchored(p, c, Profile(c, templates).value, GeneratedCompose(p.compose.value, c.database).value);
  }

  lemma TurnableStays(p: Project, c: Choice, next: Choice, templates: Templates)
    requires Turnable(p, c) && Supported(c.orm, next, templates)
    ensures var r := Apply(p, next, templates); r.Success? && Turnable(r.value, next)
  {
    RunPasses(p, c, next, templates);
    RunKeeps(p, next, templates);
  }

  /** Every run of a history, one after another, up to the first that stops. */
  function Selected(p: Project, history: seq<Choice>, templates: Templates): Result<Project, RunError>
    decreases |history|
  {
    if history == [] then Success(p)
    else
      var r := Apply(p, history[0], templates);
      if r.Failure? then r else Selected(r.value, history[1..], templates)
  }

  lemma FirstSelected(p: Project, history: seq<Choice>, templates: Templates, next: Project)
    requires history != [] && Apply(p, history[0], templates) == Success(next)
    ensures Selected(p, history, templates) == Selected(next, history[1..], templates)
  {
  }

  lemma FirstSupported(from: Orm, before: Choice, history: seq<Choice>, templates: Templates)
    requires history != [] && AllSupported(from, history, templates)
    ensures Supported(from, history[0], templates) && AllSupported(history[0].orm, history[1..], templates)
    ensures LastChoice(before, history) == LastChoice(history[0], history[1..])
  {
  }

  /** Over every history of supported selections, of any length, no run stops, the project passes for the
      last selection, and it can be turned on. */
  lemma {:induction false} EveryHistoryPasses(p: Project, c: Choice, history: seq<Choice>, templates: Templates)
    requires Turnable(p, c) && AllSupported(c.orm, history, templates)
    ensures var r := Selected(p, history, templates); r.Success? && Turnable(r.value, LastChoice(c, history))
    decreases |history|
  {
    if history != [] {
      FirstSupported(c.orm, c, history, templates);
      TurnableStays(p, c, history[0], templates);
      var next := Apply(p, history[0], templates).value;
      FirstSelected(p, history, templates, next);
      EveryHistoryPasses(next, history[0], history[1..], templates);
    }
  }
}
