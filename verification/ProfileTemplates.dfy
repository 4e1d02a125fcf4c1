/** `profileFiles`: the files of an ORM profile, rendered from its templates, and which ORM the rendered RDB
    module activates. */
module ProfileTemplates {
  import opened EnvGenerator
  import opened Placeholders
  import opened Results
  import opened ScaffoldChecker
  import opened ScaffoldConsistency
  import opened Selection
  import opened Text

  // ----- what stands for the placeholders of the RDB modules -----

  function Setting(field: string, kind: string, key: string, fallback: string): string {
    "      " + field + ": config.get<" + kind + ">('" + key + "') ?? " + fallback + ",\n"
  }

  function Settings(port: string): string {
    Setting("database", "string", "DB_DATABASE", "'app'") + Setting("host", "string", "DB_HOST", "'localhost'")
    + Setting("password", "string", "DB_PASSWORD", "'app'") + Setting("port", "number", "DB_PORT", port)
    + Setting("user", "string", "DB_USERNAME", "'app'")
  }

  function PrismaKey(k: nat): string {
    if k == 0 then "__ADAPTER_CREATE__" else "__ADAPTER_IMPORT__"
  }

  function PrismaAdapter(d: Database): string {
    if d == Postgres then "PrismaPg" else "PrismaMariaDb"
  }

  function PrismaOptions(d: Database): string {
    if d == Postgres then
      "      connectionString:\n" + "        config.get<string>('" + "DATABASE_URL" + "') ??\n" + "        '"
        + HostUrl(d) + "',\n"
    else "      connectionLimit: 5,\n" + Settings("3306")
  }

  function PrismaValue(d: Database, k: nat): string {
    if k > 0 then "import { " + PrismaAdapter(d) + " } from '@prisma/adapter-"
      + (if d == Postgres then "pg" else "mariadb") + "';"
    else "const adapter = new " + PrismaAdapter(d) + "({\n" + PrismaOptions(d) + "    });"
  }

  function DrizzleKey(k: nat): string {
    match k
    case 0 => "__CLIENT_CREATE__"
    case 1 => "__CLIENT_FIELD__"
    case 2 => "__DB_TYPE__"
    case 3 => "__DESTROY__"
    case 4 => "__DRIVER_IMPORTS__"
    case 5 => "__DRIZZLE_CREATE__"
    case _ => "__PING__"
  }

  const DRIVER_IMPORTS: nat := 4

  function DrizzleValue(d: Database, k: nat): string {
    match k
    case 0 =>
      "this.client = " + (if d == Postgres then "new Pool" else "createPool") + "({\n" + Settings(Port(d)) + "    });"
    case 1 => "private readonly client: Pool;"
    case 2 => DrizzleType(d)
    case 3 => "await this.client.end();"
    case 4 => DriverImports(d)
    case 5 => "drizzle({ client: this.client })"
    case _ => "await this.client.query('SELECT 1');"
  }

  function DrizzleType(d: Database): string {
    if d == Postgres then "NodePgDatabase" else "MySql2Database"
  }

  function DriverPath(d: Database): string {
    if d == Postgres then "node-postgres" else "mysql2"
  }

  function PoolImport(d: Database): string {
    if d == Postgres then "Pool } from '" + "pg" else "createPool, type Pool } from '" + "mysql2/promise"
  }

  function DriverImports(d: Database): string {
    "import type { " + DrizzleType(d) + " } from 'drizzle-orm/" + DriverPath(d) + "';\n"
    + ("import { drizzle } " + "from 'drizzle-orm/" + DriverPath(d) + "';\n") + ("import { " + PoolImport(d) + "';")
  }

  /** The placeholders of a profile's RDB module, in the order in which they are replaced. */
  function ModuleKeys(orm: Orm): seq<string> {
    match orm
    case Prisma => seq(2, k requires k >= 0 => PrismaKey(k))
    case Drizzle => seq(7, k requires k >= 0 => DrizzleKey(k))
    case _ => []
  }

  function ModuleValues(orm: Orm, d: Database): seq<string> {
    match orm
    case Prisma => seq(2, k requires k >= 0 => PrismaValue(d, k))
    case Drizzle => seq(7, k requires k >= 0 => DrizzleValue(d, k))
    case _ => []
  }

  function ModuleTable(orm: Orm, d: Database): Table {
    Table(ModuleKeys(orm), ModuleValues(orm, d))
  }

  // ----- the keys are placeholders -----

  lemma PrismaKeys(k: nat)
    requires k < 2
    ensures IsKey(PrismaKey(k))
  {
  }

  lemma DrizzleKeys(k: nat)
    requires k < 7
    ensures IsKey(DrizzleKey(k))
  {
  }

  lemma KeysNonEmpty(orm: Orm)
    ensures forall k :: 0 <= k < |ModuleKeys(orm)| ==> ModuleKeys(orm)[k] != ""
  {
    assert forall k :: DrizzleKey(k) != "" && PrismaKey(k) != "";
  }

  // ----- the values are inert -----

  /** A text without `c` and without two underscores in a row, at neither end of which an underscore stands. */
  ghost predicate Quiet(s: string, c: char) {
    && s != "" && s[0] != '_' && s[|s| - 1] != '_'
    && forall i :: 0 <= i < |s| ==> s[i] != c && (s[i] == '_' && i + 1 < |s| ==> s[i + 1] != '_')
  }

  lemma QuietJoin(a: string, b: string, c: char)
    requires Quiet(a, c) && Quiet(b, c)
    ensures Quiet(a + b, c)
  {
  }

  lemma SettingParts(c: char)
    requires c == '/' || c == 'C'
    ensures Quiet("      ", c) && Quiet(": config.get<", c) && Quiet(">('", c) && Quiet("') ?? ", c) && Quiet(",\n", c)
  {
  }

  lemma SettingQuiet(field: string, kind: string, key: string, fallback: string, c: char)
    requires c == '/' || c == 'C'
    requires Quiet(field, c) && Quiet(kind, c) && Quiet(key, c) && Quiet(fallback, c)
    ensures Quiet(Setting(field, kind, key, fallback), c)
  {
    SettingParts(c);
    QuietJoin("      ", field, c);
    QuietJoin("      " + field, ": config.get<", c);
    QuietJoin("      " + field + ": config.get<", kind, c);
    QuietJoin("      " + field + ": config.get<" + kind, ">('", c);
    QuietJoin("      " + field + ": config.get<" + kind + ">('", key, c);
    QuietJoin("      " + field + ": config.get<" + kind + ">('" + key, "') ?? ", c);
    QuietJoin("      " + field + ": config.get<" + kind + ">('" + key + "') ?? ", fallback, c);
    QuietJoin("      " + field + ": config.get<" + kind + ">('" + key + "') ?? " + fallback, ",\n", c);
  }

  lemma FieldsQuiet(c: char)
    requires c == '/' || c == 'C'
    ensures Quiet("database", c) && Quiet("host", c) && Quiet("password", c) && Quiet("port", c) && Quiet("user", c)
    ensures Quiet("string", c) && Quiet("number", c) && Quiet("'app'", c) && Quiet("'localhost'", c)
  {
  }

  lemma NamesQuiet(c: char)
    requires c == '/' || c == 'C'
    ensures Quiet("DB_DATABASE", c) && Quiet("DB_HOST", c) && Quiet("DB_PASSWORD", c) && Quiet("DB_PORT", c)
    ensures Quiet("DB_USERNAME", c)
  {
  }

  lemma SettingsQuiet(port: string, c: char)
    requires (c == '/' || c == 'C') && Quiet(port, c)
    ensures Quiet(Settings(port), c)
  {
    FieldsQuiet(c);
    NamesQuiet(c);
    SettingQuiet("database", "string", "DB_DATABASE", "'app'", c);
    SettingQuiet("host", "string", "DB_HOST", "'localhost'", c);
    SettingQuiet("password", "string", "DB_PASSWORD", "'app'", c);
    SettingQuiet("port", "number", "DB_PORT", port, c);
    SettingQuiet("user", "string", "DB_USERNAME", "'app'", c);
    QuietFive(Setting("database", "string", "DB_DATABASE", "'app'"),
              Setting("host", "string", "DB_HOST", "'localhost'"),
              Setting("password", "string", "DB_PASSWORD", "'app'"), Setting("port", "number", "DB_PORT", port),
              Setting("user", "string", "DB_USERNAME", "'app'"), c);
  }

  lemma QuietFive(p: string, q: string, r: string, s: string, t: string, c: char)
    requires Quiet(p, c) && Quiet(q, c) && Quiet(r, c) && Quiet(s, c) && Quiet(t, c)
    ensures Quiet(p + q + r + s + t, c)
  {
    QuietJoin(p, q, c);
    QuietJoin(p + q, r, c);
    QuietJoin(p + q + r, s, c);
    QuietJoin(p + q + r + s, t, c);
  }

  lemma PortsQuiet(d: Database, c: char)
    requires c == '/' || c == 'C'
    ensures Quiet(Port(d), c)
  {
  }

  /** A quiet value that ends in a lower-case letter, a bracket or a semicolon is inert. */
  lemma QuietInert(v: string, c: char)
    requires Quiet(v, c) && !('A' <= v[|v| - 1] <= 'Z')
    ensures Inert(v)
  {
  }

  /** What the proofs need of a value: where it begins and ends, and that it lacks `c`. */
  ghost predicate Shape(v: string, c: char, first: char, last: char) {
    Quiet(v, c) && v[0] == first && v[|v| - 1] == last
  }

  lemma ShapeJoin(a: string, b: string, c: char, first: char, last: char)
    requires Quiet(a, c) && a[0] == first && Quiet(b, c) && b[|b| - 1] == last
    ensures Shape(a + b, c, first, last)
  {
    QuietJoin(a, b, c);
  }

  lemma PrismaFrameQuiet()
    ensures Quiet("const adapter = new ", 'C') && Quiet("({\n", 'C') && Quiet("    });", 'C')
    ensures Quiet("import { ", 'C') && Quiet(" } from '@prisma/adapter-", 'C') && Quiet("';", 'C')
  {
  }

  lemma PrismaNamesQuiet(d: Database)
    ensures Quiet(PrismaAdapter(d), 'C') && Quiet(if d == Postgres then "pg" else "mariadb", 'C')
  {
  }

  lemma HostUrlQuiet(d: Database)
    ensures Quiet(HostUrl(d), 'C')
  {
    var scheme := if d == Postgres then "postgresql" else "mysql";
    PortsQuiet(d, 'C');
    assert Quiet(scheme, 'C') && Quiet("://app:app@localhost:", 'C') && Quiet("/app", 'C');
    QuietJoin(scheme, "://app:app@localhost:", 'C');
    QuietJoin(scheme + "://app:app@localhost:", Port(d), 'C');
    QuietJoin(scheme + "://app:app@localhost:" + Port(d), "/app", 'C');
  }

  lemma PgOptionParts()
    ensures Quiet("      connectionString:\n", 'C') && Quiet("        config.get<string>('", 'C')
    ensures Quiet("DATABASE_URL", 'C')
    ensures Quiet("') ??\n", 'C') && Quiet("        '", 'C') && Quiet("',\n", 'C')
  {
  }

  lemma PrismaOptionsQuiet(d: Database)
    ensures Quiet(PrismaOptions(d), 'C')
  {
    if d == Postgres {
      PgOptionParts();
      HostUrlQuiet(d);
      var head := "      connectionString:\n" + "        config.get<string>('" + "DATABASE_URL" + "') ??\n"
          + "        '";
      QuietFive("      connectionString:\n", "        config.get<string>('", "DATABASE_URL", "') ??\n", "        '",
                'C');
      QuietJoin(head, HostUrl(d), 'C');
      QuietJoin(head + HostUrl(d), "',\n", 'C');
    } else {
      assert Quiet("      connectionLimit: 5,\n", 'C') && Quiet("3306", 'C');
      SettingsQuiet("3306", 'C');
      QuietJoin("      connectionLimit: 5,\n", Settings("3306"), 'C');
    }
  }

  lemma FiveEnds(p: string, q: string, r: string, s: string, t: string)
    requires p != "" && t != ""
    ensures var all := p + q + r + s + t; all[0] == p[0] && all[|all| - 1] == t[|t| - 1]
  {
  }

  lemma PrismaCreate(d: Database)
    ensures Shape(PrismaValue(d, 0), 'C', 'c', ';')
  {
    PrismaFrameQuiet();
    PrismaNamesQuiet(d);
    PrismaOptionsQuiet(d);
    QuietFive("const adapter = new ", PrismaAdapter(d), "({\n", PrismaOptions(d), "    });", 'C');
    FiveEnds("const adapter = new ", PrismaAdapter(d), "({\n", PrismaOptions(d), "    });");
  }

  lemma PrismaImport(d: Database)
    ensures Shape(PrismaValue(d, 1), 'C', 'i', ';') && |PrismaValue(d, 1)| > 2 && PrismaValue(d, 1)[1] == 'm'
  {
    PrismaFrameQuiet();
    PrismaNamesQuiet(d);
    var driver := if d == Postgres then "pg" else "mariadb";
    QuietFive("import { ", PrismaAdapter(d), " } from '@prisma/adapter-", driver, "';", 'C');
    FiveEnds("import { ", PrismaAdapter(d), " } from '@prisma/adapter-", driver, "';");
  }

  lemma PrismaShapes(d: Database, k: nat)
    requires k < 2
    ensures Shape(PrismaValue(d, k), 'C', if k == 0 then 'c' else 'i', ';')
  {
    if k == 1 {
      PrismaImport(d);
    } else {
      PrismaCreate(d);
    }
  }

  lemma DrizzleClientParts(d: Database)
    ensures Quiet("this.client = ", '/') && Quiet(if d == Postgres then "new Pool" else "createPool", '/')
    ensures Quiet("({\n", '/') && Quiet("    });", '/')
  {
  }

  lemma DrizzleClient(d: Database)
    ensures Shape(DrizzleValue(d, 0), '/', 't', ';')
  {
    var pool := if d == Postgres then "new Pool" else "createPool";
    DrizzleClientParts(d);
    PortsQuiet(d, '/');
    SettingsQuiet(Port(d), '/');
    QuietFive("this.client = ", pool, "({\n", Settings(Port(d)), "    });", '/');
    FiveEnds("this.client = ", pool, "({\n", Settings(Port(d)), "    });");
  }

  /** The end of a short value. */
  function ShortEnd(k: nat): char {
    if k == 2 then 'e' else if k == 5 then ')' else ';'
  }

  ghost predicate Short(v: string, end: char) {
    Quiet(v, '/') && v[|v| - 1] == end
  }

  lemma DrizzleField(d: Database)
    ensures Short(DrizzleValue(d, 1), ';')
  {
  }

  lemma DrizzleTypeShort(d: Database)
    ensures Short(DrizzleValue(d, 2), 'e')
  {
  }

  lemma DrizzleDestroy(d: Database)
    ensures Short(DrizzleValue(d, 3), ';')
  {
  }

  lemma DrizzleCreate(d: Database)
    ensures Short(DrizzleValue(d, 5), ')')
  {
  }

  lemma DrizzlePing(d: Database)
    ensures Short(DrizzleValue(d, 6), ';')
  {
  }

  lemma DrizzleShort(d: Database, k: nat)
    requires k < 7 && k != 0 && k != DRIVER_IMPORTS
    ensures Short(DrizzleValue(d, k), ShortEnd(k))
  {
    match k {
      case 1 => DrizzleField(d);
      case 2 => DrizzleTypeShort(d);
      case 3 => DrizzleDestroy(d);
      case 5 => DrizzleCreate(d);
      case _ => DrizzlePing(d);
    }
  }

  /** Characters that the driver's imports lack. */
  predicate Unused(c: char) {
    c == '#' || c == 'C' || c == 'R'
  }

  lemma ImportFrameQuiet(c: char)
    requires Unused(c)
    ensures Quiet("import type { ", c) && Quiet(" } from 'drizzle-orm/", c) && Quiet("';\n", c)
    ensures Quiet("import { drizzle } ", c) && Quiet("from 'drizzle-orm/", c) && Quiet("import { ", c) && Quiet("';", c)
  {
  }

  lemma DriverNamesQuiet(d: Database, c: char)
    requires Unused(c)
    ensures Quiet(DrizzleType(d), c) && Quiet(DriverPath(d), c)
  {
  }

  lemma PoolImportQuiet(d: Database, c: char)
    requires Unused(c)
    ensures Quiet(PoolImport(d), c)
  {
    assert Quiet("Pool } from '", c) && Quiet("createPool, type Pool } from '", c) && Quiet("mysql2/promise", c)
           && Quiet("pg", c);
    QuietJoin("createPool, type Pool } from '", "mysql2/promise", c);
    QuietJoin("Pool } from '", "pg", c);
  }

  lemma QuietFour(p: string, q: string, r: string, s: string, c: char)
    requires Quiet(p, c) && Quiet(q, c) && Quiet(r, c) && Quiet(s, c)
    ensures Quiet(p + q + r + s, c)
  {
    QuietJoin(p, q, c);
    QuietJoin(p + q, r, c);
    QuietJoin(p + q + r, s, c);
  }

  lemma DrizzleImports(d: Database, c: char)
    requires Unused(c)
    ensures Shape(DriverImports(d), c, 'i', ';')
  {
    ImportFrameQuiet(c);
    DriverNamesQuiet(d, c);
    PoolImportQuiet(d, c);
    var first := "import type { " + DrizzleType(d) + " } from 'drizzle-orm/" + DriverPath(d) + "';\n";
    var second := "import { drizzle } " + "from 'drizzle-orm/" + DriverPath(d) + "';\n";
    var third := "import { " + PoolImport(d) + "';";
    QuietFive("import type { ", DrizzleType(d), " } from 'drizzle-orm/", DriverPath(d), "';\n", c);
    FiveEnds("import type { ", DrizzleType(d), " } from 'drizzle-orm/", DriverPath(d), "';\n");
    QuietFour("import { drizzle } ", "from 'drizzle-orm/", DriverPath(d), "';\n", c);
    QuietJoin("import { ", PoolImport(d), c);
    ShapeJoin("import { " + PoolImport(d), "';", c, 'i', ';');
    QuietJoin(first, second, c);
    ShapeJoin(first + second, third, c, 'i', ';');
  }

  lemma DrizzleEnds(d: Database, k: nat)
    requires k < 7
    ensures var v := DrizzleValue(d, k); Quiet(v, if k == DRIVER_IMPORTS then '#' else '/') && v[|v| - 1] == ShortEnd(k)
  {
    if k == 0 {
      DrizzleClient(d);
    } else if k == DRIVER_IMPORTS {
      DrizzleImports(d, '#');
    } else {
      DrizzleShort(d, k);
    }
  }

  lemma DrizzleInert(d: Database, k: nat)
    requires k < 7
    ensures Inert(DrizzleValue(d, k))
  {
    DrizzleEnds(d, k);
    QuietInert(DrizzleValue(d, k), if k == DRIVER_IMPORTS then '#' else '/');
  }

  lemma TableIsProper(orm: Orm, d: Database)
    ensures Proper(ModuleTable(orm, d))
  {
    forall k | 0 <= k < 7 ensures IsKey(DrizzleKey(k)) && Inert(DrizzleValue(d, k)) {
      DrizzleKeys(k);
      DrizzleInert(d, k);
    }
    forall k | 0 <= k < 2 ensures IsKey(PrismaKey(k)) && Inert(PrismaValue(d, k)) {
      PrismaKeys(k);
      PrismaShapes(d, k);
      QuietInert(PrismaValue(d, k), 'C');
    }
  }

  // ----- no marker goes on behind a value -----

  /** No bracket, semicolon or D, and no "se". */
  ghost predicate Bare(p: string) {
    forall i :: 0 <= i < |p| ==> p[i] != ';' && p[i] != ')' && p[i] != 'D' && (p[i] == 'e' ==> i > 0 && p[i - 1] != 's')
  }

  lemma ClientBare()
    ensures Bare("PrismaClient") && Bare("from 'drizzle-orm/")
  {
  }

  lemma MikroBare()
    ensures Bare("MikroOrmModule.forRoot")
  {
  }

  lemma TypeormBare()
    ensures Bare("TypeOrmModule.forRootAsync")
  {
  }

  lemma MarkersBare(o: Orm)
    ensures Bare(Marker(o))
  {
    ClientBare();
    MikroBare();
    TypeormBare();
  }

  lemma TypeEnds(d: Database)
    ensures var v := DrizzleType(d); |v| > 8 && v[|v| - 1] == 'e' && v[|v| - 2] == 's' && 'D' in v
  {
    var v := DrizzleType(d);
    assert v[if d == Postgres then 6 else 6] == 'D';
  }

  lemma SuffixEnds(v: string, p: string, j: nat)
    requires 0 < j <= |p|
    ensures EndsWith(v, p[..j]) ==> j <= |v| && p[j - 1] == v[|v| - 1] && (j > 1 ==> p[j - 2] == v[|v| - 2])
  {
    SuffixChars(v, p, j);
  }

  lemma TypeSealed(d: Database, o: Orm)
    ensures Sealed(DrizzleType(d), Marker(o))
  {
    TypeEnds(d);
    MarkersBare(o);
    SeSealed(DrizzleType(d), Marker(o));
  }

  lemma CharIncluded(s: string, p: string, k: nat)
    requires k < |p|
    ensures Includes(s, p) ==> p[k] in s
  {
    if Includes(s, p) {
      IncludesChars(s, p, k);
    }
  }

  lemma SeSealed(v: string, p: string)
    requires Bare(p) && |v| > 1 && v[|v| - 1] == 'e' && v[|v| - 2] == 's' && 'D' in v
    ensures Sealed(v, p)
  {
    forall j | 0 < j < |p| ensures !EndsWith(v, p[..j]) {
      SuffixEnds(v, p, j);
      var i := j - 1;
      assert p[i] == 'e' ==> i > 0 && p[i - 1] != 's';
    }
    var k: nat :| k < |v| && v[k] == 'D';
    CharIncluded(p, v, k);
  }

  lemma EndSealed(v: string, o: Orm)
    requires v != "" && (v[|v| - 1] == ';' || v[|v| - 1] == ')')
    ensures Sealed(v, Marker(o))
  {
    MarkersBare(o);
    SealedByLast(v, Marker(o));
  }

  lemma DrizzleSealed(d: Database, k: nat, o: Orm)
    requires k < 7
    ensures Sealed(DrizzleValue(d, k), Marker(o))
  {
    if k == 2 {
      TypeSealed(d, o);
    } else {
      DrizzleEnds(d, k);
      EndSealed(DrizzleValue(d, k), o);
    }
  }

  lemma ValuesSealed(orm: Orm, d: Database, o: Orm)
    ensures forall k :: 0 <= k < |ModuleValues(orm, d)| ==> Sealed(ModuleValues(orm, d)[k], Marker(o))
  {
    forall k | 0 <= k < 7 ensures Sealed(DrizzleValue(d, k), Marker(o)) {
      DrizzleSealed(d, k, o);
    }
    forall k | 0 <= k < 2 ensures Sealed(PrismaValue(d, k), Marker(o)) {
      PrismaShapes(d, k);
      EndSealed(PrismaValue(d, k), o);
    }
  }

  // ----- which ORM the rendered module activates -----

  function ModuleOf(orm: Orm, d: Database, template: string): string {
    KeysNonEmpty(orm);
    Replaced(template, ModuleTable(orm, d), |ModuleKeys(orm)|)
  }

  /** The literals and holes of an RDB module template: they do not depend on the database. */
  function Pieces(orm: Orm, template: string): Template {
    KeysNonEmpty(orm);
    Parsed(template, ModuleKeys(orm), |ModuleKeys(orm)|)
  }

  lemma PiecesFit(orm: Orm, template: string)
    ensures forall d: Database :: |ModuleKeys(orm)| == |ModuleValues(orm, d)|
    ensures Fits(Pieces(orm, template), |ModuleKeys(orm)|)
  {
    KeysNonEmpty(orm);
    ParsedFits(template, ModuleKeys(orm), |ModuleKeys(orm)|, ModuleKeys(orm));
  }

  /** The template carries a marker: in a literal, in the value of one of its holes, or in the end of a literal
      and the beginning of the value behind it. */
  predicate CarriesMarker(orm: Orm, d: Database, template: string, o: Orm) {
    PiecesFit(orm, template);
    Carries(Pieces(orm, template), ModuleValues(orm, d), Marker(o))
  }

  /** The rendered module mentions a marker exactly when the template carries it. */
  lemma ModuleMentions(orm: Orm, d: Database, template: string, o: Orm)
    ensures Includes(ModuleOf(orm, d, template), Marker(o)) <==> CarriesMarker(orm, d, template, o)
  {
    PiecesFit(orm, template);
    TableIsProper(orm, d);
    ValuesSealed(orm, d, o);
    ReplacedIsFilled(template, ModuleTable(orm, d), |ModuleKeys(orm)|);
    FillIncludes(Pieces(orm, template), ModuleValues(orm, d), Marker(o));
  }

  /** A template that carries the marker of its own ORM and of no other. */
  ghost predicate TemplateAgrees(orm: Orm, d: Database, template: string) {
    forall o: Orm :: CarriesMarker(orm, d, template, o) <==> o == orm
  }

  lemma RenderedModuleAgrees(orm: Orm, d: Database, template: string)
    ensures ModuleAgrees(orm, ModuleOf(orm, d, template)) <==> TemplateAgrees(orm, d, template)
  {
    forall o: Orm ensures Includes(ModuleOf(orm, d, template), Marker(o)) <==> CarriesMarker(orm, d, template, o) {
      ModuleMentions(orm, d, template, o);
    }
  }

  // ----- the own marker of a profile -----

  /** The end of `p` from `j` on begins `v`. */
  ghost predicate Resumes(v: string, p: string, j: nat) {
    j <= |p| && |p| - j <= |v| && forall k :: j <= k < |p| ==> v[k - j] == p[k]
  }

  lemma StraddlesChars(x: string, v: string, p: string)
    ensures Straddles(x, v, p) ==> exists j: nat :: 0 < j < |p| && Resumes(v, p, j)
  {
    if Straddles(x, v, p) {
      var j :| 0 < j < |p| && EndsWith(x, p[..j]) && StartsWith(v, p[j..]);
      PrefixChars(v, p, j);
      assert Resumes(v, p, j);
    }
  }

  /** A value without the last character of `p` neither holds `p` nor ends an occurrence of it. */
  lemma LacksLast(x: string, v: string, p: string)
    requires p != "" && p[|p| - 1] !in v
    ensures !Includes(v, p) && !Straddles(x, v, p)
  {
    LastIncluded(v, p);
    StraddlesChars(x, v, p);
  }

  lemma DrizzleLacksMarker(x: string, d: Database, k: nat)
    requires k < 7 && k != DRIVER_IMPORTS
    ensures !Includes(DrizzleValue(d, k), Marker(Drizzle)) && !Straddles(x, DrizzleValue(d, k), Marker(Drizzle))
  {
    DrizzleEnds(d, k);
    DrizzleMarkerEnd();
    LacksLast(x, DrizzleValue(d, k), Marker(Drizzle));
  }

  lemma DrizzleMarkerEnd()
    ensures var p := Marker(Drizzle); p != "" && p[|p| - 1] == '/'
  {
  }

  lemma ImportsHaveMarker(d: Database)
    ensures Includes(DriverImports(d), Marker(Drizzle))
  {
    var first := "import type { " + DrizzleType(d) + " } from 'drizzle-orm/" + DriverPath(d) + "';\n";
    var m, end := Marker(Drizzle), DriverPath(d) + "';\n" + ("import { " + PoolImport(d) + "';");
    Regrouped(first, "import { drizzle } ", m, DriverPath(d), "';\n", "import { " + PoolImport(d) + "';");
    IncludesAt(DriverImports(d), first + "import { drizzle } ", m, end);
  }

  lemma Regrouped(a: string, b: string, c: string, d: string, e: string, f: string)
    ensures a + (b + c + d + e) + f == (a + b) + c + (d + e + f)
  {
  }

  lemma {:induction false} DrizzleCarries(t: Template, d: Database, values: seq<string>)
    requires values == ModuleValues(Drizzle, d) && Fits(t, 7)
    ensures Carries(t, values, Marker(Drizzle)) <==> InLiteral(t, Marker(Drizzle)) || HasHole(t, DRIVER_IMPORTS)
  {
    if t.Hole? {
      DrizzleCarries(t.rest, d, values);
      ImportsHaveMarker(d);
      if t.place != DRIVER_IMPORTS {
        DrizzleLacksMarker(t.text, d, t.place);
      }
    }
  }

  /** Drizzle's module activates Drizzle exactly when the template says so in a literal or asks for the driver's
      imports. */
  lemma DrizzleMarkerIff(d: Database, template: string)
    ensures Includes(ModuleOf(Drizzle, d, template), Marker(Drizzle)) <==>
              (InLiteral(Pieces(Drizzle, template), Marker(Drizzle))
               || HasHole(Pieces(Drizzle, template), DRIVER_IMPORTS))
  {
    ModuleMentions(Drizzle, d, template, Drizzle);
    PiecesFit(Drizzle, template);
    DrizzleCarries(Pieces(Drizzle, template), d, ModuleValues(Drizzle, d));
  }

  lemma PrismaMarkerStarts(j: nat)
    requires 0 < j < |Marker(Prisma)|
    ensures Marker(Prisma)[j] != 'c'
    ensures (Marker(Prisma)[j] == 'i' ==> j + 1 < |Marker(Prisma)| && Marker(Prisma)[j + 1] != 'm')
  {
  }

  lemma PrismaMarkerHasC()
    ensures |Marker(Prisma)| == 12 && Marker(Prisma)[6] == 'C'
  {
  }

  lemma NotInQuiet(x: string, v: string)
    requires Quiet(v, 'C') && (v[0] == 'c' || (v[0] == 'i' && |v| > 1 && v[1] == 'm'))
    ensures !Includes(v, Marker(Prisma)) && !Straddles(x, v, Marker(Prisma))
  {
    var p := Marker(Prisma);
    PrismaMarkerHasC();
    if Includes(v, p) {
      IncludesChars(v, p, 6);
    }
    StraddlesChars(x, v, p);
    if Straddles(x, v, p) {
      var j: nat :| 0 < j < |p| && Resumes(v, p, j);
      PrismaMarkerStarts(j);
    }
  }

  lemma PrismaLacksMarker(x: string, d: Database, k: nat)
    requires k < 2
    ensures !Includes(PrismaValue(d, k), Marker(Prisma)) && !Straddles(x, PrismaValue(d, k), Marker(Prisma))
  {
    PrismaShapes(d, k);
    PrismaImport(d);
    NotInQuiet(x, PrismaValue(d, k));
  }

  lemma {:induction false} PrismaCarries(t: Template, d: Database, values: seq<string>)
    requires values == ModuleValues(Prisma, d) && Fits(t, 2)
    ensures Carries(t, values, Marker(Prisma)) <==> InLiteral(t, Marker(Prisma))
  {
    if t.Hole? {
      PrismaCarries(t.rest, d, values);
      PrismaLacksMarker(t.text, d, t.place);
    }
  }

  /** Prisma's module activates Prisma exactly when a literal of the template does: no value helps. */
  lemma PrismaMarkerIff(d: Database, template: string)
    ensures Includes(ModuleOf(Prisma, d, template), Marker(Prisma))
       <==> InLiteral(Pieces(Prisma, template), Marker(Prisma))
  {
    ModuleMentions(Prisma, d, template, Prisma);
    PiecesFit(Prisma, template);
    PrismaCarries(Pieces(Prisma, template), d, ModuleValues(Prisma, d));
  }

  /** MikroORM's template is used as it is. */
  lemma MikroormVerbatim(d: Database, template: string)
    ensures ModuleOf(Mikroorm, d, template) == template
    ensures forall o: Orm :: CarriesMarker(Mikroorm, d, template, o) <==> Includes(template, Marker(o))
  {
  }

  // ----- the files of a profile -----

  /** The template files by path. */
  type Templates = map<string, string>

  const MODULE_FILE := "src/infra/rdb/rdb-database.module.ts"

  /** The templates of a profile, in the order in which they are read. */
  function TemplatePaths(orm: Orm): seq<string> {
    match orm
    case Typeorm => []
    case Prisma =>
      ["prisma/prisma.config.ts.template", "prisma/schema.prisma.template", "prisma/rdb-database.module.ts.template"]
    case Mikroorm => ["mikroorm/mikro-orm.config.ts.template", "mikroorm/rdb-database.module.ts.template"]
    case Drizzle =>
      ["drizzle/drizzle.config.ts.template", "drizzle/rdb-database.module.ts.template", "drizzle/schema.ts.template"]
  }

  function ModulePlace(orm: Orm): (i: nat)
    ensures orm != Typeorm ==> i < |TemplatePaths(orm)|
  {
    if orm == Prisma then 2 else 1
  }

  function Scheme(d: Database): string {
    if d == Postgres then "postgresql" else "mysql"
  }

  function MikroormConfig(d: Database): Table {
    Table(["__DB_PORT__", "__MIKRO_DRIVER_PACKAGE__"],
          [Port(d), "@mikro-orm/" + if d == Postgres then "postgresql" else d.Name()])
  }

  function DrizzleConfig(d: Database): Table {
    Table(["__DATABASE_URL__", "__DRIZZLE_DIALECT__"], [HostUrl(d), Scheme(d)])
  }

  function PrismaFiles(d: Database, texts: seq<string>): map<string, string>
    requires |texts| == 3
  {
    map["prisma.config.ts" := ReplaceFirst(texts[0], "__DATABASE_URL__", HostUrl(d)),
        "prisma/schema.prisma" := ReplaceFirst(texts[1], "__PRISMA_PROVIDER__", Scheme(d)),
        MODULE_FILE := ModuleOf(Prisma, d, texts[2])]
  }

  function MikroormFiles(d: Database, texts: seq<string>): map<string, string>
    requires |texts| == 2
  {
    map["src/infra/rdb/mikro-orm.config.ts" := Replaced(texts[0], MikroormConfig(d), 2),
        MODULE_FILE := ModuleOf(Mikroorm, d, texts[1])]
  }

  function DrizzleFiles(d: Database, texts: seq<string>): map<string, string>
    requires |texts| == 3
  {
    map["drizzle.config.ts" := Replaced(texts[0], DrizzleConfig(d), 2),
        MODULE_FILE := ModuleOf(Drizzle, d, texts[1]),
        "src/infra/rdb/schema.ts" := texts[2]]
  }

  /** The rendered files by path, from the texts of the templates in reading order. */
  function Rendered(c: Choice, texts: seq<string>): map<string, string>
    requires |texts| == |TemplatePaths(c.orm)|
  {
    match c.orm
    case Typeorm => map[]
    case Prisma => PrismaFiles(c.database, texts)
    case Mikroorm => MikroormFiles(c.database, texts)
    case Drizzle => DrizzleFiles(c.database, texts)
  }

  /** The texts at the paths, or the first path at which there is none. */
  function ReadAll(paths: seq<string>, templates: Templates): (r: Result<seq<string>, string>)
    ensures r.Success? ==> |r.value| == |paths| && forall i :: 0 <= i < |paths| ==>
              paths[i] in templates && r.value[i] == templates[paths[i]]
    ensures r.Failure? ==> r.error in paths && r.error !in templates
  {
    if paths == [] then Success([])
    else if paths[0] !in templates then Failure(paths[0])
    else
      var rest := ReadAll(paths[1..], templates);
      if rest.Failure? then rest else Success([templates[paths[0]]] + rest.value)
  }

  function Profile(c: Choice, templates: Templates): Result<map<string, string>, string> {
    var texts := ReadAll(TemplatePaths(c.orm), templates);
    if texts.Failure? then Failure(texts.error) else Success(Rendered(c, texts.value))
  }

  /** The text from which the RDB module of a profile is rendered. */
  function ModuleTemplate(orm: Orm, templates: Templates): string {
    var paths := TemplatePaths(orm);
    if orm != Typeorm && paths[ModulePlace(orm)] in templates then templates[paths[ModulePlace(orm)]] else ""
  }

  predicate TemplatesThere(orm: Orm, templates: Templates) {
    forall path :: path in TemplatePaths(orm) ==> path in templates
  }

  lemma ProfileIff(c: Choice, templates: Templates)
    ensures Profile(c, templates).Success? <==> TemplatesThere(c.orm, templates)
  {
    var paths := TemplatePaths(c.orm);
    var r := ReadAll(paths, templates);
    if r.Success? {
      forall path | path in paths ensures path in templates {
        var i :| 0 <= i < |paths| && paths[i] == path;
      }
    }
  }

  lemma PathsDiffer()
    ensures "src/infra/rdb/schema.ts" != MODULE_FILE && "src/infra/rdb/mikro-orm.config.ts" != MODULE_FILE
    ensures "prisma.config.ts" != MODULE_FILE && "prisma/schema.prisma" != MODULE_FILE
    ensures "drizzle.config.ts" != MODULE_FILE
  {
    assert |MODULE_FILE| == 36 && |"src/infra/rdb/schema.ts"| == 23 && |"src/infra/rdb/mikro-orm.config.ts"| == 33;
    assert |"prisma.config.ts"| == 16 && |"prisma/schema.prisma"| == 20 && |"drizzle.config.ts"| == 17;
  }

  /** The module among the rendered files. */
  lemma RenderedModule(c: Choice, texts: seq<string>)
    requires |texts| == |TemplatePaths(c.orm)| && c.orm != Typeorm
    ensures var r := Rendered(c, texts);
            MODULE_FILE in r && r[MODULE_FILE] == ModuleOf(c.orm, c.database, texts[ModulePlace(c.orm)])
  {
    PathsDiffer();
  }

  /** Whether the rendered profile activates its own ORM only is decided by the module template. */
  lemma ProfileModuleAgrees(c: Choice, templates: Templates)
    requires c.orm != Typeorm && Profile(c, templates).Success?
    ensures var r := Profile(c, templates).value;
            && MODULE_FILE in r
            && (ModuleAgrees(c.orm, r[MODULE_FILE])
                <==> TemplateAgrees(c.orm, c.database, ModuleTemplate(c.orm, templates)))
  {
    var paths := TemplatePaths(c.orm);
    var texts := ReadAll(paths, templates).value;
    assert texts[ModulePlace(c.orm)] == templates[paths[ModulePlace(c.orm)]];
    RenderedModule(c, texts);
    RenderedModuleAgrees(c.orm, c.database, ModuleTemplate(c.orm, templates));
  }

  /** Texts already read, in front of what the rest of the reading gives. */
  function Continue(texts: seq<string>, rest: Result<seq<string>, string>): Result<seq<string>, string> {
    if rest.Failure? then rest else Success(texts + rest.value)
  }

  lemma ContinueEnds(rest: Result<seq<string>, string>)
    ensures Continue([], rest) == rest
  {
    if rest.Success? {
      assert [] + rest.value == rest.value;
    }
  }

  lemma ContinueOne(texts: seq<string>, text: string, rest: Result<seq<string>, string>)
    ensures Continue(texts, Continue([text], rest)) == Continue(texts + [text], rest)
  {
    if rest.Success? {
      assert texts + ([text] + rest.value) == texts + [text] + rest.value;
    }
  }

  // ----- the script's own functions -----

  /** `template` */
  method ReadTemplate(templates: Templates, path: string) returns (text: Result<string, string>)
    ensures text == if path in templates then Success(templates[path]) else Failure(path)
  {
    if path !in templates {
      return Failure(path);
    }
    return Success(templates[path]);
  }

  /** `renderPrismaModule`, `renderDrizzleModule`, and MikroORM's module as it is. */
  method RenderModule(orm: Orm, d: Database, template: string) returns (rendered: string)
    ensures rendered == ModuleOf(orm, d, template)
  {
    KeysNonEmpty(orm);
    PiecesFit(orm, template);
    rendered := ReplaceEach(template, ModuleTable(orm, d));
  }

  method ReadTemplates(paths: seq<string>, templates: Templates) returns (r: Result<seq<string>, string>)
    ensures r == ReadAll(paths, templates)
  {
    var texts := [];
    ContinueEnds(ReadAll(paths, templates));
    assert paths[0..] == paths;
    for i := 0 to |paths|
      invariant ReadAll(paths, templates) == Continue(texts, ReadAll(paths[i..], templates))
    {
      var text := ReadTemplate(templates, paths[i]);
      assert paths[i..][0] == paths[i] && paths[i..][1..] == paths[i + 1..];
      if text.Failure? {
        return Failure(text.error);
      }
      ContinueOne(texts, text.value, ReadAll(paths[i + 1..], templates));
      texts := texts + [text.value];
    }
    assert paths[|paths|..] == [];
    assert texts + [] == texts;
    return Success(texts);
  }

  method RenderPrisma(d: Database, texts: seq<string>) returns (files: map<string, string>)
    requires |texts| == 3
    ensures files == PrismaFiles(d, texts)
  {
    var rendered := RenderModule(Prisma, d, texts[2]);
    files := map["prisma.config.ts" := ReplaceFirst(texts[0], "__DATABASE_URL__", HostUrl(d)),
                 "prisma/schema.prisma" := ReplaceFirst(texts[1], "__PRISMA_PROVIDER__", Scheme(d)),
                 MODULE_FILE := rendered];
  }

  method RenderMikroorm(d: Database, texts: seq<string>) returns (files: map<string, string>)
    requires |texts| == 2
    ensures files == MikroormFiles(d, texts)
  {
    var config := ReplaceEach(texts[0], MikroormConfig(d));
    var rendered := RenderModule(Mikroorm, d, texts[1]);
    files := map["src/infra/rdb/mikro-orm.config.ts" := config, MODULE_FILE := rendered];
  }

  method RenderDrizzle(d: Database, texts: seq<string>) returns (files: map<string, string>)
    requires |texts| == 3
    ensures files == DrizzleFiles(d, texts)
  {
    var config := ReplaceEach(texts[0], DrizzleConfig(d));
    var rendered := RenderModule(Drizzle, d, texts[1]);
    files := map["drizzle.config.ts" := config, MODULE_FILE := rendered, "src/infra/rdb/schema.ts" := texts[2]];
  }

  /** `profileFiles` */
  method ProfileFiles(c: Choice, templates: Templates) returns (files: Result<map<string, string>, string>)
    ensures files == Profile(c, templates)
  {
    var texts := ReadTemplates(TemplatePaths(c.orm), templates);
    if texts.Failure? {
      return Failure(texts.error);
    }
    var rendered: map<string, string> := map[];
    match c.orm {
      case Typeorm =>
      case Prisma => rendered := RenderPrisma(c.database, texts.value);
      case Mikroorm => rendered := RenderMikroorm(c.database, texts.value);
      case Drizzle => rendered := RenderDrizzle(c.database, texts.value);
    }
    return Success(rendered);
  }
}
