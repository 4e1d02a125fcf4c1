/** What the files of an ORM profile hold: which template becomes which file, and what stands in its holes. */
module ProfileContents {
  import opened EnvGenerator
  import opened Placeholders
  import opened ProfileTemplates
  import opened Results
  import opened Selection
  import opened Text

  // ----- the values, word by word -----

  /** The address of the database for a process on the host. */
  function AddressOf(d: Database): string {
    if d == Postgres then "postgresql://app:app@" + "localhost:5432/app" else "mysql://app:app@" + "localhost:3306/app"
  }

  function DialectOf(d: Database): string {
    match d
    case Postgres => "postgresql"
    case Mysql | Mariadb => "mysql"
  }

  function DriverPackageOf(d: Database): string {
    match d
    case Postgres => "@mikro-orm/postgresql"
    case Mysql => "@mikro-orm/mysql"
    case Mariadb => "@mikro-orm/mariadb"
  }

  function PortOf(d: Database): string {
    match d
    case Postgres => "5432"
    case Mysql | Mariadb => "3306"
  }

  lemma AddressIs(d: Database)
    ensures HostUrl(d) == AddressOf(d)
  {
    PostgresAddress();
    MysqlAddress();
  }

  lemma PostgresAddress()
    ensures "postgresql" + "://app:app@localhost:" + "5432" + "/app" == "postgresql://app:app@" + "localhost:5432/app"
  {
    assert "postgresql" + "://app:app@" == "postgresql://app:app@"
           && "localhost:" + "5432" + "/app" == "localhost:5432/app";
    assert "://app:app@localhost:" == "://app:app@" + "localhost:";
    Regroup("postgresql", "://app:app@", "localhost:", "5432", "/app");
  }

  lemma MysqlAddress()
    ensures "mysql" + "://app:app@localhost:" + "3306" + "/app" == "mysql://app:app@" + "localhost:3306/app"
  {
    assert "mysql" + "://app:app@" == "mysql://app:app@" && "localhost:" + "3306" + "/app" == "localhost:3306/app";
    assert "://app:app@localhost:" == "://app:app@" + "localhost:";
    Regroup("mysql", "://app:app@", "localhost:", "3306", "/app");
  }

  lemma Regroup(a: string, b: string, c: string, d: string, e: string)
    ensures a + (b + c) + d + e == (a + b) + (c + d + e)
  {
  }

  lemma SmallValues(d: Database)
    ensures Scheme(d) == DialectOf(d) && Port(d) == PortOf(d)
  {
  }

  lemma DriverPackageIs(d: Database)
    ensures "@mikro-orm/" + (if d == Postgres then "postgresql" else d.Name()) == DriverPackageOf(d)
  {
  }

  lemma MikroValues(d: Database)
    ensures MikroormConfig(d).values == [PortOf(d), DriverPackageOf(d)]
  {
    SmallValues(d);
    DriverPackageIs(d);
  }

  lemma DrizzleValues(d: Database)
    ensures DrizzleConfig(d).values == [AddressOf(d), DialectOf(d)]
  {
    SmallValues(d);
    AddressIs(d);
  }

  // ----- the configuration tables are proper -----

  lemma ConfigKeys()
    ensures IsKey("__DB_PORT__") && IsKey("__MIKRO_DRIVER_PACKAGE__") && IsKey("__DATABASE_URL__")
    ensures IsKey("__DRIZZLE_DIALECT__")
  {
  }

  lemma LetterInert(v: string, i: nat)
    requires i < |v| && v[i] != '_' && !('A' <= v[i] <= 'Z') && NoDouble(v)
    requires v[0] != '_' && v[|v| - 1] != '_'
    ensures Inert(v)
  {
  }

  lemma ShortInert(d: Database)
    ensures Inert(PortOf(d)) && Inert(DialectOf(d))
  {
    LetterInert(PortOf(d), 0);
    LetterInert(DialectOf(d), 0);
  }

  lemma DriverInert(d: Database)
    ensures Inert(DriverPackageOf(d))
  {
    LetterInert(DriverPackageOf(d), 0);
  }

  lemma AddressInert(d: Database)
    ensures Inert(AddressOf(d))
  {
    AddressIs(d);
    HostUrlQuiet(d);
    assert AddressOf(d)[|AddressOf(d)| - 1] == 'p';
    QuietInert(AddressOf(d), 'C');
  }

  lemma MikroProper(d: Database)
    ensures Proper(Table(["__DB_PORT__", "__MIKRO_DRIVER_PACKAGE__"], [PortOf(d), DriverPackageOf(d)]))
  {
    ConfigKeys();
    ShortInert(d);
    DriverInert(d);
  }

  lemma DrizzleProper(d: Database)
    ensures Proper(Table(["__DATABASE_URL__", "__DRIZZLE_DIALECT__"], [AddressOf(d), DialectOf(d)]))
  {
    ConfigKeys();
    ShortInert(d);
    AddressInert(d);
  }

  // ----- a template with its holes filled -----

  /** `file` is `template` cut at the placeholders, each hole filled with its own value; no placeholder is left. */
  ghost predicate FilledWith(template: string, keys: seq<string>, values: seq<string>, file: string) {
    && |keys| == |values| && (forall k :: 0 <= k < |keys| ==> keys[k] != "")
    && Fits(Parsed(template, keys, |keys|), |keys|)
    && Fill(Parsed(template, keys, |keys|), keys) == template
    && Fill(Parsed(template, keys, |keys|), values) == file
    && forall k :: 0 <= k < |keys| ==> !Includes(file, keys[k])
  }

  lemma ReplacedFills(template: string, t: Table)
    requires Proper(t)
    ensures FilledWith(template, t.keys, t.values, Replaced(template, t, |t.keys|))
  {
    ReplacedIsFilled(template, t, |t.keys|);
    ParsedUndone(template, t.keys, |t.keys|);
    forall k | 0 <= k < |t.keys| ensures !Includes(Replaced(template, t, |t.keys|), t.keys[k]) {
      NothingLeft(template, t, k);
    }
  }

  // ----- the files -----

  const RDB_MODULE := "src/infra/rdb/rdb-database.module.ts"

  /** Prisma's configuration and schema are their templates with the first placeholder replaced; the module is its
      template with two holes. */
  lemma PrismaProfile(d: Database, templates: Templates)
    requires Profile(Choice(d, Prisma), templates).Success?
    ensures "prisma/prisma.config.ts.template" in templates && "prisma/schema.prisma.template" in templates
    ensures "prisma/rdb-database.module.ts.template" in templates
    ensures var r := Profile(Choice(d, Prisma), templates).value;
            && r.Keys == {"prisma.config.ts", "prisma/schema.prisma", RDB_MODULE}
            && FirstFilled(templates["prisma/prisma.config.ts.template"], "__DATABASE_URL__", AddressOf(d),
                           r["prisma.config.ts"])
            && FirstFilled(templates["prisma/schema.prisma.template"], "__PRISMA_PROVIDER__", DialectOf(d),
                           r["prisma/schema.prisma"])
            && FilledWith(templates["prisma/rdb-database.module.ts.template"],
                          ["__ADAPTER_CREATE__", "__ADAPTER_IMPORT__"], [AdapterCreate(d), AdapterImport(d)],
                          r[RDB_MODULE])
  {
    var texts := ReadAll(TemplatePaths(Prisma), templates).value;
    PrismaTexts(templates, texts);
    PrismaPlaces(d, texts);
    AddressIs(d);
    SmallValues(d);
    FirstReplaced(texts[0], "__DATABASE_URL__", AddressOf(d));
    FirstReplaced(texts[1], "__PRISMA_PROVIDER__", DialectOf(d));
    PrismaModule(d, texts[2]);
  }

  lemma PrismaTexts(templates: Templates, texts: seq<string>)
    requires ReadAll(TemplatePaths(Prisma), templates) == Success(texts)
    ensures "prisma/prisma.config.ts.template" in templates && "prisma/schema.prisma.template" in templates
    ensures "prisma/rdb-database.module.ts.template" in templates
    ensures texts == [templates["prisma/prisma.config.ts.template"], templates["prisma/schema.prisma.template"],
                      templates["prisma/rdb-database.module.ts.template"]]
  {
    var paths := TemplatePaths(Prisma);
    assert paths[0] in templates && paths[1] in templates && paths[2] in templates;
  }

  lemma PrismaPlaces(d: Database, texts: seq<string>)
    requires |texts| == 3
    ensures var r := PrismaFiles(d, texts);
            && r.Keys == {"prisma.config.ts", "prisma/schema.prisma", RDB_MODULE}
            && r["prisma.config.ts"] == ReplaceFirst(texts[0], "__DATABASE_URL__", HostUrl(d))
            && r["prisma/schema.prisma"] == ReplaceFirst(texts[1], "__PRISMA_PROVIDER__", Scheme(d))
            && r[RDB_MODULE] == ModuleOf(Prisma, d, texts[2])
  {
    PathsDiffer();
    assert |"prisma.config.ts"| == 16 && |"prisma/schema.prisma"| == 20;
  }

  function AdapterImport(d: Database): string {
    if d == Postgres then "import { PrismaPg } from " + "'@prisma/adapter-pg';"
    else "import { PrismaMariaDb } from " + "'@prisma/adapter-mariadb';"
  }

  /** The settings that a driver reads, and what it takes when they are not there. */
  function DriverSettings(port: string): string {
    "      database: config.get<string>" + "('DB_DATABASE') ?? 'app',\n"
    + ("      host: config.get<string>" + "('DB_HOST') ?? 'localhost',\n")
    + ("      password: config.get<string>" + "('DB_PASSWORD') ?? 'app',\n")
    + ("      port: config.get<number>" + "('DB_PORT') ?? " + port + ",\n")
    + ("      user: config.get<string>" + "('DB_USERNAME') ?? 'app',\n")
  }

  function AdapterCreate(d: Database): string {
    if d == Postgres then
      "const adapter = new PrismaPg({\n" + "      connectionString:\n" + "        config.get<string>"
      + "('DATABASE_URL') ??\n        '" + AddressOf(d) + "',\n    });"
    else
      "const adapter = new PrismaMariaDb({\n" + "      connectionLimit: 5,\n" + DriverSettings("3306") + "    });"
  }

  lemma SettingIs(field: string, kind: string, key: string, fallback: string)
    ensures Setting(field, kind, key, fallback)
         == ("      " + field + ": config.get<" + kind + ">") + ("('" + key + "') ?? " + fallback + ",\n")
  {
    assert ">('" == ">" + "('";
    EightParts("      ", field, ": config.get<", kind, ">", "('", key, "') ?? " + fallback + ",\n");
    Behind("      " + field + ": config.get<" + kind + ">('" + key, "') ?? ", fallback, ",\n");
    Behind("('" + key, "') ?? ", fallback, ",\n");
  }

  lemma Behind(a: string, b: string, c: string, d: string)
    ensures a + b + c + d == a + (b + c + d)
  {
  }

  lemma EightParts(a: string, b: string, c: string, d: string, e: string, f: string, g: string, h: string)
    ensures a + b + c + d + (e + f) + g + h == (a + b + c + d + e) + (f + g + h)
  {
  }

  lemma DatabaseSetting()
    ensures Setting("database", "string", "DB_DATABASE", "'app'")
         == "      database: config.get<string>" + "('DB_DATABASE') ?? 'app',\n"
  {
    SettingIs("database", "string", "DB_DATABASE", "'app'");
    assert "      " + "database" + ": config.get<" + "string" + ">" == "      database: config.get<string>";
    assert "('" + "DB_DATABASE" + "') ?? " + "'app'" + ",\n" == "('DB_DATABASE') ?? 'app',\n";
  }

  lemma HostSetting()
    ensures Setting("host", "string", "DB_HOST", "'localhost'")
         == "      host: config.get<string>" + "('DB_HOST') ?? 'localhost',\n"
  {
    SettingIs("host", "string", "DB_HOST", "'localhost'");
    assert "      " + "host" + ": config.get<" + "string" + ">" == "      host: config.get<string>";
    assert "('" + "DB_HOST" + "') ?? " + "'localhost'" + ",\n" == "('DB_HOST') ?? 'localhost',\n";
  }

  lemma PasswordSetting()
    ensures Setting("password", "string", "DB_PASSWORD", "'app'")
         == "      password: config.get<string>" + "('DB_PASSWORD') ?? 'app',\n"
  {
    SettingIs("password", "string", "DB_PASSWORD", "'app'");
    assert "      " + "password" + ": config.get<" + "string" + ">" == "      password: config.get<string>";
    assert "('" + "DB_PASSWORD" + "') ?? " + "'app'" + ",\n" == "('DB_PASSWORD') ?? 'app',\n";
  }

  lemma PortSetting(port: string)
    ensures Setting("port", "number", "DB_PORT", port)
         == "      port: config.get<number>" + "('DB_PORT') ?? " + port + ",\n"
  {
    SettingIs("port", "number", "DB_PORT", port);
    assert "      " + "port" + ": config.get<" + "number" + ">" == "      port: config.get<number>";
    assert "('" + "DB_PORT" + "') ?? " == "('DB_PORT') ?? ";
    Behind("      port: config.get<number>", "('DB_PORT') ?? ", port, ",\n");
  }

  lemma UserSetting()
    ensures Setting("user", "string", "DB_USERNAME", "'app'")
         == "      user: config.get<string>" + "('DB_USERNAME') ?? 'app',\n"
  {
    SettingIs("user", "string", "DB_USERNAME", "'app'");
    assert "      " + "user" + ": config.get<" + "string" + ">" == "      user: config.get<string>";
    assert "('" + "DB_USERNAME" + "') ?? " + "'app'" + ",\n" == "('DB_USERNAME') ?? 'app',\n";
  }

  lemma SettingsAre(port: string)
    ensures Settings(port) == DriverSettings(port)
  {
    DatabaseSetting();
    HostSetting();
    PasswordSetting();
    PortSetting(port);
    UserSetting();
  }

  lemma AdapterImportIs(d: Database)
    ensures PrismaValue(d, 1) == AdapterImport(d)
  {
    if d == Postgres { PostgresImport(); } else { MariadbImport(); }
  }

  lemma PostgresImport()
    ensures "import { " + "PrismaPg" + " } from '@prisma/adapter-" + "pg" + "';"
         == "import { PrismaPg } from " + "'@prisma/adapter-pg';"
  {
    assert "import { " + "PrismaPg" + " } from " == "import { PrismaPg } from ";
    AdapterPath("PrismaPg", "pg", "'@prisma/adapter-pg';");
  }

  lemma MariadbImport()
    ensures "import { " + "PrismaMariaDb" + " } from '@prisma/adapter-" + "mariadb" + "';"
         == "import { PrismaMariaDb } from " + "'@prisma/adapter-mariadb';"
  {
    assert "import { " + "PrismaMariaDb" + " } from " == "import { PrismaMariaDb } from ";
    AdapterPath("PrismaMariaDb", "mariadb", "'@prisma/adapter-mariadb';");
  }

  lemma AdapterPath(name: string, package: string, end: string)
    requires end == "'@prisma/adapter-" + package + "';"
    ensures "import { " + name + " } from '@prisma/adapter-" + package + "';" == ("import { " + name + " } from ") + end
  {
    assert " } from '@prisma/adapter-" == " } from " + "'@prisma/adapter-";
  }

  lemma AdapterCreateIs(d: Database)
    ensures PrismaValue(d, 0) == AdapterCreate(d)
  {
    AddressIs(d);
    SettingsAre("3306");
    if d == Postgres {
      PostgresAdapter(AddressOf(d));
    } else {
      MariadbAdapter(DriverSettings("3306"));
    }
  }

  lemma PostgresAdapter(url: string)
    ensures "const adapter = new " + "PrismaPg" + "({\n"
            + ("      connectionString:\n" + "        config.get<string>('" + "DATABASE_URL" + "') ??\n" + "        '"
               + url + "',\n") + "    });"
         == "const adapter = new PrismaPg({\n" + "      connectionString:\n" + "        config.get<string>"
            + "('DATABASE_URL') ??\n        '" + url + "',\n    });"
  {
    assert "const adapter = new " + "PrismaPg" + "({\n" == "const adapter = new PrismaPg({\n";
    assert "        config.get<string>('" == "        config.get<string>" + "('";
    assert "('" + "DATABASE_URL" + "') ??\n" + "        '" == "('DATABASE_URL') ??\n        '";
    assert "',\n" + "    });" == "',\n    });";
    UrlPlaced("const adapter = new PrismaPg({\n", "      connectionString:\n", "        config.get<string>", "('",
              "DATABASE_URL", "') ??\n", "        '", url, "',\n", "    });");
  }

  lemma UrlPlaced(a: string, b: string, c: string, d: string, e: string, f: string, g: string, url: string, h: string,
                  end: string)
    ensures a + (b + (c + d) + e + f + g + url + h) + end == a + b + c + (d + e + f + g) + url + (h + end)
  {
  }

  lemma MariadbAdapter(settings: string)
    ensures "const adapter = new " + "PrismaMariaDb" + "({\n" + ("      connectionLimit: 5,\n" + settings) + "    });"
         == "const adapter = new PrismaMariaDb({\n" + "      connectionLimit: 5,\n" + settings + "    });"
  {
    assert "const adapter = new " + "PrismaMariaDb" + "({\n" == "const adapter = new PrismaMariaDb({\n";
    Opened("const adapter = new PrismaMariaDb({\n", "      connectionLimit: 5,\n", settings, "    });");
  }

  lemma Opened(a: string, b: string, c: string, d: string)
    ensures a + (b + c) + d == a + b + c + d
  {
  }

  lemma PrismaTable(d: Database)
    ensures ModuleKeys(Prisma) == ["__ADAPTER_CREATE__", "__ADAPTER_IMPORT__"]
    ensures ModuleValues(Prisma, d) == [PrismaValue(d, 0), PrismaValue(d, 1)]
  {
    var keys, values := ModuleKeys(Prisma), ModuleValues(Prisma, d);
    assert keys == [keys[0], keys[1]] && values == [values[0], values[1]];
  }

  lemma PrismaModule(d: Database, template: string)
    ensures FilledWith(template, ["__ADAPTER_CREATE__", "__ADAPTER_IMPORT__"], [AdapterCreate(d), AdapterImport(d)],
                       ModuleOf(Prisma, d, template))
  {
    AdapterCreateIs(d);
    AdapterImportIs(d);
    PrismaTable(d);
    TableIsProper(Prisma, d);
    ReplacedFills(template, ModuleTable(Prisma, d));
  }

  /** MikroORM's configuration is its template with two holes, its module the template as it is. */
  lemma MikroormProfile(d: Database, templates: Templates)
    requires Profile(Choice(d, Mikroorm), templates).Success?
    ensures "mikroorm/mikro-orm.config.ts.template" in templates
    ensures "mikroorm/rdb-database.module.ts.template" in templates
    ensures var r := Profile(Choice(d, Mikroorm), templates).value;
            && r.Keys == {"src/infra/rdb/mikro-orm.config.ts", RDB_MODULE}
            && FilledWith(templates["mikroorm/mikro-orm.config.ts.template"],
                          ["__DB_PORT__", "__MIKRO_DRIVER_PACKAGE__"], [PortOf(d), DriverPackageOf(d)],
                          r["src/infra/rdb/mikro-orm.config.ts"])
            && r[RDB_MODULE] == templates["mikroorm/rdb-database.module.ts.template"]
  {
    var texts := ReadAll(TemplatePaths(Mikroorm), templates).value;
    MikroormTexts(templates, texts);
    MikroormPlaces(d, texts);
    MikroConfigFilled(d, texts[0]);
    MikroormVerbatim(d, texts[1]);
  }

  lemma MikroormTexts(templates: Templates, texts: seq<string>)
    requires ReadAll(TemplatePaths(Mikroorm), templates) == Success(texts)
    ensures "mikroorm/mikro-orm.config.ts.template" in templates
    ensures "mikroorm/rdb-database.module.ts.template" in templates
    ensures texts == [templates["mikroorm/mikro-orm.config.ts.template"],
                      templates["mikroorm/rdb-database.module.ts.template"]]
  {
    var paths := TemplatePaths(Mikroorm);
    assert paths[0] in templates && paths[1] in templates;
  }

  lemma MikroormPlaces(d: Database, texts: seq<string>)
    requires |texts| == 2
    ensures var r := MikroormFiles(d, texts);
            && r.Keys == {"src/infra/rdb/mikro-orm.config.ts", RDB_MODULE}
            && r["src/infra/rdb/mikro-orm.config.ts"] == Replaced(texts[0], MikroormConfig(d), 2)
            && r[RDB_MODULE] == ModuleOf(Mikroorm, d, texts[1])
  {
    PathsDiffer();
  }

  lemma MikroConfigFilled(d: Database, template: string)
    ensures FilledWith(template, ["__DB_PORT__", "__MIKRO_DRIVER_PACKAGE__"], [PortOf(d), DriverPackageOf(d)],
                       Replaced(template, MikroormConfig(d), 2))
  {
    MikroValues(d);
    MikroProper(d);
    ReplacedFills(template, MikroormConfig(d));
  }

  lemma DrizzleConfigFilled(d: Database, template: string)
    ensures FilledWith(template, ["__DATABASE_URL__", "__DRIZZLE_DIALECT__"], [AddressOf(d), DialectOf(d)],
                       Replaced(template, DrizzleConfig(d), 2))
  {
    DrizzleValues(d);
    DrizzleProper(d);
    ReplacedFills(template, DrizzleConfig(d));
  }

  // ----- Drizzle -----

  function ClientCreate(d: Database): string {
    (if d == Postgres then "this.client = new Pool({\n" else "this.client = createPool({\n")
    + DriverSettings(PortOf(d)) + "    });"
  }

  function ClientImports(d: Database): string {
    if d == Postgres then
      "import type { NodePgDatabase }" + " from 'drizzle-orm/node-postgres';\n"
      + ("import { drizzle }" + " from 'drizzle-orm/node-postgres';\n") + "import { Pool } from 'pg';"
    else
      "import type { MySql2Database }" + " from 'drizzle-orm/mysql2';\n"
      + ("import { drizzle }" + " from 'drizzle-orm/mysql2';\n")
      + ("import { createPool, type Pool }" + " from 'mysql2/promise';")
  }

  lemma ClientCreateIs(d: Database)
    ensures DrizzleValue(d, 0) == ClientCreate(d)
  {
    SmallValues(d);
    SettingsAre(PortOf(d));
    assert "this.client = " + "new Pool" + "({\n" == "this.client = new Pool({\n";
    assert "this.client = " + "createPool" + "({\n" == "this.client = createPool({\n";
  }

  lemma ImportLine(what: string, path: string)
    ensures "import type { " + what + " } from 'drizzle-orm/" + path + "';\n"
         == ("import type { " + what + " }") + (" from 'drizzle-orm/" + path + "';\n")
    ensures "import { drizzle } " + "from 'drizzle-orm/" + path + "';\n"
         == "import { drizzle }" + (" from 'drizzle-orm/" + path + "';\n")
  {
    assert " } from 'drizzle-orm/" == " }" + " from 'drizzle-orm/";
    assert "import { drizzle } " + "from 'drizzle-orm/" == "import { drizzle }" + " from 'drizzle-orm/";
  }

  lemma PostgresImports()
    ensures DriverImports(Postgres) == ClientImports(Postgres)
  {
    ImportLine("NodePgDatabase", "node-postgres");
    assert "import type { " + "NodePgDatabase" + " }" == "import type { NodePgDatabase }";
    assert " from 'drizzle-orm/" + "node-postgres" + "';\n" == " from 'drizzle-orm/node-postgres';\n";
    assert "import { " + ("Pool } from '" + "pg") + "';" == "import { Pool } from 'pg';";
  }

  lemma MysqlImports(d: Database)
    requires d != Postgres
    ensures DriverImports(d) == ClientImports(d)
  {
    ImportLine("MySql2Database", "mysql2");
    assert "import type { " + "MySql2Database" + " }" == "import type { MySql2Database }";
    assert " from 'drizzle-orm/" + "mysql2" + "';\n" == " from 'drizzle-orm/mysql2';\n";
    PoolLine();
  }

  lemma PoolLine()
    ensures "import { " + ("createPool, type Pool } from '" + "mysql2/promise") + "';"
         == "import { createPool, type Pool }" + " from 'mysql2/promise';"
  {
    assert "createPool, type Pool } from '" == "createPool, type Pool }" + " from '";
    assert "import { " + "createPool, type Pool }" == "import { createPool, type Pool }";
    assert " from '" + "mysql2/promise" + "';" == " from 'mysql2/promise';";
    PoolParts("import { ", "createPool, type Pool }", " from '", "mysql2/promise", "';");
  }

  lemma PoolParts(a: string, b: string, c: string, d: string, e: string)
    ensures a + (b + c + d) + e == (a + b) + (c + d + e)
  {
  }

  const DRIZZLE_HOLES: seq<string> := [
    "__CLIENT_CREATE__", "__CLIENT_FIELD__", "__DB_TYPE__", "__DESTROY__", "__DRIVER_IMPORTS__", "__DRIZZLE_CREATE__",
    "__PING__"]

  function DrizzleTexts(d: Database): seq<string> {
    [ClientCreate(d), "private readonly client: Pool;", if d == Postgres then "NodePgDatabase" else "MySql2Database",
     "await this.client.end();", ClientImports(d), "drizzle({ client: this.client })",
     "await this.client.query('SELECT 1');"]
  }

  lemma DrizzleTableIs(d: Database)
    ensures ModuleKeys(Drizzle) == DRIZZLE_HOLES && ModuleValues(Drizzle, d) == DrizzleTexts(d)
  {
    DrizzleKeysAre();
    ClientCreateIs(d);
    if d == Postgres { PostgresImports(); } else { MysqlImports(d); }
    DrizzleValuesAre(d, ModuleValues(Drizzle, d));
  }

  lemma DrizzleKeysAre()
    ensures ModuleKeys(Drizzle) == DRIZZLE_HOLES
  {
    var keys := ModuleKeys(Drizzle);
    assert keys == [keys[0], keys[1], keys[2], keys[3], keys[4], keys[5], keys[6]];
  }

  lemma DrizzleValuesAre(d: Database, values: seq<string>)
    requires |values| == 7 && values[0] == ClientCreate(d) && values[4] == ClientImports(d)
    requires values[1] == DrizzleValue(d, 1) && values[2] == DrizzleType(d) && values[3] == DrizzleValue(d, 3)
    requires values[5] == DrizzleValue(d, 5) && values[6] == DrizzleValue(d, 6)
    ensures values == DrizzleTexts(d)
  {
    ClientLines(d);
    LastLines(d);
    Seven(values, ClientCreate(d), "private readonly client: Pool;",
          if d == Postgres then "NodePgDatabase" else "MySql2Database", "await this.client.end();", ClientImports(d),
          "drizzle({ client: this.client })", "await this.client.query('SELECT 1');");
  }

  lemma ClientLines(d: Database)
    ensures DrizzleValue(d, 1) == "private readonly client: Pool;"
    ensures DrizzleValue(d, 3) == "await this.client.end();"
  {
  }

  lemma LastLines(d: Database)
    ensures DrizzleValue(d, 5) == "drizzle({ client: this.client })"
    ensures DrizzleValue(d, 6) == "await this.client.query('SELECT 1');"
  {
  }

  lemma Seven(s: seq<string>, a: string, b: string, c: string, d: string, e: string, f: string, g: string)
    requires |s| == 7 && s[0] == a && s[1] == b && s[2] == c && s[3] == d && s[4] == e && s[5] == f && s[6] == g
    ensures s == [a, b, c, d, e, f, g]
  {
  }

  lemma DrizzleModule(d: Database, template: string)
    ensures FilledWith(template, DRIZZLE_HOLES, DrizzleTexts(d), ModuleOf(Drizzle, d, template))
  {
    DrizzleTableIs(d);
    TableIsProper(Drizzle, d);
    ReplacedFills(template, ModuleTable(Drizzle, d));
  }

  /** Drizzle's configuration is its template with two holes, its module the template with seven, and its schema the
      template as it is. */
  lemma DrizzleProfile(d: Database, templates: Templates)
    requires Profile(Choice(d, Drizzle), templates).Success?
    ensures "drizzle/drizzle.config.ts.template" in templates && "drizzle/schema.ts.template" in templates
    ensures "drizzle/rdb-database.module.ts.template" in templates
    ensures var r := Profile(Choice(d, Drizzle), templates).value;
            && r.Keys == {"drizzle.config.ts", "src/infra/rdb/schema.ts", RDB_MODULE}
            && FilledWith(templates["drizzle/drizzle.config.ts.template"],
                          ["__DATABASE_URL__", "__DRIZZLE_DIALECT__"], [AddressOf(d), DialectOf(d)],
                          r["drizzle.config.ts"])
            && FilledWith(templates["drizzle/rdb-database.module.ts.template"], DRIZZLE_HOLES, DrizzleTexts(d),
                          r[RDB_MODULE])
            && r["src/infra/rdb/schema.ts"] == templates["drizzle/schema.ts.template"]
  {
    var texts := ReadAll(TemplatePaths(Drizzle), templates).value;
    DrizzleFound(templates, texts);
    DrizzlePlaces(d, texts);
    DrizzleConfigFilled(d, texts[0]);
    DrizzleModule(d, texts[1]);
  }

  lemma DrizzleFound(templates: Templates, texts: seq<string>)
    requires ReadAll(TemplatePaths(Drizzle), templates) == Success(texts)
    ensures "drizzle/drizzle.config.ts.template" in templates && "drizzle/schema.ts.template" in templates
    ensures "drizzle/rdb-database.module.ts.template" in templates
    ensures texts == [templates["drizzle/drizzle.config.ts.template"],
                      templates["drizzle/rdb-database.module.ts.template"], templates["drizzle/schema.ts.template"]]
  {
    var paths := TemplatePaths(Drizzle);
    assert paths[0] in templates && paths[1] in templates && paths[2] in templates;
  }

  lemma DrizzlePlaces(d: Database, texts: seq<string>)
    requires |texts| == 3
    ensures var r := DrizzleFiles(d, texts);
            && r.Keys == {"drizzle.config.ts", "src/infra/rdb/schema.ts", RDB_MODULE}
            && r["drizzle.config.ts"] == Replaced(texts[0], DrizzleConfig(d), 2)
            && r[RDB_MODULE] == ModuleOf(Drizzle, d, texts[1])
            && r["src/infra/rdb/schema.ts"] == texts[2]
  {
    PathsDiffer();
    assert |"drizzle.config.ts"| == 17 && |"src/infra/rdb/schema.ts"| == 23;
  }

  /** TypeORM's files are in the repository already. */
  lemma TypeormProfile(d: Database, templates: Templates)
    ensures Profile(Choice(d, Typeorm), templates) == Success(map[])
  {
  }

  // ----- a template that is not there -----

  function ReadingOrder(orm: Orm): seq<string> {
    match orm
    case Typeorm => []
    case Prisma =>
      ["prisma/prisma.config.ts.template", "prisma/schema.prisma.template", "prisma/rdb-database.module.ts.template"]
    case Mikroorm => ["mikroorm/mikro-orm.config.ts.template", "mikroorm/rdb-database.module.ts.template"]
    case Drizzle =>
      ["drizzle/drizzle.config.ts.template", "drizzle/rdb-database.module.ts.template", "drizzle/schema.ts.template"]
  }

  ghost predicate FirstMissing(paths: seq<string>, templates: Templates, path: string) {
    exists i :: 0 <= i < |paths| && paths[i] == path && path !in templates
                && forall j :: 0 <= j < i ==> paths[j] in templates
  }

  lemma {:induction false} ReadingStops(paths: seq<string>, templates: Templates)
    ensures ReadAll(paths, templates).Failure? ==> FirstMissing(paths, templates, ReadAll(paths, templates).error)
  {
    if paths != [] && paths[0] in templates {
      ReadingStops(paths[1..], templates);
      var r := ReadAll(paths[1..], templates);
      if r.Failure? {
        var i :|
          0 <= i < |paths| - 1 && paths[1..][i] == r.error && forall j :: 0 <= j < i ==> paths[1..][j] in templates;
        assert paths[i + 1] == r.error;
        forall j | 0 <= j < i + 1 ensures paths[j] in templates {
          if j > 0 { assert paths[1..][j - 1] in templates; }
        }
      }
    }
  }

  /** Rendering stops exactly when a template of the profile is not there, at the first one in reading order. */
  lemma ProfileStopsIff(c: Choice, templates: Templates)
    ensures Profile(c, templates).Failure? <==> exists path :: path in ReadingOrder(c.orm) && path !in templates
    ensures Profile(c, templates).Failure? ==>
              FirstMissing(ReadingOrder(c.orm), templates, Profile(c, templates).error)
  {
    assert TemplatePaths(c.orm) == ReadingOrder(c.orm);
    ReadingStops(TemplatePaths(c.orm), templates);
    ProfileIff(c, templates);
  }
}
