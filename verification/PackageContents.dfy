/** What the configured package.json says, name by name: versions, commands, and what was there before. */
module PackageContents {
  import opened OrderedMap
  import opened PackageGenerator
  import opened Results
  import opened Selection

  function Lookup(m: Packages, name: string): Option<string> {
    if Has(m, name) then Some(Get(m, name)) else None
  }

  // ----- a section -----

  lemma {:induction false} KeepLooksUp(m: Packages, managed: seq<string>, name: string)
    ensures Lookup(Keep(m, managed), name) == if name in managed then None else Lookup(m, name)
  {
    if m != [] {
      KeepLooksUp(m[1..], managed, name);
      LookupCons(m, name);
      if m[0].key !in managed {
        assert Keep(m, managed)[1..] == Keep(m[1..], managed);
        LookupCons(Keep(m, managed), name);
      }
    }
  }

  lemma LookupCons(m: Packages, name: string)
    requires m != []
    ensures Lookup(m, name) == if m[0].key == name then Some(m[0].value) else Lookup(m[1..], name)
  {
  }

  lemma PutLooksUp(m: Packages, key: string, value: string, name: string)
    ensures Lookup(Put(m, key, value), name) == if name == key then Some(value) else Lookup(m, name)
  {
    if name == key { PutSame(m, key, value); } else { PutOther(m, key, value, name); }
  }

  lemma {:induction false} PutAllLooksUp(m: Packages, added: Packages, name: string)
    requires Unique(added)
    ensures Lookup(PutAll(m, added), name) == if Has(added, name) then Lookup(added, name) else Lookup(m, name)
    decreases |added|
  {
    if added != [] {
      var key, value := added[0].key, added[0].value;
      PutAllLooksUp(Put(m, key, value), added[1..], name);
      PutLooksUp(m, key, value, name);
      LookupCons(added, name);
      assert forall j :: 0 <= j < |added[1..]| ==> added[1..][j].key == added[j + 1].key;
    }
  }

  /** A name that the choice adds is there with its value, another managed one is gone, the rest is as before. */
  lemma SectionLooksUp(m: Packages, managed: seq<string>, added: Packages, name: string)
    requires Unique(added)
    ensures Lookup(PutAll(Keep(m, managed), added), name)
         == if Has(added, name) then Lookup(added, name) else if name in managed then None else Lookup(m, name)
  {
    PutAllLooksUp(Keep(m, managed), added, name);
    KeepLooksUp(m, managed, name);
  }

  // ----- the tables, word by word -----

  function Version(c: Choice, name: string): Option<string> {
    var postgres := c.database == Postgres;
    match c.orm
    case Typeorm =>
      if name == "@nestjs/typeorm" then Some("^11.0.0") else if name == "typeorm" then Some("^0.3.24")
      else DriverAt(c.database, name)
    case Prisma =>
      if name == "@prisma/client" || name == (if postgres then "@prisma/adapter-pg" else "@prisma/adapter-mariadb")
      then Some("^7.9.1") else None
    case Mikroorm =>
      if name == "@mikro-orm/nestjs" then Some("^7.0.2")
      else if name == "@mikro-orm/core" || name == "@mikro-orm/migrations" || name == MikroDriver(c.database)
      then Some("^7.1.11") else None
    case Drizzle => if name == "drizzle-orm" then Some("^0.45.2") else DriverAt(c.database, name)
  }

  function DriverAt(d: Database, name: string): Option<string> {
    if d == Postgres then if name == "pg" then Some("^8.16.3") else None
    else if name == "mysql2" then Some("^3.15.1") else None
  }

  function MikroDriver(d: Database): string {
    match d
    case Postgres => "@mikro-orm/postgresql"
    case Mysql => "@mikro-orm/mysql"
    case Mariadb => "@mikro-orm/mariadb"
  }

  function DevVersion(c: Choice, name: string): Option<string> {
    match c.orm
    case Typeorm | Mikroorm => None
    case Prisma => if name == "prisma" then Some("^7.9.1") else None
    case Drizzle =>
      if name == "drizzle-kit" then Some("^0.31.10")
      else if name == "@types/pg" && c.database == Postgres then Some("^8.23.1") else None
  }

  function Command(orm: Orm, name: string): Option<string> {
    match orm
    case Typeorm =>
      if name == "typeorm" then Some("typeorm-ts-node-esm -d" + " src/config/typeorm-data-source.ts")
      else if name == "migration:generate"
      then Some("pnpm typeorm migration:generate" + " src/database/migrations/AutoMigration")
      else if name == "migration:run" then Some("pnpm typeorm migration:run")
      else if name == "migration:revert" then Some("pnpm typeorm migration:revert") else None
    case Prisma =>
      if name == "postinstall" then Some("prisma generate")
      else if name == "migration:generate" then Some("prisma migrate dev")
      else if name == "migration:run" then Some("prisma migrate deploy") else None
    case Mikroorm =>
      if name == "migration:generate" then Some("mikro-orm migration:create")
      else if name == "migration:run" then Some("mikro-orm migration:up")
      else if name == "migration:revert" then Some("mikro-orm migration:down") else None
    case Drizzle =>
      if name == "migration:generate" then Some("drizzle-kit generate")
      else if name == "migration:run" then Some("drizzle-kit migrate") else None
  }

  const ORM_PACKAGES: seq<string> := [
    "@mikro-orm/core", "@mikro-orm/mariadb", "@mikro-orm/migrations", "@mikro-orm/mysql", "@mikro-orm/nestjs",
    "@mikro-orm/postgresql", "@nestjs/typeorm", "@prisma/adapter-mariadb", "@prisma/adapter-pg", "@prisma/client",
    "drizzle-orm", "mysql2", "pg", "typeorm"]
  const ORM_TOOLS: seq<string> := ["@types/pg", "drizzle-kit", "prisma"]
  const ORM_COMMANDS: seq<string> :=
    ["typeorm", "migration:generate", "migration:run", "migration:revert", "postinstall"]

  lemma ManagedAre()
    ensures MANAGED_DEPENDENCIES == ORM_PACKAGES && MANAGED_DEV_DEPENDENCIES == ORM_TOOLS
    ensures MANAGED_SCRIPTS == ORM_COMMANDS
  {
  }

  // ----- the additions of a choice -----

  lemma One(m: Packages, a: Entry<string>, name: string)
    requires m == [a]
    ensures Unique(m) && Lookup(m, name) == if name == a.key then Some(a.value) else None
  {
  }

  lemma Two(m: Packages, a: Entry<string>, b: Entry<string>, name: string)
    requires m == [a, b] && a.key != b.key
    ensures Unique(m)
    ensures Lookup(m, name) == if name == a.key then Some(a.value) else if name == b.key then Some(b.value) else None
  {
    LookupCons(m, name);
    One(m[1..], b, name);
  }

  lemma Three(m: Packages, a: Entry<string>, b: Entry<string>, c: Entry<string>, name: string)
    requires m == [a, b, c] && a.key != b.key && a.key != c.key && b.key != c.key
    ensures Unique(m)
    ensures Lookup(m, name) == if name == a.key then Some(a.value) else Lookup([b, c], name)
  {
    LookupCons(m, name);
    assert m[1..] == [b, c];
  }

  lemma Four(m: Packages, a: Entry<string>, b: Entry<string>, c: Entry<string>, d: Entry<string>, name: string)
    requires m == [a, b, c, d] && a.key != b.key && a.key != c.key && b.key != c.key
    requires a.key != d.key && b.key != d.key && c.key != d.key
    ensures Unique(m)
    ensures Lookup(m, name) == if name == a.key then Some(a.value) else Lookup([b, c, d], name)
  {
    LookupCons(m, name);
    assert m[1..] == [b, c, d];
  }

  lemma NamesApart()
    ensures "@nestjs/typeorm" != "typeorm" && "typeorm" != "pg" && "typeorm" != "mysql2" && "@nestjs/typeorm" != "pg"
    ensures "@nestjs/typeorm" != "mysql2" && "drizzle-orm" != "pg" && "drizzle-orm" != "mysql2"
    ensures "@prisma/client" != "@prisma/adapter-pg" && "@prisma/client" != "@prisma/adapter-mariadb"
    ensures "@types/pg" != "drizzle-kit"
  {
    assert |"@nestjs/typeorm"| == 15 && |"typeorm"| == 7 && |"pg"| == 2 && |"mysql2"| == 6 && |"drizzle-orm"| == 11;
    assert |"@prisma/client"| == 14 && |"@prisma/adapter-pg"| == 18 && |"@prisma/adapter-mariadb"| == 23;
    assert |"@types/pg"| == 9;
  }

  lemma MikroNamesApart(d: Database)
    ensures "@mikro-orm/core" != "@mikro-orm/migrations" && "@mikro-orm/core" != "@mikro-orm/nestjs"
    ensures "@mikro-orm/migrations" != "@mikro-orm/nestjs" && MikroDriver(d) != "@mikro-orm/core"
    ensures MikroDriver(d) != "@mikro-orm/migrations" && MikroDriver(d) != "@mikro-orm/nestjs"
  {
    assert "@mikro-orm/core"[11] == 'c' && "@mikro-orm/migrations"[12] == 'i' && "@mikro-orm/nestjs"[11] == 'n';
    assert "@mikro-orm/migrations"[11] == 'm' && MikroDriver(d)[11] != 'c' && MikroDriver(d)[11] != 'n';
    assert MikroDriver(d)[12] != 'i';
  }

  lemma MikroDriverIs(d: Database)
    ensures (if d == Postgres then "@mikro-orm/postgresql" else "@mikro-orm/" + d.Name()) == MikroDriver(d)
  {
  }

  lemma DriversAre(d: Database)
    ensures Driver(d) == (if d == Postgres then "pg" else "mysql2")
    ensures DriverVersion(d) == if d == Postgres then "^8.16.3" else "^3.15.1"
  {
  }

  lemma DependenciesAre(c: Choice, name: string)
    ensures Unique(AddedDependencies(c)) && Lookup(AddedDependencies(c), name) == Version(c, name)
  {
    var m, d := AddedDependencies(c), c.database;
    match c.orm {
      case Typeorm =>
        NamesApart();
        DriversAre(d);
        Three(m, m[0], m[1], m[2], name);
        Two([m[1], m[2]], m[1], m[2], name);
      case Prisma =>
        NamesApart();
        Two(m, m[0], m[1], name);
      case Mikroorm => MikroAdded(m, d, name);
      case Drizzle =>
        NamesApart();
        DriversAre(d);
        Two(m, m[0], m[1], name);
    }
  }

  lemma MikroAdded(m: Packages, d: Database, name: string)
    requires m == AddedDependencies(Choice(d, Mikroorm))
    ensures Unique(m) && Lookup(m, name) == Version(Choice(d, Mikroorm), name)
  {
    MikroNamesApart(d);
    MikroDriverIs(d);
    Four(m, m[0], m[1], m[2], m[3], name);
    Three([m[1], m[2], m[3]], m[1], m[2], m[3], name);
    Two([m[2], m[3]], m[2], m[3], name);
  }

  lemma DevDependenciesAre(c: Choice, name: string)
    ensures Unique(AddedDevDependencies(c)) && Lookup(AddedDevDependencies(c), name) == DevVersion(c, name)
  {
    var m := AddedDevDependencies(c);
    NamesApart();
    match c.orm {
      case Typeorm =>
      case Mikroorm =>
      case Prisma => One(m, m[0], name);
      case Drizzle => if c.database == Postgres { Two(m, m[0], m[1], name); } else { One(m, m[0], name); }
    }
  }

  lemma CommandsApart()
    ensures "migration:generate" != "migration:run" && "migration:generate" != "migration:revert"
    ensures "migration:run" != "migration:revert" && "typeorm" != "migration:generate" && "typeorm" != "migration:run"
    ensures "typeorm" != "migration:revert" && "postinstall" != "migration:generate" && "postinstall" != "migration:run"
  {
    assert |"migration:generate"| == 18 && |"migration:run"| == 13 && |"migration:revert"| == 16;
    assert |"typeorm"| == 7 && |"postinstall"| == 11;
  }

  lemma ScriptsAre(c: Choice, name: string)
    ensures Unique(AddedScripts(c)) && Lookup(AddedScripts(c), name) == Command(c.orm, name)
  {
    var m := AddedScripts(c);
    CommandsApart();
    match c.orm {
      case Typeorm =>
        Four(m, m[0], m[1], m[2], m[3], name);
        Three([m[1], m[2], m[3]], m[1], m[2], m[3], name);
        Two([m[2], m[3]], m[2], m[3], name);
      case Prisma =>
        Three(m, m[0], m[1], m[2], name);
        Two([m[1], m[2]], m[1], m[2], name);
      case Mikroorm =>
        Three(m, m[0], m[1], m[2], name);
        Two([m[1], m[2]], m[1], m[2], name);
      case Drizzle => Two(m, m[0], m[1], name);
    }
  }

  /** Every name of the configured package.json: the choice's version or command, nothing for a package or a script
      of another choice, and for any other name what was there before. */
  lemma ConfiguredSays(m: Manifest, c: Choice, name: string)
    ensures Lookup(Configured(m, c).dependencies, name)
         == if Version(c, name).Some? then Version(c, name)
            else if name in ORM_PACKAGES then None else Lookup(m.dependencies, name)
    ensures Lookup(Configured(m, c).devDependencies, name)
         == if DevVersion(c, name).Some? then DevVersion(c, name)
            else if name in ORM_TOOLS then None else Lookup(m.devDependencies, name)
    ensures Lookup(Configured(m, c).scripts, name)
         == if Command(c.orm, name).Some? then Command(c.orm, name)
            else if name in ORM_COMMANDS then None else Lookup(m.scripts, name)
  {
    ManagedAre();
    DependenciesAre(c, name);
    DevDependenciesAre(c, name);
    ScriptsAre(c, name);
    SectionLooksUp(m.dependencies, MANAGED_DEPENDENCIES, AddedDependencies(c), name);
    SectionLooksUp(m.devDependencies, MANAGED_DEV_DEPENDENCIES, AddedDevDependencies(c), name);
    SectionLooksUp(m.scripts, MANAGED_SCRIPTS, AddedScripts(c), name);
  }
}
