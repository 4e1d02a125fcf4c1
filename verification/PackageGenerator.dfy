/** `configurePackages`: the dependencies, devDependencies and scripts of package.json. */
module PackageGenerator {
  import opened OrderedMap
  import opened Selection

  type Packages = seq<Entry<string>>

  datatype Manifest = Manifest(dependencies: Packages, devDependencies: Packages, scripts: Packages)

  const MANAGED_DEPENDENCIES: seq<string> := [
    "@mikro-orm/core", "@mikro-orm/mariadb", "@mikro-orm/migrations", "@mikro-orm/mysql", "@mikro-orm/nestjs",
    "@mikro-orm/postgresql", "@nestjs/typeorm", "@prisma/adapter-mariadb", "@prisma/adapter-pg", "@prisma/client",
    "drizzle-orm", "mysql2", "pg", "typeorm"]
  const MANAGED_DEV_DEPENDENCIES: seq<string> := ["@types/pg", "drizzle-kit", "prisma"]
  const MANAGED_SCRIPTS: seq<string> :=
    ["typeorm", "migration:generate", "migration:run", "migration:revert", "postinstall"]

  /** `selectedTypeOrmDriver` */
  function Driver(d: Database): string {
    if d == Postgres then "pg" else "mysql2"
  }

  function DriverVersion(d: Database): string {
    if d == Postgres then "^8.16.3" else "^3.15.1"
  }

  function AddedDependencies(c: Choice): Packages {
    match c.orm
    case Typeorm => [Entry("@nestjs/typeorm", "^11.0.0"), Entry("typeorm", "^0.3.24"),
                     Entry(Driver(c.database), DriverVersion(c.database))]
    case Prisma => [Entry("@prisma/client", "^7.9.1"),
                    Entry(if c.database == Postgres then "@prisma/adapter-pg" else "@prisma/adapter-mariadb", "^7.9.1")]
    case Mikroorm => [Entry("@mikro-orm/core", "^7.1.11"), Entry("@mikro-orm/migrations", "^7.1.11"),
                      Entry("@mikro-orm/nestjs", "^7.0.2"),
                      Entry(if c.database == Postgres then "@mikro-orm/postgresql"
                            else "@mikro-orm/" + c.database.Name(), "^7.1.11")]
    case Drizzle => [Entry("drizzle-orm", "^0.45.2"), Entry(Driver(c.database), DriverVersion(c.database))]
  }

  function AddedDevDependencies(c: Choice): Packages {
    match c.orm
    case Typeorm => []
    case Prisma => [Entry("prisma", "^7.9.1")]
    case Mikroorm => []
    case Drizzle =>
      (if c.database == Postgres then [Entry("@types/pg", "^8.23.1")] else []) + [Entry("drizzle-kit", "^0.31.10")]
  }

  function AddedScripts(c: Choice): Packages {
    match c.orm
    case Typeorm => [Entry("typeorm", "typeorm-ts-node-esm -d" + " src/config/typeorm-data-source.ts"),
                     Entry("migration:generate",
                           "pnpm typeorm migration:generate" + " src/database/migrations/AutoMigration"),
                     Entry("migration:run", "pnpm typeorm migration:run"),
                     Entry("migration:revert", "pnpm typeorm migration:revert")]
    case Prisma => [Entry("postinstall", "prisma generate"), Entry("migration:generate", "prisma migrate dev"),
                    Entry("migration:run", "prisma migrate deploy")]
    case Mikroorm =>
      [Entry("migration:generate", "mikro-orm migration:create"), Entry("migration:run", "mikro-orm migration:up"),
       Entry("migration:revert", "mikro-orm migration:down")]
    case Drizzle => [Entry("migration:generate", "drizzle-kit generate"), Entry("migration:run", "drizzle-kit migrate")]
  }

  // ----- the reference description: what is not managed stays, in order; the additions follow -----

  function Keep(m: Packages, managed: seq<string>): Packages {
    if m == [] then [] else if m[0].key in managed then Keep(m[1..], managed) else [m[0]] + Keep(m[1..], managed)
  }

  function PutAll(m: Packages, added: Packages): Packages
    decreases |added|
  {
    if added == [] then m else PutAll(Put(m, added[0].key, added[0].value), added[1..])
  }

  function Configured(m: Manifest, c: Choice): Manifest {
    Manifest(PutAll(Keep(m.dependencies, MANAGED_DEPENDENCIES), AddedDependencies(c)),
             PutAll(Keep(m.devDependencies, MANAGED_DEV_DEPENDENCIES), AddedDevDependencies(c)),
             PutAll(Keep(m.scripts, MANAGED_SCRIPTS), AddedScripts(c)))
  }

  // ----- the manifest object that the script edits in place -----

  class PackageManifest {
    var dependencies: Packages
    var devDependencies: Packages
    var scripts: Packages

    constructor (m: Manifest)
      ensures Contents() == m
    {
      dependencies, devDependencies, scripts := m.dependencies, m.devDependencies, m.scripts;
    }

    function Contents(): Manifest
      reads this
    {
      Manifest(dependencies, devDependencies, scripts)
    }

    method ConfigurePackages(c: Choice)
      modifies this
      ensures Contents() == Configured(old(Contents()), c)
    {
      dependencies := DeleteAll(dependencies, MANAGED_DEPENDENCIES);
      devDependencies := DeleteAll(devDependencies, MANAGED_DEV_DEPENDENCIES);
      scripts := DeleteAll(scripts, MANAGED_SCRIPTS);
      dependencies := Assign(dependencies, AddedDependencies(c));
      devDependencies := Assign(devDependencies, AddedDevDependencies(c));
      scripts := Assign(scripts, AddedScripts(c));
    }
  }

  /** `names.forEach((name) => delete record[name])` */
  method DeleteAll(m: Packages, names: seq<string>) returns (r: Packages)
    ensures r == Keep(m, names)
  {
    r := m;
    KeepNone(m);
    for i := 0 to |names|
      invariant r == Keep(m, names[..i])
    {
      KeepSnoc(m, names[..i], names[i]);
      assert names[..i + 1] == names[..i] + [names[i]];
      r := Remove(r, names[i]);
    }
    assert names[..|names|] == names;
  }

  /** The assignments of one branch, first to last. */
  method Assign(m: Packages, added: Packages) returns (r: Packages)
    ensures r == PutAll(m, added)
  {
    r := m;
    for i := 0 to |added|
      invariant PutAll(r, added[i..]) == PutAll(m, added)
    {
      assert added[i..][0] == added[i] && added[i..][1..] == added[i + 1..];
      r := Put(r, added[i].key, added[i].value);
    }
  }

  lemma {:induction false} KeepNone(m: Packages)
    ensures Keep(m, []) == m
  {
    if m != [] {
      KeepNone(m[1..]);
    }
  }

  lemma RemoveCons<V>(e: Entry<V>, m: seq<Entry<V>>, name: string)
    ensures Remove([e] + m, name) == if e.key == name then Remove(m, name) else [e] + Remove(m, name)
  {
    assert ([e] + m)[1..] == m;
  }

  lemma {:induction false} KeepSnoc(m: Packages, names: seq<string>, name: string)
    ensures Remove(Keep(m, names), name) == Keep(m, names + [name])
  {
    if m != [] {
      KeepSnoc(m[1..], names, name);
      RemoveCons(m[0], Keep(m[1..], names), name);
      assert m[0].key in names + [name] <==> m[0].key in names || m[0].key == name;
    }
  }

  lemma KeepCons(e: Entry<string>, m: Packages, managed: seq<string>)
    ensures Keep([e] + m, managed) == if e.key in managed then Keep(m, managed) else [e] + Keep(m, managed)
  {
    assert ([e] + m)[1..] == m;
  }

  // ----- laws -----

  lemma {:induction false} KeepPut(m: Packages, managed: seq<string>, key: string, value: string)
    requires key in managed
    ensures Keep(Put(m, key, value), managed) == Keep(m, managed)
  {
    if m == [] {
      assert Put(m, key, value) == [Entry(key, value)];
    } else if m[0].key == key {
      assert Find(m, key) == 0;
      assert Put(m, key, value)[1..] == m[1..];
    } else {
      var r := Put(m, key, value);
      assert r[0] == m[0] && r[1..] == Put(m[1..], key, value);
      KeepPut(m[1..], managed, key, value);
    }
  }

  ghost predicate AllManaged(added: Packages, managed: seq<string>) {
    forall i :: 0 <= i < |added| ==> added[i].key in managed
  }

  lemma {:induction false} KeepPutAll(m: Packages, managed: seq<string>, added: Packages)
    requires AllManaged(added, managed)
    ensures Keep(PutAll(m, added), managed) == Keep(m, managed)
    decreases |added|
  {
    if added != [] {
      KeepPut(m, managed, added[0].key, added[0].value);
      KeepPutAll(Put(m, added[0].key, added[0].value), managed, added[1..]);
    }
  }

  lemma {:induction false} KeepTwice(m: Packages, managed: seq<string>)
    ensures Keep(Keep(m, managed), managed) == Keep(m, managed)
  {
    if m != [] {
      KeepTwice(m[1..], managed);
      KeepCons(m[0], Keep(m[1..], managed), managed);
    }
  }

  lemma SectionLastWins(m: Packages, managed: seq<string>, a: Packages, b: Packages)
    requires AllManaged(a, managed)
    ensures PutAll(Keep(PutAll(Keep(m, managed), a), managed), b) == PutAll(Keep(m, managed), b)
  {
    KeepPutAll(Keep(m, managed), managed, a);
    KeepTwice(m, managed);
  }

  lemma DependenciesManaged(c: Choice)
    ensures AllManaged(AddedDependencies(c), MANAGED_DEPENDENCIES)
  {
    var d, added := MANAGED_DEPENDENCIES, AddedDependencies(c);
    match c.orm {
      case Typeorm =>
        assert added[0].key == d[6] && added[1].key == d[13];
        assert added[2].key == d[if c.database == Postgres then 12 else 11];
      case Prisma => assert added[0].key == d[9] && added[1].key == d[if c.database == Postgres then 8 else 7];
      case Mikroorm =>
        assert added[0].key == d[0] && added[1].key == d[2] && added[2].key == d[4];
        assert added[3].key == d[if c.database == Postgres then 5 else if c.database == Mysql then 3 else 1];
      case Drizzle => assert added[0].key == d[10] && added[1].key == d[if c.database == Postgres then 12 else 11];
    }
  }

  lemma DevDependenciesManaged(c: Choice)
    ensures AllManaged(AddedDevDependencies(c), MANAGED_DEV_DEPENDENCIES)
  {
    var d := MANAGED_DEV_DEPENDENCIES;
    assert d[0] in d && d[1] in d && d[2] in d;
  }

  lemma ScriptsManaged(c: Choice)
    ensures AllManaged(AddedScripts(c), MANAGED_SCRIPTS)
  {
    var s, added := MANAGED_SCRIPTS, AddedScripts(c);
    match c.orm {
      case Typeorm =>
        assert added[0].key == s[0] && added[1].key == s[1] && added[2].key == s[2] && added[3].key == s[3];
      case Prisma => assert added[0].key == s[4] && added[1].key == s[1] && added[2].key == s[2];
      case Mikroorm => assert added[0].key == s[1] && added[1].key == s[2] && added[2].key == s[3];
      case Drizzle => assert added[0].key == s[1] && added[1].key == s[2];
    }
  }

  lemma AdditionsManaged(c: Choice)
    ensures AllManaged(AddedDependencies(c), MANAGED_DEPENDENCIES)
    ensures AllManaged(AddedDevDependencies(c), MANAGED_DEV_DEPENDENCIES)
    ensures AllManaged(AddedScripts(c), MANAGED_SCRIPTS)
  {
    DependenciesManaged(c);
    DevDependenciesManaged(c);
    ScriptsManaged(c);
  }

  /** Configuring for `a` and then for `b` gives, in the same order, what configuring for `b` gives. */
  lemma LastConfigurationWins(m: Manifest, a: Choice, b: Choice)
    ensures Configured(Configured(m, a), b) == Configured(m, b)
  {
    AdditionsManaged(a);
    SectionLastWins(m.dependencies, MANAGED_DEPENDENCIES, AddedDependencies(a), AddedDependencies(b));
    SectionLastWins(m.devDependencies, MANAGED_DEV_DEPENDENCIES, AddedDevDependencies(a), AddedDevDependencies(b));
    SectionLastWins(m.scripts, MANAGED_SCRIPTS, AddedScripts(a), AddedScripts(b));
  }

  /** Nothing outside the managed lists is lost, added, changed or moved. */
  lemma UnmanagedStays(m: Manifest, c: Choice)
    ensures Keep(Configured(m, c).dependencies, MANAGED_DEPENDENCIES) == Keep(m.dependencies, MANAGED_DEPENDENCIES)
    ensures Keep(Configured(m, c).devDependencies, MANAGED_DEV_DEPENDENCIES)
         == Keep(m.devDependencies, MANAGED_DEV_DEPENDENCIES)
    ensures Keep(Configured(m, c).scripts, MANAGED_SCRIPTS) == Keep(m.scripts, MANAGED_SCRIPTS)
  {
    AdditionsManaged(c);
    KeepTwice(m.dependencies, MANAGED_DEPENDENCIES);
    KeepTwice(m.devDependencies, MANAGED_DEV_DEPENDENCIES);
    KeepTwice(m.scripts, MANAGED_SCRIPTS);
    KeepPutAll(Keep(m.dependencies, MANAGED_DEPENDENCIES), MANAGED_DEPENDENCIES, AddedDependencies(c));
    KeepPutAll(Keep(m.devDependencies, MANAGED_DEV_DEPENDENCIES), MANAGED_DEV_DEPENDENCIES, AddedDevDependencies(c));
    KeepPutAll(Keep(m.scripts, MANAGED_SCRIPTS), MANAGED_SCRIPTS, AddedScripts(c));
  }

  /** `new Set(Object.keys(record))` */
  function Names(m: Packages): set<string> {
    set i | 0 <= i < |m| :: m[i].key
  }

  lemma {:induction false} KeepNames(m: Packages, managed: seq<string>, name: string)
    ensures name in Names(Keep(m, managed)) <==> name in Names(m) && name !in managed
  {
    if m != [] {
      KeepNames(m[1..], managed, name);
      NamesCons(m, name);
      if m[0].key !in managed {
        assert Keep(m, managed)[1..] == Keep(m[1..], managed);
        NamesCons(Keep(m, managed), name);
      }
    }
  }

  lemma NamesCons(m: Packages, name: string)
    requires m != []
    ensures name in Names(m) <==> name == m[0].key || name in Names(m[1..])
  {
    assert m == [m[0]] + m[1..];
    if name in Names(m[1..]) {
      var i :| 0 <= i < |m[1..]| && m[1..][i].key == name;
      assert m[i + 1].key == name;
    }
  }

  lemma PutNames(m: Packages, key: string, value: string, name: string)
    ensures name in Names(Put(m, key, value)) <==> name == key || name in Names(m)
  {
    var r := Put(m, key, value);
    assert r[Find(m, key)].key == key;
    if name in Names(m) {
      var i :| 0 <= i < |m| && m[i].key == name;
      assert r[i].key == name;
    }
  }

  lemma {:induction false} PutAllNames(m: Packages, added: Packages, name: string)
    ensures name in Names(PutAll(m, added)) <==> name in Names(m) || name in Names(added)
    decreases |added|
  {
    if added != [] {
      PutNames(m, added[0].key, added[0].value, name);
      PutAllNames(Put(m, added[0].key, added[0].value), added[1..], name);
      NamesCons(added, name);
    }
  }

  /** A managed package is installed exactly when the choice adds it. */
  lemma ManagedNames(m: Packages, managed: seq<string>, added: Packages, name: string)
    requires name in managed
    ensures name in Names(PutAll(Keep(m, managed), added)) <==> name in Names(added)
  {
    KeepNames(m, managed, name);
    PutAllNames(Keep(m, managed), added, name);
  }
}
