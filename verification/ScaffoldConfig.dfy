/** `parseScaffoldConfig`: the two names of a selection. */
module ScaffoldConfig {
  import opened Results
  import opened ScaffoldChecker
  import opened Selection

  datatype ConfigError = BadDatabase | BadOrm

  /** `None` is a name that is missing or no string. The database is looked at first. */
  function ParseScaffoldConfig(database: Option<string>, orm: Option<string>): Result<Choice, ConfigError> {
    if database.None? || !IsRdb(database.value) then Failure(BadDatabase)
    else if orm.None? || !IsOrm(orm.value) then Failure(BadOrm)
    else Success(Choice(Rdb(database.value), OrmOf(orm.value)))
  }

  predicate IsOrm(name: string) {
    name == "typeorm" || name == "prisma" || name == "mikroorm" || name == "drizzle"
  }

  function OrmOf(name: string): Orm
    requires IsOrm(name)
  {
    if name == "typeorm" then Typeorm
    else if name == "prisma" then Prisma
    else if name == "mikroorm" then Mikroorm
    else Drizzle
  }

  lemma OrmNames(o: Orm, name: string)
    ensures name == OrmName(o) <==> IsOrm(name) && OrmOf(name) == o
  {
    assert "typeorm"[0] == 't' && "prisma"[0] == 'p' && "mikroorm"[0] == 'm' && "drizzle"[0] == 'd';
  }

  lemma RdbNames(d: Database, name: string)
    ensures name == d.Name() <==> IsRdb(name) && Rdb(name) == d
  {
    NamesDiffer(d, d);
  }

  /** A selection is read back from its names, and from no others. */
  lemma ParsedIff(database: Option<string>, orm: Option<string>, c: Choice)
    ensures ParseScaffoldConfig(database, orm) == Success(c)
       <==> (database == Some(c.database.Name()) && orm == Some(OrmName(c.orm)))
  {
    if database.Some? {
      RdbNames(c.database, database.value);
    }
    if orm.Some? {
      OrmNames(c.orm, orm.value);
    }
  }

  /** What is reported of names that are no selection. */
  lemma RefusedIff(database: Option<string>, orm: Option<string>)
    ensures ParseScaffoldConfig(database, orm) == Failure(BadDatabase)
       <==> forall d: Database :: database != Some(d.Name())
    ensures ParseScaffoldConfig(database, orm) == Failure(BadOrm)
       <==> (exists d: Database :: database == Some(d.Name())) && forall o: Orm :: orm != Some(OrmName(o))
  {
    forall d: Database ensures database == Some(d.Name()) ==> IsRdb(database.value) {
      RdbNames(d, d.Name());
    }
    forall o: Orm ensures orm == Some(OrmName(o)) ==> IsOrm(orm.value) {
      OrmNames(o, OrmName(o));
    }
    if database.Some? && IsRdb(database.value) {
      RdbNames(Rdb(database.value), database.value);
    }
    if orm.Some? && IsOrm(orm.value) {
      OrmNames(OrmOf(orm.value), orm.value);
    }
  }
}
