/** The choices a project makes once: an RDB and an ORM. */
module Selection {
  datatype Database = Postgres | Mysql | Mariadb {
    function Name(): string {
      match this
      case Postgres => "postgres"
      case Mysql => "mysql"
      case Mariadb => "mariadb"
    }
  }

  datatype Orm = Typeorm | Prisma | Mikroorm | Drizzle

  datatype Choice = Choice(database: Database, orm: Orm)

  const RDB_CHOICES: seq<Database> := [Postgres, Mysql, Mariadb]
  const ORM_CHOICES: seq<Orm> := [Typeorm, Prisma, Mikroorm, Drizzle]

  predicate IsRdb(key: string) {
    key == "postgres" || key == "mysql" || key == "mariadb"
  }

  function Rdb(key: string): (d: Database)
    requires IsRdb(key)
    ensures d.Name() == key
  {
    if key == "postgres" then Postgres else if key == "mysql" then Mysql else Mariadb
  }

  lemma NamesDiffer(a: Database, b: Database)
    ensures a.Name() == b.Name() <==> a == b
    ensures IsRdb(a.Name()) && Rdb(a.Name()) == a
  {
    assert |"postgres"| == 8 && |"mysql"| == 5 && |"mariadb"| == 7;
  }

  /** An unsigned number as JavaScript's template literals print it; only the two ports occur. */
  function Port(d: Database): string {
    if d == Postgres then "5432" else "3306"
  }
}
