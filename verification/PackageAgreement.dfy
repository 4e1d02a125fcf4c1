/** The generator's package lists against the checker's. */
module PackageAgreement {
  import opened Selection

  import PackageGenerator
  import Checker = ScaffoldChecker
  import opened ScaffoldConsistency

  function Installed(added: PackageGenerator.Packages): set<string> {
    PackageGenerator.Names(added)
  }

  lemma Differ(a: string, b: string, i: nat)
    requires i < |a| && i < |b| && a[i] != b[i]
    ensures a != b
  {
  }

  /** The generator adds everything that the checker requires for the selection. */
  lemma RequirementsAdded(c: Choice)
    ensures Checker.Names(Checker.RequiredDependencies(c.orm)) <= Installed(PackageGenerator.AddedDependencies(c))
    ensures Checker.Names(Checker.DriverPackages(c.orm, c.database)) <= Installed(PackageGenerator.AddedDependencies(c))
    ensures Checker.Names(Checker.RequiredDevDependencies(c.orm)) <= Installed(PackageGenerator.AddedDevDependencies(c))
  {
    var a, d := PackageGenerator.AddedDependencies(c), PackageGenerator.AddedDevDependencies(c);
    assert forall i :: 0 <= i < |a| ==> a[i].key in Installed(a);
    assert forall i :: 0 <= i < |d| ==> d[i].key in Installed(d);
    match c.orm {
      case Typeorm => assert a[0].key in Installed(a) && a[1].key in Installed(a) && a[2].key in Installed(a);
      case Prisma => assert a[0].key in Installed(a) && a[1].key in Installed(a) && d[0].key in Installed(d);
      case Mikroorm =>
        assert "@mikro-orm/" + "mysql" == "@mikro-orm/mysql" && "@mikro-orm/" + "mariadb" == "@mikro-orm/mariadb";
        assert a[0].key in Installed(a) && a[1].key in Installed(a) && a[2].key in Installed(a)
               && a[3].key in Installed(a);
      case Drizzle => assert a[0].key in Installed(a) && a[1].key in Installed(a) && d[|d| - 1].key in Installed(d);
    }
  }

  /** And nothing else, but for the types of a driver that has none of its own. */
  lemma NothingElseAdded(c: Choice)
    ensures Installed(PackageGenerator.AddedDependencies(c))
         == Checker.Names(Checker.RequiredDependencies(c.orm))
            + Checker.Names(Checker.DriverPackages(c.orm, c.database))
    ensures Installed(PackageGenerator.AddedDevDependencies(c))
         == Checker.Names(Checker.RequiredDevDependencies(c.orm))
            + if c.orm == Drizzle && c.database == Postgres then {"@types/pg"} else {}
  {
    var a, d := PackageGenerator.AddedDependencies(c), PackageGenerator.AddedDevDependencies(c);
    RequirementsAdded(c);
    assert c.orm == Mikroorm ==> a[3].key in Checker.DriverPackages(c.orm, c.database) by {
      assert "@mikro-orm/" + "mysql" == "@mikro-orm/mysql" && "@mikro-orm/" + "mariadb" == "@mikro-orm/mariadb";
    }
    assert |d| > 1 ==> d[0].key in Installed(d);
  }

  /** It adds nothing of another ORM, and no other driver of the selected ORM. */
  lemma OtherOrmsNotAdded(c: Choice, o: Orm)
    requires o != c.orm
    ensures Checker.Names(Checker.RequiredDependencies(o)) !! Installed(PackageGenerator.AddedDependencies(c))
  {
    Differ("@nestjs/typeorm", "@mikro-orm/core", 1);
  }

  lemma OtherOrmsDevNotAdded(c: Choice, o: Orm)
    requires o != c.orm
    ensures Checker.Names(Checker.RequiredDevDependencies(o)) !! Installed(PackageGenerator.AddedDevDependencies(c))
  {
  }

  lemma OtherDriversNotAdded(c: Choice, d: Database)
    ensures (Checker.Names(Checker.DriverPackages(c.orm, d)) - Checker.Names(Checker.DriverPackages(c.orm, c.database)))
            !! Installed(PackageGenerator.AddedDependencies(c))
  {
    Differ("@mikro-orm/postgresql", "@mikro-orm/migrations", 11);
  }

  /** Every name in the checker's lists is one that the generator manages. */
  lemma RequiredManaged(o: Orm)
    ensures Checker.Names(Checker.RequiredDependencies(o)) <= Checker.Names(PackageGenerator.MANAGED_DEPENDENCIES)
  {
    var m := PackageGenerator.MANAGED_DEPENDENCIES;
    match o {
      case Typeorm => assert m[6] in m && m[13] in m;
      case Prisma => assert m[9] in m;
      case Mikroorm => assert m[0] in m && m[2] in m && m[4] in m;
      case Drizzle => assert m[10] in m;
    }
  }

  lemma DriversManaged(o: Orm, d: Database)
    ensures Checker.Names(Checker.DriverPackages(o, d)) <= Checker.Names(PackageGenerator.MANAGED_DEPENDENCIES)
  {
    var m := PackageGenerator.MANAGED_DEPENDENCIES;
    match o {
      case Typeorm => assert m[11] in m && m[12] in m;
      case Prisma => assert m[7] in m && m[8] in m;
      case Mikroorm => assert m[1] in m && m[3] in m && m[5] in m;
      case Drizzle => assert m[11] in m && m[12] in m;
    }
  }

  lemma DevManaged(o: Orm)
    ensures Checker.Names(Checker.RequiredDevDependencies(o))
         <= Checker.Names(PackageGenerator.MANAGED_DEV_DEPENDENCIES)
  {
    var m := PackageGenerator.MANAGED_DEV_DEPENDENCIES;
    assert m[1] in m && m[2] in m;
  }

  /** `installed` and `added` hold the same managed names. */
  ghost predicate SameManaged(managed: set<string>, installed: set<string>, added: set<string>) {
    forall n :: n in managed ==> (n in installed <==> n in added)
  }

  lemma Carried(names: set<string>, managed: set<string>, installed: set<string>, added: set<string>)
    requires SameManaged(managed, installed, added) && names <= managed
    ensures names <= added ==> names <= installed
    ensures names !! added ==> names !! installed
  {
  }

  lemma SectionSame(m: PackageGenerator.Packages, managed: seq<string>, added: PackageGenerator.Packages)
    ensures SameManaged(Checker.Names(managed),
                        PackageGenerator.Names(PackageGenerator.PutAll(PackageGenerator.Keep(m, managed), added)),
                          Installed(added))
  {
    forall n | n in managed
      ensures n in PackageGenerator.Names(PackageGenerator.PutAll(PackageGenerator.Keep(m, managed), added))
         <==> n in Installed(added)
    {
      PackageGenerator.ManagedNames(m, managed, added, n);
    }
  }

  lemma DependenciesAgree(c: Choice, managed: set<string>, installed: set<string>)
    requires managed == Checker.Names(PackageGenerator.MANAGED_DEPENDENCIES)
    requires SameManaged(managed, installed, Installed(PackageGenerator.AddedDependencies(c)))
    ensures Checker.Names(Checker.RequiredDependencies(c.orm)) <= installed
    ensures Checker.Names(Checker.DriverPackages(c.orm, c.database)) <= installed
    ensures forall d: Database ::
              (Checker.Names(Checker.DriverPackages(c.orm, d))
               - Checker.Names(Checker.DriverPackages(c.orm, c.database))) !! installed
    ensures forall o: Orm :: o != c.orm ==> Checker.Names(Checker.RequiredDependencies(o)) !! installed
  {
    var added := Installed(PackageGenerator.AddedDependencies(c));
    RequirementsAdded(c);
    RequiredManaged(c.orm);
    DriversManaged(c.orm, c.database);
    Carried(Checker.Names(Checker.RequiredDependencies(c.orm)), managed, installed, added);
    Carried(Checker.Names(Checker.DriverPackages(c.orm, c.database)), managed, installed, added);
    forall d: Database
      ensures (Checker.Names(Checker.DriverPackages(c.orm, d))
               - Checker.Names(Checker.DriverPackages(c.orm, c.database))) !! installed
    {
      OtherDriversNotAdded(c, d);
      DriversManaged(c.orm, d);
      Carried(Checker.Names(Checker.DriverPackages(c.orm, d))
              - Checker.Names(Checker.DriverPackages(c.orm, c.database)), managed, installed, added);
    }
    forall o: Orm | o != c.orm
      ensures Checker.Names(Checker.RequiredDependencies(o)) !! installed
    {
      OtherOrmsNotAdded(c, o);
      RequiredManaged(o);
      Carried(Checker.Names(Checker.RequiredDependencies(o)), managed, installed, added);
    }
  }

  lemma DevDependenciesAgree(c: Choice, managed: set<string>, installed: set<string>)
    requires managed == Checker.Names(PackageGenerator.MANAGED_DEV_DEPENDENCIES)
    requires SameManaged(managed, installed, Installed(PackageGenerator.AddedDevDependencies(c)))
    ensures Checker.Names(Checker.RequiredDevDependencies(c.orm)) <= installed
    ensures forall o: Orm :: o != c.orm ==> Checker.Names(Checker.RequiredDevDependencies(o)) !! installed
  {
    var added := Installed(PackageGenerator.AddedDevDependencies(c));
    RequirementsAdded(c);
    DevManaged(c.orm);
    Carried(Checker.Names(Checker.RequiredDevDependencies(c.orm)), managed, installed, added);
    forall o: Orm | o != c.orm
      ensures Checker.Names(Checker.RequiredDevDependencies(o)) !! installed
    {
      OtherOrmsDevNotAdded(c, o);
      DevManaged(o);
      Carried(Checker.Names(Checker.RequiredDevDependencies(o)), managed, installed, added);
    }
  }

  /** Whatever was installed before, the configured packages agree with the selection. */
  lemma ConfiguredPackagesAgree(m: PackageGenerator.Manifest, c: Choice)
    ensures var r := PackageGenerator.Configured(m, c);
            PackagesAgree(c, PackageGenerator.Names(r.dependencies), PackageGenerator.Names(r.devDependencies))
  {
    var r := PackageGenerator.Configured(m, c);
    SectionSame(m.dependencies, PackageGenerator.MANAGED_DEPENDENCIES, PackageGenerator.AddedDependencies(c));
    SectionSame(m.devDependencies, PackageGenerator.MANAGED_DEV_DEPENDENCIES, PackageGenerator.AddedDevDependencies(c));
    DependenciesAgree(c, Checker.Names(PackageGenerator.MANAGED_DEPENDENCIES), PackageGenerator.Names(r.dependencies));
    DevDependenciesAgree(c, Checker.Names(PackageGenerator.MANAGED_DEV_DEPENDENCIES),
                         PackageGenerator.Names(r.devDependencies));
  }
}
