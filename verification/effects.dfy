/** What the plans of db_views/utils.py do to the catalog: a reference
    description of the catalog after a successful create, the exact condition
    under which a create succeeds, what a failed create leaves behind, and
    idempotence. */
module PlanEffects {
  import opened Wrappers
  import opened Sql
  import opened Catalog
  import opened Executor
  import opened Planner

  /** Catalog consistency the server maintains: every index and every grant
      belongs to an existing relation, and indexes sit on materialized views. */
  predicate WellFormed(db: Db)
  {
    && (forall i :: i in db.indexes ==> db.indexes[i] in db.relations && db.relations[db.indexes[i]].kind == MatView)
    && (forall a :: a in db.acl ==> a.table in db.relations)
  }

  /** Every statement that succeeds keeps the catalog consistent. */
  lemma ApplyKeepsWellFormed(db: Db, s: Statement)
    requires WellFormed(db)
    ensures Apply(db, s).Ok? ==> WellFormed(Apply(db, s).db)
  {
  }

  /** The SELECT grants the read-only users end up holding. */
  function ReaderAcl(name: string, readers: seq<string>): set<Acl>
  {
    set r | r in readers :: Acl(name, r, SelectOnly)
  }

  /** Every role the permission batch names exists, and the unique index (when
      one is wanted) only names columns the view has. */
  predicate CanCreate(db: Db, q: Query, materialized: bool, ufields: seq<string>,
                      owner: string, readers: seq<string>)
  {
    && owner in db.roles
    && (forall i :: 0 <= i < |readers| ==> readers[i] in db.roles)
    && (WantsIndex(materialized, ufields) ==> AllColumnsIn(ufields, q.columns))
  }

  /** Reference description of the catalog after a successful create: whatever
      was called `name` is gone with its dependents; in its place stands one
      relation of the requested kind over the query's columns, owned by `owner`;
      it carries `unique_<name>` exactly when requested; the owner holds all
      privileges and each read-only user SELECT. */
  function Expected(db: Db, q: Query, name: string, materialized: bool, ufields: seq<string>,
                    owner: string, readers: seq<string>): (r: Db)
    ensures r.relations == (db.relations - {name})[name := Relation(KindFor(materialized), q.columns, owner)]
    ensures Exists(r, name, KindFor(materialized))
    ensures Indexed(r, name) <==> WantsIndex(materialized, ufields)
    ensures forall i :: i in r.indexes && r.indexes[i] == name ==> i == IndexName(name)
    ensures WantsIndex(materialized, ufields) ==> IndexName(name) in r.indexes && r.indexes[IndexName(name)] == name
    ensures forall a: Acl :: a.table == name ==>
              (a in r.acl <==> (a.role == owner && a.privilege == AllPrivileges)
                               || (a.role in readers && a.privilege == SelectOnly))
    ensures forall a: Acl :: a.table != name ==> (a in r.acl <==> a in db.acl)
    ensures forall i :: i in db.indexes && db.indexes[i] != name
                        && !(WantsIndex(materialized, ufields) && i == IndexName(name)) ==>
              i in r.indexes && r.indexes[i] == db.indexes[i]
    ensures forall i :: i in r.indexes ==> i in db.indexes || i == IndexName(name)
    ensures r.roles == db.roles && r.session == db.session
    ensures WellFormed(db) ==> WellFormed(r)
  {
    var base := Remove(db, name);
    var ix := if WantsIndex(materialized, ufields) then base.indexes[IndexName(name) := name] else base.indexes;
    var r := base.(relations := base.relations[name := Relation(KindFor(materialized), q.columns, owner)],
                   indexes := ix,
                   acl := base.acl + {Acl(name, owner, AllPrivileges)} + ReaderAcl(name, readers));
    assert WantsIndex(materialized, ufields) ==> IndexName(name) in ix && ix[IndexName(name)] == name;
    r
  }

  /** Dropping a name that is not there changes nothing in a consistent catalog. */
  lemma RemoveAbsent(db: Db, name: string)
    requires WellFormed(db)
    requires name !in db.relations
    ensures Remove(db, name) == db
  {
  }

  lemma {:induction false} ReaderGrantsRun(db: Db, name: string, readers: seq<string>)
    requires name in db.relations
    ensures ApplyBatch(db, ReaderGrants(name, readers))
         == if forall i :: 0 <= i < |readers| ==> readers[i] in db.roles
            then Ok(db.(acl := db.acl + ReaderAcl(name, readers)))
            else Err(UndefinedObject)
    decreases |readers|
  {
    var g := ReaderGrants(name, readers);
    if |readers| == 0 {
      assert ReaderAcl(name, readers) == {};
      assert db.(acl := db.acl + {}) == db;
    } else {
      assert g[0] == Grant(name, readers[0], SelectOnly);
      assert g[1..] == ReaderGrants(name, readers[1..]);
      if readers[0] in db.roles {
        var d := db.(acl := db.acl + {Acl(name, readers[0], SelectOnly)});
        ReaderGrantsRun(d, name, readers[1..]);
        var allIn := forall i :: 0 <= i < |readers| ==> readers[i] in db.roles;
        var restIn := forall i :: 0 <= i < |readers[1..]| ==> readers[1..][i] in db.roles;
        assert allIn <==> restIn by {
          if restIn {
            forall i | 0 <= i < |readers| ensures readers[i] in db.roles {
              if i > 0 { assert readers[i] == readers[1..][i - 1]; }
            }
          }
        }
        assert d.acl + ReaderAcl(name, readers[1..]) == db.acl + ReaderAcl(name, readers) by {
          forall a: Acl ensures a in d.acl + ReaderAcl(name, readers[1..]) <==> a in db.acl + ReaderAcl(name, readers) {
            if a.table == name && a.privilege == SelectOnly && a.role in readers && a.role != readers[0] {
              var k :| 0 <= k < |readers| && readers[k] == a.role;
              assert readers[1..][k - 1] == a.role;
            }
          }
        }
      }
    }
  }

  /** The permission batch is all-or-nothing: it fails on the first unknown role
      and then grants nothing. */
  lemma PermissionBatchRun(db: Db, name: string, owner: string, readers: seq<string>)
    requires name in db.relations
    ensures ApplyBatch(db, PermissionBatch(name, owner, readers))
         == if owner in db.roles && forall i :: 0 <= i < |readers| ==> readers[i] in db.roles
            then Ok(db.(relations := db.relations[name := db.relations[name].(owner := owner)],
                        acl := db.acl + {Acl(name, owner, AllPrivileges)} + ReaderAcl(name, readers)))
            else Err(UndefinedObject)
  {
    var b := PermissionBatch(name, owner, readers);
    assert b[1..][1..] == ReaderGrants(name, readers);
    if owner in db.roles {
      var d1 := db.(relations := db.relations[name := db.relations[name].(owner := owner)]);
      var d2 := d1.(acl := d1.acl + {Acl(name, owner, AllPrivileges)});
      assert ApplyBatch(db, b) == ApplyBatch(d1, b[1..]);
      assert ApplyBatch(d1, b[1..]) == ApplyBatch(d2, b[1..][1..]);
      ReaderGrantsRun(d2, name, readers);
    }
  }

  // The catalog after each stage of a create.

  function Created(db: Db, k: Kind, name: string, q: Query): Db
  {
    db.(relations := db.relations[name := Relation(k, q.columns, db.session)])
  }

  function Reindexed(db: Db, name: string): Db
  {
    db.(indexes := (db.indexes - {IndexName(name)})[IndexName(name) := name])
  }

  function Unindexed(db: Db, name: string): Db
  {
    db.(indexes := db.indexes - {IndexName(name)})
  }

  predicate RolesExist(db: Db, owner: string, readers: seq<string>)
  {
    owner in db.roles && forall i :: 0 <= i < |readers| ==> readers[i] in db.roles
  }

  function Permitted(db: Db, name: string, owner: string, readers: seq<string>): Db
    requires name in db.relations
  {
    db.(relations := db.relations[name := db.relations[name].(owner := owner)],
        acl := db.acl + {Acl(name, owner, AllPrivileges)} + ReaderAcl(name, readers))
  }

  /** The stages compose to the reference catalog. */
  lemma StagesAreExpected(db: Db, q: Query, name: string, materialized: bool, ufields: seq<string>,
                          owner: string, readers: seq<string>)
    requires WellFormed(db) && name !in db.relations
    ensures var c := Created(db, KindFor(materialized), name, q);
            Permitted(if WantsIndex(materialized, ufields) then Reindexed(c, name) else c, name, owner, readers)
              == Expected(db, q, name, materialized, ufields, owner, readers)
  {
  }

  /** The permission batch as one propagating step. */
  lemma PermissionStepRun(dbs: Databases, name: string, owner: string, readers: seq<string>, using: string)
    requires using in dbs && name in dbs[using].relations
    ensures Run(dbs, [Exec(using, PermissionBatch(name, owner, readers), Propagate)])
         == if RolesExist(dbs[using], owner, readers)
            then RunResult(dbs[using := Permitted(dbs[using], name, owner, readers)], None)
            else RunResult(dbs, Some(DbFailure(UndefinedObject)))
  {
    PermissionBatchRun(dbs[using], name, owner, readers);
    assert [Exec(using, PermissionBatch(name, owner, readers), Propagate)][1..] == [];
  }

  /** The index pair on a freshly created materialized view: the drop always
      succeeds, the create fails exactly on a column the view does not have. */
  lemma IndexPairRun(dbs: Databases, name: string, ufields: seq<string>, using: string, rest: seq<Exec>)
    requires using in dbs && Exists(dbs[using], name, MatView) && |ufields| > 0
    ensures Run(dbs, [Exec(using, [DropIndex(IndexName(name))], Propagate),
                      Exec(using, [CreateUniqueIndex(IndexName(name), name, ufields)], Propagate)] + rest)
         == if AllColumnsIn(ufields, dbs[using].relations[name].columns)
            then Run(dbs[using := Reindexed(dbs[using], name)], rest)
            else RunResult(dbs[using := Unindexed(dbs[using], name)], Some(DbFailure(UndefinedColumn)))
  {
    var db := dbs[using];
    var db3 := Unindexed(db, name);
    var p := [Exec(using, [DropIndex(IndexName(name))], Propagate),
              Exec(using, [CreateUniqueIndex(IndexName(name), name, ufields)], Propagate)] + rest;
    ApplyOne(db, DropIndex(IndexName(name)));
    ApplyOne(db3, CreateUniqueIndex(IndexName(name), name, ufields));
    assert Run(dbs, p) == Run(dbs[using := db3], p[1..]);
    assert p[1..][1..] == rest;
    assert dbs[using := db3][using := Reindexed(db, name)] == dbs[using := Reindexed(db, name)];
  }

  /** The create statement on a free name, then the rest of the steps. */
  lemma CreateStepRun(dbs: Databases, q: Query, name: string, materialized: bool, ufields: seq<string>,
                      owner: string, readers: seq<string>, using: string)
    requires using in dbs && name !in dbs[using].relations
    ensures Run(dbs, CreateSteps(q, name, materialized, ufields, owner, readers, using))
         == Run(dbs[using := Created(dbs[using], KindFor(materialized), name, q)],
                CreateSteps(q, name, materialized, ufields, owner, readers, using)[1..])
  {
    ApplyOne(dbs[using], Create(KindFor(materialized), name, q));
  }

  /** Everything after the pre-create drop, started on a catalog where `name` is
      free: the rest succeeds exactly when CanCreate holds, and then yields the
      reference catalog. */
  lemma StepsRun(dbs: Databases, q: Query, name: string, materialized: bool, ufields: seq<string>,
                 owner: string, readers: seq<string>, using: string)
    requires using in dbs && WellFormed(dbs[using]) && name !in dbs[using].relations
    ensures var r := Run(dbs, CreateSteps(q, name, materialized, ufields, owner, readers, using));
            && (r.failure.None? <==> CanCreate(dbs[using], q, materialized, ufields, owner, readers))
            && (r.failure.None? ==>
                  r.dbs == dbs[using := Expected(dbs[using], q, name, materialized, ufields, owner, readers)])
  {
    var db := dbs[using];
    var c := Created(db, KindFor(materialized), name, q);
    CreateStepRun(dbs, q, name, materialized, ufields, owner, readers, using);
    StagesAreExpected(db, q, name, materialized, ufields, owner, readers);
    if WantsIndex(materialized, ufields) {
      IndexedTailRun(dbs[using := c], q, name, ufields, owner, readers, using);
      assert dbs[using := c][using := Permitted(Reindexed(c, name), name, owner, readers)]
          == dbs[using := Permitted(Reindexed(c, name), name, owner, readers)];
    } else {
      PlainTailRun(dbs[using := c], q, name, materialized, ufields, owner, readers, using);
      assert dbs[using := c][using := Permitted(c, name, owner, readers)]
          == dbs[using := Permitted(c, name, owner, readers)];
    }
  }

  /** The steps after the create, when no index is wanted: the permission batch alone. */
  lemma PlainTailRun(dbs: Databases, q: Query, name: string, materialized: bool, ufields: seq<string>,
                     owner: string, readers: seq<string>, using: string)
    requires using in dbs && name in dbs[using].relations && !WantsIndex(materialized, ufields)
    ensures Run(dbs, CreateSteps(q, name, materialized, ufields, owner, readers, using)[1..])
         == if RolesExist(dbs[using], owner, readers)
            then RunResult(dbs[using := Permitted(dbs[using], name, owner, readers)], None)
            else RunResult(dbs, Some(DbFailure(UndefinedObject)))
  {
    assert CreateSteps(q, name, materialized, ufields, owner, readers, using)[1..]
        == [Exec(using, PermissionBatch(name, owner, readers), Propagate)];
    PermissionStepRun(dbs, name, owner, readers, using);
  }

  /** The steps after the create of a materialized view with unique fields: the
      index pair, then the permission batch. */
  lemma IndexedTailRun(dbs: Databases, q: Query, name: string, ufields: seq<string>,
                       owner: string, readers: seq<string>, using: string)
    requires using in dbs && Exists(dbs[using], name, MatView) && |ufields| > 0
    requires dbs[using].relations[name].columns == q.columns
    ensures Run(dbs, CreateSteps(q, name, true, ufields, owner, readers, using)[1..])
         == if !AllColumnsIn(ufields, q.columns)
            then RunResult(dbs[using := Unindexed(dbs[using], name)], Some(DbFailure(UndefinedColumn)))
            else if RolesExist(dbs[using], owner, readers)
            then RunResult(dbs[using := Permitted(Reindexed(dbs[using], name), name, owner, readers)], None)
            else RunResult(dbs[using := Reindexed(dbs[using], name)], Some(DbFailure(UndefinedObject)))
  {
    var permStep := [Exec(using, PermissionBatch(name, owner, readers), Propagate)];
    var ri := Reindexed(dbs[using], name);
    IndexPairRun(dbs, name, ufields, using, permStep);
    if AllColumnsIn(ufields, q.columns) {
      PermissionStepRun(dbs[using := ri], name, owner, readers, using);
      assert dbs[using := ri][using := Permitted(ri, name, owner, readers)] == dbs[using := Permitted(ri, name, owner, readers)];
    }
  }

  lemma RemoveKeepsWellFormed(db: Db, name: string)
    requires WellFormed(db)
    ensures WellFormed(Remove(db, name)) && name !in Remove(db, name).relations
  {
  }

  lemma RemoveTwice(db: Db, name: string)
    ensures Remove(Remove(db, name), name) == Remove(db, name)
  {
  }

  /** The pre-create drop on `using` clears the name and its dependents. */
  lemma DropPhaseRun(dbs: Databases, name: string, using: string)
    requires using in dbs && WellFormed(dbs[using])
    ensures Run(dbs, DropPlan(name, using)) == RunResult(dbs[using := Remove(dbs[using], name)], None)
  {
    DropPlanRun(dbs, name, using);
    if name !in dbs[using].relations {
      RemoveAbsent(dbs[using], name);
    }
  }

  /** `create_view_from_qs` (drop on `using`) on a consistent catalog succeeds
      exactly when every named role exists and the unique fields are columns of
      the view, and then leaves the reference catalog on `using`. */
  lemma CreateRun(dbs: Databases, q: Query, name: string, materialized: bool, ufields: seq<string>,
                  owner: string, readers: seq<string>, using: string)
    requires using in dbs && WellFormed(dbs[using])
    ensures var r := Run(dbs, CreatePlan(q, name, materialized, ufields, owner, readers, using));
            && (r.failure.None? <==> CanCreate(dbs[using], q, materialized, ufields, owner, readers))
            && (r.failure.None? ==>
                  r.dbs == dbs[using := Expected(dbs[using], q, name, materialized, ufields, owner, readers)])
  {
    var db := dbs[using];
    var cleared := Remove(db, name);
    var dbs1 := dbs[using := cleared];
    DropPhaseRun(dbs, name, using);
    RunAppend(dbs, DropPlan(name, using), CreateSteps(q, name, materialized, ufields, owner, readers, using));
    RemoveKeepsWellFormed(db, name);
    StepsRun(dbs1, q, name, materialized, ufields, owner, readers, using);
    RemoveTwice(db, name);
    assert Expected(cleared, q, name, materialized, ufields, owner, readers)
        == Expected(db, q, name, materialized, ufields, owner, readers);
    assert dbs1[using := Expected(db, q, name, materialized, ufields, owner, readers)]
        == dbs[using := Expected(db, q, name, materialized, ufields, owner, readers)];
  }

  /** Re-creating over the reference catalog reproduces it. */
  lemma ExpectedIdempotent(db: Db, q: Query, name: string, materialized: bool, ufields: seq<string>,
                           owner: string, readers: seq<string>)
    ensures var e := Expected(db, q, name, materialized, ufields, owner, readers);
            Expected(e, q, name, materialized, ufields, owner, readers) == e
  {
  }

  /** Running the create twice with the same definition is the same as running
      it once: the second run succeeds and changes nothing. */
  lemma CreateIdempotent(dbs: Databases, q: Query, name: string, materialized: bool, ufields: seq<string>,
                         owner: string, readers: seq<string>, using: string)
    requires using in dbs && WellFormed(dbs[using])
    requires Run(dbs, CreatePlan(q, name, materialized, ufields, owner, readers, using)).failure.None?
    ensures var first := Run(dbs, CreatePlan(q, name, materialized, ufields, owner, readers, using));
            Run(first.dbs, CreatePlan(q, name, materialized, ufields, owner, readers, using)) == first
  {
    var plan := CreatePlan(q, name, materialized, ufields, owner, readers, using);
    var e := Expected(dbs[using], q, name, materialized, ufields, owner, readers);
    CreateRun(dbs, q, name, materialized, ufields, owner, readers, using);
    var dbs1 := dbs[using := e];
    CreateRun(dbs1, q, name, materialized, ufields, owner, readers, using);
    ExpectedIdempotent(dbs[using], q, name, materialized, ufields, owner, readers);
    assert dbs1[using := e] == dbs1;
  }

  /** No rollback: when the unique index names a column the view lacks, the
      create fails there, and the view it already created stays — of the
      requested kind, without an index, still owned by the session role and
      with no privileges granted. */
  lemma CreateNoRollback(dbs: Databases, q: Query, name: string, ufields: seq<string>,
                         owner: string, readers: seq<string>, using: string)
    requires using in dbs && WellFormed(dbs[using])
    requires |ufields| > 0 && !AllColumnsIn(ufields, q.columns)
    ensures var r := Run(dbs, CreatePlan(q, name, true, ufields, owner, readers, using));
            && r.failure == Some(DbFailure(UndefinedColumn))
            && Exists(r.dbs[using], name, MatView)
            && !Indexed(r.dbs[using], name)
            && r.dbs[using].relations[name].owner == dbs[using].session
            && (forall a :: a in r.dbs[using].acl ==> a.table != name)
  {
    var db := dbs[using];
    var cleared := Remove(db, name);
    var dbs1 := dbs[using := cleared];
    var c := Created(cleared, MatView, name, q);
    var steps := CreateSteps(q, name, true, ufields, owner, readers, using);
    DropPhaseRun(dbs, name, using);
    RunAppend(dbs, DropPlan(name, using), steps);
    CreateStepRun(dbs1, q, name, true, ufields, owner, readers, using);
    IndexPairRun(dbs1[using := c], name, ufields, using, [Exec(using, PermissionBatch(name, owner, readers), Propagate)]);
    assert dbs1[using := c][using := Unindexed(c, name)] == dbs[using := Unindexed(c, name)];
    assert Run(dbs, CreatePlan(q, name, true, ufields, owner, readers, using))
        == RunResult(dbs[using := Unindexed(c, name)], Some(DbFailure(UndefinedColumn)));
    UnindexedCreated(cleared, name, q);
  }

  lemma UnindexedCreated(cleared: Db, name: string, q: Query)
    requires !Indexed(cleared, name) && forall a :: a in cleared.acl ==> a.table != name
    ensures var u := Unindexed(Created(cleared, MatView, name, q), name);
            && Exists(u, name, MatView) && !Indexed(u, name)
            && u.relations[name].owner == cleared.session
            && forall a :: a in u.acl ==> a.table != name
  {
  }

  /** The permission batch is atomic: with an unknown role the view (and its
      index, when requested) exist, but ownership and privileges are untouched. */
  lemma CreatePermissionFailure(dbs: Databases, q: Query, name: string, materialized: bool, ufields: seq<string>,
                                owner: string, readers: seq<string>, using: string)
    requires using in dbs && WellFormed(dbs[using])
    requires WantsIndex(materialized, ufields) ==> AllColumnsIn(ufields, q.columns)
    requires !RolesExist(dbs[using], owner, readers)
    ensures var r := Run(dbs, CreatePlan(q, name, materialized, ufields, owner, readers, using));
            && r.failure == Some(DbFailure(UndefinedObject))
            && Exists(r.dbs[using], name, KindFor(materialized))
            && (Indexed(r.dbs[using], name) <==> WantsIndex(materialized, ufields))
            && r.dbs[using].relations[name].owner == dbs[using].session
            && (forall a :: a in r.dbs[using].acl ==> a.table != name)
  {
    var db := dbs[using];
    var cleared := Remove(db, name);
    var dbs1 := dbs[using := cleared];
    var c := Created(cleared, KindFor(materialized), name, q);
    var steps := CreateSteps(q, name, materialized, ufields, owner, readers, using);
    DropPhaseRun(dbs, name, using);
    RunAppend(dbs, DropPlan(name, using), steps);
    CreateStepRun(dbs1, q, name, materialized, ufields, owner, readers, using);
    var left := if WantsIndex(materialized, ufields) then Reindexed(c, name) else c;
    if WantsIndex(materialized, ufields) {
      IndexedTailRun(dbs1[using := c], q, name, ufields, owner, readers, using);
      assert left.indexes[IndexName(name)] == name;
    } else {
      PlainTailRun(dbs1[using := c], q, name, materialized, ufields, owner, readers, using);
    }
    assert dbs1[using := c][using := left] == dbs[using := left];
    assert Run(dbs, CreatePlan(q, name, materialized, ufields, owner, readers, using))
        == RunResult(dbs[using := left], Some(DbFailure(UndefinedObject)));
  }
}
