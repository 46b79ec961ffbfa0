/** `create_view_from_qs` runs its pre-create drop on the default connection
    while it creates on `using`. On any other connection this breaks
    re-creation and drops an unrelated object of the same name on the default
    database. The corrected plan (Planner.CreatePlan) drops on `using`. */
module Findings {
  import opened Wrappers
  import opened Sql
  import opened Catalog
  import opened Executor
  import opened Planner
  import opened PlanEffects

  /** As written, creating a name that already exists on a non-default
      connection always fails with a duplicate-table error. */
  lemma AsWrittenRejectsExisting(dbs: Databases, q: Query, name: string, materialized: bool, ufields: seq<string>,
                                 owner: string, readers: seq<string>, using: string)
    requires using != DefaultAlias && using in dbs && DefaultAlias in dbs
    requires name in dbs[using].relations
    ensures Run(dbs, CreatePlanAsWritten(q, name, materialized, ufields, owner, readers, using)).failure
         == Some(DbFailure(DuplicateTable))
  {
    var steps := CreateSteps(q, name, materialized, ufields, owner, readers, using);
    var dbs1 := dbs[DefaultAlias := Dropped(dbs[DefaultAlias], name)];
    DropPlanRun(dbs, name, DefaultAlias);
    RunAppend(dbs, DropPlan(name, DefaultAlias), steps);
    ApplyOne(dbs1[using], Create(KindFor(materialized), name, q));
  }

  /** As written, the create on a non-default connection also drops whatever
      carries the same name on the default database. */
  lemma AsWrittenDropsOnDefault(dbs: Databases, q: Query, name: string, materialized: bool, ufields: seq<string>,
                                owner: string, readers: seq<string>, using: string)
    requires using != DefaultAlias && using in dbs && DefaultAlias in dbs
    ensures var r := Run(dbs, CreatePlanAsWritten(q, name, materialized, ufields, owner, readers, using));
            r.dbs[DefaultAlias].relations == dbs[DefaultAlias].relations - {name}
  {
    var steps := CreateSteps(q, name, materialized, ufields, owner, readers, using);
    var dbs1 := dbs[DefaultAlias := Dropped(dbs[DefaultAlias], name)];
    DropPlanRun(dbs, name, DefaultAlias);
    RunAppend(dbs, DropPlan(name, DefaultAlias), steps);
    assert steps == CreatePlan(q, name, materialized, ufields, owner, readers, using)[2..];
    RunOnOneAlias(dbs1, steps, using);
  }

  /** As written, on a non-default connection where the name is free, the create
      succeeds exactly when the corrected one would; it then leaves the
      reference catalog on `using`, and the default database has additionally
      lost whatever carried the name. */
  lemma AsWrittenRun(dbs: Databases, q: Query, name: string, materialized: bool, ufields: seq<string>,
                     owner: string, readers: seq<string>, using: string)
    requires using != DefaultAlias && using in dbs && DefaultAlias in dbs
    requires WellFormed(dbs[using]) && name !in dbs[using].relations
    ensures var r := Run(dbs, CreatePlanAsWritten(q, name, materialized, ufields, owner, readers, using));
            && (r.failure.None? <==> CanCreate(dbs[using], q, materialized, ufields, owner, readers))
            && (r.failure.None? ==>
                  r.dbs == dbs[DefaultAlias := Dropped(dbs[DefaultAlias], name)]
                              [using := Expected(dbs[using], q, name, materialized, ufields, owner, readers)])
  {
    var steps := CreateSteps(q, name, materialized, ufields, owner, readers, using);
    var dbs1 := dbs[DefaultAlias := Dropped(dbs[DefaultAlias], name)];
    DropPlanRun(dbs, name, DefaultAlias);
    RunAppend(dbs, DropPlan(name, DefaultAlias), steps);
    StepsRun(dbs1, q, name, materialized, ufields, owner, readers, using);
  }

  /** As written, a create that succeeds on a non-default connection cannot be
      repeated: the second, identical call fails. */
  lemma AsWrittenNotRepeatable(dbs: Databases, q: Query, name: string, materialized: bool, ufields: seq<string>,
                               owner: string, readers: seq<string>, using: string)
    requires using != DefaultAlias && using in dbs && DefaultAlias in dbs
    requires WellFormed(dbs[using]) && name !in dbs[using].relations
    requires CanCreate(dbs[using], q, materialized, ufields, owner, readers)
    ensures var plan := CreatePlanAsWritten(q, name, materialized, ufields, owner, readers, using);
            var first := Run(dbs, plan);
            && first.failure.None?
            && Run(first.dbs, plan).failure == Some(DbFailure(DuplicateTable))
  {
    var plan := CreatePlanAsWritten(q, name, materialized, ufields, owner, readers, using);
    var steps := CreateSteps(q, name, materialized, ufields, owner, readers, using);
    var dbs1 := dbs[DefaultAlias := Dropped(dbs[DefaultAlias], name)];
    DropPlanRun(dbs, name, DefaultAlias);
    RunAppend(dbs, DropPlan(name, DefaultAlias), steps);
    StepsRun(dbs1, q, name, materialized, ufields, owner, readers, using);
    var first := Run(dbs, plan);
    AsWrittenRejectsExisting(first.dbs, q, name, materialized, ufields, owner, readers, using);
  }

  /** The input that shows it: the test settings' second alias `other`, two
      empty databases, and the same plain view created twice. */
  lemma AsWrittenCounterexample()
    ensures var empty := Db(map[], map[], {"postgres"}, {}, "postgres");
            var dbs := map[DefaultAlias := empty, "other" := empty];
            var q := Query("SELECT uuid FROM tests_fakemodel", [], ["uuid"], ["uuid"], []);
            var first := CreateViewFromQsAsWritten(dbs, Some(q), "fake_view", false, None, DefaultOwner, None, "other");
            && first.failure.None?
            && CreateViewFromQsAsWritten(first.dbs, Some(q), "fake_view", false, None, DefaultOwner, None, "other").failure
               == Some(DbFailure(DuplicateTable))
  {
    var empty := Db(map[], map[], {"postgres"}, {}, "postgres");
    var dbs := map[DefaultAlias := empty, "other" := empty];
    var q := Query("SELECT uuid FROM tests_fakemodel", [], ["uuid"], ["uuid"], []);
    assert "other" != DefaultAlias;
    AsWrittenNotRepeatable(dbs, q, "fake_view", false, [], DefaultOwner, [], "other");
  }

  /** The corrected create repeats cleanly on every connection. */
  lemma CorrectedRepeatable(dbs: Databases, q: Query, name: string, materialized: bool, ufields: seq<string>,
                            owner: string, readers: seq<string>, using: string)
    requires using in dbs && WellFormed(dbs[using])
    requires CanCreate(dbs[using], q, materialized, ufields, owner, readers)
    ensures var plan := CreatePlan(q, name, materialized, ufields, owner, readers, using);
            var first := Run(dbs, plan);
            && first.failure.None?
            && Run(first.dbs, plan) == first
            && forall a :: a in dbs && a != using ==> first.dbs[a] == dbs[a]
  {
    CreateRun(dbs, q, name, materialized, ufields, owner, readers, using);
    CreateIdempotent(dbs, q, name, materialized, ufields, owner, readers, using);
  }
}
