/** The methods of `DbView` in db_views/models.py that touch the database. They
    all use the default connection. The clock is a parameter; a clock that never
    goes backwards gives readings `t1 <= t2`. */
module Lifecycle {
  import opened Wrappers
  import opened Sql
  import opened Catalog
  import opened Executor
  import opened Planner
  import opened PlanEffects
  import opened Records

  /** What a record operation leaves behind: the record (as it would be saved),
      the databases, and the error it raises, if any. */
  datatype Outcome = Outcome(rec: DbView, dbs: Databases, failure: Option<Failure>)

  /** `view_exists`: the probe of the catalog table matching the record's flag,
      by name equality. */
  function ViewExists(rec: DbView, dbs: Databases): (b: bool)
    requires DefaultAlias in dbs
    ensures b <==> Exists(dbs[DefaultAlias], rec.viewName, KindFor(rec.materialized))
  {
    var db := dbs[DefaultAlias];
    match ExistenceTable(rec)
    case PgMatviews => rec.viewName in db.relations && db.relations[rec.viewName].kind == MatView
    case PgViews => rec.viewName in db.relations && db.relations[rec.viewName].kind == View
  }

  /** `_refresh_mat_view`. The not-materialized and does-not-exist checks only
      log; the REFRESH is always sent. The missing-index OperationalError is
      swallowed with the timestamp untouched; any other error propagates; on
      success the refresh time becomes `now`. The catalog never changes. */
  function RefreshRecord(rec: DbView, dbs: Databases, now: nat): (r: Outcome)
    requires DefaultAlias in dbs
    ensures r.dbs == dbs
    ensures r.rec == rec || r.rec == rec.(lastRefresh := Some(now))
    ensures Exists(dbs[DefaultAlias], rec.viewName, MatView) && Indexed(dbs[DefaultAlias], rec.viewName) ==>
              r.failure.None? && r.rec == rec.(lastRefresh := Some(now))
    ensures Exists(dbs[DefaultAlias], rec.viewName, MatView) && !Indexed(dbs[DefaultAlias], rec.viewName) ==>
              r.failure.None? && r.rec == rec
    ensures !Exists(dbs[DefaultAlias], rec.viewName, MatView) ==>
              r.rec == rec && r.failure.Some? && r.failure.value.DbFailure?
              && IsProgrammingError(r.failure.value.error)
  {
    var run := RefreshMatView(dbs, rec.viewName, DefaultAlias, true);
    if run.failure.None? then Outcome(rec.(lastRefresh := Some(now)), run.dbs, None)
    else if run.failure.value.DbFailure? && IsOperationalError(run.failure.value.error) then Outcome(rec, run.dbs, None)
    else Outcome(rec, run.dbs, run.failure)
  }

  /** The refresh time only moves on a successful refresh, and only forward
      when the clock does. */
  lemma RefreshTimestampAdvancesOnlyOnSuccess(rec: DbView, dbs: Databases, now: nat)
    requires DefaultAlias in dbs
    requires rec.lastRefresh.Some? ==> rec.lastRefresh.value <= now
    ensures var r := RefreshRecord(rec, dbs, now);
            && (r.rec.lastRefresh != rec.lastRefresh ==>
                  Exists(dbs[DefaultAlias], rec.viewName, MatView) && Indexed(dbs[DefaultAlias], rec.viewName))
            && (r.rec.lastRefresh.Some? ==> r.rec.lastRefresh.value <= now)
            && (rec.lastRefresh.Some? ==> r.rec.lastRefresh.Some? && rec.lastRefresh.value <= r.rec.lastRefresh.value)
  {
  }

  /** `_create_view` (default connection, owner `postgres`, no read-only
      users). A missing queryset only logs, then fails while compiling, before
      any statement: nothing changes. On success both timestamps are set; on
      any failure neither is. */
  function CreateViewRecord(rec: DbView, methods: Methods, dbs: Databases, t1: nat, t2: nat): (r: Outcome)
    requires DefaultAlias in dbs
    requires t1 <= t2
    ensures Qs(rec, methods).None? ==> r == Outcome(rec, dbs, Some(NoQuery))
    ensures r.failure.Some? ==> r.rec == rec
    ensures r.failure.None? ==> r.rec == rec.(lastRefresh := Some(t1), viewCreated := Some(t2))
    ensures r.failure.None? ==> r.rec.lastRefresh.value <= r.rec.viewCreated.value
    ensures forall a :: a in dbs && a != DefaultAlias ==> a in r.dbs && r.dbs[a] == dbs[a]
  {
    var run := CreateViewFromQs(dbs, Qs(rec, methods), rec.viewName, rec.materialized, rec.ufields,
                                DefaultOwner, None, DefaultAlias);
    if run.failure.None? then Outcome(rec.(lastRefresh := Some(t1), viewCreated := Some(t2)), run.dbs, None)
    else Outcome(rec, run.dbs, run.failure)
  }

  /** On the default connection the record's create is the same whether the
      pre-create drop is written against `using` or against the default. */
  lemma RecordCreateUnaffectedByDropAlias(rec: DbView, methods: Methods, dbs: Databases)
    ensures CreateViewFromQs(dbs, Qs(rec, methods), rec.viewName, rec.materialized, rec.ufields,
                             DefaultOwner, None, DefaultAlias)
         == CreateViewFromQsAsWritten(dbs, Qs(rec, methods), rec.viewName, rec.materialized, rec.ufields,
                                      DefaultOwner, None, DefaultAlias)
  {
    if DefaultAlias in dbs && Qs(rec, methods).Some? {
      PlansAgreeOnDefault(Qs(rec, methods).value, rec.viewName, rec.materialized, GetOr(rec.ufields, []),
                          DefaultOwner, []);
    }
  }

  /** A create on a consistent default database succeeds exactly when the
      queryset exists, `postgres` is a role, and (for a materialized view with
      unique fields) those fields are columns of the query; afterwards the
      existence probe finds the view, and the unique index exists exactly when
      the record is materialized with unique fields. */
  lemma CreateViewRecordEffect(rec: DbView, methods: Methods, dbs: Databases, t1: nat, t2: nat)
    requires DefaultAlias in dbs && WellFormed(dbs[DefaultAlias]) && t1 <= t2
    ensures var r := CreateViewRecord(rec, methods, dbs, t1, t2);
            && (r.failure.None? <==>
                  Qs(rec, methods).Some?
                  && CanCreate(dbs[DefaultAlias], Qs(rec, methods).value, rec.materialized,
                               GetOr(rec.ufields, []), DefaultOwner, []))
            && (r.failure.None? ==>
                  && ViewExists(r.rec, r.dbs)
                  && (Indexed(r.dbs[DefaultAlias], rec.viewName) <==> rec.materialized && NonEmpty(rec.ufields)))
  {
    if Qs(rec, methods).Some? {
      CreateRun(dbs, Qs(rec, methods).value, rec.viewName, rec.materialized, GetOr(rec.ufields, []),
                DefaultOwner, [], DefaultAlias);
    }
  }

  /** `drop_view`: the argument when truthy, the record's own name otherwise;
      both kinds are dropped on the default database and nothing else. */
  function DropViewRecord(rec: DbView, viewName: Option<string>, dbs: Databases): (r: RunResult)
    requires DefaultAlias in dbs
    ensures r.failure.None? && r.dbs.Keys == dbs.Keys
    ensures Truthy(viewName) ==>
              r.dbs[DefaultAlias].relations == dbs[DefaultAlias].relations - {viewName.value}
    ensures !Truthy(viewName) ==>
              r.dbs[DefaultAlias].relations == dbs[DefaultAlias].relations - {rec.viewName}
    ensures forall a :: a in dbs && a != DefaultAlias ==> r.dbs[a] == dbs[a]
    ensures r.dbs == dbs[DefaultAlias := Dropped(dbs[DefaultAlias],
                                                 if Truthy(viewName) then viewName.value else rec.viewName)]
  {
    DropViewOn(dbs, if Truthy(viewName) then viewName.value else rec.viewName, DefaultAlias)
  }

  /** `drop_old_view_if_changed` (the whole of `run_after_pk_methods`): when the
      name changed, the original name is dropped and the current one is left
      alone; otherwise no statement is sent. */
  function DropOldViewIfChanged(rec: DbView, orig: Option<Snapshot>, dbs: Databases): (r: RunResult)
    requires DefaultAlias in dbs
    ensures !ViewNameChanged(rec, orig) ==> r == RunResult(dbs, None)
    ensures ViewNameChanged(rec, orig) ==>
              && r.failure.None? && DefaultAlias in r.dbs
              && r.dbs[DefaultAlias].relations == dbs[DefaultAlias].relations - {orig.value.viewName.value}
              && (rec.viewName in r.dbs[DefaultAlias].relations <==> rec.viewName in dbs[DefaultAlias].relations)
    ensures ViewNameChanged(rec, orig) ==>
              r.dbs == dbs[DefaultAlias := Dropped(dbs[DefaultAlias], orig.value.viewName.value)]
  {
    if !ViewNameChanged(rec, orig) then RunResult(dbs, None)
    else
      var original := OrigViewName(orig);
      if Truthy(original) then DropViewRecord(rec, original, dbs) else RunResult(dbs, None)
  }

  /** A change of `materialized` alone drops nothing: only the name is
      compared. */
  lemma RetypeAloneDropsNothing(rec: DbView, orig: Option<Snapshot>, dbs: Databases)
    requires DefaultAlias in dbs
    requires orig.Some? && orig.value.viewName == Some(rec.viewName)
    requires orig.value.materialized == Some(!rec.materialized)
    ensures DropOldViewIfChanged(rec, orig, dbs) == RunResult(dbs, None)
  {
  }

  /** Renaming A to B and then creating: B exists as the requested kind and
      nothing of either kind is left under A. */
  lemma RenameThenCreate(rec: DbView, orig: Option<Snapshot>, methods: Methods, dbs: Databases, t1: nat, t2: nat)
    requires DefaultAlias in dbs && WellFormed(dbs[DefaultAlias]) && t1 <= t2
    requires ViewNameChanged(rec, orig)
    ensures var dropped := DropOldViewIfChanged(rec, orig, dbs);
            DefaultAlias in dropped.dbs &&
            var r := CreateViewRecord(rec, methods, dropped.dbs, t1, t2);
            r.failure.None? ==>
              && ViewExists(r.rec, r.dbs)
              && orig.value.viewName.value !in r.dbs[DefaultAlias].relations
  {
    var dropped := DropOldViewIfChanged(rec, orig, dbs);
    var a := orig.value.viewName.value;
    var cleared := Remove(dbs[DefaultAlias], a);
    DropPlanRun(dbs, a, DefaultAlias);
    if a !in dbs[DefaultAlias].relations {
      RemoveAbsent(dbs[DefaultAlias], a);
    }
    RemoveKeepsWellFormed(dbs[DefaultAlias], a);
    assert dropped.dbs == dbs[DefaultAlias := cleared];
    CreateViewRecordEffect(rec, methods, dropped.dbs, t1, t2);
    var r := CreateViewRecord(rec, methods, dropped.dbs, t1, t2);
    if r.failure.None? {
      var q := Qs(rec, methods).value;
      CreateRun(dropped.dbs, q, rec.viewName, rec.materialized, GetOr(rec.ufields, []), DefaultOwner, [], DefaultAlias);
    }
  }

  /** The store of records, by primary key. */
  type Store = map<int, DbView>

  datatype Deleted = Deleted(store: Store, dbs: Databases) | NotSaved

  /** `delete`: the record leaves the store first, then its view (of either
      kind) is dropped from the default database. A record without a primary
      key cannot be deleted. */
  function Delete(store: Store, rec: DbView, dbs: Databases): (r: Deleted)
    requires DefaultAlias in dbs
    ensures rec.pk.None? <==> r.NotSaved?
    ensures r.Deleted? ==>
              && r.store == store - {rec.pk.value}
              && DefaultAlias in r.dbs
              && r.dbs[DefaultAlias].relations == dbs[DefaultAlias].relations - {rec.viewName}
              && !ViewExists(rec, r.dbs)
              && !ViewExists(rec.(materialized := !rec.materialized), r.dbs)
  {
    if rec.pk.None? then NotSaved
    else
      var store' := store - {rec.pk.value};
      Deleted(store', DropViewRecord(rec, None, dbs).dbs)
  }
}
