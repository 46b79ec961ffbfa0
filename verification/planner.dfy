/** The statement plans of db_views/utils.py: what `create_view_from_qs`,
    `drop_view` and `refresh_mat_view` send, on which connection, in what order,
    and which failures each step swallows. */
module Planner {
  import opened Wrappers
  import opened Sql
  import opened Catalog
  import opened Executor

  /** The alias Django always configures. */
  const DefaultAlias: string := "default"

  /** The owner `create_view_from_qs` uses when the caller names none. */
  const DefaultOwner: string := "postgres"

  /** Both DROP forms, each in its own execute call, each ignoring a
      ProgrammingError (the name may be the other kind of object). */
  function DropPlan(name: string, using: string): seq<Exec>
  {
    [Exec(using, [DropView(name)], IgnoreProgramming),
     Exec(using, [DropMatView(name)], IgnoreProgramming)]
  }

  predicate WantsIndex(materialized: bool, ufields: seq<string>)
  {
    materialized && |ufields| > 0
  }

  /** One SELECT grant per read-only user, in input order, duplicates kept. */
  function ReaderGrants(name: string, readers: seq<string>): (g: seq<Statement>)
    ensures |g| == |readers|
    ensures forall i :: 0 <= i < |readers| ==> g[i] == Grant(name, readers[i], SelectOnly)
  {
    if |readers| == 0 then []
    else [Grant(name, readers[0], SelectOnly)] + ReaderGrants(name, readers[1..])
  }

  /** The permission batch: ownership, full rights for the owner, then the
      read-only users. */
  function PermissionBatch(name: string, owner: string, readers: seq<string>): (b: seq<Statement>)
    ensures |b| == 2 + |readers|
    ensures b[0] == AlterOwner(name, owner)
    ensures b[1] == Grant(name, owner, AllPrivileges)
    ensures forall i :: 0 <= i < |readers| ==> b[2 + i] == Grant(name, readers[i], SelectOnly)
  {
    [AlterOwner(name, owner), Grant(name, owner, AllPrivileges)] + ReaderGrants(name, readers)
  }

  /** Everything after the pre-create drop: the create, the optional index pair,
      then the permission batch; every step propagates its errors. */
  function CreateSteps(q: Query, name: string, materialized: bool, ufields: seq<string>,
                       owner: string, readers: seq<string>, using: string): seq<Exec>
  {
    [Exec(using, [Create(KindFor(materialized), name, q)], Propagate)]
    + (if WantsIndex(materialized, ufields) then
         [Exec(using, [DropIndex(IndexName(name))], Propagate),
          Exec(using, [CreateUniqueIndex(IndexName(name), name, ufields)], Propagate)]
       else [])
    + [Exec(using, PermissionBatch(name, owner, readers), Propagate)]
  }

  /** Which phase of the create sequence a step belongs to. */
  function Phase(e: Exec): nat
  {
    if |e.batch| == 0 then 3
    else match e.batch[0]
      case DropView(_) => 0
      case DropMatView(_) => 0
      case Create(_, _, _) => 1
      case DropIndex(_) => 2
      case CreateUniqueIndex(_, _, _) => 2
      case _ => 3
  }

  predicate CreatesIndex(e: Exec)
  {
    exists j :: 0 <= j < |e.batch| && e.batch[j].CreateUniqueIndex?
  }

  /** The shape every create plan has, whichever connection its drops target:
      drop both kinds, then create the requested kind, then (only for a
      materialized view with unique fields) drop and create `unique_<name>` over
      the fields in input order, then the one permission batch — phases never go
      backwards. */
  predicate CreateShape(p: seq<Exec>, q: Query, name: string, materialized: bool, ufields: seq<string>,
                        owner: string, readers: seq<string>, using: string)
  {
    && |p| == (if WantsIndex(materialized, ufields) then 6 else 4)
    && p[0].batch == [DropView(name)] && p[0].policy == IgnoreProgramming
    && p[1].batch == [DropMatView(name)] && p[1].policy == IgnoreProgramming
    && p[2] == Exec(using, [Create(KindFor(materialized), name, q)], Propagate)
    && (WantsIndex(materialized, ufields) ==>
          && p[3] == Exec(using, [DropIndex(IndexName(name))], Propagate)
          && p[4] == Exec(using, [CreateUniqueIndex(IndexName(name), name, ufields)], Propagate))
    && p[|p| - 1] == Exec(using, PermissionBatch(name, owner, readers), Propagate)
    && (forall i, j :: 0 <= i < j < |p| ==> Phase(p[i]) <= Phase(p[j]))
    && ((exists i :: 0 <= i < |p| && CreatesIndex(p[i])) <==> WantsIndex(materialized, ufields))
  }

  lemma CreateStepsShape(q: Query, name: string, materialized: bool, ufields: seq<string>,
                         owner: string, readers: seq<string>, using: string, drops: string)
    ensures CreateShape(DropPlan(name, drops) + CreateSteps(q, name, materialized, ufields, owner, readers, using),
                        q, name, materialized, ufields, owner, readers, using)
  {
  }

  /** The plan as `create_view_from_qs` issues it: the pre-create drop goes to
      the default connection whatever `using` says. */
  function CreatePlanAsWritten(q: Query, name: string, materialized: bool, ufields: seq<string>,
                               owner: string, readers: seq<string>, using: string): (p: seq<Exec>)
    ensures CreateShape(p, q, name, materialized, ufields, owner, readers, using)
    ensures p[0].using == DefaultAlias && p[1].using == DefaultAlias
  {
    CreateStepsShape(q, name, materialized, ufields, owner, readers, using, DefaultAlias);
    DropPlan(name, DefaultAlias) + CreateSteps(q, name, materialized, ufields, owner, readers, using)
  }

  /** The plan with the pre-create drop on the same connection as the create. */
  function CreatePlan(q: Query, name: string, materialized: bool, ufields: seq<string>,
                      owner: string, readers: seq<string>, using: string): (p: seq<Exec>)
    ensures CreateShape(p, q, name, materialized, ufields, owner, readers, using)
    ensures forall i :: 0 <= i < |p| ==> p[i].using == using
  {
    CreateStepsShape(q, name, materialized, ufields, owner, readers, using, using);
    DropPlan(name, using) + CreateSteps(q, name, materialized, ufields, owner, readers, using)
  }

  /** On the default connection the two plans are the same plan. */
  lemma PlansAgreeOnDefault(q: Query, name: string, materialized: bool, ufields: seq<string>,
                            owner: string, readers: seq<string>)
    ensures CreatePlanAsWritten(q, name, materialized, ufields, owner, readers, DefaultAlias)
         == CreatePlan(q, name, materialized, ufields, owner, readers, DefaultAlias)
  {
  }

  /** `create_view_from_qs` as written. The connection lookup comes first, then
      compiling the queryset (a missing queryset fails here, before any
      statement), then the plan; `None` unique fields and `None` read-only users
      behave as empty lists. */
  function CreateViewFromQsAsWritten(dbs: Databases, qs: Option<Query>, name: string, materialized: bool,
                                     ufields: Option<seq<string>>, owner: string,
                                     readOnly: Option<seq<string>>, using: string): (r: RunResult)
    ensures using !in dbs ==> r == RunResult(dbs, Some(UnknownConnection(using)))
    ensures using in dbs && qs.None? ==> r == RunResult(dbs, Some(NoQuery))
  {
    if using !in dbs then RunResult(dbs, Some(UnknownConnection(using)))
    else if qs.None? then RunResult(dbs, Some(NoQuery))
    else Run(dbs, CreatePlanAsWritten(qs.value, name, materialized, GetOr(ufields, []), owner,
                                      GetOr(readOnly, []), using))
  }

  /** A missing list of unique fields or of read-only users behaves exactly as
      an empty one. */
  lemma CreateDefaultsEmpty(dbs: Databases, q: Query, name: string, materialized: bool,
                            owner: string, using: string)
    ensures CreateViewFromQsAsWritten(dbs, Some(q), name, materialized, None, owner, None, using)
         == CreateViewFromQsAsWritten(dbs, Some(q), name, materialized, Some([]), owner, Some([]), using)
    ensures CreateViewFromQs(dbs, Some(q), name, materialized, None, owner, None, using)
         == CreateViewFromQs(dbs, Some(q), name, materialized, Some([]), owner, Some([]), using)
  {
  }

  /** `create_view_from_qs` with the pre-create drop on `using`. */
  function CreateViewFromQs(dbs: Databases, qs: Option<Query>, name: string, materialized: bool,
                            ufields: Option<seq<string>>, owner: string,
                            readOnly: Option<seq<string>>, using: string): (r: RunResult)
    ensures using !in dbs ==> r == RunResult(dbs, Some(UnknownConnection(using)))
    ensures using in dbs && qs.None? ==> r == RunResult(dbs, Some(NoQuery))
    ensures r.dbs.Keys == dbs.Keys
    ensures forall a :: a in dbs && a != using ==> r.dbs[a] == dbs[a]
  {
    if using !in dbs then RunResult(dbs, Some(UnknownConnection(using)))
    else if qs.None? then RunResult(dbs, Some(NoQuery))
    else
      var p := CreatePlan(qs.value, name, materialized, GetOr(ufields, []), owner, GetOr(readOnly, []), using);
      RunOnOneAlias(dbs, p, using);
      Run(dbs, p)
  }

  /** A plan that only talks to `using` leaves every other connection alone. */
  lemma {:induction false} RunOnOneAlias(dbs: Databases, p: seq<Exec>, using: string)
    requires forall i :: 0 <= i < |p| ==> p[i].using == using
    ensures forall a :: a in dbs && a != using ==> Run(dbs, p).dbs[a] == dbs[a]
    decreases |p|
  {
    if |p| > 0 && using in dbs {
      match ApplyBatch(dbs[using], p[0].batch)
      case Ok(d) => RunOnOneAlias(dbs[using := d], p[1..], using);
      case Err(_) => RunOnOneAlias(dbs, p[1..], using);
    }
  }

  /** `drop_view`: both DROP forms on `using`, each swallowing ProgrammingError.
      It fails only for an unknown alias; afterwards no object of either kind
      carries the name, nothing else is dropped, and dropping a name that does
      not exist changes nothing at all. */
  function DropViewOn(dbs: Databases, name: string, using: string): (r: RunResult)
    ensures r.failure.None? <==> using in dbs
    ensures r.dbs.Keys == dbs.Keys
    ensures using in dbs ==> r.dbs[using].relations == dbs[using].relations - {name}
    ensures forall a :: a in dbs && a != using ==> r.dbs[a] == dbs[a]
    ensures using in dbs ==> r.dbs == dbs[using := Dropped(dbs[using], name)]
    ensures using in dbs && name !in dbs[using].relations ==> r.dbs == dbs
  {
    if using in dbs then DropPlanRun(dbs, name, using); Run(dbs, DropPlan(name, using))
    else Run(dbs, DropPlan(name, using))
  }

  /** The catalog after both DROP forms: the relation and its dependents are gone
      if it existed, otherwise nothing changed. */
  function Dropped(db: Db, name: string): Db
  {
    if name in db.relations then Remove(db, name) else db
  }

  lemma DropPlanRun(dbs: Databases, name: string, using: string)
    requires using in dbs
    ensures Run(dbs, DropPlan(name, using)) == RunResult(dbs[using := Dropped(dbs[using], name)], None)
  {
    var p := DropPlan(name, using);
    var db := dbs[using];
    var mid := if name in db.relations && db.relations[name].kind == View then dbs[using := Remove(db, name)] else dbs;
    ApplyOne(db, DropView(name));
    assert dbs[using := db] == dbs;
    ApplyOne(mid[using], DropMatView(name));
    assert Run(dbs, p) == Run(mid, p[1..]);
    assert Run(mid, p[1..]) == Run(dbs[using := Dropped(db, name)], p[2..]);
  }

  /** `refresh_mat_view`: always the concurrent form; `concurrently` is ignored. */
  function RefreshPlan(name: string, using: string, concurrently: bool): seq<Exec>
  {
    [Exec(using, [Refresh(name)], Propagate)]
  }

  /** A refresh changes no catalog state. It succeeds exactly when `name` is a
      materialized view with a unique index; without the index the server raises
      the OperationalError; a plain view or a missing name raises a
      ProgrammingError. */
  function RefreshMatView(dbs: Databases, name: string, using: string, concurrently: bool): (r: RunResult)
    ensures r.dbs == dbs
    ensures r.failure.None? <==> using in dbs && Exists(dbs[using], name, MatView) && Indexed(dbs[using], name)
    ensures (r.failure == Some(DbFailure(MissingUniqueIndex)))
              <==> (using in dbs && Exists(dbs[using], name, MatView) && !Indexed(dbs[using], name))
    ensures using in dbs && !Exists(dbs[using], name, MatView) ==>
              r.failure.Some? && r.failure.value.DbFailure? && IsProgrammingError(r.failure.value.error)
  {
    var p := RefreshPlan(name, using, concurrently);
    assert Run(dbs, p[1..]) == RunResult(dbs, None);
    if using !in dbs then Run(dbs, p)
    else
      ApplyOne(dbs[using], Refresh(name));
      assert dbs[using := dbs[using]] == dbs;
      Run(dbs, p)
  }

  /** The `concurrently` argument changes nothing. */
  lemma RefreshIgnoresConcurrently(dbs: Databases, name: string, using: string)
    ensures RefreshMatView(dbs, name, using, true) == RefreshMatView(dbs, name, using, false)
    ensures RefreshPlan(name, using, false) == [Exec(using, [Refresh(name)], Propagate)]
  {
  }
}
