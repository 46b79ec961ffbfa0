/** The record rules of db_views/models.py that need no database: rename
    detection, the query-method default, the field cache, the save hooks and the
    choice of catalog table for the existence probe. */
module Records {
  import opened Wrappers
  import opened Sql

  /** The values the record had when it was loaded (`orig`); a missing key and
      a `None` value are both `None` here. */
  datatype Snapshot = Snapshot(viewName: Option<string>, materialized: Option<bool>)

  /** One view definition. Timestamps are readings of an abstract clock. */
  datatype DbView = DbView(
    pk: Option<int>,
    viewName: string,
    methodName: string,
    fields: Option<seq<string>>,
    ufields: Option<seq<string>>,
    materialized: bool,
    lastRefresh: Option<nat>,
    viewCreated: Option<nat>)

  /** The query-builder methods of the source model: a name that is absent has
      no such attribute; a present name yields the queryset it builds, or
      `None`. */
  type Methods = map<string, Option<Query>>

  /** The queryset the record's method builds, if the method exists. */
  function Qs(rec: DbView, methods: Methods): Option<Query>
  {
    if rec.methodName in methods then methods[rec.methodName] else None
  }

  /** Python truthiness of an optional string. */
  predicate Truthy(s: Option<string>)
  {
    s.Some? && s.value != ""
  }

  /** Python truthiness of an optional list. */
  predicate NonEmpty<T>(s: Option<seq<T>>)
  {
    s.Some? && |s.value| > 0
  }

  /** `getattr(self, 'orig', {}).get('view_name')`. */
  function OrigViewName(orig: Option<Snapshot>): Option<string>
  {
    match orig
    case None => None
    case Some(s) => s.viewName
  }

  /** `view_name_changed`: with no usable original name the current name stands
      in for it, so only a present, non-empty, different original counts. */
  function ViewNameChanged(rec: DbView, orig: Option<Snapshot>): (changed: bool)
    ensures changed <==> && orig.Some? && orig.value.viewName.Some?
                         && orig.value.viewName.value != ""
                         && orig.value.viewName.value != rec.viewName
  {
    var original := if Truthy(OrigViewName(orig)) then OrigViewName(orig).value else rec.viewName;
    original != rec.viewName
  }

  /** The method name a blank one defaults to. */
  function DefaultMethodName(viewName: string): string
  {
    "get_" + viewName + "_qs"
  }

  /** `get_get_qs_method_name`: a non-empty method name stays; a blank one
      becomes `get_<view_name>_qs`. Nothing else changes, and afterwards the
      name is never blank. */
  function GetQsMethodName(rec: DbView): (r: DbView)
    ensures r == rec.(methodName := r.methodName)
    ensures r.methodName != ""
    ensures rec.methodName != "" ==> r == rec
    ensures rec.methodName == "" ==> r.methodName == DefaultMethodName(rec.viewName)
  {
    if rec.methodName != "" then rec
    else rec.(methodName := DefaultMethodName(rec.viewName))
  }

  lemma GetQsMethodNameIdempotent(rec: DbView)
    ensures GetQsMethodName(GetQsMethodName(rec)) == GetQsMethodName(rec)
  {
  }

  /** `get_fields`: with no queryset, or with fields already non-empty, the
      record stays as it is; otherwise `fields` becomes the query's selected
      values followed by its annotation names, in order. */
  function GetFields(rec: DbView, methods: Methods): (r: DbView)
    ensures r == rec.(fields := r.fields)
    ensures Qs(rec, methods).None? || NonEmpty(rec.fields) ==> r == rec
    ensures Qs(rec, methods).Some? && !NonEmpty(rec.fields) ==>
              r.fields == Some(Qs(rec, methods).value.valuesSelect + Qs(rec, methods).value.annotationKeys)
  {
    var qs := Qs(rec, methods);
    if qs.None? || NonEmpty(rec.fields) then rec
    else rec.(fields := Some(qs.value.valuesSelect + qs.value.annotationKeys))
  }

  /** Computing the fields twice is computing them once. */
  lemma GetFieldsIdempotent(rec: DbView, methods: Methods)
    ensures GetFields(GetFields(rec, methods), methods) == GetFields(rec, methods)
  {
  }

  /** Once non-empty, the cached fields survive any change of the source's
      query shape: no method table can make `get_fields` recompute them. */
  lemma FieldsNeverRecomputed(rec: DbView, before: Methods, after: Methods)
    requires NonEmpty(GetFields(rec, before).fields)
    ensures GetFields(GetFields(rec, before), after) == GetFields(rec, before)
    ensures GetFields(GetFields(rec, before), after).fields == GetFields(rec, before).fields
  {
  }

  /** `run_save_methods`: the record counts as new when its primary key is
      falsy (`None` or 0); the method name is defaulted, then the fields are
      computed against it. */
  function RunSaveMethods(rec: DbView, methods: Methods): (r: (DbView, bool))
    ensures r.1 <==> (rec.pk.None? || rec.pk.value == 0)
    ensures r.0.methodName != ""
    ensures r.0 == rec.(methodName := r.0.methodName, fields := r.0.fields)
  {
    (GetFields(GetQsMethodName(rec), methods), rec.pk.None? || rec.pk.value == 0)
  }

  /** Because the default comes first, a blank method name resolves its fields
      through `get_<view_name>_qs`. */
  lemma SaveResolvesDefaultedMethod(rec: DbView, methods: Methods, q: Query)
    requires rec.methodName == "" && !NonEmpty(rec.fields)
    requires DefaultMethodName(rec.viewName) in methods
    requires methods[DefaultMethodName(rec.viewName)] == Some(q)
    ensures RunSaveMethods(rec, methods).0.methodName == DefaultMethodName(rec.viewName)
    ensures RunSaveMethods(rec, methods).0.fields == Some(q.valuesSelect + q.annotationKeys)
  {
  }

  /** The catalog table the existence probe reads. */
  datatype CatalogTable = PgViews | PgMatviews

  /** `view_exists` reads `pg_matviews` for a materialized record and
      `pg_views` otherwise. */
  function ExistenceTable(rec: DbView): (t: CatalogTable)
    ensures t == PgMatviews <==> rec.materialized
    ensures t == PgViews <==> !rec.materialized
  {
    if rec.materialized then PgMatviews else PgViews
  }
}
