# django-db-views: the view lifecycle, modelled in Dafny

This project models the core of django-db-views. A `DbView` record declares a
PostgreSQL view, plain or materialized, whose defining query comes from a
named query-builder method on a Django model. The core turns such a record
into an ordered sequence of DDL and permission statements. It creates,
refreshes and drops the view, and it decides when an old view must be dropped
because the record was renamed.

The model has nine modules:

- `Wrappers` (`wrappers.dfy`): Python's optional values and the `or []` default.
- `Sql` (`sql.dfy`): the statements as a datatype, and their text. Also the `", "`-joined column list of the unique index, with a reader that splits it back.
- `Catalog` (`catalog.dfy`): an abstract PostgreSQL catalog that gives each statement its meaning. The catalog holds relations by name (kind, columns, owner), indexes (index name to relation), roles and granted privileges. Each server error is classed the way the driver reports it. SQLSTATE class 42 becomes `ProgrammingError`. The missing unique index on `REFRESH ... CONCURRENTLY` (class 55) becomes `OperationalError`. A multi-statement execute is atomic.
- `Executor` (`executor.dfy`): runs a plan. Each step is one `cursor.execute` on a named connection. A step may swallow `ProgrammingError`, as the `try/except` in both `drop_view`s does. Each step commits on its own, as it does on an autocommitting connection outside `transaction.atomic`, so later failures never undo earlier steps.
- `Planner` (`planner.dfy`): the plans of `db_views/utils.py`.
- `PlanEffects` (`effects.dfy`): what those plans do to the catalog. `Expected` is a reference description of the catalog after a successful create. The module gives the exact condition for success, shows what a failed create leaves behind, and proves idempotence.
- `Findings` (`findings.dfy`): the drop-connection discrepancy described below.
- `Records` (`records.dfy`) and `Lifecycle` (`lifecycle.dfy`): the `DbView` methods of `db_views/models.py`. `Records` holds the pure record rules. `Lifecycle` holds the methods that touch the default database.

External collaborators become parameters:

- **Query method lookup:** the `hasattr`/`getattr` calls on the content type's model class become a `Methods` map from method name to an optional compiled `Query`. The `Query` carries the SQL text, parameters, output columns, `values_select` and annotation names.
- **Clock:** `timezone.now()` becomes a `nat` parameter.
- **Databases:** the connections become a map from alias to catalog.
- **Original snapshot:** the `orig` dictionary becomes an optional `Snapshot`.

`run_after_pk_methods` (db_views/models.py:141-142) consists of the single call `drop_old_view_if_changed`. `DropOldViewIfChanged` models both.

In a few places the code does less than its log messages suggest. The model follows the code:

- **Refresh checks only log.** `_refresh_mat_view`'s "not materialized" and "does not exist" checks only log. The `REFRESH` is still sent. On a plain view or a missing name it raises a `ProgrammingError`, which propagates; it is not a no-op.
- **Only a rename triggers a drop.** A change of `materialized` alone drops nothing: `view_name_changed` compares names only.
- **A missing queryset raises.** `_create_view` with no queryset logs a warning and then fails while compiling the query. No statement has been sent by then. The model reports this as a `NoQuery` failure, not as a quiet no-op.
- **Drops swallow all `ProgrammingError`s.** `drop_view` swallows every `ProgrammingError`, not only "does not exist" errors.

## Model

| member | source | states |
|---|---|---|
| Sql.KeywordChoice | db_views/utils.py:17 | The create keyword is `MATERIALIZED VIEW` exactly when `materialized`, otherwise `VIEW`. Distinct kinds get distinct keywords. |
| Sql.CreateText | db_views/utils.py:17-19 | The CREATE text starts with ` CREATE MATERIALIZED VIEW ` exactly when `materialized`, and carries the double-quoted name right after the keyword. |
| Sql.DropText | db_views/utils.py:45-46 | Both DROP texts carry the double-quoted name right after their keyword. |
| Sql.JoinSplitRoundTrip | db_views/utils.py:24 | The index column list is the unique fields joined by `", "` in input order. It reads back as exactly those fields whenever no field holds a comma. |
| Planner.ReaderGrants | db_views/utils.py:38-39 | There is one `GRANT SELECT` per read-only user, in input order, with duplicates kept. |
| Planner.PermissionBatch | db_views/utils.py:34-39 | The permission batch is `ALTER ... OWNER TO owner`, then `GRANT ALL ... TO owner`, then the user grants at positions 2.. in input order. |
| Planner.CreatePlanAsWritten | db_views/utils.py:14-41 | The create plan as the source issues it. It drops both kinds, creates the requested kind, and issues the index drop and create only for a materialized view with unique fields (over `unique_<name>`, fields in order). It ends with one permission batch. Phases never go backwards, and both drops target the default alias. |
| Planner.CreatePlan | db_views/utils.py:14-41 | The same shape as `CreatePlanAsWritten`, with every step, drops included, on `using`. |
| Planner.PlansAgreeOnDefault | db_views/utils.py:18 | On the default connection, the as-written plan and the corrected plan coincide. |
| Planner.CreateViewFromQsAsWritten | db_views/utils.py:4-18 | An unknown alias fails first. A missing queryset fails next, before any statement, leaving every database unchanged. |
| Planner.CreateDefaultsEmpty | db_views/utils.py:15-21 | `None` unique fields and `None` read-only users give the same result as empty lists, in both versions of the create. |
| Planner.CreateViewFromQs | db_views/utils.py:4-18 | The same failure order as the as-written version. Additionally, no connection other than `using` is touched. |
| Planner.RunOnOneAlias | db_views/utils.py:25-41 | A plan whose steps all name one alias leaves every other database as it was. |
| Planner.DropViewOn | db_views/utils.py:43-53 | `drop_view` fails only for an unknown alias. Afterwards the name is gone, whatever its kind. The database on `using` becomes exactly `Dropped`: the relation is removed with its own indexes and grants, and the indexes and grants of other relations survive. No other database changes. Dropping a missing name changes nothing. |
| Planner.RefreshMatView | db_views/utils.py:55-59 | The refresh changes no state. It succeeds exactly on a materialized view with a unique index. Without the index it raises the OperationalError. A plain view or a missing name raises a ProgrammingError. |
| Planner.RefreshIgnoresConcurrently | db_views/utils.py:55-57 | The statement is always `REFRESH MATERIALIZED VIEW CONCURRENTLY name`, whatever `concurrently` says. |
| PlanEffects.Expected | db_views/utils.py:18-41 | Describes the catalog after a create, without reference to the plan. The old object and its dependents are gone. Exactly one relation of the requested kind stands under the name, owned by the owner. `unique_<name>` is on it exactly when requested. The owner has ALL and each reader has SELECT. Grants on other tables, indexes on other relations (except one already named `unique_<name>` when the index is requested), roles and the session role are unchanged, and no index appears besides `unique_<name>`. |
| PlanEffects.PermissionBatchRun | db_views/utils.py:34-41 | The permission batch either applies ownership and all grants, or fails with an unknown role and changes nothing. |
| PlanEffects.ReaderGrantsRun | db_views/utils.py:38-39 | The user grants succeed exactly when every user is a role, and then add one SELECT privilege per user. |
| PlanEffects.StepsRun | db_views/utils.py:19-41 | Starting from a free name, the steps after the drop succeed exactly when every named role exists and the unique fields are columns of the view. They then yield `Expected`. |
| PlanEffects.CreateRun | db_views/utils.py:18-41 | On a consistent catalog, a create succeeds exactly when every named role exists and the unique fields are columns of the view. It then leaves exactly the `Expected` catalog on `using`. |
| PlanEffects.ExpectedIdempotent | db_views/utils.py:18-41 | Re-creating over the reference catalog reproduces it. |
| PlanEffects.CreateIdempotent | db_views/utils.py:18-41 | A second identical create succeeds and leaves every database exactly as the first one did. |
| PlanEffects.CreateNoRollback | db_views/utils.py:25-41 | When a unique field is not a column, the create fails with an undefined-column error. The materialized view it already created remains, unindexed, owned by the session role, with no grants. The permission batch never ran. |
| PlanEffects.CreatePermissionFailure | db_views/utils.py:34-41 | With an unknown role, the create fails after the view (and its index, when requested) exist. Ownership and privileges are left untouched. |
| PlanEffects.DropPhaseRun | db_views/utils.py:18 | On a consistent catalog, the pre-create drop removes the name and everything that depends on it, and never fails. |
| Findings.AsWrittenRejectsExisting | db_views/utils.py:18-27 | As written, creating a name that already exists on a non-default connection always fails with a duplicate-table error. |
| Findings.AsWrittenRun | db_views/utils.py:14-41 | As written, on a non-default connection where the name is free, the create succeeds exactly when the corrected one would. On success the connection holds the reference catalog `Expected`, and the default database has lost the name with its dependents. |
| Findings.AsWrittenDropsOnDefault | db_views/utils.py:18 | As written, a create on another connection drops the same-named object on the default database. |
| Findings.AsWrittenNotRepeatable | db_views/utils.py:14-27 | As written, a create that succeeds on a non-default connection fails when repeated identically. |
| Findings.AsWrittenCounterexample | db_views/utils.py:18 | The concrete case: alias `other`, empty databases, and `fake_view` created twice. The second call fails. |
| Findings.CorrectedRepeatable | db_views/utils.py:18 | With the drop on `using`, a create repeats cleanly and touches no other connection. |
| Records.ViewNameChanged | db_views/models.py:23-26 | True exactly when there is an original snapshot whose name is present, non-empty and different from the current name. |
| Records.GetQsMethodName | db_views/models.py:131-134 | A non-empty method name is kept. A blank one becomes `get_<view_name>_qs`. Only the method name changes, and it is never blank afterwards. |
| Records.GetQsMethodNameIdempotent | db_views/models.py:131-134 | Defaulting the method name twice is defaulting it once. |
| Records.GetFields | db_views/models.py:123-129 | With no queryset, or with non-empty fields, the record is unchanged. Otherwise `fields` becomes `values_select` followed by the annotation names, in order. Only `fields` changes. |
| Records.GetFieldsIdempotent | db_views/models.py:123-129 | Computing the fields twice is computing them once. |
| Records.FieldsNeverRecomputed | db_views/models.py:123-129 | Once non-empty, the cached fields survive any later change of the source's query shape. |
| Records.RunSaveMethods | db_views/models.py:136-139 | "New" means the primary key is `None` or 0. The method name ends up non-empty, and only the method name and fields change. |
| Records.SaveResolvesDefaultedMethod | db_views/models.py:136-139 | The default comes first, so a blank method name gets its fields from `get_<view_name>_qs`. |
| Records.ExistenceTable | db_views/models.py:58-61 | The probe reads `pg_matviews` exactly when the record is materialized, and `pg_views` otherwise. |
| Lifecycle.ViewExists | db_views/models.py:55-64 | True exactly when the default database has an object of the record's kind under its name. |
| Lifecycle.RefreshRecord | db_views/models.py:72-86 | The REFRESH is always sent. On success the refresh time becomes now. A missing index is swallowed, with the record unchanged. A plain view or a missing name raises, with the record unchanged. The catalog never changes. |
| Lifecycle.RefreshTimestampAdvancesOnlyOnSuccess | db_views/models.py:79-86 | The refresh time changes only when the refresh can succeed. It never moves backwards under a monotone clock. |
| Lifecycle.CreateViewRecord | db_views/models.py:94-102 | With no queryset, nothing changes and a `NoQuery` failure is raised. On failure neither timestamp moves. On success the refresh time and the creation time are both set, with refresh ≤ created. Other connections are untouched. |
| Lifecycle.RecordCreateUnaffectedByDropAlias | db_views/models.py:97-99 | The record's create uses the default connection, where the as-written and corrected plans agree. |
| Lifecycle.CreateViewRecordEffect | db_views/models.py:94-102 | Succeeds exactly when the queryset exists, `postgres` is a role, and the unique fields are columns. The view then exists, and its unique index exists exactly when the record is materialized with unique fields. |
| Lifecycle.DropViewRecord | db_views/models.py:104-114 | Drops the argument when it is truthy, otherwise the record's own name, in both kinds, on the default database. The result is exactly `Dropped` applied to that database, so indexes and grants of other relations survive, and other databases are unchanged. It never fails. |
| Lifecycle.DropOldViewIfChanged | db_views/models.py:116-121 | After a rename it drops exactly the original name and leaves the current name alone. The default database then becomes exactly `Dropped` for the original name, and no other database changes. Otherwise it sends nothing. |
| Lifecycle.RetypeAloneDropsNothing | db_views/models.py:116-121 | A change of `materialized` alone sends no statement. |
| Lifecycle.RenameThenCreate | db_views/models.py:116-121 | Renaming A to B and then creating leaves B existing and nothing of either kind under A. |
| Lifecycle.Delete | db_views/models.py:144-146 | Removes the record from the store, then the view of either kind from the default database. A record without a primary key cannot be deleted. |

## Findings

| source | as written | input that shows it | evidently intended | confidence | as-written member | corrected member |
|---|---|---|---|---|---|---|
| db_views/utils.py:18 | `drop_view(view_name)` omits `using`, so the pre-create drop always runs on `default` while the create runs on `using` | `using="other"` with both databases empty; creating the plain view `fake_view` twice: the second call fails with a duplicate-table error, and each call also drops any `fake_view` on `default` | `drop_view(view_name, using=using)` | medium, not executed | Findings.AsWrittenNotRepeatable | Findings.CorrectedRepeatable |

`Planner.CreateViewFromQs` is the corrected definition, and the record layer uses it. The record layer only ever uses the default connection, where the two versions agree (`Lifecycle.RecordCreateUnaffectedByDropAlias`).

## Left out

- Running real SQL. The catalog records which objects exist, their kinds and columns, indexes, owners and grants. It does not hold row data, so these are not modelled:
  - view contents;
  - unique violations while building an index;
  - a `REFRESH` that actually recomputes.
- Identifier case folding. PostgreSQL folds unquoted names to lower case. The index, `ALTER`, `GRANT` and `REFRESH` statements use the bare name. The catalog treats every name exactly as written.
- Schemas. `CREATE` and `DROP` resolve the name through the search path, while `ALTER` and `GRANT` name `public.<name>` (db_views/utils.py:35-39). `pg_views` and `pg_matviews` list every schema (db_views/models.py:59-61). The catalog has a single flat namespace.
- Identifier length. PostgreSQL cuts names to 63 bytes, while `view_name` allows 255 characters (db_views/models.py:8). The catalog keeps whole names, so two long names that share a 63-byte prefix stay distinct.
- Shared namespace for indexes and relations. In PostgreSQL they share one namespace; the catalog keeps them apart.
- Errors outside the catalog's meaning. SQL syntax errors in the compiled query, privilege errors and connection failures are not modelled.
- Quoting and escaping safety of the interpolated names. Query compilation (`sql_with_params`) and the `ContentType` lookup are abstracted into the `Methods` map.
- Celery dispatch (`refresh_mat_view`, `create_view` with `run_async`). Only the synchronous `_refresh_mat_view` and `_create_view` are modelled.
- The `save()` call at the end of `_refresh_mat_view` and `_create_view`. The code that calls `run_save_methods` and `run_after_pk_methods` is also not part of this model, so the two hooks are modelled as functions on the record. The updated record is returned instead of persisted.
- PlanEffects.DropPhaseRun, Planner.DropViewOn, Lifecycle.DropViewRecord: do not model dependent views. If another view depends on the name, `DROP VIEW` or `DROP MATERIALIZED VIEW` raises DependentObjectsStillExist (SQLSTATE 2BP01). The driver reports class 2B as `InternalError`, which the `except ProgrammingError` in both `drop_view`s does not catch. So the drop fails, and `create_view_from_qs` stops before its CREATE. In the model no relation depends on another, so these drops never fail on a known alias.
- Planner.DropViewOn, Lifecycle.DropViewRecord: assume autocommit, as every step of the model does. Inside `transaction.atomic`, for example a Django `TestCase` or `ATOMIC_REQUESTS`, the first swallowed `ProgrammingError` aborts the transaction. The next statement then raises `InternalError`, which propagates. So "fails only for an unknown alias" and "never fails" hold only outside a transaction block, and so does PlanEffects.CreateNoRollback.
- Planner.CreateViewFromQs, Planner.CreateViewFromQsAsWritten: unique fields are strings. The column is an array of nullable strings, so an element may be `None`. `', '.join(ufields)` then raises `TypeError` after the pre-create drop. The old view is gone and nothing is created. The model cannot express a `None` element.
- Logging, `HistoricalRecords`, `owners`, `Meta.ordering`, `__str__`, `model_name`, `qs_model_name` and `filter_logic`.
- The `post_save` receiver in `db_views/signals.py`, which does nothing.
- Timestamps. They are readings of an abstract `nat` clock. `_create_view` reads the clock twice, modelled as two readings `t1 <= t2`.
