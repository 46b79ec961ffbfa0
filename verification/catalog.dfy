/** An abstract PostgreSQL catalog: just enough state to give each statement a
    meaning — relations by name, indexes by name, roles and table privileges. */
module Catalog {
  import opened Sql

  /** A view or materialized view: its kind, its output columns and its owner. */
  datatype Relation = Relation(kind: Kind, columns: seq<string>, owner: string)

  /** One granted privilege on one relation. */
  datatype Acl = Acl(table: string, role: string, privilege: Privilege)

  /** The catalog of one database: relations, indexes (index name to the relation
      it is built on), existing roles, granted privileges, and the role of the
      session that issues statements (it owns what it creates). */
  datatype Db = Db(
    relations: map<string, Relation>,
    indexes: map<string, string>,
    roles: set<string>,
    acl: set<Acl>,
    session: string)

  /** The server errors the statements can raise. The driver reports every one of
      them as a ProgrammingError (SQLSTATE class 42) except the missing unique
      index on a concurrent refresh (class 55), which it reports as an
      OperationalError. */
  datatype DbError =
    | UndefinedTable
    | UndefinedObject
    | WrongObjectType
    | DuplicateTable
    | UndefinedColumn
    | SyntaxError
    | MissingUniqueIndex

  predicate IsProgrammingError(e: DbError)
  {
    !e.MissingUniqueIndex?
  }

  predicate IsOperationalError(e: DbError)
  {
    e.MissingUniqueIndex?
  }

  datatype Applied = Ok(db: Db) | Err(error: DbError)

  predicate Exists(db: Db, name: string, kind: Kind)
  {
    name in db.relations && db.relations[name].kind == kind
  }

  /** Some index is built on relation `name`. */
  predicate Indexed(db: Db, name: string)
  {
    name in db.indexes.Values
  }

  /** Drop relation `name` together with everything that depends on it: its
      indexes and the privileges granted on it. */
  function Remove(db: Db, name: string): (r: Db)
    ensures r.relations == db.relations - {name}
    ensures !Indexed(r, name)
    ensures forall i :: i in db.indexes && db.indexes[i] != name ==> i in r.indexes && r.indexes[i] == db.indexes[i]
    ensures forall i :: i in r.indexes ==> i in db.indexes
    ensures forall a :: a in r.acl <==> a in db.acl && a.table != name
    ensures r.roles == db.roles && r.session == db.session
  {
    var ix := map i | i in db.indexes && db.indexes[i] != name :: db.indexes[i];
    db.(relations := db.relations - {name},
        indexes := ix,
        acl := set a | a in db.acl && a.table != name)
  }

  predicate AllColumnsIn(cols: seq<string>, available: seq<string>)
  {
    forall i :: 0 <= i < |cols| ==> cols[i] in available
  }

  /** The effect of one statement, or the error the server raises for it. A
      statement that raises leaves the catalog as it was. */
  function Apply(db: Db, s: Statement): Applied
  {
    match s
    case DropView(n) =>
      if n !in db.relations then Ok(db)
      else if db.relations[n].kind == View then Ok(Remove(db, n))
      else Err(WrongObjectType)
    case DropMatView(n) =>
      if n !in db.relations then Ok(db)
      else if db.relations[n].kind == MatView then Ok(Remove(db, n))
      else Err(WrongObjectType)
    case Create(k, n, q) =>
      if n in db.relations then Err(DuplicateTable)
      else Ok(db.(relations := db.relations[n := Relation(k, q.columns, db.session)]))
    case DropIndex(i) =>
      Ok(db.(indexes := db.indexes - {i}))
    case CreateUniqueIndex(i, t, cols) =>
      if i in db.indexes then Err(DuplicateTable)
      else if |cols| == 0 then Err(SyntaxError)
      else if t !in db.relations then Err(UndefinedTable)
      else if db.relations[t].kind != MatView then Err(WrongObjectType)
      else if !AllColumnsIn(cols, db.relations[t].columns) then Err(UndefinedColumn)
      else Ok(db.(indexes := db.indexes[i := t]))
    case AlterOwner(t, r) =>
      if t !in db.relations then Err(UndefinedTable)
      else if r !in db.roles then Err(UndefinedObject)
      else Ok(db.(relations := db.relations[t := db.relations[t].(owner := r)]))
    case Grant(t, r, p) =>
      if t !in db.relations then Err(UndefinedTable)
      else if r !in db.roles then Err(UndefinedObject)
      else Ok(db.(acl := db.acl + {Acl(t, r, p)}))
    case Refresh(n) =>
      if n !in db.relations then Err(UndefinedTable)
      else if db.relations[n].kind != MatView then Err(WrongObjectType)
      else if !Indexed(db, n) then Err(MissingUniqueIndex)
      else Ok(db)
  }

  /** Several statements sent in one execute call. The server runs such a batch
      as one implicit transaction: either all of it takes effect or, on the
      first error, none of it. */
  function ApplyBatch(db: Db, batch: seq<Statement>): Applied
    decreases |batch|
  {
    if |batch| == 0 then Ok(db)
    else
      match Apply(db, batch[0])
      case Err(e) => Err(e)
      case Ok(d) => ApplyBatch(d, batch[1..])
  }

  /** A batch of one statement is that statement. */
  lemma ApplyOne(db: Db, s: Statement)
    ensures ApplyBatch(db, [s]) == Apply(db, s)
  {
  }
}
