/** Running a plan: each step is one execute call on one named connection; a
    step may swallow the driver's ProgrammingError (a `try: ... except
    ProgrammingError: pass` around the call). Each step commits on its own, as
    on an autocommitting connection outside `transaction.atomic`, so a later
    failure never undoes an earlier step. */
module Executor {
  import opened Wrappers
  import opened Sql
  import opened Catalog

  datatype Policy = Propagate | IgnoreProgramming

  datatype Exec = Exec(using: string, batch: seq<Statement>, policy: Policy)

  /** Why an operation stopped: a server error, a connection alias that is not
      configured, or a record whose query cannot be built. */
  datatype Failure = DbFailure(error: DbError) | UnknownConnection(alias: string) | NoQuery

  /** One catalog per configured connection alias. */
  type Databases = map<string, Db>

  datatype RunResult = RunResult(dbs: Databases, failure: Option<Failure>)

  function Run(dbs: Databases, plan: seq<Exec>): (r: RunResult)
    ensures r.dbs.Keys == dbs.Keys
    decreases |plan|
  {
    if |plan| == 0 then RunResult(dbs, None)
    else
      var e := plan[0];
      if e.using !in dbs then RunResult(dbs, Some(UnknownConnection(e.using)))
      else
        match ApplyBatch(dbs[e.using], e.batch)
        case Ok(d) => Run(dbs[e.using := d], plan[1..])
        case Err(err) =>
          if e.policy == IgnoreProgramming && IsProgrammingError(err) then Run(dbs, plan[1..])
          else RunResult(dbs, Some(DbFailure(err)))
  }

  /** Running two plans back to back is running the second from where the first
      stopped, and only if the first did not fail. */
  lemma {:induction false} RunAppend(dbs: Databases, p: seq<Exec>, q: seq<Exec>)
    ensures var first := Run(dbs, p);
            Run(dbs, p + q) == if first.failure.None? then Run(first.dbs, q) else first
    decreases |p|
  {
    if |p| > 0 {
      assert (p + q)[0] == p[0];
      assert (p + q)[1..] == p[1..] + q;
      var e := p[0];
      if e.using in dbs {
        match ApplyBatch(dbs[e.using], e.batch)
        case Ok(d) => RunAppend(dbs[e.using := d], p[1..], q);
        case Err(err) =>
          if e.policy == IgnoreProgramming && IsProgrammingError(err) {
            RunAppend(dbs, p[1..], q);
          }
      }
    } else {
      assert p + q == q;
    }
  }
}
