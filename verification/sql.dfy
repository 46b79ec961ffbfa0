/** The statements this library sends to PostgreSQL, as data, and their text. */
module Sql {

  /** The two catalog object kinds a view definition can produce. */
  datatype Kind = View | MatView

  /** What the query compiler hands back for a queryset: SQL text with its
      bound parameters, the output columns of the result, and the two parts of
      the ORM query that the record's field cache reads. */
  datatype Query = Query(
    sql: string,
    params: seq<string>,
    columns: seq<string>,
    valuesSelect: seq<string>,
    annotationKeys: seq<string>)

  datatype Privilege = AllPrivileges | SelectOnly

  datatype Statement =
    | DropView(name: string)                                   // DROP VIEW IF EXISTS "name"
    | DropMatView(name: string)                                // DROP MATERIALIZED VIEW IF EXISTS "name"
    | Create(kind: Kind, name: string, query: Query)           // CREATE {kind} "name" AS sql
    | DropIndex(index: string)                                 // DROP INDEX IF EXISTS index
    | CreateUniqueIndex(index: string, table: string, columns: seq<string>)
    | AlterOwner(table: string, role: string)                  // ALTER TABLE public.t OWNER TO role
    | Grant(table: string, role: string, privilege: Privilege) // GRANT ... ON TABLE public.t TO role
    | Refresh(name: string)                                    // REFRESH MATERIALIZED VIEW CONCURRENTLY name

  /** The object kind requested by the `materialized` flag. */
  function KindFor(materialized: bool): Kind
  {
    if materialized then MatView else View
  }

  /** The keyword placed after CREATE and DROP. */
  function Keyword(k: Kind): string
  {
    match k
    case View => "VIEW"
    case MatView => "MATERIALIZED VIEW"
  }

  /** The keyword chosen by `materialized` is `MATERIALIZED VIEW` exactly when the
      flag is set, and the keyword determines the kind. */
  lemma KeywordChoice(materialized: bool, k1: Kind, k2: Kind)
    ensures Keyword(KindFor(materialized)) == "MATERIALIZED VIEW" <==> materialized
    ensures Keyword(KindFor(materialized)) == "VIEW" <==> !materialized
    ensures Keyword(k1) == Keyword(k2) ==> k1 == k2
  {
  }

  function Quote(name: string): string
  {
    "\"" + name + "\""
  }

  /** The name of the unique index that backs a concurrent refresh. */
  function IndexName(view: string): string
  {
    "unique_" + view
  }

  /** Python's `", ".join(cols)`. */
  function JoinColumns(cols: seq<string>): string
  {
    if |cols| == 0 then ""
    else if |cols| == 1 then cols[0]
    else cols[0] + ", " + JoinColumns(cols[1..])
  }

  function Privileges(p: Privilege): string
  {
    match p
    case AllPrivileges => "ALL"
    case SelectOnly => "SELECT"
  }

  /** The text of one statement. Object names are double-quoted in DROP and CREATE
      only; the other statements interpolate the bare name. */
  function Text(s: Statement): string
  {
    match s
    case DropView(n) => " DROP VIEW IF EXISTS " + Quote(n) + " "
    case DropMatView(n) => " DROP MATERIALIZED VIEW IF EXISTS " + Quote(n) + " "
    case Create(k, n, q) => " CREATE " + Keyword(k) + " " + Quote(n) + " AS " + q.sql + " "
    case DropIndex(i) => "DROP INDEX IF EXISTS " + i
    case CreateUniqueIndex(i, t, cols) => "CREATE UNIQUE INDEX " + i + " ON " + t + " (" + JoinColumns(cols) + ")"
    case AlterOwner(t, r) => "ALTER TABLE public." + t + " OWNER TO " + r + ";"
    case Grant(t, r, p) => "GRANT " + Privileges(p) + " ON TABLE public." + t + " TO " + r + ";"
    case Refresh(n) => "REFRESH MATERIALIZED VIEW CONCURRENTLY " + n + ";"
  }

  /** The CREATE text names the materialized kind exactly when asked to, with
      the name in double quotes right after the keyword. */
  lemma CreateText(materialized: bool, name: string, q: Query)
    ensures (" CREATE MATERIALIZED VIEW " <= Text(Create(KindFor(materialized), name, q))) <==> materialized
    ensures " CREATE " + Keyword(KindFor(materialized)) + " " + Quote(name) <= Text(Create(KindFor(materialized), name, q))
  {
    var t := Text(Create(KindFor(materialized), name, q));
    var head := " CREATE " + Keyword(KindFor(materialized)) + " " + Quote(name);
    assert t == head + (" AS " + q.sql + " ");
    if materialized {
      assert head == " CREATE MATERIALIZED VIEW " + Quote(name);
    } else {
      assert t[8] == 'V';
      assert " CREATE MATERIALIZED VIEW "[8] == 'M';
    }
  }

  /** Both DROP texts carry the name in double quotes right after the keyword. */
  lemma DropText(name: string)
    ensures " DROP VIEW IF EXISTS " + Quote(name) <= Text(DropView(name))
    ensures " DROP MATERIALIZED VIEW IF EXISTS " + Quote(name) <= Text(DropMatView(name))
  {
  }

  // ---------------------------------------------------------------------------
  // Reading a column list back: the partner of JoinColumns.

  /** Split `s` at every comma (Python's `s.split(",")`). */
  function SplitComma(s: string): (r: seq<string>)
    ensures |r| >= 1
  {
    if |s| == 0 then [""]
    else
      var rest := SplitComma(s[1..]);
      if s[0] == ',' then [""] + rest
      else [[s[0]] + rest[0]] + rest[1..]
  }

  function DropSpace(s: string): string
  {
    if |s| > 0 && s[0] == ' ' then s[1..] else s
  }

  function DropSpaces(ps: seq<string>): (r: seq<string>)
    ensures |r| == |ps|
  {
    if |ps| == 0 then [] else [DropSpace(ps[0])] + DropSpaces(ps[1..])
  }

  /** Read a `", "`-separated column list back into its columns. */
  function SplitColumns(s: string): seq<string>
  {
    var ps := SplitComma(s);
    [ps[0]] + DropSpaces(ps[1..])
  }

  predicate NoComma(c: string)
  {
    forall i :: 0 <= i < |c| ==> c[i] != ','
  }

  lemma {:induction false} SplitCommaFree(a: string)
    requires NoComma(a)
    ensures SplitComma(a) == [a]
    decreases |a|
  {
    if |a| > 0 {
      SplitCommaFree(a[1..]);
      assert [a[0]] + a[1..] == a;
    }
  }

  /** A comma-free prefix followed by a comma splits off as one piece. */
  lemma {:induction false} SplitCommaPrefix(a: string, b: string)
    requires NoComma(a)
    ensures SplitComma(a + "," + b) == [a] + SplitComma(b)
    decreases |a|
  {
    var s := a + "," + b;
    if |a| == 0 {
      assert s == "," + b;
      assert s[1..] == b;
    } else {
      assert s[1..] == a[1..] + "," + b;
      SplitCommaPrefix(a[1..], b);
      assert [a[0]] + a[1..] == a;
    }
  }

  lemma SplitCommaSpace(x: string)
    ensures SplitComma(" " + x) == [" " + SplitComma(x)[0]] + SplitComma(x)[1..]
  {
  }

  /** The column list of a unique index reads back as the columns it was built
      from, in order, as long as no column name holds a comma. */
  lemma {:induction false} JoinSplitRoundTrip(cols: seq<string>)
    requires |cols| > 0
    requires forall i :: 0 <= i < |cols| ==> NoComma(cols[i])
    ensures SplitColumns(JoinColumns(cols)) == cols
    decreases |cols|
  {
    if |cols| == 1 {
      SplitCommaFree(cols[0]);
    } else {
      var rest := JoinColumns(cols[1..]);
      JoinSplitRoundTrip(cols[1..]);
      assert JoinColumns(cols) == cols[0] + "," + (" " + rest);
      SplitCommaPrefix(cols[0], " " + rest);
      SplitCommaSpace(rest);
      var ps := SplitComma(rest);
      assert SplitComma(JoinColumns(cols)) == [cols[0]] + ([" " + ps[0]] + ps[1..]);
      assert DropSpace(" " + ps[0]) == ps[0];
      assert DropSpaces([" " + ps[0]] + ps[1..]) == [ps[0]] + DropSpaces(ps[1..]);
      assert SplitColumns(rest) == cols[1..];
    }
  }
}
