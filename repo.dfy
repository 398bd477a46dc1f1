/**
 * The generic table repository: every operation renders one statement with
 * the statement builder, prepares it on the connection, runs it, and maps the
 * returned rows to entities. The connection is an opaque token that travels
 * through every step and is handed back to the caller with the result or
 * with the error.
 *
 * The asynchronous driver is a pair of functions (`prepare`, `query`) whose
 * outcomes are `Step` values; the model states what each repository
 * operation makes of those outcomes.
 */
module Repo {
  import opened Wrappers
  import opened Placeholders
  import opened OrderedMap
  import opened Statement
  import StatementProps

  /** A pooled connection, known to the repository only as a token to pass on. */
  datatype Conn = Conn(token: nat)

  /** A statement prepared on a connection. */
  datatype Prepared = Prepared(handle: nat)

  /** What one driver step yields: a value, or an error; the connection comes back either way. */
  datatype Step<T> =
    | Done(value: T, conn: Conn)
    | Failed(error: string, conn: Conn)

  /** `prepare2` and `query2(..).collect()` of the connection. */
  datatype Driver<Row> = Driver(
    prepare: (string, Conn) -> Step<Prepared>,
    query: (Prepared, seq<SqlValue>, Conn) -> Step<seq<Row>>)

  /** A rendered statement and the arguments bound to its `$n` parameters. */
  datatype Query = Query(sql: string, args: seq<SqlValue>)

  /** The unit-like operation tag a filter payload is asked to build for. */
  datatype OpTag = SelectTag | DeleteTag

  /** `DbRepoImpl`: the table every operation works on. */
  datatype DbRepo = DbRepo(table: string)

  /** `DbRepoImpl::new`. */
  function New(table: string): (r: DbRepo)
    ensures r.table == table
  {
    DbRepo(table)
  }

  /** Prepare the statement, then run it with its arguments on the connection prepare handed back. */
  function Execute<Row>(d: Driver<Row>, q: Query, conn: Conn): Step<seq<Row>>
  {
    match d.prepare(q.sql, conn)
    case Failed(e, c) => Failed(e, c)
    case Done(p, c) => d.query(p, q.args, c)
  }

  /** The statement `create` sends: the inserter's builder for the repository's table, built. */
  function CreateQuery(repo: DbRepo, ins: string -> InsertState): Query
  {
    var st := ins(repo.table);
    Query(InsertText(st), Values(st.values))
  }

  /** The error `create` reports when the insert returned nothing. */
  function NoRowsError(sql: string): string
  {
    "Insert op returned no rows: statement: " + sql
  }

  /**
   * `create`: the last returned row (the one `pop` takes), mapped; no row is
   * an error naming the statement. Failures of the driver pass through, and
   * the connection always comes back.
   */
  function Create<Row, T>(repo: DbRepo, d: Driver<Row>, conn: Conn, ins: string -> InsertState, fromRow: Row -> T): (r: Step<T>)
    ensures var st := ins(repo.table);
            var out := Execute(d, Query(InsertText(st), Values(st.values)), conn);
            && r.conn == out.conn
            && (r.Done? <==> out.Done? && |out.value| > 0)
            && (r.Done? ==> r.value == fromRow(out.value[|out.value| - 1]))
            && (out.Done? && out.value == [] ==> r.error == NoRowsError(InsertText(st)))
            && (out.Failed? ==> r.error == out.error)
  {
    var q := CreateQuery(repo, ins);
    match Execute(d, q, conn)
    case Failed(e, c) => Failed(e, c)
    case Done(rows, c) =>
      if |rows| > 0 then Done(fromRow(rows[|rows| - 1]), c)
      else Failed(NoRowsError(q.sql), c)
  }

  /** `r` is `out` with every row mapped, in order, and with the same connection and error. */
  ghost predicate MappedFrom<Row, T>(r: Step<seq<T>>, out: Step<seq<Row>>, fromRow: Row -> T) {
    && r.conn == out.conn
    && r.Done? == out.Done?
    && (r.Done? ==> |r.value| == |out.value| && forall i :: 0 <= i < |out.value| ==> r.value[i] == fromRow(out.value[i]))
    && (r.Failed? ==> r.error == out.error)
  }

  /** `rows.into_iter().map(T::from).collect()` over a driver outcome. */
  function MapRows<Row, T>(out: Step<seq<Row>>, fromRow: Row -> T): (r: Step<seq<T>>)
    ensures MappedFrom(r, out, fromRow)
  {
    match out
    case Failed(e, c) => Failed(e, c)
    case Done(rows, c) => Done(seq(|rows|, i requires 0 <= i < |rows| => fromRow(rows[i])), c)
  }

  /** `get`: the filter built for SELECT on the repository's table; every row mapped. */
  function Get<Row, T>(repo: DbRepo, d: Driver<Row>, conn: Conn, filter: (OpTag, string) -> Query, fromRow: Row -> T): (r: Step<seq<T>>)
    ensures MappedFrom(r, Execute(d, filter(SelectTag, repo.table), conn), fromRow)
  {
    MapRows(Execute(d, filter(SelectTag, repo.table), conn), fromRow)
  }

  /** The statement `update` sends: the updater's builder for the repository's table, built. */
  function UpdateQuery(repo: DbRepo, upd: string -> UpdateState): Query
  {
    var st := upd(repo.table);
    Query(UpdateText(st), UpdateArgs(st))
  }

  /** `update`: the updater's statement on the repository's table; every returned row mapped. */
  function Update<Row, T>(repo: DbRepo, d: Driver<Row>, conn: Conn, upd: string -> UpdateState, fromRow: Row -> T): (r: Step<seq<T>>)
    ensures var st := upd(repo.table);
            MappedFrom(r, Execute(d, Query(UpdateText(st), UpdateArgs(st)), conn), fromRow)
  {
    MapRows(Execute(d, UpdateQuery(repo, upd), conn), fromRow)
  }

  /** `remove`: the filter built for DELETE on the repository's table; every deleted row mapped. */
  function Remove<Row, T>(repo: DbRepo, d: Driver<Row>, conn: Conn, filter: (OpTag, string) -> Query, fromRow: Row -> T): (r: Step<seq<T>>)
    ensures MappedFrom(r, Execute(d, filter(DeleteTag, repo.table), conn), fromRow)
  {
    MapRows(Execute(d, filter(DeleteTag, repo.table), conn), fromRow)
  }

  /** A statement that fails to prepare is never run: its error and connection are the operation's. */
  lemma PrepareFailureReported<Row, T>(repo: DbRepo, d: Driver<Row>, conn: Conn, ins: string -> InsertState, fromRow: Row -> T)
    requires d.prepare(CreateQuery(repo, ins).sql, conn).Failed?
    ensures Create(repo, d, conn, ins, fromRow) == Failed(d.prepare(CreateQuery(repo, ins).sql, conn).error, d.prepare(CreateQuery(repo, ins).sql, conn).conn)
  {
  }

  /**
   * The INSERT that `create` prepares numbers its parameters `$1 … $n` in
   * order, one per bound argument, when no name or extra carries a `$`.
   */
  lemma CreateQueryNumbered(repo: DbRepo, ins: string -> InsertState)
    requires NoDollar(ins(repo.table).table) && NoDollar(ins(repo.table).extra)
    requires StatementProps.CleanKeys(ins(repo.table).values)
    ensures Scan(CreateQuery(repo, ins).sql) == Numbers(1, |CreateQuery(repo, ins).args|)
  {
    StatementProps.InsertTextPlaceholders(ins(repo.table));
  }

  /** The same for the UPDATE that `update` prepares. */
  lemma UpdateQueryNumbered(repo: DbRepo, upd: string -> UpdateState)
    requires var st := upd(repo.table);
             NoDollar(st.filters.table) && NoDollar(st.extra) && NoDollar(st.filters.extra)
    requires StatementProps.CleanKeys(upd(repo.table).values) && StatementProps.CleanKeys(upd(repo.table).filters.filters)
    ensures Scan(UpdateQuery(repo, upd).sql) == Numbers(1, |UpdateQuery(repo, upd).args|)
  {
    StatementProps.UpdateTextPlaceholders(upd(repo.table));
  }
}
