/** The statement boundary of `select` and `execute`. The connection pool,
    cursors and transactions are driver calls and are not modelled: the rows a
    query yields and the affected-row count of a statement are inputs. What is
    modelled is what these two functions hand to the driver and how `select`
    truncates the result. */
module Executor {
  import opened Data
  import opened SqlText

  /** What reaches `cur.execute`: the translated template and the argument
      list, kept apart so that values are bound by the driver and never
      spliced into the statement text. */
  datatype DriverCall = DriverCall(sql: string, args: seq<Value>)

  /** `cur.execute(sql.replace('?', '%s'), args)`: the template is translated,
      the arguments are passed through untouched. A template with no `%` of
      its own gives the driver exactly one `%s` per `?`, and can be recovered
      from what the driver received. */
  function Bind(sql: string, args: seq<Value>): (c: DriverCall)
    ensures c.args == args
    ensures '?' !in c.sql
    ensures '%' !in sql ==> Occurrences('%', c.sql) == Occurrences('?', sql)
    ensures '%' !in sql ==> FromDriver(c.sql) == sql
  {
    if '%' in sql then DriverCall(ToDriver(sql), args)
    else
      DriverRoundTrip(sql);
      OccurrencesAbsent('%', sql);
      DriverCall(ToDriver(sql), args)
  }

  /** The rows `select` returns out of all rows the statement matches:
      `fetchmany(size)` when `size` is truthy, `fetchall()` when it is None
      or 0. The rows keep the driver's order. */
  function Fetch(rows: seq<Row>, size: Option<nat>): (r: seq<Row>)
    ensures r <= rows
    ensures size.Some? && size.value > 0 ==>
      |r| == if size.value < |rows| then size.value else |rows|
    ensures size == None || size == Some(0) ==> r == rows
  {
    if size.Some? && size.value != 0 && size.value < |rows| then rows[..size.value]
    else rows
  }
}
