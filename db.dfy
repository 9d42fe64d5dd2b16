/** The database reads of the fetchers, replaced by their outcome. */
module Db {

  /** What a fetcher's database read produced: the table, or the call that raised
      (`cx_Oracle.connect`, `connection.cursor()`, or the query itself). */
  datatype DbOutcome<T> = Fetched(table: T) | ConnectFailed | CursorFailed | QueryFailed
}
