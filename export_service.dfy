/**
 * The export service: which tables an export reads, the WHERE clause and
 * parameters each query is built with, and the conversion of the fetched
 * rows into export records, skipping those whose amount cannot be
 * decrypted or read as a number. The database is a map from table names
 * to their rows, and a query returns the rows its WHERE clause accepts in
 * the order the table holds them.
 */
module ExportService {
  import opened Common
  import opened Text
  import opened Parse
  import DbUtils

  /** A moment, as the number of seconds since some epoch. */
  type Instant = int

  /** A row of the incomes, expenses or savings table. */
  datatype StoredRow = StoredRow(id: int, userId: int, amountEncrypted: DbUtils.Value, createdAt: Instant)

  type Database = map<string, seq<StoredRow>>

  /** A query parameter. */
  datatype Param = UserParam(user: int) | TimeParam(at: Instant)

  /** One record of the export. */
  datatype ExportRow = ExportRow(kind: string, id: int, amount: real, createdAt: Instant)

  const AllowedTypes: set<string> := {"incomes", "expenses", "savings"}

  // ---------- the meaning of the clauses the query builds ----------

  /** Whether one `column op %s` clause accepts a row, with its parameter in place. */
  predicate ClauseHolds(clause: string, param: Param, row: StoredRow) {
    if clause == "user_id = %s" then param.UserParam? && row.userId == param.user
    else if clause == "created_at >= %s" then param.TimeParam? && row.createdAt >= param.at
    else if clause == "created_at < %s" then param.TimeParam? && row.createdAt < param.at
    else false
  }

  /** A conjunction of clauses, each with its aligned parameter. */
  predicate Holds(clauses: seq<string>, params: seq<Param>, row: StoredRow)
    requires |clauses| == |params|
  {
    forall i :: 0 <= i < |clauses| ==> ClauseHolds(clauses[i], params[i], row)
  }

  /** The rows an export is meant to cover: the user's, inside the half-open period. */
  predicate InPeriod(row: StoredRow, userId: int, start: Option<Instant>, end: Option<Instant>) {
    row.userId == userId
    && (start.Some? ==> start.value <= row.createdAt)
    && (end.Some? ==> row.createdAt < end.value)
  }

  /** The database's answer to a SELECT: the accepted rows, in stored order. */
  function Select(rows: seq<StoredRow>, clauses: seq<string>, params: seq<Param>): (r: seq<StoredRow>)
    requires |clauses| == |params|
    ensures |r| <= |rows|
  {
    if rows == [] then []
    else
      Select(rows[..|rows| - 1], clauses, params)
      + (if Holds(clauses, params, rows[|rows| - 1]) then [rows[|rows| - 1]] else [])
  }

  /** The rows of a table inside a period, in stored order. */
  function Matching(rows: seq<StoredRow>, userId: int, start: Option<Instant>, end: Option<Instant>): (r: seq<StoredRow>)
    ensures |r| <= |rows|
    ensures forall x :: x in r ==> x in rows && InPeriod(x, userId, start, end)
  {
    if rows == [] then []
    else
      Matching(rows[..|rows| - 1], userId, start, end)
      + (if InPeriod(rows[|rows| - 1], userId, start, end) then [rows[|rows| - 1]] else [])
  }

  /** Clauses that accept exactly the rows in a period select exactly those rows. */
  lemma {:induction false} SelectOfPeriod(rows: seq<StoredRow>, clauses: seq<string>, params: seq<Param>,
                                          userId: int, start: Option<Instant>, end: Option<Instant>)
    requires |clauses| == |params|
    requires forall row :: Holds(clauses, params, row) <==> InPeriod(row, userId, start, end)
    ensures Select(rows, clauses, params) == Matching(rows, userId, start, end)
  {
    if rows != [] {
      SelectOfPeriod(rows[..|rows| - 1], clauses, params, userId, start, end);
    }
  }

  function QuerySql(table: string, clauses: seq<string>): string {
    "SELECT id, amount_encrypted, created_at FROM " + table + " WHERE " + Join(" AND ", clauses)
    + " ORDER BY created_at ASC"
  }

  /**
   * _query_table: builds the clauses and parameters, then runs the query.
   * The clauses start with the user's, a start adds an inclusive lower
   * bound and an end an exclusive upper bound, and together they accept
   * exactly the rows in the period.
   */
  method QueryTable(db: Database, userId: int, table: string, start: Option<Instant>, end: Option<Instant>)
    returns (sql: string, clauses: seq<string>, params: seq<Param>, rows: seq<StoredRow>)
    ensures |clauses| == |params| && 1 <= |clauses| <= 3
    ensures clauses[0] == "user_id = %s" && params[0] == UserParam(userId)
    ensures "created_at >= %s" in clauses <==> start.Some?
    ensures "created_at < %s" in clauses <==> end.Some?
    ensures forall row :: Holds(clauses, params, row) <==> InPeriod(row, userId, start, end)
    ensures sql == QuerySql(table, clauses)
    ensures rows == Matching(if table in db then db[table] else [], userId, start, end)
  {
    clauses := ["user_id = %s"];
    params := [UserParam(userId)];
    if start.Some? {
      clauses := clauses + ["created_at >= %s"];
      params := params + [TimeParam(start.value)];
    }
    if end.Some? {
      clauses := clauses + ["created_at < %s"];
      params := params + [TimeParam(end.value)];
    }
    QueryClausesShape(clauses, params, userId, start, end);
    forall row
      ensures Holds(clauses, params, row) <==> InPeriod(row, userId, start, end)
    {
      QueryClausesMean(clauses, params, row, userId, start, end);
    }
    sql := QuerySql(table, clauses);
    var stored := if table in db then db[table] else [];
    SelectOfPeriod(stored, clauses, params, userId, start, end);
    rows := Select(stored, clauses, params);
  }

  /** The built clauses start with the user's and hold each bound exactly when it is given. */
  lemma QueryClausesShape(clauses: seq<string>, params: seq<Param>, userId: int, start: Option<Instant>, end: Option<Instant>)
    requires clauses == ["user_id = %s"] + (if start.Some? then ["created_at >= %s"] else [])
                        + (if end.Some? then ["created_at < %s"] else [])
    requires params == [UserParam(userId)] + (if start.Some? then [TimeParam(start.value)] else [])
                       + (if end.Some? then [TimeParam(end.value)] else [])
    ensures |clauses| == |params| && 1 <= |clauses| <= 3
    ensures clauses[0] == "user_id = %s" && params[0] == UserParam(userId)
    ensures "created_at >= %s" in clauses <==> start.Some?
    ensures "created_at < %s" in clauses <==> end.Some?
  {
    assert "created_at >= %s" != "user_id = %s" && "created_at >= %s" != "created_at < %s";
    assert "created_at < %s" != "user_id = %s";
  }

  lemma QueryClausesMean(clauses: seq<string>, params: seq<Param>, row: StoredRow,
                         userId: int, start: Option<Instant>, end: Option<Instant>)
    requires clauses == ["user_id = %s"] + (if start.Some? then ["created_at >= %s"] else [])
                        + (if end.Some? then ["created_at < %s"] else [])
    requires params == [UserParam(userId)] + (if start.Some? then [TimeParam(start.value)] else [])
                       + (if end.Some? then [TimeParam(end.value)] else [])
    ensures Holds(clauses, params, row) <==> InPeriod(row, userId, start, end)
  {
    assert ClauseHolds(clauses[0], params[0], row) <==> row.userId == userId;
    if start.Some? {
      assert ClauseHolds(clauses[1], params[1], row) <==> start.value <= row.createdAt;
    }
    if end.Some? {
      var k := |clauses| - 1;
      assert ClauseHolds(clauses[k], params[k], row) <==> row.createdAt < end.value;
    }
  }

  // ---------- table selection ----------

  /** `_singular`: one trailing 's' removed, if there is one. */
  function Singular(t: string): (r: string)
    ensures EndsWith(t, 's') ==> r + "s" == t
    ensures !EndsWith(t, 's') ==> r == t
  {
    if EndsWith(t, 's') then t[..|t| - 1] else t
  }

  /** Only one 's' goes: a table named with a double 's' keeps one. */
  lemma SingularOfTables()
    ensures Singular("incomes") == "income" && Singular("expenses") == "expense" && Singular("savings") == "saving"
    ensures Singular("income") == "income"
    ensures Singular("ss") == "s"
  {
  }

  /** The tables an export of `which` reads, or None for the ValueError. */
  function Tables(which: string): (r: Option<seq<string>>)
    ensures which == "all" ==> r == Some(["incomes", "expenses", "savings"])
    ensures which in AllowedTypes ==> r == Some([which])
    ensures r.None? <==> which != "all" && which !in AllowedTypes
    ensures r.Some? ==> forall t :: t in r.value ==> t in AllowedTypes
  {
    if which == "all" then Some(["incomes", "expenses", "savings"])
    else if which in AllowedTypes then Some([which])
    else None
  }

  // ---------- the rows of the export ----------

  /** The amount of a stored row: its decryption read as a float, or None. */
  function Amount(row: StoredRow, keyring: DbUtils.Keyring): Option<real> {
    match DbUtils.DecryptValue(keyring, row.amountEncrypted)
    case None => None
    case Some(plain) => PyFloat(plain)
  }

  /** The export records of one table's fetched rows, in order. */
  function Converted(table: string, rows: seq<StoredRow>, keyring: DbUtils.Keyring): seq<ExportRow> {
    if rows == [] then []
    else
      var row := rows[|rows| - 1];
      Converted(table, rows[..|rows| - 1], keyring)
      + match Amount(row, keyring)
        case None => []
        case Some(x) => [ExportRow(Singular(table), row.id, x, row.createdAt)]
  }

  /** How many of the rows have a readable amount. */
  function Readable(rows: seq<StoredRow>, keyring: DbUtils.Keyring): nat {
    if rows == [] then 0
    else Readable(rows[..|rows| - 1], keyring) + (if Amount(rows[|rows| - 1], keyring).Some? then 1 else 0)
  }

  /**
   * A record per readable row and no other: each carries the table's
   * singular type and its row's id, time and amount.
   */
  lemma {:induction false} ConvertedRows(table: string, rows: seq<StoredRow>, keyring: DbUtils.Keyring)
    ensures |Converted(table, rows, keyring)| == Readable(rows, keyring) <= |rows|
    ensures forall x :: x in Converted(table, rows, keyring) ==>
      x.kind == Singular(table)
      && exists row :: row in rows && row.id == x.id && row.createdAt == x.createdAt && Amount(row, keyring) == Some(x.amount)
    ensures forall row :: row in rows && Amount(row, keyring).Some? ==>
      ExportRow(Singular(table), row.id, Amount(row, keyring).value, row.createdAt) in Converted(table, rows, keyring)
  {
    if rows != [] {
      var init := rows[..|rows| - 1];
      ConvertedRows(table, init, keyring);
      assert rows == init + [rows[|rows| - 1]];
    }
  }

  /** Every record of one table carries that table's singular type. */
  lemma {:induction false} ConvertedKind(table: string, rows: seq<StoredRow>, keyring: DbUtils.Keyring)
    ensures forall x :: x in Converted(table, rows, keyring) ==> x.kind == Singular(table)
  {
    if rows != [] {
      ConvertedKind(table, rows[..|rows| - 1], keyring);
    }
  }

  /** The inner loop: appends the records of one table's rows to `out`. */
  method ConvertRows(table: string, rows: seq<StoredRow>, keyring: DbUtils.Keyring, out: seq<ExportRow>)
    returns (out': seq<ExportRow>)
    ensures out' == out + Converted(table, rows, keyring)
  {
    out' := out;
    var i := 0;
    while i < |rows|
      invariant 0 <= i <= |rows|
      invariant out' == out + Converted(table, rows[..i], keyring)
    {
      ConvertedStep(table, rows, i, keyring);
      var row := rows[i];
      var dec := DbUtils.DecryptValue(keyring, row.amountEncrypted);
      if dec.Some? {
        var amount := PyFloat(dec.value);
        if amount.Some? {
          out' := out' + [ExportRow(Singular(table), row.id, amount.value, row.createdAt)];
        }
      }
      i := i + 1;
    }
    assert rows[..|rows|] == rows;
  }

  /** One more row extends the records by that row's, if it has one. */
  lemma ConvertedStep(table: string, rows: seq<StoredRow>, i: nat, keyring: DbUtils.Keyring)
    requires i < |rows|
    ensures Converted(table, rows[..i + 1], keyring)
         == Converted(table, rows[..i], keyring)
            + match Amount(rows[i], keyring)
              case None => []
              case Some(x) => [ExportRow(Singular(table), rows[i].id, x, rows[i].createdAt)]
  {
    assert rows[..i + 1][..i] == rows[..i];
  }

  /** The export of the listed tables, table by table. */
  function Exported(db: Database, tables: seq<string>, userId: int, start: Option<Instant>, end: Option<Instant>,
                    keyring: DbUtils.Keyring): seq<ExportRow>
  {
    if tables == [] then []
    else
      var t := tables[|tables| - 1];
      Exported(db, tables[..|tables| - 1], userId, start, end, keyring)
      + Converted(t, Matching(if t in db then db[t] else [], userId, start, end), keyring)
  }

  /** The rows the queries of the listed tables fetch. */
  function Fetched(db: Database, tables: seq<string>, userId: int, start: Option<Instant>, end: Option<Instant>): nat {
    if tables == [] then 0
    else
      var t := tables[|tables| - 1];
      Fetched(db, tables[..|tables| - 1], userId, start, end) + |Matching(if t in db then db[t] else [], userId, start, end)|
  }

  /** The export never holds more records than the queries fetched. */
  lemma {:induction false} ExportedBound(db: Database, tables: seq<string>, userId: int, start: Option<Instant>,
                                          end: Option<Instant>, keyring: DbUtils.Keyring)
    ensures |Exported(db, tables, userId, start, end, keyring)| <= Fetched(db, tables, userId, start, end)
  {
    if tables != [] {
      var t := tables[|tables| - 1];
      ExportedBound(db, tables[..|tables| - 1], userId, start, end, keyring);
      ConvertedRows(t, Matching(if t in db then db[t] else [], userId, start, end), keyring);
    }
  }

  /** Every record of an export of allowed tables has the singular of one of them as its type. */
  lemma {:induction false} ExportedKinds(db: Database, tables: seq<string>, userId: int, start: Option<Instant>,
                                          end: Option<Instant>, keyring: DbUtils.Keyring)
    requires forall t :: t in tables ==> t in AllowedTypes
    ensures forall x :: x in Exported(db, tables, userId, start, end, keyring) ==>
      x.kind in {"income", "expense", "saving"}
  {
    if tables != [] {
      var t := tables[|tables| - 1];
      var init := tables[..|tables| - 1];
      ExportedKinds(db, init, userId, start, end, keyring);
      var fetched := Matching(if t in db then db[t] else [], userId, start, end);
      ConvertedKind(t, fetched, keyring);
      assert Singular(t) in {"income", "expense", "saving"} by {
        assert t in tables;
        SingularOfTables();
      }
      assert Exported(db, tables, userId, start, end, keyring)
          == Exported(db, init, userId, start, end, keyring) + Converted(t, fetched, keyring);
    }
  }

  /** One more table exported: its converted rows follow those of the tables before it. */
  lemma ExportedStep(db: Database, tables: seq<string>, k: nat, userId: int, start: Option<Instant>,
                     end: Option<Instant>, keyring: DbUtils.Keyring)
    requires k < |tables|
    ensures Exported(db, tables[..k + 1], userId, start, end, keyring)
         == Exported(db, tables[..k], userId, start, end, keyring)
            + Converted(tables[k], Matching(if tables[k] in db then db[tables[k]] else [], userId, start, end), keyring)
  {
    assert tables[..k + 1][..k] == tables[..k];
  }

  /** One table of the export: its query, then the conversion of its rows, appended to `out`. */
  method ExportTable(db: Database, keyring: DbUtils.Keyring, userId: int, t: string,
                     start: Option<Instant>, end: Option<Instant>, out: seq<ExportRow>)
    returns (out': seq<ExportRow>)
    ensures out' == out + Converted(t, Matching(if t in db then db[t] else [], userId, start, end), keyring)
  {
    var _, _, _, rows := QueryTable(db, userId, t, start, end);
    out' := ConvertRows(t, rows, keyring, out);
  }

  /** The loop of fetch_financial_rows over the selected tables: each table's query, then its conversion. */
  method ExportTables(db: Database, keyring: DbUtils.Keyring, userId: int, tables: seq<string>,
                      start: Option<Instant>, end: Option<Instant>)
    returns (out: seq<ExportRow>)
    ensures out == Exported(db, tables, userId, start, end, keyring)
  {
    out := [];
    var k := 0;
    while k < |tables|
      invariant 0 <= k <= |tables|
      invariant out == Exported(db, tables[..k], userId, start, end, keyring)
    {
      ExportedStep(db, tables, k, userId, start, end, keyring);
      out := ExportTable(db, keyring, userId, tables[k], start, end, out);
      k := k + 1;
    }
    assert tables[..|tables|] == tables;
  }

  /** What fetch_financial_rows ends in: the records, or the ValueError. */
  datatype Fetch = Records(rows: seq<ExportRow>) | TypeRejected(message: string)

  /** fetch_financial_rows: the records of each selected table in turn. */
  method FetchFinancialRows(db: Database, keyring: DbUtils.Keyring, userId: int, which: string,
                            start: Option<Instant>, end: Option<Instant>)
    returns (r: Fetch)
    ensures Tables(which).None? <==> r == TypeRejected("type must be one of incomes|expenses|savings|all")
    ensures Tables(which).Some? ==> r == Records(Exported(db, Tables(which).value, userId, start, end, keyring))
  {
    var tables := Tables(which);
    if tables.None? {
      return TypeRejected("type must be one of incomes|expenses|savings|all");
    }
    var out := ExportTables(db, keyring, userId, tables.value, start, end);
    r := Records(out);
  }
}
