/**
 * The financial summary PDF's figures: totals and counts of the exported
 * income, expense and saving records, the net of income less expenses,
 * and the period line of its header.
 */
module PdfSummary {
  import opened Common
  import ExportService

  type ExportRow = ExportService.ExportRow

  /** The amounts of the records of one type, summed. */
  function TotalOf(rows: seq<ExportRow>, kind: string): real {
    if rows == [] then 0.0
    else TotalOf(rows[..|rows| - 1], kind) + (if rows[|rows| - 1].kind == kind then rows[|rows| - 1].amount else 0.0)
  }

  /** The number of records of one type. */
  function CountOf(rows: seq<ExportRow>, kind: string): (n: nat)
    ensures n <= |rows|
  {
    if rows == [] then 0
    else CountOf(rows[..|rows| - 1], kind) + (if rows[|rows| - 1].kind == kind then 1 else 0)
  }

  datatype Summary = Summary(totalIncome: real, totalExpense: real, totalSaving: real, net: real,
                             countIncome: nat, countExpense: nat, countSaving: nat)

  /** _summarize. */
  function Summarize(rows: seq<ExportRow>): (s: Summary)
    ensures s.totalIncome == TotalOf(rows, "income") && s.countIncome == CountOf(rows, "income")
    ensures s.totalExpense == TotalOf(rows, "expense") && s.countExpense == CountOf(rows, "expense")
    ensures s.totalSaving == TotalOf(rows, "saving") && s.countSaving == CountOf(rows, "saving")
    ensures s.net == s.totalIncome - s.totalExpense
  {
    var totalIncome := TotalOf(rows, "income");
    var totalExpense := TotalOf(rows, "expense");
    Summary(totalIncome, totalExpense, TotalOf(rows, "saving"), totalIncome - totalExpense,
            CountOf(rows, "income"), CountOf(rows, "expense"), CountOf(rows, "saving"))
  }

  /** Totals and counts of a concatenation are the sums of the parts'. */
  lemma {:induction false} SplitTotals(a: seq<ExportRow>, b: seq<ExportRow>, kind: string)
    ensures TotalOf(a + b, kind) == TotalOf(a, kind) + TotalOf(b, kind)
    ensures CountOf(a + b, kind) == CountOf(a, kind) + CountOf(b, kind)
  {
    if b != [] {
      var init := b[..|b| - 1];
      assert (a + b)[..|a + b| - 1] == a + init;
      assert (a + b)[|a + b| - 1] == b[|b| - 1];
      SplitTotals(a, init, kind);
    } else {
      assert a + b == a;
    }
  }

  /** The summary of two batches of records is the field-by-field sum of their summaries. */
  lemma SummaryAdds(a: seq<ExportRow>, b: seq<ExportRow>)
    ensures Summarize(a + b).totalIncome == Summarize(a).totalIncome + Summarize(b).totalIncome
    ensures Summarize(a + b).totalExpense == Summarize(a).totalExpense + Summarize(b).totalExpense
    ensures Summarize(a + b).totalSaving == Summarize(a).totalSaving + Summarize(b).totalSaving
    ensures Summarize(a + b).net == Summarize(a).net + Summarize(b).net
    ensures Summarize(a + b).countIncome == Summarize(a).countIncome + Summarize(b).countIncome
    ensures Summarize(a + b).countExpense == Summarize(a).countExpense + Summarize(b).countExpense
    ensures Summarize(a + b).countSaving == Summarize(a).countSaving + Summarize(b).countSaving
  {
    SplitTotals(a, b, "income");
    SplitTotals(a, b, "expense");
    SplitTotals(a, b, "saving");
  }

  /** No records, all zeros. */
  lemma EmptySummary()
    ensures Summarize([]) == Summary(0.0, 0.0, 0.0, 0.0, 0, 0, 0)
  {
  }

  /** A record of any other type changes nothing. */
  lemma OtherTypesIgnored(rows: seq<ExportRow>, x: ExportRow)
    requires x.kind != "income" && x.kind != "expense" && x.kind != "saving"
    ensures Summarize(rows + [x]) == Summarize(rows)
  {
    assert (rows + [x])[..|rows|] == rows;
  }

  /** A saving adds to the savings and leaves the net alone. */
  lemma SavingsOutsideNet(rows: seq<ExportRow>, x: ExportRow)
    requires x.kind == "saving"
    ensures Summarize(rows + [x]).net == Summarize(rows).net
    ensures Summarize(rows + [x]).totalSaving == Summarize(rows).totalSaving + x.amount
    ensures Summarize(rows + [x]).countSaving == Summarize(rows).countSaving + 1
  {
    assert (rows + [x])[..|rows|] == rows;
  }

  /** An income adds to the net and an expense takes from it. */
  lemma NetOfOneMore(rows: seq<ExportRow>, x: ExportRow)
    ensures x.kind == "income" ==> Summarize(rows + [x]).net == Summarize(rows).net + x.amount
    ensures x.kind == "expense" ==> Summarize(rows + [x]).net == Summarize(rows).net - x.amount
  {
    assert (rows + [x])[..|rows|] == rows;
  }

  /** When every record has one of the three types, the three counts cover them all. */
  lemma {:induction false} CountsCoverRows(rows: seq<ExportRow>)
    requires forall i :: 0 <= i < |rows| ==> rows[i].kind in {"income", "expense", "saving"}
    ensures CountOf(rows, "income") + CountOf(rows, "expense") + CountOf(rows, "saving") == |rows|
  {
    if rows != [] {
      CountsCoverRows(rows[..|rows| - 1]);
    }
  }

  /** The PDF summarises the "all" export, whose records the three counts cover exactly. */
  lemma CountsCoverExport(db: ExportService.Database, keyring: map<string, string>, userId: int,
                          start: Option<ExportService.Instant>, end: Option<ExportService.Instant>)
    ensures var rows := ExportService.Exported(db, ["incomes", "expenses", "savings"], userId, start, end, keyring);
      var s := Summarize(rows);
      s.countIncome + s.countExpense + s.countSaving == |rows|
  {
    var rows := ExportService.Exported(db, ["incomes", "expenses", "savings"], userId, start, end, keyring);
    ExportService.ExportedKinds(db, ["incomes", "expenses", "savings"], userId, start, end, keyring);
    assert forall i :: 0 <= i < |rows| ==> rows[i] in rows;
    CountsCoverRows(rows);
  }

  /**
   * The period line: "All time" without bounds, otherwise the two dates
   * (already formatted as YYYY-MM-DD) joined by " to ", "…" for a missing one.
   */
  function PeriodLabel(start: Option<string>, end: Option<string>): (r: string)
    ensures start.None? && end.None? <==> r == "All time"
    ensures start.Some? || end.Some? ==>
      r == (if start.Some? then start.value else "…") + " to " + (if end.Some? then end.value else "…")
  {
    if start.Some? || end.Some? then
      var s := if start.Some? then start.value else "…";
      var e := if end.Some? then end.value else "…";
      var line := s + " to " + e;
      assert line[|s| + 2] == 'o';
      assert 'o' !in "All time";
      line
    else "All time"
  }
}
