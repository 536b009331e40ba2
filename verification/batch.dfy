/** One batch run (`update_excel_file`): every configured query is fetched and
    shaped in turn; a query that yields a non-empty table gets its own sheet,
    named after the query and led by an icon column, and counts as a success;
    any exception inside one query is caught and the loop moves on. The
    workbook is published only when at least one query succeeded. */
module Batch {
  import opened Wrappers
  import opened Exceptions
  import opened Json
  import OrderedMap
  import Widget
  import Chartink

  /** Excel's limit on the length of a sheet name. */
  const SheetNameLimit := 31
  const IconColumn := "Icon"

  /** One entry of the query catalogue: display name, screener query, icon. */
  datatype QueryDef = QueryDef(name: string, query: string, icon: string)

  /** A query together with what fetching and shaping it came to: the
      exception raised, None ("no data"), or the table of rows. */
  datatype QueryRun = QueryRun(def: QueryDef, outcome: Result<Option<Widget.Table>, Error>)

  datatype Sheet = Sheet(name: string, rows: Widget.Table)

  /** The loop's running state: the sheets written so far and `success_count`. */
  datatype Progress = Progress(sheets: seq<Sheet>, successCount: nat)

  /** What one batch leaves behind. `totalQueries` is the metadata sheet's
      "Total Queries", None when no metadata sheet was written; `returned` is
      the function's return value. */
  datatype Report = Report(
    totalQueries: Option<nat>,
    sheets: seq<Sheet>,
    successCount: nat,
    uploaded: bool,
    returned: bool)

  /** `fetch_from_chartink` followed by `parse_widget_data`, with any exception
      of either kept as the query's outcome. */
  function RunQuery(def: QueryDef, ex: Chartink.Exchange): (run: QueryRun)
    ensures run.def == def
    ensures var fetched := Chartink.FetchFromChartink(def.query, ex).outcome;
      run.outcome == if fetched.Success? then Widget.Parse(fetched.value) else Failure(fetched.error)
  {
    match Chartink.FetchFromChartink(def.query, ex).outcome
    case Failure(e) => QueryRun(def, Failure(e))
    case Success(data) => QueryRun(def, Widget.Parse(data))
  }

  /** `query_name[:31]`. */
  function SheetName(name: string): (r: string)
    ensures |r| <= SheetNameLimit
    ensures r <= name
    ensures |r| == if |name| <= SheetNameLimit then |name| else SheetNameLimit
  {
    if |name| <= SheetNameLimit then name else name[..SheetNameLimit]
  }

  /** `df.insert(0, 'Icon', icon)`: raises when the table already has an
      "Icon" column (a field that title-cases to "Icon"); otherwise every row
      gains the icon as its first column and keeps its other columns. */
  function InsertIcon(table: Widget.Table, icon: string): (r: Result<Widget.Table, Error>)
    ensures r.Failure? <==> exists i :: 0 <= i < |table| && IconColumn in OrderedMap.Keys(table[i])
    ensures r.Success? ==> |r.value| == |table|
    ensures r.Success? ==> forall i :: 0 <= i < |table| ==>
      && |r.value[i]| > 0
      && r.value[i][0] == (IconColumn, JStr(icon))
      && r.value[i][1..] == table[i]
      && (OrderedMap.DistinctKeys(table[i]) ==> OrderedMap.DistinctKeys(r.value[i]))
  {
    if exists i :: 0 <= i < |table| && IconColumn in OrderedMap.Keys(table[i]) then Failure(ColumnExists)
    else
      var rows := seq(|table|, i requires 0 <= i < |table| => [(IconColumn, JStr(icon))] + table[i]);
      assert forall i :: 0 <= i < |table| ==> OrderedMap.Keys(rows[i]) == [IconColumn] + OrderedMap.Keys(table[i]);
      Success(rows)
  }

  /** Reference definition: a query succeeds when it produced a non-empty
      table that takes the icon column. */
  predicate Succeeds(run: QueryRun) {
    && run.outcome.Success?
    && run.outcome.value.Some?
    && |run.outcome.value.value| > 0
    && forall i :: 0 <= i < |run.outcome.value.value| ==> IconColumn !in OrderedMap.Keys(run.outcome.value.value[i])
  }

  /** The body of the `try` for one query: the sheet it writes, if any. */
  function SheetFor(run: QueryRun): (s: Option<Sheet>)
    ensures s.Some? <==> Succeeds(run)
    ensures s.Some? ==> s.value.name == SheetName(run.def.name) && |s.value.rows| > 0
    ensures s.Some? ==> InsertIcon(run.outcome.value.value, run.def.icon) == Success(s.value.rows)
    ensures s.Some? ==> forall row :: row in s.value.rows ==> |row| > 0 && row[0] == (IconColumn, JStr(run.def.icon))
  {
    if run.outcome.Failure? || run.outcome.value.None? then None
    else
      var table := run.outcome.value.value;
      if |table| == 0 then None
      else
        match InsertIcon(table, run.def.icon)
        case Success(rows) => Some(Sheet(SheetName(run.def.name), rows))
        case Failure(_) => None
  }

  /** One iteration of the loop; the `except` clause turns every failure into "no sheet". */
  function Step(p: Progress, run: QueryRun): Progress {
    match SheetFor(run)
    case Some(sheet) => Progress(p.sheets + [sheet], p.successCount + 1)
    case None => p
  }

  /** The loop over the queries, in catalogue order. */
  function Loop(p: Progress, runs: seq<QueryRun>): Progress
    decreases |runs|
  {
    if |runs| == 0 then p else Loop(Step(p, runs[0]), runs[1..])
  }

  /** The loop only appends sheets, adds exactly one to the count per sheet,
      and adds at most one sheet per query. */
  lemma {:induction false} LoopOnlyAppends(p: Progress, runs: seq<QueryRun>)
    ensures var q := Loop(p, runs);
      |q.sheets| - |p.sheets| == q.successCount - p.successCount <= |runs|
    ensures p.sheets <= Loop(p, runs).sheets
    decreases |runs|
  {
    if |runs| > 0 {
      LoopOnlyAppends(Step(p, runs[0]), runs[1..]);
    }
  }

  /** `update_excel_file` over the queries' outcomes. `writerOpen` says whether
      the workbook writer opened and took the metadata sheet; when it did not,
      the outer `except` returns False before any query runs. `saved` says
      whether closing the writer wrote the workbook file. */
  function UpdateExcelFile(runs: seq<QueryRun>, writerOpen: bool, saved: bool): (rep: Report)
    ensures rep.totalQueries == if writerOpen then Some(|runs|) else None
    ensures !writerOpen ==> rep.sheets == [] && rep.successCount == 0
    ensures rep.successCount == |rep.sheets| <= |runs|
    ensures rep.uploaded <==> writerOpen && saved && rep.successCount > 0
    ensures rep.returned == (writerOpen && saved)
  {
    if !writerOpen then Report(None, [], 0, false, false)
    else
      var done := Loop(Progress([], 0), runs);
      LoopOnlyAppends(Progress([], 0), runs);
      Report(Some(|runs|), done.sheets, done.successCount, saved && done.successCount > 0, saved)
  }

  /** Running the loop over `a + b` is running it over `a` and then over `b`:
      whatever happened to the queries in `a` has no effect on those in `b`. */
  lemma {:induction false} LoopAppend(p: Progress, a: seq<QueryRun>, b: seq<QueryRun>)
    ensures Loop(p, a + b) == Loop(Loop(p, a), b)
    decreases |a|
  {
    if |a| == 0 {
      assert a + b == b;
    } else {
      assert (a + b)[1..] == a[1..] + b;
      LoopAppend(Step(p, a[0]), a[1..], b);
    }
  }

  lemma StepFromAnyProgress(p: Progress, run: QueryRun)
    ensures Step(p, run).sheets == p.sheets + Step(Progress([], 0), run).sheets
    ensures Step(p, run).successCount == p.successCount + Step(Progress([], 0), run).successCount
  {
  }

  /** The loop only ever appends: starting from any progress, it adds the
      same sheets and count as starting from nothing. */
  lemma {:induction false} LoopFromAnyProgress(p: Progress, runs: seq<QueryRun>)
    ensures Loop(p, runs).sheets == p.sheets + Loop(Progress([], 0), runs).sheets
    ensures Loop(p, runs).successCount == p.successCount + Loop(Progress([], 0), runs).successCount
    decreases |runs|
  {
    if |runs| > 0 {
      var e := Progress([], 0);
      LoopFromAnyProgress(Step(p, runs[0]), runs[1..]);
      LoopFromAnyProgress(Step(e, runs[0]), runs[1..]);
      StepFromAnyProgress(p, runs[0]);
      LoopFromAnyProgressStep(p, Step(p, runs[0]), Step(e, runs[0]), Loop(e, runs[1..]),
        Loop(p, runs), Loop(e, runs));
    }
  }

  /** The arithmetic of one step of the induction above: `p` steps to `pq`
      and the empty progress to `eq`, and both then run the same tail.
      It states nothing about the program beyond `LoopFromAnyProgress`; it
      only splits that proof's inductive step out to keep it cheap. */
  lemma LoopFromAnyProgressStep(p: Progress, pq: Progress, eq: Progress, tail: Progress, pr: Progress, er: Progress)
    requires pq.sheets == p.sheets + eq.sheets && pq.successCount == p.successCount + eq.successCount
    requires pr.sheets == pq.sheets + tail.sheets && pr.successCount == pq.successCount + tail.successCount
    requires er.sheets == eq.sheets + tail.sheets && er.successCount == eq.successCount + tail.successCount
    ensures pr.sheets == p.sheets + er.sheets && pr.successCount == p.successCount + er.successCount
  {
    assert p.sheets + eq.sheets + tail.sheets == p.sheets + (eq.sheets + tail.sheets);
  }

  /** Queries are independent: the sheets and count of a batch are those of
      its two halves, put together. */
  lemma BatchSplits(a: seq<QueryRun>, b: seq<QueryRun>, writerOpen: bool, saved: bool)
    ensures UpdateExcelFile(a + b, writerOpen, saved).sheets == UpdateExcelFile(a, writerOpen, saved).sheets + UpdateExcelFile(b, writerOpen, saved).sheets
    ensures UpdateExcelFile(a + b, writerOpen, saved).successCount == UpdateExcelFile(a, writerOpen, saved).successCount + UpdateExcelFile(b, writerOpen, saved).successCount
  {
    LoopAppend(Progress([], 0), a, b);
    LoopFromAnyProgress(Loop(Progress([], 0), a), b);
  }

  /** A query that raises, yields no data or yields an empty table adds
      nothing, and the queries after it run exactly as they would without it. */
  lemma FailedQueryIsSkipped(a: seq<QueryRun>, run: QueryRun, b: seq<QueryRun>, writerOpen: bool, saved: bool)
    requires !Succeeds(run)
    ensures UpdateExcelFile(a + [run] + b, writerOpen, saved).sheets == UpdateExcelFile(a + b, writerOpen, saved).sheets
    ensures UpdateExcelFile(a + [run] + b, writerOpen, saved).successCount == UpdateExcelFile(a + b, writerOpen, saved).successCount
  {
    var one := UpdateExcelFile([run], writerOpen, saved);
    assert one.sheets == [] && one.successCount == 0 by {
      assert Loop(Progress([], 0), [run]) == Progress([], 0);
    }
    var left := UpdateExcelFile(a + [run], writerOpen, saved);
    assert left.sheets == UpdateExcelFile(a, writerOpen, saved).sheets && left.successCount == UpdateExcelFile(a, writerOpen, saved).successCount by {
      BatchSplits(a, [run], writerOpen, saved);
    }
    BatchSplits(a + [run], b, writerOpen, saved);
    BatchSplits(a, b, writerOpen, saved);
  }

  /** Reference definition: the positions of the queries that succeed. */
  function SuccessfulQueries(runs: seq<QueryRun>): set<nat> {
    set i: nat | i < |runs| && Succeeds(runs[i])
  }

  lemma {:induction false} SuccessfulQueriesSnoc(runs: seq<QueryRun>, run: QueryRun)
    ensures SuccessfulQueries(runs + [run])
         == SuccessfulQueries(runs) + (if Succeeds(run) then {|runs|} else {})
  {
    var all := runs + [run];
    assert forall i :: 0 <= i < |runs| ==> all[i] == runs[i];
    assert all[|runs|] == run;
  }

  /** The success count is the number of queries that produced a non-empty
      table with the icon column, and each of them wrote a sheet. */
  lemma {:induction false} SuccessCountIsSuccessfulQueries(runs: seq<QueryRun>, writerOpen: bool, saved: bool)
    ensures UpdateExcelFile(runs, writerOpen, saved).successCount == if writerOpen then |SuccessfulQueries(runs)| else 0
    decreases |runs|
  {
    if writerOpen && |runs| > 0 {
      var init, last := runs[..|runs| - 1], runs[|runs| - 1];
      assert runs == init + [last];
      SuccessCountIsSuccessfulQueries(init, writerOpen, saved);
      BatchSplits(init, [last], writerOpen, saved);
      SuccessfulQueriesSnoc(init, last);
      assert Loop(Progress([], 0), [last]) == Step(Progress([], 0), last);
      assert |init| !in SuccessfulQueries(init);
    } else if writerOpen {
      assert SuccessfulQueries(runs) == {};
    }
  }

  /** Every sheet written comes from one successful query, in the form that
      query's own sheet takes. */
  lemma {:induction false} SheetsAreWellFormed(runs: seq<QueryRun>)
    ensures forall s :: s in Loop(Progress([], 0), runs).sheets ==>
      && |s.name| <= SheetNameLimit
      && |s.rows| > 0
      && exists i :: 0 <= i < |runs| && Succeeds(runs[i]) && s == SheetFor(runs[i]).value
    decreases |runs|
  {
    if |runs| > 0 {
      var e := Progress([], 0);
      SheetsAreWellFormed(runs[1..]);
      LoopFromAnyProgress(Step(e, runs[0]), runs[1..]);
      forall s | s in Loop(e, runs).sheets
        ensures exists i :: 0 <= i < |runs| && Succeeds(runs[i]) && s == SheetFor(runs[i]).value
      {
        if s in Step(e, runs[0]).sheets {
          assert s == SheetFor(runs[0]).value;
        } else {
          var j :| 0 <= j < |runs[1..]| && Succeeds(runs[1..][j]) && s == SheetFor(runs[1..][j]).value;
          assert runs[j + 1] == runs[1..][j];
        }
      }
    }
  }

  /** A page without a usable token fails that query only: it is recorded as
      "CSRF token not found" and writes no sheet. */
  lemma MissingTokenFailsQuery(def: QueryDef, ex: Chartink.Exchange)
    requires Chartink.PageLoaded(ex)
    requires ex.screener.value.csrfContent.None? || ex.screener.value.csrfContent == Some("")
    ensures RunQuery(def, ex).outcome == Failure(CsrfTokenNotFound)
    ensures SheetFor(RunQuery(def, ex)).None?
  {
    Chartink.TokenGuard(def.query, ex);
  }
}
