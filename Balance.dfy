/** The balance view: totals over the fetched monthly report rows, the chart series
    and labels for the monthly and the annual mode, the figure on display, and the
    loading/error states of a fetch. The query sent to the data store is abstracted:
    a fetch is given its outcome. */
module Balance {
  import opened JsCore
  import opened Constants
  import SVGCharts

  /** A JavaScript number as the chart receives it: a value, or NaN. */
  datatype JsNumber = Num(v: real) | NaN

  /** One row of `reportes_mensuales`. A numeric column whose content `Number(...)` cannot
      read as a number is None; `mes` is None when the column is null. */
  datatype ReportRecord = ReportRecord(
    mes: Option<string>,
    ingresoNetoDistribuido: Option<real>,
    ingresoTotal: Option<real>,
    costos: Option<real>)

  datatype Column = NetDistributed | Revenue | Costs

  function ColumnValue(r: ReportRecord, col: Column): Option<real> {
    match col
    case NetDistributed => r.ingresoNetoDistribuido
    case Revenue => r.ingresoTotal
    case Costs => r.costos
  }

  /** `Number(x) || 0`. */
  function OrZero(x: Option<real>): real {
    match x
    case Some(v) => v
    case None => 0.0
  }

  /** `Number(x)`. */
  function ToNumber(x: Option<real>): JsNumber {
    match x
    case Some(v) => Num(v)
    case None => NaN
  }

  // ---------------------------------------------------------------------------
  // Totals
  // ---------------------------------------------------------------------------

  /** `dbData.reduce((sum, r) => sum + (Number(r[col]) || 0), 0)`. */
  function SumColumn(records: seq<ReportRecord>, col: Column): real {
    if records == [] then 0.0
    else SumColumn(records[..|records| - 1], col) + OrZero(ColumnValue(records[|records| - 1], col))
  }

  function AggregateValue(records: seq<ReportRecord>): real { SumColumn(records, NetDistributed) }
  function TotalRevenue(records: seq<ReportRecord>): real { SumColumn(records, Revenue) }
  function TotalCosts(records: seq<ReportRecord>): real { SumColumn(records, Costs) }

  /** The total of two batches of rows is the sum of their totals. */
  lemma {:induction false} SumColumnAppend(a: seq<ReportRecord>, b: seq<ReportRecord>, col: Column)
    ensures SumColumn(a + b, col) == SumColumn(a, col) + SumColumn(b, col)
    decreases |b|
  {
    if b == [] {
      assert a + b == a;
    } else {
      var b' := b[..|b| - 1];
      assert (a + b)[..|a + b| - 1] == a + b';
      assert (a + b)[|a + b| - 1] == b[|b| - 1];
      SumColumnAppend(a, b', col);
    }
  }

  /** One row contributes its value, or 0 when the value is not a number. */
  lemma SumColumnSingle(r: ReportRecord, col: Column)
    ensures SumColumn([r], col) == if ColumnValue(r, col).Some? then ColumnValue(r, col).value else 0.0
  {
    assert [r][..0] == [];
  }

  /** Rows whose value is not a number add nothing: dropping them leaves the total. */
  lemma {:induction false} NonNumericRowsAddNothing(records: seq<ReportRecord>, col: Column)
    ensures SumColumn(records, col) == SumColumn(NumericRows(records, col), col)
    decreases |records|
  {
    if records != [] {
      var p := records[..|records| - 1];
      var r := records[|records| - 1];
      NonNumericRowsAddNothing(p, col);
      assert records == p + [r];
      NumericRowsAppend(p, r, col);
      if ColumnValue(r, col).Some? {
        SumColumnSingle(r, col);
        SumColumnAppend(NumericRows(p, col), [r], col);
      } else {
        assert NumericRows(records, col) == NumericRows(p, col) + [];
        assert NumericRows(p, col) + [] == NumericRows(p, col);
      }
    }
  }

  /** The rows whose value in col is a number. */
  function NumericRows(records: seq<ReportRecord>, col: Column): (r: seq<ReportRecord>)
    ensures forall x :: x in r ==> ColumnValue(x, col).Some?
  {
    if records == [] then []
    else
      var rest := NumericRows(records[1..], col);
      if ColumnValue(records[0], col).Some? then [records[0]] + rest else rest
  }

  lemma {:induction false} NumericRowsAppend(p: seq<ReportRecord>, r: ReportRecord, col: Column)
    ensures NumericRows(p + [r], col) == NumericRows(p, col) + (if ColumnValue(r, col).Some? then [r] else [])
    decreases |p|
  {
    if p == [] {
      assert [r][1..] == [];
    } else {
      assert (p + [r])[1..] == p[1..] + [r];
      NumericRowsAppend(p[1..], r, col);
    }
  }

  /** With no negative values the total is not negative. */
  lemma {:induction false} SumColumnNonNegative(records: seq<ReportRecord>, col: Column)
    requires forall k :: 0 <= k < |records| ==> OrZero(ColumnValue(records[k], col)) >= 0.0
    ensures SumColumn(records, col) >= 0.0
    decreases |records|
  {
    if records != [] {
      SumColumnNonNegative(records[..|records| - 1], col);
    }
  }

  // ---------------------------------------------------------------------------
  // Chart series and labels
  // ---------------------------------------------------------------------------

  datatype Timeframe = Mes | Anio

  function Zeros(n: nat): (s: seq<JsNumber>)
    ensures |s| == n && forall k :: 0 <= k < n ==> s[k] == Num(0.0)
  {
    seq(n, k => Num(0.0))
  }

  /** The row a month of the annual chart shows: the first whose upper-cased `mes`
      starts with the upper-cased month abbreviation (`dbData.find(...)`). */
  function FindMonth(records: seq<ReportRecord>, month: string): Option<ReportRecord> {
    if records == [] then None
    else if MesStartsWith(records[0], month) then Some(records[0])
    else FindMonth(records[1..], month)
  }

  predicate MesStartsWith(r: ReportRecord, month: string) {
    r.mes.Some? && Upper(month) <= Upper(r.mes.value)
  }

  /** FindMonth returns the first matching row, and None exactly when no row matches. */
  lemma {:induction false} FindMonthSpec(records: seq<ReportRecord>, month: string)
    ensures FindMonth(records, month).None? <==> forall k :: 0 <= k < |records| ==> !MesStartsWith(records[k], month)
    ensures FindMonth(records, month).Some? ==>
      exists k :: (0 <= k < |records|
        && records[k] == FindMonth(records, month).value && MesStartsWith(records[k], month)
        && forall j :: 0 <= j < k ==> !MesStartsWith(records[j], month))
  {
    if records != [] {
      FindMonthSpec(records[1..], month);
      if !MesStartsWith(records[0], month) {
        forall k | 0 <= k < |records[1..]| ensures records[1..][k] == records[k + 1] {}
        if FindMonth(records, month).Some? {
          var k :| 0 <= k < |records[1..]| && records[1..][k] == FindMonth(records, month).value
            && MesStartsWith(records[1..][k], month)
            && forall j :: 0 <= j < k ==> !MesStartsWith(records[1..][j], month);
          assert records[k + 1] == FindMonth(records, month).value;
          forall j | 0 <= j < k + 1 ensures !MesStartsWith(records[j], month) {
            if j > 0 { assert records[j] == records[1..][j - 1]; }
          }
        }
      } else {
        assert records[0] == FindMonth(records, month).value;
      }
    }
  }

  /** One point of the annual series: `record ? Number(record.ingreso_neto_distribuido) : 0`. */
  function AnnualPoint(records: seq<ReportRecord>, month: string): JsNumber {
    match FindMonth(records, month)
    case Some(r) => ToNumber(r.ingresoNetoDistribuido)
    case None => Num(0.0)
  }

  /** `chartData`. */
  function ChartData(records: seq<ReportRecord>, timeframe: Timeframe): seq<JsNumber> {
    if |records| == 0 then Zeros(if timeframe == Mes then 5 else 12)
    else if timeframe == Mes then
      var v := OrZero(records[0].ingresoNetoDistribuido);
      [Num(v * 0.85), Num(v * 0.95), Num(v), Num(v * 1.02), Num(v * 0.98)]
    else
      seq(|MONTHS|, i requires 0 <= i < |MONTHS| => AnnualPoint(records, MONTHS[i]))
  }

  /** `chartLabels`. */
  function ChartLabels(timeframe: Timeframe): seq<string> {
    if timeframe == Mes then ["1", "8", "15", "22", "30"]
    else seq(|MONTHS|, i requires 0 <= i < |MONTHS| => if i % 2 == 0 then MONTHS[i] else "")
  }

  /** The series and its labels always have the same length: 5 per month, 12 per year. */
  lemma SeriesMatchesLabels(records: seq<ReportRecord>, timeframe: Timeframe)
    ensures |ChartData(records, timeframe)| == |ChartLabels(timeframe)|
    ensures |ChartLabels(timeframe)| == if timeframe == Mes then 5 else 12
  {
  }

  /** Without rows the series is an all-zero placeholder. */
  lemma EmptySeriesIsZeros(timeframe: Timeframe, k: nat)
    requires k < |ChartData([], timeframe)|
    ensures ChartData([], timeframe)[k] == Num(0.0)
  {
  }

  /** The monthly series is the first row's value shaped by fixed factors: its middle
      point is that value, and its points add up to 4.8 times it. */
  lemma MonthlySeries(records: seq<ReportRecord>)
    requires records != []
    ensures var v := OrZero(records[0].ingresoNetoDistribuido);
      var s := ChartData(records, Mes);
      |s| == 5 && s[2] == Num(v)
      && s[0].v + s[1].v + s[2].v + s[3].v + s[4].v == 4.8 * v
      && (v >= 0.0 ==> s[0].v <= s[1].v <= s[2].v && s[4].v <= s[3].v && s[2].v <= s[3].v)
  {
  }

  /** The month abbreviations are already upper case. */
  lemma MonthsUpperCase(i: nat)
    requires i < |MONTHS|
    ensures Upper(MONTHS[i]) == MONTHS[i]
  {
    UpperOfUpper(MONTHS[i]);
  }

  /** Point i of the annual series is the value of the first row whose upper-cased month
      starts with MONTHS[i], or 0 when there is none; a matched value that is not a number
      stays NaN (it is not replaced by 0 as in the totals). */
  lemma AnnualSeries(records: seq<ReportRecord>, i: nat)
    requires records != [] && i < 12
    ensures |ChartData(records, Anio)| == 12
    ensures (forall k :: 0 <= k < |records| ==> !MesStartsWith(records[k], MONTHS[i]))
      ==> ChartData(records, Anio)[i] == Num(0.0)
    ensures forall k :: (0 <= k < |records| && MesStartsWith(records[k], MONTHS[i])
      && (forall j :: 0 <= j < k ==> !MesStartsWith(records[j], MONTHS[i]))
      ==> ChartData(records, Anio)[i] == ToNumber(records[k].ingresoNetoDistribuido))
    ensures forall k :: (0 <= k < |records| && MesStartsWith(records[k], MONTHS[i])
      && (forall j :: 0 <= j < k ==> !MesStartsWith(records[j], MONTHS[i]))
      && records[k].ingresoNetoDistribuido.None?
      ==> ChartData(records, Anio)[i] == NaN)
  {
    FindMonthSpec(records, MONTHS[i]);
    forall k | 0 <= k < |records| && MesStartsWith(records[k], MONTHS[i])
      && (forall j :: 0 <= j < k ==> !MesStartsWith(records[j], MONTHS[i]))
      ensures FindMonth(records, MONTHS[i]) == Some(records[k])
    {
      var k' :| 0 <= k' < |records| && records[k'] == FindMonth(records, MONTHS[i]).value
        && MesStartsWith(records[k'], MONTHS[i])
        && forall j :: 0 <= j < k' ==> !MesStartsWith(records[j], MONTHS[i]);
      assert k' == k;
    }
  }

  /** Annual labels keep the month at even positions and blank the odd ones. */
  lemma AnnualLabels(i: nat)
    requires i < 12
    ensures ChartLabels(Anio)[i] == if i % 2 == 0 then MONTHS[i] else ""
    ensures ChartLabels(Anio)[i] != "" <==> i % 2 == 0
  {
  }

  /** The chart is drawn as soon as there is a row; a single row whose net distributed
      value is 0 (or missing) makes the monthly series all zeros, and then the line
      chart's scale, as written, is zero and no point gets a y coordinate. */
  lemma ZeroNetRowFlattensChart(r: ReportRecord, k: nat)
    requires OrZero(r.ingresoNetoDistribuido) == 0.0 && k < 5
    ensures ChartData([r], Mes) == Zeros(5)
    ensures SVGCharts.PointYAsWritten(seq(5, _ => 0.0), k) == SVGCharts.NotFinite
  {
    SVGCharts.ZeroSeriesHasNoY(5, k);
  }

  /** `hoverValue !== null ? hoverValue : aggregateValue`. */
  function DisplayValue(hoverValue: Option<JsNumber>, records: seq<ReportRecord>): JsNumber {
    match hoverValue
    case Some(h) => h
    case None => Num(AggregateValue(records))
  }

  /** The hovered point wins; without one the headline is the net distributed total,
      to which only the rows with a numeric value contribute. */
  lemma DisplayValueSpec(hoverValue: Option<JsNumber>, records: seq<ReportRecord>)
    ensures hoverValue.Some? ==> DisplayValue(hoverValue, records) == hoverValue.value
    ensures hoverValue.None? ==> DisplayValue(hoverValue, records) == Num(SumColumn(records, NetDistributed))
    ensures hoverValue.None? ==>
      DisplayValue(hoverValue, records) == Num(SumColumn(NumericRows(records, NetDistributed), NetDistributed))
  {
    NonNumericRowsAddNothing(records, NetDistributed);
  }

  // ---------------------------------------------------------------------------
  // The fetch and the view state
  // ---------------------------------------------------------------------------

  /** What awaiting the query produced: rows (null allowed), a query error, or a
      thrown connection failure. */
  datatype FetchOutcome = Rows(data: Option<seq<ReportRecord>>) | QueryError(message: string) | ConnectionFailure

  /** The rows stored after a fetch: `data || []`, and `[]` on any error. */
  function FetchedRecords(outcome: FetchOutcome): seq<ReportRecord> {
    match outcome
    case Rows(Some(d)) => d
    case Rows(None) => []
    case QueryError(_) => []
    case ConnectionFailure => []
  }

  class BalanceView {
    var timeframe: Timeframe
    var hoverValue: Option<JsNumber>
    var hoverIndex: Option<int>
    var dbData: seq<ReportRecord>
    var loading: bool

    constructor ()
      ensures timeframe == Mes && hoverValue == None && hoverIndex == None
      ensures dbData == [] && loading
    {
      timeframe := Mes;
      hoverValue := None;
      hoverIndex := None;
      dbData := [];
      loading := true;
    }

    /** The start of `fetchData`, up to the await: the skeleton shows, rows stay. */
    method BeginFetch()
      modifies this`loading
      ensures loading
    {
      loading := true;
    }

    /** The end of `fetchData`: rows or an empty list on error, then `finally` clears
        the loading flag. */
    method CompleteFetch(outcome: FetchOutcome)
      modifies this`loading, this`dbData
      ensures dbData == FetchedRecords(outcome)
      ensures outcome.QueryError? || outcome.ConnectionFailure? ==> dbData == []
      ensures !loading
    {
      match outcome {
        case Rows(data) =>
          dbData := match data case Some(d) => d case None => [];
        case QueryError(_) =>
          dbData := [];
        case ConnectionFailure =>
          dbData := [];
      }
      loading := false;
    }

    /** A whole fetch with nothing interleaved. */
    method FetchData(outcome: FetchOutcome)
      modifies this`loading, this`dbData
      ensures dbData == FetchedRecords(outcome) && !loading
      ensures timeframe == old(timeframe) && hoverValue == old(hoverValue) && hoverIndex == old(hoverIndex)
    {
      BeginFetch();
      CompleteFetch(outcome);
    }

    method SetTimeframe(t: Timeframe)
      modifies this`timeframe
      ensures timeframe == t
    {
      timeframe := t;
    }

    /** The chart's hover callback: `setHoverValue(val); setHoverIndex(idx)`. The headline
        then shows the hovered value, or the net distributed total of the non-blank rows
        once the hover is cleared; the chart itself does not change. */
    method OnHover(value: Option<JsNumber>, index: Option<int>)
      modifies this`hoverValue, this`hoverIndex
      ensures hoverValue == value && hoverIndex == index
      ensures value.Some? ==> CurrentDisplayValue() == value.value
      ensures value.None? ==> CurrentDisplayValue() == Num(SumColumn(NumericRows(dbData, NetDistributed), NetDistributed))
      ensures CurrentChartData() == old(CurrentChartData())
    {
      hoverValue := value;
      hoverIndex := index;
      NonNumericRowsAddNothing(dbData, NetDistributed);
    }

    /** The headline figure above the chart. */
    function CurrentDisplayValue(): JsNumber
      reads this
    {
      DisplayValue(hoverValue, dbData)
    }

    /** The series the chart draws. */
    function CurrentChartData(): seq<JsNumber>
      reads this
    {
      ChartData(dbData, timeframe)
    }
  }
}
