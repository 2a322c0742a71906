/** The tax-invoice (CFDI) view: the deterministic mock invoices of a quarter, the
    user's selection of invoice ids, the download of the selected invoices, and the
    `Folio` attribute of the generated XML. */
module Fiscal {
  import opened JsCore

  datatype Invoice = Invoice(id: string, date: string, monthName: string, amount: int, status: string)

  const Q1_MONTHS: seq<string> := ["ENERO", "FEBRERO", "MARZO"]
  const Q2_MONTHS: seq<string> := ["ABRIL", "MAYO", "JUNIO"]
  const Q3_MONTHS: seq<string> := ["JULIO", "AGOSTO", "SEPTIEMBRE"]
  const Q4_MONTHS: seq<string> := ["OCTUBRE", "NOVIEMBRE", "DICIEMBRE"]

  /** The twelve month names, in calendar order. */
  const CALENDAR: seq<string> := Q1_MONTHS + Q2_MONTHS + Q3_MONTHS + Q4_MONTHS

  predicate IsKnownQuarter(quarter: string) {
    quarter == "Q1" || quarter == "Q2" || quarter == "Q3" || quarter == "Q4"
  }

  /** `qMap[selectedQuarter] || qMap['Q1']`. */
  function QuarterMonths(quarter: string): (months: seq<string>)
    ensures |months| == 3
  {
    if quarter == "Q2" then Q2_MONTHS
    else if quarter == "Q3" then Q3_MONTHS
    else if quarter == "Q4" then Q4_MONTHS
    else Q1_MONTHS
  }

  /** `{ Q1: 0, Q2: 3, Q3: 6, Q4: 9 }[selectedQuarter] || 0`. */
  function QuarterStartMonth(quarter: string): (start: nat)
    ensures start % 3 == 0 && start <= 9
  {
    if quarter == "Q2" then 3
    else if quarter == "Q3" then 6
    else if quarter == "Q4" then 9
    else 0
  }

  /** The numeric part of the idx-th invoice id of a year. */
  function BaseId(year: nat, idx: nat): nat {
    29000 + (year % 100) * 100 + idx * 3
  }

  function BaseAmount(year: nat, idx: nat): int {
    15000 + idx * 5000 - (year % 5) * 1000
  }

  function InvoiceId(year: nat, idx: nat): string {
    "F-" + Decimal(BaseId(year, idx))
  }

  /** `${year}-${month.padStart(2, '0')}-05`. */
  function InvoiceDate(year: nat, month: nat): string {
    Decimal(year) + "-" + PadStart(Decimal(month), 2, '0') + "-05"
  }

  function MakeInvoice(year: nat, quarter: string, idx: nat): Invoice
    requires idx < 3
  {
    Invoice(
      InvoiceId(year, idx),
      InvoiceDate(year, idx + 1 + QuarterStartMonth(quarter)),
      QuarterMonths(quarter)[idx],
      BaseAmount(year, idx),
      "VIGENTE")
  }

  /** The `cfdis` list: one invoice per month of the quarter (`months.map`). */
  function Cfdis(year: nat, quarter: string): (list: seq<Invoice>)
    ensures |list| == 3
    ensures forall idx :: 0 <= idx < 3 ==> list[idx] == MakeInvoice(year, quarter, idx)
  {
    var months := QuarterMonths(quarter);
    seq(|months|, idx requires 0 <= idx < |months| => MakeInvoice(year, quarter, idx))
  }

  // ---------------------------------------------------------------------------
  // Properties of the generated invoices
  // ---------------------------------------------------------------------------

  /** An unknown quarter produces exactly the Q1 invoices. */
  lemma UnknownQuarterIsQ1(year: nat, quarter: string)
    requires !IsKnownQuarter(quarter)
    ensures QuarterMonths(quarter) == Q1_MONTHS && QuarterStartMonth(quarter) == 0
    ensures Cfdis(year, quarter) == Cfdis(year, "Q1")
  {
  }

  /** Reading a date back: it splits into the year, the month and day 5. */
  lemma {:induction false} InvoiceDateRoundTrip(year: nat, month: nat)
    requires 1 <= month <= 12
    ensures var parts := Split(InvoiceDate(year, month), '-');
      |parts| == 3 && parts[0] == Decimal(year) && |parts[1]| == 2 && parts[2] == "05"
      && AllDigits(parts[1]) && DecimalValue(parts[0]) == year && DecimalValue(parts[1]) == month
  {
    var y := Decimal(year);
    var mm := PadStart(Decimal(month), 2, '0');
    assert '-' !in y by { assert AllDigits(y); }
    assert AllDigits(mm) && '-' !in mm by {
      if month < 10 { assert mm == ['0'] + Decimal(month); } else { assert mm == Decimal(month); }
    }
    assert InvoiceDate(year, month) == y + ['-'] + (mm + ['-'] + "05");
    SplitFirst(y, mm + ['-'] + "05", '-');
    SplitFirst(mm, "05", '-');
    SplitNoSeparator("05", '-');
    DecimalRoundTrip(year);
    PaddedMonthValue(month);
  }

  lemma PaddedMonthValue(month: nat)
    requires 1 <= month <= 12
    ensures var mm := PadStart(Decimal(month), 2, '0');
      |mm| == 2 && AllDigits(mm) && DecimalValue(mm) == month
  {
    var mm := PadStart(Decimal(month), 2, '0');
    DecimalRoundTrip(month);
    if month < 10 {
      assert mm == ['0', DigitChar(month)];
      assert mm[..1] == ['0'];
    } else {
      assert mm == Decimal(month);
    }
  }

  /** Every invoice of quarter number k (Q1 = 0) is dated on day 5 of month 3k+1..3k+3,
      and the month in its date is the month it is named after. */
  lemma {:induction false} CfdiDates(year: nat, quarter: string, idx: nat)
    requires idx < 3
    ensures var c := Cfdis(year, quarter)[idx];
      var parts := Split(c.date, '-');
      |parts| == 3 && AllDigits(parts[1]) && parts[0] == Decimal(year) && parts[2] == "05"
      && QuarterStartMonth(quarter) + 1 <= DecimalValue(parts[1]) <= QuarterStartMonth(quarter) + 3
      && CALENDAR[DecimalValue(parts[1]) - 1] == c.monthName
  {
    var month := idx + 1 + QuarterStartMonth(quarter);
    var c := Cfdis(year, quarter)[idx];
    assert c == MakeInvoice(year, quarter, idx);
    assert c.date == InvoiceDate(year, month);
    InvoiceDateRoundTrip(year, month);
    CalendarMatchesQuarter(quarter, idx);
  }

  /** The calendar names month start+idx+1 as the quarter's idx-th month. */
  lemma CalendarMatchesQuarter(quarter: string, idx: nat)
    requires idx < 3
    ensures CALENDAR[QuarterStartMonth(quarter) + idx] == QuarterMonths(quarter)[idx]
  {
  }

  /** The three invoices of a quarter have pairwise distinct ids. */
  lemma CfdiIdsDistinct(year: nat, quarter: string, i: nat, j: nat)
    requires i < 3 && j < 3 && i != j
    ensures Cfdis(year, quarter)[i].id != Cfdis(year, quarter)[j].id
  {
    if InvoiceId(year, i) == InvoiceId(year, j) {
      assert InvoiceId(year, i)[2..] == Decimal(BaseId(year, i));
      assert InvoiceId(year, j)[2..] == Decimal(BaseId(year, j));
      DecimalInjective(BaseId(year, i), BaseId(year, j));
    }
  }

  /** Amounts start between 11000 and 15000 and rise by 5000 per month; every
      invoice is in force. */
  lemma CfdiAmounts(year: nat, quarter: string, idx: nat)
    requires idx < 3
    ensures var list := Cfdis(year, quarter);
      11000 <= list[0].amount <= 15000
      && list[idx].amount == list[0].amount + 5000 * idx
      && list[idx].status == "VIGENTE"
  {
  }

  // ---------------------------------------------------------------------------
  // The XML `Folio`
  // ---------------------------------------------------------------------------

  /** `cfdi.id.split('-')[1]`; an id without '-' would render `undefined` (None). */
  function XmlFolio(id: string): Option<string> {
    var parts := Split(id, '-');
    if |parts| > 1 then Some(parts[1]) else None
  }

  /** The folio is the decimal numeral the id was built from, and reads back as BaseId. */
  lemma {:induction false} FolioRoundTrip(year: nat, quarter: string, idx: nat)
    requires idx < 3
    ensures var folio := XmlFolio(Cfdis(year, quarter)[idx].id);
      folio == Some(Decimal(BaseId(year, idx)))
      && AllDigits(folio.value) && DecimalValue(folio.value) == BaseId(year, idx)
  {
    var d := Decimal(BaseId(year, idx));
    assert InvoiceId(year, idx) == "F" + ['-'] + d;
    assert '-' !in d by { assert AllDigits(d); }
    SplitFirst("F", d, '-');
    SplitNoSeparator(d, '-');
    DecimalRoundTrip(BaseId(year, idx));
  }

  // ---------------------------------------------------------------------------
  // Selection and download
  // ---------------------------------------------------------------------------

  /** The selection after `toggleSelection(id)`. */
  function Toggled(selection: set<string>, id: string): set<string> {
    if id in selection then selection - {id} else selection + {id}
  }

  /** Toggling flips the membership of id and of nothing else. */
  lemma ToggleFlipsOnlyId(selection: set<string>, id: string, other: string)
    ensures id in Toggled(selection, id) <==> id !in selection
    ensures other != id ==> (other in Toggled(selection, id) <==> other in selection)
  {
  }

  /** Toggling the same id twice restores the selection. */
  lemma ToggleTwice(selection: set<string>, id: string)
    ensures Toggled(Toggled(selection, id), id) == selection
  {
  }

  /** `cfdis.filter(c => selectedIds.has(c.id))`. */
  function SelectedCfdis(list: seq<Invoice>, selection: set<string>): (r: seq<Invoice>)
    ensures |r| <= |list|
  {
    if list == [] then []
    else if list[0].id in selection then [list[0]] + SelectedCfdis(list[1..], selection)
    else SelectedCfdis(list[1..], selection)
  }

  /** The download keeps exactly the selected invoices, in list order. */
  lemma {:induction false} SelectedCfdisSpec(list: seq<Invoice>, selection: set<string>)
    ensures forall c :: c in SelectedCfdis(list, selection) <==> c in list && c.id in selection
    ensures IsSubsequence(SelectedCfdis(list, selection), list)
  {
    if list != [] {
      SelectedCfdisSpec(list[1..], selection);
      assert list == [list[0]] + list[1..];
      var r := SelectedCfdis(list, selection);
      if list[0].id in selection {
        assert r[1..] == SelectedCfdis(list[1..], selection);
      }
    }
  }

  lemma {:induction false} NothingSelected(list: seq<Invoice>)
    ensures SelectedCfdis(list, {}) == []
  {
    if list != [] { NothingSelected(list[1..]); }
  }

  lemma {:induction false} SelectedAt(list: seq<Invoice>, selection: set<string>, k: nat)
    requires k < |SelectedCfdis(list, selection)|
    ensures SelectedCfdis(list, selection)[k] in list && SelectedCfdis(list, selection)[k].id in selection
  {
    SelectedCfdisSpec(list, selection);
    assert SelectedCfdis(list, selection)[k] in SelectedCfdis(list, selection);
  }

  /** One scheduled download: the XML and PDF files of one invoice, after a delay. */
  datatype DownloadJob = DownloadJob(cfdi: Invoice, xmlFileName: string, pdfFileName: string, folio: Option<string>, delayMs: nat)

  function JobFor(cfdi: Invoice, index: nat): (job: DownloadJob)
    ensures job.cfdi == cfdi && job.delayMs == 600 * index
  {
    DownloadJob(cfdi, "CFDI_" + cfdi.id + ".xml", "FACTURA_" + cfdi.id + ".pdf", XmlFolio(cfdi.id), index * 600)
  }

  /** `handleDownload` on a list and a selection: nothing on an empty selection;
      otherwise, for each selected invoice in list order, one job 600 ms after the
      previous one (the `forEach` that schedules the downloads). */
  method ScheduleDownloads(list: seq<Invoice>, selection: set<string>) returns (jobs: seq<DownloadJob>)
    ensures selection == {} ==> jobs == []
    ensures |jobs| == |SelectedCfdis(list, selection)|
    ensures forall k :: 0 <= k < |jobs| ==> jobs[k] == JobFor(SelectedCfdis(list, selection)[k], k)
    ensures forall k :: 0 <= k < |jobs| ==> jobs[k].cfdi in list && jobs[k].cfdi.id in selection
  {
    jobs := [];
    if |selection| == 0 {
      NothingSelected(list);
      return;
    }
    var selected := SelectedCfdis(list, selection);
    var index := 0;
    while index < |selected|
      invariant 0 <= index <= |selected|
      invariant |jobs| == index
      invariant forall k :: 0 <= k < index ==> jobs[k] == JobFor(selected[k], k)
    {
      jobs := jobs + [JobFor(selected[index], index)];
      index := index + 1;
    }
    forall k | 0 <= k < |jobs| ensures jobs[k].cfdi in list && jobs[k].cfdi.id in selection {
      SelectedAt(list, selection, k);
    }
  }

  /** The state of the view: the period it shows (its props) and the selected ids. */
  class FiscalView {
    var selectedYear: nat
    var selectedQuarter: string
    var selectedIds: set<string>

    constructor (year: nat, quarter: string)
      ensures selectedYear == year && selectedQuarter == quarter && selectedIds == {}
    {
      selectedYear := year;
      selectedQuarter := quarter;
      selectedIds := {};
    }

    function CurrentCfdis(): seq<Invoice>
      reads this
    {
      Cfdis(selectedYear, selectedQuarter)
    }

    /** A new period from the pickers; the selection is component state and is kept. */
    method SetPeriod(year: nat, quarter: string)
      modifies this
      ensures selectedYear == year && selectedQuarter == quarter
      ensures selectedIds == old(selectedIds)
    {
      selectedYear := year;
      selectedQuarter := quarter;
    }

    method ToggleSelection(id: string)
      modifies this`selectedIds
      ensures selectedIds == Toggled(old(selectedIds), id)
    {
      var newSelection := selectedIds;
      if id in newSelection {
        newSelection := newSelection - {id};
      } else {
        newSelection := newSelection + {id};
      }
      selectedIds := newSelection;
    }

    /** `handleDownload` on the invoices on screen and the current selection. */
    method HandleDownload() returns (jobs: seq<DownloadJob>)
      ensures selectedIds == {} ==> jobs == []
      ensures |jobs| == |SelectedCfdis(CurrentCfdis(), selectedIds)|
      ensures forall k :: 0 <= k < |jobs| ==> jobs[k] == JobFor(SelectedCfdis(CurrentCfdis(), selectedIds)[k], k)
    {
      var list := CurrentCfdis();
      jobs := ScheduleDownloads(list, selectedIds);
    }
  }
}
