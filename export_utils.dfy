/** The layout of the Android export: the status text of a reading, the
    Excel sheet (a header row, then one row per record) and the PDF page
    (title, optional summary, a table of at most 30 rows). */
module ExportUtils {

  import opened Models

  const MaxPdfRows: int := 30

  /** `getStatusText`: high at systolic 140 or diastolic 90, elevated at
      systolic 130 or diastolic 85, otherwise normal. */
  function StatusText(sys: int, dia: int): (t: string)
    ensures t == HighLabel <==> sys >= 140 || dia >= 90
    ensures t == ElevatedLabel <==> !(sys >= 140 || dia >= 90) && (sys >= 130 || dia >= 85)
    ensures t == NormalLabel <==> sys < 130 && dia < 85
  {
    if sys >= 140 || dia >= 90 then HighLabel
    else if sys >= 130 || dia >= 85 then ElevatedLabel
    else NormalLabel
  }

  // ---------------------------------------------------------------------
  // Excel
  // ---------------------------------------------------------------------

  /** A cell value: text, a number, or a record date rendered by the
      local-time formatter. */
  datatype Cell = Text(text: string) | Number(n: int) | FormattedDate(date: string)

  /** The titles of row 0, in column order. */
  const Headers: seq<string> := ["日期时间", "姓名", "收缩压(mmHg)", "舒张压(mmHg)", "心率(bpm)", "状态"]

  function HeaderRow(): (row: seq<Cell>)
    ensures |row| == |Headers| == 6
    ensures forall c :: 0 <= c < |row| ==> row[c] == Text(Headers[c])
  {
    [Text(Headers[0]), Text(Headers[1]), Text(Headers[2]), Text(Headers[3]), Text(Headers[4]), Text(Headers[5])]
  }

  /** The row of one record: six cells, in the order of the titles. */
  function RecordRow(r: Record): (row: seq<Cell>)
    ensures |row| == |Headers|
    ensures row[0] == FormattedDate(r.date)
    ensures row[1] == Text(if r.name.Some? then r.name.value else "")
    ensures row[2] == Number(r.systolic) && row[3] == Number(r.diastolic)
    ensures row[4] == Number(if r.pulse.Some? then r.pulse.value else 0)
    ensures row[5] == Text(StatusText(r.systolic, r.diastolic))
  {
    [FormattedDate(r.date), Text(r.name.GetOr("")), Number(r.systolic), Number(r.diastolic),
     Number(r.pulse.GetOr(0)), Text(StatusText(r.systolic, r.diastolic))]
  }

  /** The sheet `exportToExcel` fills: the header row, then record `i` in
      row `i + 1`. */
  method ExcelSheet(records: seq<Record>) returns (sheet: seq<seq<Cell>>)
    ensures |sheet| == |records| + 1
    ensures sheet[0] == HeaderRow()
    ensures forall i :: 0 <= i < |records| ==> sheet[i + 1] == RecordRow(records[i])
  {
    sheet := [HeaderRow()];
    var i := 0;
    while i < |records|
      invariant 0 <= i <= |records|
      invariant |sheet| == i + 1 && sheet[0] == HeaderRow()
      invariant forall k :: 0 <= k < i ==> sheet[k + 1] == RecordRow(records[k])
    {
      sheet := sheet + [RecordRow(records[i])];
      i := i + 1;
    }
  }

  // ---------------------------------------------------------------------
  // PDF
  // ---------------------------------------------------------------------

  /** Where things land on the page: whether the summary block is drawn and
      how many lines it has, the baseline of the table header, and the
      records drawn with the baseline of each. */
  datatype PdfLayout = PdfLayout(summaryLines: int, headerY: int, rows: seq<Record>, rowYs: seq<int>)

  predicate HasPulse(records: seq<Record>)
  {
    exists r :: r in records && r.pulse.Some?
  }

  /** The rows of the table with their baselines, 18 points apart. */
  function RowPositions(rows: seq<Record>, y: int): (ys: seq<int>)
    ensures |ys| == |rows|
    ensures forall i :: 0 <= i < |ys| ==> ys[i] == y + 18 * i
  {
    if rows == [] then [] else [y] + RowPositions(rows[1..], y + 18)
  }

  /** `exportToPdf`'s layout: the title at 50, the summary (count, two
      averages, the pulse average when any pulse is known) only when there
      are records, the header, then at most 30 records. */
  function PdfPage(records: seq<Record>): (page: PdfLayout)
    ensures page.summaryLines > 0 <==> |records| > 0
    ensures |records| > 0 ==> page.summaryLines == if HasPulse(records) then 4 else 3
    ensures |page.rows| == Min(MaxPdfRows, |records|)
    ensures page.rows == records[..|page.rows|]
    ensures |page.rowYs| == |page.rows|
    ensures forall i :: 0 <= i < |page.rowYs| ==> page.rowYs[i] + 18 <= 800
  {
    var lines := if |records| == 0 then 0 else if HasPulse(records) then 4 else 3;
    var headerY := 90 + (if lines == 0 then 0 else 20 * lines + 10);
    var rows := records[..Min(MaxPdfRows, |records|)];
    PdfLayout(lines, headerY, rows, RowPositions(rows, headerY + 20))
  }
}
