/**
 * The report payload, the invoice table built from it, and the two surfaces
 * that show it: the exported PDF (as its ordered text lines and table) and
 * the on-screen results card.
 */
module Report {
  import opened Wrappers
  import opened Decimal
  import opened Reconciliation

  /** One invoice ("factura") of the payload; amounts in cents. */
  datatype Factura = Factura(id: string, montoTotal: int, fechaTransaccion: string)

  /**
   * The payload of a successful query. The invoice list may be missing from
   * it; the count and the total are the figures the service sent.
   */
  datatype ReportData = ReportData(
    username: string,
    directorio: string,
    numeroFacturas: int,
    montoTotalCalculado: int,
    facturas: Option<seq<Factura>>)

  /** One table row: identifier, amount with two decimals, date as received. */
  datatype Row = Row(id: string, monto: string, fecha: string)

  /**
   * The row of one invoice: its id and its date as received, and its amount
   * with exactly two fraction digits (that it reads back is `TableRowAt`).
   */
  function RowOf(f: Factura): (row: Row)
    ensures row.id == f.id && row.fecha == f.fechaTransaccion
    ensures |row.monto| >= 4 && row.monto[|row.monto| - 3] == '.'
    ensures IsDigit(row.monto[|row.monto| - 2]) && IsDigit(row.monto[|row.monto| - 1])
  {
    Row(f.id, ToFixed2(f.montoTotal), f.fechaTransaccion)
  }

  /** The invoice table: one row per invoice, in the payload's order. */
  function TableRows(facturas: seq<Factura>): (rows: seq<Row>)
    ensures |rows| == |facturas|
    ensures forall i :: 0 <= i < |facturas| ==> rows[i] == RowOf(facturas[i])
  {
    if facturas == [] then [] else [RowOf(facturas[0])] + TableRows(facturas[1..])
  }

  /**
   * Row i of the table holds invoice i's id, its amount as two-decimal text
   * that reads back as that amount, and its date unchanged.
   */
  lemma {:induction false} TableRowAt(facturas: seq<Factura>, i: nat)
    requires i < |facturas|
    ensures TableRows(facturas)[i].id == facturas[i].id
    ensures ParseFixed2(TableRows(facturas)[i].monto) == Some(facturas[i].montoTotal)
    ensures TableRows(facturas)[i].fecha == facturas[i].fechaTransaccion
  {
    ParseToFixed2(facturas[i].montoTotal);
  }

  /** Building the table commutes with splitting the invoice list: order is kept. */
  lemma {:induction false} TableRowsAppend(a: seq<Factura>, b: seq<Factura>)
    ensures TableRows(a + b) == TableRows(a) + TableRows(b)
  {
    if a == [] {
      assert a + b == b;
    } else {
      assert (a + b)[1..] == a[1..] + b;
      TableRowsAppend(a[1..], b);
    }
  }

  /** The export's table body, built by pushing one row per invoice. */
  method BuildTableRows(facturas: seq<Factura>) returns (tableRows: seq<Row>)
    ensures tableRows == TableRows(facturas)
  {
    tableRows := [];
    for i := 0 to |facturas|
      invariant |tableRows| == i
      invariant forall k :: 0 <= k < i ==> tableRows[k] == RowOf(facturas[k])
    {
      var factura := facturas[i];
      var facturaData := Row(factura.id, ToFixed2(factura.montoTotal), factura.fechaTransaccion);
      tableRows := tableRows + [facturaData];
    }
  }

  const Title := "Reporte de Liquidación"

  const TableHead := ["ID Factura", "Monto (Bs.)", "Fecha"]

  /** The exported document: its text lines in order, then its table. */
  datatype PdfDocument = PdfDocument(lines: seq<string>, head: seq<string>, body: seq<Row>)

  /**
   * What pressing "Descargar PDF" produces: nothing (no report), nothing
   * because building the table threw (no invoice list), or a saved file.
   */
  datatype PdfOutcome = NotGenerated | Aborted | Saved(fileName: string, doc: PdfDocument)

  const UserPrefix := "Usuario: "
  const PeriodPrefix := "Directorio: "
  const AdvancePrefix := "Anticipo: Bs. "
  const TotalPrefix := "Monto Total facturas: Bs. "

  /** A summary line made of a prefix and an amount: the amount reads back after the prefix. */
  lemma {:induction false} PrefixedAmountReadsBack(prefix: string, cents: int)
    ensures |prefix + ToFixed2(cents)| >= |prefix|
    ensures (prefix + ToFixed2(cents))[..|prefix|] == prefix
    ensures ParseFixed2((prefix + ToFixed2(cents))[|prefix|..]) == Some(cents)
  {
    var amount := ToFixed2(cents);
    assert (prefix + amount)[|prefix|..] == amount;
    ParseToFixed2(cents);
  }

  /**
   * The title and summary lines of the export, top to bottom: the report's
   * user and period, the advance and the total whose amounts read back
   * exactly, and the difference line of advance − total.
   */
  function SummaryLines(data: ReportData, anticipoNum: int): (lines: seq<string>)
    ensures |lines| == 6 && lines[0] == Title
    ensures lines[1] == UserPrefix + data.username
    ensures lines[2] == PeriodPrefix + data.directorio
    ensures |lines[3]| >= |AdvancePrefix| && lines[3][..|AdvancePrefix|] == AdvancePrefix
    ensures ParseFixed2(lines[3][|AdvancePrefix|..]) == Some(anticipoNum)
    ensures |lines[4]| >= |TotalPrefix| && lines[4][..|TotalPrefix|] == TotalPrefix
    ensures ParseFixed2(lines[4][|TotalPrefix|..]) == Some(data.montoTotalCalculado)
    ensures lines[5] == DifferenceText(Classify(anticipoNum - data.montoTotalCalculado))
  {
    PrefixedAmountReadsBack(AdvancePrefix, anticipoNum);
    PrefixedAmountReadsBack(TotalPrefix, data.montoTotalCalculado);
    [ Title,
      UserPrefix + data.username,
      PeriodPrefix + data.directorio,
      AdvancePrefix + ToFixed2(anticipoNum),
      TotalPrefix + ToFixed2(data.montoTotalCalculado),
      PdfDifferenceLine(anticipoNum, data.montoTotalCalculado) ]
  }

  /**
   * The invoice list on screen, via a map: one row per invoice, in order,
   * showing its id, its amount as `toFixed(2)` text, and its date.
   */
  function ScreenRows(facturas: seq<Factura>): (rows: seq<Row>)
    ensures |rows| == |facturas|
    ensures forall i :: 0 <= i < |facturas| ==>
              rows[i].id == facturas[i].id &&
              rows[i].monto == ToFixed2(facturas[i].montoTotal) &&
              rows[i].fecha == facturas[i].fechaTransaccion
  {
    seq(|facturas|, i requires 0 <= i < |facturas| => RowOf(facturas[i]))
  }

  /** The on-screen table and the export's table body are the same rows. */
  lemma {:induction false} ScreenRowsMatchPdf(facturas: seq<Factura>)
    ensures ScreenRows(facturas) == TableRows(facturas)
  {
  }

  const NoInvoicesNotice := "No se encontraron facturas para este periodo."

  /** The invoice section of the results card. */
  datatype TableView = InvoiceTable(rows: seq<Row>) | EmptyNotice(text: string)

  /** The results card shown while a report is held. */
  datatype ReportCard = ReportCard(
    username: string,
    directorio: string,
    invoiceCount: string,
    advance: string,
    total: string,
    difference: DifferenceParagraph,
    invoices: TableView)

  /** The screen's bold label and its "Bs. " amount read as the export's summary prefix and amount. */
  lemma {:induction false} AmountLinesJoin(advance: string, total: string)
    ensures "Anticipo: " + ("Bs. " + advance) == AdvancePrefix + advance
    ensures "Monto Total facturas: " + ("Bs. " + total) == TotalPrefix + total
  {
    assert "Anticipo: " + "Bs. " == AdvancePrefix;
    assert "Monto Total facturas: " + "Bs. " == TotalPrefix;
    assert "Anticipo: " + ("Bs. " + advance) == ("Anticipo: " + "Bs. ") + advance;
    assert "Monto Total facturas: " + ("Bs. " + total) == ("Monto Total facturas: " + "Bs. ") + total;
  }

  /**
   * The results card for a report and the current advance field. Every
   * figure on it reads the same as in the export made from the same state.
   */
  function ReportCardView(data: ReportData, anticipo: AdvanceField): (card: ReportCard)
    ensures UserPrefix + card.username == SummaryLines(data, AdvanceCents(anticipo))[1]
    ensures PeriodPrefix + card.directorio == SummaryLines(data, AdvanceCents(anticipo))[2]
    ensures "Anticipo: " + card.advance == SummaryLines(data, AdvanceCents(anticipo))[3]
    ensures "Monto Total facturas: " + card.total == SummaryLines(data, AdvanceCents(anticipo))[4]
    ensures card.difference.Text() == SummaryLines(data, AdvanceCents(anticipo))[5]
    ensures ParseInt(card.invoiceCount) == Some(data.numeroFacturas)
    ensures card.invoices.InvoiceTable? <==> data.facturas.Some? && data.facturas.value != []
    ensures card.invoices.InvoiceTable? ==> card.invoices.rows == TableRows(data.facturas.value)
    ensures card.invoices.EmptyNotice? ==> card.invoices.text == NoInvoicesNotice
  {
    var total := data.montoTotalCalculado;
    ScreenMatchesPdf(anticipo, total);
    AmountLinesJoin(ToFixed2(AdvanceCents(anticipo)), ToFixed2(total));
    var invoices :=
      if data.facturas.Some? && |data.facturas.value| > 0 then
        ScreenRowsMatchPdf(data.facturas.value);
        InvoiceTable(ScreenRows(data.facturas.value))
      else EmptyNotice(NoInvoicesNotice);
    ReportCard(
      data.username,
      data.directorio,
      IntToString(data.numeroFacturas),
      "Bs. " + ToFixed2(AdvanceCents(anticipo)),
      "Bs. " + ToFixed2(total),
      ScreenDifference(anticipo, total),
      invoices)
  }
}
