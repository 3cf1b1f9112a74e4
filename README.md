# Settlement report dashboard — verified model

This project models the settlement ("liquidación") dashboard of the
organizer-one client: the page where a user enters a user name, a settlement
period ("directorio") and an advance ("anticipo"), queries the invoices
("facturas") of that period, sees the advance reconciled against the invoice
total, and exports the same report as a PDF.

Amounts are integer cents, so the zero case of the difference and the
two-decimal text are exact. The model has five modules:

- `Wrappers`: `Option`, standing for JavaScript's `null`.
- `Decimal`: `ToFixed2` is `Number.prototype.toFixed(2)` (ECMA-262,
  section 21.1.3.3) on a whole number of cents. `ParseFixed2` reads it back,
  and the round trip shows that the two-decimal text loses nothing.
  `IntToString` prints a whole number as a plain numeral with an optional
  minus sign, which is what JSX and `JSON.stringify` print below 10^21.
- `Reconciliation`: the blank-to-zero advance, the signed difference
  advance − total, and its three-way classification (`Settlement`: a Pagar,
  a Cobrar, or zero). The PDF's difference line and the on-screen difference
  paragraph are kept as the two separate computations the page has, and a
  lemma proves that they agree.
- `Report`: the payload (`ReportData`, `Factura`) and the invoice table.
  `BuildTableRows` is the export's push loop and `ScreenRows` is the screen's
  `map`; both are proved equal to the reference `TableRows`. Also here are the
  PDF's summary lines and the on-screen results card.
- `Dashboard`: the page component as a class whose fields are its state
  `(username, directorio, anticipo, reportData, loading, error)`. Its methods
  are the input handlers, the submit handler and the export. The submit
  handler is split at its one `await`: `BeginFetch` runs the guard and the
  reset, and `CompleteFetch` records the outcome and clears `loading`.
  `HandleFetchReport` runs both. The query's outcome is a parameter: a
  payload, or an error response body.

Behaviour of the code worth noting:

- The total is the payload's `monto_total_calculado` and is never
  recomputed. The invoice count shown is the payload's `numero_facturas`.
- A validation failure sets the message but leaves a previously fetched
  report on screen beside it. It does not clear the report.
- The labels are the code's Spanish ones: "Diferencia a Pagar",
  "Diferencia a Cobrar" and "Diferencia".
- A negative advance is not rejected.
- The export does not guard against a payload without an invoice list.
  Its `forEach` throws, so no file is saved (`PdfOutcome.Aborted`). The
  screen does guard against it and shows the empty-state notice.
- The advance is read at the moment of rendering or exporting, not at the
  moment of the query. Editing it after a query changes both surfaces.

## Model

| member | source | states |
|---|---|---|
| `Decimal.NatToDigits` | client/src/pages/DashboardPage.jsx:57-58 | the whole part of a formatted amount is a non-empty run of digits with no leading zero |
| `Decimal.DigitsToNatOfNatToDigits` | client/src/pages/DashboardPage.jsx:57-58 | reading the whole-part numeral back gives the number it was written from |
| `Decimal.ToFixed2` | client/src/pages/DashboardPage.jsx:57-58 | `toFixed(2)` gives exactly two fraction digits after a point, with a leading minus sign exactly when the amount is negative and no minus sign anywhere for a non-negative amount |
| `Decimal.ParseToFixed2` | client/src/pages/DashboardPage.jsx:75 | the two-decimal text of any amount in cents reads back as that amount (the formatting is lossless) |
| `Decimal.ToFixed2Injective` | client/src/pages/DashboardPage.jsx:187 | two different amounts never print the same text |
| `Decimal.IntToString` | client/src/pages/DashboardPage.jsx:158 | the printed invoice count reads back as the payload's count |
| `Reconciliation.AdvanceCents` | client/src/pages/DashboardPage.jsx:46 | the advance coerced with a fallback to 0 is 0 exactly when the field is blank or holds 0, and is the entered amount otherwise |
| `Reconciliation.Classify` | client/src/pages/DashboardPage.jsx:60-66 | the outcome picked by the sign of the difference records that difference exactly: its signed value is the difference, and its printed magnitude is the difference's absolute value |
| `Reconciliation.ClassifyOfSigned` | client/src/pages/DashboardPage.jsx:60-66 | every outcome comes from exactly one difference, so the three-way rule is a bijection between differences and outcomes |
| `Reconciliation.SettlementRule` | client/src/pages/DashboardPage.jsx:48-66 | exactly one of the three holds: advance > total gives "a Pagar" with amount advance − total; advance < total gives "a Cobrar" with amount total − advance; equality gives the zero line |
| `Reconciliation.PdfDifferenceLine` | client/src/pages/DashboardPage.jsx:48-66 | the export's difference line is the label of the classification of advance − total, then "Bs." and the magnitude with two decimals |
| `Reconciliation.ScreenDifference` | client/src/pages/DashboardPage.jsx:162-171 | the on-screen paragraph's heading is the label of the classification of the coerced advance minus the total, and its whole text is that label, "Bs." and the magnitude with two decimals |
| `Reconciliation.ScreenMatchesPdf` | client/src/pages/DashboardPage.jsx:160-171 | for the same advance field and total, the on-screen difference text equals the export's difference line |
| `Reconciliation.BlankAdvanceIsZero` | client/src/pages/DashboardPage.jsx:160-163 | a blank advance gives the same difference as an advance of 0, on screen and in the export |
| `Reconciliation.DifferenceLineUnsigned` | client/src/pages/DashboardPage.jsx:60-66 | the difference line never contains a minus sign anywhere: the label and the printed magnitude are both unsigned |
| `Reconciliation.DifferenceLineDeterminesDifference` | client/src/pages/DashboardPage.jsx:60-66 | two inputs that print the same difference line have the same signed difference, so the line loses neither the sign nor the amount |
| `Reconciliation.WorkedBlankAdvance` | client/src/pages/DashboardPage.jsx:46-63 | a blank advance against a total of 100.00 prints "Diferencia a Cobrar: Bs. 100.00" |
| `Reconciliation.WorkedShortAdvance` | client/src/pages/DashboardPage.jsx:48-63 | an advance of 150.00 against a total of 200.00 prints "Diferencia a Cobrar: Bs. 50.00" |
| `Reconciliation.WorkedExactAdvance` | client/src/pages/DashboardPage.jsx:48-66 | an advance equal to the total prints "Diferencia: Bs. 0.00" |
| `Report.RowOf` | client/src/pages/DashboardPage.jsx:73-77 | an invoice's row keeps its id and its date as received, and shows its amount with exactly two fraction digits after a point |
| `Report.TableRows` | client/src/pages/DashboardPage.jsx:72-79 | the table has exactly one row per invoice, and row i is the row of invoice i |
| `Report.TableRowAt` | client/src/pages/DashboardPage.jsx:73-77 | row i holds invoice i's id, its amount as two-decimal text that reads back as that amount, and its date unchanged |
| `Report.TableRowsAppend` | client/src/pages/DashboardPage.jsx:72-79 | the table of a concatenated invoice list is the concatenation of the tables, so the order of the rows is the payload's order |
| `Report.BuildTableRows` | client/src/pages/DashboardPage.jsx:70-79 | the push loop builds exactly the reference table `TableRows` of the invoice list |
| `Report.SummaryLines` | client/src/pages/DashboardPage.jsx:51-66 | the export's six text lines in order: the title, "Usuario: " and the user, "Directorio: " and the period, then the advance and the total each after its prefix as two-decimal text that reads back as the amount, then the difference line for advance − total |
| `Report.ScreenRows` | client/src/pages/DashboardPage.jsx:184-190 | the on-screen `map` gives one row per invoice in the payload's order, each with the invoice's id, its amount as `toFixed(2)` text and its date |
| `Report.ScreenRowsMatchPdf` | client/src/pages/DashboardPage.jsx:184-190 | the on-screen `map` over the invoices gives the same rows as the export's table |
| `Report.ReportCardView` | client/src/pages/DashboardPage.jsx:156-195 | the card's user, period, advance, total and difference read the same as the export's summary lines; the count reads back as the payload's count; the table is shown exactly when the invoice list is present and non-empty, with the export's rows, and the empty-state notice is shown otherwise |
| `Dashboard.Truthy` | client/src/pages/DashboardPage.jsx:35 | the fallback to the fixed message applies exactly when the response body is missing, `null`, the empty string, `false` or the number 0 |
| `Dashboard.ErrorMessage` | client/src/pages/DashboardPage.jsx:35-36 | the error message is never empty; a non-empty text body is shown verbatim; a falsy body gives the fixed fallback message; a `true` body gives "true"; a JSON body is shown serialised |
| `Dashboard.DashboardPage.constructor` | client/src/pages/DashboardPage.jsx:7-12 | the page starts with empty fields, a blank advance, no report, no error and no query in flight |
| `Dashboard.DashboardPage.SetUsername` | client/src/pages/DashboardPage.jsx:108 | editing the user field changes only that field |
| `Dashboard.DashboardPage.SetDirectorio` | client/src/pages/DashboardPage.jsx:119 | editing the period field changes only that field |
| `Dashboard.DashboardPage.SetAnticipo` | client/src/pages/DashboardPage.jsx:130 | editing the advance field changes only that field |
| `Dashboard.DashboardPage.BeginFetch` | client/src/pages/DashboardPage.jsx:16-23 | an empty user or period sets the validation message, sends no query, and leaves the report and `loading` as they were; otherwise the state becomes loading, with no error and no report |
| `Dashboard.DashboardPage.CompleteFetch` | client/src/pages/DashboardPage.jsx:32-38 | success stores the payload as the report; failure stores the error message of the response body; `loading` is cleared either way, and exactly one of report and error is set |
| `Dashboard.DashboardPage.HandleFetchReport` | client/src/pages/DashboardPage.jsx:14-40 | a submission is either rejected by the guard, leaving the report as it was, or ends with `loading` false and exactly one of the report and an error message |
| `Dashboard.DashboardPage.GeneratePdf` | client/src/pages/DashboardPage.jsx:42-88 | no report gives no document; a report without an invoice list aborts; otherwise the file is named "reporte-" + period + ".pdf" and holds the summary lines for the current advance, the three column headings and the reference table of the invoices |

## Left out

- The HTTP query (client/src/pages/DashboardPage.jsx:26-31) is not modelled. Its outcome is a parameter of `CompleteFetch` and `HandleFetchReport`. The `console.error` call is not modelled either.
- The jsPDF and autoTable layout is not modelled: coordinates, font size, `startY`, and the writing of the file. The document is its ordered text lines, its column headings and its rows.
- The page markup is not modelled: the form, the Bootstrap classes, the error alert and the button label. The button's `disabled={loading}` (line 136) appears only as the `!loading` precondition of the submit handler.
- Binary floating point is not modelled. Amounts are whole cents, so sub-cent amounts and the rounding of doubles are outside the model.
- The advance field is blank or an amount. The text-to-number conversion of the input is not modelled, including `NaN`. A number input reports invalid text as blank.
- A success payload that is not an object is not modelled. A falsy one (`null`, an empty body, `0`, `false`) is stored by `setReportData` (line 32), and then both the card (line 147) and the export (line 43) skip it, so the page shows neither a report nor an error. A truthy non-object payload makes the card's `.toFixed` throw while rendering.
- Dashboard.DashboardPage.CompleteFetch: states that exactly one of report and error is set, which holds because the model's successful outcome always carries an object payload; after a falsy payload the page has neither.
- A payload that lacks `monto_total_calculado` or an invoice's `montoTotal` is not modelled. The page would throw on each of these.
- `JSON.stringify` of an object or array is not computed. Such a body carries its serialised text. Non-integer numeric bodies are not modelled.
- Discarding a stale response when submissions overlap is not modelled, and neither is a request timeout. The page does neither. It only disables the button while loading.
- Decimal.IntToString: does not model the exponential text (`1e+21`) JavaScript prints for magnitudes of 10^21 and more, because the invoice count here is an unbounded integer.
- Decimal.ToFixed2: does not model the exponential notation `toFixed` returns for magnitudes of 10^21 and more, because amounts here are unbounded integers of cents.
- Dashboard.DashboardPage.HandleFetchReport: requires that no query is in flight, which the disabled submit button ensures. The handler itself does not check it.
- Dashboard.DashboardPage.BeginFetch: requires that no query is in flight, for the same reason.
- GeneradorReporte/__init__.py, server/server.js, client/src/main.jsx and client/src/App.jsx are not part of this model. They hold a debug cloud function, a login stub and routing.
