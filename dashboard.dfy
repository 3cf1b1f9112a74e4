/**
 * The dashboard page's state and its handlers: submitting the query form,
 * receiving the query's outcome, and exporting the report.
 */
module Dashboard {
  import opened Wrappers
  import opened Decimal
  import opened Reconciliation
  import opened Report

  const ValidationMessage := "Por favor, ingrese un usuario y un directorio."

  const FallbackMessage := "Ocurrió un error al buscar el reporte."

  /** JSON text of an object or an array, as `JSON.stringify` writes it. */
  type JsonText = s: string | |s| >= 2 && (s[0] == '{' || s[0] == '[') witness "{}"

  /**
   * The body of a failed query's response: no response at all (network
   * failure), a text body, or a body that was JSON. Objects and arrays carry
   * their serialised text.
   */
  datatype ErrorBody =
    | NoResponse
    | TextBody(text: string)
    | NullBody
    | BoolBody(flag: bool)
    | NumberBody(number: int)
    | StructuredBody(json: JsonText)

  /**
   * JavaScript truthiness of the response body: exactly the missing body,
   * `null`, the empty string, `false` and `0` are falsy.
   */
  predicate Truthy(body: ErrorBody): (truthy: bool)
    ensures !truthy <==>
              body in {NoResponse, NullBody, TextBody(""), BoolBody(false), NumberBody(0)}
  {
    match body
    case NoResponse => false
    case TextBody(t) => t != ""
    case NullBody => false
    case BoolBody(b) => b
    case NumberBody(n) => n != 0
    case StructuredBody(_) => true
  }

  /**
   * The message shown for a failed query: the body if it is text, its JSON
   * serialisation otherwise, or the fixed fallback when the body is falsy.
   */
  function ErrorMessage(body: ErrorBody): (message: string)
    ensures message != ""
    ensures !Truthy(body) ==> message == FallbackMessage
    ensures body.TextBody? && Truthy(body) ==> message == body.text
    ensures body.NumberBody? && Truthy(body) ==> ParseInt(message) == Some(body.number)
    ensures body == BoolBody(true) ==> message == "true"
    ensures body.StructuredBody? ==> message == body.json
  {
    if !Truthy(body) then FallbackMessage
    else
      match body
      case TextBody(t) => t
      case BoolBody(_) => "true"
      case NumberBody(n) => IntToString(n)
      case StructuredBody(j) => j
  }

  /** How the awaited query ends. */
  datatype FetchOutcome = Fetched(payload: ReportData) | FetchFailed(body: ErrorBody)

  class DashboardPage {
    var username: string
    var directorio: string
    var anticipo: AdvanceField
    var reportData: Option<ReportData>
    var loading: bool
    var error: string

    /** While a query is in flight, neither a report nor an error is shown. */
    ghost predicate Valid()
      reads this
    {
      loading ==> reportData == None && error == ""
    }

    constructor ()
      ensures Valid()
      ensures username == "" && directorio == "" && anticipo == Blank
      ensures reportData == None && !loading && error == ""
    {
      username, directorio, anticipo := "", "", Blank;
      reportData, loading, error := None, false, "";
    }

    method SetUsername(value: string)
      requires Valid()
      modifies this`username
      ensures Valid() && username == value
    {
      username := value;
    }

    method SetDirectorio(value: string)
      requires Valid()
      modifies this`directorio
      ensures Valid() && directorio == value
    {
      directorio := value;
    }

    method SetAnticipo(value: AdvanceField)
      requires Valid()
      modifies this`anticipo
      ensures Valid() && anticipo == value
    {
      anticipo := value;
    }

    /**
     * The submit handler up to the query: reject an empty user or period,
     * otherwise clear the previous result and mark the query as in flight.
     */
    method BeginFetch() returns (requested: bool)
      requires Valid() && !loading
      modifies this`loading, this`error, this`reportData
      ensures Valid()
      ensures requested <==> username != "" && directorio != ""
      ensures !requested ==>
                error == ValidationMessage && reportData == old(reportData) && !loading
      ensures requested ==> loading && error == "" && reportData == None
    {
      if username == "" || directorio == "" {
        error := ValidationMessage;
        return false;
      }
      loading := true;
      error := "";
      reportData := None;
      requested := true;
    }

    /** The submit handler after the query: record its outcome and leave the loading state. */
    method CompleteFetch(outcome: FetchOutcome)
      requires Valid() && loading
      modifies this`loading, this`error, this`reportData
      ensures Valid() && !loading
      ensures outcome.Fetched? ==> reportData == Some(outcome.payload) && error == ""
      ensures outcome.FetchFailed? ==> reportData == None && error == ErrorMessage(outcome.body)
      ensures reportData.Some? != (error != "")
    {
      match outcome {
        case Fetched(payload) =>
          reportData := Some(payload);
        case FetchFailed(body) =>
          error := ErrorMessage(body);
      }
      loading := false;
    }

    /**
     * A whole submission, with the query's outcome given: rejected before any
     * query, or run to exactly one of a report and an error message.
     */
    method HandleFetchReport(outcome: FetchOutcome) returns (requested: bool)
      requires Valid() && !loading
      modifies this`loading, this`error, this`reportData
      ensures Valid() && !loading
      ensures requested <==> username != "" && directorio != ""
      ensures !requested ==> error == ValidationMessage && reportData == old(reportData)
      ensures requested && outcome.Fetched? ==> reportData == Some(outcome.payload) && error == ""
      ensures requested && outcome.FetchFailed? ==>
                reportData == None && error == ErrorMessage(outcome.body)
      ensures requested ==> reportData.Some? != (error != "")
    {
      requested := BeginFetch();
      if requested {
        CompleteFetch(outcome);
      }
    }

    /**
     * The export: nothing without a report; otherwise the summary lines for
     * the current advance and one table row per invoice, saved under a name
     * made from the report's period.
     */
    method GeneratePdf() returns (outcome: PdfOutcome)
      ensures reportData.None? ==> outcome == NotGenerated
      ensures reportData.Some? && reportData.value.facturas.None? ==> outcome == Aborted
      ensures reportData.Some? && reportData.value.facturas.Some? ==>
                outcome.Saved? &&
                outcome.fileName == "reporte-" + reportData.value.directorio + ".pdf" &&
                outcome.doc.lines == SummaryLines(reportData.value, AdvanceCents(anticipo)) &&
                outcome.doc.head == TableHead &&
                outcome.doc.body == TableRows(reportData.value.facturas.value)
    {
      if reportData.None? {
        return NotGenerated;
      }
      var data := reportData.value;
      var anticipoNum := AdvanceCents(anticipo);
      var lines := SummaryLines(data, anticipoNum);
      if data.facturas.None? {
        return Aborted;
      }
      var tableRows := BuildTableRows(data.facturas.value);
      outcome := Saved("reporte-" + data.directorio + ".pdf", PdfDocument(lines, TableHead, tableRows));
    }
  }
}
