/** The decision logic of the report endpoints (app/api/routes/reports.py):
    each handler maps what the lookup returned (and, for export, the format
    asked for) to a response body or to the HTTP error it raises. */
module ReportRoutes {
  import opened Wrappers
  import opened Schemas

  const HttpAccepted: int := 202
  const HttpBadRequest: int := 400
  const HttpNotFound: int := 404
  const HttpUnprocessableEntity: int := 422
  const HttpInternalServerError: int := 500

  /** A raised `HTTPException`. */
  datatype HttpError = HttpError(statusCode: int, detail: string)

  /** `ReportResponse`. */
  datatype ReportResponse = ReportResponse(
    questionnaireId: string,
    status: QuestionnaireStatus,
    riskRegister: Option<RiskRegister>,
    auditReport: Option<AuditReport>,
    createdAt: nat,
    processedAt: Option<nat>,
    errorMessage: Option<string>)

  function NotFoundDetail(id: string): string {
    "Questionnaire with ID " + id + " not found"
  }

  const FailedDetailPrefix: string := "Risk assessment processing failed: "

  /** `get_complete_report`. `lookup` is what `get_report` returned or raised. */
  function GetCompleteReport(id: string, lookup: Result<Option<ProcessedQuestionnaire>, string>): (r: Result<ReportResponse, HttpError>)
    ensures lookup == Success(None) ==> r == Failure(HttpError(HttpNotFound, NotFoundDetail(id)))
    ensures lookup.Failure? ==> r.Failure? && r.error.statusCode == HttpInternalServerError
    ensures lookup.Success? && lookup.value.Some? ==>
      var rec := lookup.value.value;
      && (rec.status in {Submitted, InProgress} <==> r.Failure? && r.error.statusCode == HttpAccepted)
      && (rec.status == Failed <==> r.Failure? && r.error.statusCode == HttpUnprocessableEntity)
      && (rec.status == Failed ==> r.error.detail == FailedDetailPrefix + PyStr(rec.errorMessage))
      && (rec.status == Completed <==> r.Success?)
      && (r.Success? ==> r.value == ReportResponse(rec.questionnaireId, rec.status, rec.riskRegister,
                                                    rec.auditReport, rec.createdAt, rec.processedAt,
                                                    rec.errorMessage))
  {
    match lookup
    case Failure(msg) => Failure(HttpError(HttpInternalServerError, "Failed to get risk register report: " + msg))
    case Success(None) => Failure(HttpError(HttpNotFound, NotFoundDetail(id)))
    case Success(Some(rec)) =>
      if rec.status == Submitted then
        Failure(HttpError(HttpAccepted, "Questionnaire is still being processed. Please check back later."))
      else if rec.status == InProgress then
        Failure(HttpError(HttpAccepted, "Risk assessment is currently in progress. Please check back later."))
      else if rec.status == Failed then
        Failure(HttpError(HttpUnprocessableEntity, FailedDetailPrefix + PyStr(rec.errorMessage)))
      else
        Success(ReportResponse(rec.questionnaireId, rec.status, rec.riskRegister, rec.auditReport,
                               rec.createdAt, rec.processedAt, rec.errorMessage))
  }

  /** `str.lower()` on ASCII letters. Only 'J', 'S', 'O', 'N', 'C', 'V' lower
      to the letters of "json" and "csv", so the two format tests come out
      as Python's do. */
  function LowerChar(c: char): char {
    if 'A' <= c <= 'Z' then (c as int + 32) as char else c
  }

  /** No upper-case ASCII letter is left; each one becomes its lower-case
      letter; every other character is kept. */
  function Lower(s: string): (r: string)
    ensures |r| == |s|
    ensures forall i :: 0 <= i < |r| ==> !('A' <= r[i] <= 'Z')
    ensures forall i :: 0 <= i < |s| && 'A' <= s[i] <= 'Z' ==> r[i] as int == s[i] as int + 32
    ensures forall i :: 0 <= i < |s| && !('A' <= s[i] <= 'Z') ==> r[i] == s[i]
  {
    seq(|s|, i requires 0 <= i < |s| => LowerChar(s[i]))
  }

  /** The body of a successful export. */
  datatype ExportResponse =
    | ExportJson(questionnaireId: string, data: Option<RiskRegister>)
    | ExportCsv(questionnaireId: string, rows: seq<Risk>)

  const NotReadyDetail: string := "Risk register is not ready for export. Processing may still be in progress or failed."
  const NoRiskDataDetail: string := "No risk data available for export"
  const UnsupportedFormatDetail: string := "Unsupported export format. Supported formats: json, csv"

  /** `export_risk_register`. */
  function ExportRiskRegister(id: string, lookup: Result<Option<ProcessedQuestionnaire>, string>, format: string): (r: Result<ExportResponse, HttpError>)
    ensures lookup == Success(None) ==> r == Failure(HttpError(HttpNotFound, NotFoundDetail(id)))
    ensures lookup.Failure? ==> r.Failure? && r.error.statusCode == HttpInternalServerError
    ensures lookup.Success? && lookup.value.Some? ==>
      var rec := lookup.value.value;
      && (rec.status != Completed ==> r == Failure(HttpError(HttpUnprocessableEntity, NotReadyDetail)))
      && (rec.status == Completed && Lower(format) == "json" ==> r == Success(ExportJson(id, rec.riskRegister)))
      && (rec.status == Completed && Lower(format) == "csv" ==>
            r == if rec.riskRegister.None? then Failure(HttpError(HttpUnprocessableEntity, NoRiskDataDetail))
                 else Success(ExportCsv(id, rec.riskRegister.value.risks)))
      && (rec.status == Completed && Lower(format) !in {"json", "csv"} ==>
            r == Failure(HttpError(HttpBadRequest, UnsupportedFormatDetail)))
  {
    match lookup
    case Failure(msg) => Failure(HttpError(HttpInternalServerError, "Failed to export risk register: " + msg))
    case Success(None) => Failure(HttpError(HttpNotFound, NotFoundDetail(id)))
    case Success(Some(rec)) =>
      if rec.status != Completed then Failure(HttpError(HttpUnprocessableEntity, NotReadyDetail))
      else if Lower(format) == "json" then Success(ExportJson(id, rec.riskRegister))
      else if Lower(format) == "csv" then
        if rec.riskRegister.None? then Failure(HttpError(HttpUnprocessableEntity, NoRiskDataDetail))
        else Success(ExportCsv(id, rec.riskRegister.value.risks))
      else Failure(HttpError(HttpBadRequest, UnsupportedFormatDetail))
  }

  /** The format an export request gets when it names none. */
  const DefaultExportFormat: string := "json"

  /** A request that names no format exports the completed register as JSON. */
  lemma ExportDefaultFormat(id: string, rec: ProcessedQuestionnaire)
    requires rec.status == Completed
    ensures ExportRiskRegister(id, Success(Some(rec)), DefaultExportFormat) == Success(ExportJson(id, rec.riskRegister))
  {
    assert Lower(DefaultExportFormat) == "json";
  }

  /** The status test comes before the format is looked at: for a job that
      is not completed, every format gets the same answer. */
  lemma ExportStatusBeforeFormat(id: string, rec: ProcessedQuestionnaire, f1: string, f2: string)
    requires rec.status != Completed
    ensures ExportRiskRegister(id, Success(Some(rec)), f1) == ExportRiskRegister(id, Success(Some(rec)), f2)
  {
  }

  /** Lower-casing twice is lower-casing once. */
  lemma {:induction false} LowerIdempotent(s: string)
    ensures Lower(Lower(s)) == Lower(s)
  {
    var l := Lower(s);
    forall i | 0 <= i < |s|
      ensures Lower(l)[i] == l[i]
    {
      assert !('A' <= l[i] <= 'Z');
    }
  }

  /** Format matching ignores case: a format and its lower-cased form get the same answer. */
  lemma ExportFormatIgnoresCase(id: string, lookup: Result<Option<ProcessedQuestionnaire>, string>, format: string)
    ensures ExportRiskRegister(id, lookup, format) == ExportRiskRegister(id, lookup, Lower(format))
  {
    LowerIdempotent(format);
  }

  /** For instance "JSON" and "Csv" are accepted as "json" and "csv". */
  lemma ExportFormatExamples(id: string, rec: ProcessedQuestionnaire)
    requires rec.status == Completed
    ensures ExportRiskRegister(id, Success(Some(rec)), "JSON") == Success(ExportJson(id, rec.riskRegister))
    ensures ExportRiskRegister(id, Success(Some(rec)), "Csv") == ExportRiskRegister(id, Success(Some(rec)), "csv")
    ensures ExportRiskRegister(id, Success(Some(rec)), "xml") == Failure(HttpError(HttpBadRequest, UnsupportedFormatDetail))
  {
    assert Lower("JSON") == "json";
    assert Lower("Csv") == "csv";
    assert Lower("xml") == "xml";
  }

  /** `AuditReportResponse`. */
  datatype AuditReportResponse = AuditReportResponse(
    questionnaireId: string,
    status: string,
    report: Option<AuditReportSections>,
    companyName: Option<string>,
    departmentName: Option<string>,
    generatedAt: Option<nat>,
    message: string)

  /** `get_audit_report` (the route). `lookup` is what
      `get_processed_questionnaire_with_report` returned; that lookup turns
      its own failures into None. */
  function GetAuditReport(id: string, lookup: Option<ProcessedQuestionnaire>): (r: Result<AuditReportResponse, HttpError>)
    ensures r.Failure? <==> lookup.None? || lookup.value.auditReport.None?
    ensures r.Failure? ==> r.error.statusCode == HttpNotFound
    ensures r.Success? ==>
      var report := lookup.value.auditReport.value;
      && r.value.questionnaireId == id
      && r.value.status == Completed.Value()
      && r.value.report == report.reportSections
      && r.value.companyName == report.companyName
      && r.value.departmentName == report.departmentName
      && r.value.generatedAt == report.generatedAt
  {
    match lookup
    case None => Failure(HttpError(HttpNotFound, NotFoundDetail(id)))
    case Some(rec) =>
      match rec.auditReport
      case None =>
        Failure(HttpError(HttpNotFound, "No audit report found for questionnaire " + id
                                         + ". Generate one first using POST endpoint."))
      case Some(report) =>
        Success(AuditReportResponse(id, "completed", report.reportSections, report.companyName,
                                    report.departmentName, report.generatedAt,
                                    "Audit report retrieved successfully"))
  }
}
