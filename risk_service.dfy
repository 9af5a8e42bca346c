/** `RiskAssessmentService` (app/services/risk_service.py): submission,
    the background processing run that drives a job from submitted through
    in_progress to completed or failed, and the status lookup.
    `ProcessRun` is the run as a function of the store before it; the
    class's `Process` is proved to follow it. */
module Risks {
  import opened Wrappers
  import opened Decimal
  import opened Schemas
  import opened Store
  import opened Llm
  import opened Reports

  /** Messages of the exceptions the run raises itself. */
  const NotFoundMessage: string := "Questionnaire not found"
  const GenerationFailedMessage: string := "Failed to generate risks from LLM"
  /** `str(e)` of pydantic's validation error; its exact text is not modelled. */
  const RiskValidationError: string := "validation error for Risk"
  /** The exception `get_report` raises when the read outlives its time budget. */
  const TimeoutMessage: string := "Database query timeout"

  // Enrichment.

  /** `f"Risk_{department}_{idx}"` and its two siblings; a None department prints as "None". */
  function RiskRef(department: Option<string>, idx: nat): string {
    "Risk_" + PyStr(department) + "_" + NatToString(idx)
  }

  function ControlRef(department: Option<string>, idx: nat): string {
    "Control_" + PyStr(department) + "_" + NatToString(idx)
  }

  function ActionRef(department: Option<string>, idx: nat): string {
    "Action_" + PyStr(department) + "_" + NatToString(idx)
  }

  /** `risk_data.update({...})` for the risk at 1-based position `idx`. */
  function EnrichOne(r: Risk, department: Option<string>, idx: nat): Risk {
    r.(riskEventReference := Some(RiskRef(department, idx)),
       controlRef := Some(ControlRef(department, idx)),
       actionPlanReference := Some(ActionRef(department, idx)),
       riskDataSources := Some(CsaSources))
  }

  /** The enrichment loop: every risk is updated by its position and
      re-validated as a `Risk`; one that fails validation fails the whole list. */
  function Enrich(raw: seq<Risk>, department: Option<string>): Result<seq<Risk>, string> {
    if forall i :: 0 <= i < |raw| ==> ValidRisk(EnrichOne(raw[i], department, i + 1))
    then Success(seq(|raw|, i requires 0 <= i < |raw| => EnrichOne(raw[i], department, i + 1)))
    else Failure(RiskValidationError)
  }

  /** The `for idx, risk in enumerate(llm_risks.risks, start=1)` loop that
      appends each enriched, re-validated risk. */
  method EnrichRisks(raw: seq<Risk>, department: Option<string>) returns (result: Result<seq<Risk>, string>)
    ensures result == Enrich(raw, department)
  {
    var enriched: seq<Risk> := [];
    var idx := 1;
    while idx <= |raw|
      invariant 1 <= idx <= |raw| + 1
      invariant |enriched| == idx - 1
      invariant forall i :: 0 <= i < idx - 1 ==> enriched[i] == EnrichOne(raw[i], department, i + 1)
      invariant forall i :: 0 <= i < idx - 1 ==> ValidRisk(EnrichOne(raw[i], department, i + 1))
    {
      var risk := EnrichOne(raw[idx - 1], department, idx);
      if !ValidRisk(risk) {
        assert !ValidRisk(EnrichOne(raw[idx - 1], department, (idx - 1) + 1));
        return Failure(RiskValidationError);
      }
      enriched := enriched + [risk];
      idx := idx + 1;
    }
    assert enriched == seq(|raw|, i requires 0 <= i < |raw| => EnrichOne(raw[i], department, i + 1));
    result := Success(enriched);
  }

  // Submission.

  /** The record `submit_questionnaire` inserts: status submitted, the
      request's text and metadata, no register, report, processing time or
      error; created and updated at time `t`. */
  function NewRecord(request: QuestionnaireRequest, id: string, t: nat): ProcessedQuestionnaire {
    ProcessedQuestionnaire(
      questionnaireId := id,
      originalData := request.questionnaireData,
      riskRegister := None,
      auditReport := None,
      status := Submitted,
      createdAt := t,
      updatedAt := t,
      processedAt := None,
      errorMessage := None,
      companyName := Some(request.companyName),
      department := request.department,
      submittedBy := request.submittedBy)
  }

  // The processing run.

  /** The `except` block: record the failure with its message. */
  function Fail(s: DbState, id: string, message: string, faults: Faults): DbState {
    Write(s, id, SetFailed(message), FaultAt(faults, FailedWrite))
  }

  /** `_process_questionnaire_async`. The report stage runs on the store
      that already holds the register, with the record's own company and
      department; its outcome does not decide the final status. */
  function ProcessRun(s0: DbState, id: string, riskOracle: nat -> AttemptOutcome<seq<Risk>>,
                      reportOracle: nat -> AttemptOutcome<AuditReportSections>, faults: Faults): DbState
  {
    var s1 := Write(s0, id, SetInProgress, FaultAt(faults, InProgressWrite));
    if InProgressWrite in faults then Fail(s1, id, faults[InProgressWrite], faults)
    else match Find(s1, id, FaultAt(faults, ReadBack))
      case Failure(msg) => Fail(s1, id, msg, faults)
      case Success(None) => Fail(s1, id, NotFoundMessage, faults)
      case Success(Some(rec)) =>
        var generated := Retry(riskOracle, DefaultMaxRetries).value;
        if generated.None? || |generated.value| == 0 then Fail(s1, id, GenerationFailedMessage, faults)
        else match Enrich(generated.value, rec.department)
          case Failure(msg) => Fail(s1, id, msg, faults)
          case Success(enriched) =>
            var s2 := Write(s1, id, SetRegister(RiskRegister(enriched)), FaultAt(faults, RegisterWrite));
            if RegisterWrite in faults then Fail(s2, id, faults[RegisterWrite], faults)
            else
              var s3 := AuditReportStage(s2, id, rec.companyName, rec.department, false, reportOracle, faults).state;
              var s4 := Write(s3, id, SetCompleted, FaultAt(faults, CompletedWrite));
              if CompletedWrite in faults then Fail(s4, id, faults[CompletedWrite], faults) else s4
  }

  /** How the status read of `get_report` can raise. */
  datatype ReadFault = Timeout | StoreError(message: string)

  class RiskAssessmentService {
    const db: Database
    const systemPrompt: string
    const reportSystemPrompt: string

    constructor (db: Database, systemPrompt: string, reportSystemPrompt: string)
      ensures this.db == db && this.systemPrompt == systemPrompt && this.reportSystemPrompt == reportSystemPrompt
    {
      this.db := db;
      this.systemPrompt := systemPrompt;
      this.reportSystemPrompt := reportSystemPrompt;
    }

    /** `submit_questionnaire`: build the record stamped now and insert it
        under `id` (a fresh uuid in the source). When the insert raises, the
        exception escapes, nothing is stored and no run is scheduled; on
        success the caller schedules the run by calling `Process`. */
    method Submit(request: QuestionnaireRequest, id: string, fault: Option<string>)
      returns (r: Result<ProcessedQuestionnaire, string>)
      modifies db
      ensures db.clock == old(db.clock) + 1
      ensures r == if fault.Some? then Failure(fault.value)
                   else if id in old(db.questionnaires) then Failure(DuplicateKeyMessage)
                   else Success(NewRecord(request, id, db.clock))
      ensures db.questionnaires == if r.Success? then old(db.questionnaires)[id := r.value] else old(db.questionnaires)
    {
      var t := db.Now();
      var doc := NewRecord(request, id, t);
      var err := db.InsertOne(doc, fault);
      if err.Some? {
        return Failure(err.value);
      }
      r := Success(doc);
    }

    /** `_process_questionnaire_async`; `failure` stands for the exception
        caught by the `except` block. */
    method Process(id: string, riskOracle: nat -> AttemptOutcome<seq<Risk>>,
                   reportOracle: nat -> AttemptOutcome<AuditReportSections>, faults: Faults)
      modifies db
      ensures db.State() == ProcessRun(old(db.State()), id, riskOracle, reportOracle, faults)
    {
      var failure: Option<string> := None;
      var err := db.UpdateOne(id, SetInProgress, FaultAt(faults, InProgressWrite));
      if err.Some? {
        failure := err;
      } else {
        var found := db.FindOne(id, FaultAt(faults, ReadBack));
        if found.Failure? {
          failure := Some(found.error);
        } else if found.value.None? {
          failure := Some(NotFoundMessage);
        } else {
          // The stored record always has a `department` key, so its value
          // (possibly None) is what `document.get` returns.
          var document := found.value.value;
          var llmRisks, _ := ParseResponse(riskOracle, systemPrompt, document.originalData, DefaultMaxRetries);
          if llmRisks.None? || |llmRisks.value| == 0 {
            failure := Some(GenerationFailedMessage);
          } else {
            var enriched := EnrichRisks(llmRisks.value, document.department);
            if enriched.Failure? {
              failure := Some(enriched.error);
            } else {
              // A register object is always truthy: its `else` branch cannot run.
              err := db.UpdateOne(id, SetRegister(RiskRegister(enriched.value)), FaultAt(faults, RegisterWrite));
              if err.Some? {
                failure := err;
              } else {
                var reportService := new ReportService(db, reportSystemPrompt);
                var sections := reportService.GenerateAuditReport(
                  id, document.companyName, document.department, false, reportOracle, faults);
                // Both outcomes of the report stage write status completed.
                err := db.UpdateOne(id, SetCompleted, FaultAt(faults, CompletedWrite));
                failure := err;
              }
            }
          }
        }
      }
      if failure.Some? {
        err := db.UpdateOne(id, SetFailed(failure.value), FaultAt(faults, FailedWrite));
      }
    }

    /** `get_report`: the record or None, without writing; a timed-out read
        raises "Database query timeout", any other store error is re-raised. */
    method GetReport(id: string, fault: Option<ReadFault>) returns (r: Result<Option<ProcessedQuestionnaire>, string>)
      ensures fault == Some(Timeout) ==> r == Failure(TimeoutMessage)
      ensures fault.Some? && fault.value.StoreError? ==> r == Failure(fault.value.message)
      ensures fault.None? ==> r.Success? && (r.value.Some? <==> id in db.questionnaires)
      ensures fault.None? && id in db.questionnaires ==> r.value == Some(db.questionnaires[id])
    {
      match fault
      case Some(Timeout) =>
        r := Failure(TimeoutMessage);
      case Some(StoreError(msg)) =>
        r := Failure(msg);
      case None =>
        r := db.FindOne(id, None);
    }
  }
}
