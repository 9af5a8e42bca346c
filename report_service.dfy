/** `ReportService` (app/services/report_service.py): the audit-report stage.
    `AuditReportStage` is the stage as a function of the store before it;
    the class's `GenerateAuditReport` is proved to follow it. The read-only
    lookups are functions of the store's contents. */
module Reports {
  import opened Wrappers
  import opened Schemas
  import opened Store
  import opened Llm

  /** The store after the stage and the sections it returns. */
  datatype StageResult = StageResult(state: DbState, sections: Option<AuditReportSections>)

  /** The user prompt of the report request: company and department lines
      (an absent or empty department reads "Not specified"). */
  function ReportUserPrompt(company: Option<string>, department: Option<string>): string {
    "Company: " + PyStr(company) + "\nDepartment: "
      + (if department.Some? && department.value != "" then department.value else "Not specified")
  }

  /** An existing report with sections that may be returned as it is. */
  predicate HasReusableReport(rec: ProcessedQuestionnaire, forceRegenerate: bool) {
    rec.auditReport.Some? && rec.auditReport.value.reportSections.Some? && !forceRegenerate
  }

  /** `generate_audit_report`: every exception, from the store or from
      storing the report, ends as a None result. */
  function AuditReportStage(s: DbState, id: string, companyName: Option<string>, departmentName: Option<string>,
                            forceRegenerate: bool, oracle: nat -> AttemptOutcome<AuditReportSections>,
                            faults: Faults): StageResult
  {
    match Find(s, id, FaultAt(faults, ReportRead))
    case Failure(_) => StageResult(s, None)
    case Success(None) => StageResult(s, None)
    case Success(Some(rec)) =>
      if HasReusableReport(rec, forceRegenerate) then StageResult(s, rec.auditReport.value.reportSections)
      else if rec.riskRegister.None? then StageResult(s, None)
      else
        var generated := Retry(oracle, DefaultMaxRetries).value;
        if generated.None? then StageResult(s, None)
        else
          var s' := Write(s, id, SetAuditReport(id, PyOr(rec.companyName, companyName),
                                                PyOr(rec.department, departmentName), generated.value),
                          FaultAt(faults, ReportWrite));
          StageResult(s', if ReportWrite in faults then None else generated)
  }

  /** `get_audit_report`: the stored report, or None when the record or its
      report is missing or the read raised. */
  function GetAuditReport(s: DbState, id: string, fault: Option<string>): (r: Option<AuditReport>)
    ensures r.Some? <==> fault.None? && id in s.docs && s.docs[id].auditReport.Some?
    ensures r.Some? ==> r == s.docs[id].auditReport
  {
    match Find(s, id, fault)
    case Success(Some(rec)) => rec.auditReport
    case _ => None
  }

  /** `get_processed_questionnaire_with_report`: the whole record, or None
      when it is missing or the read raised. */
  function GetProcessedQuestionnaireWithReport(s: DbState, id: string, fault: Option<string>): (r: Option<ProcessedQuestionnaire>)
    ensures r.Some? <==> fault.None? && id in s.docs
    ensures r.Some? ==> r.value == s.docs[id]
  {
    match Find(s, id, fault)
    case Success(Some(rec)) => Some(rec)
    case _ => None
  }

  class ReportService {
    const db: Database
    const systemPrompt: string

    constructor (db: Database, systemPrompt: string)
      ensures this.db == db && this.systemPrompt == systemPrompt
    {
      this.db := db;
      this.systemPrompt := systemPrompt;
    }

    /** `_store_audit_report`: overwrite `audit_report` (stamped now, status
        completed) and `updated_at`; a store exception is passed on in `err`. */
    method StoreAuditReport(id: string, companyName: Option<string>, departmentName: Option<string>,
                            sections: AuditReportSections, fault: Option<string>) returns (err: Option<string>)
      modifies db
      ensures db.State() == Write(old(db.State()), id, SetAuditReport(id, companyName, departmentName, sections), fault)
      ensures err == fault
    {
      err := db.UpdateOne(id, SetAuditReport(id, companyName, departmentName, sections), fault);
    }

    /** `generate_audit_report`. */
    method GenerateAuditReport(id: string, companyName: Option<string>, departmentName: Option<string>,
                               forceRegenerate: bool, oracle: nat -> AttemptOutcome<AuditReportSections>,
                               faults: Faults)
      returns (sections: Option<AuditReportSections>)
      modifies db
      ensures StageResult(db.State(), sections)
           == AuditReportStage(old(db.State()), id, companyName, departmentName, forceRegenerate, oracle, faults)
    {
      var found := db.FindOne(id, FaultAt(faults, ReportRead));
      if found.Failure? || found.value.None? {
        return None;
      }
      var rec := found.value.value;
      if HasReusableReport(rec, forceRegenerate) {
        return rec.auditReport.value.reportSections;
      }
      if rec.riskRegister.None? {
        return None;
      }
      var storedCompany := PyOr(rec.companyName, companyName);
      var storedDepartment := PyOr(rec.department, departmentName);
      var generated, _ := ParseResponse(oracle, systemPrompt, ReportUserPrompt(storedCompany, storedDepartment), DefaultMaxRetries);
      if generated.None? {
        return None;
      }
      var err := StoreAuditReport(id, storedCompany, storedDepartment, generated.value, FaultAt(faults, ReportWrite));
      if err.Some? {
        return None;
      }
      sections := generated;
    }
  }

  // Properties of the stage.

  /** An unknown id: None, and nothing is written. */
  lemma StageUnknownId(s: DbState, id: string, company: Option<string>, dept: Option<string>, force: bool,
                       oracle: nat -> AttemptOutcome<AuditReportSections>, faults: Faults)
    requires id !in s.docs
    ensures AuditReportStage(s, id, company, dept, force, oracle, faults) == StageResult(s, None)
  {
  }

  /** An existing report with sections and no forced regeneration: its
      sections are returned, nothing is generated or written; this is decided
      before the register is looked at. */
  lemma StageReusesExistingReport(s: DbState, id: string, company: Option<string>, dept: Option<string>,
                                  oracle: nat -> AttemptOutcome<AuditReportSections>, faults: Faults)
    requires ReportRead !in faults && id in s.docs && HasReusableReport(s.docs[id], false)
    ensures AuditReportStage(s, id, company, dept, false, oracle, faults)
         == StageResult(s, s.docs[id].auditReport.value.reportSections)
  {
  }

  /** No reusable report and no register: None, record unchanged. */
  lemma StageNeedsRegister(s: DbState, id: string, company: Option<string>, dept: Option<string>, force: bool,
                           oracle: nat -> AttemptOutcome<AuditReportSections>, faults: Faults)
    requires id in s.docs && !HasReusableReport(s.docs[id], force) && s.docs[id].riskRegister.None?
    ensures AuditReportStage(s, id, company, dept, force, oracle, faults) == StageResult(s, None)
  {
  }

  /** Generation exhausted (or parsed to None): None, record unchanged. */
  lemma StageGenerationFailure(s: DbState, id: string, company: Option<string>, dept: Option<string>, force: bool,
                               oracle: nat -> AttemptOutcome<AuditReportSections>, faults: Faults)
    requires id in s.docs && !HasReusableReport(s.docs[id], force)
    requires Retry(oracle, DefaultMaxRetries).value.None?
    ensures AuditReportStage(s, id, company, dept, force, oracle, faults) == StageResult(s, None)
  {
  }

  /** A raising store never escapes the stage: a failed read or a failed
      store of the report yields None and leaves every record as it was. */
  lemma StageSwallowsStoreFaults(s: DbState, id: string, company: Option<string>, dept: Option<string>, force: bool,
                                 oracle: nat -> AttemptOutcome<AuditReportSections>, faults: Faults)
    requires ReportRead in faults || (ReportWrite in faults && !(id in s.docs && HasReusableReport(s.docs[id], force)))
    ensures AuditReportStage(s, id, company, dept, force, oracle, faults).sections == None
    ensures AuditReportStage(s, id, company, dept, force, oracle, faults).state.docs == s.docs
  {
  }

  /** Generation success: the report is stored with the record's own company
      and department when they are set (the arguments only fill in a None or
      empty one), the fresh sections, a new `generated_at` and status
      completed; `updated_at` moves to the same time; nothing else changes. */
  lemma StageStoresGeneratedReport(s: DbState, id: string, company: Option<string>, dept: Option<string>, force: bool,
                                   oracle: nat -> AttemptOutcome<AuditReportSections>, faults: Faults)
    requires ReportRead !in faults && ReportWrite !in faults
    requires id in s.docs && !HasReusableReport(s.docs[id], force) && s.docs[id].riskRegister.Some?
    requires Retry(oracle, DefaultMaxRetries).value.Some?
    ensures var rec := s.docs[id];
      var sec := Retry(oracle, DefaultMaxRetries).value.value;
      var r := AuditReportStage(s, id, company, dept, force, oracle, faults);
      && r.sections == Some(sec)
      && r.state.clock == s.clock + 1
      && r.state.docs == s.docs[id := rec.(
           auditReport := Some(AuditReport(id, PyOr(rec.companyName, company), PyOr(rec.department, dept),
                                           Some(sec), Some(s.clock + 1), Completed)),
           updatedAt := s.clock + 1)]
  {
  }

  /** The stage never changes a record's status, nor any field other than
      `audit_report` and `updated_at`, nor which ids exist. */
  lemma StageTouchesOnlyReport(s: DbState, id: string, company: Option<string>, dept: Option<string>, force: bool,
                               oracle: nat -> AttemptOutcome<AuditReportSections>, faults: Faults)
    ensures var r := AuditReportStage(s, id, company, dept, force, oracle, faults);
      && r.state.docs.Keys == s.docs.Keys
      && forall k :: k in s.docs ==>
           r.state.docs[k] == s.docs[k].(auditReport := r.state.docs[k].auditReport,
                                         updatedAt := r.state.docs[k].updatedAt)
  {
  }

  /** Whatever sections the stage returns are the ones the record holds afterwards. */
  lemma StageReturnsStoredSections(s: DbState, id: string, company: Option<string>, dept: Option<string>, force: bool,
                                   oracle: nat -> AttemptOutcome<AuditReportSections>, faults: Faults)
    ensures var r := AuditReportStage(s, id, company, dept, force, oracle, faults);
      r.sections.Some? ==>
        && id in r.state.docs && r.state.docs[id].auditReport.Some?
        && r.state.docs[id].auditReport.value.reportSections == r.sections
  {
  }

  /** Idempotence: once the stage has returned sections, running it again
      without forcing returns the same sections and writes nothing, so
      `generated_at` stays as it was. */
  lemma {:induction false} StageIdempotent(s: DbState, id: string, company: Option<string>, dept: Option<string>, force: bool,
                                           oracle: nat -> AttemptOutcome<AuditReportSections>, faults: Faults,
                                           company2: Option<string>, dept2: Option<string>,
                                           oracle2: nat -> AttemptOutcome<AuditReportSections>, faults2: Faults)
    requires ReportRead !in faults2
    requires AuditReportStage(s, id, company, dept, force, oracle, faults).sections.Some?
    ensures var r1 := AuditReportStage(s, id, company, dept, force, oracle, faults);
      AuditReportStage(r1.state, id, company2, dept2, false, oracle2, faults2) == r1
  {
    StageReturnsStoredSections(s, id, company, dept, force, oracle, faults);
  }

  /** Forced regeneration that succeeds stamps the report later than any
      report stored before it. */
  lemma {:induction false} ForcedRegenerationAdvancesGeneratedAt(s: DbState, id: string, company: Option<string>,
                                                                 dept: Option<string>,
                                                                 oracle: nat -> AttemptOutcome<AuditReportSections>,
                                                                 faults: Faults)
    requires TimestampsBounded(s)
    requires id in s.docs && s.docs[id].auditReport.Some? && s.docs[id].auditReport.value.generatedAt.Some?
    requires AuditReportStage(s, id, company, dept, true, oracle, faults).sections.Some?
    ensures var r := AuditReportStage(s, id, company, dept, true, oracle, faults);
      && r.state.docs[id].auditReport.value.generatedAt.Some?
      && r.state.docs[id].auditReport.value.generatedAt.value > s.docs[id].auditReport.value.generatedAt.value
  {
    assert RecordTimestampsBounded(s.docs[id], s.clock);
  }

  /** The read-only getter serves what the stage returned. */
  lemma GetAuditReportAfterStage(s: DbState, id: string, company: Option<string>, dept: Option<string>, force: bool,
                                 oracle: nat -> AttemptOutcome<AuditReportSections>, faults: Faults)
    requires AuditReportStage(s, id, company, dept, force, oracle, faults).sections.Some?
    ensures var r := AuditReportStage(s, id, company, dept, force, oracle, faults);
      && GetAuditReport(r.state, id, None).Some?
      && GetAuditReport(r.state, id, None).value.reportSections == r.sections
  {
    StageReturnsStoredSections(s, id, company, dept, force, oracle, faults);
  }
}
