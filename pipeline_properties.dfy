/** What one processing run (`_process_questionnaire_async`,
    app/services/risk_service.py) does to the job it is given and to the
    rest of the collection, and what the report endpoints then serve. */
module Pipeline {
  import opened Wrappers
  import opened Schemas
  import opened Store
  import opened Llm
  import opened Reports
  import opened Risks
  import opened Enrichment
  import ReportRoutes

  /** The fields a run never writes: identity, submitted text and metadata, creation time. */
  ghost predicate SameSubmission(a: ProcessedQuestionnaire, b: ProcessedQuestionnaire) {
    && a.questionnaireId == b.questionnaireId
    && a.originalData == b.originalData
    && a.createdAt == b.createdAt
    && a.companyName == b.companyName
    && a.department == b.department
    && a.submittedBy == b.submittedBy
  }

  /** Between `s` and `s'` only the record of `id` changed, and not in its submission fields. */
  ghost predicate OnlyJobChanged(s: DbState, s': DbState, id: string) {
    && s'.docs.Keys == s.docs.Keys
    && (forall k :: k in s.docs && k != id ==> s'.docs[k] == s.docs[k])
    && (id in s.docs ==> SameSubmission(s.docs[id], s'.docs[id]))
    && s.clock <= s'.clock
  }

  // Frame.

  lemma WriteOnlyChangesJob(s: DbState, id: string, u: Update, fault: Option<string>)
    ensures OnlyJobChanged(s, Write(s, id, u, fault), id)
  {
  }

  lemma StageOnlyChangesJob(s: DbState, id: string, company: Option<string>, dept: Option<string>, force: bool,
                            oracle: nat -> AttemptOutcome<AuditReportSections>, faults: Faults)
    ensures OnlyJobChanged(s, AuditReportStage(s, id, company, dept, force, oracle, faults).state, id)
  {
  }

  lemma OnlyJobChangedTrans(s1: DbState, s2: DbState, s3: DbState, id: string)
    requires OnlyJobChanged(s1, s2, id) && OnlyJobChanged(s2, s3, id)
    ensures OnlyJobChanged(s1, s3, id)
  {
  }

  /** A run writes only its own record, never its submission fields, and
      never adds or removes a record. */
  lemma {:induction false} ProcessOnlyChangesItsJob(s0: DbState, id: string, riskOracle: nat -> AttemptOutcome<seq<Risk>>,
                                                     reportOracle: nat -> AttemptOutcome<AuditReportSections>, faults: Faults)
    ensures OnlyJobChanged(s0, ProcessRun(s0, id, riskOracle, reportOracle, faults), id)
  {
    var s1 := Write(s0, id, SetInProgress, FaultAt(faults, InProgressWrite));
    WriteOnlyChangesJob(s0, id, SetInProgress, FaultAt(faults, InProgressWrite));
    if InProgressWrite in faults {
      FailOnlyChangesJob(s0, s1, id, faults[InProgressWrite], faults);
    } else {
      match Find(s1, id, FaultAt(faults, ReadBack))
      case Failure(msg) => FailOnlyChangesJob(s0, s1, id, msg, faults);
      case Success(None) => FailOnlyChangesJob(s0, s1, id, NotFoundMessage, faults);
      case Success(Some(rec)) =>
        var generated := Retry(riskOracle, DefaultMaxRetries).value;
        if generated.None? || |generated.value| == 0 {
          FailOnlyChangesJob(s0, s1, id, GenerationFailedMessage, faults);
        } else {
          match Enrich(generated.value, rec.department)
          case Failure(msg) => FailOnlyChangesJob(s0, s1, id, msg, faults);
          case Success(enriched) =>
            var s2 := Write(s1, id, SetRegister(RiskRegister(enriched)), FaultAt(faults, RegisterWrite));
            WriteOnlyChangesJob(s1, id, SetRegister(RiskRegister(enriched)), FaultAt(faults, RegisterWrite));
            OnlyJobChangedTrans(s0, s1, s2, id);
            if RegisterWrite in faults {
              FailOnlyChangesJob(s0, s2, id, faults[RegisterWrite], faults);
            } else {
              var s3 := AuditReportStage(s2, id, rec.companyName, rec.department, false, reportOracle, faults).state;
              StageOnlyChangesJob(s2, id, rec.companyName, rec.department, false, reportOracle, faults);
              OnlyJobChangedTrans(s0, s2, s3, id);
              var s4 := Write(s3, id, SetCompleted, FaultAt(faults, CompletedWrite));
              WriteOnlyChangesJob(s3, id, SetCompleted, FaultAt(faults, CompletedWrite));
              OnlyJobChangedTrans(s0, s3, s4, id);
              if CompletedWrite in faults {
                FailOnlyChangesJob(s0, s4, id, faults[CompletedWrite], faults);
              }
            }
        }
    }
  }

  lemma FailOnlyChangesJob(s0: DbState, s: DbState, id: string, msg: string, faults: Faults)
    requires OnlyJobChanged(s0, s, id)
    ensures OnlyJobChanged(s0, Fail(s, id, msg, faults), id)
  {
    WriteOnlyChangesJob(s, id, SetFailed(msg), FaultAt(faults, FailedWrite));
    OnlyJobChangedTrans(s0, s, Fail(s, id, msg, faults), id);
  }

  /** An id with no record: the run writes nothing. */
  lemma ProcessUnknownId(s0: DbState, id: string, riskOracle: nat -> AttemptOutcome<seq<Risk>>,
                         reportOracle: nat -> AttemptOutcome<AuditReportSections>, faults: Faults)
    requires id !in s0.docs
    ensures ProcessRun(s0, id, riskOracle, reportOracle, faults).docs == s0.docs
  {
  }

  // Outcomes.

  lemma FailSetsFailed(s: DbState, id: string, msg: string, faults: Faults)
    requires id in s.docs && FailedWrite !in faults
    ensures id in Fail(s, id, msg, faults).docs
    ensures Fail(s, id, msg, faults).docs[id].status == Failed
    ensures Fail(s, id, msg, faults).docs[id].errorMessage == Some(msg)
  {
  }

  /** When the failure write itself does not raise, every run ends in a
      terminal status, and a failed job carries an error message. */
  lemma {:induction false} ProcessEndsTerminal(s0: DbState, id: string, riskOracle: nat -> AttemptOutcome<seq<Risk>>,
                                               reportOracle: nat -> AttemptOutcome<AuditReportSections>, faults: Faults)
    requires id in s0.docs && FailedWrite !in faults
    ensures id in ProcessRun(s0, id, riskOracle, reportOracle, faults).docs
    ensures var rec := ProcessRun(s0, id, riskOracle, reportOracle, faults).docs[id];
      && rec.status in {Completed, Failed}
      && (rec.status == Failed ==> rec.errorMessage.Some?)
  {
    var s1 := Write(s0, id, SetInProgress, FaultAt(faults, InProgressWrite));
    if InProgressWrite in faults {
      FailSetsFailed(s1, id, faults[InProgressWrite], faults);
    } else {
      match Find(s1, id, FaultAt(faults, ReadBack))
      case Failure(msg) => FailSetsFailed(s1, id, msg, faults);
      case Success(None) => FailSetsFailed(s1, id, NotFoundMessage, faults);
      case Success(Some(rec)) =>
        var generated := Retry(riskOracle, DefaultMaxRetries).value;
        if generated.None? || |generated.value| == 0 {
          FailSetsFailed(s1, id, GenerationFailedMessage, faults);
        } else {
          match Enrich(generated.value, rec.department)
          case Failure(msg) => FailSetsFailed(s1, id, msg, faults);
          case Success(enriched) =>
            var s2 := Write(s1, id, SetRegister(RiskRegister(enriched)), FaultAt(faults, RegisterWrite));
            if RegisterWrite in faults {
              FailSetsFailed(s2, id, faults[RegisterWrite], faults);
            } else {
              var s3 := AuditReportStage(s2, id, rec.companyName, rec.department, false, reportOracle, faults).state;
              StageOnlyChangesJob(s2, id, rec.companyName, rec.department, false, reportOracle, faults);
              var s4 := Write(s3, id, SetCompleted, FaultAt(faults, CompletedWrite));
              if CompletedWrite in faults {
                FailSetsFailed(s4, id, faults[CompletedWrite], faults);
              }
            }
        }
    }
  }

  /** Generation that raises on every attempt (or parses to no risks at
      all) fails the job with "Failed to generate risks from LLM"; the run
      wrote in_progress before and leaves the register as it was. */
  lemma ProcessGenerationFailure(s0: DbState, id: string, riskOracle: nat -> AttemptOutcome<seq<Risk>>,
                                 reportOracle: nat -> AttemptOutcome<AuditReportSections>, faults: Faults)
    requires id in s0.docs && faults == map[]
    requires Retry(riskOracle, DefaultMaxRetries).value.None? || |Retry(riskOracle, DefaultMaxRetries).value.value| == 0
    ensures ProcessRun(s0, id, riskOracle, reportOracle, faults).docs[id]
         == s0.docs[id].(status := Failed, errorMessage := Some(GenerationFailedMessage), updatedAt := s0.clock + 2)
  {
  }

  /** A generated risk that fails validation fails the whole job with the
      validation error, and no register is written. */
  lemma ProcessValidationFailure(s0: DbState, id: string, riskOracle: nat -> AttemptOutcome<seq<Risk>>,
                                 reportOracle: nat -> AttemptOutcome<AuditReportSections>, faults: Faults, raw: seq<Risk>, k: nat)
    requires id in s0.docs && faults == map[]
    requires Retry(riskOracle, DefaultMaxRetries).value == Some(raw)
    requires k < |raw| && !ValidUnenrichedFields(raw[k])
    ensures ProcessRun(s0, id, riskOracle, reportOracle, faults).docs[id]
         == s0.docs[id].(status := Failed, errorMessage := Some(RiskValidationError), updatedAt := s0.clock + 2)
  {
    EnrichSucceedsIff(raw, s0.docs[id].department);
  }

  /** A store operation that raises before generation (the in_progress
      write or the read-back) fails the job with the exception's own text,
      and the register is left as it was. */
  lemma {:induction false} ProcessEarlyStoreFault(s0: DbState, id: string, riskOracle: nat -> AttemptOutcome<seq<Risk>>,
                                                  reportOracle: nat -> AttemptOutcome<AuditReportSections>, op: StoreOp, m: string)
    requires id in s0.docs && op in {InProgressWrite, ReadBack}
    ensures var rec := ProcessRun(s0, id, riskOracle, reportOracle, map[op := m]).docs[id];
      && rec.status == Failed
      && rec.errorMessage == Some(m)
      && rec.riskRegister == s0.docs[id].riskRegister
  {
    var faults := map[op := m];
    var s1 := Write(s0, id, SetInProgress, FaultAt(faults, InProgressWrite));
    if op == InProgressWrite {
      FailSetsFailed(s1, id, m, faults);
    } else {
      assert Find(s1, id, FaultAt(faults, ReadBack)) == Failure(m);
      FailSetsFailed(s1, id, m, faults);
    }
  }

  /** A raising register write fails the job with the exception's own text,
      after a successful generation, and no register is stored. */
  lemma {:induction false} ProcessRegisterWriteFault(s0: DbState, id: string, riskOracle: nat -> AttemptOutcome<seq<Risk>>,
                                                     reportOracle: nat -> AttemptOutcome<AuditReportSections>, raw: seq<Risk>, m: string)
    requires GenerationSucceeds(s0, id, riskOracle, raw)
    ensures var rec := ProcessRun(s0, id, riskOracle, reportOracle, map[RegisterWrite := m]).docs[id];
      && rec.status == Failed
      && rec.errorMessage == Some(m)
      && rec.riskRegister == s0.docs[id].riskRegister
  {
    EnrichSucceedsIff(raw, s0.docs[id].department);
  }

  /** The in_progress status is written before generation starts: when
      generation fails and the failure write raises too, the job is left
      in_progress. */
  lemma ProcessStuckInProgress(s0: DbState, id: string, riskOracle: nat -> AttemptOutcome<seq<Risk>>,
                               reportOracle: nat -> AttemptOutcome<AuditReportSections>, faults: Faults, m: string)
    requires id in s0.docs && faults == map[FailedWrite := m]
    requires Retry(riskOracle, DefaultMaxRetries).value.None?
    ensures ProcessRun(s0, id, riskOracle, reportOracle, faults).docs[id] == s0.docs[id].(status := InProgress, updatedAt := s0.clock + 1)
  {
  }

  /** The job's own run succeeds: generation gives a non-empty list of
      risks that all validate, and no store operation raises. */
  ghost predicate GenerationSucceeds(s0: DbState, id: string, riskOracle: nat -> AttemptOutcome<seq<Risk>>, raw: seq<Risk>) {
    && id in s0.docs
    && Retry(riskOracle, DefaultMaxRetries).value == Some(raw)
    && |raw| > 0
    && forall i :: 0 <= i < |raw| ==> ValidUnenrichedFields(raw[i])
  }

  /** The store operations of the report stage, whose exceptions the stage
      swallows, so that they cannot fail the job. */
  ghost predicate OnlyReportStageFaults(faults: Faults) {
    faults.Keys <= {ReportRead, ReportWrite}
  }

  /** A successful run: completed, with the enriched register and its
      processing time; the error message of an earlier run is not cleared.
      This holds even when the report stage's own read or write raises. */
  lemma {:induction false} ProcessSucceeds(s0: DbState, id: string, riskOracle: nat -> AttemptOutcome<seq<Risk>>,
                                           reportOracle: nat -> AttemptOutcome<AuditReportSections>, raw: seq<Risk>,
                                           faults: Faults)
    requires GenerationSucceeds(s0, id, riskOracle, raw)
    requires OnlyReportStageFaults(faults)
    ensures Enrich(raw, s0.docs[id].department).Success?
    ensures var rec := ProcessRun(s0, id, riskOracle, reportOracle, faults).docs[id];
      && rec.status == Completed
      && rec.riskRegister == Some(RiskRegister(Enrich(raw, s0.docs[id].department).value))
      && rec.processedAt == Some(s0.clock + 2)
      && rec.errorMessage == s0.docs[id].errorMessage
  {
    EnrichSucceedsIff(raw, s0.docs[id].department);
    assert InProgressWrite !in faults && ReadBack !in faults && RegisterWrite !in faults && CompletedWrite !in faults;
    var s2 := Write(Write(s0, id, SetInProgress, None), id,
                    SetRegister(RiskRegister(Enrich(raw, s0.docs[id].department).value)), None);
    StageTouchesOnlyReport(s2, id, s0.docs[id].companyName, s0.docs[id].department, false, reportOracle, faults);
  }

  /** A successful run also stores a fresh audit report, stamped after the
      register, under the job's own company and department. */
  lemma {:induction false} ProcessStoresAuditReport(s0: DbState, id: string, riskOracle: nat -> AttemptOutcome<seq<Risk>>,
                                                    reportOracle: nat -> AttemptOutcome<AuditReportSections>, raw: seq<Risk>,
                                                    sections: AuditReportSections)
    requires GenerationSucceeds(s0, id, riskOracle, raw)
    requires !HasReusableReport(s0.docs[id], false)
    requires Retry(reportOracle, DefaultMaxRetries).value == Some(sections)
    ensures var rec := ProcessRun(s0, id, riskOracle, reportOracle, map[]).docs[id];
      && rec.status == Completed
      && rec.auditReport == Some(AuditReport(id, s0.docs[id].companyName, s0.docs[id].department,
                                             Some(sections), Some(s0.clock + 3), Completed))
      && rec.updatedAt == s0.clock + 4
  {
    EnrichSucceedsIff(raw, s0.docs[id].department);
  }

  /** Graceful degradation: when the report cannot be generated, or the
      report stage's own read or write raises, the job still completes with
      its register, and the stored report is left as it was. */
  lemma {:induction false} ProcessCompletesWithoutReport(s0: DbState, id: string, riskOracle: nat -> AttemptOutcome<seq<Risk>>,
                                                         reportOracle: nat -> AttemptOutcome<AuditReportSections>, raw: seq<Risk>,
                                                         faults: Faults)
    requires GenerationSucceeds(s0, id, riskOracle, raw)
    requires OnlyReportStageFaults(faults)
    requires faults != map[] || forall k :: 0 <= k < DefaultMaxRetries ==> reportOracle(k).Raises?
    ensures var rec := ProcessRun(s0, id, riskOracle, reportOracle, faults).docs[id];
      && rec.status == Completed
      && rec.riskRegister == Some(RiskRegister(Enrich(raw, s0.docs[id].department).value))
      && rec.auditReport == s0.docs[id].auditReport
  {
    EnrichSucceedsIff(raw, s0.docs[id].department);
    ProcessSucceeds(s0, id, riskOracle, reportOracle, raw, faults);
    if faults == map[] {
      RetryExhausted(reportOracle, DefaultMaxRetries);
    }
  }

  /** A failed job may still hold a register: when the final completed
      write raises after the register was stored, the job is failed with
      that error and keeps its register. */
  lemma {:induction false} FailedKeepsRegister(s0: DbState, id: string, riskOracle: nat -> AttemptOutcome<seq<Risk>>,
                                               reportOracle: nat -> AttemptOutcome<AuditReportSections>, raw: seq<Risk>, m: string)
    requires GenerationSucceeds(s0, id, riskOracle, raw)
    ensures var rec := ProcessRun(s0, id, riskOracle, reportOracle, map[CompletedWrite := m]).docs[id];
      && rec.status == Failed
      && rec.errorMessage == Some(m)
      && rec.riskRegister == Some(RiskRegister(Enrich(raw, s0.docs[id].department).value))
  {
    EnrichSucceedsIff(raw, s0.docs[id].department);
    var faults := map[CompletedWrite := m];
    var s2 := Write(Write(s0, id, SetInProgress, None), id,
                    SetRegister(RiskRegister(Enrich(raw, s0.docs[id].department).value)), None);
    StageTouchesOnlyReport(s2, id, s0.docs[id].companyName, s0.docs[id].department, false, reportOracle, faults);
  }

  // The store invariant of the job lifecycle.

  /** What every stored job satisfies: a completed job has a register; a
      failed one has an error message; a register comes with its processing
      time; a stored report belongs to the job, has sections and a time, and
      was generated from a register; a submitted job has nothing yet; no
      timestamp precedes creation. */
  ghost predicate JobInvariant(rec: ProcessedQuestionnaire) {
    && (rec.status == Completed ==> rec.riskRegister.Some?)
    && (rec.status == Failed ==> rec.errorMessage.Some?)
    && (rec.status == Submitted ==> rec.riskRegister.None? && rec.auditReport.None? && rec.errorMessage.None?)
    && (rec.riskRegister.Some? <==> rec.processedAt.Some?)
    && (rec.auditReport.Some? ==>
          && rec.riskRegister.Some?
          && rec.auditReport.value.questionnaireId == rec.questionnaireId
          && rec.auditReport.value.reportSections.Some?
          && rec.auditReport.value.generatedAt.Some?)
    && rec.createdAt <= rec.updatedAt
    && (rec.processedAt.Some? ==> rec.createdAt <= rec.processedAt.value <= rec.updatedAt)
  }

  ghost predicate StoreInvariant(s: DbState) {
    && TimestampsBounded(s)
    && KeysMatch(s)
    && forall k :: k in s.docs ==> JobInvariant(s.docs[k])
  }

  /** The updates that need a register to be in place first, and the
      register write, which needs the job to have left submitted. */
  ghost predicate UpdateAllowed(rec: ProcessedQuestionnaire, u: Update, id: string) {
    && (u.SetCompleted? || u.SetAuditReport? ==> rec.riskRegister.Some?)
    && (u.SetRegister? ==> rec.status != Submitted)
    && (u.SetAuditReport? ==> u.questionnaireId == id)
  }

  lemma {:induction false} WriteKeepsStoreInvariant(s: DbState, id: string, u: Update, fault: Option<string>)
    requires StoreInvariant(s)
    requires fault.None? && id in s.docs ==> UpdateAllowed(s.docs[id], u, id)
    ensures StoreInvariant(Write(s, id, u, fault))
  {
    WriteKeepsInvariants(s, id, u, fault);
    var s' := Write(s, id, u, fault);
    forall k | k in s'.docs
      ensures JobInvariant(s'.docs[k])
    {
      assert JobInvariant(s.docs[k]);
      if k == id && fault.None? {
        assert RecordTimestampsBounded(s.docs[id], s.clock);
        assert s.docs[id].questionnaireId == id;
      }
    }
  }

  lemma {:induction false} StageKeepsStoreInvariant(s: DbState, id: string, company: Option<string>, dept: Option<string>,
                                                    force: bool, oracle: nat -> AttemptOutcome<AuditReportSections>,
                                                    faults: Faults)
    requires StoreInvariant(s)
    ensures StoreInvariant(AuditReportStage(s, id, company, dept, force, oracle, faults).state)
  {
    if ReportRead !in faults && id in s.docs && !HasReusableReport(s.docs[id], force)
       && s.docs[id].riskRegister.Some? && Retry(oracle, DefaultMaxRetries).value.Some?
    {
      var rec := s.docs[id];
      WriteKeepsStoreInvariant(s, id, SetAuditReport(id, PyOr(rec.companyName, company), PyOr(rec.department, dept),
                                                     Retry(oracle, DefaultMaxRetries).value.value),
                               FaultAt(faults, ReportWrite));
    }
  }

  lemma FailKeepsStoreInvariant(s: DbState, id: string, msg: string, faults: Faults)
    requires StoreInvariant(s)
    ensures StoreInvariant(Fail(s, id, msg, faults))
  {
    WriteKeepsStoreInvariant(s, id, SetFailed(msg), FaultAt(faults, FailedWrite));
  }

  /** Submission keeps the invariant: a fresh record under a fresh id. */
  lemma {:induction false} SubmitKeepsStoreInvariant(s: DbState, request: QuestionnaireRequest, id: string)
    requires StoreInvariant(s) && id !in s.docs
    ensures StoreInvariant(DbState(s.docs[id := NewRecord(request, id, s.clock + 1)], s.clock + 1))
  {
    var s' := DbState(s.docs[id := NewRecord(request, id, s.clock + 1)], s.clock + 1);
    forall k | k in s'.docs
      ensures RecordTimestampsBounded(s'.docs[k], s'.clock)
    {
      if k != id {
        assert RecordTimestampsBounded(s.docs[k], s.clock);
      }
    }
  }

  /** Every run keeps the invariant, whatever the generators return and
      whichever store operations raise. */
  lemma {:induction false} ProcessKeepsStoreInvariant(s0: DbState, id: string, riskOracle: nat -> AttemptOutcome<seq<Risk>>,
                                                      reportOracle: nat -> AttemptOutcome<AuditReportSections>, faults: Faults)
    requires StoreInvariant(s0)
    ensures StoreInvariant(ProcessRun(s0, id, riskOracle, reportOracle, faults))
  {
    var s1 := Write(s0, id, SetInProgress, FaultAt(faults, InProgressWrite));
    WriteKeepsStoreInvariant(s0, id, SetInProgress, FaultAt(faults, InProgressWrite));
    if InProgressWrite in faults {
      FailKeepsStoreInvariant(s1, id, faults[InProgressWrite], faults);
    } else {
      match Find(s1, id, FaultAt(faults, ReadBack))
      case Failure(msg) => FailKeepsStoreInvariant(s1, id, msg, faults);
      case Success(None) => FailKeepsStoreInvariant(s1, id, NotFoundMessage, faults);
      case Success(Some(rec)) =>
        var generated := Retry(riskOracle, DefaultMaxRetries).value;
        if generated.None? || |generated.value| == 0 {
          FailKeepsStoreInvariant(s1, id, GenerationFailedMessage, faults);
        } else {
          match Enrich(generated.value, rec.department)
          case Failure(msg) => FailKeepsStoreInvariant(s1, id, msg, faults);
          case Success(enriched) =>
            var s2 := Write(s1, id, SetRegister(RiskRegister(enriched)), FaultAt(faults, RegisterWrite));
            WriteKeepsStoreInvariant(s1, id, SetRegister(RiskRegister(enriched)), FaultAt(faults, RegisterWrite));
            if RegisterWrite in faults {
              FailKeepsStoreInvariant(s2, id, faults[RegisterWrite], faults);
            } else {
              var s3 := AuditReportStage(s2, id, rec.companyName, rec.department, false, reportOracle, faults).state;
              StageKeepsStoreInvariant(s2, id, rec.companyName, rec.department, false, reportOracle, faults);
              StageTouchesOnlyReport(s2, id, rec.companyName, rec.department, false, reportOracle, faults);
              WriteKeepsStoreInvariant(s3, id, SetCompleted, FaultAt(faults, CompletedWrite));
              var s4 := Write(s3, id, SetCompleted, FaultAt(faults, CompletedWrite));
              if CompletedWrite in faults {
                FailKeepsStoreInvariant(s4, id, faults[CompletedWrite], faults);
              }
            }
        }
    }
  }

  // What the endpoints serve after a run.

  /** After a successful run the status endpoint returns the register, and
      export as CSV (in any letter case) returns its risks. */
  lemma {:induction false} CompletedJobIsServed(s0: DbState, id: string, riskOracle: nat -> AttemptOutcome<seq<Risk>>,
                                                reportOracle: nat -> AttemptOutcome<AuditReportSections>, raw: seq<Risk>)
    requires GenerationSucceeds(s0, id, riskOracle, raw)
    ensures Enrich(raw, s0.docs[id].department).Success?
    ensures var s := ProcessRun(s0, id, riskOracle, reportOracle, map[]);
      var enriched := Enrich(raw, s0.docs[id].department).value;
      && ReportRoutes.GetCompleteReport(id, Find(s, id, None)).Success?
      && ReportRoutes.GetCompleteReport(id, Find(s, id, None)).value.riskRegister == Some(RiskRegister(enriched))
      && ReportRoutes.ExportRiskRegister(id, Find(s, id, None), "CSV") == Success(ReportRoutes.ExportCsv(id, enriched))
  {
    ProcessSucceeds(s0, id, riskOracle, reportOracle, raw, map[]);
    ProcessOnlyChangesItsJob(s0, id, riskOracle, reportOracle, map[]);
    assert ReportRoutes.Lower("CSV") == "csv";
  }

  /** After generation failed, the status endpoint answers 422 with the
      failure message, and export answers 422 whatever the format. */
  lemma {:induction false} FailedJobIsRefused(s0: DbState, id: string, riskOracle: nat -> AttemptOutcome<seq<Risk>>,
                                              reportOracle: nat -> AttemptOutcome<AuditReportSections>, format: string)
    requires id in s0.docs
    requires Retry(riskOracle, DefaultMaxRetries).value.None?
    ensures var s := ProcessRun(s0, id, riskOracle, reportOracle, map[]);
      && ReportRoutes.GetCompleteReport(id, Find(s, id, None))
           == Failure(ReportRoutes.HttpError(ReportRoutes.HttpUnprocessableEntity,
                                             ReportRoutes.FailedDetailPrefix + GenerationFailedMessage))
      && ReportRoutes.ExportRiskRegister(id, Find(s, id, None), format)
           == Failure(ReportRoutes.HttpError(ReportRoutes.HttpUnprocessableEntity, ReportRoutes.NotReadyDetail))
  {
    ProcessGenerationFailure(s0, id, riskOracle, reportOracle, map[]);
  }
}
