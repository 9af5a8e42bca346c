# Risk-assessment questionnaire pipeline, in Dafny

This project models the job pipeline of a small risk-assessment service.
A client submits a control self-assessment (CSA) questionnaire, and the
service stores a job record with status `submitted`. A background run then
does the following:

1. It marks the job `in_progress`.
2. It asks a language model, with bounded retries, for a list of risks.
3. It enriches each risk with positional cross-references
   (`Risk_<department>_<n>`, `Control_…`, `Action_…`) and the source tag
   `["CSA"]`.
4. It re-validates each risk against the `Risk` schema.
5. It stores the register.
6. It generates an audit report. A failure here does not fail the job.
7. It marks the job `completed`. Any exception instead marks it `failed`,
   with the exception's text.

Report endpoints serve the job's status, the register (as JSON or CSV) and
the stored audit report.

Modules, one per source unit:

- `Schemas`: the status enum, the closed literal sets of a risk, the
  `ValidRisk` predicate, and the record shapes.
- `Llm`: the retry loop of `parse_response`. The `RetryFrom` function
  specifies it, and the `ParseResponse` method is proved against that
  function.
- `Store`: the `questionnaires` collection. `update_one` is a function
  `Write` on a `DbState`, and the `Database` class with its methods is
  proved against those functions.
- `Reports`: the audit-report stage as a function, `AuditReportStage`, and
  the class method `GenerateAuditReport` proved to follow it.
- `Risks`: enrichment and the processing run.
  - `Enrich` is a function, and the `EnrichRisks` loop is proved equal to
    it.
  - `ProcessRun` is the run as a function of the store before it, and
    `RiskAssessmentService.Process` is proved to follow it.
- `ReportRoutes`: the endpoints' decision tables.
- `Enrichment` and `Pipeline`: the properties of the above.

Three things outside the program are parameters:

- **The language model** is an oracle `nat -> AttemptOutcome<T>`. For each
  attempt it says whether the call raised, parsed to None, or parsed to a
  value.
- **The store's exceptions** are a map `Faults` from the store operation
  that raises to the message it raises with.
- **The wall clock** is a counter in the store. Each write reads it once,
  so every write is stamped later than all earlier ones.

The model keeps these behaviours of the code:

- A department of None renders as `Risk_None_1`.
- The `else` branch after the register write can never run, because a
  pydantic model is always truthy.
- A failed job can keep its register, when the final `completed` write
  raises.
- Processing an unknown id writes nothing, because there is no upsert.
- A stored report is reused unless regeneration is forced.
- The record's own company and department win over the arguments passed
  in, unless they are None or empty.

## Model

| member | source | states |
|---|---|---|
| Schemas.ParseStatus | app/models/schemas.py:6-10 | a string reads back as a status only if it is that status's value |
| Schemas.StatusRoundTrip | app/models/schemas.py:6-10 | every status reads back as itself; exactly the four values are accepted |
| Schemas.LiteralSetSizes | app/models/schemas.py:26-74 | the closed sets have 13 sources, 4 functions, 2 SOP answers, 4 causal factors and 6 categories; "CSA" and "ALL" are members |
| Schemas.CsaSourcesValid | app/models/schemas.py:26-45 | `["CSA"]` is an accepted sources list; an absent or empty list is not (min_length=1) |
| Schemas.RequiredRiskFields | app/models/schemas.py:47-87 | a valid risk has Function, SOP_Available, Risk_Event_Reference, Risk_Description, causal factor, category, and at least one data source |
| Schemas.OptionalRiskFieldsMayBeAbsent | app/models/schemas.py:52-175 | clearing every optional field of a valid risk keeps it valid |
| Schemas.PyOr | app/services/report_service.py:63-64 | `a or b` is one of its two operands; a set `a` always wins; the result is set and non-empty exactly when either operand is |
| Llm.RetryFrom | app/services/llm_service.py:32-47 | the loop stops after at least one and at most `max_retries` calls; a non-positive budget makes no call and gives None |
| Llm.ParseResponse | app/services/llm_service.py:19-47 | the method returns the loop's result, sends one request per call, and every request is the system message then the user message |
| Llm.RetryCallsBounded | app/services/llm_service.py:24-32 | no call when the budget is not positive; otherwise between 1 and `max_retries` calls |
| Llm.RetryFromShape | app/services/llm_service.py:32-45 | every call before the last raised; the last call either decides the result or exhausted the budget with None |
| Llm.RetryReturnsFirstNonRaising | app/services/llm_service.py:32-39 | the result is `v` exactly when some attempt within the budget parsed to `v` and every earlier attempt raised |
| Llm.RetryExhausted | app/services/llm_service.py:40-47 | when every attempt raises, all `max_retries` calls are made and the result is None |
| Llm.RetryStopsOnParsedNone | app/services/llm_service.py:37-39 | a first call that returns None as its parsed value ends the loop after one call, with no retry |
| Decimal.ParseNatToString | app/services/risk_service.py:108-110 | the position rendered in a reference reads back as the same number |
| Decimal.NatToStringInjective | app/services/risk_service.py:104-110 | distinct positions render as distinct strings |
| Store.Write | app/services/risk_service.py:74-82 | `update_one` with `$set`: only the id's record changes; a raising store or an unknown id changes no record (no upsert); the clock advances by one |
| Store.ReadAfterWrite | app/services/risk_service.py:74-87 | a `find_one` after an `update_one` sees the updated record for the written id when the write went through, and the earlier answer for every other case |
| Store.WriteKeepsInvariants | app/database/mongodb.py:32 | a write keeps every record under its own `questionnaire_id` and every timestamp at or before the clock |
| Store.Database.constructor | app/database/mongodb.py:7-11 | a new store is empty and its clock is zero |
| Store.Database.Now | app/services/risk_service.py:52-53 | reading the clock advances it by one and leaves the records alone |
| Store.Database.InsertOne | app/services/risk_service.py:59-61 | a raising insert returns its exception and stores nothing; an id already stored is refused with the duplicate-key error of the unique index (app/database/mongodb.py:32) and stores nothing; otherwise the record is added under its id |
| Store.Database.UpdateOne | app/services/risk_service.py:74-82 | the new store state is `Write` of the old; the raised exception is returned |
| Reports.GetAuditReport | app/services/report_service.py:133-156 | the stored report exactly when the read does not raise and the record and its report exist; None otherwise, never an exception |
| Reports.GetProcessedQuestionnaireWithReport | app/services/report_service.py:158-176 | the stored record exactly when the read does not raise and the id is stored; None otherwise |
| Reports.ReportService.StoreAuditReport | app/services/report_service.py:101-131 | writes the audit report stamped now, with status completed, together with `updated_at`; a store error is passed on |
| Reports.ReportService.GenerateAuditReport | app/services/report_service.py:34-99 | the new store and the returned sections are those of `AuditReportStage` on the old store |
| Reports.StageUnknownId | app/services/report_service.py:40-46 | an unknown id gives None and writes nothing |
| Reports.StageReusesExistingReport | app/services/report_service.py:50-55 | an existing report with sections, when regeneration is not forced, is returned as it is; nothing is generated or written |
| Reports.StageNeedsRegister | app/services/report_service.py:57-60 | with no reusable report and no register, the stage gives None and writes nothing |
| Reports.StageGenerationFailure | app/services/report_service.py:83-95 | when generation gives None, the stage gives None and writes nothing |
| Reports.StageSwallowsStoreFaults | app/services/report_service.py:97-99 | a raising read or report write never escapes: the result is None and no record changes |
| Reports.StageStoresGeneratedReport | app/services/report_service.py:62-92 | on success the stage stores a report under the record's own company and department, or the argument's where those are None or empty, with the new sections and a fresh `generated_at`; nothing else changes |
| Reports.StageTouchesOnlyReport | app/services/report_service.py:34-131 | the stage never changes a status, an id set or any field but `audit_report` and `updated_at` |
| Reports.StageReturnsStoredSections | app/services/report_service.py:83-92 | sections the stage returns are the ones stored afterwards |
| Reports.StageIdempotent | app/services/report_service.py:50-55 | once the stage returned sections, running it again unforced returns the same sections and leaves the store unchanged, so `generated_at` stays |
| Reports.ForcedRegenerationAdvancesGeneratedAt | app/services/report_service.py:50-55 | a forced regeneration that succeeds stamps a `generated_at` later than the previous one |
| Reports.GetAuditReportAfterStage | app/services/report_service.py:133-149 | the getter serves exactly the sections the stage returned |
| Risks.EnrichRisks | app/services/risk_service.py:103-114 | the loop's result equals `Enrich`: every risk is enriched by its 1-based position and re-validated, and one invalid risk fails the list with a validation error |
| Risks.RiskAssessmentService.Submit | app/services/risk_service.py:39-66 | reads the clock once, then returns and inserts a submitted record built from the request, with no register, report or error; a raising insert or a duplicate id returns that error and stores nothing |
| Risks.RiskAssessmentService.Process | app/services/risk_service.py:68-183 | the new store equals `ProcessRun` of the old store |
| Risks.RiskAssessmentService.GetReport | app/services/risk_service.py:185-225 | a timed-out read raises "Database query timeout"; another store error is re-raised; otherwise the stored record or None, exactly when the id is stored |
| ReportRoutes.GetCompleteReport | app/api/routes/reports.py:18-78 | 404 when the job is unknown; 202 for submitted and in progress; 422 with "Risk assessment processing failed: <message>" for failed; for completed, the record's own fields; 500 when the lookup raises |
| ReportRoutes.Lower | app/api/routes/reports.py:107-113 | lower-casing keeps the length, leaves no upper-case ASCII letter, maps each upper-case letter to its lower-case one, and keeps every other character |
| ReportRoutes.ExportRiskRegister | app/api/routes/reports.py:81-140 | 404 when unknown; 422 when not completed, whatever the format; "json" in any case gives the register; "csv" gives its risks, or 422 without a register; any other format gives 400; 500 when the lookup raises |
| ReportRoutes.ExportDefaultFormat | app/api/routes/reports.py:81-112 | a request naming no format (`format="json"`) exports a completed register as JSON |
| ReportRoutes.ExportStatusBeforeFormat | app/api/routes/reports.py:101-107 | for a job that is not completed, every format gets the same answer |
| ReportRoutes.LowerIdempotent | app/api/routes/reports.py:107-113 | lower-casing twice equals lower-casing once |
| ReportRoutes.ExportFormatIgnoresCase | app/api/routes/reports.py:107-113 | a format and its lower-cased form get the same answer |
| ReportRoutes.ExportFormatExamples | app/api/routes/reports.py:107-131 | "JSON" exports the register; "Csv" answers as "csv"; "xml" gets 400 |
| ReportRoutes.GetAuditReport | app/api/routes/reports.py:218-258 | 404 exactly when the job or its report is missing; otherwise status "completed" with the stored sections, company, department and `generated_at` |
| Enrichment.EnrichOneValid | app/services/risk_service.py:106-113 | an enriched risk is valid exactly when the generated risk is valid apart from the four fields enrichment overwrites |
| Enrichment.EnrichSucceedsIff | app/services/risk_service.py:103-114 | the list is accepted exactly when every generated risk is valid apart from the overwritten fields; otherwise the error is the validation error |
| Enrichment.EnrichShape | app/services/risk_service.py:103-116 | an accepted list keeps its length and order; risk i carries references numbered i+1 and sources `["CSA"]`; every other field is the generated one; every risk is valid |
| Enrichment.RefsDistinct | app/services/risk_service.py:108-110 | references at different positions differ, for any department |
| Enrichment.EnrichReferencesUnique | app/services/risk_service.py:103-114 | no two risks of one register share a risk, control or action reference |
| Enrichment.EnrichFinanceExample | app/services/risk_service.py:104-112 | three valid risks of "Finance" get Risk_Finance_1, Control_Finance_2 and Action_Finance_3 at their positions |
| Enrichment.EnrichNoDepartmentExample | app/services/risk_service.py:91-112 | with a None department the references are Risk_None_1, Control_None_1 and Action_None_1 |
| Enrichment.NoneDepartmentReadsAsNone | app/services/risk_service.py:91-110 | a missing department renders as "None", so its references equal those of a department literally named "None" |
| Enrichment.OutdatedSopNoteFailsEnrichment | app/services/risk_service.py:30 | a risk that follows the prompt's "Yes (last updated YYYY)" SOP rule fails validation, and so does the whole list |
| Pipeline.ProcessOnlyChangesItsJob | app/services/risk_service.py:68-183 | a run never adds or removes a record, changes no other job, and never changes its own id, text, company, department, submitter or creation time |
| Pipeline.ProcessUnknownId | app/services/risk_service.py:74-87 | running an id with no record changes no record |
| Pipeline.ProcessEndsTerminal | app/services/risk_service.py:68-183 | when the failure write does not raise, the job ends completed or failed, and a failed job has an error message |
| Pipeline.ProcessGenerationFailure | app/services/risk_service.py:95-101 | when no store operation raises, exhausted generation, or no risks, marks the job failed with "Failed to generate risks from LLM" and leaves the register as it was |
| Pipeline.ProcessValidationFailure | app/services/risk_service.py:103-114 | when no store operation raises, one invalid generated risk marks the job failed with the validation error, and no register is written |
| Pipeline.ProcessEarlyStoreFault | app/services/risk_service.py:74-87 | when the in_progress write or the read-back raises, the job ends failed with the exception's own text and its register unchanged |
| Pipeline.ProcessRegisterWriteFault | app/services/risk_service.py:118-129 | when the register write raises after a successful generation, the job ends failed with the exception's own text and no register is stored |
| Pipeline.ProcessStuckInProgress | app/services/risk_service.py:74-82 | in_progress is stored before generation: if generation fails and the failure write raises, the job stays in_progress |
| Pipeline.ProcessSucceeds | app/services/risk_service.py:116-167 | a successful run completes the job with the enriched register and its processing time, and does not clear an earlier error message; this holds when no store operation raises and also when only the report stage's read or write raises (app/services/report_service.py:97-99, 129-131), since the stage swallows those |
| Pipeline.ProcessStoresAuditReport | app/services/risk_service.py:132-155 | a successful run stores a fresh audit report under the job's own company and department, stamped after the register, before completion |
| Pipeline.ProcessCompletesWithoutReport | app/services/risk_service.py:156-167 | when report generation fails, or the report stage's own read or write raises, and no other store operation raises, the job still completes with its enriched register, and the stored report is left as it was |
| Pipeline.FailedKeepsRegister | app/services/risk_service.py:147-183 | if the final completed write raises, the job is failed with that message and keeps its register |
| Pipeline.WriteKeepsStoreInvariant | app/services/risk_service.py:74-183 | each pipeline write keeps the lifecycle invariant, provided its precondition on the record holds |
| Pipeline.StageKeepsStoreInvariant | app/services/report_service.py:34-131 | the report stage keeps the lifecycle invariant |
| Pipeline.SubmitKeepsStoreInvariant | app/services/risk_service.py:39-61 | submission keeps the lifecycle invariant |
| Pipeline.ProcessKeepsStoreInvariant | app/services/risk_service.py:68-183 | every run keeps the invariant, whatever the oracles and faults: completed means a register exists; failed means a message; a register comes with `processed_at`; a report comes with the register, its own id, sections and a time; submitted means nothing is stored yet; timestamps are ordered |
| Pipeline.CompletedJobIsServed | app/api/routes/reports.py:61-69 | after a successful run, the status endpoint returns the enriched register, and a "CSV" export returns its risks |
| Pipeline.FailedJobIsRefused | app/api/routes/reports.py:55-59 | after a generation failure, the status endpoint answers 422 with the failure message, and export answers 422 in any format |

## Left out

- Storage, network and asynchrony are abstracted:
  - The MongoDB connection, its settings and its driver are replaced by
    the `Database` class over a map.
  - Background scheduling is not modelled: `Submit` only inserts, and the
    caller then calls `Process`.
  - Concurrent runs and requests are not modelled.
- Timing is abstracted:
  - The 2-second timeout of `get_report` is modelled only as a possible
    `Timeout` fault.
  - Every `datetime.now()` is one clock tick per write. Where the source
    reads the clock twice for one record (`created_at` and `updated_at` on
    submission, `processed_at` and `updated_at` in the register write,
    `generated_at` and `updated_at` when the audit report is stored),
    both fields get the same tick.
- Identifiers: `uuid4` is replaced by a caller-supplied id. An id already
  stored is refused with the unique index's error, whose exact text is not
  modelled.
- The language model is abstracted:
  - The OpenAI client, its model and temperature settings, and the text of
    both system prompts are parameters or left out. The model is an oracle.
  - `Risks.RiskAssessmentService.Process` passes the questionnaire text as
    the user prompt.
  - `Reports.ReportService.GenerateAuditReport` builds the company and
    department lines of its prompt (`ReportUserPrompt`). It omits the
    dump of the register, because an oracle ignores its prompt.
- Pydantic is abstracted:
  - Parsing `RiskLLMInputRegister` is opaque: the oracle returns the list
    of risks directly.
  - Re-validation is the `ValidRisk` predicate. The text of pydantic's
    validation error is the constant `RiskValidationError`.
  - Validating a stored document when it is read back is assumed to
    succeed.
- `format.lower()` is modelled on ASCII letters only. Only the letters of
  "json" and "csv" decide the outcome.
- The 500 branch of the audit-report route cannot be reached here, because
  its lookup returns None instead of raising.
- `document.get` defaults ("Unknown Company", "Unknown Department") are not
  modelled. Every stored record has both keys, so the defaults cannot
  apply.
- A raising failure write escapes the background task. The model leaves
  the store as that write found it.
- Logging is left out.
- The commented-out audit-report regeneration endpoint is left out.
- The questionnaire submission routes are left out, as are application
  start-up and configuration.
