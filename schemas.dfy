/** The record shapes of app/models/schemas.py: the job status enum, the
    closed literal sets of a risk, the stored questionnaire document and the
    audit report. Pydantic's validation of a `Risk` is the predicate
    `ValidRisk`; a risk payload is kept as the dictionary it is validated
    from, so every field is optional here and `ValidRisk` says which ones the
    schema requires. */
module Schemas {
  import opened Wrappers

  /** `QuestionnaireStatus`: a job is in exactly one of four states. */
  datatype QuestionnaireStatus = Submitted | InProgress | Completed | Failed
  {
    /** The enum's string value, as stored and as sent over HTTP. */
    function Value(): string {
      match this
      case Submitted => "submitted"
      case InProgress => "in_progress"
      case Completed => "completed"
      case Failed => "failed"
    }
  }

  /** Reading a status back from its string value; every other string is refused. */
  function ParseStatus(s: string): (r: Option<QuestionnaireStatus>)
    ensures r.Some? ==> r.value.Value() == s
  {
    if s == "submitted" then Some(Submitted)
    else if s == "in_progress" then Some(InProgress)
    else if s == "completed" then Some(Completed)
    else if s == "failed" then Some(Failed)
    else None
  }

  /** The enum's values are exactly the four strings, and each reads back as itself. */
  lemma StatusRoundTrip(st: QuestionnaireStatus, s: string)
    ensures ParseStatus(st.Value()) == Some(st)
    ensures ParseStatus(s).Some? <==> s in {"submitted", "in_progress", "completed", "failed"}
  {
  }

  // The closed literal sets of a `Risk`.

  const DataSourceValues: set<string> := {
    "Audit Points", "Customer Complaints", "External Audit", "Incidents",
    "Internal Audit", "Process Notes", "Regulatory Inspection", "SOP",
    "Fund Policy", "Whistle Blowing", "CSA", "Emerging Risk", "Others"
  }
  const FunctionValues: set<string> := {"Accounting & Billing", "Budgeting", "Procurement", "All"}
  const SopValues: set<string> := {"Yes", "No"}
  const CausalFactorValues: set<string> := {"People", "Process", "System", "External Factor"}
  const CategoryValues: set<string> := {"Reporting", "Strategic", "Compliance", "IT", "Operational", "ALL"}
  const LikelihoodValues: set<string> := {"Highly Likely", "Expected", "Possible", "Not Likely", "Remote"}
  const ImpactValues: set<string> := {"Severe", "Major", "Moderate", "Minor", "Insignificant"}
  const ControlFrequencyValues: set<string> := {
    "On Going", "Daily", "Weekly", "Monthly", "Quarterly", "Half Yearly",
    "Annually", "On Demand", "NA"
  }
  const ControlTypeValues: set<string> := {"Preventive", "Detective", "Directive", "NA"}
  const ControlCategoryValues: set<string> := {"Manual", "Automated", "Both", "NA"}
  const ControlClassificationValues: set<string> := {
    "Access Control", "Reconciliation", "Review", "Verification and Authorization",
    "IT / System Control", "Process Control", "Maker Checker", "Physical Control",
    "Other", "NA"
  }
  const EffectivenessValues: set<string> := {"Poor", "Unsatisfactory", "Satisfactory", "Effective", "Highly Effective"}

  /** The sizes of the closed sets, and the members the pipeline relies on. */
  lemma LiteralSetSizes()
    ensures |FunctionValues| == 4 && |SopValues| == 2 && |CausalFactorValues| == 4
    ensures |CategoryValues| == 6 && "ALL" in CategoryValues
    ensures |DataSourceValues| == 13 && "CSA" in DataSourceValues
  {
  }

  /** The data-source tag enrichment forces onto every risk. */
  const CsaSources: seq<string> := ["CSA"]

  /** A risk payload: the dictionary `Risk(**data)` is validated from. */
  datatype Risk = Risk(
    businessFunction: Option<string>,
    processName: Option<string>,
    subProcess: Option<string>,
    sopAvailable: Option<string>,
    riskEventReference: Option<string>,
    riskDescription: Option<string>,
    riskCausalFactors: Option<string>,
    riskCategory: Option<string>,
    level2: Option<string>,
    rootCause: Option<string>,
    riskImpactDescription: Option<string>,
    riskDataSources: Option<seq<string>>,
    riskLikelihood: Option<string>,
    riskImpact: Option<string>,
    riskOwner: Option<string>,
    controlRef: Option<string>,
    control: Option<string>,
    controlDescription: Option<string>,
    controlFrequency: Option<string>,
    controlType: Option<string>,
    controlCategory: Option<string>,
    controlClassification: Option<string>,
    controlDesignEffectiveness: Option<string>,
    controlOperatingEffectiveness: Option<string>,
    residualRisk: Option<string>,
    remarks: Option<string>,
    actionRequired: Option<string>,
    actionPlanReference: Option<string>,
    actionPlanItem: Option<string>,
    targetDate: Option<string>)

  /** A required `Literal[...]` field: present and one of the allowed values. */
  predicate RequiredLiteral(v: Option<string>, allowed: set<string>) {
    v.Some? && v.value in allowed
  }

  /** An `Optional[Literal[...]]` field: absent (None) or one of the allowed values. */
  predicate OptionalLiteral(v: Option<string>, allowed: set<string>) {
    v.None? || v.value in allowed
  }

  /** `Risk_Data_Source`: a list of at least one source, each from the fixed set. */
  predicate ValidDataSources(v: Option<seq<string>>) {
    v.Some? && |v.value| >= 1 && forall i :: 0 <= i < |v.value| ==> v.value[i] in DataSourceValues
  }

  /** Everything `Risk` checks except the four fields enrichment overwrites
      (`Risk_Event_Reference`, `Control_Ref`, `Action_Plan_Reference`,
      `Risk_Data_Sources`). */
  predicate ValidUnenrichedFields(r: Risk) {
    && RequiredLiteral(r.businessFunction, FunctionValues)
    && RequiredLiteral(r.sopAvailable, SopValues)
    && r.riskDescription.Some?
    && RequiredLiteral(r.riskCausalFactors, CausalFactorValues)
    && RequiredLiteral(r.riskCategory, CategoryValues)
    && OptionalLiteral(r.riskLikelihood, LikelihoodValues)
    && OptionalLiteral(r.riskImpact, ImpactValues)
    && OptionalLiteral(r.controlFrequency, ControlFrequencyValues)
    && OptionalLiteral(r.controlType, ControlTypeValues)
    && OptionalLiteral(r.controlCategory, ControlCategoryValues)
    && OptionalLiteral(r.controlClassification, ControlClassificationValues)
    && OptionalLiteral(r.controlDesignEffectiveness, EffectivenessValues)
    && OptionalLiteral(r.controlOperatingEffectiveness, EffectivenessValues)
  }

  /** Validation against the `Risk` model: the seven required fields are
      present, literal fields hold allowed values, the sources list is valid;
      the free-text optional fields (including `Control_Ref` and
      `Action_Plan_Reference`) may be anything or absent. */
  predicate ValidRisk(r: Risk) {
    && ValidUnenrichedFields(r)
    && r.riskEventReference.Some?
    && ValidDataSources(r.riskDataSources)
  }

  /** `["CSA"]` is always an acceptable sources list, and an absent or empty one never is. */
  lemma CsaSourcesValid()
    ensures ValidDataSources(Some(CsaSources))
    ensures !ValidDataSources(None) && !ValidDataSources(Some([]))
  {
  }

  /** The required fields: a risk missing any one of them is refused,
      whatever its other fields hold. */
  lemma RequiredRiskFields(r: Risk)
    requires ValidRisk(r)
    ensures r.businessFunction.Some? && r.sopAvailable.Some? && r.riskEventReference.Some?
    ensures r.riskDescription.Some? && r.riskCausalFactors.Some? && r.riskCategory.Some?
    ensures r.riskDataSources.Some? && |r.riskDataSources.value| >= 1
  {
  }

  /** The optional fields: any risk that validates still validates with all
      of them cleared to None. */
  lemma OptionalRiskFieldsMayBeAbsent(r: Risk)
    requires ValidRisk(r)
    ensures ValidRisk(r.(processName := None, subProcess := None, level2 := None, rootCause := None,
                         riskImpactDescription := None, riskLikelihood := None, riskImpact := None,
                         riskOwner := None, controlRef := None, control := None, controlDescription := None,
                         controlFrequency := None, controlType := None, controlCategory := None,
                         controlClassification := None, controlDesignEffectiveness := None,
                         controlOperatingEffectiveness := None, residualRisk := None, remarks := None,
                         actionRequired := None, actionPlanReference := None, actionPlanItem := None,
                         targetDate := None))
  {
  }

  /** `RiskRegister`: the ordered list of risks. */
  datatype RiskRegister = RiskRegister(risks: seq<Risk>)

  /** `AuditReportSections`: all three fields are required by their types;
      `recommendations` has no minimum length. */
  datatype AuditReportSections = AuditReportSections(
    executiveSummary: string,
    riskOverview: string,
    recommendations: seq<string>)

  /** `AuditReport`; `generatedAt` is a tick of the store's clock. */
  datatype AuditReport = AuditReport(
    questionnaireId: string,
    companyName: Option<string>,
    departmentName: Option<string>,
    reportSections: Option<AuditReportSections>,
    generatedAt: Option<nat>,
    status: QuestionnaireStatus)

  /** `QuestionnaireRequest`: `company_name` is required, the rest optional. */
  datatype QuestionnaireRequest = QuestionnaireRequest(
    questionnaireData: string,
    companyName: string,
    department: Option<string>,
    submittedBy: Option<string>)

  /** `ProcessedQuestionnaire`, the stored job record; timestamps are ticks of
      the store's clock. */
  datatype ProcessedQuestionnaire = ProcessedQuestionnaire(
    questionnaireId: string,
    originalData: string,
    riskRegister: Option<RiskRegister>,
    auditReport: Option<AuditReport>,
    status: QuestionnaireStatus,
    createdAt: nat,
    updatedAt: nat,
    processedAt: Option<nat>,
    errorMessage: Option<string>,
    companyName: Option<string>,
    department: Option<string>,
    submittedBy: Option<string>)

  /** Python's `str(x)` / f-string rendering of an `Optional[str]`: None prints as "None". */
  function PyStr(v: Option<string>): (s: string)
    ensures v.Some? ==> s == v.value
    ensures v.None? ==> s == "None"
  {
    match v
    case None => "None"
    case Some(t) => t
  }

  /** Python's `a or b` on two `Optional[str]`: one of the two, `a` whenever
      it is set, and a set value whenever either of them is. */
  function PyOr(a: Option<string>, b: Option<string>): (r: Option<string>)
    ensures r == a || r == b
    ensures a.Some? && a.value != "" ==> r == a
    ensures (r.Some? && r.value != "") <==> ((a.Some? && a.value != "") || (b.Some? && b.value != ""))
  {
    if a.Some? && a.value != "" then a else b
  }
}
