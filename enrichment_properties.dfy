/** What the enrichment loop of `_process_questionnaire_async`
    (app/services/risk_service.py) guarantees about the register it builds. */
module Enrichment {
  import opened Wrappers
  import opened Decimal
  import opened Schemas
  import opened Risks

  /** Enriching one risk fixes the two fields validation would otherwise
      reject (the event reference and the sources list), so the enriched
      risk is valid exactly when the rest of the generated risk is. */
  lemma EnrichOneValid(r: Risk, department: Option<string>, idx: nat)
    ensures ValidRisk(EnrichOne(r, department, idx)) <==> ValidUnenrichedFields(r)
  {
    CsaSourcesValid();
  }

  /** The list is accepted exactly when every generated risk is valid apart
      from the four fields enrichment overwrites. */
  lemma {:induction false} EnrichSucceedsIff(raw: seq<Risk>, department: Option<string>)
    ensures Enrich(raw, department).Success? <==> forall i :: 0 <= i < |raw| ==> ValidUnenrichedFields(raw[i])
    ensures Enrich(raw, department).Failure? ==> Enrich(raw, department).error == RiskValidationError
  {
    forall i | 0 <= i < |raw| {
      EnrichOneValid(raw[i], department, i + 1);
    }
  }

  /** Shape of an accepted list: same length and order; the risk at 0-based
      position i carries the references numbered i + 1 and the sources
      ["CSA"]; every other field is the generated one; every risk is valid. */
  lemma EnrichShape(raw: seq<Risk>, department: Option<string>)
    requires Enrich(raw, department).Success?
    ensures var r := Enrich(raw, department).value;
      && |r| == |raw|
      && forall i :: 0 <= i < |r| ==>
           && r[i].riskEventReference == Some(RiskRef(department, i + 1))
           && r[i].controlRef == Some(ControlRef(department, i + 1))
           && r[i].actionPlanReference == Some(ActionRef(department, i + 1))
           && r[i].riskDataSources == Some(CsaSources)
           && r[i].(riskEventReference := raw[i].riskEventReference, controlRef := raw[i].controlRef,
                    actionPlanReference := raw[i].actionPlanReference,
                    riskDataSources := raw[i].riskDataSources) == raw[i]
           && ValidRisk(r[i])
  {
  }

  /** `p + a == p + b` only when `a == b`. */
  lemma PrefixCancel(p: string, a: string, b: string)
    requires p + a == p + b
    ensures a == b
  {
    assert a == (p + a)[|p|..];
    assert b == (p + b)[|p|..];
  }

  /** References at different positions differ, whatever the department. */
  lemma {:induction false} RefsDistinct(department: Option<string>, m: nat, n: nat)
    requires m != n
    ensures RiskRef(department, m) != RiskRef(department, n)
    ensures ControlRef(department, m) != ControlRef(department, n)
    ensures ActionRef(department, m) != ActionRef(department, n)
  {
    NatToStringInjective(m, n);
    var d := PyStr(department);
    if RiskRef(department, m) == RiskRef(department, n) {
      PrefixCancel("Risk_" + d + "_", NatToString(m), NatToString(n));
    }
    if ControlRef(department, m) == ControlRef(department, n) {
      PrefixCancel("Control_" + d + "_", NatToString(m), NatToString(n));
    }
    if ActionRef(department, m) == ActionRef(department, n) {
      PrefixCancel("Action_" + d + "_", NatToString(m), NatToString(n));
    }
  }

  /** Within one register, no two risks share a risk, control or action reference. */
  lemma {:induction false} EnrichReferencesUnique(raw: seq<Risk>, department: Option<string>)
    requires Enrich(raw, department).Success?
    ensures var r := Enrich(raw, department).value;
      forall i, j :: 0 <= i < |r| && 0 <= j < |r| && i != j ==>
        && r[i].riskEventReference != r[j].riskEventReference
        && r[i].controlRef != r[j].controlRef
        && r[i].actionPlanReference != r[j].actionPlanReference
  {
    var r := Enrich(raw, department).value;
    forall i, j | 0 <= i < |r| && 0 <= j < |r| && i != j
      ensures && r[i].riskEventReference != r[j].riskEventReference
              && r[i].controlRef != r[j].controlRef
              && r[i].actionPlanReference != r[j].actionPlanReference
    {
      RefsDistinct(department, i + 1, j + 1);
    }
  }

  /** Three valid risks for department "Finance" are numbered from 1. */
  lemma {:induction false} EnrichFinanceExample(raw: seq<Risk>)
    requires |raw| == 3 && forall i :: 0 <= i < 3 ==> ValidUnenrichedFields(raw[i])
    ensures Enrich(raw, Some("Finance")).Success?
    ensures var r := Enrich(raw, Some("Finance")).value;
      && r[0].riskEventReference == Some("Risk_Finance_1")
      && r[1].controlRef == Some("Control_Finance_2")
      && r[2].actionPlanReference == Some("Action_Finance_3")
  {
    EnrichSucceedsIff(raw, Some("Finance"));
    EnrichShape(raw, Some("Finance"));
    assert NatToString(1) == "1" && NatToString(2) == "2" && NatToString(3) == "3";
    assert RiskRef(Some("Finance"), 1) == "Risk_Finance_1";
    assert ControlRef(Some("Finance"), 2) == "Control_Finance_2";
    assert ActionRef(Some("Finance"), 3) == "Action_Finance_3";
  }

  /** A job submitted without a department gets references naming "None". */
  lemma {:induction false} EnrichNoDepartmentExample(risk: Risk)
    requires ValidUnenrichedFields(risk)
    ensures Enrich([risk], None).Success?
    ensures var r := Enrich([risk], None).value;
      && r[0].riskEventReference == Some("Risk_None_1")
      && r[0].controlRef == Some("Control_None_1")
      && r[0].actionPlanReference == Some("Action_None_1")
  {
    EnrichSucceedsIff([risk], None);
    EnrichShape([risk], None);
    assert NatToString(1) == "1";
    assert RiskRef(None, 1) == "Risk_None_1";
    assert ControlRef(None, 1) == "Control_None_1";
    assert ActionRef(None, 1) == "Action_None_1";
  }

  /** The generation prompt allows "Yes (last updated YYYY)" for SOP
      availability, but the schema admits only "Yes" and "No": one such
      risk makes the whole list fail validation. */
  lemma {:induction false} OutdatedSopNoteFailsEnrichment(raw: seq<Risk>, department: Option<string>, k: nat, year: string)
    requires k < |raw| && raw[k].sopAvailable == Some("Yes (last updated " + year + ")")
    ensures Enrich(raw, department) == Failure(RiskValidationError)
  {
    EnrichSucceedsIff(raw, department);
    assert |raw[k].sopAvailable.value| > 3;
    assert raw[k].sopAvailable.value !in SopValues;
  }

  /** A missing department prints as "None", so its references are those of
      a department literally named "None". */
  lemma NoneDepartmentReadsAsNone(idx: nat)
    ensures RiskRef(None, idx) == RiskRef(Some("None"), idx)
    ensures ControlRef(None, idx) == ControlRef(Some("None"), idx)
    ensures ActionRef(None, idx) == ActionRef(Some("None"), idx)
  {
  }
}
