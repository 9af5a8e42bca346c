/** The `questionnaires` collection (app/database/mongodb.py), as far as the
    pipeline uses it: one record per `questionnaire_id` (the unique index),
    insert, point lookup, and `update_one` with `$set` and no upsert. The
    clock stands for `datetime.now`: every write reads it once, so later
    writes carry larger timestamps. A store operation may raise; which one
    raises in a run, and with what message, is given by a `Faults` map. */
module Store {
  import opened Wrappers
  import opened Schemas

  /** The store operations of one processing run, in program order. */
  datatype StoreOp =
    | InProgressWrite   // set status in_progress
    | ReadBack          // re-read the record before generation
    | RegisterWrite     // persist risk_register and processed_at
    | ReportRead        // the report stage reads the record
    | ReportWrite       // the report stage stores audit_report
    | CompletedWrite    // final status completed
    | FailedWrite       // status failed with the error message

  /** Which operations raise in a run, and the text of the exception each raises. */
  type Faults = map<StoreOp, string>

  function FaultAt(faults: Faults, op: StoreOp): Option<string> {
    if op in faults then Some(faults[op]) else None
  }

  /** The `$set` documents the pipeline writes. */
  datatype Update =
    | SetInProgress
    | SetRegister(register: RiskRegister)
    | SetAuditReport(questionnaireId: string, companyName: Option<string>,
                     departmentName: Option<string>, sections: AuditReportSections)
    | SetCompleted
    | SetFailed(message: string)

  /** The record after a `$set` stamped with time `t`; each update also sets `updated_at`. */
  function Apply(rec: ProcessedQuestionnaire, u: Update, t: nat): ProcessedQuestionnaire {
    match u
    case SetInProgress => rec.(status := InProgress, updatedAt := t)
    case SetRegister(reg) => rec.(riskRegister := Some(reg), processedAt := Some(t), updatedAt := t)
    case SetAuditReport(id, company, dept, sections) =>
      rec.(auditReport := Some(AuditReport(id, company, dept, Some(sections), Some(t), Completed)), updatedAt := t)
    case SetCompleted => rec.(status := Completed, updatedAt := t)
    case SetFailed(msg) => rec.(status := Failed, errorMessage := Some(msg), updatedAt := t)
  }

  /** The collection and the clock. */
  datatype DbState = DbState(docs: map<string, ProcessedQuestionnaire>, clock: nat)

  /** `update_one({"questionnaire_id": id}, {"$set": u})`: the clock is read
      to build the update; a raising store changes nothing; an id with no
      record changes nothing (no upsert). */
  function Write(s: DbState, id: string, u: Update, fault: Option<string>): (s': DbState)
    ensures s'.clock == s.clock + 1
    ensures forall k :: k != id ==> (k in s'.docs <==> k in s.docs)
    ensures forall k :: k in s.docs && k != id ==> s'.docs[k] == s.docs[k]
    ensures id in s'.docs <==> id in s.docs
    ensures id in s.docs ==> s'.docs[id] == if fault.None? then Apply(s.docs[id], u, s'.clock) else s.docs[id]
    ensures id !in s.docs ==> s'.docs == s.docs
  {
    var t := s.clock + 1;
    if fault.None? && id in s.docs then DbState(s.docs[id := Apply(s.docs[id], u, t)], t)
    else DbState(s.docs, t)
  }

  /** `find_one({"questionnaire_id": id})`: the record, None, or the exception raised. */
  function Find(s: DbState, id: string, fault: Option<string>): (r: Result<Option<ProcessedQuestionnaire>, string>)
    ensures fault.Some? ==> r == Failure(fault.value)
    ensures fault.None? ==> r.Success? && (r.value.Some? <==> id in s.docs)
    ensures fault.None? && id in s.docs ==> r.value.value == s.docs[id]
  {
    if fault.Some? then Failure(fault.value)
    else if id in s.docs then Success(Some(s.docs[id]))
    else Success(None)
  }

  /** No timestamp of any record lies in the clock's future. */
  ghost predicate TimestampsBounded(s: DbState) {
    forall k :: k in s.docs ==> RecordTimestampsBounded(s.docs[k], s.clock)
  }

  ghost predicate RecordTimestampsBounded(rec: ProcessedQuestionnaire, clock: nat) {
    && rec.createdAt <= clock
    && rec.updatedAt <= clock
    && (rec.processedAt.Some? ==> rec.processedAt.value <= clock)
    && (rec.auditReport.Some? && rec.auditReport.value.generatedAt.Some? ==>
          rec.auditReport.value.generatedAt.value <= clock)
  }

  /** Every record is stored under its own `questionnaire_id`. */
  ghost predicate KeysMatch(s: DbState) {
    forall k :: k in s.docs ==> s.docs[k].questionnaireId == k
  }

  /** A write keeps both store invariants, and stamps what it writes with a
      time later than every timestamp already stored. */
  lemma WriteKeepsInvariants(s: DbState, id: string, u: Update, fault: Option<string>)
    requires TimestampsBounded(s) && KeysMatch(s)
    ensures TimestampsBounded(Write(s, id, u, fault)) && KeysMatch(Write(s, id, u, fault))
  {
    var s' := Write(s, id, u, fault);
    forall k | k in s'.docs
      ensures RecordTimestampsBounded(s'.docs[k], s'.clock)
    {
      assert RecordTimestampsBounded(s.docs[k], s.clock);
    }
  }

  /** The error the unique index raises for an id already stored. */
  const DuplicateKeyMessage: string := "E11000 duplicate key error"

  /** Reading back after a write: the written id reads as the updated record
      when the write went through, and every other read is as before. */
  lemma ReadAfterWrite(s: DbState, id: string, k: string, u: Update, fault: Option<string>)
    ensures Find(Write(s, id, u, fault), k, None)
         == if k == id && fault.None? && id in s.docs then Success(Some(Apply(s.docs[id], u, s.clock + 1)))
            else Find(s, k, None)
  {
  }

  /** The `questionnaires` collection. */
  class Database {
    var questionnaires: map<string, ProcessedQuestionnaire>
    var clock: nat

    constructor ()
      ensures State() == DbState(map[], 0)
    {
      questionnaires := map[];
      clock := 0;
    }

    function State(): DbState
      reads this
    {
      DbState(questionnaires, clock)
    }

    /** `datetime.now(timezone.utc)`. */
    method Now() returns (t: nat)
      modifies this
      ensures questionnaires == old(questionnaires)
      ensures clock == old(clock) + 1 && t == clock
    {
      clock := clock + 1;
      t := clock;
    }

    /** `insert_one`: a raising store inserts nothing; the unique index on
        `questionnaire_id` refuses an id already stored with a duplicate-key
        error; otherwise the record is added. `err` is the exception raised. */
    method InsertOne(doc: ProcessedQuestionnaire, fault: Option<string>) returns (err: Option<string>)
      modifies this
      ensures err == if fault.Some? then fault
                     else if doc.questionnaireId in old(questionnaires) then Some(DuplicateKeyMessage)
                     else None
      ensures questionnaires == if err.None? then old(questionnaires)[doc.questionnaireId := doc] else old(questionnaires)
      ensures clock == old(clock)
    {
      if fault.Some? {
        err := fault;
      } else if doc.questionnaireId in questionnaires {
        err := Some(DuplicateKeyMessage);
      } else {
        questionnaires := questionnaires[doc.questionnaireId := doc];
        err := None;
      }
    }

    /** `update_one` with `$set`; `err` is the exception raised, if any. */
    method UpdateOne(id: string, u: Update, fault: Option<string>) returns (err: Option<string>)
      modifies this
      ensures State() == Write(old(State()), id, u, fault)
      ensures err == fault
    {
      var t := Now();
      if fault.None? && id in questionnaires {
        questionnaires := questionnaires[id := Apply(questionnaires[id], u, t)];
      }
      err := fault;
    }

    /** `find_one`. */
    function FindOne(id: string, fault: Option<string>): Result<Option<ProcessedQuestionnaire>, string>
      reads this
    {
      Find(State(), id, fault)
    }
  }
}
