/** The values every component exchanges: JSON documents over a closed set of field names,
    the four decision states and the phases of a run. */
module Vocabulary {

  datatype Option<+T> = None | Some(value: T)

  datatype Result<+T, +E> = Ok(value: T) | Err(error: E)

  datatype State = Clear | AssumptionAllowed | NeedsInput | Conflict
  {
    predicate Blocks() {
      NeedsInput? || Conflict?
    }
  }

  datatype Phase =
    | Analysis | Plan | Design | Implementation | Test
    | Bugfix | Refactoring | FinalReview | Custom(name: string)

  /** Field names of decision records. `Other` is any name the components do not spell out. */
  datatype Field =
      // the thirteen fields required of every ledger record
    | Run | Phase | Iteration | State | ReasonCode | Evidence | Assumption | OpenItem
    | ResponsiblePhase | Role | Verdict | SourceBinding | RecordedAt
      // ledger mechanics
    | LedgerSchemaVersion | Boundary | Sequence | Source | PriorOpenDecisionItems | Verifies
      // evidence and grounds named by the decision contract
    | BoundaryElement | BlastRadius | MonetaryCost | Security | Privacy | Compliance
    | LongTermLockIn | Reversibility | Impact | PolicySource | RetractionCondition | Retraction
    | WhatIsMissing | WhyPolicyCannotDecide | ClassificationAttempted | Citations
    | WhyTheyCannotBothHold | OpenDecisionItem | Grounds | Scope | UserDecision
      // read by the policy evaluator but outside the closed record set
    | ExplicitUserAuthority | ExplicitRequirementConflict | ConflictClause
    | UserIntentAbsent | Unclassifiable | PolicySourceRole
      // members of nested objects
    | WorkerRecordKey | Kind | Locator
    | Other(name: string)

  /** A JSON string: one of the words the components compare against, or any other text. */
  datatype Text =
    | StateName(state: State) | PhaseName(phase: Phase) | FieldName(field: Field)
    | B1 | B2 | B3
    | RunEntry | Worker | Reviewer | Coordinator
    | Reserved | ReversibleInRun | Irreversible | Determines | Supports
    | Raw(text: string)
  {
    predicate IsBlank() {
      Raw? && forall i | 0 <= i < |text| :: text[i] in {' ', '\t', '\n', '\r'}
    }
  }

  /** A JSON value. `Key` is the string that prints a ledger key (see module LedgerKeys). */
  datatype Json =
    | Null
    | Bool(b: bool)
    | Int(n: int)
    | Str(t: Text)
    | Key(key: LedgerKey)
    | List(items: seq<Json>)
    | Obj(members: map<Field, Json>)

  datatype LedgerKey = LedgerKey(run: Json, phase: Json, iteration: Json, boundary: Json, sequence: Json)

  type Record = map<Field, Json>

  /** `record.get(field)`. */
  function Get(record: Record, field: Field): Json {
    if field in record then record[field] else Null
  }
}
