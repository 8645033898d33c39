/** Which of the shipped reason codes an agent can ever pause on: the gate admits a closed set of fields,
    and three codes rest on facts outside it. */
module ShippedReasons {
  import opened Vocabulary
  import opened Policy
  import opened Gate
  import opened ShippedContract
  import opened ShippedStates

  /** The reason codes whose facts no record the gate reads may state. */
  const UNSPEAKABLE: set<string> := {"missing_user_intent", "unclassifiable_decision", "authority_reserved_to_user"}

  ghost predicate PausesOn(record: Record, reason: string) {
    Get(record, Field.State) == Str(StateName(NeedsInput)) && Get(record, ReasonCode) == Str(Raw(reason))
  }

  /** What the validator asks of such a pause lies outside the closed fields. */
  lemma UnspeakableIsOpen(record: Record, reason: string)
    requires PausesOn(record, reason) && ValidRecord(SHIPPED, record) && reason in UNSPEAKABLE
    ensures !HasClosedFields(record)
  {
    hide ValidRecord, SHIPPED, CODES, ELEMENTS, Explained, IsClosedField, Unsettled, AMBIGUITY, Given, Ambiguous, Names;
    AskingIff(record);
    NotClosed();
    if reason == "missing_user_intent" {
      assert UserIntentAbsent in record;
    } else if reason == "unclassifiable_decision" {
      assert Unclassifiable in record;
    } else {
      assert ReachesBoundary(record, reason);
      assert ExplicitUserAuthority in record;
    }
  }

  lemma NotClosed()
    ensures !IsClosedField(UserIntentAbsent) && !IsClosedField(Unclassifiable) && !IsClosedField(ExplicitUserAuthority)
  {
  }

  const SAID := Str(Raw("said"))

  /** The element a pause names, the field its fact is stated in, if any, and the fact. */
  function FactOf(reason: string): (Json, Field, Json) {
    if reason == "ambiguous_requirement" then (Str(FieldName(AMBIGUITY)), Scope, SAID)
    else if reason == "missing_user_intent" then (Str(FieldName(AMBIGUITY)), UserIntentAbsent, Bool(true))
    else if reason == "irreversible_action" then (Str(FieldName(Reversibility)), Reversibility, Str(Irreversible))
    else if reason == "blast_radius_beyond_scope" then
      (Str(FieldName(BlastRadius)), BlastRadius, Str(Raw("repository")))
    else if reason == "monetary_cost" then (Str(FieldName(MonetaryCost)), MonetaryCost, Bool(true))
    else if reason == "security_impact" then (Str(FieldName(Security)), Security, Bool(true))
    else if reason == "privacy_impact" then (Str(FieldName(Privacy)), Privacy, Bool(true))
    else if reason == "compliance_impact" then (Str(FieldName(Compliance)), Compliance, Bool(true))
    else if reason == "long_term_lock_in" then (Str(FieldName(LongTermLockIn)), LongTermLockIn, Bool(true))
    else if reason == "authority_reserved_to_user" then
      (Str(FieldName(ExplicitUserAuthority)), ExplicitUserAuthority, Str(Reserved))
    else (Null, Unclassifiable, Bool(true))
  }

  /** A pause for that reason that states its fact and nothing else. */
  function Plea(reason: string): Record {
    var (element, field, fact) := FactOf(reason);
    map[Field.State := Str(StateName(NeedsInput)), ReasonCode := Str(Raw(reason)), BoundaryElement := element,
        WhatIsMissing := SAID, WhyPolicyCannotDecide := SAID, ClassificationAttempted := SAID, field := fact]
  }

  const FRAME: set<Field> := {
    Field.State, ReasonCode, BoundaryElement, WhatIsMissing, WhyPolicyCannotDecide, ClassificationAttempted}

  lemma PleaHas(reason: string)
    ensures
      var (element, field, fact) := FactOf(reason);
      var r := Plea(reason);
      && r.Keys == FRAME + {field} && field !in FRAME && r[field] == fact
      && r[Field.State] == Str(StateName(NeedsInput)) && r[ReasonCode] == Str(Raw(reason))
      && r[BoundaryElement] == element
      && r[WhatIsMissing] == SAID && r[WhyPolicyCannotDecide] == SAID && r[ClassificationAttempted] == SAID
  {
  }

  lemma FrameSays()
    ensures Given(SAID)
    ensures Field.State in FRAME && ReasonCode in FRAME && BoundaryElement in FRAME && WhatIsMissing in FRAME
    ensures WhyPolicyCannotDecide in FRAME && ClassificationAttempted in FRAME
    ensures FRAME !! FLAGS && Reversibility !in FRAME && BlastRadius !in FRAME
    ensures ExplicitRequirementConflict !in FRAME && ExplicitUserAuthority !in FRAME && ConflictClause !in FRAME
    ensures PolicySource !in FRAME && PolicySourceRole !in FRAME && UserDecision !in FRAME
    ensures UserIntentAbsent !in FRAME && Unclassifiable !in FRAME && Scope !in FRAME
  {
    assert "said"[0] == 's';
  }

  lemma FlagsApart()
    ensures IMPACTS <= FLAGS && AMBIGUITY !in IMPACTS && AMBIGUITY in FLAGS
    ensures FLAGS !! {Reversibility, BlastRadius, ExplicitUserAuthority, Scope, UserIntentAbsent, Unclassifiable}
    ensures Str(Irreversible) in REVERSIBILITIES && Str(Raw("repository")) in BEYOND_SCOPE
    ensures IMPACTS == {MonetaryCost, Security, Privacy, Compliance, LongTermLockIn}
  {
  }

  /** A fact is an impact, or one of the others, with its value. */
  predicate IsFact(field: Field, fact: Json) {
    || (field in IMPACTS && fact == Bool(true))
    || (field == Reversibility && fact == Str(Irreversible))
    || (field == BlastRadius && fact == Str(Raw("repository")))
    || (field == ExplicitUserAuthority && fact == Str(Reserved))
    || field in {Scope, UserIntentAbsent, Unclassifiable}
  }

  lemma FactsAre(reason: string)
    ensures IsFact(FactOf(reason).1, FactOf(reason).2)
  {
    FlagsApart();
    hide IMPACTS;
  }

  lemma FieldsSay(reason: string)
    ensures
      var (element, field, fact) := FactOf(reason);
      && field !in {PolicySource, PolicySourceRole, UserDecision, ConflictClause, ExplicitRequirementConflict}
      && (field == Reversibility ==> fact in REVERSIBILITIES)
      && (field == BlastRadius ==> fact in WITHIN_SCOPE + BEYOND_SCOPE)
      && (field in FLAGS ==> fact.Bool?) && (field == ExplicitUserAuthority ==> fact == Str(Reserved))
      && field != AMBIGUITY
  {
    FactsAre(reason);
    FlagsApart();
    hide FactOf, IMPACTS, FLAGS, REVERSIBILITIES, WITHIN_SCOPE, BEYOND_SCOPE, AMBIGUITY;
  }

  /** Such a pause is one the validator can explain, and nothing on record settles it. */
  lemma PleaIsExplained(reason: string)
    ensures Explained(Plea(reason)) && Unsettled(Plea(reason))
    ensures AMBIGUITY !in Plea(reason)
  {
    PleaHas(reason);
    FrameSays();
    FieldsSay(reason);
    AmbiguityIsAFlag();
    NullIsNoClause();
    hide Plea, FactOf, FRAME, FLAGS, REVERSIBILITIES, WITHIN_SCOPE, BEYOND_SCOPE, CLAUSES, AMBIGUITY, Given, SAID;
    var r := Plea(reason);
    assert Get(r, PolicySource) == Null && Get(r, PolicySourceRole) == Null && Get(r, ConflictClause) == Null;
    assert ElementsKnown(r);
  }

  lemma AmbiguityIsAFlag()
    ensures AMBIGUITY in FLAGS
  {
  }

  lemma PleaReaches(reason: string)
    requires Raw(reason) in ASKING_CODES
    requires reason !in {"ambiguous_requirement", "missing_user_intent", "unclassifiable_decision"}
    ensures ReachesBoundary(Plea(reason), reason)
  {
    PleaHas(reason);
    FrameSays();
    WideIsBeyond();
    BoundaryCodes(reason);
    hide Plea, BEYOND_SCOPE, FRAME, FLAGS, SAID, AMBIGUITY, Given, ASKING_CODES;
  }

  lemma BoundaryCodes(reason: string)
    requires Raw(reason) in ASKING_CODES
    ensures reason in {"ambiguous_requirement", "missing_user_intent", "unclassifiable_decision", "irreversible_action",
                       "blast_radius_beyond_scope", "monetary_cost", "security_impact", "privacy_impact",
                       "compliance_impact", "long_term_lock_in", "authority_reserved_to_user"}
  {
  }

  lemma OtherFacts()
    ensures FactOf("ambiguous_requirement").0 == Str(FieldName(AMBIGUITY))
    ensures FactOf("missing_user_intent") == (Str(FieldName(AMBIGUITY)), UserIntentAbsent, Bool(true))
    ensures FactOf("unclassifiable_decision") == (Null, Unclassifiable, Bool(true))
  {
  }

  lemma PleaIsValid(reason: string)
    requires Raw(reason) in ASKING_CODES
    ensures PausesOn(Plea(reason), reason) && ValidRecord(SHIPPED, Plea(reason))
  {
    PleaHas(reason);
    PleaIsExplained(reason);
    FrameSays();
    OtherFacts();
    var r := Plea(reason);
    hide SHIPPED, CODES, ELEMENTS, ValidRecord, Explained, Unsettled, Plea, Given, BEYOND_SCOPE, FRAME, FLAGS, SAID,
         AMBIGUITY, ReachesBoundary, ASKING_CODES, FactOf;
    AskingIff(r);
    if reason == "ambiguous_requirement" {
      assert HasReasonToAsk(r);
    } else if reason == "missing_user_intent" {
      assert HasReasonToAsk(r);
    } else if reason == "unclassifiable_decision" {
      assert HasReasonToAsk(r);
    } else {
      PleaReaches(reason);
    }
  }

  lemma WideIsBeyond()
    ensures Str(Raw("repository")) in BEYOND_SCOPE
  {
  }

  lemma PleaIsClosed(reason: string)
    requires reason !in UNSPEAKABLE && Raw(reason) in ASKING_CODES
    ensures HasClosedFields(Plea(reason))
  {
    PleaHas(reason);
    SpokenFields(reason);
    hide Plea, FactOf;
  }

  lemma SpokenFields(reason: string)
    requires reason !in UNSPEAKABLE && Raw(reason) in ASKING_CODES
    ensures FactOf(reason).1 in {Scope, Reversibility, BlastRadius} + IMPACTS
  {
  }

  /** Of the eleven shipped reasons to ask, the validator accepts a pause on each; but the gate, which
      reads a closed set of fields, accepts from an agent exactly those that rest on none of the absence
      of user intent, an item that cannot be classified and authority reserved to the user. */
  lemma DeclarableReasons(reason: string)
    requires Raw(reason) in ASKING_CODES
    ensures exists record :: PausesOn(record, reason) && ValidRecord(SHIPPED, record)
    ensures (exists record :: PausesOn(record, reason) && JudgeOf(SHIPPED).accepts(record)) <==> reason !in UNSPEAKABLE
  {
    PleaIsValid(reason);
    if reason !in UNSPEAKABLE {
      PleaIsClosed(reason);
      assert JudgeOf(SHIPPED).accepts(Plea(reason));
    } else {
      forall record | PausesOn(record, reason) && JudgeOf(SHIPPED).accepts(record) ensures false {
        UnspeakableIsOpen(record, reason);
      }
    }
  }
}
