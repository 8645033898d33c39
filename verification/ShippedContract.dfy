/** The decision contract the repository ships, written out, and what every theorem that asks
    something of a contract asks of it. */
module ShippedContract {
  import opened Vocabulary
  import opened Policy
  import opened PolicyAgreement
  import opened Gate
  import opened PhaseRun
  import opened PhaseRunFacts
  import opened Stamping
  import opened RunLedger

  const AMBIGUITY := Other("ambiguity")
  const PROJECT_POLICY := Other("repository_project_policy")

  function AssumptionCode(): Code {
    Code(AssumptionAllowed, None, None, [ReasonCode, PolicySource, Reversibility, Impact, RetractionCondition])
  }

  function AskingCode(clause: string, element: Field): Code {
    Code(NeedsInput, Some(Raw(clause)), Some(element),
         [ReasonCode, BoundaryElement, WhatIsMissing, WhyPolicyCannotDecide])
  }

  function ContradictionCode(clause: string): Code {
    Code(Conflict, Some(Raw(clause)), None, [ReasonCode, Citations, WhyTheyCannotBothHold])
  }

  const CODES: map<Text, Code> := map[
    Raw("repository_policy") := AssumptionCode(),
    Raw("explicit_requirement") := AssumptionCode(),
    Raw("phase_contract") := AssumptionCode(),
    Raw("quality_profile_attribute") := AssumptionCode(),
    Raw("ambiguous_requirement") := AskingCode("N-1", AMBIGUITY),
    Raw("missing_user_intent") := AskingCode("N-2", AMBIGUITY),
    Raw("irreversible_action") := AskingCode("N-1", Reversibility),
    Raw("blast_radius_beyond_scope") := AskingCode("N-1", BlastRadius),
    Raw("monetary_cost") := AskingCode("N-1", MonetaryCost),
    Raw("security_impact") := AskingCode("N-1", Security),
    Raw("privacy_impact") := AskingCode("N-1", Privacy),
    Raw("compliance_impact") := AskingCode("N-1", Compliance),
    Raw("long_term_lock_in") := AskingCode("N-1", LongTermLockIn),
    Raw("authority_reserved_to_user") := AskingCode("N-1", ExplicitUserAuthority),
    Raw("unclassifiable_decision") :=
      Code(NeedsInput, Some(Raw("N-3")), None,
           [ReasonCode, WhatIsMissing, WhyPolicyCannotDecide, ClassificationAttempted]),
    Raw("requirement_contradiction") := ContradictionCode("C-1"),
    Raw("requirement_vs_accepted_decision") := ContradictionCode("C-2"),
    Raw("requirement_vs_safety_floor") := ContradictionCode("C-3")]

  const ELEMENTS: map<Field, Element> := map[
    AMBIGUITY := Element(Declared, [], WhenBool(true)),
    ExplicitRequirementConflict := Element(CitationList, [], AtMinimum(2)),
    Reversibility := Element(Enum, [Str(ReversibleInRun), Str(Raw("reversible_with_effort")), Str(Irreversible)],
                             WhenOneOf([Str(Irreversible)])),
    BlastRadius := Element(Enum, [Str(Raw("current_change")), Str(Raw("module")), Str(Raw("repository")),
                                  Str(Raw("external_system"))],
                           WhenOneOf([Str(Raw("repository")), Str(Raw("external_system"))])),
    MonetaryCost := Element(Boolean, [], WhenBool(true)),
    Security := Element(Boolean, [], WhenBool(true)),
    Privacy := Element(Boolean, [], WhenBool(true)),
    Compliance := Element(Boolean, [], WhenBool(true)),
    LongTermLockIn := Element(Boolean, [], WhenBool(true)),
    PROJECT_POLICY := Element(OtherKind, [], Never),
    ExplicitUserAuthority := Element(Authority, [], WhenOneOf([Str(Reserved)]))]

  function TransitionRule(source: State, target: State): Rule {
    if source.Blocks() then
      match target
      case Clear => RequiresUserDecision
      case AssumptionAllowed => Forbidden
      case _ => Allowed
    else if source.AssumptionAllowed? && target.Clear? then RequiresRetraction
    else Allowed
  }

  function EntryCondition(s: State): Condition {
    match s
    case Clear => AnyOf([NoOpenDecisionItem, DeterminingPolicySource, ExplicitUserAuthorization])
    case AssumptionAllowed =>
      AllOf([AllSafetyFactsDeclared, ReversibleWithinRun, BlastRadiusWithinScope, NoHighImpactElement,
             SupportingPolicySource, NoReservedUserAuthority])
    case NeedsInput => AnyOf([UndeterminedBoundaryElement, AbsentUserIntent, UnclassifiableItem])
    case Conflict => AnyOf([DeclaredContradiction])
  }

  function RequiredEvidence(s: State): seq<Field> {
    match s
    case Clear => []
    case AssumptionAllowed => [ReasonCode, PolicySource, Reversibility, Impact, RetractionCondition]
    case NeedsInput => [ReasonCode, BoundaryElement, WhatIsMissing, WhyPolicyCannotDecide]
    case Conflict => [ReasonCode, Citations, WhyTheyCannotBothHold]
  }

  const SHIPPED: Contract := Contract(
    (s: State) => !s.Clear?,
    TransitionRule,
    map[NeedsInput := {Raw("N-1"), Raw("N-2"), Raw("N-3")}, Conflict := {Raw("C-1"), Raw("C-2"), Raw("C-3")}],
    map[Raw("N-1") := UndeterminedBoundaryElement, Raw("N-2") := AbsentUserIntent, Raw("N-3") := UnclassifiableItem,
        Raw("C-1") := DeclaredContradiction, Raw("C-2") := DeclaredContradiction, Raw("C-3") := DeclaredContradiction],
    CODES,
    ELEMENTS,
    EntryCondition,
    {ExplicitUserAuthority, ExplicitRequirementConflict},
    {Str(Determines), Str(Supports)},
    {Str(Raw("file_path")), Str(Raw("requirement_id")), Str(Raw("quality_attribute_id")),
     Str(Raw("phase_contract_section"))},
    RequiredEvidence,
    Str(Supports),
    [BlastRadius, MonetaryCost, Security, Privacy, Compliance, LongTermLockIn],
    false,
    [Str(Irreversible)],
    [Str(Raw("repository")), Str(Raw("external_system"))],
    [MonetaryCost, Security, Privacy, Compliance, LongTermLockIn],
    true,
    [Source, Other("where_recorded"), Other("resolves")],
    {Str(Raw("explicit_user_reply")), Str(Raw("prior_explicit_user_authorization"))},
    2)

  lemma AmbiguityIs()
    ensures AMBIGUITY in ELEMENTS && ELEMENTS[AMBIGUITY] == Element(Declared, [], WhenBool(true))
  {
  }

  lemma AskingCodeIs()
    ensures Raw("ambiguous_requirement") in CODES
    ensures CODES[Raw("ambiguous_requirement")] == AskingCode("N-1", AMBIGUITY)
  {
  }

  const NEEDS: set<Text> := {Raw("N-1"), Raw("N-2"), Raw("N-3")}
  const CONFLICTS: set<Text> := {Raw("C-1"), Raw("C-2"), Raw("C-3")}

  lemma CodeIs(name: Text)
    requires name in CODES
    ensures
      var code := CODES[name];
      && (code.state == AssumptionAllowed ==> code.clause.None?)
      && (code.state == NeedsInput ==> code.clause.Some? && code.clause.value in NEEDS)
      && (code.state == Conflict ==> code.clause.Some? && code.clause.value in CONFLICTS)
      && code.state != Clear
      && (code.element.Some? ==> code.element.value in ELEMENT_NAMES)
  {
  }

  const ELEMENT_NAMES: set<Field> := {
    AMBIGUITY, ExplicitRequirementConflict, Reversibility, BlastRadius, MonetaryCost, Security, Privacy, Compliance,
    LongTermLockIn, PROJECT_POLICY, ExplicitUserAuthority}

  lemma ElementNames()
    ensures ELEMENTS.Keys == ELEMENT_NAMES
  {
  }

  lemma ShippedIsWellFormed()
    ensures WellFormed(SHIPPED)
  {
    ElementNames();
    forall name | name in CODES
      ensures
        var code := CODES[name];
        && (code.clause.Some? <==> code.state in SHIPPED.clauses)
        && (code.clause.Some? ==> code.clause.value in SHIPPED.clauses[code.state])
        && (code.element.Some? ==> code.element.value in SHIPPED.elements)
    {
      CodeIs(name);
    }
  }

  lemma ShippedNamesApart()
    ensures NamesApart(SHIPPED) && AssumptionAllowed !in SHIPPED.clauses
  {
  }

  /** Each clause predicate is a disjunct of its state's entry condition. */
  lemma ShippedClausesEnter()
    ensures ClausesEnter(SHIPPED)
  {
    EntryDisjuncts();
    hide EntryCondition;
    forall name | name in CODES
      ensures
        var code := CODES[name];
        code.clause.Some? && code.clause.value in SHIPPED.clausePredicates ==>
          && EntryCondition(code.state).AnyOf?
          && SHIPPED.clausePredicates[code.clause.value] in EntryCondition(code.state).predicates
    {
      CodeIs(name);
    }
  }

  lemma EntryDisjuncts()
    ensures EntryCondition(NeedsInput).AnyOf? && EntryCondition(Conflict).AnyOf?
    ensures UndeterminedBoundaryElement in EntryCondition(NeedsInput).predicates
    ensures AbsentUserIntent in EntryCondition(NeedsInput).predicates
    ensures UnclassifiableItem in EntryCondition(NeedsInput).predicates
    ensures DeclaredContradiction in EntryCondition(Conflict).predicates
  {
    assert EntryCondition(NeedsInput).predicates[0] == UndeterminedBoundaryElement;
    assert EntryCondition(NeedsInput).predicates[1] == AbsentUserIntent;
    assert EntryCondition(NeedsInput).predicates[2] == UnclassifiableItem;
    assert EntryCondition(Conflict).predicates[0] == DeclaredContradiction;
  }

  lemma FiringElements()
    ensures Reversibility in ELEMENTS && Fires(ELEMENTS[Reversibility], Str(Irreversible))
    ensures ExplicitUserAuthority in ELEMENTS && Fires(ELEMENTS[ExplicitUserAuthority], Str(Reserved))
    ensures forall f :: f in SHIPPED.forbiddenWhenTrue ==> f in ELEMENTS && Fires(ELEMENTS[f], Bool(true))
  {
    assert [Str(Irreversible)][0] == Str(Irreversible) && [Str(Reserved)][0] == Str(Reserved);
  }

  lemma ShippedHasItsShape()
    ensures ShippedShape(SHIPPED)
  {
    FiringElements();
    hide Fires;
  }

  /** The shipped contract meets what the agreement theorems assume. */
  lemma ShippedAgrees()
    ensures WellFormed(SHIPPED) && NamesApart(SHIPPED) && ClausesEnter(SHIPPED) && ShippedShape(SHIPPED)
    ensures SHIPPED.assumptionRole == Str(Supports) && AssumptionAllowed !in SHIPPED.clauses
    ensures !SHIPPED.reasonCodeRequired(Clear) && SHIPPED.evidence(Clear) == []
  {
    ShippedIsWellFormed();
    ShippedNamesApart();
    ShippedClausesEnter();
    ShippedHasItsShape();
    hide WellFormed, NamesApart, ClausesEnter, ShippedShape;
  }

  lemma CitedElement(e: Field)
    requires e in ELEMENTS && ELEMENTS[e].kind.CitationList?
    ensures e == ExplicitRequirementConflict
  {
    hide IsClosedField;
  }

  /** Its `citations` element has a name no agent's record may carry. */
  lemma ShippedCitesOutside()
    ensures forall e :: e in SHIPPED.elements && SHIPPED.elements[e].kind.CitationList? ==> !IsClosedField(e)
  {
    assert !IsClosedField(ExplicitRequirementConflict);
    hide IsClosedField;
    forall e | e in ELEMENTS && ELEMENTS[e].kind.CitationList? ensures e == ExplicitRequirementConflict {
      CitedElement(e);
    }
  }

  const EVIDENCE_NAMES: set<Field> := {
    ReasonCode, PolicySource, Reversibility, Impact, RetractionCondition, BoundaryElement, WhatIsMissing,
    WhyPolicyCannotDecide, ClassificationAttempted, Citations, WhyTheyCannotBothHold}

  lemma EvidenceNames()
    ensures forall s, f :: f in RequiredEvidence(s) ==> f in EVIDENCE_NAMES
    ensures forall name, f :: name in CODES && f in CODES[name].evidence ==> f in EVIDENCE_NAMES
  {
  }

  lemma AgentNames(f: Field)
    ensures f in ELEMENT_NAMES ==> IsAgentField(f) && !IsClaim(f)
    ensures f in EVIDENCE_NAMES ==> !IsStamp(f)
  {
  }

  lemma ShippedReadsAgentFields()
    ensures ReadsAgentFields(SHIPPED)
    ensures forall e :: e in SHIPPED.elements ==> !IsClaim(e)
  {
    ElementNames();
    EvidenceNames();
    hide IsStamp, IsDefault, IsClaim, RequiredEvidence;
    forall f ensures (f in ELEMENT_NAMES ==> IsAgentField(f) && !IsClaim(f)) && (f in EVIDENCE_NAMES ==> !IsStamp(f)) {
      AgentNames(f);
    }
  }

  /** And it meets what every run theorem assumes of a judge and of a run-entry record. */
  lemma ShippedMeetsTheRuns(env: Env, phase: Json, binding: Json)
    requires env.judge == JudgeOf(SHIPPED)
    ensures Steady(env) && Sound(env.judge) && GoodEntry(env, RunEntryRecord(env, phase, binding))
  {
    ShippedReadsAgentFields();
    assert NoOpenDecisionItem in EntryCondition(Clear).predicates by {
      assert EntryCondition(Clear).predicates[0] == NoOpenDecisionItem;
    }
    ContractsMeetTheRuns(SHIPPED, env, phase, binding);
  }
}
