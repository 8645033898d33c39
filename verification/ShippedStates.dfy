/** What the contract the repository ships asks of each state, said of the values of the facts and of
    the records that declare it. */
module ShippedStates {
  import opened Vocabulary
  import opened Policy
  import opened PolicyAgreement
  import opened ShippedContract

  // ---- the facts ----

  /** A string with something in it. */
  predicate Written(v: Json) {
    v.Str? && (v.t.Raw? ==> exists i | 0 <= i < |v.t.text| :: v.t.text[i] !in {' ', '\t', '\n', '\r'})
  }

  const IMPACTS: set<Field> := {MonetaryCost, Security, Privacy, Compliance, LongTermLockIn}
  const FLAGS: set<Field> := IMPACTS + {AMBIGUITY}
  const REVERSIBILITIES: set<Json> := {Str(ReversibleInRun), Str(Raw("reversible_with_effort")), Str(Irreversible)}
  const WITHIN_SCOPE: set<Json> := {Str(Raw("current_change")), Str(Raw("module"))}
  const BEYOND_SCOPE: set<Json> := {Str(Raw("repository")), Str(Raw("external_system"))}
  const CLAUSES: set<Json> := {Str(Raw("C-1")), Str(Raw("C-2")), Str(Raw("C-3"))}

  /** The role a policy source is cited in: the one stated, or else the source's own. */
  predicate CitedTo(facts: Record, role: Text) {
    if Get(facts, PolicySourceRole) != Null then facts[PolicySourceRole] == Str(role)
    else Get(facts, PolicySource).Obj? && Get(facts[PolicySource].members, Role) == Str(role)
  }

  predicate BoundaryReached(facts: Record) {
    || (Get(facts, ExplicitRequirementConflict).List? && |facts[ExplicitRequirementConflict].items| >= 2)
    || Get(facts, Reversibility) == Str(Irreversible)
    || Get(facts, BlastRadius) in BEYOND_SCOPE
    || (exists f :: f in FLAGS && Get(facts, f) == Bool(true))
    || Get(facts, ExplicitUserAuthority) == Str(Reserved)
  }

  predicate Contradicted(facts: Record) {
    Get(facts, ConflictClause) in CLAUSES
  }

  predicate UserDecided(facts: Record) {
    && Get(facts, UserDecision).Obj?
    && var decision := facts[UserDecision].members;
    && Get(decision, Source) in {Str(Raw("explicit_user_reply")), Str(Raw("prior_explicit_user_authorization"))}
    && Written(Get(decision, Other("where_recorded"))) && Written(Get(decision, Other("resolves")))
  }

  /** A determining source settles anything but reserved authority and a contradiction. */
  predicate SettledByPolicy(facts: Record) {
    CitedTo(facts, Determines) && Get(facts, ExplicitUserAuthority) != Str(Reserved) && !Contradicted(facts)
  }

  /** Every fact has a value the contract knows. */
  predicate FactsKnown(facts: Record) {
    ElementsKnown(facts) && SourceKnown(facts) && Get(facts, ConflictClause) in {Null} + CLAUSES
  }

  predicate ElementsKnown(facts: Record) {
    && (Reversibility in facts ==> facts[Reversibility] in REVERSIBILITIES)
    && (BlastRadius in facts ==> facts[BlastRadius] in WITHIN_SCOPE + BEYOND_SCOPE)
    && (forall f :: f in FLAGS && f in facts ==> facts[f].Bool?)
    && (ExplicitRequirementConflict in facts ==> facts[ExplicitRequirementConflict].List?)
    && (ExplicitUserAuthority in facts ==> facts[ExplicitUserAuthority] == Str(Reserved))
  }

  predicate SourceKnown(facts: Record) {
    && (Get(facts, PolicySource).Obj? ==>
          && Get(facts[PolicySource].members, Kind) in
               {Null, Str(Raw("file_path")), Str(Raw("requirement_id")), Str(Raw("quality_attribute_id")),
                Str(Raw("phase_contract_section"))}
          && Written(Get(facts[PolicySource].members, Locator)))
    && (if Get(facts, PolicySourceRole) != Null then facts[PolicySourceRole] in {Str(Determines), Str(Supports)}
        else Get(facts, PolicySource).Obj? ==>
               Get(facts[PolicySource].members, Role) in {Null, Str(Determines), Str(Supports)})
  }

  predicate MayClear(facts: Record) {
    || UserDecided(facts) || SettledByPolicy(facts)
    || (Get(facts, OpenDecisionItem) == Bool(false) && !BoundaryReached(facts) && !Contradicted(facts))
  }

  /** Every safety fact is present, the item can be reversed in the run, reaches no further than a
      module and has no impact, a policy source supports it and no authority is reserved. */
  predicate MayAssume(facts: Record) {
    && BlastRadius in facts && IMPACTS <= facts.Keys
    && Get(facts, Reversibility) == Str(ReversibleInRun)
    && facts[BlastRadius] !in BEYOND_SCOPE
    && (forall f :: f in IMPACTS ==> facts[f] != Bool(true))
    && CitedTo(facts, Supports)
    && Get(facts, ExplicitUserAuthority) != Str(Reserved)
  }

  predicate MustAsk(facts: Record) {
    || (BoundaryReached(facts) && !SettledByPolicy(facts) && !UserDecided(facts))
    || Get(facts, UserIntentAbsent) == Bool(true) || Get(facts, Unclassifiable) == Bool(true)
  }

  // ---- the elements of the shipped contract ----

  lemma ElementsAre()
    ensures forall e :: e in ELEMENTS <==> e in ELEMENT_NAMES
    ensures forall f :: f in FLAGS ==>
              f in ELEMENTS && (ELEMENTS[f].kind.Boolean? || ELEMENTS[f].kind.Declared?)
              && ELEMENTS[f].trigger == WhenBool(true)
    ensures ELEMENTS[ExplicitRequirementConflict] == Element(CitationList, [], AtMinimum(2))
    ensures ELEMENTS[PROJECT_POLICY] == Element(OtherKind, [], Never)
    ensures ELEMENTS[ExplicitUserAuthority] == Element(Authority, [], WhenOneOf([Str(Reserved)]))
  {
    ElementNames();
  }

  lemma EnumsAre()
    ensures Reversibility in ELEMENTS && BlastRadius in ELEMENTS
    ensures forall v :: InDomain(ELEMENTS[Reversibility], v) <==> v in REVERSIBILITIES
    ensures forall v :: Fires(ELEMENTS[Reversibility], v) <==> v == Str(Irreversible)
    ensures forall v :: InDomain(ELEMENTS[BlastRadius], v) <==> v in WITHIN_SCOPE + BEYOND_SCOPE
    ensures forall v :: Fires(ELEMENTS[BlastRadius], v) <==> v in BEYOND_SCOPE
    ensures ELEMENTS[BlastRadius].trigger.WhenOneOf?
    ensures forall v :: v in ELEMENTS[BlastRadius].trigger.values <==> v in BEYOND_SCOPE
  {
    var r, b := ELEMENTS[Reversibility], ELEMENTS[BlastRadius];
    assert r == Element(Enum, [Str(ReversibleInRun), Str(Raw("reversible_with_effort")), Str(Irreversible)],
                        WhenOneOf([Str(Irreversible)]));
    assert b == Element(Enum, [Str(Raw("current_change")), Str(Raw("module")), Str(Raw("repository")),
                               Str(Raw("external_system"))],
                        WhenOneOf([Str(Raw("repository")), Str(Raw("external_system"))]));
    hide ELEMENTS;
  }

  lemma KindsRead(e: Element, v: Json)
    ensures e.kind.Boolean? || e.kind.Declared? ==> (InDomain(e, v) <==> v.Bool?)
    ensures e.kind.CitationList? ==> (InDomain(e, v) <==> v.List?)
    ensures e.kind.OtherKind? ==> InDomain(e, v)
    ensures e.kind.Authority? && e.trigger.WhenOneOf? ==> (InDomain(e, v) <==> v in e.trigger.values)
    ensures e.trigger == WhenBool(true) ==> (Fires(e, v) <==> v == Bool(true))
    ensures e.trigger == AtMinimum(2) ==> (Fires(e, v) <==> v.List? && |v.items| >= 2)
    ensures e.trigger == Never ==> !Fires(e, v)
    ensures e.trigger == WhenEqual(v) ==> Fires(e, v)
    ensures e.trigger.WhenEqual? && Fires(e, v) ==> e.trigger == WhenEqual(v)
    ensures e.trigger.WhenOneOf? ==> (Fires(e, v) <==> v in e.trigger.values)
  {
  }

  lemma ElementsApart()
    ensures ELEMENT_NAMES == FLAGS + {ExplicitRequirementConflict, Reversibility, BlastRadius, PROJECT_POLICY,
                                      ExplicitUserAuthority}
    ensures FLAGS !! {ExplicitRequirementConflict, Reversibility, BlastRadius, PROJECT_POLICY, ExplicitUserAuthority}
    ensures PROJECT_POLICY !in {ExplicitRequirementConflict, Reversibility, BlastRadius, ExplicitUserAuthority}
  {
  }

  /** What each element makes of a value. */
  lemma ElementReads(e: Field, v: Json)
    requires e in ELEMENTS
    ensures Fires(ELEMENTS[e], v) <==>
              || (e in FLAGS && v == Bool(true))
              || (e == ExplicitRequirementConflict && v.List? && |v.items| >= 2)
              || (e == Reversibility && v == Str(Irreversible))
              || (e == BlastRadius && v in BEYOND_SCOPE)
              || (e == ExplicitUserAuthority && v == Str(Reserved))
    ensures InDomain(ELEMENTS[e], v) <==>
              && (e in FLAGS ==> v.Bool?)
              && (e == ExplicitRequirementConflict ==> v.List?)
              && (e == Reversibility ==> v in REVERSIBILITIES)
              && (e == BlastRadius ==> v in WITHIN_SCOPE + BEYOND_SCOPE)
              && (e == ExplicitUserAuthority ==> v == Str(Reserved))
  {
    ElementsAre();
    EnumsAre();
    ElementsApart();
    KindsRead(ELEMENTS[e], v);
    assert v in [Str(Reserved)] <==> v == Str(Reserved);
    hide ELEMENTS, BEYOND_SCOPE, WITHIN_SCOPE, REVERSIBILITIES, Fires, InDomain, FLAGS, ELEMENT_NAMES, PROJECT_POLICY;
  }

  // ---- what the evaluator reads of the facts ----

  lemma TriggeredIff(facts: Record)
    ensures Triggered(SHIPPED, facts) <==> BoundaryReached(facts)
  {
    ElementsAre();
    ElementsApart();
    hide ELEMENTS, BEYOND_SCOPE, Fires, ELEMENT_NAMES, PROJECT_POLICY, IMPACTS, AMBIGUITY;
    forall e | e in ELEMENTS && e in facts ensures Fires(ELEMENTS[e], facts[e]) ==> BoundaryReached(facts) {
      ElementReads(e, facts[e]);
    }
    if BoundaryReached(facts) {
      var e := if exists f :: f in FLAGS && Get(facts, f) == Bool(true)
               then var f :| f in FLAGS && Get(facts, f) == Bool(true); f
               else if Get(facts, ExplicitRequirementConflict).List? && |facts[ExplicitRequirementConflict].items| >= 2
               then ExplicitRequirementConflict
               else if Get(facts, Reversibility) == Str(Irreversible) then Reversibility
               else if Get(facts, BlastRadius) in BEYOND_SCOPE then BlastRadius
               else ExplicitUserAuthority;
      NullIsWithin();
      assert e in facts;
      ElementReads(e, facts[e]);
    }
  }

  lemma NullIsWithin()
    ensures Null !in BEYOND_SCOPE
  {
  }

  lemma WrittenIff(v: Json)
    ensures Written(v) <==> v.Str? && !IsEmpty(v)
  {
  }

  lemma DecisionFields(c: Contract, decision: Record)
    requires c.userDecisionFields == [Source, Other("where_recorded"), Other("resolves")]
    ensures (forall f :: f in c.userDecisionFields ==>
               f in decision && decision[f].Str? && !IsEmpty(decision[f]))
            <==> Written(Get(decision, Source)) && Written(Get(decision, Other("where_recorded")))
                 && Written(Get(decision, Other("resolves")))
  {
    forall f ensures Written(Get(decision, f)) <==> f in decision && decision[f].Str? && !IsEmpty(decision[f]) {
      WrittenIff(Get(decision, f));
    }
    hide Written, IsEmpty;
    var fields := c.userDecisionFields;
    assert fields[0] == Source && fields[1] == Other("where_recorded") && fields[2] == Other("resolves");
  }

  lemma DecisionIff(c: Contract, v: Json)
    requires c.userDecisionFields == [Source, Other("where_recorded"), Other("resolves")]
    requires c.userDecisionSources == {Str(Raw("explicit_user_reply")), Str(Raw("prior_explicit_user_authorization"))}
    ensures ProvesUserDecision(c, v) <==>
              && v.Obj? && Get(v.members, Source) in c.userDecisionSources
              && Written(Get(v.members, Other("where_recorded"))) && Written(Get(v.members, Other("resolves")))
  {
    if v.Obj? {
      DecisionFields(c, v.members);
      RepliesAreWritten();
      assert Written(Get(v.members, Source)) ==> v.members != map[];
      hide Written, IsEmpty;
    }
  }

  lemma AuthorizedIff(facts: Record)
    ensures Authorized(SHIPPED, facts) <==> UserDecided(facts)
  {
    DecisionIff(SHIPPED, Get(facts, UserDecision));
    hide Written, ProvesUserDecision, ELEMENTS, CODES;
  }

  lemma RepliesAreWritten()
    ensures Written(Str(Raw("explicit_user_reply"))) && Written(Str(Raw("prior_explicit_user_authorization")))
  {
    assert "explicit_user_reply"[0] == 'e' && "prior_explicit_user_authorization"[0] == 'p';
  }

  lemma ContradictsIff(facts: Record)
    ensures Contradicts(SHIPPED, facts) <==> Contradicted(facts)
    ensures Contradicted(facts) <==>
              Get(facts, ConflictClause).Str? && facts[ConflictClause].t in ConflictClauses(SHIPPED)
  {
    assert ConflictClauses(SHIPPED) == {Raw("C-1"), Raw("C-2"), Raw("C-3")};
  }

  lemma SourceRoleIff(facts: Record)
    ensures CitedTo(facts, Determines) <==> SourceRole(facts) == Str(Determines)
    ensures CitedTo(facts, Supports) <==> SourceRole(facts) == Str(Supports)
  {
  }

  lemma SettledIff(facts: Record)
    ensures SettledByPolicy(facts) <==>
              SourceRole(facts) == Str(Determines) && !UnresolvableByPolicy(SHIPPED, facts)
  {
    ContradictsIff(facts);
    SourceRoleIff(facts);
    hide CitedTo, SourceRole, Contradicted, Contradicts, ELEMENTS, CODES;
  }

  lemma ElementDomains(facts: Record)
    ensures (forall e :: e in ELEMENTS && e in facts ==> InDomain(ELEMENTS[e], facts[e])) <==> ElementsKnown(facts)
  {
    ElementsAre();
    ElementsApart();
    hide ELEMENTS, BEYOND_SCOPE, WITHIN_SCOPE, REVERSIBILITIES, InDomain, ELEMENT_NAMES, PROJECT_POLICY, FLAGS;
    forall e | e in ELEMENTS && e in facts
      ensures InDomain(ELEMENTS[e], facts[e]) <==>
              && (e in FLAGS ==> facts[e].Bool?)
              && (e == ExplicitRequirementConflict ==> facts[e].List?)
              && (e == Reversibility ==> facts[e] in REVERSIBILITIES)
              && (e == BlastRadius ==> facts[e] in WITHIN_SCOPE + BEYOND_SCOPE)
              && (e == ExplicitUserAuthority ==> facts[e] == Str(Reserved))
    {
      ElementReads(e, facts[e]);
    }
  }

  lemma SourceDomain(facts: Record)
    ensures SourceKnown(facts) <==>
              && (Get(facts, PolicySource).Obj? ==> ValidSource(SHIPPED, facts[PolicySource].members))
              && (SourceRole(facts) == Null || SourceRole(facts) in SHIPPED.sourceRoles)
  {
    if Get(facts, PolicySource).Obj? {
      WrittenIff(Get(facts[PolicySource].members, Locator));
    }
    hide ELEMENTS, CODES, Written, IsEmpty;
  }

  lemma NullIsNoClause()
    ensures Null !in CLAUSES
  {
  }

  lemma ValidFactsIff(facts: Record)
    ensures ValidFacts(SHIPPED, facts) <==> FactsKnown(facts)
  {
    ContradictsIff(facts);
    ElementDomains(facts);
    SourceDomain(facts);
    hide ELEMENTS, CODES, InDomain, ValidSource, SourceRole, Written, CLAUSES;
    assert Null !in CLAUSES by { NullIsNoClause(); }
  }

  lemma ForbiddenIff(facts: Record)
    ensures AssumptionForbidden(SHIPPED, facts) <==>
              || Get(facts, Reversibility) == Str(Irreversible)
              || (exists f :: f in IMPACTS && Get(facts, f) == Bool(true))
              || Get(facts, ExplicitUserAuthority) == Str(Reserved)
  {
    assert forall f :: f in SHIPPED.forbiddenWhenTrue <==> f in IMPACTS by { ImpactsAre(); }
    assert forall v :: v in SHIPPED.forbiddenReversibility <==> v == Str(Irreversible);
    hide ELEMENTS, CODES, IMPACTS;
  }

  lemma ImpactsAre()
    ensures forall f :: f in SHIPPED.forbiddenWhenTrue <==> f in IMPACTS
    ensures forall f :: f in SHIPPED.safetyFacts <==> f == BlastRadius || f in IMPACTS
  {
    var flags, facts := SHIPPED.forbiddenWhenTrue, SHIPPED.safetyFacts;
    assert flags == [MonetaryCost, Security, Privacy, Compliance, LongTermLockIn];
    assert facts == [BlastRadius] + flags;
  }

  lemma AssumableIff(facts: Record)
    ensures Enterable(SHIPPED, AssumptionAllowed, facts) <==> MayAssume(facts)
  {
    ShippedHasItsShape();
    AssumptionEntry(SHIPPED, facts);
    ForbiddenIff(facts);
    ImpactsAre();
    EnumsAre();
    SourceRoleIff(facts);
    NullIsWithin();
    hide ELEMENTS, CODES, IMPACTS, BEYOND_SCOPE, CitedTo, SourceRole, AssumptionForbidden, Enterable, ShippedShape;
    assert SafetyFactsDeclared(SHIPPED, facts) <==> BlastRadius in facts && IMPACTS <= facts.Keys;
  }

  /** The six demands of an assumption under the shipped entry conditions. */
  lemma AssumptionEntry(c: Contract, facts: Record)
    requires ShippedShape(c)
    ensures Enterable(c, AssumptionAllowed, facts) <==>
              && SafetyFactsDeclared(c, facts) && Get(facts, Reversibility) == Str(ReversibleInRun)
              && !(BlastRadius in c.elements && c.elements[BlastRadius].trigger.WhenOneOf?
                   && Get(facts, BlastRadius) in c.elements[BlastRadius].trigger.values)
              && !AssumptionForbidden(c, facts) && SourceRole(facts) == Str(Supports)
              && (if ExplicitUserAuthority in facts then facts[ExplicitUserAuthority] != Str(Reserved)
                  else !c.absentAuthorityIsReserved)
  {
    hide SafetyFactsDeclared, AssumptionForbidden, SourceRole;
    var demands := c.entry(AssumptionAllowed).predicates;
    assert demands[0] == AllSafetyFactsDeclared && demands[1] == ReversibleWithinRun
           && demands[2] == BlastRadiusWithinScope && demands[3] == NoHighImpactElement
           && demands[4] == SupportingPolicySource && demands[5] == NoReservedUserAuthority;
    assert |demands| == 6;
    assert Holds(AllSafetyFactsDeclared, c, facts) <==> SafetyFactsDeclared(c, facts);
    assert Holds(NoHighImpactElement, c, facts) <==> !AssumptionForbidden(c, facts);
    assert Holds(SupportingPolicySource, c, facts) <==> SourceRole(facts) == Str(Supports);
    assert Enterable(c, AssumptionAllowed, facts) <==> forall i | 0 <= i < 6 :: Holds(demands[i], c, facts);
  }

  /** The other three, whatever else the contract says. */
  lemma OtherEntries(c: Contract, facts: Record)
    requires ShippedShape(c)
    ensures Enterable(c, Clear, facts) <==>
              || Authorized(c, facts)
              || (SourceRole(facts) == Str(Determines) && !UnresolvableByPolicy(c, facts))
              || (Get(facts, OpenDecisionItem) == Bool(false) && !Triggered(c, facts) && !Contradicts(c, facts))
    ensures Enterable(c, NeedsInput, facts) <==>
              || (Triggered(c, facts) && !(SourceRole(facts) == Str(Determines) && !UnresolvableByPolicy(c, facts))
                  && !Authorized(c, facts))
              || Get(facts, UserIntentAbsent) == Bool(true) || Get(facts, Unclassifiable) == Bool(true)
    ensures Enterable(c, Conflict, facts) <==> Contradicts(c, facts) && !Authorized(c, facts)
  {
    hide Enterable, Triggered, Authorized, Contradicts, SourceRole, UnresolvableByPolicy, ShippedShape,
         AssumptionForbidden, SafetyFactsDeclared;
    ShippedEntries(c, facts);
  }

  lemma OthersEnterIff(facts: Record)
    ensures Enterable(SHIPPED, Clear, facts) <==> MayClear(facts)
    ensures Enterable(SHIPPED, NeedsInput, facts) <==> MustAsk(facts)
    ensures Enterable(SHIPPED, Conflict, facts) <==> Contradicted(facts) && !UserDecided(facts)
  {
    ShippedHasItsShape();
    OtherEntries(SHIPPED, facts);
    TriggeredIff(facts);
    AuthorizedIff(facts);
    ContradictsIff(facts);
    SettledIff(facts);
    hide Enterable, Triggered, Authorized, Contradicts, SettledByPolicy, BoundaryReached, UserDecided, Contradicted,
         SourceRole, UnresolvableByPolicy, ELEMENTS, CODES, SHIPPED, ShippedShape;
  }

  /** Which states the shipped contract permits, for all facts: the evaluator raises exactly on facts
      with a value the contract does not know, and otherwise permits CLEAR, ASSUMPTION_ALLOWED,
      NEEDS_INPUT and CONFLICT exactly as written out above. */
  lemma ShippedPermits(facts: Record)
    ensures PermittedStates(SHIPPED, facts).Some? <==> FactsKnown(facts)
    ensures FactsKnown(facts) ==>
              var permitted := PermittedStates(SHIPPED, facts).value;
              && (Clear in permitted <==> MayClear(facts))
              && (AssumptionAllowed in permitted <==> MayAssume(facts))
              && (NeedsInput in permitted <==> MustAsk(facts))
              && (Conflict in permitted <==> Contradicted(facts) && !UserDecided(facts))
  {
    ValidFactsIff(facts);
    AssumableIff(facts);
    OthersEnterIff(facts);
    hide ValidFacts, FactsKnown, Enterable, MayClear, MayAssume, MustAsk, Contradicted, UserDecided, ELEMENTS, CODES;
  }

  // ---- the records ----

  /** A value that says something: neither absent nor null, blank or empty. */
  predicate Given(v: Json) {
    match v
    case Null => false
    case Str(_) => Written(v)
    case List(items) => |items| > 0
    case Obj(members) => |members| > 0
    case _ => true
  }

  predicate Unsettled(record: Record) {
    !SettledByPolicy(record) && !UserDecided(record)
  }

  predicate Names(record: Record, element: Field) {
    Get(record, BoundaryElement) == Str(FieldName(element))
  }

  /** The ambiguity a record pauses on need not be stated, but may not be denied. */
  predicate Ambiguous(record: Record) {
    AMBIGUITY in record ==> record[AMBIGUITY] == Bool(true)
  }

  /** A reason to ask, with the element it names and the fact it rests on. */
  predicate HasReasonToAsk(record: Record) {
    match Get(record, ReasonCode)
    case Str(Raw(reason)) =>
      if reason == "ambiguous_requirement" then Names(record, AMBIGUITY) && Ambiguous(record) && Unsettled(record)
      else if reason == "missing_user_intent" then
        Names(record, AMBIGUITY) && Ambiguous(record) && Get(record, UserIntentAbsent) == Bool(true)
      else if reason == "unclassifiable_decision" then
        && Get(record, BoundaryElement) == Null && Given(Get(record, ClassificationAttempted))
        && Get(record, Unclassifiable) == Bool(true)
      else Unsettled(record) && ReachesBoundary(record, reason)
    case _ => false
  }

  predicate ReachesBoundary(record: Record, reason: string) {
    if reason == "irreversible_action" then
      Names(record, Reversibility) && Get(record, Reversibility) == Str(Irreversible)
    else if reason == "blast_radius_beyond_scope" then
      Names(record, BlastRadius) && Get(record, BlastRadius) in BEYOND_SCOPE
    else if reason == "monetary_cost" then Names(record, MonetaryCost) && Get(record, MonetaryCost) == Bool(true)
    else if reason == "security_impact" then Names(record, Security) && Get(record, Security) == Bool(true)
    else if reason == "privacy_impact" then Names(record, Privacy) && Get(record, Privacy) == Bool(true)
    else if reason == "compliance_impact" then Names(record, Compliance) && Get(record, Compliance) == Bool(true)
    else if reason == "long_term_lock_in" then
      Names(record, LongTermLockIn) && Get(record, LongTermLockIn) == Bool(true)
    else if reason == "authority_reserved_to_user" then
      Names(record, ExplicitUserAuthority) && Get(record, ExplicitUserAuthority) == Str(Reserved)
    else false
  }

  lemma GivenIff(v: Json)
    ensures Given(v) <==> !IsEmpty(v)
  {
    match v
    case Str(_) => WrittenIff(v);
    case Obj(members) => assert |members| > 0 <==> members != map[];
    case _ =>
  }

  lemma EvidenceIff(required: seq<Field>, record: Record)
    ensures CarriesEvidence(required, record) <==>
              forall i | 0 <= i < |required| :: required[i] != ReasonCode ==> Given(Get(record, required[i]))
  {
    forall v ensures Given(v) <==> !IsEmpty(v) {
      GivenIff(v);
    }
    assert !Given(Null);
    hide Given, IsEmpty;
    assert forall f :: f in required <==> exists i :: 0 <= i < |required| && required[i] == f;
  }

  /** A pause rests on its reason code's element and clause. */
  lemma PauseIff(record: Record, code: Code)
    requires Get(record, Field.State) == Str(StateName(NeedsInput))
    requires CodeOf(SHIPPED, record) == Some(code) && code.state == NeedsInput
    requires code.clause.Some? && code.clause.value in SHIPPED.clausePredicates
    ensures ValidRecord(SHIPPED, record) <==>
              && NamesItsElement(Some(code), record) && CarriesEvidence(code.evidence, record)
              && FactsKnown(record)
              && (code.element.Some? ==> ElementFires(SHIPPED, code.element.value, record))
              && Holds(SHIPPED.clausePredicates[code.clause.value], SHIPPED, FactsOf(SHIPPED, Some(code), record))
  {
    ValidFactsIff(record);
    ReasonCodesAre();
    assert ReasonCodeMatches(SHIPPED, NeedsInput, record);
    hide ValidFacts, FactsKnown, Holds, NamesItsElement, CarriesEvidence, ElementFires, FactsOf, CODES, ELEMENTS;
  }

  lemma CodeFound(record: Record, name: Text)
    requires Get(record, ReasonCode) == Str(name) && name in CODES
    ensures CodeOf(SHIPPED, record) == Some(CODES[name])
  {
    assert SHIPPED.codes == CODES;
    hide CODES, ELEMENTS, SHIPPED;
  }

  lemma ReasonCodesAre()
    ensures !SHIPPED.reasonCodeRequired(Clear)
    ensures forall s: State :: s != Clear ==> SHIPPED.reasonCodeRequired(s)
  {
  }

  lemma AskingEvidence(record: Record)
    ensures CarriesEvidence([ReasonCode, BoundaryElement, WhatIsMissing, WhyPolicyCannotDecide], record) <==>
              && Given(Get(record, BoundaryElement)) && Given(Get(record, WhatIsMissing))
              && Given(Get(record, WhyPolicyCannotDecide))
    ensures CarriesEvidence([ReasonCode, WhatIsMissing, WhyPolicyCannotDecide, ClassificationAttempted], record) <==>
              && Given(Get(record, WhatIsMissing)) && Given(Get(record, WhyPolicyCannotDecide))
              && Given(Get(record, ClassificationAttempted))
    ensures CarriesEvidence([ReasonCode, Citations, WhyTheyCannotBothHold], record) <==>
              Given(Get(record, Citations)) && Given(Get(record, WhyTheyCannotBothHold))
    ensures CarriesEvidence([ReasonCode, PolicySource, Reversibility, Impact, RetractionCondition], record) <==>
              && Given(Get(record, PolicySource)) && Given(Get(record, Reversibility))
              && Given(Get(record, Impact)) && Given(Get(record, RetractionCondition))
  {
    var asks := [ReasonCode, BoundaryElement, WhatIsMissing, WhyPolicyCannotDecide];
    var gives := [ReasonCode, WhatIsMissing, WhyPolicyCannotDecide, ClassificationAttempted];
    var cites := [ReasonCode, Citations, WhyTheyCannotBothHold];
    var assumes := [ReasonCode, PolicySource, Reversibility, Impact, RetractionCondition];
    EvidenceIff(asks, record);
    EvidenceIff(gives, record);
    EvidenceIff(cites, record);
    EvidenceIff(assumes, record);
    hide Given, CarriesEvidence;
    assert asks[1] == BoundaryElement && asks[2] == WhatIsMissing && asks[3] == WhyPolicyCannotDecide;
    assert gives[1] == WhatIsMissing && gives[2] == WhyPolicyCannotDecide && gives[3] == ClassificationAttempted;
    assert cites[1] == Citations && cites[2] == WhyTheyCannotBothHold;
    assert assumes[1] == PolicySource && assumes[2] == Reversibility && assumes[3] == Impact
           && assumes[4] == RetractionCondition;
  }

  /** What every accepted pause says. */
  predicate Explained(record: Record) {
    FactsKnown(record) && Given(Get(record, WhatIsMissing)) && Given(Get(record, WhyPolicyCannotDecide))
  }

  /** The pause a code of clause N-1 asks for, on an element that must be stated. */
  lemma BoundaryPause(record: Record, name: string, e: Field)
    requires Get(record, Field.State) == Str(StateName(NeedsInput)) && Get(record, ReasonCode) == Str(Raw(name))
    requires Raw(name) in CODES && CODES[Raw(name)] == AskingCode("N-1", e)
    requires e in ELEMENTS && !ELEMENTS[e].kind.Declared?
    ensures ValidRecord(SHIPPED, record) <==>
              && Explained(record)
              && Get(record, BoundaryElement) == Str(FieldName(e))
              && e in record && Fires(ELEMENTS[e], record[e]) && Unsettled(record)
  {
    ClausesAre();
    hide ELEMENTS, CODES, Given, FactsKnown, Fires, BoundaryReached, Holds, CarriesEvidence, Unsettled, SHIPPED,
         ValidRecord, NamesItsElement, ElementFires, FactsOf, CodeOf;
    CodeFound(record, Raw(name));
    PauseIff(record, AskingCode("N-1", e));
    AskingEvidence(record);
    NamedIsGiven(record, e);
    PauseHolds(record);
    BoundaryPauseReads(record, e);
  }

  /** What the checks of such a pause read. */
  lemma BoundaryPauseReads(record: Record, e: Field)
    requires e in ELEMENTS && !ELEMENTS[e].kind.Declared?
    ensures
      var code := AskingCode("N-1", e);
      && (NamesItsElement(Some(code), record) <==> Get(record, BoundaryElement) == Str(FieldName(e)))
      && (ElementFires(SHIPPED, e, record) <==> e in record && Fires(ELEMENTS[e], record[e]))
      && (ElementFires(SHIPPED, e, record) ==> BoundaryReached(record))
      && FactsOf(SHIPPED, Some(code), record) == record
  {
    TriggeredIff(record);
    hide ELEMENTS, CODES, Fires, BoundaryReached;
  }

  lemma NamedIsGiven(record: Record, e: Field)
    ensures Get(record, BoundaryElement) == Str(FieldName(e)) ==> Given(Get(record, BoundaryElement))
  {
  }

  lemma ClausesAre()
    ensures SHIPPED.clausePredicates.Keys == NEEDS + CONFLICTS
    ensures SHIPPED.clausePredicates[Raw("N-1")] == UndeterminedBoundaryElement
    ensures SHIPPED.clausePredicates[Raw("N-2")] == AbsentUserIntent
    ensures SHIPPED.clausePredicates[Raw("N-3")] == UnclassifiableItem
    ensures forall clause :: clause in CONFLICTS ==> SHIPPED.clausePredicates[clause] == DeclaredContradiction
  {
  }

  lemma PauseHolds(facts: Record)
    ensures Holds(UndeterminedBoundaryElement, SHIPPED, facts) <==> BoundaryReached(facts) && Unsettled(facts)
    ensures Holds(DeclaredContradiction, SHIPPED, facts) <==> Contradicted(facts) && !UserDecided(facts)
  {
    TriggeredIff(facts);
    AuthorizedIff(facts);
    ContradictsIff(facts);
    SettledIff(facts);
    hide Triggered, Authorized, Contradicts, SettledByPolicy, BoundaryReached, UserDecided, Contradicted,
         SourceRole, UnresolvableByPolicy, ELEMENTS, CODES;
  }

  /** The pause a code asks for whose element is the ambiguity itself. */
  lemma AmbiguityPause(record: Record, name: string, clause: string)
    requires Get(record, Field.State) == Str(StateName(NeedsInput)) && Get(record, ReasonCode) == Str(Raw(name))
    requires Raw(name) in CODES && CODES[Raw(name)] == AskingCode(clause, AMBIGUITY) && clause in {"N-1", "N-2"}
    ensures ValidRecord(SHIPPED, record) <==>
              && Explained(record)
              && Get(record, BoundaryElement) == Str(FieldName(AMBIGUITY)) && Ambiguous(record)
              && if clause == "N-1" then Unsettled(record) else Get(record, UserIntentAbsent) == Bool(true)
  {
    ClausesAre();
    hide ELEMENTS, CODES, Given, FactsKnown, BoundaryReached, CarriesEvidence, Unsettled, SHIPPED,
         ValidRecord, NamesItsElement, ElementFires, FactsOf, CodeOf, Ambiguous, AMBIGUITY;
    var code := AskingCode(clause, AMBIGUITY);
    CodeFound(record, Raw(name));
    PauseIff(record, code);
    AskingEvidence(record);
    NamedIsGiven(record, AMBIGUITY);
    PauseHolds(FactsOf(SHIPPED, Some(code), record));
    AmbiguityReads(record, clause);
  }

  lemma AmbiguityReads(record: Record, clause: string)
    ensures
      var code := AskingCode(clause, AMBIGUITY);
      var facts := FactsOf(SHIPPED, Some(code), record);
      && (NamesItsElement(Some(code), record) <==> Get(record, BoundaryElement) == Str(FieldName(AMBIGUITY)))
      && (ElementFires(SHIPPED, AMBIGUITY, record) <==> Ambiguous(record))
      && (Ambiguous(record) ==> BoundaryReached(facts))
      && (Unsettled(facts) <==> Unsettled(record))
      && Get(facts, UserIntentAbsent) == Get(record, UserIntentAbsent)
  {
    AmbiguityIs();
    var code := AskingCode(clause, AMBIGUITY);
    var facts := FactsOf(SHIPPED, Some(code), record);
    assert facts == if AMBIGUITY in record then record else record[AMBIGUITY := Bool(true)] by {
      hide ELEMENTS, CODES;
    }
    StatedAmbiguity(record);
    hide ELEMENTS, CODES, IMPACTS, FactsOf, Unsettled, BoundaryReached;
  }

  /** Stating the ambiguity reaches a boundary and settles nothing. */
  lemma StatedAmbiguity(record: Record)
    ensures
      var facts := if AMBIGUITY in record then record else record[AMBIGUITY := Bool(true)];
      && (Ambiguous(record) ==> BoundaryReached(facts))
      && (Unsettled(facts) <==> Unsettled(record))
  {
    var facts := if AMBIGUITY in record then record else record[AMBIGUITY := Bool(true)];
    assert AMBIGUITY in FLAGS;
    assert CitedTo(facts, Determines) == CitedTo(record, Determines);
    hide CitedTo, IMPACTS, FLAGS, CLAUSES, Written;
  }

  lemma UnclassifiablePause(record: Record)
    requires Get(record, Field.State) == Str(StateName(NeedsInput))
    requires Get(record, ReasonCode) == Str(Raw("unclassifiable_decision"))
    ensures ValidRecord(SHIPPED, record) <==>
              && Explained(record)
              && Get(record, BoundaryElement) == Null && Given(Get(record, ClassificationAttempted))
              && Get(record, Unclassifiable) == Bool(true)
  {
    UnclassifiableIs();
    ClausesAre();
    hide ELEMENTS, CODES, Given, FactsKnown, CarriesEvidence, ValidRecord, ElementFires, NamesItsElement, FactsOf,
         CodeOf, SHIPPED;
    CodeFound(record, Raw("unclassifiable_decision"));
    PauseIff(record, UnclassifiableCode());
    AskingEvidence(record);
    UnclassifiableReads(record);
  }

  function UnclassifiableCode(): Code {
    Code(NeedsInput, Some(Raw("N-3")), None,
         [ReasonCode, WhatIsMissing, WhyPolicyCannotDecide, ClassificationAttempted])
  }

  lemma UnclassifiableReads(record: Record)
    ensures NamesItsElement(Some(UnclassifiableCode()), record) <==> Get(record, BoundaryElement) == Null
    ensures FactsOf(SHIPPED, Some(UnclassifiableCode()), record) == record
  {
    var e := UnclassifiableCode().evidence;
    assert e == [ReasonCode, WhatIsMissing, WhyPolicyCannotDecide, ClassificationAttempted];
    assert BoundaryElement !in e;
    hide ELEMENTS, CODES;
  }

  lemma UnclassifiableIs()
    ensures Raw("unclassifiable_decision") in CODES
    ensures CODES[Raw("unclassifiable_decision")] == UnclassifiableCode()
  {
  }

  const ASKING_CODES: set<Text> := {
    Raw("ambiguous_requirement"), Raw("missing_user_intent"), Raw("irreversible_action"),
    Raw("blast_radius_beyond_scope"), Raw("monetary_cost"), Raw("security_impact"), Raw("privacy_impact"),
    Raw("compliance_impact"), Raw("long_term_lock_in"), Raw("authority_reserved_to_user"),
    Raw("unclassifiable_decision")}

  lemma AskingCodesAre(name: Text)
    ensures name in CODES && CODES[name].state == NeedsInput <==> name in ASKING_CODES
  {
  }

  lemma AskingCodesSay()
    ensures ASKING_CODES <= CODES.Keys
    ensures CODES[Raw("ambiguous_requirement")] == AskingCode("N-1", AMBIGUITY)
    ensures CODES[Raw("missing_user_intent")] == AskingCode("N-2", AMBIGUITY)
    ensures CODES[Raw("irreversible_action")] == AskingCode("N-1", Reversibility)
    ensures CODES[Raw("blast_radius_beyond_scope")] == AskingCode("N-1", BlastRadius)
    ensures CODES[Raw("authority_reserved_to_user")] == AskingCode("N-1", ExplicitUserAuthority)
  {
  }

  lemma ImpactCodesSay()
    ensures ASKING_CODES <= CODES.Keys
    ensures CODES[Raw("monetary_cost")] == AskingCode("N-1", MonetaryCost)
    ensures CODES[Raw("security_impact")] == AskingCode("N-1", Security)
    ensures CODES[Raw("privacy_impact")] == AskingCode("N-1", Privacy)
    ensures CODES[Raw("compliance_impact")] == AskingCode("N-1", Compliance)
    ensures CODES[Raw("long_term_lock_in")] == AskingCode("N-1", LongTermLockIn)
  {
  }

  lemma BoundaryReason(record: Record, reason: string)
    requires Get(record, Field.State) == Str(StateName(NeedsInput)) && Get(record, ReasonCode) == Str(Raw(reason))
    requires reason !in {"ambiguous_requirement", "missing_user_intent", "unclassifiable_decision"}
    requires Raw(reason) in ASKING_CODES
    ensures ValidRecord(SHIPPED, record) <==> Explained(record) && Unsettled(record) && ReachesBoundary(record, reason)
  {
    AskingCodesSay();
    ImpactCodesSay();
    EnumsAre();
    ElementsAre();
    BoundaryElementsAre();
    NullIsWithin();
    hide CODES, ELEMENTS, ValidRecord, FactsKnown, Given, Unsettled, SHIPPED, Fires, IMPACTS, BEYOND_SCOPE;
    if reason == "irreversible_action" {
      BoundaryPause(record, reason, Reversibility);
    } else if reason == "blast_radius_beyond_scope" {
      BoundaryPause(record, reason, BlastRadius);
    } else if reason == "authority_reserved_to_user" {
      BoundaryPause(record, reason, ExplicitUserAuthority);
    } else {
      ImpactReason(record, reason);
    }
  }

  lemma ImpactReason(record: Record, reason: string)
    requires Get(record, Field.State) == Str(StateName(NeedsInput)) && Get(record, ReasonCode) == Str(Raw(reason))
    requires Raw(reason) in ASKING_CODES
    requires reason !in {"ambiguous_requirement", "missing_user_intent", "unclassifiable_decision",
                         "irreversible_action", "blast_radius_beyond_scope", "authority_reserved_to_user"}
    ensures ValidRecord(SHIPPED, record) <==> Explained(record) && Unsettled(record) && ReachesBoundary(record, reason)
  {
    ImpactCodesSay();
    ElementsAre();
    BoundaryElementsAre();
    hide CODES, ELEMENTS, ValidRecord, FactsKnown, Given, Unsettled, SHIPPED, Fires, BEYOND_SCOPE;
    if reason == "monetary_cost" {
      BoundaryPause(record, reason, MonetaryCost);
    } else if reason == "security_impact" {
      BoundaryPause(record, reason, Security);
    } else if reason == "privacy_impact" {
      BoundaryPause(record, reason, Privacy);
    } else if reason == "compliance_impact" {
      BoundaryPause(record, reason, Compliance);
    } else {
      BoundaryPause(record, reason, LongTermLockIn);
    }
  }

  lemma OutsideIsFalse(record: Record, reason: string)
    requires Raw(reason) !in ASKING_CODES
    ensures !ReachesBoundary(record, reason)
    ensures reason !in {"ambiguous_requirement", "missing_user_intent", "unclassifiable_decision"}
  {
  }

  lemma ReasonAccepted(record: Record, reason: string)
    requires Get(record, Field.State) == Str(StateName(NeedsInput)) && Get(record, ReasonCode) == Str(Raw(reason))
    requires Raw(reason) in ASKING_CODES
    ensures ValidRecord(SHIPPED, record) <==> Explained(record) && HasReasonToAsk(record)
  {
    AskingCodesSay();
    hide CODES, ELEMENTS, ValidRecord, FactsKnown, Given, Unsettled, SHIPPED, ReachesBoundary, ASKING_CODES, AskingCode,
         Ambiguous, AMBIGUITY, Explained;
    if reason == "ambiguous_requirement" {
      AmbiguityPause(record, reason, "N-1");
    } else if reason == "missing_user_intent" {
      AmbiguityPause(record, reason, "N-2");
    } else if reason == "unclassifiable_decision" {
      UnclassifiablePause(record);
    } else {
      BoundaryReason(record, reason);
    }
  }

  /** A NEEDS_INPUT record is accepted exactly when its facts are known, it says what is missing and
      why policy cannot decide, and its reason code comes with the fact it stands for. */
  lemma AskingIff(record: Record)
    requires Get(record, Field.State) == Str(StateName(NeedsInput))
    ensures ValidRecord(SHIPPED, record) <==> Explained(record) && HasReasonToAsk(record)
  {
    AcceptedCode(record, NeedsInput);
    hide CODES, ELEMENTS, ValidRecord, Unsettled, SHIPPED, ReachesBoundary, ASKING_CODES, Ambiguous, Names, AMBIGUITY,
         Explained;
    match Get(record, ReasonCode)
    case Str(Raw(reason)) =>
      AskingCodesAre(Raw(reason));
      if Raw(reason) in ASKING_CODES {
        ReasonAccepted(record, reason);
      } else {
        OutsideIsFalse(record, reason);
      }
    case Str(text) =>
      AskingCodesAre(text);
      CodesAreRaw(text);
    case _ =>
  }

  lemma CodesAreRaw(text: Text)
    requires !text.Raw?
    ensures text !in ASKING_CODES
  {
  }

  lemma BoundaryElementsAre()
    ensures forall f :: f in IMPACTS ==> !ELEMENTS[f].kind.Declared?
    ensures !ELEMENTS[Reversibility].kind.Declared? && !ELEMENTS[BlastRadius].kind.Declared?
    ensures forall f, v :: f in IMPACTS ==> (Fires(ELEMENTS[f], v) <==> v == Bool(true))
    ensures forall v :: Fires(ELEMENTS[ExplicitUserAuthority], v) <==> v == Str(Reserved)
  {
    ElementsAre();
    assert forall x :: x in [Str(Reserved)] <==> x == Str(Reserved);
  }

  /** An accepted record of any state but CLEAR names a reason code of that state. */
  lemma AcceptedCode(record: Record, s: State)
    requires Get(record, Field.State) == Str(StateName(s)) && s != Clear
    ensures ValidRecord(SHIPPED, record) ==>
              Get(record, ReasonCode).Str? && record[ReasonCode].t in CODES && CODES[record[ReasonCode].t].state == s
  {
    ReasonCodesAre();
    hide ELEMENTS, CODES, NamesItsElement, CarriesEvidence, ValidFacts, Grounded, AssumptionJustified;
  }

  /** A CLEAR record is accepted exactly when it names no reason code, its facts are known and CLEAR is
      permitted on them, or it declares no grounds at all. */
  lemma ClearIff(record: Record)
    requires Get(record, Field.State) == Str(StateName(Clear))
    ensures ValidRecord(SHIPPED, record) <==>
              && Get(record, ReasonCode) == Null && FactsKnown(record)
              && (MayClear(record)
                  || (PolicySource !in record && UserDecision !in record && OpenDecisionItem !in record))
  {
    ReasonCodesAre();
    assert SHIPPED.evidence(Clear) == [];
    ClearIsAcceptedIff(SHIPPED, record);
    ShippedPermits(record);
    hide SHIPPED, ValidRecord, PermittedStates, FactsKnown, MayClear, MayAssume, MustAsk, CODES, ELEMENTS;
  }

  const ASSUMING_CODES: set<Text> := {
    Raw("repository_policy"), Raw("explicit_requirement"), Raw("phase_contract"), Raw("quality_profile_attribute")}

  lemma AssumingCodesAre()
    ensures forall name :: name in CODES && CODES[name].state == AssumptionAllowed <==> name in ASSUMING_CODES
    ensures forall name :: name in ASSUMING_CODES ==> CODES[name] == AssumptionCode()
  {
  }

  /** An assumption is accepted exactly when it names one of the four grounds for assuming, permits
      being made, says what it affects and when it is withdrawn, names no boundary element and carries
      its own supporting policy source. */
  lemma AssumptionIff(record: Record)
    requires Get(record, Field.State) == Str(StateName(AssumptionAllowed))
    ensures ValidRecord(SHIPPED, record) <==>
              && FactsKnown(record) && MayAssume(record)
              && Get(record, ReasonCode).Str? && record[ReasonCode].t in ASSUMING_CODES
              && Get(record, BoundaryElement) == Null
              && Given(Get(record, Impact)) && Given(Get(record, RetractionCondition))
              && Get(record, PolicySource).Obj? && Get(record[PolicySource].members, Role) == Str(Supports)
  {
    AcceptedCode(record, AssumptionAllowed);
    AssumingCodesAre();
    ShippedAgrees();
    if Get(record, ReasonCode).Str? && record[ReasonCode].t in ASSUMING_CODES {
      ShippedPermits(record);
      AssumptionReads(record);
      if WellPresented(SHIPPED, AssumptionAllowed, record) {
        AssumptionIsAcceptedIffPermitted(SHIPPED, record) by { hide ValidRecord, PermittedStates, WellPresented; }
      }
      GivenSource(record);
      MayAssumeSays(record);
      hide SHIPPED, PermittedStates, FactsKnown, MayClear, MayAssume, MustAsk, CODES, ELEMENTS, Given, WellFormed,
           NamesApart, ClausesEnter, ShippedShape;
      assert ValidRecord(SHIPPED, record) ==> WellPresented(SHIPPED, AssumptionAllowed, record) by {
        hide ReasonCodeMatches, NamesItsElement, CarriesEvidence, ValidFacts, Grounded, AssumptionJustified;
      }
      hide ValidRecord;
    }
  }

  lemma MayAssumeSays(record: Record)
    ensures MayAssume(record) ==> Given(Get(record, Reversibility))
  {
  }

  lemma GivenSource(record: Record)
    ensures Get(record, PolicySource).Obj? && Get(record[PolicySource].members, Role) == Str(Supports) ==>
              Given(Get(record, PolicySource))
  {
    var source := Get(record, PolicySource);
    if source.Obj? && Get(source.members, Role) == Str(Supports) {
      assert Role in source.members;
    }
  }

  lemma AssumptionReads(record: Record)
    requires Get(record, Field.State) == Str(StateName(AssumptionAllowed))
    requires Get(record, ReasonCode).Str? && record[ReasonCode].t in ASSUMING_CODES
    ensures WellPresented(SHIPPED, AssumptionAllowed, record) <==>
              && FactsKnown(record) && Get(record, BoundaryElement) == Null
              && Given(Get(record, PolicySource)) && Given(Get(record, Reversibility))
              && Given(Get(record, Impact)) && Given(Get(record, RetractionCondition))
  {
    ReasonCodesAre();
    AssumingCodesAre();
    ValidFactsIff(record);
    AskingEvidence(record);
    AssumptionNames(record);
    assert CodeOf(SHIPPED, record) == Some(AssumptionCode()) by {
      hide ELEMENTS, CODES;
    }
    AssumptionShown(record);
    hide CODES, ELEMENTS, ValidFacts, FactsKnown, Given, CarriesEvidence, NamesItsElement, CodeOf, SHIPPED,
         ASSUMING_CODES, WellPresented;
  }

  lemma AssumptionShown(record: Record)
    requires Get(record, Field.State) == Str(StateName(AssumptionAllowed))
    requires CodeOf(SHIPPED, record) == Some(AssumptionCode()) && SHIPPED.reasonCodeRequired(AssumptionAllowed)
    ensures WellPresented(SHIPPED, AssumptionAllowed, record) <==>
              && NamesItsElement(Some(AssumptionCode()), record) && ValidFacts(SHIPPED, record)
              && CarriesEvidence([ReasonCode, PolicySource, Reversibility, Impact, RetractionCondition], record)
  {
    hide CODES, ELEMENTS, ValidFacts, CarriesEvidence, NamesItsElement, CodeOf, SHIPPED;
  }

  lemma AssumptionNames(record: Record)
    ensures NamesItsElement(Some(AssumptionCode()), record) <==> Get(record, BoundaryElement) == Null
  {
    assert BoundaryElement !in [ReasonCode, PolicySource, Reversibility, Impact, RetractionCondition];
  }

  // ---- contradictions ----

  /** The clause a contradiction's reason code stands for. */
  function ClauseOf(reason: Json): Option<Json> {
    match reason
    case Str(Raw(name)) =>
      if name == "requirement_contradiction" then Some(Str(Raw("C-1")))
      else if name == "requirement_vs_accepted_decision" then Some(Str(Raw("C-2")))
      else if name == "requirement_vs_safety_floor" then Some(Str(Raw("C-3")))
      else None
    case _ => None
  }

  lemma ContradictionCodeIs(name: Text)
    ensures name in CODES && CODES[name].state == Conflict <==> ClauseOf(Str(name)).Some?
    ensures ClauseOf(Str(name)).Some? ==>
              && ClauseOf(Str(name)).value.Str? && ClauseOf(Str(name)).value.t in CONFLICTS
              && CODES[name].clause == Some(ClauseOf(Str(name)).value.t)
              && CODES[name].element == None && CODES[name].evidence == [ReasonCode, Citations, WhyTheyCannotBothHold]
  {
  }

  lemma CitationsIff(record: Record)
    ensures Given(Get(record, Citations)) && EnoughCitations(SHIPPED, record) <==>
              && Get(record, Citations).List? && |record[Citations].items| >= 2
              && forall v :: v in record[Citations].items ==> Written(v)
  {
    assert SHIPPED.citationMinimum == 2;
    forall v ensures Written(v) <==> v.Str? && !IsEmpty(v) {
      WrittenIff(v);
    }
    GivenIff(Get(record, Citations));
    hide CODES, ELEMENTS, SHIPPED, Written;
  }

  lemma ContradictionReads(record: Record, code: Code, clause: Text)
    requires code.state == Conflict && code.clause == Some(clause) && code.element == None
    requires code.evidence == [ReasonCode, Citations, WhyTheyCannotBothHold] && clause in CONFLICTS
    requires CodeOf(SHIPPED, record) == Some(code)
    ensures
      var facts := FactsOf(SHIPPED, Some(code), record);
      && (NamesItsElement(Some(code), record) <==> Get(record, BoundaryElement) == Null)
      && facts == (if ConflictClause in record then record else record[ConflictClause := Str(clause)])
      && (UserDecided(facts) <==> UserDecided(record))
      && (ConflictClause !in record || record[ConflictClause] == Str(clause) ==> Contradicted(facts))
  {
    assert BoundaryElement !in [ReasonCode, Citations, WhyTheyCannotBothHold];
    hide CODES, ELEMENTS;
  }

  lemma ContradictionUnfolds(record: Record, code: Code, clause: Text)
    requires Get(record, Field.State) == Str(StateName(Conflict))
    requires CodeOf(SHIPPED, record) == Some(code) && code.state == Conflict && code.clause == Some(clause)
    requires clause in SHIPPED.clausePredicates
    ensures ValidRecord(SHIPPED, record) <==>
              && NamesItsElement(Some(code), record) && CarriesEvidence(code.evidence, record)
              && FactsKnown(record) && EnoughCitations(SHIPPED, record)
              && (Get(record, ConflictClause) == Null || record[ConflictClause] == Str(clause))
              && Holds(SHIPPED.clausePredicates[clause], SHIPPED, FactsOf(SHIPPED, Some(code), record))
  {
    ValidFactsIff(record);
    ReasonCodesAre();
    assert ReasonCodeMatches(SHIPPED, Conflict, record);
    hide ValidFacts, FactsKnown, Holds, NamesItsElement, CarriesEvidence, FactsOf, CODES, ELEMENTS, EnoughCitations;
  }

  lemma ContradictionGrounds(record: Record, code: Code, clause: Text)
    requires Get(record, Field.State) == Str(StateName(Conflict))
    requires code.state == Conflict && code.clause == Some(clause) && code.element == None
    requires code.evidence == [ReasonCode, Citations, WhyTheyCannotBothHold] && clause in CONFLICTS
    requires CodeOf(SHIPPED, record) == Some(code)
    ensures ValidRecord(SHIPPED, record) <==>
              && FactsKnown(record) && Get(record, BoundaryElement) == Null
              && Given(Get(record, Citations)) && EnoughCitations(SHIPPED, record)
              && Given(Get(record, WhyTheyCannotBothHold))
              && (ConflictClause in record ==> record[ConflictClause] == Str(clause)) && !UserDecided(record)
  {
    var facts := FactsOf(SHIPPED, Some(code), record);
    ClausesAre();
    ContradictionUnfolds(record, code, clause);
    AskingEvidence(record);
    PauseHolds(facts);
    ContradictionReads(record, code, clause);
    NullIsNoClause();
    hide CODES, ELEMENTS, FactsKnown, Given, CarriesEvidence, NamesItsElement, EnoughCitations, UserDecided,
         ValidRecord, FactsOf, Holds, SHIPPED, CodeOf, CLAUSES, CONFLICTS, NEEDS;
  }

  /** A CONFLICT record is accepted exactly when its facts are known, it cites at least two
      requirements and says why they cannot both hold, names no boundary element and no clause but its
      reason code's, and no user decision is on record. */
  lemma ContradictionIff(record: Record)
    requires Get(record, Field.State) == Str(StateName(Conflict))
    ensures ValidRecord(SHIPPED, record) <==>
              && FactsKnown(record) && ClauseOf(Get(record, ReasonCode)).Some?
              && (ConflictClause in record ==> record[ConflictClause] == ClauseOf(Get(record, ReasonCode)).value)
              && Get(record, BoundaryElement) == Null
              && Get(record, Citations).List? && |record[Citations].items| >= 2
              && (forall v :: v in record[Citations].items ==> Written(v))
              && Given(Get(record, WhyTheyCannotBothHold)) && !UserDecided(record)
  {
    AcceptedCode(record, Conflict);
    CitationsIff(record);
    var reason := Get(record, ReasonCode);
    hide CODES, ELEMENTS, ValidRecord, FactsKnown, Given, UserDecided, EnoughCitations, Written, ClauseOf, SHIPPED,
         CONFLICTS;
    OnlyTextHasAClause(reason);
    if reason.Str? {
      ContradictionCodeIs(reason.t);
      if ClauseOf(reason).Some? {
        CodeFound(record, reason.t);
        ContradictionGrounds(record, CODES[reason.t], ClauseOf(reason).value.t);
      }
    }
  }

  lemma OnlyTextHasAClause(reason: Json)
    ensures ClauseOf(reason).Some? ==> reason.Str?
  {
  }
}
