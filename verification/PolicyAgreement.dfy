/** The contract's two readers agree: a record the validator accepts claims a state the evaluator
    permits, and no high-impact item is ever settled automatically. */
module PolicyAgreement {
  import opened Vocabulary
  import opened Policy

  /** Every clause predicate is one of the disjuncts of the entry condition of its code's state. */
  ghost predicate ClausesEnter(c: Contract) {
    forall name :: name in c.codes ==>
      var code := c.codes[name];
      code.clause.Some? && code.clause.value in c.clausePredicates ==>
        c.entry(code.state).AnyOf? && c.clausePredicates[code.clause.value] in c.entry(code.state).predicates
  }

  /** No boundary element reuses a name the evaluator reads for itself. */
  ghost predicate NamesApart(c: Contract) {
    ConflictClause !in c.elements && PolicySourceRole !in c.elements && PolicySource !in c.elements
  }

  /** Making a reason code's declarations explicit never turns valid facts into invalid ones,
      so the evaluator cannot raise on a record the validator accepted. */
  lemma ExplicitFactsStayValid(c: Contract, code: Option<Code>, record: Record)
    requires WellFormed(c) && NamesApart(c)
    requires ValidFacts(c, record)
    requires code.Some? ==> exists name :: name in c.codes && c.codes[name] == code.value
    ensures ValidFacts(c, FactsOf(c, code, record))
  {
    var facts := FactsOf(c, code, record);
    forall e | e in c.elements && e in facts
      ensures InDomain(c.elements[e], facts[e])
    {
      if e in record {
        assert facts[e] == record[e];
      } else {
        assert c.elements[e].kind == Declared;
      }
    }
    assert SourceRole(facts) == SourceRole(record);
    assert Get(facts, PolicySource) == Get(record, PolicySource);
  }

  lemma {:induction false} AcceptedStateIsPermitted(c: Contract, record: Record)
    requires WellFormed(c) && NamesApart(c) && ClausesEnter(c)
    requires ValidRecord(c, record)
    ensures
      var s := record[Field.State].t.state;
      var facts := if s.Blocks() then RecordFacts(c, record) else record;
      && PermittedStates(c, facts).Some?
      && (s == Clear && DeclaresGrounds(record) ==> Clear in PermittedStates(c, facts).value)
      && (s == AssumptionAllowed ==> AssumptionAllowed in PermittedStates(c, facts).value)
      && (s.Blocks() && Resting(c, s, record).Some? && Resting(c, s, record).value.clause.Some? ==>
            s in PermittedStates(c, facts).value)
  {
    var s := record[Field.State].t.state;
    if s.Blocks() {
      var code := CodeOf(c, record);
      ExplicitFactsStayValid(c, code, record);
      if Resting(c, s, record).Some? && Resting(c, s, record).value.clause.Some? {
        var p := c.clausePredicates[code.value.clause.value];
        assert Holds(p, c, RecordFacts(c, record));
        assert p in c.entry(s).predicates;
      }
    }
  }

  /** The entry conditions and precedence the shipped contract states. */
  ghost predicate ShippedShape(c: Contract) {
    && c.entry(Clear) == AnyOf([NoOpenDecisionItem, DeterminingPolicySource, ExplicitUserAuthorization])
    && c.entry(AssumptionAllowed) == AllOf([AllSafetyFactsDeclared, ReversibleWithinRun, BlastRadiusWithinScope,
                                            NoHighImpactElement, SupportingPolicySource, NoReservedUserAuthority])
    && c.entry(NeedsInput) == AnyOf([UndeterminedBoundaryElement, AbsentUserIntent, UnclassifiableItem])
    && c.entry(Conflict) == AnyOf([DeclaredContradiction])
    && c.cannotResolve == {ExplicitUserAuthority, ExplicitRequirementConflict}
    && c.forbiddenReversibility == [Str(Irreversible)]
    && (forall f :: f in c.forbiddenWhenTrue ==> f in c.elements && Fires(c.elements[f], Bool(true)))
    && Reversibility in c.elements && Fires(c.elements[Reversibility], Str(Irreversible))
    && ExplicitUserAuthority in c.elements && Fires(c.elements[ExplicitUserAuthority], Str(Reserved))
    && c.forbiddenWhenReserved
  }

  /** The shipped entry conditions, written out. */
  lemma ShippedEntries(c: Contract, facts: Record)
    requires ShippedShape(c)
    ensures Enterable(c, Clear, facts) <==>
              || Holds(NoOpenDecisionItem, c, facts)
              || Holds(DeterminingPolicySource, c, facts)
              || Holds(ExplicitUserAuthorization, c, facts)
    ensures Enterable(c, AssumptionAllowed, facts) ==> Holds(NoHighImpactElement, c, facts)
    ensures Enterable(c, NeedsInput, facts) <==>
              || Holds(UndeterminedBoundaryElement, c, facts)
              || Holds(AbsentUserIntent, c, facts)
              || Holds(UnclassifiableItem, c, facts)
    ensures Enterable(c, Conflict, facts) <==> Holds(DeclaredContradiction, c, facts)
  {
    assert forall p :: p in c.entry(Clear).predicates <==>
             p in [NoOpenDecisionItem, DeterminingPolicySource, ExplicitUserAuthorization];
    assert NoHighImpactElement in c.entry(AssumptionAllowed).predicates by {
      assert c.entry(AssumptionAllowed).predicates[3] == NoHighImpactElement;
    }
    assert forall p :: p in c.entry(NeedsInput).predicates <==>
             p in [UndeterminedBoundaryElement, AbsentUserIntent, UnclassifiableItem];
    assert forall p :: p in c.entry(Conflict).predicates <==> p in [DeclaredContradiction];
  }

  /** Every check the validator makes of a record of state `s` but the judgement of its grounds. */
  predicate WellPresented(c: Contract, s: State, record: Record) {
    && Get(record, Field.State) == Str(StateName(s))
    && ReasonCodeMatches(c, s, record)
    && NamesItsElement(Resting(c, s, record), record)
    && CarriesEvidence(if Resting(c, s, record).Some? then Resting(c, s, record).value.evidence else c.evidence(s),
                       record)
    && ValidFacts(c, record)
  }

  /** With no reason code and no evidence asked of CLEAR, as shipped, the validator accepts a CLEAR
      record exactly when it names no reason code and the evaluator, which does not raise on it,
      permits CLEAR or the record declares no grounds at all. Nothing else is ever held against it. */
  lemma ClearIsAcceptedIff(c: Contract, record: Record)
    requires !c.reasonCodeRequired(Clear) && c.evidence(Clear) == []
    requires Get(record, Field.State) == Str(StateName(Clear))
    ensures ValidRecord(c, record) <==>
              && Get(record, ReasonCode) == Null && PermittedStates(c, record).Some?
              && (Clear in PermittedStates(c, record).value || !DeclaresGrounds(record))
  {
    hide Enterable, ValidFacts;
    assert Resting(c, Clear, record) == None;
    assert Grounded(c, Clear, None, record) <==> (Enterable(c, Clear, record) || !DeclaresGrounds(record));
    assert CarriesEvidence([], record);
  }

  /** Under the shipped entry conditions an assumption is accepted exactly when the evaluator permits
      it and the record's own policy source is the one that supports it. */
  lemma AssumptionIsAcceptedIffPermitted(c: Contract, record: Record)
    requires ShippedShape(c) && c.assumptionRole == Str(Supports)
    requires WellFormed(c) && AssumptionAllowed !in c.clauses
    requires WellPresented(c, AssumptionAllowed, record)
    ensures ValidRecord(c, record) <==>
              && PermittedStates(c, record).Some? && AssumptionAllowed in PermittedStates(c, record).value
              && Get(record, PolicySource).Obj? && Get(record[PolicySource].members, Role) == Str(Supports)
  {
    ShippedEntries(c, record);
    if Enterable(c, AssumptionAllowed, record) {
      assert c.entry(AssumptionAllowed).predicates[0] == AllSafetyFactsDeclared;
      assert Holds(AllSafetyFactsDeclared, c, record);
    }
  }

  /** What forbids an assumption, whatever else the contract says: a reversibility it lists; an
      irreversible item, be it not listed, whose blast radius it lists; a fact it lists that is true;
      and reserved authority, when it minds that. Nothing else does. */
  lemma ForbiddenBy(c: Contract, facts: Record, f: Field)
    ensures Get(facts, Reversibility) in c.forbiddenReversibility ==> AssumptionForbidden(c, facts)
    ensures Get(facts, Reversibility) == Str(Irreversible) && Get(facts, BlastRadius) in c.forbiddenBlastRadius ==>
              AssumptionForbidden(c, facts)
    ensures f in c.forbiddenWhenTrue && Get(facts, f) == Bool(true) ==> AssumptionForbidden(c, facts)
    ensures c.forbiddenWhenReserved && Get(facts, ExplicitUserAuthority) == Str(Reserved) ==>
              AssumptionForbidden(c, facts)
    ensures AssumptionForbidden(c, facts) ==>
              || Get(facts, Reversibility) in c.forbiddenReversibility
              || (Get(facts, Reversibility) == Str(Irreversible) && Get(facts, BlastRadius) in c.forbiddenBlastRadius)
              || (exists g :: g in c.forbiddenWhenTrue && Get(facts, g) == Bool(true))
              || (c.forbiddenWhenReserved && Get(facts, ExplicitUserAuthority) == Str(Reserved))
  {
  }

  predicate HighImpact(c: Contract, facts: Record) {
    || Get(facts, Reversibility) == Str(Irreversible)
    || (exists f :: f in c.forbiddenWhenTrue && Get(facts, f) == Bool(true))
  }

  lemma HighImpactFires(c: Contract, facts: Record)
    requires ShippedShape(c) && HighImpact(c, facts)
    ensures Triggered(c, facts) && AssumptionForbidden(c, facts)
  {
    if Get(facts, Reversibility) == Str(Irreversible) {
      assert Reversibility in facts && facts[Reversibility] in c.forbiddenReversibility;
    } else {
      var f :| f in c.forbiddenWhenTrue && Get(facts, f) == Bool(true);
      assert f in c.elements && f in facts && Fires(c.elements[f], facts[f]);
    }
  }

  /** What such facts establish before any entry condition is read. */
  lemma PauseReasons(c: Contract, facts: Record)
    requires ShippedShape(c)
    requires || (HighImpact(c, facts) && SourceRole(facts) != Str(Determines))
             || Get(facts, ExplicitUserAuthority) == Str(Reserved)
    ensures Triggered(c, facts) && AssumptionForbidden(c, facts)
    ensures SourceRole(facts) == Str(Determines) ==> UnresolvableByPolicy(c, facts)
  {
    hide SourceRole;
    if Get(facts, ExplicitUserAuthority) == Str(Reserved) {
      assert ExplicitUserAuthority in c.elements && ExplicitUserAuthority in facts
             && Fires(c.elements[ExplicitUserAuthority], facts[ExplicitUserAuthority]);
    } else {
      HighImpactFires(c, facts);
    }
  }

  /** What may then be entered: no state but the blocking ones. */
  lemma PausesOnly(c: Contract, facts: Record)
    requires ShippedShape(c) && !Authorized(c, facts) && Triggered(c, facts) && AssumptionForbidden(c, facts)
    requires SourceRole(facts) == Str(Determines) ==> UnresolvableByPolicy(c, facts)
    ensures !Enterable(c, Clear, facts) && !Enterable(c, AssumptionAllowed, facts)
    ensures Enterable(c, NeedsInput, facts) && (Enterable(c, Conflict, facts) <==> Contradicts(c, facts))
  {
    hide ShippedShape, Triggered, Contradicts, SourceRole, UnresolvableByPolicy, AssumptionForbidden, Authorized,
         Enterable;
    ShippedEntries(c, facts);
    assert !Holds(NoHighImpactElement, c, facts);
  }

  /** Without a user decision or a determining policy source, a high-impact item is a pause, and
      authority reserved to the user is a pause whatever policy source is cited: exactly the two
      blocking states remain permitted, and NEEDS_INPUT is always one of them. */
  lemma HighImpactIsNeverAutomatic(c: Contract, facts: Record)
    requires ShippedShape(c) && ValidFacts(c, facts)
    requires !Authorized(c, facts)
    requires || (HighImpact(c, facts) && SourceRole(facts) != Str(Determines))
             || Get(facts, ExplicitUserAuthority) == Str(Reserved)
    ensures PermittedStates(c, facts).Some?
    ensures NeedsInput in PermittedStates(c, facts).value
    ensures Clear !in PermittedStates(c, facts).value && AssumptionAllowed !in PermittedStates(c, facts).value
    ensures Conflict in PermittedStates(c, facts).value <==> Contradicts(c, facts)
  {
    PauseReasons(c, facts);
    hide HighImpact, ShippedShape, Triggered, Contradicts, SourceRole, UnresolvableByPolicy, AssumptionForbidden,
         Authorized, ValidFacts, Enterable;
    PausesOnly(c, facts);
  }

  /** A user decision outranks every trigger: it is what turns a pause into CLEAR. */
  lemma UserDecisionClears(c: Contract, facts: Record)
    requires ShippedShape(c) && ValidFacts(c, facts) && Authorized(c, facts)
    ensures PermittedStates(c, facts).Some? && Clear in PermittedStates(c, facts).value
    ensures Conflict !in PermittedStates(c, facts).value
    ensures NeedsInput in PermittedStates(c, facts).value <==>
              Get(facts, UserIntentAbsent) == Bool(true) || Get(facts, Unclassifiable) == Bool(true)
  {
    hide ShippedShape, Triggered, Contradicts, SourceRole, UnresolvableByPolicy, SafetyFactsDeclared,
         AssumptionForbidden, Authorized;
    ShippedEntries(c, facts);
  }
}
