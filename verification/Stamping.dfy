/** The harness stamps a round's identity over an agent's record before publishing it
    (`_append_decision_record` in scripts/e2e_harness.py). Stamping spoils no record but the ones
    whose agent left the reason code out. */
module Stamping {
  import opened Vocabulary
  import opened Policy
  import opened Gate
  import opened PhaseRun
  import opened PhaseRunFacts

  /** What a slot may claim to verify: nothing, or, from a Reviewer, one Worker record. */
  predicate Bindable(s: Slot) {
    s.verifies == Null || (!s.agent.WorkerAgent? && s.verifies.Obj? && s.verifies.members.Keys == VERIFIES)
  }

  /** A judge under which every accepted record, once stamped, is a valid ledger record exactly when
      its agent wrote a reason code, and justifies the transitions it justified before. */
  ghost predicate Steady(env: Env) {
    && (forall base: Record, s: Slot :: env.judge.accepts(base) && Bindable(s) ==>
          env.judge.defect(Stamped(env, base, s)) == if ReasonCode in base then None else Some(InputMalformed))
    && (forall base: Record, s: Slot, source: State, target: State ::
          env.judge.resolves(source, target, Stamped(env, base, s)) == env.judge.resolves(source, target, base))
  }

  // ---- every contract whose names stay clear of the stamped ones ----

  predicate IsAgentField(f: Field) {
    !IsStamp(f) && !IsDefault(f)
  }

  /** The contract reads no field the harness writes. */
  ghost predicate ReadsAgentFields(c: Contract) {
    && (forall f :: f in c.elements ==> IsAgentField(f))
    && (forall f :: f in c.forbiddenWhenTrue ==> IsAgentField(f))
    && (forall f :: f in c.safetyFacts ==> !IsStamp(f))
    && (forall s, f :: f in c.evidence(s) ==> !IsStamp(f))
    && (forall name, f :: name in c.codes && f in c.codes[name].evidence ==> !IsStamp(f))
  }

  /** `full` says what `base` says wherever the harness does not write, and adds no agent field. */
  ghost predicate Extends(base: Record, full: Record) {
    && (forall f :: f in base && !IsStamp(f) ==> f in full && full[f] == base[f])
    && (forall f :: f in full && IsAgentField(f) ==> f in base)
  }

  lemma StampedExtends(env: Env, base: Record, s: Slot)
    ensures Extends(base, Stamped(env, base, s))
  {
    hide Stamped;
    forall f ensures f in base && !IsStamp(f) ==> f in Stamped(env, base, s) && Stamped(env, base, s)[f] == base[f]
             ensures f in Stamped(env, base, s) && IsAgentField(f) ==> f in base
    {
      StampingKeeps(env, base, s, f);
    }
  }

  lemma SameAt(a: Record, b: Record, f: Field)
    requires Extends(a, b) && IsAgentField(f)
    ensures Get(a, f) == Get(b, f) && (f in a <==> f in b)
  {
  }

  lemma ExtendedFacts(c: Contract, code: Option<Code>, a: Record, b: Record)
    requires ReadsAgentFields(c) && Extends(a, b)
    ensures Extends(FactsOf(c, code, a), FactsOf(c, code, b))
  {
    SameAt(a, b, ConflictClause);
    if code.Some? && code.value.element.Some? && code.value.element.value in c.elements {
      SameAt(a, b, code.value.element.value);
    }
  }

  lemma SameTriggers(c: Contract, a: Record, b: Record)
    requires ReadsAgentFields(c) && Extends(a, b)
    ensures Triggered(c, a) == Triggered(c, b)
  {
    hide Fires, IsStamp, IsDefault;
    if Triggered(c, a) {
      var e :| e in c.elements && e in a && Fires(c.elements[e], a[e]);
      assert IsAgentField(e) && e in b && b[e] == a[e];
    }
    if Triggered(c, b) {
      var e :| e in c.elements && e in b && Fires(c.elements[e], b[e]);
      assert IsAgentField(e) && e in a && a[e] == b[e];
    }
  }

  lemma SameProhibitions(c: Contract, a: Record, b: Record)
    requires ReadsAgentFields(c) && Extends(a, b)
    ensures AssumptionForbidden(c, a) == AssumptionForbidden(c, b)
  {
    SameAt(a, b, Reversibility);
    SameAt(a, b, BlastRadius);
    SameAt(a, b, ExplicitUserAuthority);
    forall f | f in c.forbiddenWhenTrue ensures Get(a, f) == Get(b, f) {
      SameAt(a, b, f);
    }
    hide Extends, ReadsAgentFields;
  }

  lemma SameReadings(c: Contract, a: Record, b: Record)
    requires ReadsAgentFields(c) && Extends(a, b)
    ensures Triggered(c, a) == Triggered(c, b)
    ensures AssumptionForbidden(c, a) == AssumptionForbidden(c, b)
    ensures SourceRole(a) == SourceRole(b) && Contradicts(c, a) == Contradicts(c, b)
    ensures Authorized(c, a) == Authorized(c, b) && UnresolvableByPolicy(c, a) == UnresolvableByPolicy(c, b)
    ensures SafetyFactsDeclared(c, a) ==> SafetyFactsDeclared(c, b)
  {
    hide Triggered, AssumptionForbidden, ProvesUserDecision, IsStamp, IsDefault;
    SameTriggers(c, a, b);
    SameProhibitions(c, a, b);
    assert SafetyFactsDeclared(c, a) ==> SafetyFactsDeclared(c, b);
    AgentFields();
    SameAt(a, b, PolicySource);
    SameAt(a, b, PolicySourceRole);
    SameAt(a, b, ConflictClause);
    SameAt(a, b, UserDecision);
    SameAt(a, b, ExplicitUserAuthority);
    hide Extends, ReadsAgentFields, SafetyFactsDeclared;
  }

  /** The names the evaluator spells out are all the agent's. */
  lemma AgentFields()
    ensures IsAgentField(PolicySource) && IsAgentField(PolicySourceRole) && IsAgentField(ConflictClause)
    ensures IsAgentField(UserDecision) && IsAgentField(ExplicitUserAuthority) && IsAgentField(OpenDecisionItem)
    ensures IsAgentField(Reversibility) && IsAgentField(BlastRadius)
    ensures IsAgentField(UserIntentAbsent) && IsAgentField(Unclassifiable)
  {
  }

  /** A condition that held of an agent's facts holds of the stamped ones. */
  lemma ExtendedHolds(c: Contract, a: Record, b: Record, p: Predicate)
    requires ReadsAgentFields(c) && Extends(a, b)
    ensures Holds(p, c, a) ==> Holds(p, c, b)
  {
    hide Extends, ReadsAgentFields, IsStamp, IsDefault,
         Triggered, AssumptionForbidden, SourceRole, Contradicts, Authorized, UnresolvableByPolicy, SafetyFactsDeclared;
    SameReadings(c, a, b);
    AgentFields();
    SameAt(a, b, OpenDecisionItem);
    SameAt(a, b, Reversibility);
    SameAt(a, b, BlastRadius);
    SameAt(a, b, ExplicitUserAuthority);
    SameAt(a, b, UserIntentAbsent);
    SameAt(a, b, Unclassifiable);
  }

  lemma ExtendedEnterable(c: Contract, s: State, a: Record, b: Record)
    requires ReadsAgentFields(c) && Extends(a, b)
    ensures Enterable(c, s, a) ==> Enterable(c, s, b)
  {
    hide Holds;
    forall p ensures Holds(p, c, a) ==> Holds(p, c, b) {
      ExtendedHolds(c, a, b, p);
    }
  }

  lemma ExtendedValidFacts(c: Contract, a: Record, b: Record)
    requires ReadsAgentFields(c) && Extends(a, b) && ValidFacts(c, a)
    ensures ValidFacts(c, b)
  {
    SameAt(a, b, PolicySource);
    SameAt(a, b, PolicySourceRole);
    SameAt(a, b, ConflictClause);
  }

  lemma ExtendedGrounds(c: Contract, s: State, code: Option<Code>, a: Record, b: Record)
    requires ReadsAgentFields(c) && Extends(a, b) && Grounded(c, s, code, a)
    ensures Grounded(c, s, code, b)
  {
    SameAt(a, b, PolicySource);
    SameAt(a, b, UserDecision);
    SameAt(a, b, OpenDecisionItem);
    SameAt(a, b, ConflictClause);
    ExtendedEnterable(c, Clear, a, b);
    ExtendedFacts(c, code, a, b);
    if code.Some? && code.value.clause.Some? && code.value.clause.value in c.clausePredicates {
      ExtendedHolds(c, FactsOf(c, code, a), FactsOf(c, code, b), c.clausePredicates[code.value.clause.value]);
    }
    if code.Some? && code.value.element.Some? && code.value.element.value in c.elements {
      SameAt(a, b, code.value.element.value);
    }
    hide Extends, Holds, Enterable, FactsOf;
  }

  lemma ExtendedAssumption(c: Contract, a: Record, b: Record)
    requires ReadsAgentFields(c) && Extends(a, b) && AssumptionJustified(c, a)
    ensures AssumptionJustified(c, b)
  {
    SameAt(a, b, PolicySource);
    SameReadings(c, a, b);
    ExtendedEnterable(c, AssumptionAllowed, a, b);
    hide Extends, Enterable, AssumptionForbidden, SafetyFactsDeclared;
  }

  lemma ExtendedEvidence(c: Contract, s: State, code: Option<Code>, a: Record, b: Record)
    requires ReadsAgentFields(c) && Extends(a, b)
    requires code.Some? ==> exists name :: name in c.codes && c.codes[name] == code.value
    requires CarriesEvidence(if code.Some? then code.value.evidence else c.evidence(s), a)
    ensures CarriesEvidence(if code.Some? then code.value.evidence else c.evidence(s), b)
  {
    hide IsEmpty, IsStamp, IsDefault;
  }

  lemma CommonFields(a: Record, b: Record)
    requires Extends(a, b)
    ensures Get(a, Field.State) == Get(b, Field.State) && Get(a, ReasonCode) == Get(b, ReasonCode)
    ensures Get(a, BoundaryElement) == Get(b, BoundaryElement) && Get(a, Citations) == Get(b, Citations)
    ensures Field.State in a <==> Field.State in b
  {
    SameAt(a, b, Field.State);
    SameAt(a, b, ReasonCode);
    SameAt(a, b, BoundaryElement);
    SameAt(a, b, Citations);
  }

  lemma ExtendedRecord(c: Contract, a: Record, b: Record)
    requires ReadsAgentFields(c) && Extends(a, b) && ValidRecord(c, a)
    ensures ValidRecord(c, b)
  {
    hide ReadsAgentFields, Extends, Grounded, AssumptionJustified, ValidFacts, CarriesEvidence;
    CommonFields(a, b);
    var s := a[Field.State].t.state;
    var code := Resting(c, s, a);
    ExtendedValidFacts(c, a, b);
    ExtendedGrounds(c, s, code, a, b);
    if s == AssumptionAllowed {
      ExtendedAssumption(c, a, b);
    }
    ExtendedEvidence(c, s, code, a, b);
  }

  lemma StampedIsClosed(env: Env, base: Record, s: Slot)
    requires HasClosedFields(base)
    ensures HasClosedFields(Stamped(env, base, s))
  {
    hide Stamped;
    forall f | f in Stamped(env, base, s) ensures IsClosedField(f) {
      StampingKeeps(env, base, s, f);
    }
  }

  lemma StampedIsComplete(env: Env, base: Record, s: Slot)
    requires Field.State in base
    ensures HasRequiredFields(Stamped(env, base, s)) <==> ReasonCode in base
  {
    hide Stamped;
    forall f ensures IsStamp(f) || IsDefault(f) || f in base <==> f in Stamped(env, base, s) {
      StampingKeeps(env, base, s, f);
    }
  }

  lemma StampsSay(env: Env, s: Slot)
    ensures Get(Stamps(env, s), LedgerSchemaVersion) == Int(1)
    ensures Get(Stamps(env, s), PriorOpenDecisionItems) == List([])
    ensures IsStamp(LedgerSchemaVersion) && IsStamp(PriorOpenDecisionItems)
  {
    var m := Stamps(env, s);
    assert m[LedgerSchemaVersion] == Int(1) && m[PriorOpenDecisionItems] == List([]);
  }

  lemma StampedMechanics(env: Env, base: Record, s: Slot)
    requires Bindable(s)
    ensures
      var r := Stamped(env, base, s);
      && Get(r, LedgerSchemaVersion) == Int(1) && Get(r, Sequence) == Int(s.sequence)
      && Get(r, PriorOpenDecisionItems) == List([]) && Get(r, Verifies) == s.verifies
      && ValidIdentity(r)
  {
    hide Stamped, Stamps, IsStamp;
    StampedFields(env, base, s);
    StampingKeeps(env, base, s, LedgerSchemaVersion);
    StampingKeeps(env, base, s, PriorOpenDecisionItems);
    StampsSay(env, s);
  }

  lemma StampedDefect(c: Contract, env: Env, base: Record, s: Slot)
    requires ReadsAgentFields(c) && Bindable(s) && HasClosedFields(base) && ValidRecord(c, base)
    ensures RecordDefect(c, Stamped(env, base, s)) == if ReasonCode in base then None else Some(InputMalformed)
  {
    hide Stamped, Extends, ValidRecord, HasRequiredFields, HasClosedFields, ValidIdentity, ReadsAgentFields;
    StampedExtends(env, base, s);
    ExtendedRecord(c, base, Stamped(env, base, s));
    StampedIsClosed(env, base, s);
    HasState(c, base);
    StampedIsComplete(env, base, s);
    StampedMechanics(env, base, s);
    HasMechanics(Stamped(env, base, s));
  }

  lemma HasMechanics(r: Record)
    ensures HasRequiredFields(r) ==>
              Sequence in r && PriorOpenDecisionItems in r && Verifies in r && LedgerSchemaVersion in r
  {
  }

  /** Every contract that reads no field the harness writes judges stamped records by their agents'
      reason codes alone. */
  lemma ContractsAreSteady(c: Contract, env: Env)
    requires env.judge == JudgeOf(c) && ReadsAgentFields(c)
    ensures Steady(env)
  {
    hide Stamped, ValidRecord, HasRequiredFields, HasClosedFields, ValidIdentity, ReadsAgentFields;
    forall base: Record, s: Slot | env.judge.accepts(base) && Bindable(s)
      ensures env.judge.defect(Stamped(env, base, s)) == if ReasonCode in base then None else Some(InputMalformed)
    {
      StampedDefect(c, env, base, s);
    }
    forall base: Record, s: Slot, source: State, target: State
      ensures env.judge.resolves(source, target, Stamped(env, base, s)) == env.judge.resolves(source, target, base)
    {
      StampedExtends(env, base, s);
      SameAt(base, Stamped(env, base, s), UserDecision);
      SameAt(base, Stamped(env, base, s), Retraction);
    }
  }

  lemma HasState(c: Contract, r: Record)
    requires ValidRecord(c, r)
    ensures Field.State in r
  {
  }

  lemma EntryHasNoDefect(c: Contract, env: Env, phase: Json, binding: Json)
    requires c.entry(Clear).AnyOf? && NoOpenDecisionItem in c.entry(Clear).predicates
    requires !c.reasonCodeRequired(Clear)
    requires forall f :: f in c.evidence(Clear) ==> f in {OpenDecisionItem, Grounds, Scope, ReasonCode}
    requires forall e :: e in c.elements ==> !IsStamp(e) && !IsClaim(e)
    ensures RecordDefect(c, RunEntryRecord(env, phase, binding)).None?
  {
    hide RecordDefect, RunEntryRecord, IsStamp, IsClaim, Identity, Holds, ValidIdentity, HasRequiredFields,
         HasClosedFields, ValidRecord, IsRunEntry, IsEmpty;
    var r := RunEntryRecord(env, phase, binding);
    EntryIsClosed(env, phase, binding);
    EntrySays(env, phase, binding);
    EntryMechanics(env, phase, binding);
    IsComplete(r);
    EntryIsAccepted(c, r);
    HasIdentity(r);
    NoDefect(c, r);
  }

  lemma NoDefect(c: Contract, r: Record)
    requires HasClosedFields(r) && HasRequiredFields(r) && ValidIdentity(r) && ValidRecord(c, r)
    requires Get(r, LedgerSchemaVersion) == Int(1) && Get(r, Sequence) == Int(0)
    requires Get(r, PriorOpenDecisionItems) == List([]) && Get(r, Verifies) == Null
    ensures RecordDefect(c, r).None?
  {
    hide HasClosedFields, ValidIdentity, ValidRecord;
  }

  lemma HasIdentity(r: Record)
    requires Identity(r) == (Str(B1), Str(RunEntry), Str(Coordinator)) && Get(r, Verifies) == Null
    ensures ValidIdentity(r)
  {
  }

  lemma IsComplete(r: Record)
    requires forall f :: IsStamp(f) || IsClaim(f) ==> f in r
    ensures HasRequiredFields(r)
  {
  }

  lemma EntryIsAccepted(c: Contract, r: Record)
    requires c.entry(Clear).AnyOf? && NoOpenDecisionItem in c.entry(Clear).predicates
    requires !c.reasonCodeRequired(Clear)
    requires forall f :: f in c.evidence(Clear) ==> f in {OpenDecisionItem, Grounds, Scope, ReasonCode}
    requires forall e :: e in c.elements ==> e !in r
    requires Get(r, Field.State) == Str(StateName(Clear)) && Get(r, ReasonCode) == Null
    requires Get(r, OpenDecisionItem) == Bool(false) && !IsEmpty(Get(r, Grounds)) && !IsEmpty(Get(r, Scope))
    requires ConflictClause !in r && PolicySource !in r && PolicySourceRole !in r
    ensures ValidRecord(c, r)
  {
    assert Holds(NoOpenDecisionItem, c, r);
    assert Enterable(c, Clear, r);
    assert IsEmpty(Null);
  }

  predicate IsClaim(f: Field) {
    f.State? || f.ReasonCode? || f.OpenDecisionItem? || f.Grounds? || f.Scope? || IsDefault(f)
  }

  lemma ClaimedFields(phase: Json, f: Field)
    ensures f in EntryClaims(phase) <==> IsClaim(f)
  {
  }

  lemma EntryStampedFields(env: Env, phase: Json, binding: Json, f: Field)
    ensures f in EntryStamps(env, phase, binding) <==> IsStamp(f)
  {
  }

  lemma EntryGets(env: Env, phase: Json, binding: Json, f: Field)
    ensures Get(RunEntryRecord(env, phase, binding), f)
            == if IsStamp(f) then Get(EntryStamps(env, phase, binding), f) else Get(EntryClaims(phase), f)
  {
    hide EntryStamps, EntryClaims;
    ClaimedFields(phase, f);
    EntryStampedFields(env, phase, binding, f);
  }

  lemma EntryIsClosed(env: Env, phase: Json, binding: Json)
    ensures HasClosedFields(RunEntryRecord(env, phase, binding))
    ensures forall f :: f in RunEntryRecord(env, phase, binding) <==> IsStamp(f) || IsClaim(f)
    ensures
      var r := RunEntryRecord(env, phase, binding);
      ConflictClause !in r && PolicySource !in r && PolicySourceRole !in r
  {
    hide EntryStamps, EntryClaims;
    forall f ensures f in RunEntryRecord(env, phase, binding) <==> IsStamp(f) || IsClaim(f) {
      ClaimedFields(phase, f);
    EntryStampedFields(env, phase, binding, f);
    }
  }

  lemma EntryStampsSay(env: Env, phase: Json, binding: Json)
    ensures
      var m := EntryStamps(env, phase, binding);
      && Get(m, Boundary) == Str(B1) && Get(m, Source) == Str(RunEntry) && Get(m, Role) == Str(Coordinator)
      && Get(m, Run) == env.run && Get(m, LedgerSchemaVersion) == Int(1) && Get(m, Sequence) == Int(0)
      && Get(m, PriorOpenDecisionItems) == List([]) && Get(m, Verifies) == Null
  {
  }

  lemma EntryMechanics(env: Env, phase: Json, binding: Json)
    ensures
      var r := RunEntryRecord(env, phase, binding);
      && Identity(r) == (Str(B1), Str(RunEntry), Str(Coordinator)) && IsRunEntry(r, env.run)
      && Get(r, LedgerSchemaVersion) == Int(1) && Get(r, Sequence) == Int(0)
      && Get(r, PriorOpenDecisionItems) == List([]) && Get(r, Verifies) == Null
  {
    hide RunEntryRecord, EntryStamps, EntryClaims;
    EntryStampsSay(env, phase, binding);
    EntryGets(env, phase, binding, Boundary);
    EntryGets(env, phase, binding, Source);
    EntryGets(env, phase, binding, Role);
    EntryGets(env, phase, binding, Run);
    EntryGets(env, phase, binding, LedgerSchemaVersion);
    EntryGets(env, phase, binding, Sequence);
    EntryGets(env, phase, binding, PriorOpenDecisionItems);
    EntryGets(env, phase, binding, Verifies);
  }

  lemma EntrySays(env: Env, phase: Json, binding: Json)
    ensures
      var r := RunEntryRecord(env, phase, binding);
      && Get(r, Field.State) == Str(StateName(Clear)) && Get(r, ReasonCode) == Null
      && Get(r, OpenDecisionItem) == Bool(false)
      && !IsEmpty(Get(r, Grounds)) && !IsEmpty(Get(r, Scope))
  {
    hide RunEntryRecord, EntryClaims, IsEmpty;
    ClaimsSay(phase);
    EntryGets(env, phase, binding, Field.State);
    EntryGets(env, phase, binding, ReasonCode);
    EntryGets(env, phase, binding, OpenDecisionItem);
    EntryGets(env, phase, binding, Grounds);
    EntryGets(env, phase, binding, Scope);
  }

  lemma ClaimsSay(phase: Json)
    ensures
      var claims := EntryClaims(phase);
      && Get(claims, Field.State) == Str(StateName(Clear)) && Get(claims, ReasonCode) == Null
      && Get(claims, OpenDecisionItem) == Bool(false)
      && !IsEmpty(Get(claims, Grounds)) && !IsEmpty(Get(claims, Scope))
  {
    NotBlank("nothing open");
    NotBlank("run entry");
    hide IsEmpty;
  }

  lemma NotBlank(text: string)
    requires text != "" && text[0] in {'n', 'r'}
    ensures !IsEmpty(Str(Raw(text)))
  {
    assert text[0] !in {' ', '\t', '\n', '\r'};
  }
}
