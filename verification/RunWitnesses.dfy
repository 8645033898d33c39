/** Runs at which what a caller might expect of the gate fails, under the contract as shipped: one
    phase, one Worker, level LOW. */
module RunWitnesses {
  import opened Vocabulary
  import opened Policy
  import opened PolicyAgreement
  import opened Gate
  import opened PhaseRun
  import opened PhaseRunFacts
  import opened Stamping
  import opened RunLedger
  import opened RunTerminals
  import opened Workflow
  import opened WorkflowFacts
  import opened WorkflowTerminals
  import opened ShippedContract
  import opened GateLedger

  /** The Worker of the only phase completes its work and declares `record`. */
  function OneGate(entry: Json, opening: Json, declared: State, record: Record): Scenario {
    var body := Body([StateName(declared)], [Parsed(Obj(record))]);
    var text := WorkerText(WorkComplete, map[], NotReported, body);
    Scenario([Analysis], entry, opening, map[Analysis := Script([WorkerOutput(text)], [])], [], map[], map[])
  }

  const ONLY_SLOT := Slot(Analysis, 1, WorkerAgent, Str(Raw("")), Null, 1)

  /** The Worker's only round: its record is filed, and at LOW the round is over. */
  lemma OnlyRound(env: Env, max: int, declared: State, record: Record, ledger: seq<Record>)
    requires env.risk.Low? && max >= 1 && |ledger| == 1
    requires env.judge.accepts(record) && Get(record, Field.State) == Str(StateName(declared))
    requires Get(record, Verifies) == Null
    ensures
      var script := OneGate(Null, Null, declared, record).gates[Analysis];
      var end := RunPhase(env, Analysis, max, script, ledger, []);
      && end.ledger == ledger + [Stamped(env, record, ONLY_SLOT)]
      && end.result.iteration == 1
      && (if declared.Blocks() then
            && end.result.status.Stopped?
            && end.result.reason == Refused(Blocked(declared, Get(record, ReasonCode)))
            && end.result.block == Some(DecisionBlock(declared, Get(record, ReasonCode)))
          else end.result.status.Completed? && end.result.block.None?)
  {
    hide Stamped;
    var script := OneGate(Null, Null, declared, record).gates[Analysis];
    var text := script.workers[0].text;
    assert WorkerGate(env, text.body) == Ok(GateResult(declared, record));
  }

  /** The gate of the only phase. */
  lemma OnlyGate(env: Env, max: int, entry: Json, opening: Json, declared: State, record: Record)
    requires env.risk.Low? && max >= 1 && Readable(env, OneGate(entry, opening, declared, record))
    requires env.judge.accepts(record) && Get(record, Field.State) == Str(StateName(declared))
    requires Get(record, Verifies) == Null
    ensures
      var s := OneGate(entry, opening, declared, record);
      var flow := PhaseGates(env, max, s, Opened(env, s), s.phases);
      && flow.wf.ledger == [Entry(env, s), Stamped(env, record, ONLY_SLOT)] && flow.wf.attempts == 0
      && if declared.Blocks() then
           flow == Stop(flow.wf, Stopped, OfRound(Refused(Blocked(declared, Get(record, ReasonCode)))),
                        Some(DecisionBlock(declared, Get(record, ReasonCode))))
         else flow.Go? && Undisturbed(env, s, flow.wf)
  {
    hide Stamped, RunPhase, RunEntryRecord, Steady, Sound, GoodEntry, AdmitHead, Quiet, HeadSettled;
    var s := OneGate(entry, opening, declared, record);
    var start := Opened(env, s);
    NothingDisturbed(env, s);
    GuardIffAllCarry(env, Entry(env, s), start.ledger, start.settled);
    OnlyRound(env, max, declared, record, start.ledger);
    var guarded := Guarded(env, start, PhaseGate);
    RanNamed(env, s, guarded.wf, Analysis, Initial, max, s.gates[Analysis]);
    OneLeft(env, max, s, guarded.wf);
  }

  lemma OneLeft(env: Env, max: int, s: Scenario, wf: Wf)
    requires s.phases == [Analysis] && Analysis in s.gates && Guarded(env, wf, PhaseGate).Go?
    ensures
      var ran := Ran(env, Guarded(env, wf, PhaseGate).wf, Analysis, Initial, max, s.gates[Analysis]);
      var result := LastResult(ran);
      PhaseGates(env, max, s, wf, s.phases)
      == if result.status.Completed? then Go(ran) else Stop(ran, result.status, OfRound(result.reason), result.block)
  {
    hide Ran, Guarded, LastResult;
    assert s.phases[1..] == [];
  }

  /** The guard of the first Final Review, for which the scenario has no answer. */
  lemma FirstFinalGuard(env: Env, max: int, entry: Json, opening: Json, declared: State, record: Record, wf: Wf)
    requires Readable(env, OneGate(entry, opening, declared, record)) && wf.attempts == 0
    requires Undisturbed(env, OneGate(entry, opening, declared, record), wf)
    ensures
      var end := FinalLoop(env, max, OneGate(entry, opening, declared, record), wf);
      && end.wf.ledger == wf.ledger
      && if AllCarry(wf.ledger) then end.status.Errored? && end.cause == ScenarioFinalReviewExhausted
         else end.status.Stopped? && end.cause == GuardRefused(InputMalformed)
  {
    hide RunEntryRecord, Steady, Sound, GoodEntry, AdmitHead, Quiet, HeadSettled, AllCarry;
    var s := OneGate(entry, opening, declared, record);
    GuardIffAllCarry(env, Entry(env, s), wf.ledger, wf.settled);
  }

  predicate EndsOn(flow: Flow, cause: Cause) {
    flow.Stop? && flow.status.Stopped? && flow.cause == cause
  }

  /** A run whose only record declares CLEAR: refused for a missing reason code, and for that alone. */
  lemma ClearRun(env: Env, max: int, entry: Json, opening: Json, record: Record)
    requires env.risk.Low? && max >= 1 && Readable(env, OneGate(entry, opening, Clear, record))
    requires env.judge.accepts(record) && Get(record, Field.State) == Str(StateName(Clear))
    requires Get(record, Verifies) == Null
    ensures
      var end := RunWorkflow(env, max, OneGate(entry, opening, Clear, record));
      if ReasonCode in record then end.cause == ScenarioFinalReviewExhausted
      else EndsOn(end, GuardRefused(InputMalformed))
  {
    hide Stamped, PhaseGates, FinalLoop, RunEntryRecord, Readable, Undisturbed;
    var s := OneGate(entry, opening, Clear, record);
    OnlyGate(env, max, entry, opening, Clear, record);
    var wf := PhaseGates(env, max, s, Opened(env, s), s.phases).wf;
    StampedFields(env, record, ONLY_SLOT);
    assert AllCarry(wf.ledger) <==> ReasonCode in record by {
      assert wf.ledger[1] == Stamped(env, record, ONLY_SLOT);
    }
    FirstFinalGuard(env, max, entry, opening, Clear, record, wf);
  }

  /** The ledger the run left, read again at its last round, is admitted. */
  ghost predicate LeavesAdmitted(env: Env, flow: Flow) {
    && flow.wf.ledger != []
    && AdmitHead(env.judge, flow.wf.ledger, env.run, Some(Binding(flow.wf.ledger[|flow.wf.ledger| - 1])), None).Ok?
  }

  lemma NamedIsAdmittedIff(env: Env, flow: Flow, reason: Reason)
    requires NamedBy(env, flow.wf.ledger, reason)
    ensures LeavesAdmitted(env, flow) <==> !SomeOpens(flow.wf.ledger)
  {
    hide AdmitHead, UnresolvedBlockReason, SomeOpens;
  }

  /** A run blocked by its only record leaves a ledger that is admitted unless the record declared its
      item open. */
  lemma BlockingRun(env: Env, max: int, entry: Json, opening: Json, declared: State, record: Record)
    requires env.risk.Low? && max >= 1 && Readable(env, OneGate(entry, opening, declared, record))
    requires env.judge.accepts(record) && Get(record, Field.State) == Str(StateName(declared)) && declared.Blocks()
    requires Get(record, Verifies) == Null && ReasonCode in record
    ensures
      var end := RunWorkflow(env, max, OneGate(entry, opening, declared, record));
      && EndsOn(end, OfRound(Refused(Blocked(declared, Get(record, ReasonCode)))))
      && (LeavesAdmitted(env, end) <==> Get(record, OpenDecisionItem) != Bool(true))
  {
    hide Stamped, PhaseGates, FinalLoop, RunEntryRecord, Readable, AdmitHead, NamedBy, Opens, OneGate, LeavesAdmitted;
    var s := OneGate(entry, opening, declared, record);
    OnlyGate(env, max, entry, opening, declared, record);
    WorkflowNamesItsTerminal(env, max, s);
    var end := RunWorkflow(env, max, s);
    OpensWhenItSays(env, entry, opening, declared, record);
    assert end.wf.ledger[1] == Stamped(env, record, ONLY_SLOT) && end.wf.ledger[0] == Entry(env, s);
    assert AllCarry(end.wf.ledger);
    assert SomeOpens(end.wf.ledger) <==> Opens(end.wf.ledger[1]);
    NamedIsAdmittedIff(env, end, Blocked(declared, Get(record, ReasonCode)));
  }

  lemma OpensWhenItSays(env: Env, entry: Json, opening: Json, declared: State, record: Record)
    requires Readable(env, OneGate(entry, opening, declared, record))
    requires Get(record, Field.State) == Str(StateName(declared)) && declared.Blocks()
    ensures !Opens(Entry(env, OneGate(entry, opening, declared, record)))
    ensures Opens(Stamped(env, record, ONLY_SLOT)) <==> Get(record, OpenDecisionItem) == Bool(true)
    ensures ReasonCode in Stamped(env, record, ONLY_SLOT) <==> ReasonCode in record
  {
    hide Stamped, RunEntryRecord, Steady, Sound;
    StampedFields(env, record, ONLY_SLOT);
  }

  // ---- under the shipped contract ----

  /** Nothing open; the reason code is written as null or not at all. */
  function Silent(coded: bool): Record {
    var record := map[Field.State := Str(StateName(Clear))];
    if coded then record[ReasonCode := Null] else record
  }

  /** An ambiguous requirement to be asked about; its item is declared open or not mentioned. */
  function Pending(open: bool): Record {
    var record := map[
      Field.State := Str(StateName(NeedsInput)),
      ReasonCode := Str(Raw("ambiguous_requirement")),
      BoundaryElement := Str(FieldName(AMBIGUITY)),
      WhatIsMissing := Str(Raw("format")),
      WhyPolicyCannotDecide := Str(Raw("unstated"))];
    if open then record[OpenDecisionItem := Bool(true)] else record
  }

  /** What the two records rely on. */
  ghost predicate ReadsThem(c: Contract) {
    && c.elements.Keys == ELEMENT_NAMES && c.elements[AMBIGUITY] == Element(Declared, [], WhenBool(true))
    && !c.reasonCodeRequired(Clear) && c.evidence(Clear) == [] && c.reasonCodeRequired(NeedsInput)
    && Raw("ambiguous_requirement") in c.codes
    && c.codes[Raw("ambiguous_requirement")] == AskingCode("N-1", AMBIGUITY)
    && Raw("N-1") in c.clausePredicates && c.clausePredicates[Raw("N-1")] == UndeterminedBoundaryElement
  }

  lemma ShippedReadsThem()
    ensures ReadsThem(SHIPPED)
  {
    ElementNames();
    AmbiguityIs();
    AskingCodeIs();
    hide ELEMENTS, CODES;
  }

  /** The record names no element and cites no source. */
  predicate Plain(record: Record) {
    && (forall f :: f in record ==> IsClosedField(f) && f !in ELEMENT_NAMES)
    && ConflictClause !in record && PolicySource !in record && PolicySourceRole !in record && UserDecision !in record
  }

  lemma PlainFacts(c: Contract, record: Record)
    requires c.elements.Keys == ELEMENT_NAMES && Plain(record)
    ensures ValidFacts(c, record)
  {
    hide InDomain, IsClosedField;
  }

  lemma SilentIs(coded: bool)
    ensures
      var r := Silent(coded);
      && Plain(r) && Get(r, Field.State) == Str(StateName(Clear)) && Get(r, ReasonCode) == Null
      && Get(r, Verifies) == Null && !DeclaresGrounds(r) && (ReasonCode in r <==> coded)
  {
  }

  lemma SilentIsAccepted(c: Contract, coded: bool)
    requires ReadsThem(c)
    ensures JudgeOf(c).accepts(Silent(coded))
  {
    SilentIs(coded);
    PlainFacts(c, Silent(coded));
    ClearIsAcceptedIff(c, Silent(coded));
    hide Silent, IsClosedField, ValidFacts, ValidRecord, Enterable;
  }

  lemma PendingFields(open: bool, f: Field)
    ensures f in Pending(open) ==>
              f in {Field.State, ReasonCode, BoundaryElement, WhatIsMissing, WhyPolicyCannotDecide, OpenDecisionItem}
  {
  }

  lemma PendingIsPlain(open: bool)
    ensures Plain(Pending(open)) && AMBIGUITY !in Pending(open) && Get(Pending(open), Verifies) == Null
  {
    hide Pending;
    forall f | f in Pending(open)
      ensures f in {Field.State, ReasonCode, BoundaryElement, WhatIsMissing, WhyPolicyCannotDecide, OpenDecisionItem}
    {
      PendingFields(open, f);
    }
  }

  /** Naming the ambiguity declares it, so its clause holds. */
  lemma AskingHolds(c: Contract, r: Record)
    requires ReadsThem(c) && Plain(r) && AMBIGUITY !in r
    ensures Holds(UndeterminedBoundaryElement, c, FactsOf(c, Some(AskingCode("N-1", AMBIGUITY)), r))
  {
    var facts := FactsOf(c, Some(AskingCode("N-1", AMBIGUITY)), r);
    assert facts == r[AMBIGUITY := Bool(true)];
    assert Fires(c.elements[AMBIGUITY], facts[AMBIGUITY]);
  }

  /** The record says what its code requires. */
  predicate Asking(r: Record) {
    && Get(r, Field.State) == Str(StateName(NeedsInput))
    && Get(r, ReasonCode) == Str(Raw("ambiguous_requirement"))
    && Get(r, BoundaryElement) == Str(FieldName(AMBIGUITY))
    && CarriesEvidence([ReasonCode, BoundaryElement, WhatIsMissing, WhyPolicyCannotDecide], r)
  }

  lemma PendingSays(open: bool)
    ensures
      var r := Pending(open);
      && Get(r, Field.State) == Str(StateName(NeedsInput))
      && ReasonCode in r && r[ReasonCode] == Str(Raw("ambiguous_requirement"))
      && BoundaryElement in r && r[BoundaryElement] == Str(FieldName(AMBIGUITY))
      && WhatIsMissing in r && r[WhatIsMissing] == Str(Raw("format"))
      && WhyPolicyCannotDecide in r && r[WhyPolicyCannotDecide] == Str(Raw("unstated"))
      && (Get(r, OpenDecisionItem) == Bool(true) <==> open)
  {
  }

  lemma NotBlank()
    ensures !Raw("format").IsBlank() && !Raw("unstated").IsBlank()
  {
    assert "format"[0] == 'f' && "unstated"[0] == 'u';
  }

  lemma PendingAsks(open: bool)
    ensures Asking(Pending(open)) && ReasonCode in Pending(open)
    ensures Get(Pending(open), OpenDecisionItem) == Bool(true) <==> open
  {
    hide Pending;
    PendingSays(open);
    NotBlank();
    var r := Pending(open);
    forall f | f in [ReasonCode, BoundaryElement, WhatIsMissing, WhyPolicyCannotDecide] && f != ReasonCode
      ensures f in r && !IsEmpty(r[f])
    {
    }
  }

  lemma AskingIsGrounded(c: Contract, r: Record)
    requires ReadsThem(c) && Plain(r) && AMBIGUITY !in r
    ensures Grounded(c, NeedsInput, Some(AskingCode("N-1", AMBIGUITY)), r)
  {
    AskingHolds(c, r);
    hide Holds, FactsOf, Plain;
  }

  lemma AskingIsAccepted(c: Contract, r: Record)
    requires ReadsThem(c) && Plain(r) && Asking(r) && AMBIGUITY !in r
    ensures JudgeOf(c).accepts(r)
  {
    PlainFacts(c, r);
    AskingIsGrounded(c, r);
    assert HasClosedFields(r);
    hide ValidFacts, Grounded, HasClosedFields, Plain, CarriesEvidence;
    assert Resting(c, NeedsInput, r) == Some(AskingCode("N-1", AMBIGUITY));
  }

  /** LOW, under the shipped contract. */
  ghost predicate RunsShipped(env: Env) {
    env.judge == JudgeOf(SHIPPED) && env.risk.Low?
  }

  lemma ShippedIsReadable(env: Env, s: Scenario)
    requires RunsShipped(env)
    ensures Readable(env, s)
  {
    hide RunEntryRecord, Steady, Sound, GoodEntry;
    ShippedMeetsTheRuns(env, s.entry, s.opening);
  }

  /** A Worker that declares CLEAR and writes no `reason_code` is accepted, and its run is refused by
      the next guard as malformed; with `reason_code: null` the same run goes on. */
  lemma MissingCodeStopsTheRun(env: Env, max: int, entry: Json, opening: Json, coded: bool)
    requires RunsShipped(env) && max >= 1
    ensures
      var end := RunWorkflow(env, max, OneGate(entry, opening, Clear, Silent(coded)));
      if coded then end.cause == ScenarioFinalReviewExhausted else EndsOn(end, GuardRefused(InputMalformed))
  {
    hide RunWorkflow, OneGate, Readable, Silent, EndsOn;
    ShippedIsReadable(env, OneGate(entry, opening, Clear, Silent(coded)));
    ShippedReadsThem();
    SilentIsAccepted(SHIPPED, coded);
    SilentIs(coded);
    ClearRun(env, max, entry, opening, Silent(coded));
  }

  /** A run that ended BLOCKED because its Worker needs input leaves a ledger the gate admits, as if
      nothing were open, unless the Worker also set `open_decision_item`. */
  lemma UndeclaredBlockIsAdmitted(env: Env, max: int, entry: Json, opening: Json, open: bool)
    requires RunsShipped(env) && max >= 1
    ensures
      var end := RunWorkflow(env, max, OneGate(entry, opening, NeedsInput, Pending(open)));
      && EndsOn(end, OfRound(Refused(Blocked(NeedsInput, Str(Raw("ambiguous_requirement"))))))
      && (LeavesAdmitted(env, end) <==> !open)
  {
    hide RunWorkflow, OneGate, Readable, Pending, EndsOn, LeavesAdmitted, Plain, ReadsThem;
    ShippedIsReadable(env, OneGate(entry, opening, NeedsInput, Pending(open)));
    ShippedReadsThem();
    PendingIsPlain(open);
    PendingAsks(open);
    AskingIsAccepted(SHIPPED, Pending(open));
    BlockingRun(env, max, entry, opening, NeedsInput, Pending(open));
  }
}
