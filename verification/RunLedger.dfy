/** The ledger a workflow run writes, and what the guard before each round makes of it. */
module RunLedger {
  import opened Vocabulary
  import opened Policy
  import opened Gate
  import opened GateLedger
  import opened PhaseRun
  import opened PhaseRunFacts
  import opened Stamping

  /** The run-entry record, then only agents' records that verify nothing and block nothing. */
  ghost predicate Quiet(env: Env, entry: Record, ledger: seq<Record>) {
    && ledger != [] && ledger[0] == entry
    && CleanFrom(env, ledger, 1)
  }

  /** The run-entry record is one the judge accepts as the first of a run with nothing open. */
  predicate GoodEntry(env: Env, entry: Record) {
    && env.judge.defect(entry).None? && IsRunEntry(entry, env.run) && !IsBlocking(entry)
    && Get(entry, Sequence) == Int(0) && Get(entry, PriorOpenDecisionItems) == List([])
  }

  /** The round just settled is the one the ledger's last record was filed for. */
  predicate HeadSettled(ledger: seq<Record>, settled: Option<Settled>)
    requires ledger != []
  {
    HeadBinds(ledger, settled)
  }

  /** Every agent's record carries its reason code, if only as null. */
  predicate AllCarry(ledger: seq<Record>) {
    forall i | 1 <= i < |ledger| :: ReasonCode in ledger[i]
  }

  lemma CleanIs(env: Env, r: Record, i: nat)
    requires Steady(env) && Clean(env, r, i)
    ensures !Opens(r) && Get(r, Sequence) == Int(i)
    ensures env.judge.defect(r) == if ReasonCode in r then None else Some(InputMalformed)
  {
    var base, s :| Filed(env, base, s, r, i) && s.verifies == Null;
    hide Stamped;
    StampedFields(env, base, s);
    assert Bindable(s);
  }

  lemma {:induction false} OneKindOfDefect(c: Judge, records: seq<Record>)
    requires forall i | 0 <= i < |records| :: c.defect(records[i]).None? || c.defect(records[i]) == Some(InputMalformed)
    ensures FirstDefect(c, records).None? || FirstDefect(c, records) == Some(InputMalformed)
  {
    if records != [] {
      OneKindOfDefect(c, records[1..]);
    }
  }

  /** What every record of a quiet ledger is. */
  lemma QuietIs(env: Env, entry: Record, ledger: seq<Record>)
    requires Steady(env) && GoodEntry(env, entry) && Quiet(env, entry, ledger)
    ensures GaplessFrom(ledger, 0) && forall i | 0 <= i < |ledger| :: !Opens(ledger[i])
    ensures FirstDefect(env.judge, ledger) == if AllCarry(ledger) then None else Some(InputMalformed)
  {
    hide Steady, Clean, Opens, FirstDefect;
    assert !Opens(entry) by {
      NotBlocking(entry);
    }
    forall i | 1 <= i < |ledger|
      ensures !Opens(ledger[i]) && Get(ledger[i], Sequence) == Int(i)
      ensures env.judge.defect(ledger[i]) == if ReasonCode in ledger[i] then None else Some(InputMalformed)
    {
      CleanIs(env, ledger[i], i);
    }
    NoDefectIffAllValid(env.judge, ledger);
    OneKindOfDefect(env.judge, ledger);
  }

  lemma NotBlocking(r: Record)
    requires !IsBlocking(r)
    ensures !Opens(r)
  {
  }

  /** On the ledger of a run none of whose records blocks, the guard passes exactly when every
      agent wrote a reason code; a record without one is refused as malformed. */
  lemma GuardIffAllCarry(env: Env, entry: Record, ledger: seq<Record>, settled: Option<Settled>)
    requires Steady(env) && GoodEntry(env, entry) && Quiet(env, entry, ledger) && HeadSettled(ledger, settled)
    ensures AdmitHead(env.judge, ledger, env.run, settled, None)
            == if AllCarry(ledger) then Ok(ledger[|ledger| - 1]) else Err(InputMalformed)
  {
    hide Steady, Clean, Opens, FirstDefect, OpenItems, SortBySequence, Zeros, AllCarry, IsRunEntry, AdmitHead,
         HeadBinds;
    QuietIs(env, entry, ledger);
    GaplessIsSorted(ledger, 0);
    GaplessHasOneZero(ledger, 0);
    QuietLedgerHasNothingOpen(env.judge, ledger);
    assert forall i | 0 <= i < |ledger[1..]| :: ledger[1..][i] == ledger[i + 1];
    QuietLedgerHasNothingOpen(env.judge, ledger[1..]);
    assert DeclaredOpen(entry) == {};
    AdmitsByDefectAlone(env.judge, ledger, env.run, settled);
  }

  lemma AdmitsByDefectAlone(c: Judge, ledger: seq<Record>, run: Json, settled: Option<Settled>)
    requires ledger != [] && SortBySequence(ledger) == ledger && Zeros(ledger) == [ledger[0]]
             && IsRunEntry(ledger[0], run)
    requires GaplessFrom(ledger, 0) && HeadBinds(ledger, settled)
    requires DeclaredOpen(ledger[0]) == OpenItems(c, ledger[1..]) == OpenItems(c, ledger) == {}
    ensures AdmitHead(c, ledger, run, settled, None)
            == if FirstDefect(c, ledger).None? then Ok(ledger[|ledger| - 1]) else Err(FirstDefect(c, ledger).value)
  {
    hide FirstDefect, OpenItems, SortBySequence, Zeros, IsRunEntry, HeadBinds, DeclaredOpen;
  }

  /** The entry record a run opens its ledger with is a good one under every contract that lets a
      record with nothing open be CLEAR and asks of it no evidence the entry lacks. */
  lemma EntryIsGood(c: Contract, env: Env, phase: Json, binding: Json)
    requires env.judge == JudgeOf(c)
    requires c.entry(Clear).AnyOf? && NoOpenDecisionItem in c.entry(Clear).predicates
    requires !c.reasonCodeRequired(Clear)
    requires forall f :: f in c.evidence(Clear) ==> f in {OpenDecisionItem, Grounds, Scope, ReasonCode}
    requires forall e :: e in c.elements ==> !IsStamp(e) && !IsClaim(e)
    ensures GoodEntry(env, RunEntryRecord(env, phase, binding))
  {
    hide RunEntryRecord, RecordDefect;
    EntryHasNoDefect(c, env, phase, binding);
    EntryMechanics(env, phase, binding);
    EntrySays(env, phase, binding);
  }

  /** What the run theorems ask of a judge, every such contract gives. */
  lemma ContractsMeetTheRuns(c: Contract, env: Env, phase: Json, binding: Json)
    requires env.judge == JudgeOf(c) && ReadsAgentFields(c)
    requires c.entry(Clear).AnyOf? && NoOpenDecisionItem in c.entry(Clear).predicates && !c.reasonCodeRequired(Clear)
    requires forall f :: f in c.evidence(Clear) ==> f in {OpenDecisionItem, Grounds, Scope, ReasonCode}
    requires forall e :: e in c.elements ==> !IsClaim(e)
    ensures Steady(env) && Sound(env.judge) && GoodEntry(env, RunEntryRecord(env, phase, binding))
  {
    ContractsAreSteady(c, env);
    ContractsAreSound(c);
    EntryIsGood(c, env, phase, binding);
    hide Steady, Sound, GoodEntry;
  }
}
