/** The reason a blocked run reports is the one the gate reads off the ledger it leaves behind. */
module RunTerminals {
  import opened Vocabulary
  import opened Gate
  import opened GateLedger
  import opened PhaseRun
  import opened PhaseRunFacts
  import opened Stamping
  import opened RunLedger

  predicate SomeOpens(records: seq<Record>) {
    exists i :: 0 <= i < |records| && Opens(records[i])
  }

  /** The ledger, read again after the run: refused as disagreeing when an item is open, and then
      reclassified as `reason`; admitted when no record declared its item open. */
  ghost predicate NamedBy(env: Env, ledger: seq<Record>, reason: Reason) {
    && ledger != []
    && var settled := Some(Binding(ledger[|ledger| - 1]));
    && (SomeOpens(ledger) ==>
          && AdmitHead(env.judge, ledger, env.run, settled, None) == Err(DeclarationDisagrees)
          && UnresolvedBlockReason(env.judge, ledger, DeclarationDisagrees) == Some(reason))
    && (!SomeOpens(ledger) ==> AdmitHead(env.judge, ledger, env.run, settled, None).Ok?)
  }

  lemma QuietLedgers(env: Env, entry: Record, ledger: seq<Record>)
    requires Steady(env) && GoodEntry(env, entry) && Quiet(env, entry, ledger) && AllCarry(ledger)
    ensures QuietLedger(env.judge, ledger, env.run)
  {
    hide Steady, Clean, Opens, FirstDefect;
    QuietIs(env, entry, ledger);
  }

  /** A record the run filed, with everything the gate reads of it. */
  ghost predicate FiledRecord(env: Env, r: Record, phase: Phase, iteration: int, agent: Agent, base: Record, i: nat) {
    && exists s: Slot :: r == Stamped(env, base, s) && Bindable(s) && s.phase == phase && s.iteration == iteration
                         && s.agent == agent && s.sequence == i && env.judge.accepts(base)
  }

  lemma FiledRecordIs(env: Env, r: Record, phase: Phase, iteration: int, agent: Agent, base: Record, i: nat)
    requires Steady(env) && FiledRecord(env, r, phase, iteration, agent, base, i) && ReasonCode in r
    ensures env.judge.defect(r).None? && Get(r, Sequence) == Int(i)
    ensures Binding(r) == Settled(env.run, Str(PhaseName(phase)), Int(iteration))
    ensures Get(r, Field.State) == Get(base, Field.State) && Get(r, ReasonCode) == Get(base, ReasonCode)
    ensures Identity(r) == if agent.WorkerAgent? then (Str(B2), Str(Worker), Str(Worker))
                           else (Str(B3), Str(Reviewer), Str(Reviewer))
    ensures forall source, target :: env.judge.resolves(source, target, r) == env.judge.resolves(source, target, base)
  {
    hide Stamped;
    var s: Slot :| r == Stamped(env, base, s) && Bindable(s) && s.phase == phase && s.iteration == iteration
                   && s.agent == agent && s.sequence == i && env.judge.accepts(base);
    StampedFields(env, base, s);
  }

  // ---- reading the ledger again ----

  /** Nothing open after a quiet ledger: the head is admitted. */
  lemma QuietTailAdmits(env: Env, ledger: seq<Record>, tail: seq<Record>)
    requires Sound(env.judge) && QuietLedger(env.judge, ledger, env.run) && tail != []
    requires forall i | 0 <= i < |tail| ::
               && Get(tail[i], Sequence) == Int(|ledger| + i) && env.judge.defect(tail[i]).None?
               && !Opens(tail[i]) && Identity(tail[i]).0 != Str(B1)
    ensures AdmitHead(env.judge, ledger + tail, env.run, Some(Binding(tail[|tail| - 1])), None).Ok?
    ensures !SomeOpens(ledger + tail)
  {
    hide AdmitHead, OpenItems, Zeros, SortBySequence, FirstDefect, Opens;
    var all := ledger + tail;
    NoDefectIffAllValid(env.judge, tail);
    TerminalShape(env.judge, ledger, env.run, tail);
    NoDefectIffAllValid(env.judge, all);
    NothingOpens(env, ledger, tail);
    SoundIdentity(env, tail[|tail| - 1]);
    AdmissionIff(env.judge, all, env.run, Some(Binding(tail[|tail| - 1])), None);
    assert Gapless(all);
    assert all[|all| - 1] == tail[|tail| - 1] && all[0] == ledger[0];
  }

  lemma NothingOpens(env: Env, ledger: seq<Record>, tail: seq<Record>)
    requires QuietLedger(env.judge, ledger, env.run) && forall i | 0 <= i < |tail| :: !Opens(tail[i])
    ensures
      var all := ledger + tail;
      && OpenItems(env.judge, all) == {} && OpenItems(env.judge, all[1..]) == {} && DeclaredOpen(all[0]) == {}
      && !SomeOpens(all)
  {
    hide OpenItems, FirstDefect, Opens;
    var all := ledger + tail;
    assert forall i | 0 <= i < |all| :: !Opens(all[i]);
    QuietLedgerHasNothingOpen(env.judge, all);
    assert forall i | 0 <= i < |all[1..]| :: all[1..][i] == all[i + 1];
    QuietLedgerHasNothingOpen(env.judge, all[1..]);
    assert all[0] == ledger[0];
  }

  lemma SoundIdentity(env: Env, r: Record)
    requires Sound(env.judge) && env.judge.defect(r).None? && Identity(r).0 != Str(B1)
    ensures Get(r, Source) in {Str(Worker), Str(Reviewer)} && Get(r, Boundary) in {Str(B2), Str(B3)}
  {
  }

  /** One blocking record after a quiet ledger. */
  lemma BlockNames(env: Env, ledger: seq<Record>, r: Record)
    requires Sound(env.judge) && QuietLedger(env.judge, ledger, env.run)
    requires Get(r, Sequence) == Int(|ledger|) && env.judge.defect(r).None? && Identity(r).0 != Str(B1)
    requires IsBlocking(r)
    ensures StateOf(r).Some? && NamedBy(env, ledger + [r], Blocked(StateOf(r).value, Get(r, ReasonCode)))
  {
    hide AdmitHead, UnresolvedBlockReason, FirstDefect;
    var all := ledger + [r];
    assert all[|all| - 1] == r;
    if Opens(r) {
      BlockIsNamedAtTheTerminal(env.judge, ledger, env.run, r);
      assert SomeOpens(all);
    } else {
      QuietTailAdmits(env, ledger, [r]);
    }
  }

  /** A blocking Worker record and the record verifying it. */
  lemma VerificationNames(env: Env, ledger: seq<Record>, w: Record, v: Record)
    requires Sound(env.judge) && QuietLedger(env.judge, ledger, env.run)
    requires Get(w, Sequence) == Int(|ledger|) && env.judge.defect(w).None? && IsBlocking(w)
    requires Identity(w) == (Str(B2), Str(Worker), Str(Worker))
    requires Get(v, Sequence) == Int(|ledger| + 1) && env.judge.defect(v).None?
    requires Identity(v) == (Str(B3), Str(Reviewer), Str(Reviewer))
    requires VerificationBinds(v, KeyOf(w), Binding(w)) && Binding(v) == Binding(w)
    ensures StateOf(w).Some? && StateOf(v).Some?
    ensures NamedBy(env, ledger + [w, v],
                    EvaluateVerification(env.judge, StateOf(w).value, w, StateOf(v).value, v).reason)
  {
    hide AdmitHead, UnresolvedBlockReason, FirstDefect, VerificationBinds;
    var all := ledger + [w, v];
    assert all[|all| - 1] == v && all[|ledger|] == w;
    if Opens(w) {
      VerificationNamesItsOutcome(env.judge, ledger, env.run, w, v);
      assert SomeOpens(all);
    } else if Opens(v) {
      QuietGrowsByOne(env, ledger, w);
      assert (ledger + [w]) + [v] == all;
      BlockNames(env, ledger + [w], v);
      assert SomeOpens(all);
    } else {
      QuietTailAdmits(env, ledger, [w, v]);
    }
  }

  lemma QuietGrowsByOne(env: Env, ledger: seq<Record>, w: Record)
    requires QuietLedger(env.judge, ledger, env.run)
    requires Get(w, Sequence) == Int(|ledger|) && env.judge.defect(w).None? && !Opens(w)
    ensures QuietLedger(env.judge, ledger + [w], env.run)
  {
    hide FirstDefect, Opens;
    NoDefectIffAllValid(env.judge, ledger);
    NoDefectIffAllValid(env.judge, ledger + [w]);
  }

  // ---- what the last round filed ----

  lemma RecordedIs(env: Env, st: Loop, g: GateResult, phase: Phase, agent: Agent, verdict: Json, verifies: Json)
    requires env.judge.accepts(g.record)
    requires Bindable(Slot(phase, st.iteration, agent, verdict, verifies, |st.ledger|))
    ensures
      var st' := Recorded(env, st, g.record, phase, agent, verdict, verifies);
      var r := st'.ledger[|st.ledger|];
      && st' == st.(ledger := st.ledger + [r])
      && FiledRecord(env, r, phase, st.iteration, agent, g.record, |st.ledger|)
      && Get(r, Verifies) == verifies && Get(r, Field.State) == Get(g.record, Field.State)
      && (Verifies in r)
  {
    hide Stamped;
    var s := Slot(phase, st.iteration, agent, verdict, verifies, |st.ledger|);
    StampedFields(env, g.record, s);
    StampingKeeps(env, g.record, s, Verifies);
  }

  /** The Worker's record when its half of the round goes on. */
  ghost predicate WorkerFiled(env: Env, phase: Phase, st: Loop, w: Half) {
    && w.ToReviewer? && |w.st.ledger| == |st.ledger| + 1 && w.st.ledger == st.ledger + [w.st.ledger[|st.ledger|]]
    && w.st.iteration == st.iteration
    && var r := w.st.ledger[|st.ledger|];
    && FiledRecord(env, r, phase, st.iteration, WorkerAgent, w.record, |st.ledger|)
    && w.key == KeyOf(r) && Get(r, Field.State) == Str(StateName(w.state)) && (w.verifying <==> w.state.Blocks())
    && Get(r, Verifies) == Null
  }

  lemma WorkerFiles(env: Env, phase: Phase, script: Script, st: Loop)
    ensures var w := WorkerHalf(env, phase, script, st); w.ToReviewer? ==> WorkerFiled(env, phase, st, w)
  {
    hide Stamped, ParseGateResult, KeyOf, FiledRecord, Recorded, AddResolutions;
    if 1 <= st.iteration <= |script.workers| && script.workers[st.iteration - 1].WorkerOutput? {
      var text := script.workers[st.iteration - 1].text;
      var st2 := Dispatched(st, WorkerAgent, phase).(workers := st.workers + [text]);
      var gate := WorkerGate(env, text.body);
      if gate.Ok? {
        AcceptedDeclares(env, text.body);
        RecordedIs(env, st2, gate.value, phase, WorkerAgent, Str(Raw("")), Null);
      }
    }
  }

  /** The record a LOW run is blocked by. */
  lemma BlockedByWorker(env: Env, phase: Phase, st: Loop, g: GateResult)
    requires Steady(env) && Sound(env.judge) && QuietLedger(env.judge, st.ledger, env.run)
    requires env.judge.accepts(g.record) && Get(g.record, Field.State) == Str(StateName(g.declared))
    requires g.declared.Blocks()
    ensures
      var ledger := Recorded(env, st, g.record, phase, WorkerAgent, Str(Raw("")), Null).ledger;
      ReasonCode in ledger[|st.ledger|] ==> NamedBy(env, ledger, Blocked(g.declared, Get(g.record, ReasonCode)))
  {
    hide Stamped, FiledRecord, Recorded, QuietLedger, NamedBy, Steady, Sound;
    RecordedIs(env, st, g, phase, WorkerAgent, Str(Raw("")), Null);
    var r := Recorded(env, st, g.record, phase, WorkerAgent, Str(Raw("")), Null).ledger[|st.ledger|];
    if ReasonCode in r {
      FiledRecordIs(env, r, phase, st.iteration, WorkerAgent, g.record, |st.ledger|);
      BlockNames(env, st.ledger, r);
    }
  }

  lemma WorkerBlockNames(env: Env, phase: Phase, script: Script, st: Loop)
    requires Steady(env) && Sound(env.judge) && QuietLedger(env.judge, st.ledger, env.run)
    ensures
      var w := WorkerHalf(env, phase, script, st);
      w.HalfOver? && w.end.result.block.Some? && w.end.result.block.value.DecisionBlock?
      && (|w.end.ledger| > |st.ledger| ==> ReasonCode in w.end.ledger[|st.ledger|]) ==>
        w.end.result.reason.Refused? && NamedBy(env, w.end.ledger, w.end.result.reason.reason)
  {
    hide Stamped, ParseGateResult, KeyOf, AddResolutions, QuietLedger, NamedBy, Steady, Sound;
    if 1 <= st.iteration <= |script.workers| && script.workers[st.iteration - 1].WorkerOutput? {
      var text := script.workers[st.iteration - 1].text;
      var st2 := Dispatched(st, WorkerAgent, phase).(workers := st.workers + [text]);
      var gate := WorkerGate(env, text.body);
      if gate.Ok? && gate.value.declared.Blocks() && env.risk.Low? {
        AcceptedDeclares(env, text.body);
        BlockedByWorker(env, phase, st2, gate.value);
      }
    }
  }

  lemma SameOutcome(c: Judge, ws: State, w: Record, w': Record, rs: State, r: Record, r': Record)
    requires Get(w', ReasonCode) == Get(w, ReasonCode) && Get(r', ReasonCode) == Get(r, ReasonCode)
    requires forall source, target :: c.resolves(source, target, r') == c.resolves(source, target, r)
    ensures EvaluateVerification(c, ws, w', rs, r') == EvaluateVerification(c, ws, w, rs, r)
  {
  }

  lemma SameBinding(r: Record, r': Record, key: Json, bound: Settled)
    requires VerificationBinds(r, key, bound) && Verifies in r' && r'[Verifies] == r[Verifies]
    ensures VerificationBinds(r', key, bound)
  {
  }

  lemma BoundIsBindable(r: Record, key: Json, bound: Settled)
    requires VerificationBinds(r, key, bound)
    ensures Get(r, Verifies).Obj? && r[Verifies].members.Keys == VERIFIES
  {
  }

  lemma VerifiedTurnNames(env: Env, phase: Phase, st: Loop, w: Half, now: Loop, passes: bool, r: GateResult)
    requires Steady(env) && Sound(env.judge) && QuietLedger(env.judge, st.ledger, env.run)
    requires WorkerFiled(env, phase, st, w) && w.verifying && now.ledger == w.st.ledger && now.iteration == st.iteration
    requires env.judge.accepts(r.record) && Get(r.record, Field.State) == Str(StateName(r.declared))
    ensures
      var end := VerifiedTurn(env, phase, now, passes, w, r);
      end.result.block.Some? && end.result.block.value.DecisionBlock?
      && (forall i | |st.ledger| <= i < |end.ledger| :: ReasonCode in end.ledger[i]) ==>
        end.result.reason.Refused? && NamedBy(env, end.ledger, end.result.reason.reason)
  {
    hide Stamped, KeyOf, FiledRecord, Recorded, QuietLedger, NamedBy, Steady, Sound, EvaluateVerification,
         VerificationBinds, Bindable;
    var n := |st.ledger|;
    var bound := Settled(env.run, Str(PhaseName(phase)), Int(st.iteration));
    if VerificationBinds(r.record, w.key, bound) {
      BoundIsBindable(r.record, w.key, bound);
      IsBindable(Slot(phase, st.iteration, ReviewerAgent, VerdictText(passes), r.record[Verifies], n + 1));
      RecordedIs(env, now, r, phase, ReviewerAgent, VerdictText(passes), r.record[Verifies]);
      var end := VerifiedTurn(env, phase, now, passes, w, r);
      var wr, v := end.ledger[n], end.ledger[n + 1];
      assert end.ledger == st.ledger + [wr, v];
      if ReasonCode in wr && ReasonCode in v {
        FiledRecordIs(env, wr, phase, st.iteration, WorkerAgent, w.record, n);
        FiledRecordIs(env, v, phase, st.iteration, ReviewerAgent, r.record, n + 1);
        SameBinding(r.record, v, w.key, bound);
        VerificationNames(env, st.ledger, wr, v);
        SameOutcome(env.judge, w.state, w.record, wr, r.declared, r.record, v);
      }
    }
  }

  lemma IsBindable(s: Slot)
    requires s.verifies == Null || (!s.agent.WorkerAgent? && s.verifies.Obj? && s.verifies.members.Keys == VERIFIES)
    ensures Bindable(s)
  {
  }

  lemma ReviewedTurnNames(env: Env, phase: Phase, now: Loop, text: ReviewerText, r: GateResult)
    requires Steady(env) && Sound(env.judge) && QuietLedger(env.judge, now.ledger, env.run)
    requires env.judge.accepts(r.record) && Get(r.record, Field.State) == Str(StateName(r.declared))
    ensures
      var turn := ReviewedTurn(env, phase, now, text, r);
      turn.Over? && turn.end.result.block.Some? && turn.end.result.block.value.DecisionBlock?
      && (|turn.end.ledger| > |now.ledger| ==> ReasonCode in turn.end.ledger[|now.ledger|]) ==>
        turn.end.result.reason.Refused? && NamedBy(env, turn.end.ledger, turn.end.result.reason.reason)
  {
    hide Stamped, KeyOf, FiledRecord, Recorded, QuietLedger, NamedBy, Steady, Sound, AddReviews;
    var n := |now.ledger|;
    RecordedIs(env, now, r, phase, ReviewerAgent, VerdictText(text.passes), Null);
    var v := Recorded(env, now, r.record, phase, ReviewerAgent, VerdictText(text.passes), Null).ledger[n];
    if ReasonCode in v && r.declared.Blocks() {
      FiledRecordIs(env, v, phase, now.iteration, ReviewerAgent, r.record, n);
      BlockNames(env, now.ledger, v);
    }
  }

  // ---- the run ----

  lemma CarryPrefix(ledger: seq<Record>, longer: seq<Record>)
    requires ledger <= longer && AllCarry(longer)
    ensures AllCarry(ledger)
  {
    assert forall i | 0 <= i < |ledger| :: ledger[i] == longer[i];
  }

  lemma QuietSoFar(env: Env, entry: Record, phase: Phase, ledger: seq<Record>, dispatches: seq<Dispatch>, st: Loop)
    requires Quiet(env, entry, ledger) && LoopInv(env, phase, ledger, dispatches, st)
    ensures Quiet(env, entry, st.ledger)
  {
    hide Clean;
    forall i | 1 <= i < |st.ledger| ensures Clean(env, st.ledger[i], i) {
      if i < |ledger| {
        assert st.ledger[i] == ledger[i];
      }
    }
  }

  /** The run ended on a decision, and its ledger names that decision. */
  ghost predicate Named(env: Env, end: End) {
    end.result.block.Some? && end.result.block.value.DecisionBlock? && AllCarry(end.ledger) ==>
      end.result.reason.Refused? && NamedBy(env, end.ledger, end.result.reason.reason)
  }

  lemma WorkerEndNamed(env: Env, entry: Record, phase: Phase, script: Script, st: Loop)
    requires Steady(env) && Sound(env.judge) && GoodEntry(env, entry) && Quiet(env, entry, st.ledger)
             && st.iteration >= 1
    requires WorkerHalf(env, phase, script, st).HalfOver?
    ensures Named(env, WorkerHalf(env, phase, script, st).end)
  {
    hide WorkerHalf, Clean, NamedBy, Steady, Sound, QuietLedger, Settles, GoodEntry;
    var end := WorkerHalf(env, phase, script, st).end;
    WorkerHalfFacts(env, phase, script, st);
    if AllCarry(end.ledger) {
      CarryPrefix(st.ledger, end.ledger);
      QuietLedgers(env, entry, st.ledger);
      WorkerBlockNames(env, phase, script, st);
      assert |st.ledger| >= 1;
    }
  }

  lemma ReviewerEndNamed(env: Env, entry: Record, phase: Phase, script: Script, st: Loop, w: Half)
    requires Steady(env) && Sound(env.judge) && GoodEntry(env, entry) && Quiet(env, entry, st.ledger)
    requires WorkerFiled(env, phase, st, w) && (!w.verifying ==> Quiet(env, entry, w.st.ledger)) && st.iteration >= 1
    requires ReviewerHalf(env, phase, script, w).Over?
    ensures Named(env, ReviewerHalf(env, phase, script, w).end)
  {
    hide VerifiedTurn, ReviewedTurn, Clean, NamedBy, Steady, Sound, QuietLedger, Settles, GoodEntry, FiledRecord,
         ParseGateResult,
         AllCarry, KeyOf, ReviewVerdict;
    var end := ReviewerHalf(env, phase, script, w).end;
    ReviewerHalfFacts(env, phase, script, w);
    if st.iteration <= |script.reviewers| && script.reviewers[st.iteration - 1].ReviewerOutput?
       && AllCarry(end.ledger) {
      var text := script.reviewers[st.iteration - 1].text;
      var now := Dispatched(w.st, ReviewerAgent, phase).(reviews := w.st.reviews + [text.passes]);
      var gate := ParseGateResult(env.judge, text.body);
      CarryPrefix(w.st.ledger, end.ledger);
      CarryPrefix(st.ledger, w.st.ledger);
      QuietLedgers(env, entry, st.ledger);
      CarriesFrom(end.ledger, |st.ledger|);
      CarriesFrom(end.ledger, |w.st.ledger|);
      if gate.Ok? {
        AcceptedDeclares(env, text.body);
        if w.verifying {
          VerifiedTurnNames(env, phase, st, w, now, text.passes, gate.value);
        } else {
          QuietLedgers(env, entry, w.st.ledger);
          ReviewedTurnNames(env, phase, now, text, gate.value);
        }
      }
    }
  }

  lemma CarriesFrom(ledger: seq<Record>, n: nat)
    requires AllCarry(ledger) && n >= 1
    ensures forall i | n <= i < |ledger| :: ReasonCode in ledger[i]
  {
  }

  lemma {:induction false} RunFromNames(env: Env, entry: Record, phase: Phase, budget: int, script: Script,
                                        ledger: seq<Record>, dispatches: seq<Dispatch>, st: Loop)
    requires Steady(env) && Sound(env.judge) && GoodEntry(env, entry) && Quiet(env, entry, ledger)
    requires LoopInv(env, phase, ledger, dispatches, st)
    ensures Named(env, RunFrom(env, phase, budget, script, st))
    decreases budget - st.iteration
  {
    hide WorkerHalf, ReviewerHalf, LoopInv, Quiet, Steady, Sound, GoodEntry, WorkerFiled, NamedBy, AllCarry;
    if st.iteration <= budget {
      assert st.iteration >= 1 by { StartsAtOne(env, phase, ledger, dispatches, st); }
      QuietSoFar(env, entry, phase, ledger, dispatches, st);
      var w := WorkerHalf(env, phase, script, st);
      if w.HalfOver? {
        WorkerEndNamed(env, entry, phase, script, st);
      } else {
        WorkerFiles(env, phase, script, st);
        QuietWorker(env, entry, phase, script, st);
        match ReviewerHalf(env, phase, script, w) {
          case Over(_) => ReviewerEndNamed(env, entry, phase, script, st, w);
          case Again(st') =>
            GoesRound(env, phase, script, ledger, dispatches, st);
            RunFromNames(env, entry, phase, budget, script, ledger, dispatches, st');
        }
      }
    }
  }

  lemma StartsAtOne(env: Env, phase: Phase, ledger: seq<Record>, dispatches: seq<Dispatch>, st: Loop)
    requires LoopInv(env, phase, ledger, dispatches, st)
    ensures st.iteration >= 1
  {
  }

  lemma QuietWorker(env: Env, entry: Record, phase: Phase, script: Script, st: Loop)
    requires Quiet(env, entry, st.ledger) && st.iteration >= 1
    ensures var w := WorkerHalf(env, phase, script, st); w.ToReviewer? && !w.verifying ==>
              Quiet(env, entry, w.st.ledger)
  {
    hide WorkerHalf, Clean, Settles, IsBlocking;
    WorkerHalfFacts(env, phase, script, st);
    var w := WorkerHalf(env, phase, script, st);
    if w.ToReviewer? && !w.verifying {
      forall i | 1 <= i < |w.st.ledger| ensures Clean(env, w.st.ledger[i], i) {
        if i < |st.ledger| {
          assert w.st.ledger[i] == st.ledger[i];
        }
      }
    }
  }

  /** Whenever a run ends on a decision, reading the ledger it leaves behind names that decision:
      the last boundary is refused as disagreeing and reclassified as the reason the run reported, or,
      when neither agent declared its item open, nothing is refused. */
  lemma RunNamesItsTerminal(env: Env, entry: Record, phase: Phase, budget: int, script: Script,
                            ledger: seq<Record>, dispatches: seq<Dispatch>)
    requires Steady(env) && Sound(env.judge) && GoodEntry(env, entry) && Quiet(env, entry, ledger)
    ensures Named(env, RunPhase(env, phase, budget, script, ledger, dispatches))
  {
    RunFromNames(env, entry, phase, budget, script, ledger, dispatches, Start(ledger, dispatches));
  }
}
