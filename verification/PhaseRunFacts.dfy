/** What every run of one phase keeps, whatever its agents answer. */
module PhaseRunFacts {
  import opened Vocabulary
  import opened Gate
  import opened PhaseRun

  // ---- stamped records ----

  lemma StampsAre(env: Env, s: Slot)
    ensures
      var m := Stamps(env, s);
      var worker := s.agent.WorkerAgent?;
      && Get(m, Sequence) == Int(s.sequence) && Get(m, Verifies) == s.verifies
      && Binding(m) == Settled(env.run, Str(PhaseName(s.phase)), Int(s.iteration))
      && Identity(m) == (Str(if worker then B2 else B3), Str(if worker then Worker else Reviewer),
                         Str(if worker then Worker else Reviewer))
      && Sequence in m && Verifies in m && Run in m && Field.Phase in m && Iteration in m
      && Source in m && Boundary in m && Role in m
  {
  }

  predicate IsStamp(f: Field) {
    match f
    case Run => true
    case Phase => true
    case Iteration => true
    case Role => true
    case Verdict => true
    case SourceBinding => true
    case RecordedAt => true
    case LedgerSchemaVersion => true
    case Boundary => true
    case Sequence => true
    case Source => true
    case PriorOpenDecisionItems => true
    case Verifies => true
    case _ => false
  }

  predicate IsDefault(f: Field) {
    f.ResponsiblePhase? || f.Evidence? || f.Assumption? || f.OpenItem?
  }

  lemma StampedKeys(env: Env, s: Slot, f: Field)
    ensures f in Stamps(env, s) <==> IsStamp(f)
  {
  }

  lemma DefaultKeys(s: Slot, f: Field)
    ensures f in Defaults(s) <==> IsDefault(f)
  {
  }

  /** Stamping overrides the thirteen stamped fields and touches nothing else the agent wrote. */
  lemma StampingKeeps(env: Env, base: Record, s: Slot, f: Field)
    ensures f in Stamped(env, base, s) <==> IsStamp(f) || f in base || IsDefault(f)
    ensures IsStamp(f) ==> Get(Stamped(env, base, s), f) == Get(Stamps(env, s), f)
    ensures !IsStamp(f) && f in base ==> Get(Stamped(env, base, s), f) == base[f]
  {
    hide Stamps, Defaults, IsStamp, IsDefault;
    StampedKeys(env, s, f);
    DefaultKeys(s, f);
  }

  lemma StampedFields(env: Env, base: Record, s: Slot)
    ensures
      var r := Stamped(env, base, s);
      && Get(r, Field.State) == Get(base, Field.State)
      && Get(r, ReasonCode) == Get(base, ReasonCode)
      && (ReasonCode in r <==> ReasonCode in base)
      && Get(r, OpenDecisionItem) == Get(base, OpenDecisionItem)
      && Get(r, Sequence) == Int(s.sequence)
      && Get(r, Verifies) == s.verifies
      && Binding(r) == Settled(env.run, Str(PhaseName(s.phase)), Int(s.iteration))
      && Identity(r) == (Str(if s.agent.WorkerAgent? then B2 else B3),
                         Str(if s.agent.WorkerAgent? then Worker else Reviewer),
                         Str(if s.agent.WorkerAgent? then Worker else Reviewer))
  {
    hide Stamps, Stamped;
    StampsAre(env, s);
    StampingKeeps(env, base, s, Field.State);
    StampingKeeps(env, base, s, ReasonCode);
    StampingKeeps(env, base, s, OpenDecisionItem);
    StampingKeeps(env, base, s, Sequence);
    StampingKeeps(env, base, s, Verifies);
    StampingKeeps(env, base, s, Run);
    StampingKeeps(env, base, s, Field.Phase);
    StampingKeeps(env, base, s, Iteration);
    StampingKeeps(env, base, s, Source);
    StampingKeeps(env, base, s, Boundary);
    StampingKeeps(env, base, s, Role);
  }

  /** `r` was filed at position `i` for an accepted agent record. */
  ghost predicate Filed(env: Env, base: Record, s: Slot, r: Record, i: nat) {
    env.judge.accepts(base) && s.sequence == i && r == Stamped(env, base, s)
  }

  /** Filed at position `i`, verifying nothing and blocking nothing. */
  ghost predicate Clean(env: Env, r: Record, i: nat) {
    && !IsBlocking(r)
    && exists base, s :: Filed(env, base, s, r, i) && s.verifies == Null
  }

  /** The record settles this round of this phase. */
  predicate Settles(env: Env, r: Record, phase: Phase, iteration: int) {
    && Binding(r) == Settled(env.run, Str(PhaseName(phase)), Int(iteration))
    && Get(r, Source) in {Str(Worker), Str(Reviewer)}
    && Get(r, Boundary) in {Str(B2), Str(B3)}
  }

  /** Who a record filed for this agent says it is. */
  function AgentIdentity(agent: Agent): (Json, Json, Json) {
    if agent.WorkerAgent? then (Str(B2), Str(Worker), Str(Worker)) else (Str(B3), Str(Reviewer), Str(Reviewer))
  }

  lemma AcceptedDeclares(env: Env, body: Body)
    requires ParseGateResult(env.judge, body).Ok?
    ensures
      var g := ParseGateResult(env.judge, body).value;
      && env.judge.accepts(g.record)
      && Get(g.record, Field.State) == Str(StateName(g.declared))
      && (IsBlocking(g.record) <==> g.declared.Blocks())
  {
  }

  /** The record one agent's accepted declaration adds. */
  ghost predicate Adds(env: Env, phase: Phase, st: Loop, ledger: seq<Record>, agent: Agent) {
    && |ledger| == |st.ledger| + 1 && ledger[..|st.ledger|] == st.ledger
    && Settles(env, ledger[|st.ledger|], phase, st.iteration) && Identity(ledger[|st.ledger|]) == AgentIdentity(agent)
    && (!IsBlocking(ledger[|st.ledger|]) && Get(ledger[|st.ledger|], Verifies) == Null ==>
          Clean(env, ledger[|st.ledger|], |st.ledger|))
  }

  lemma RecordedAdds(env: Env, st: Loop, g: GateResult, phase: Phase, agent: Agent, verdict: Json, verifies: Json)
    requires env.judge.accepts(g.record)
    requires Get(g.record, Field.State) == Str(StateName(g.declared))
    ensures
      var st' := Recorded(env, st, g.record, phase, agent, verdict, verifies);
      var r := st'.ledger[|st.ledger|];
      && st' == st.(ledger := st'.ledger)
      && Adds(env, phase, st, st'.ledger, agent)
      && (IsBlocking(r) <==> g.declared.Blocks())
      && Get(r, Verifies) == verifies
  {
    var s := Slot(phase, st.iteration, agent, verdict, verifies, |st.ledger|);
    StampedFields(env, g.record, s);
    hide Stamped;
    var r := Stamped(env, g.record, s);
    assert Filed(env, g.record, s, r, |st.ledger|);
  }

  // ---- the two halves of a round ----

  /** How far a half-round got: the dispatch it made and the record it filed. */
  ghost predicate Extends(env: Env, phase: Phase, st: Loop, agent: Agent, ledger: seq<Record>,
                          dispatches: seq<Dispatch>) {
    || (ledger == st.ledger && dispatches == st.dispatches)
    || (&& dispatches == st.dispatches + [Dispatch(agent, phase, st.iteration, |st.ledger|)]
        && (ledger == st.ledger || Adds(env, phase, st, ledger, agent)))
  }

  /** What the Worker's half of a round leaves, whether it ends the run or goes on to the Reviewer. */
  ghost predicate WorkerLeaves(env: Env, phase: Phase, st: Loop, h: Half) {
    var dispatched := st.dispatches + [Dispatch(WorkerAgent, phase, st.iteration, |st.ledger|)];
    match h
    case ToReviewer(st', verifying, _, _, _) =>
      && !env.risk.Low?
      && st'.iteration == st.iteration && st'.previous == st.previous && st'.reviews == st.reviews
      && |st'.workers| == |st.workers| + 1
      && Adds(env, phase, st, st'.ledger, WorkerAgent) && st'.dispatches == dispatched
      && (verifying <==> IsBlocking(st'.ledger[|st.ledger|]))
      && Get(st'.ledger[|st.ledger|], Verifies) == Null
    case HalfOver(e) =>
      && Extends(env, phase, st, WorkerAgent, e.ledger, e.dispatches)
      && |st.workers| <= |e.result.workers| <= |st.workers| + 1
      && e.result.reviews == st.reviews && e.result.iteration == st.iteration
      && !e.result.status.Escalated?
      && (e.result.block.Some? ==> e.result.status.Stopped?)
      && (e.result.status.Completed? ==>
            && env.risk.Low? && |e.result.workers| == |st.workers| + 1 && e.dispatches == dispatched
            && Adds(env, phase, st, e.ledger, WorkerAgent)
            && Get(e.ledger[|st.ledger|], Verifies) == Null)
      && (|e.ledger| > |st.ledger| && IsBlocking(e.ledger[|st.ledger|]) ==> !e.result.status.Completed?)
  }

  /** A declaration that was accepted is filed before anything else of the answer is read. */
  lemma WorkerDeclares(env: Env, phase: Phase, st: Loop, text: WorkerText, g: GateResult)
    requires env.judge.accepts(g.record) && Get(g.record, Field.State) == Str(StateName(g.declared))
    ensures
      var st2 := Dispatched(st, WorkerAgent, phase).(workers := st.workers + [text]);
      var st3 := Recorded(env, st2, g.record, phase, WorkerAgent, Str(Raw("")), Null);
      var code := Get(g.record, ReasonCode);
      WorkerLeaves(env, phase, st,
        if g.declared.Blocks() && env.risk.Low? then
          HalfOver(DecisionBlocked(st3, Gate.Blocked(g.declared, code), DecisionBlock(g.declared, code)))
        else AfterDeclaration(env, phase, st3, text, g))
  {
    hide Stamped, Adds, KeyOf, AddResolutions, Recorded;
    var st2 := Dispatched(st, WorkerAgent, phase).(workers := st.workers + [text]);
    RecordedAdds(env, st2, g, phase, WorkerAgent, Str(Raw("")), Null);
    AddsIgnoresTheRest(env, phase, st, st2, WorkerAgent);
  }

  /** No answer, or none that could be used: nothing is filed. */
  lemma WorkerFiledNothing(env: Env, phase: Phase, st: Loop, st': Loop, status: Status, reason: RunReason,
                           block: Option<Block>)
    requires status in {Errored, Stopped} && (block.Some? ==> status.Stopped?)
    requires st' in {st, Dispatched(st, WorkerAgent, phase)}
             || exists text :: st' == Dispatched(st, WorkerAgent, phase).(workers := st.workers + [text])
    ensures WorkerLeaves(env, phase, st, HalfOver(End(RunResult(st'.iteration, st'.workers, st'.reviews, st'.traces,
                                                                status, reason, block), st'.ledger, st'.dispatches)))
  {
    hide Adds, IsBlocking, Get;
  }

  lemma WorkerHalfFacts(env: Env, phase: Phase, script: Script, st: Loop)
    requires st.iteration >= 1
    ensures WorkerLeaves(env, phase, st, WorkerHalf(env, phase, script, st))
  {
    hide Stamped, WorkerGate, AfterDeclaration, Recorded, WorkerLeaves;
    var st1 := Dispatched(st, WorkerAgent, phase);
    if st.iteration > |script.workers| {
      WorkerFiledNothing(env, phase, st, st, Errored, WorkerExhausted, None);
    } else {
      match script.workers[st.iteration - 1] {
        case WorkerExit(code) =>
          WorkerFiledNothing(env, phase, st, st1, Errored, WorkerUnexpectedExit(code), None);
        case WorkerMalformed =>
          WorkerFiledNothing(env, phase, st, st1, Errored, MalformedWorkerOutput, None);
        case WorkerOutput(text) =>
          var gate := WorkerGate(env, text.body);
          if gate.Ok? {
            WorkerAccepts(env, text.body);
            WorkerDeclares(env, phase, st, text, gate.value);
          } else {
            WorkerFiledNothing(env, phase, st, st1.(workers := st.workers + [text]), Stopped,
                               Refused(gate.error), Some(InputDefect(gate.error)));
          }
      }
    }
  }

  lemma WorkerAccepts(env: Env, body: Body)
    requires WorkerGate(env, body).Ok?
    ensures
      var g := WorkerGate(env, body).value;
      env.judge.accepts(g.record) && Get(g.record, Field.State) == Str(StateName(g.declared))
  {
    hide ParseGateResult;
    AcceptedDeclares(env, body);
  }

  lemma AddsIgnoresTheRest(env: Env, phase: Phase, st: Loop, st': Loop, agent: Agent)
    requires st.ledger == st'.ledger && st.iteration == st'.iteration
    ensures forall ledger :: Adds(env, phase, st', ledger, agent) ==> Adds(env, phase, st, ledger, agent)
  {
  }

  lemma VerifiedTurnFacts(env: Env, phase: Phase, st: Loop, passes: bool, w: Half, r: GateResult)
    requires w.ToReviewer? && env.judge.accepts(r.record) && Get(r.record, Field.State) == Str(StateName(r.declared))
    ensures
      var e := VerifiedTurn(env, phase, st, passes, w, r);
      && e.dispatches == st.dispatches && (e.ledger == st.ledger || Adds(env, phase, st, e.ledger, ReviewerAgent))
      && e.result.workers == st.workers && e.result.reviews == st.reviews && e.result.iteration == st.iteration
      && e.result.status.Stopped?
  {
    hide Stamped, Adds, EvaluateVerification;
    RecordedAdds(env, st, r, phase, ReviewerAgent, VerdictText(passes), Get(r.record, Verifies));
  }

  lemma ReviewedTurnFacts(env: Env, phase: Phase, st: Loop, text: ReviewerText, r: GateResult)
    requires env.judge.accepts(r.record) && Get(r.record, Field.State) == Str(StateName(r.declared))
    ensures
      match ReviewedTurn(env, phase, st, text, r)
      case Again(st') =>
        && st'.iteration == st.iteration + 1 && st'.workers == st.workers && st'.reviews == st.reviews
        && Adds(env, phase, st, st'.ledger, ReviewerAgent) && st'.dispatches == st.dispatches
        && !IsBlocking(st'.ledger[|st.ledger|]) && Get(st'.ledger[|st.ledger|], Verifies) == Null
      case Over(e) =>
        && e.dispatches == st.dispatches && (e.ledger == st.ledger || Adds(env, phase, st, e.ledger, ReviewerAgent))
        && e.result.workers == st.workers && e.result.reviews == st.reviews && e.result.iteration == st.iteration
        && e.result.status in {Stopped, Completed} && (e.result.block.Some? ==> e.result.status.Stopped?)
        && (e.result.status.Completed? ==>
              && Adds(env, phase, st, e.ledger, ReviewerAgent) && Get(e.ledger[|st.ledger|], Verifies) == Null
              && !IsBlocking(e.ledger[|st.ledger|]))
  {
    hide Stamped, Adds, AddReviews;
    RecordedAdds(env, st, r, phase, ReviewerAgent, VerdictText(text.passes), Null);
  }

  /** What the Reviewer's half of a round leaves, whether it ends the run or goes round again. */
  ghost predicate ReviewerLeaves(env: Env, phase: Phase, w: Half, turn: Turn)
    requires w.ToReviewer?
  {
    var st := w.st;
    var dispatched := st.dispatches + [Dispatch(ReviewerAgent, phase, st.iteration, |st.ledger|)];
    match turn
    case Again(st') =>
      && !w.verifying
      && st'.iteration == st.iteration + 1 && st'.workers == st.workers && |st'.reviews| == |st.reviews| + 1
      && Adds(env, phase, st, st'.ledger, ReviewerAgent) && st'.dispatches == dispatched
      && !IsBlocking(st'.ledger[|st.ledger|]) && Get(st'.ledger[|st.ledger|], Verifies) == Null
    case Over(e) =>
      && Extends(env, phase, st, ReviewerAgent, e.ledger, e.dispatches)
      && e.result.workers == st.workers && e.result.iteration == st.iteration
      && |st.reviews| <= |e.result.reviews| <= |st.reviews| + 1
      && !e.result.status.Escalated?
      && (e.result.block.Some? ==> e.result.status.Stopped?)
      && (w.verifying ==> e.result.status in {Stopped, Errored})
      && (e.result.status.Completed? ==>
            && |e.result.reviews| == |st.reviews| + 1 && e.dispatches == dispatched
            && Adds(env, phase, st, e.ledger, ReviewerAgent)
            && Get(e.ledger[|st.ledger|], Verifies) == Null)
      && (|e.ledger| > |st.ledger| && IsBlocking(e.ledger[|st.ledger|]) ==> !e.result.status.Completed?)
  }

  /** An answer that was read: verification or normal mode. */
  lemma ReviewerAnswers(env: Env, phase: Phase, w: Half, text: ReviewerText, g: GateResult)
    requires w.ToReviewer? && env.judge.accepts(g.record) && Get(g.record, Field.State) == Str(StateName(g.declared))
    ensures
      var st2 := Dispatched(w.st, ReviewerAgent, phase).(reviews := w.st.reviews + [text.passes]);
      ReviewerLeaves(env, phase, w, if w.verifying then Over(VerifiedTurn(env, phase, st2, text.passes, w, g))
                                    else ReviewedTurn(env, phase, st2, text, g))
  {
    hide Adds, VerifiedTurn, ReviewedTurn, IsBlocking, Get;
    var st2 := Dispatched(w.st, ReviewerAgent, phase).(reviews := w.st.reviews + [text.passes]);
    AddsIgnoresTheRest(env, phase, w.st, st2, ReviewerAgent);
    if w.verifying {
      VerifiedTurnFacts(env, phase, st2, text.passes, w, g);
    } else {
      ReviewedTurnFacts(env, phase, st2, text, g);
    }
  }

  /** No answer, or none that could be used: nothing is filed. */
  lemma ReviewerFiledNothing(env: Env, phase: Phase, w: Half, st: Loop, status: Status, reason: RunReason,
                             block: Option<Block>)
    requires w.ToReviewer? && status in {Errored, Stopped} && (block.Some? ==> status.Stopped?)
    requires st in {w.st, Dispatched(w.st, ReviewerAgent, phase)}
             || exists passes :: st == Dispatched(w.st, ReviewerAgent, phase).(reviews := w.st.reviews + [passes])
    ensures ReviewerLeaves(env, phase, w, Over(End(RunResult(st.iteration, st.workers, st.reviews, st.traces, status,
                                                             reason, block), st.ledger, st.dispatches)))
  {
    hide Adds, IsBlocking, Get;
  }

  lemma ReviewerHalfFacts(env: Env, phase: Phase, script: Script, w: Half)
    requires w.ToReviewer? && w.st.iteration >= 1
    ensures ReviewerLeaves(env, phase, w, ReviewerHalf(env, phase, script, w))
  {
    hide Stamped, ParseGateResult, VerifiedTurn, ReviewedTurn, ReviewVerdict, ReviewerLeaves;
    var st := w.st;
    var st1 := Dispatched(st, ReviewerAgent, phase);
    if st.iteration > |script.reviewers| {
      ReviewerFiledNothing(env, phase, w, st, Errored, ReviewerExhausted, None);
    } else {
      match script.reviewers[st.iteration - 1] {
        case ReviewerModified =>
          ReviewerFiledNothing(env, phase, w, st1, Errored, ReviewerModifiedProtectedArtifact, None);
        case ReviewerExit(code) =>
          ReviewerFiledNothing(env, phase, w, st1, Errored, ReviewerUnexpectedExit(code), None);
        case ReviewerMalformed =>
          ReviewerFiledNothing(env, phase, w, st1, Errored, MalformedReviewerOutput, None);
        case ReviewerOutput(text) =>
          ReviewerFiledNothing(env, phase, w, st1, Errored, MalformedReviewerOutput, None);
          var gate := ParseGateResult(env.judge, text.body);
          if gate.Ok? {
            AcceptedDeclares(env, text.body);
            ReviewerAnswers(env, phase, w, text, gate.value);
          } else {
            ReviewerFiledNothing(env, phase, w, st1.(reviews := st.reviews + [text.passes]), Stopped,
                                 Refused(gate.error), Some(InputDefect(gate.error)));
          }
      }
    }
  }

  // ---- the whole run ----

  ghost predicate Grown(ledger: seq<Record>, dispatches: seq<Dispatch>, ledger': seq<Record>,
                        dispatches': seq<Dispatch>) {
    && ledger <= ledger' && dispatches <= dispatches'
    && (forall j | |dispatches| <= j < |dispatches'| :: |ledger| <= dispatches'[j].after <= |ledger'|)
  }

  ghost predicate CleanFrom(env: Env, ledger: seq<Record>, n: nat) {
    forall i | n <= i < |ledger| :: Clean(env, ledger[i], i)
  }

  /** Beyond its first `n` records the ledger holds only records of rounds 1 to `last` of this phase. */
  ghost predicate OwnRounds(env: Env, phase: Phase, ledger: seq<Record>, n: nat, last: int) {
    forall i | n <= i < |ledger| :: OfRounds(env, phase, ledger[i], last)
  }

  ghost predicate OfRounds(env: Env, phase: Phase, r: Record, last: int) {
    exists k :: 1 <= k <= last && Settles(env, r, phase, k)
  }

  /** Between iterations: everything filed is clean and of this phase's rounds, and every iteration so
      far used both agents. */
  ghost predicate LoopInv(env: Env, phase: Phase, ledger: seq<Record>, dispatches: seq<Dispatch>, st: Loop) {
    && st.iteration >= 1 && (st.iteration > 1 ==> !env.risk.Low?)
    && |st.workers| == |st.reviews| == st.iteration - 1
    && |st.dispatches| == |dispatches| + 2 * (st.iteration - 1)
    && Grown(ledger, dispatches, st.ledger, st.dispatches)
    && CleanFrom(env, st.ledger, |ledger|)
    && OwnRounds(env, phase, st.ledger, |ledger|, st.iteration - 1)
  }

  /** `d` is the Reviewer sent, above LOW, to verify the Worker's record `r` just filed at position `i`:
      the very next dispatch, of `r`'s own round. */
  ghost predicate IsItsVerification(env: Env, r: Record, i: nat, d: Dispatch) {
    && d.agent == ReviewerAgent && !env.risk.Low? && d.after == i + 1
    && Identity(r) == AgentIdentity(WorkerAgent)
    && Binding(r) == Settled(env.run, Str(PhaseName(d.phase)), Int(d.iteration))
  }

  /** After `r` was filed nothing was dispatched but, last, its own verification. */
  ghost predicate OnlyVerified(env: Env, r: Record, i: nat, dispatches: seq<Dispatch>) {
    forall j | 0 <= j < |dispatches| && dispatches[j].after > i ::
      j == |dispatches| - 1 && IsItsVerification(env, r, i, dispatches[j])
  }

  /** What is true of every run of one phase, however it ends. */
  ghost predicate RunEnd(env: Env, phase: Phase, budget: int, ledger: seq<Record>, dispatches: seq<Dispatch>,
                         end: End) {
    var r := end.result;
    && Grown(ledger, dispatches, end.ledger, end.dispatches)
    && |r.reviews| <= |r.workers| && (|r.workers| <= budget || r.workers == [])
    && (env.risk.Low? ==> r.reviews == [])
    && (r.block.Some? ==> r.status.Stopped?)
    && OwnRounds(env, phase, end.ledger, |ledger|, r.iteration)
    && (r.status.Completed? || r.status.Escalated? ==> CleanFrom(env, end.ledger, |ledger|) && r.block.None?)
    && (r.status.Completed? ==>
          && |end.ledger| > |ledger| && Settles(env, end.ledger[|end.ledger| - 1], phase, r.iteration)
          && 1 <= r.iteration <= budget && |r.workers| == r.iteration
          && (if env.risk.Low? then r.iteration == 1 else |r.reviews| == r.iteration)
          && |end.dispatches| == |dispatches| + |r.workers| + |r.reviews|)
    && (forall i | |ledger| <= i < |end.ledger| && IsBlocking(end.ledger[i]) ::
          r.status in {Stopped, Errored} && OnlyVerified(env, end.ledger[i], i, end.dispatches[|dispatches|..]))
  }

  lemma {:induction false} RunFromKeeps(env: Env, phase: Phase, budget: int, script: Script,
                                        ledger: seq<Record>, dispatches: seq<Dispatch>, st: Loop)
    requires LoopInv(env, phase, ledger, dispatches, st) && (st.iteration <= budget + 1 || st.iteration == 1)
    ensures RunEnd(env, phase, budget, ledger, dispatches, RunFrom(env, phase, budget, script, st))
    decreases budget - st.iteration
  {
    hide WorkerHalf, ReviewerHalf, Adds, Clean, Settles, IsBlocking;
    if st.iteration <= budget {
      WorkerHalfFacts(env, phase, script, st);
      var half := WorkerHalf(env, phase, script, st);
      if half.HalfOver? {
        WorkerEnds(env, phase, budget, script, ledger, dispatches, st);
      } else {
        ReviewerHalfFacts(env, phase, script, half);
        match ReviewerHalf(env, phase, script, half) {
          case Over(_) => ReviewerEnds(env, phase, budget, script, ledger, dispatches, st);
          case Again(st') =>
            GoesRound(env, phase, script, ledger, dispatches, st);
            RunFromKeeps(env, phase, budget, script, ledger, dispatches, st');
        }
      }
    } else {
      CleanDoesNotBlock(env, st.ledger, |ledger|);
    }
  }

  lemma GoesRound(env: Env, phase: Phase, script: Script, ledger: seq<Record>, dispatches: seq<Dispatch>, st: Loop)
    requires LoopInv(env, phase, ledger, dispatches, st) && Round(env, phase, script, st).Again?
    ensures LoopInv(env, phase, ledger, dispatches, Round(env, phase, script, st).st)
  {
    hide WorkerHalf, ReviewerHalf, Settles, IsBlocking, Clean;
    WorkerHalfFacts(env, phase, script, st);
    var half := WorkerHalf(env, phase, script, st);
    ReviewerHalfFacts(env, phase, script, half);
  }

  lemma WorkerEnds(env: Env, phase: Phase, budget: int, script: Script, ledger: seq<Record>,
                   dispatches: seq<Dispatch>, st: Loop)
    requires LoopInv(env, phase, ledger, dispatches, st) && st.iteration <= budget
    requires WorkerHalf(env, phase, script, st).HalfOver?
    ensures RunEnd(env, phase, budget, ledger, dispatches, WorkerHalf(env, phase, script, st).end)
  {
    hide WorkerHalf, Settles, IsBlocking, Clean;
    WorkerHalfFacts(env, phase, script, st);
    CleanDoesNotBlock(env, st.ledger, |ledger|);
  }

  lemma CleanDoesNotBlock(env: Env, ledger: seq<Record>, n: nat)
    requires CleanFrom(env, ledger, n)
    ensures forall i | n <= i < |ledger| :: !IsBlocking(ledger[i])
  {
  }

  lemma ReviewerEnds(env: Env, phase: Phase, budget: int, script: Script, ledger: seq<Record>,
                     dispatches: seq<Dispatch>, st: Loop)
    requires LoopInv(env, phase, ledger, dispatches, st) && st.iteration <= budget
    requires WorkerHalf(env, phase, script, st).ToReviewer?
    requires ReviewerHalf(env, phase, script, WorkerHalf(env, phase, script, st)).Over?
    ensures RunEnd(env, phase, budget, ledger, dispatches,
                   ReviewerHalf(env, phase, script, WorkerHalf(env, phase, script, st)).end)
  {
    hide WorkerHalf, ReviewerHalf, IsBlocking, Clean, Identity, Binding;
    WorkerHalfFacts(env, phase, script, st);
    ReviewerHalfFacts(env, phase, script, WorkerHalf(env, phase, script, st));
    CleanDoesNotBlock(env, st.ledger, |ledger|);
  }

  /** Every run of one phase. */
  lemma RunKeeps(env: Env, phase: Phase, budget: int, script: Script, ledger: seq<Record>, dispatches: seq<Dispatch>)
    ensures RunEnd(env, phase, budget, ledger, dispatches, RunPhase(env, phase, budget, script, ledger, dispatches))
  {
    RunFromKeeps(env, phase, budget, script, ledger, dispatches, Start(ledger, dispatches));
  }
}
