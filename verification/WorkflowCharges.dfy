/** What a run charges to its phases' budgets, read off the dispatch log: above LOW every Reviewer that
    was sent out and answered, at LOW every Worker, and nothing for a round a decision blocked. */
module WorkflowCharges {
  import opened Vocabulary
  import opened Sequences
  import opened Gate
  import opened PhaseRun
  import opened PhaseRunFacts
  import opened RunLedger
  import opened Stamping
  import opened Workflow
  import opened WorkflowFacts

  /** How often an agent was sent out to a phase. */
  function Sent(dispatches: seq<Dispatch>, agent: Agent, p: Phase): nat {
    if dispatches == [] then 0
    else
      var last := dispatches[|dispatches| - 1];
      Sent(dispatches[..|dispatches| - 1], agent, p) + if last.agent == agent && last.phase == p then 1 else 0
  }

  lemma {:induction false} SentConcat(a: seq<Dispatch>, b: seq<Dispatch>, agent: Agent, p: Phase)
    ensures Sent(a + b, agent, p) == Sent(a, agent, p) + Sent(b, agent, p)
    decreases |b|
  {
    if b == [] {
      assert a + b == a;
    } else {
      assert (a + b)[..|a + b| - 1] == a + b[..|b| - 1];
      SentConcat(a, b[..|b| - 1], agent, p);
    }
  }

  lemma SentOneMore(before: seq<Dispatch>, d: Dispatch, agent: Agent, p: Phase)
    ensures Sent(before + [d], agent, p) == Sent(before, agent, p) + if d.agent == agent && d.phase == p then 1 else 0
  {
    assert (before + [d])[..|before|] == before;
  }

  /** The last agent sent out gave no answer that could be read. */
  predicate WorkerLost(reason: RunReason) {
    reason.WorkerUnexpectedExit? || reason == MalformedWorkerOutput
  }

  predicate ReviewerLost(reason: RunReason) {
    reason.ReviewerUnexpectedExit? || reason in {MalformedReviewerOutput, ReviewerModifiedProtectedArtifact}
  }

  // ---- one phase run ----

  /** The run sent out one Worker per Worker answer and one Reviewer per review, and one more where
      the last answer was lost; nothing to another phase, and no Final Reviewer. */
  ghost predicate SendsForAnswers(phase: Phase, before: seq<Dispatch>, end: End) {
    && before <= end.dispatches
    && (forall i | |before| <= i < |end.dispatches| ::
          end.dispatches[i].phase == phase && !end.dispatches[i].agent.FinalReviewerAgent?)
    && Sent(end.dispatches, WorkerAgent, phase) - Sent(before, WorkerAgent, phase)
       == |end.result.workers| + (if WorkerLost(end.result.reason) then 1 else 0)
    && Sent(end.dispatches, ReviewerAgent, phase) - Sent(before, ReviewerAgent, phase)
       == |end.result.reviews| + (if ReviewerLost(end.result.reason) then 1 else 0)
    && (end.result.status.Completed? ==> end.result.reason == NoReason)
  }

  ghost predicate SentSoFar(phase: Phase, before: seq<Dispatch>, st: Loop) {
    && before <= st.dispatches
    && (forall i | |before| <= i < |st.dispatches| ::
          st.dispatches[i].phase == phase && !st.dispatches[i].agent.FinalReviewerAgent?)
    && Sent(st.dispatches, WorkerAgent, phase) - Sent(before, WorkerAgent, phase) == |st.workers|
    && Sent(st.dispatches, ReviewerAgent, phase) - Sent(before, ReviewerAgent, phase) == |st.reviews|
  }

  lemma OneWorkerMore(phase: Phase, before: seq<Dispatch>, st: Loop)
    requires SentSoFar(phase, before, st)
    ensures
      var sent := Dispatched(st, WorkerAgent, phase).dispatches;
      && before <= sent
      && (forall i | |before| <= i < |sent| :: sent[i].phase == phase && !sent[i].agent.FinalReviewerAgent?)
      && Sent(sent, WorkerAgent, phase) == Sent(st.dispatches, WorkerAgent, phase) + 1
      && Sent(sent, ReviewerAgent, phase) == Sent(st.dispatches, ReviewerAgent, phase)
  {
    var d := Dispatch(WorkerAgent, phase, st.iteration, |st.ledger|);
    SentOneMore(st.dispatches, d, WorkerAgent, phase);
    SentOneMore(st.dispatches, d, ReviewerAgent, phase);
  }

  lemma OneReviewerMore(phase: Phase, before: seq<Dispatch>, st: Loop)
    requires SentSoFar(phase, before, st)
    ensures
      var sent := Dispatched(st, ReviewerAgent, phase).dispatches;
      && before <= sent
      && (forall i | |before| <= i < |sent| :: sent[i].phase == phase && !sent[i].agent.FinalReviewerAgent?)
      && Sent(sent, WorkerAgent, phase) == Sent(st.dispatches, WorkerAgent, phase)
      && Sent(sent, ReviewerAgent, phase) == Sent(st.dispatches, ReviewerAgent, phase) + 1
  {
    var d := Dispatch(ReviewerAgent, phase, st.iteration, |st.ledger|);
    SentOneMore(st.dispatches, d, WorkerAgent, phase);
    SentOneMore(st.dispatches, d, ReviewerAgent, phase);
  }

  /** The Worker was not sent out, or its answer was lost. */
  lemma NoWork(phase: Phase, before: seq<Dispatch>, st: Loop, sent: bool, reason: RunReason)
    requires SentSoFar(phase, before, st) && !ReviewerLost(reason) && (WorkerLost(reason) <==> sent)
    ensures SendsForAnswers(phase, before,
                            Ended(if sent then Dispatched(st, WorkerAgent, phase) else st, Errored, reason))
  {
    hide Sent;
    OneWorkerMore(phase, before, st);
  }

  /** The Worker's answer was read: the log holds one more Worker, the run one more answer. */
  lemma OneWork(phase: Phase, before: seq<Dispatch>, st: Loop, text: WorkerText)
    requires SentSoFar(phase, before, st)
    ensures SentSoFar(phase, before, Dispatched(st, WorkerAgent, phase).(workers := st.workers + [text]))
  {
    hide Sent;
    OneWorkerMore(phase, before, st);
  }

  /** An end that sends no one further out and loses no answer. */
  lemma EndSends(phase: Phase, before: seq<Dispatch>, st: Loop, end: End)
    requires SentSoFar(phase, before, st) && !WorkerLost(end.result.reason) && !ReviewerLost(end.result.reason)
    requires end.dispatches == st.dispatches && end.result.workers == st.workers && end.result.reviews == st.reviews
    requires end.result.status.Completed? ==> end.result.reason == NoReason
    ensures SendsForAnswers(phase, before, end)
  {
    hide Sent;
  }

  lemma LogStays(phase: Phase, before: seq<Dispatch>, st: Loop, st': Loop)
    requires SentSoFar(phase, before, st)
    requires st'.dispatches == st.dispatches && st'.workers == st.workers && st'.reviews == st.reviews
    ensures SentSoFar(phase, before, st')
  {
    hide Sent;
  }

  /** What follows a filed declaration sends no one out. */
  lemma DeclarationSendsNoOne(env: Env, phase: Phase, st: Loop, text: WorkerText, g: GateResult)
    ensures
      match AfterDeclaration(env, phase, st, text, g)
      case HalfOver(end) =>
        && end.dispatches == st.dispatches && end.result.workers == st.workers && end.result.reviews == st.reviews
        && !WorkerLost(end.result.reason) && !ReviewerLost(end.result.reason)
        && (end.result.status.Completed? ==> end.result.reason == NoReason)
      case ToReviewer(st', _, _, _, _) =>
        st'.dispatches == st.dispatches && st'.workers == st.workers && st'.reviews == st.reviews
  {
    hide KeyOf, AddResolutions;
  }

  lemma FilingStaysInLog(env: Env, st: Loop, record: Record, phase: Phase, agent: Agent, verdict: Json, verifies: Json)
    ensures
      var st' := Recorded(env, st, record, phase, agent, verdict, verifies);
      st'.dispatches == st.dispatches && st'.workers == st.workers && st'.reviews == st.reviews
  {
    hide Stamped;
  }

  lemma WorkerSends(env: Env, phase: Phase, script: Script, before: seq<Dispatch>, st: Loop)
    requires SentSoFar(phase, before, st)
    ensures
      match WorkerHalf(env, phase, script, st)
      case HalfOver(end) => SendsForAnswers(phase, before, end)
      case ToReviewer(st', _, _, _, _) => SentSoFar(phase, before, st')
  {
    hide WorkerGate, AfterDeclaration, Recorded, SendsForAnswers, SentSoFar;
    var n := st.iteration;
    if n == 0 || n > |script.workers| {
      NoWork(phase, before, st, false, WorkerExhausted);
    } else {
      match script.workers[n - 1] {
        case WorkerExit(code) => NoWork(phase, before, st, true, WorkerUnexpectedExit(code));
        case WorkerMalformed => NoWork(phase, before, st, true, MalformedWorkerOutput);
        case WorkerOutput(text) =>
          OneWork(phase, before, st, text);
          var st2 := Dispatched(st, WorkerAgent, phase).(workers := st.workers + [text]);
          DeclaredSends(env, phase, before, st2, text);
      }
    }
  }

  lemma DeclaredSends(env: Env, phase: Phase, before: seq<Dispatch>, st: Loop, text: WorkerText)
    requires SentSoFar(phase, before, st)
    ensures
      var gate := WorkerGate(env, text.body);
      if gate.Err? then SendsForAnswers(phase, before, DecisionBlocked(st, gate.error, InputDefect(gate.error)))
      else
        var g := gate.value;
        var st3 := Recorded(env, st, g.record, phase, WorkerAgent, Str(Raw("")), Null);
        var code := Get(g.record, ReasonCode);
        if g.declared.Blocks() && env.risk.Low? then
          SendsForAnswers(phase, before, DecisionBlocked(st3, Gate.Blocked(g.declared, code),
                                                         DecisionBlock(g.declared, code)))
        else match AfterDeclaration(env, phase, st3, text, g)
             case HalfOver(end) => SendsForAnswers(phase, before, end)
             case ToReviewer(st', _, _, _, _) => SentSoFar(phase, before, st')
  {
    hide WorkerGate, AfterDeclaration, Recorded, SendsForAnswers, SentSoFar;
    var gate := WorkerGate(env, text.body);
    if gate.Err? {
      EndSends(phase, before, st, DecisionBlocked(st, gate.error, InputDefect(gate.error)));
    } else {
      var g := gate.value;
      var st3 := Recorded(env, st, g.record, phase, WorkerAgent, Str(Raw("")), Null);
      FilingStaysInLog(env, st, g.record, phase, WorkerAgent, Str(Raw("")), Null);
      LogStays(phase, before, st, st3);
      if g.declared.Blocks() && env.risk.Low? {
        var code := Get(g.record, ReasonCode);
        EndSends(phase, before, st3, DecisionBlocked(st3, Gate.Blocked(g.declared, code),
                                                     DecisionBlock(g.declared, code)));
      } else {
        DeclarationSendsNoOne(env, phase, st3, text, g);
        match AfterDeclaration(env, phase, st3, text, g) {
          case HalfOver(end) => EndSends(phase, before, st3, end);
          case ToReviewer(st', _, _, _, _) => LogStays(phase, before, st3, st');
        }
      }
    }
  }

  /** Reading a review sends no one out. */
  lemma TurnsSendNoOne(env: Env, phase: Phase, st: Loop, text: ReviewerText, w: Half, g: GateResult)
    requires w.ToReviewer?
    ensures
      var e := VerifiedTurn(env, phase, st, text.passes, w, g);
      e.dispatches == st.dispatches && e.result.workers == st.workers && e.result.reviews == st.reviews
      && e.result.reason.Refused? && e.result.status.Stopped?
    ensures
      match ReviewedTurn(env, phase, st, text, g)
      case Over(e) =>
        && e.dispatches == st.dispatches && e.result.workers == st.workers && e.result.reviews == st.reviews
        && (if e.result.status.Completed? then e.result.reason == NoReason else e.result.reason.Refused?)
      case Again(st') =>
        st'.dispatches == st.dispatches && st'.workers == st.workers && st'.reviews == st.reviews
  {
    hide Stamped, AddReviews, EvaluateVerification, VerificationBinds;
  }

  /** The Reviewer was not sent out, or its answer was lost. */
  lemma NoReview(phase: Phase, before: seq<Dispatch>, st: Loop, sent: bool, reason: RunReason)
    requires SentSoFar(phase, before, st) && !WorkerLost(reason) && (ReviewerLost(reason) <==> sent)
    ensures SendsForAnswers(phase, before,
                            Ended(if sent then Dispatched(st, ReviewerAgent, phase) else st, Errored, reason))
  {
    hide Sent;
    OneReviewerMore(phase, before, st);
  }

  /** The Reviewer's answer was read: the log holds one more Reviewer, the run one more review. */
  lemma OneReview(phase: Phase, before: seq<Dispatch>, st: Loop, passes: bool)
    requires SentSoFar(phase, before, st)
    ensures SentSoFar(phase, before, Dispatched(st, ReviewerAgent, phase).(reviews := st.reviews + [passes]))
  {
    hide Sent;
    OneReviewerMore(phase, before, st);
  }

  lemma ReviewSends(env: Env, phase: Phase, before: seq<Dispatch>, st: Loop, text: ReviewerText, w: Half, g: GateResult)
    requires w.ToReviewer? && SentSoFar(phase, before, st)
    ensures SendsForAnswers(phase, before, VerifiedTurn(env, phase, st, text.passes, w, g))
    ensures
      match ReviewedTurn(env, phase, st, text, g)
      case Over(end) => SendsForAnswers(phase, before, end)
      case Again(st') => SentSoFar(phase, before, st')
  {
    hide VerifiedTurn, ReviewedTurn, SendsForAnswers, SentSoFar;
    TurnsSendNoOne(env, phase, st, text, w, g);
    EndSends(phase, before, st, VerifiedTurn(env, phase, st, text.passes, w, g));
    match ReviewedTurn(env, phase, st, text, g) {
      case Over(end) => EndSends(phase, before, st, end);
      case Again(st') => LogStays(phase, before, st, st');
    }
  }

  lemma ReviewerSends(env: Env, phase: Phase, script: Script, before: seq<Dispatch>, w: Half)
    requires w.ToReviewer? && SentSoFar(phase, before, w.st)
    ensures
      match ReviewerHalf(env, phase, script, w)
      case Over(end) => SendsForAnswers(phase, before, end)
      case Again(st') => SentSoFar(phase, before, st')
  {
    hide ParseGateResult, VerifiedTurn, ReviewedTurn, ReviewVerdict, SendsForAnswers, SentSoFar;
    var n := w.st.iteration;
    if n == 0 || n > |script.reviewers| {
      NoReview(phase, before, w.st, false, ReviewerExhausted);
    } else {
      match script.reviewers[n - 1] {
        case ReviewerModified => NoReview(phase, before, w.st, true, ReviewerModifiedProtectedArtifact);
        case ReviewerExit(code) => NoReview(phase, before, w.st, true, ReviewerUnexpectedExit(code));
        case ReviewerMalformed => NoReview(phase, before, w.st, true, MalformedReviewerOutput);
        case ReviewerOutput(text) =>
          NoReview(phase, before, w.st, true, MalformedReviewerOutput);
          OneReview(phase, before, w.st, text.passes);
          var st2 := Dispatched(w.st, ReviewerAgent, phase).(reviews := w.st.reviews + [text.passes]);
          var gate := ParseGateResult(env.judge, text.body);
          if gate.Ok? {
            ReviewSends(env, phase, before, st2, text, w, gate.value);
          } else {
            EndSends(phase, before, st2, DecisionBlocked(st2, gate.error, InputDefect(gate.error)));
          }
      }
    }
  }

  lemma {:induction false} RunFromSends(env: Env, phase: Phase, budget: int, script: Script, before: seq<Dispatch>,
                                        st: Loop)
    requires SentSoFar(phase, before, st)
    ensures SendsForAnswers(phase, before, RunFrom(env, phase, budget, script, st))
    decreases budget - st.iteration
  {
    hide WorkerHalf, ReviewerHalf, Sent;
    if st.iteration <= budget {
      WorkerSends(env, phase, script, before, st);
      var w := WorkerHalf(env, phase, script, st);
      if w.ToReviewer? {
        ReviewerSends(env, phase, script, before, w);
        match ReviewerHalf(env, phase, script, w) {
          case Over(_) =>
          case Again(st') => RunFromSends(env, phase, budget, script, before, st');
        }
      }
    }
  }

  lemma PhaseSends(env: Env, phase: Phase, budget: int, script: Script, ledger: seq<Record>, dispatches: seq<Dispatch>)
    ensures SendsForAnswers(phase, dispatches, RunPhase(env, phase, budget, script, ledger, dispatches))
  {
    RunFromSends(env, phase, budget, script, dispatches, Start(ledger, dispatches));
  }

  // ---- the whole run ----

  /** The agent whose answers a phase's budget counts. */
  function Counted(env: Env): Agent {
    match env.risk
    case Low => WorkerAgent
    case Medium => ReviewerAgent
    case High => ReviewerAgent
  }

  /** Every phase is charged exactly for the agents sent out to it. */
  ghost predicate ChargedAsSent(env: Env, wf: Wf) {
    forall p :: Used(wf, p) == Sent(wf.dispatches, Counted(env), p)
  }

  /** The round last run did not complete: before its first dispatch every phase had been charged
      exactly for the agents sent out to it, and the round itself is charged for those of its own that
      answered, or for nothing when a decision blocked it. */
  ghost predicate ChargedButLast(env: Env, wf: Wf, m: nat)
    requires m <= |wf.dispatches| && wf.gates != []
  {
    var last := wf.gates[|wf.gates| - 1];
    var round := wf.dispatches[m..];
    var lost := if (if env.risk.Low? then WorkerLost(last.result.reason) else ReviewerLost(last.result.reason)) then 1
                else 0;
    && (forall i | 0 <= i < |round| :: round[i].phase == last.phase && round[i].agent in {WorkerAgent, ReviewerAgent})
    && (forall p :: Used(wf, p) ==
          Sent(wf.dispatches[..m], Counted(env), p)
          + if p != last.phase || last.result.block.Some? then 0 else Sent(round, Counted(env), p) - lost)
  }

  /** Charges and log agree, exactly or up to a last round that did not complete. */
  ghost predicate Accounts(env: Env, wf: Wf) {
    if wf.gates == [] || wf.gates[|wf.gates| - 1].result.status.Completed? then ChargedAsSent(env, wf)
    else exists m :: 0 <= m <= |wf.dispatches| && ChargedButLast(env, wf, m)
  }

  // ---- the steps of a run ----

  lemma RanAccounts(env: Env, wf: Wf, p: Phase, purpose: Purpose, budget: int, script: Script)
    requires ChargedAsSent(env, wf)
    ensures Accounts(env, Ran(env, wf, p, purpose, budget, script))
  {
    PhaseSends(env, p, budget, script, wf.ledger, wf.dispatches);
    RunKeeps(env, p, budget, script, wf.ledger, wf.dispatches);
    hide RunPhase, Sent, Grown, CleanFrom, OwnRounds, OnlyVerified, IsBlocking, Numbered;
    var ran := Ran(env, wf, p, purpose, budget, script);
    var m := |wf.dispatches|;
    var round := ran.dispatches[m..];
    assert ran.dispatches[..m] == wf.dispatches && ran.dispatches == wf.dispatches + round;
    forall q
      ensures Sent(ran.dispatches, Counted(env), q)
              == Sent(wf.dispatches, Counted(env), q) + Sent(round, Counted(env), q)
    {
      SentConcat(wf.dispatches, round, Counted(env), q);
    }
    forall q | q != p ensures Sent(round, Counted(env), q) == 0 {
      NotSent(round, p, Counted(env), q);
    }
    forall q ensures Used(ran, q) == Used(wf, q) + if q == p then Charge(env.risk, LastResult(ran)) else 0 {
    }
    assert Used(wf, p) == Sent(wf.dispatches, Counted(env), p);
    if LastResult(ran).status.Completed? {
      assert ChargedAsSent(env, ran);
    } else {
      assert ChargedButLast(env, ran, m);
    }
  }

  lemma {:induction false} NotSent(round: seq<Dispatch>, p: Phase, agent: Agent, q: Phase)
    requires q != p && forall i | 0 <= i < |round| :: round[i].phase == p
    ensures Sent(round, agent, q) == 0
    decreases |round|
  {
    if round != [] {
      NotSent(round[..|round| - 1], p, agent, q);
    }
  }

  /** Between rounds: the charges are the log's, the last round completed, and every attempt opened
      sent out one Final Reviewer. */
  ghost predicate InStep(env: Env, wf: Wf) {
    && ChargedAsSent(env, wf)
    && (wf.gates == [] || wf.gates[|wf.gates| - 1].result.status.Completed?)
    && Sent(wf.dispatches, FinalReviewerAgent, FinalReview) == wf.attempts
  }

  lemma GuardStays(env: Env, wf: Wf, site: Site)
    requires InStep(env, wf)
    ensures InStep(env, Guarded(env, wf, site).wf)
  {
    hide Refusal, Sent;
    var wf' := Guarded(env, wf, site).wf;
    assert forall p :: Used(wf', p) == Used(wf, p);
  }

  lemma RanStays(env: Env, wf: Wf, p: Phase, purpose: Purpose, budget: int, script: Script)
    requires InStep(env, wf)
    ensures
      var ran := Ran(env, wf, p, purpose, budget, script);
      && Accounts(env, ran) && ran.attempts == wf.attempts
      && Sent(ran.dispatches, FinalReviewerAgent, FinalReview) == ran.attempts
      && (LastResult(ran).status.Completed? ==> InStep(env, ran))
  {
    RanAccounts(env, wf, p, purpose, budget, script);
    PhaseSends(env, p, budget, script, wf.ledger, wf.dispatches);
    hide RunPhase, Sent, Charge, Numbered, ChargedAsSent, ChargedButLast, WorkerLost, ReviewerLost;
    var ran := Ran(env, wf, p, purpose, budget, script);
    var round := ran.dispatches[|wf.dispatches|..];
    assert ran.dispatches == wf.dispatches + round;
    SentConcat(wf.dispatches, round, FinalReviewerAgent, FinalReview);
    NoneFinal(round);
  }

  lemma {:induction false} NoneFinal(round: seq<Dispatch>)
    requires forall i | 0 <= i < |round| :: !round[i].agent.FinalReviewerAgent?
    ensures Sent(round, FinalReviewerAgent, FinalReview) == 0
    decreases |round|
  {
    if round != [] {
      NoneFinal(round[..|round| - 1]);
    }
  }

  /** How the log and the charges stand when a run has ended. */
  ghost predicate EndsAccounted(env: Env, flow: Flow) {
    && flow.Stop? && Accounts(env, flow.wf)
    && (flow.status.Completed? ==> ChargedAsSent(env, flow.wf))
    && Sent(flow.wf.dispatches, FinalReviewerAgent, FinalReview)
       == flow.wf.attempts - if flow.cause.ScenarioFinalReviewExhausted? then 1 else 0
  }

  ghost predicate Stays(env: Env, flow: Flow) {
    if flow.Go? then InStep(env, flow.wf) else EndsAccounted(env, flow)
  }

  lemma StopsInStep(env: Env, wf: Wf, status: Status, cause: Cause, block: Option<Block>)
    requires InStep(env, wf) && !cause.ScenarioFinalReviewExhausted?
    ensures EndsAccounted(env, Stop(wf, status, cause, block))
  {
    hide Sent, ChargedAsSent, ChargedButLast;
  }

  lemma StopsAfterRound(env: Env, wf: Wf, status: Status, cause: Cause, block: Option<Block>)
    requires Accounts(env, wf) && !status.Completed? && !cause.ScenarioFinalReviewExhausted?
    requires Sent(wf.dispatches, FinalReviewerAgent, FinalReview) == wf.attempts
    ensures EndsAccounted(env, Stop(wf, status, cause, block))
  {
    hide Sent, Accounts, ChargedAsSent;
  }

  lemma {:induction false} GatesStay(env: Env, max: int, s: Scenario, wf: Wf, todo: seq<Phase>)
    requires InStep(env, wf)
    ensures Stays(env, PhaseGates(env, max, s, wf, todo))
    decreases |todo|
  {
    hide Refusal, Ran, LastResult, InStep, EndsAccounted, Accounts, Sent;
    if todo != [] {
      GuardStays(env, wf, PhaseGate);
      var guarded := Guarded(env, wf, PhaseGate);
      if todo[0] !in s.gates {
        StopsInStep(env, wf, Errored, ScenarioPhaseMissing(todo[0]), None);
      } else if guarded.Stop? {
        StopsInStep(env, guarded.wf, guarded.status, guarded.cause, guarded.block);
      } else {
        RanStays(env, guarded.wf, todo[0], Initial, max, s.gates[todo[0]]);
        var ran := Ran(env, guarded.wf, todo[0], Initial, max, s.gates[todo[0]]);
        var result := LastResult(ran);
        if result.status.Completed? {
          GatesStay(env, max, s, ran, todo[1..]);
        } else {
          StopsAfterRound(env, ran, result.status, OfRound(result.reason), result.block);
        }
      }
    }
  }

  lemma TableStays(env: Env, wf: Wf, wf': Wf)
    requires InStep(env, wf) && wf' == wf.(corrected := wf'.corrected)
    ensures InStep(env, wf')
  {
    hide Sent;
    assert forall p :: Used(wf', p) == Used(wf, p);
  }

  lemma RoundStops(env: Env, wf: Wf, p: Phase, result: RunResult)
    requires Accounts(env, wf) && Sent(wf.dispatches, FinalReviewerAgent, FinalReview) == wf.attempts
    requires !result.status.Completed?
    ensures EndsAccounted(env, RoundStop(wf, p, result)) && RoundStop(wf, p, result).Stop?
  {
    hide Accounts, Sent, ChargedAsSent;
  }

  lemma {:induction false} CorrectionsStay(env: Env, max: int, s: Scenario, wf: Wf, routed: seq<(FindingId, Phase)>,
                                           todo: seq<Phase>)
    requires InStep(env, wf)
    ensures Stays(env, Corrections(env, max, s, wf, routed, todo))
    decreases |todo|
  {
    hide Refusal, Ran, LastResult, InStep, EndsAccounted, Accounts, Sent, Bridged, CorrectedRows, IdsOf, Resolutions,
         RoundStop;
    if todo != [] {
      var p := todo[0];
      GuardStays(env, wf, CorrectionGate);
      var guarded := Guarded(env, wf, CorrectionGate);
      if guarded.Stop? {
        StopsInStep(env, guarded.wf, guarded.status, guarded.cause, guarded.block);
      } else if Used(wf, p) >= max {
        StopsInStep(env, guarded.wf, Escalated, PhaseMaxIterationsReached(p), None);
      } else if (p, wf.attempts) !in s.corrections {
        StopsInStep(env, guarded.wf, Errored, ScenarioCorrectionMissing, None);
      } else {
        var script := s.corrections[(p, wf.attempts)];
        RanStays(env, guarded.wf, p, Correction(wf.attempts), max - Used(wf, p), script);
        var ran := Ran(env, guarded.wf, p, Correction(wf.attempts), max - Used(wf, p), script);
        var result := LastResult(ran);
        var ids := IdsOf(routed, p);
        if !Bridged(result, set id | id in ids) {
          StopsAfterRound(env, ran, Errored, FinalReviewResolutionTraceIncomplete(p), None);
        } else if !result.status.Completed? {
          RoundStops(env, ran, p, result);
        } else {
          var next := ran.(corrected := ran.corrected + CorrectedRows(wf.attempts, p, ids, Resolutions(result)));
          TableStays(env, ran, next);
          CorrectionsStay(env, max, s, next, routed, todo[1..]);
        }
      }
    }
  }

  lemma {:induction false} RevalidationsStay(env: Env, max: int, s: Scenario, wf: Wf, todo: seq<Phase>)
    requires InStep(env, wf)
    ensures Stays(env, Revalidations(env, max, s, wf, todo))
    decreases |todo|
  {
    hide Refusal, Ran, LastResult, InStep, EndsAccounted, Accounts, Sent, RoundStop;
    if todo != [] {
      var p := todo[0];
      GuardStays(env, wf, RevalidationGate);
      var guarded := Guarded(env, wf, RevalidationGate);
      if guarded.Stop? {
        StopsInStep(env, guarded.wf, guarded.status, guarded.cause, guarded.block);
      } else if Used(wf, p) >= max {
        StopsInStep(env, guarded.wf, Escalated, PhaseMaxIterationsReached(p), None);
      } else if (p, wf.attempts) !in s.revalidations {
        StopsInStep(env, guarded.wf, Errored, ScenarioRevalidationMissing, None);
      } else {
        var script := s.revalidations[(p, wf.attempts)];
        RanStays(env, guarded.wf, p, Revalidation(wf.attempts), max - Used(wf, p), script);
        var ran := Ran(env, guarded.wf, p, Revalidation(wf.attempts), max - Used(wf, p), script);
        var result := LastResult(ran);
        if result.status.Completed? {
          RevalidationsStay(env, max, s, ran, todo[1..]);
        } else {
          RoundStops(env, ran, p, result);
        }
      }
    }
  }

  /** Opening an attempt sends out its Final Reviewer and charges nothing. */
  lemma OpeningStays(env: Env, wf: Wf, d: Dispatch, verdict: Option<bool>)
    requires InStep(env, wf) && d.agent.FinalReviewerAgent? && d.phase.FinalReview?
    ensures InStep(env, wf.(attempts := wf.attempts + 1, dispatches := wf.dispatches + [d], verdict := verdict))
  {
    hide Sent;
    var wf' := wf.(attempts := wf.attempts + 1, dispatches := wf.dispatches + [d], verdict := verdict);
    forall p ensures Used(wf', p) == Used(wf, p)
             ensures Sent(wf'.dispatches, Counted(env), p) == Sent(wf.dispatches, Counted(env), p) {
      SentOneMore(wf.dispatches, d, Counted(env), p);
    }
    SentOneMore(wf.dispatches, d, FinalReviewerAgent, FinalReview);
  }

  lemma FilingStays(env: Env, wf: Wf, wf': Wf)
    requires InStep(env, wf) && wf' == wf.(ledger := wf'.ledger, settled := wf'.settled)
    ensures InStep(env, wf')
  {
    hide Sent;
    assert forall p :: Used(wf', p) == Used(wf, p);
  }

  lemma NoFinalReviewer(env: Env, wf: Wf)
    requires InStep(env, wf)
    ensures EndsAccounted(env, Stop(wf.(attempts := wf.attempts + 1), Errored, ScenarioFinalReviewExhausted, None))
  {
    hide Sent;
    var wf' := wf.(attempts := wf.attempts + 1);
    assert forall p :: Used(wf', p) == Used(wf, p);
    assert ChargedAsSent(env, wf');
  }

  lemma AttemptStays(env: Env, max: int, s: Scenario, wf: Wf)
    requires InStep(env, wf)
    ensures
      var review := Attempt(env, max, s, wf);
      if review.Correct? then InStep(env, review.wf) else EndsAccounted(env, review.flow)
  {
    hide Refusal, FiledReview, Route, AnyBlocking, InStep, EndsAccounted, Sent;
    GuardStays(env, wf, FinalGate);
    var guarded := Guarded(env, wf, FinalGate);
    if guarded.Stop? {
      StopsInStep(env, guarded.wf, guarded.status, guarded.cause, guarded.block);
    } else if wf.attempts + 1 > |s.finals| {
      NoFinalReviewer(env, guarded.wf);
    } else {
      var n := wf.attempts + 1;
      var d := Dispatch(FinalReviewerAgent, FinalReview, n, |guarded.wf.ledger|);
      OpeningStays(env, guarded.wf, d, wf.verdict);
      var begun := guarded.wf.(attempts := n, dispatches := guarded.wf.dispatches + [d], verdict := wf.verdict);
      forall status: Status, cause: Cause, block: Option<Block> | !cause.ScenarioFinalReviewExhausted?
        ensures EndsAccounted(env, Stop(begun, status, cause, block))
      {
        StopsInStep(env, begun, status, cause, block);
      }
      if s.finals[n - 1].FinalOutput? {
        var text := s.finals[n - 1].text;
        OpeningStays(env, guarded.wf, d, Some(text.passes));
        var read := begun.(verdict := Some(text.passes));
        var filed := FiledReview(env, read, text);
        FilingStays(env, read, filed.wf);
        forall status: Status, cause: Cause, block: Option<Block> | !cause.ScenarioFinalReviewExhausted?
          ensures EndsAccounted(env, Stop(filed.wf, status, cause, block))
        {
          StopsInStep(env, filed.wf, status, cause, block);
        }
        FiledCause(env, read, text);
      }
    }
  }

  lemma FiledCause(env: Env, wf: Wf, text: FinalText)
    ensures FiledReview(env, wf, text).Stop? ==> FiledReview(env, wf, text).cause.DecisionRefused?
  {
    hide ParseGateResult, Stamped;
  }

  lemma {:induction false} FinalLoopStays(env: Env, max: int, s: Scenario, wf: Wf)
    requires InStep(env, wf)
    ensures EndsAccounted(env, FinalLoop(env, max, s, wf))
    decreases max - wf.attempts
  {
    hide Attempt, Corrections, Revalidations, Responsible, Owners, Downstream, InStep, EndsAccounted;
    AttemptStays(env, max, s, wf);
    var review := Attempt(env, max, s, wf);
    if review.Correct? {
      var responsible := Responsible(s.phases, Owners(review.routed));
      CorrectionsStay(env, max, s, review.wf, review.routed, responsible);
      var corrected := Corrections(env, max, s, review.wf, review.routed, responsible);
      if corrected.Go? {
        var down := Downstream(env.risk, responsible, s.phases);
        RevalidationsStay(env, max, s, corrected.wf, down);
        var flow := Revalidations(env, max, s, corrected.wf, down);
        if flow.Go? {
          FinalLoopStays(env, max, s, flow.wf);
        }
      }
    }
  }

  lemma NothingSent(env: Env, s: Scenario)
    ensures InStep(env, Opened(env, s))
  {
    hide RunEntryRecord;
  }

  /** Every run, however it ends: each phase was charged exactly for the agents sent out to it, the
      Reviewers above LOW and the Workers at LOW, up to a last round that did not complete, which is
      charged for those that answered, or for nothing when a decision blocked it. */
  lemma ChargesAreTheLog(env: Env, max: int, s: Scenario)
    ensures EndsAccounted(env, RunWorkflow(env, max, s))
  {
    hide PhaseGates, FinalLoop, RunEntryRecord, InStep, EndsAccounted;
    NothingSent(env, s);
    GatesStay(env, max, s, Opened(env, s), s.phases);
    var gated := PhaseGates(env, max, s, Opened(env, s), s.phases);
    if gated.Go? {
      FinalLoopStays(env, max, s, gated.wf);
    }
  }

  /** So in a run that completes no phase was reviewed, or at LOW worked on, more often than `max`. */
  lemma NoPhaseBeyondTheMaximum(env: Env, max: int, s: Scenario, p: Phase)
    requires Distinct(s.phases) && RunWorkflow(env, max, s).status.Completed?
    ensures
      var log := RunWorkflow(env, max, s).wf.dispatches;
      var times := Sent(log, if env.risk == Low then WorkerAgent else ReviewerAgent, p);
      times == Used(RunWorkflow(env, max, s).wf, p) && (times == 0 || times <= max)
  {
    hide RunWorkflow, Sent, GuardsExact, Steady, GoodEntry, Safe;
    ChargesAreTheLog(env, max, s);
    WorkflowKeeps(env, max, s);
  }
}
