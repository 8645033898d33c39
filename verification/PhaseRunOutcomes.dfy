/** How a phase run ends, said of the agents' answers alone: after n - 1 rounds that went round again,
    which status, reason and block each answer of round n leads to, what is dispatched on the way and
    what the finding traces hold. */
module PhaseRunOutcomes {
  import opened Vocabulary
  import opened Sequences
  import opened Gate
  import opened PhaseRun
  import opened PhaseRunFacts
  import opened PhaseRunCompletion

  /** Rounds 1 to n - 1 worked, failed their review and asked for another; at LOW there is one. */
  ghost predicate Reaches(env: Env, script: Script, n: int) {
    && n >= 1 && (env.risk.Low? ==> n == 1)
    && forall i :: 1 <= i < n ==> Works(env, script, i) && Reviews(env, script, i, false)
  }

  /** The agents and iterations of `rounds` full rounds. */
  ghost predicate Alternate(dispatches: seq<Dispatch>, phase: Phase, rounds: nat) {
    && |dispatches| == 2 * rounds
    && forall i | 0 <= i < rounds ::
         && dispatches[2 * i].agent == WorkerAgent && dispatches[2 * i + 1].agent == ReviewerAgent
         && dispatches[2 * i].phase == phase == dispatches[2 * i + 1].phase
         && dispatches[2 * i].iteration == i + 1 == dispatches[2 * i + 1].iteration
  }

  /** The loop at the start of round n, read off the answers. */
  ghost predicate StandsAt(env: Env, phase: Phase, script: Script, ledger: seq<Record>, dispatches: seq<Dispatch>,
                           n: int, st: Loop) {
    && st.iteration == n >= 1 && st.previous == Raised(script, n)
    && |st.workers| == n - 1 <= |script.workers|
    && (forall i | 0 <= i < n - 1 :: script.workers[i] == WorkerOutput(st.workers[i]))
    && st.reviews == seq(n - 1, _ => false)
    && dispatches <= st.dispatches && Alternate(st.dispatches[|dispatches|..], phase, n - 1)
    && ledger <= st.ledger && |st.ledger| == |ledger| + 2 * (n - 1)
  }

  lemma OneMoreRound(before: seq<Dispatch>, phase: Phase, rounds: nat, w: Dispatch, r: Dispatch)
    requires Alternate(before, phase, rounds)
    requires w.agent == WorkerAgent && r.agent == ReviewerAgent && w.phase == phase == r.phase
    requires w.iteration == rounds + 1 == r.iteration
    ensures Alternate(before + [w, r], phase, rounds + 1)
  {
  }

  lemma WorkerPasses(env: Env, phase: Phase, script: Script, st: Loop)
    requires 1 <= st.iteration <= |script.workers| && script.workers[st.iteration - 1].WorkerOutput?
    requires !env.risk.Low? && st.previous == Raised(script, st.iteration) && Works(env, script, st.iteration)
    ensures
      var w := WorkerHalf(env, phase, script, st);
      && w.ToReviewer? && !w.verifying && w.st.iteration == st.iteration && w.st.reviews == st.reviews
      && w.st.workers == st.workers + [script.workers[st.iteration - 1].text]
      && w.st.dispatches == st.dispatches + [Dispatch(WorkerAgent, phase, st.iteration, |st.ledger|)]
      && st.ledger <= w.st.ledger && |w.st.ledger| == |st.ledger| + 1
  {
    hide Stamped, ParseGateResult, KeyOf, AddResolutions, Raised;
  }

  lemma ReviewFails(env: Env, phase: Phase, script: Script, w: Half)
    requires w.ToReviewer? && !w.verifying && Reviews(env, script, w.st.iteration, false)
    ensures
      var turn := ReviewerHalf(env, phase, script, w);
      && turn.Again? && turn.st.iteration == w.st.iteration + 1 && turn.st.reviews == w.st.reviews + [false]
      && turn.st.previous == Raised(script, w.st.iteration + 1) && turn.st.workers == w.st.workers
      && turn.st.dispatches == w.st.dispatches + [Dispatch(ReviewerAgent, phase, w.st.iteration, |w.st.ledger|)]
      && w.st.ledger <= turn.st.ledger && |turn.st.ledger| == |w.st.ledger| + 1
  {
    hide Stamped, ParseGateResult, AddReviews;
  }

  /** One round that goes round again. */
  lemma GoesAgain(env: Env, phase: Phase, script: Script, ledger: seq<Record>, dispatches: seq<Dispatch>, n: int,
                  st: Loop)
    requires !env.risk.Low? && StandsAt(env, phase, script, ledger, dispatches, n, st)
    requires Works(env, script, n) && Reviews(env, script, n, false)
    ensures Round(env, phase, script, st).Again?
    ensures StandsAt(env, phase, script, ledger, dispatches, n + 1, Round(env, phase, script, st).st)
  {
    hide WorkerHalf, ReviewerHalf, Reviews, Raised, Alternate;
    WorkerPasses(env, phase, script, st);
    var half := WorkerHalf(env, phase, script, st);
    ReviewFails(env, phase, script, half);
    var st' := Round(env, phase, script, st).st;
    var w := Dispatch(WorkerAgent, phase, n, |st.ledger|);
    var r := Dispatch(ReviewerAgent, phase, n, |half.st.ledger|);
    assert st'.dispatches == st.dispatches + [w] + [r];
    assert st'.dispatches[|dispatches|..] == st.dispatches[|dispatches|..] + [w, r];
    OneMoreRound(st.dispatches[|dispatches|..], phase, n - 1, w, r);
    assert seq(n - 1, _ => false) + [false] == seq(n, _ => false);
  }

  lemma {:induction false} RunReaches(env: Env, phase: Phase, budget: int, script: Script, ledger: seq<Record>,
                                      dispatches: seq<Dispatch>, n: int) returns (st: Loop)
    requires Reaches(env, script, n) && (n == 1 || n <= budget + 1)
    ensures StandsAt(env, phase, script, ledger, dispatches, n, st)
    ensures RunPhase(env, phase, budget, script, ledger, dispatches) == RunFrom(env, phase, budget, script, st)
    decreases n
  {
    if n == 1 {
      st := Start(ledger, dispatches);
      assert seq(0, _ => false) == [];
    } else {
      var before := RunReaches(env, phase, budget, script, ledger, dispatches, n - 1);
      GoesAgain(env, phase, script, ledger, dispatches, n - 1, before);
      hide StandsAt, WorkerHalf, ReviewerHalf, Round;
      st := Round(env, phase, script, before).st;
    }
  }

  // ---- how the round ends that does not go round again ----

  predicate EndsAs(r: RunResult, n: int, status: Status, reason: RunReason, block: Option<Block>) {
    r.iteration == n && r.status == status && r.reason == reason && r.block == block
  }

  /** An input that could not be used. */
  predicate Refuses(r: RunResult, n: int, reason: Reason) {
    EndsAs(r, n, Stopped, Refused(reason), Some(InputDefect(reason)))
  }

  /** A decision that blocks. */
  predicate BlocksOn(r: RunResult, n: int, state: State, code: Json) {
    EndsAs(r, n, Stopped, Refused(Blocked(state, code)), Some(DecisionBlock(state, code)))
  }

  /** What each answer of round n's Worker leads to, the decision axis before the quality axis; the
      answers that hand on to the Reviewer are not listed. */
  ghost predicate WorkerDecides(env: Env, phase: Phase, raised: set<FindingId>, turn: WorkerTurn, n: int,
                                r: RunResult) {
    match turn
    case WorkerExit(code) => EndsAs(r, n, Errored, WorkerUnexpectedExit(code), None)
    case WorkerMalformed => EndsAs(r, n, Errored, MalformedWorkerOutput, None)
    case WorkerOutput(text) =>
      match ParseGateResult(env.judge, text.body)
      case Err(e) => Refuses(r, n, e)
      case Ok(GateResult(s, record)) =>
        && (Get(record, Verifies) != Null ==> Refuses(r, n, InputUnbound))
        && (Get(record, Verifies) == Null && s in {NeedsInput, Conflict} && env.risk == Low ==>
              BlocksOn(r, n, s, Get(record, ReasonCode)))
        && (Get(record, Verifies) == Null && s in {Clear, AssumptionAllowed} && text.status == WorkBlocked ==>
              EndsAs(r, n, Stopped, WorkerBlocked, None))
        && (Get(record, Verifies) == Null && s in {Clear, AssumptionAllowed} && text.status == WorkComplete
            && env.risk == Low ==>
              if phase !in {Implementation, Bugfix, Refactoring} then EndsAs(r, n, Completed, NoReason, None)
              else match text.unitTest
                   case TestsPass => EndsAs(r, n, Completed, NoReason, None)
                   case TestsBlocked => EndsAs(r, n, Stopped, UnitTestBlocked, None)
                   case NotReported => EndsAs(r, n, Stopped, UnitTestEvidenceMissing, None))
        && (Get(record, Verifies) == Null && (s in {NeedsInput, Conflict} || text.status == WorkComplete)
            && env.risk != Low && raised != {} && text.resolutions.Keys != raised ==>
              EndsAs(r, n, Errored, ResolutionTraceIncomplete, None))
  }

  /** The Worker of iteration i hands its round on to the Reviewer: its declaration is accepted, and
      it blocks or its work is complete with every finding resolved. */
  ghost predicate HandsOn(env: Env, script: Script, i: int) {
    && env.risk != Low && 1 <= i <= |script.workers| && script.workers[i - 1].WorkerOutput?
    && var text := script.workers[i - 1].text;
    match ParseGateResult(env.judge, text.body)
    case Err(_) => false
    case Ok(GateResult(s, record)) =>
      && Get(record, Verifies) == Null
      && (s in {NeedsInput, Conflict} || text.status == WorkComplete)
      && (Raised(script, i) == {} || text.resolutions.Keys == Raised(script, i))
  }

  /** The quality axis, once the declaration was filed. */
  lemma AfterDeclarationDecides(env: Env, phase: Phase, st: Loop, text: WorkerText, g: GateResult, n: int)
    requires ParseGateResult(env.judge, text.body) == Ok(g) && Get(g.record, Verifies) == Null
    requires st.iteration == n && (env.risk.Low? ==> st.previous == {}) && !(g.declared.Blocks() && env.risk.Low?)
    ensures
      var half := AfterDeclaration(env, phase, st, text, g);
      && (half.HalfOver? ==> WorkerDecides(env, phase, st.previous, WorkerOutput(text), n, half.end.result))
      && (half.ToReviewer? <==>
            && env.risk != Low && (g.declared in {NeedsInput, Conflict} || text.status == WorkComplete)
            && (st.previous == {} || text.resolutions.Keys == st.previous))
  {
    hide ParseGateResult, KeyOf, AddResolutions;
  }

  lemma UnusableDecides(env: Env, phase: Phase, raised: set<FindingId>, st: Loop, text: WorkerText)
    requires WorkerGate(env, text.body).Err?
    ensures
      var e := WorkerGate(env, text.body).error;
      WorkerDecides(env, phase, raised, WorkerOutput(text), st.iteration, DecisionBlocked(st, e, InputDefect(e)).result)
  {
    hide ParseGateResult;
  }

  lemma BlockDecides(env: Env, phase: Phase, raised: set<FindingId>, st: Loop, text: WorkerText)
    requires env.risk.Low? && WorkerGate(env, text.body).Ok? && WorkerGate(env, text.body).value.declared.Blocks()
    ensures
      var g := WorkerGate(env, text.body).value;
      var code := Get(g.record, ReasonCode);
      WorkerDecides(env, phase, raised, WorkerOutput(text), st.iteration,
                    DecisionBlocked(st, Gate.Blocked(g.declared, code), DecisionBlock(g.declared, code)).result)
  {
    hide ParseGateResult;
  }

  lemma WorkerDecidesRound(env: Env, phase: Phase, script: Script, st: Loop)
    requires 1 <= st.iteration <= |script.workers| && (env.risk.Low? ==> st.iteration == 1)
    requires st.previous == Raised(script, st.iteration)
    ensures WorkerHalf(env, phase, script, st).HalfOver? ==>
              WorkerDecides(env, phase, Raised(script, st.iteration), script.workers[st.iteration - 1], st.iteration,
                            WorkerHalf(env, phase, script, st).end.result)
    ensures script.workers[st.iteration - 1].WorkerOutput? ==>
              (WorkerHalf(env, phase, script, st).ToReviewer? <==> HandsOn(env, script, st.iteration))
  {
    assert Raised(script, 1) == {};
    hide Stamped, ParseGateResult, Recorded, AfterDeclaration, Raised;
    var turn := script.workers[st.iteration - 1];
    if turn.WorkerOutput? {
      hide WorkerDecides, WorkerGate;
      var raised := Raised(script, st.iteration);
      var st2 := Dispatched(st, WorkerAgent, phase).(workers := st.workers + [turn.text]);
      var gate := WorkerGate(env, turn.text.body);
      HandsOnIff(env, script, st.iteration);
      if gate.Err? {
        UnusableDecides(env, phase, raised, st2, turn.text);
      } else {
        FilingKeeps(env, st2, gate.value.record, phase, WorkerAgent, Str(Raw("")), Null);
        var st3 := Recorded(env, st2, gate.value.record, phase, WorkerAgent, Str(Raw("")), Null);
        if gate.value.declared.Blocks() && env.risk.Low? {
          BlockDecides(env, phase, raised, st3, turn.text);
        } else {
          GateOfDeclaration(env, turn.text.body);
          AfterDeclarationDecides(env, phase, st3, turn.text, gate.value, st.iteration);
        }
      }
      hide HandsOn;
    }
  }

  lemma GateOfDeclaration(env: Env, body: Body)
    requires WorkerGate(env, body).Ok?
    ensures ParseGateResult(env.judge, body) == WorkerGate(env, body)
    ensures Get(WorkerGate(env, body).value.record, Verifies) == Null
  {
    hide ParseGateResult;
  }

  lemma HandsOnIff(env: Env, script: Script, i: int)
    requires 1 <= i <= |script.workers| && script.workers[i - 1].WorkerOutput?
    ensures
      var text := script.workers[i - 1].text;
      var gate := WorkerGate(env, text.body);
      HandsOn(env, script, i) <==>
        && env.risk != Low && gate.Ok?
        && (gate.value.declared in {NeedsInput, Conflict} || text.status == WorkComplete)
        && (Raised(script, i) == {} || text.resolutions.Keys == Raised(script, i))
  {
    hide ParseGateResult, Raised;
  }

  /** Filing a record changes the ledger alone. */
  lemma FilingKeeps(env: Env, st: Loop, record: Record, phase: Phase, agent: Agent, verdict: Json, verifies: Json)
    ensures
      var st' := Recorded(env, st, record, phase, agent, verdict, verifies);
      st' == st.(ledger := st'.ledger)
  {
    hide Stamped;
  }

  // ---- the Reviewer ----

  /** What a verification of the Worker's record must carry, field by field. */
  function BindingOf(env: Env, phase: Phase, n: int, sequence: int): Json {
    var key := LedgerKey(env.run, Str(PhaseName(phase)), Int(n), Str(B2), Int(sequence));
    Obj(map[Run := env.run, Field.Phase := Str(PhaseName(phase)), Iteration := Int(n),
            WorkerRecordKey := Json.Key(key)])
  }

  /** What each answer of round n's Reviewer leads to, once the Worker declared `worker` in the record
      filed under `sequence`; a failed review that asks for another round is not listed. */
  ghost predicate ReviewerDecides(env: Env, phase: Phase, worker: GateResult, sequence: int, turn: ReviewerTurn, n: int,
                                  r: RunResult) {
    match turn
    case ReviewerModified => EndsAs(r, n, Errored, ReviewerModifiedProtectedArtifact, None)
    case ReviewerExit(code) => EndsAs(r, n, Errored, ReviewerUnexpectedExit(code), None)
    case ReviewerMalformed => EndsAs(r, n, Errored, MalformedReviewerOutput, None)
    case ReviewerOutput(text) =>
      if !Distinct(text.findings) || text.passes == (text.findings != []) then
        EndsAs(r, n, Errored, MalformedReviewerOutput, None)
      else match ParseGateResult(env.judge, text.body)
        case Err(e) => Refuses(r, n, e)
        case Ok(GateResult(s, record)) =>
          if worker.declared in {NeedsInput, Conflict} then
            if Get(record, Verifies) != BindingOf(env, phase, n, sequence) then Refuses(r, n, InputUnbound)
            else if s in {NeedsInput, Conflict} then BlocksOn(r, n, s, Get(record, ReasonCode))
            else if env.judge.resolves(worker.declared, s, record) then
              BlocksOn(r, n, worker.declared, Get(worker.record, ReasonCode))
            else EndsAs(r, n, Stopped, Refused(DowngradeRejected),
                        Some(DecisionBlock(worker.declared, Get(worker.record, ReasonCode))))
          else if Get(record, Verifies) != Null then Refuses(r, n, InputUnbound)
          else if s in {NeedsInput, Conflict} then BlocksOn(r, n, s, Get(record, ReasonCode))
          else text.passes && EndsAs(r, n, Completed, NoReason, None)
  }

  lemma BindsExactly(env: Env, phase: Phase, n: int, sequence: int, record: Record)
    ensures
      var key := Json.Key(LedgerKey(env.run, Str(PhaseName(phase)), Int(n), Str(B2), Int(sequence)));
      VerificationBinds(record, key, Settled(env.run, Str(PhaseName(phase)), Int(n)))
      <==> Get(record, Verifies) == BindingOf(env, phase, n, sequence)
  {
    var key := Json.Key(LedgerKey(env.run, Str(PhaseName(phase)), Int(n), Str(B2), Int(sequence)));
    if VerificationBinds(record, key, Settled(env.run, Str(PhaseName(phase)), Int(n))) {
      var m := record[Verifies].members;
      assert m == map[Run := env.run, Field.Phase := Str(PhaseName(phase)), Iteration := Int(n),
                      WorkerRecordKey := key];
    }
  }

  lemma VerdictIff(text: ReviewerText)
    ensures ReviewVerdict(text) == if !Distinct(text.findings) || text.passes == (text.findings != []) then None
                                   else Some(text.passes)
  {
  }

  /** A verification is terminal whatever it says. */
  lemma VerificationDecides(env: Env, phase: Phase, st: Loop, text: ReviewerText, w: Half, sequence: int, g: GateResult)
    requires w.ToReviewer? && w.state.Blocks()
    requires w.key == Json.Key(LedgerKey(env.run, Str(PhaseName(phase)), Int(st.iteration), Str(B2), Int(sequence)))
    requires ReviewVerdict(text).Some? && ParseGateResult(env.judge, text.body) == Ok(g)
    ensures ReviewerDecides(env, phase, GateResult(w.state, w.record), sequence, ReviewerOutput(text), st.iteration,
                            VerifiedTurn(env, phase, st, text.passes, w, g).result)
  {
    BindsExactly(env, phase, st.iteration, sequence, g.record);
    VerdictIff(text);
    hide ParseGateResult, Stamped, VerificationBinds, BindingOf, ReviewVerdict;
  }

  lemma ReviewDecidesRound(env: Env, phase: Phase, st: Loop, text: ReviewerText, worker: GateResult, sequence: int,
                           g: GateResult)
    requires !worker.declared.Blocks() && ReviewVerdict(text).Some? && ParseGateResult(env.judge, text.body) == Ok(g)
    ensures
      var turn := ReviewedTurn(env, phase, st, text, g);
      && (turn.Over? ==>
            ReviewerDecides(env, phase, worker, sequence, ReviewerOutput(text), st.iteration, turn.end.result))
      && (turn.Again? ==> !text.passes && Get(g.record, Verifies) == Null && !g.declared.Blocks())
  {
    VerdictIff(text);
    hide ParseGateResult, Stamped, ReviewVerdict, AddReviews;
  }

  lemma ReviewerDecidesRound(env: Env, phase: Phase, script: Script, w: Half, sequence: int)
    requires w.ToReviewer? && 1 <= w.st.iteration <= |script.reviewers| && (w.verifying <==> w.state.Blocks())
    requires w.key == Json.Key(LedgerKey(env.run, Str(PhaseName(phase)), Int(w.st.iteration), Str(B2), Int(sequence)))
    ensures
      var turn := ReviewerHalf(env, phase, script, w);
      && (turn.Over? ==>
            ReviewerDecides(env, phase, GateResult(w.state, w.record), sequence, script.reviewers[w.st.iteration - 1],
                            w.st.iteration, turn.end.result))
      && (turn.Again? ==> !w.verifying && Reviews(env, script, w.st.iteration, false))
  {
    hide ParseGateResult, VerifiedTurn, ReviewedTurn, ReviewVerdict;
    var turn := script.reviewers[w.st.iteration - 1];
    if turn.ReviewerOutput? {
      var text := turn.text;
      var st2 := Dispatched(w.st, ReviewerAgent, phase).(reviews := w.st.reviews + [text.passes]);
      VerdictIff(text);
      match ParseGateResult(env.judge, text.body) {
        case Err(_) =>
        case Ok(g) =>
          if ReviewVerdict(text).Some? {
            hide ReviewerDecides;
            if w.verifying {
              VerificationDecides(env, phase, st2, text, w, sequence, g);
            } else {
              ReviewDecidesRound(env, phase, st2, text, GateResult(w.state, w.record), sequence, g);
            }
          }
      }
    }
  }

  // ---- the whole run ----

  /** What the Worker of iteration n declared; of interest where it declared something. */
  function Declared(env: Env, script: Script, n: int): GateResult {
    var none := GateResult(Clear, map[]);
    if 1 <= n <= |script.workers| && script.workers[n - 1].WorkerOutput? then
      match ParseGateResult(env.judge, script.workers[n - 1].text.body)
      case Ok(g) => g
      case Err(_) => none
    else none
  }

  lemma HandedOver(env: Env, phase: Phase, script: Script, st: Loop)
    requires WorkerHalf(env, phase, script, st).ToReviewer?
    ensures
      var w := WorkerHalf(env, phase, script, st);
      var n := st.iteration;
      && GateResult(w.state, w.record) == Declared(env, script, n) && (w.verifying <==> w.state.Blocks())
      && w.key == Json.Key(LedgerKey(env.run, Str(PhaseName(phase)), Int(n), Str(B2), Int(|st.ledger|)))
  {
    hide ParseGateResult, AddResolutions;
    var turn := script.workers[st.iteration - 1];
    var st2 := Dispatched(st, WorkerAgent, phase).(workers := st.workers + [turn.text]);
    var g := WorkerGate(env, turn.text.body).value;
    FiledKey(env, st2, g.record, phase);
    FilingKeeps(env, st2, g.record, phase, WorkerAgent, Str(Raw("")), Null);
    hide Recorded, KeyOf;
  }

  lemma FiledKey(env: Env, st: Loop, record: Record, phase: Phase)
    ensures
      LastKey(Recorded(env, st, record, phase, WorkerAgent, Str(Raw("")), Null))
      == Json.Key(LedgerKey(env.run, Str(PhaseName(phase)), Int(st.iteration), Str(B2), Int(|st.ledger|)))
  {
    var s := Slot(phase, st.iteration, WorkerAgent, Str(Raw("")), Null, |st.ledger|);
    StampedFields(env, record, s);
    hide Stamped;
  }

  /** The round asks for another: its Worker worked and its review failed. */
  ghost predicate AsksAgain(env: Env, script: Script, n: int) {
    env.risk != Low && Works(env, script, n) && Reviews(env, script, n, false)
  }

  /** A run that reaches iteration n within its budget and does not go round again ends as round n's
      answers decide, whatever ledger it extends. */
  lemma PhaseEndsAs(env: Env, phase: Phase, budget: int, script: Script, ledger: seq<Record>, dispatches: seq<Dispatch>,
                    n: int)
    requires Reaches(env, script, n) && n <= budget && !AsksAgain(env, script, n)
    ensures
      var r := RunPhase(env, phase, budget, script, ledger, dispatches).result;
      && (n > |script.workers| ==> EndsAs(r, n, Errored, WorkerExhausted, None))
      && (n <= |script.workers| && !HandsOn(env, script, n) ==>
            WorkerDecides(env, phase, Raised(script, n), script.workers[n - 1], n, r))
      && (HandsOn(env, script, n) && n > |script.reviewers| ==> EndsAs(r, n, Errored, ReviewerExhausted, None))
      && (HandsOn(env, script, n) && n <= |script.reviewers| ==>
            ReviewerDecides(env, phase, Declared(env, script, n), |ledger| + 2 * (n - 1), script.reviewers[n - 1], n,
                            r))
  {
    hide ParseGateResult, WorkerDecides, ReviewerDecides, Works, Reviews, Raised, WorkerHalf, ReviewerHalf, HandsOn,
         EndsAs, StandsAt, AsksAgain, RunFrom, Round;
    var st := RunReaches(env, phase, budget, script, ledger, dispatches, n);
    StandingIs(env, phase, script, ledger, dispatches, n, st);
    RoundEndsAs(env, phase, script, st);
    OverEndsTheRun(env, phase, budget, script, st);
  }

  lemma StandingIs(env: Env, phase: Phase, script: Script, ledger: seq<Record>, dispatches: seq<Dispatch>, n: int,
                   st: Loop)
    requires StandsAt(env, phase, script, ledger, dispatches, n, st)
    ensures st.iteration == n && st.previous == Raised(script, n) && |st.ledger| == |ledger| + 2 * (n - 1)
  {
  }

  lemma OverEndsTheRun(env: Env, phase: Phase, budget: int, script: Script, st: Loop)
    requires st.iteration <= budget && Round(env, phase, script, st).Over?
    ensures RunFrom(env, phase, budget, script, st) == Round(env, phase, script, st).end
  {
    hide WorkerHalf, ReviewerHalf;
  }

  lemma NoAnswer(env: Env, phase: Phase, script: Script, st: Loop)
    requires st.iteration >= 1
    ensures st.iteration > |script.workers| ==>
              var half := WorkerHalf(env, phase, script, st);
              half.HalfOver? && EndsAs(half.end.result, st.iteration, Errored, WorkerExhausted, None)
    ensures
      var half := WorkerHalf(env, phase, script, st);
      half.ToReviewer? && st.iteration > |script.reviewers| ==>
        var turn := ReviewerHalf(env, phase, script, half);
        turn.Over? && EndsAs(turn.end.result, st.iteration, Errored, ReviewerExhausted, None)
  {
    hide ParseGateResult, AfterDeclaration, Recorded;
  }

  lemma UnansweredHandsNothingOn(env: Env, script: Script, n: int)
    requires !(1 <= n <= |script.workers| && script.workers[n - 1].WorkerOutput?)
    ensures !HandsOn(env, script, n)
  {
  }

  lemma UnansweredIsOver(env: Env, phase: Phase, script: Script, st: Loop)
    requires !(1 <= st.iteration <= |script.workers| && script.workers[st.iteration - 1].WorkerOutput?)
    ensures WorkerHalf(env, phase, script, st).HalfOver?
  {
    hide WorkerGate, AfterDeclaration, Recorded;
  }

  lemma RoundEndsAs(env: Env, phase: Phase, script: Script, st: Loop)
    requires st.iteration >= 1 && (env.risk.Low? ==> st.iteration == 1)
    requires st.previous == Raised(script, st.iteration) && !AsksAgain(env, script, st.iteration)
    ensures
      var n, turn := st.iteration, Round(env, phase, script, st);
      && turn.Over?
      && var r := turn.end.result;
      && (n > |script.workers| ==> EndsAs(r, n, Errored, WorkerExhausted, None))
      && (n <= |script.workers| && !HandsOn(env, script, n) ==>
            WorkerDecides(env, phase, Raised(script, n), script.workers[n - 1], n, r))
      && (HandsOn(env, script, n) && n > |script.reviewers| ==> EndsAs(r, n, Errored, ReviewerExhausted, None))
      && (HandsOn(env, script, n) && n <= |script.reviewers| ==>
            ReviewerDecides(env, phase, Declared(env, script, n), |st.ledger|, script.reviewers[n - 1], n, r))
  {
    hide ParseGateResult, WorkerDecides, ReviewerDecides, Works, Reviews, Raised, WorkerHalf, ReviewerHalf, HandsOn,
         EndsAs, AsksAgain, Declared;
    NoAnswer(env, phase, script, st);
    HandsOnExactly(env, phase, script, st);
    if HandsOn(env, script, st.iteration) {
      if st.iteration <= |script.reviewers| {
        ReviewEndsAs(env, phase, script, st);
      }
    } else if st.iteration <= |script.workers| {
      WorkerDecidesRound(env, phase, script, st);
    }
  }

  lemma HandsOnExactly(env: Env, phase: Phase, script: Script, st: Loop)
    requires st.iteration >= 1 && (env.risk.Low? ==> st.iteration == 1) && st.previous == Raised(script, st.iteration)
    ensures WorkerHalf(env, phase, script, st).ToReviewer? <==> HandsOn(env, script, st.iteration)
  {
    hide ParseGateResult, WorkerDecides, Raised, EndsAs, HandsOn, WorkerHalf;
    var n := st.iteration;
    if n > |script.workers| || !script.workers[n - 1].WorkerOutput? {
      UnansweredHandsNothingOn(env, script, n);
      UnansweredIsOver(env, phase, script, st);
    } else {
      WorkerDecidesRound(env, phase, script, st);
    }
  }

  lemma ReviewEndsAs(env: Env, phase: Phase, script: Script, st: Loop)
    requires st.iteration >= 1 && st.previous == Raised(script, st.iteration)
    requires WorkerHalf(env, phase, script, st).ToReviewer? && HandsOn(env, script, st.iteration)
    requires st.iteration <= |script.reviewers| && !AsksAgain(env, script, st.iteration)
    ensures
      var turn := ReviewerHalf(env, phase, script, WorkerHalf(env, phase, script, st));
      && turn.Over?
      && ReviewerDecides(env, phase, Declared(env, script, st.iteration), |st.ledger|,
                         script.reviewers[st.iteration - 1], st.iteration, turn.end.result)
  {
    hide ParseGateResult, ReviewerDecides, Works, Reviews, Raised, WorkerHalf, ReviewerHalf, Declared, HandsOn;
    HandedOver(env, phase, script, st);
    WorksIff(env, phase, script, st);
    ReviewerDecidesRound(env, phase, script, WorkerHalf(env, phase, script, st), |st.ledger|);
  }

  lemma WorksIff(env: Env, phase: Phase, script: Script, st: Loop)
    requires WorkerHalf(env, phase, script, st).ToReviewer? && st.previous == Raised(script, st.iteration)
    ensures !WorkerHalf(env, phase, script, st).verifying <==> Works(env, script, st.iteration)
    ensures !env.risk.Low?
  {
    hide ParseGateResult, AddResolutions, Raised, Stamped, KeyOf;
  }

  /** A run all of whose rounds asked for another ends with its budget. */
  lemma PhaseEscalates(env: Env, phase: Phase, budget: int, script: Script, ledger: seq<Record>,
                       dispatches: seq<Dispatch>, n: int)
    requires Reaches(env, script, n) && n == (if budget < 0 then 0 else budget) + 1
    ensures EndsAs(RunPhase(env, phase, budget, script, ledger, dispatches).result, budget, Escalated,
                   MaxIterationsReached, None)
  {
    var st := RunReaches(env, phase, budget, script, ledger, dispatches, n);
  }

  /** Every run is one of these, at exactly one n. */
  lemma EveryRunEnds(env: Env, budget: int, script: Script) returns (n: int)
    ensures Reaches(env, script, n)
    ensures (n <= budget && !AsksAgain(env, script, n)) || n == (if budget < 0 then 0 else budget) + 1
  {
    hide AsksAgain, Works, Reviews;
    n := 1;
    while n <= budget && AsksAgain(env, script, n)
      invariant Reaches(env, script, n) && (n <= budget + 1 || n == 1)
      decreases budget - n
    {
      assert env.risk != Low && Works(env, script, n) && Reviews(env, script, n, false) by {
        Again(env, script, n);
      }
      n := n + 1;
    }
  }

  lemma Again(env: Env, script: Script, n: int)
    ensures AsksAgain(env, script, n) ==> env.risk != Low && Works(env, script, n) && Reviews(env, script, n, false)
  {
  }
}
