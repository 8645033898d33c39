/** What a phase run writes down, read off the agents' answers: every ledger record, field by field,
    and every finding's history with the texts that answered it. */
module PhaseRunRecords {
  import opened Vocabulary
  import opened Sequences
  import opened Gate
  import opened PhaseRun
  import opened PhaseRunFacts
  import opened PhaseRunCompletion
  import opened PhaseRunTraces
  import opened PhaseRunOutcomes

  // ---- published records ----

  /** The fields the harness writes itself, and those it fills in when an agent left them out. */
  const WRITTEN: set<Field> := {
    LedgerSchemaVersion, Run, Field.Phase, Iteration, Role, Source, Boundary, Verdict, Verifies,
    PriorOpenDecisionItems, RecordedAt, SourceBinding, Sequence}
  const FILLED: set<Field> := {ResponsiblePhase, Evidence, Assumption, OpenItem}

  /** `r` is what an agent declared, published: every field its own but for those the harness writes. */
  ghost predicate Publishes(env: Env, r: Record, declared: Record, phase: Phase, iteration: int, agent: Agent,
                            verdict: string, sequence: nat) {
    && r.Keys == declared.Keys + WRITTEN + FILLED
    && (forall f :: f in declared && f !in WRITTEN ==> r[f] == declared[f])
    && (ResponsiblePhase !in declared ==> r[ResponsiblePhase] == Str(PhaseName(phase)))
    && (Evidence !in declared ==> r[Evidence] == Obj(map[]))
    && (Assumption !in declared ==> r[Assumption] == Null) && (OpenItem !in declared ==> r[OpenItem] == Null)
    && Written(env, r, Get(declared, Verifies), phase, iteration, agent, verdict, sequence)
  }

  /** What the harness writes. */
  predicate Written(env: Env, r: Record, verifies: Json, phase: Phase, iteration: int, agent: Agent, verdict: string,
                    sequence: nat) {
    var worker := agent == WorkerAgent;
    && Get(r, LedgerSchemaVersion) == Int(1) && Get(r, Run) == env.run
    && Get(r, Field.Phase) == Str(PhaseName(phase)) && Get(r, Iteration) == Int(iteration)
    && Get(r, Role) == Str(if worker then Worker else Reviewer)
    && Get(r, Source) == Str(if worker then Worker else Reviewer)
    && Get(r, Boundary) == Str(if worker then B2 else B3)
    && Get(r, Verdict) == Str(Raw(verdict)) && Get(r, Verifies) == verifies
    && Get(r, PriorOpenDecisionItems) == List([]) && Get(r, RecordedAt) == env.published(sequence)
    && Get(r, SourceBinding) == env.artifact(agent, phase) && Get(r, Sequence) == Int(sequence)
  }

  lemma StampsWritten(env: Env, s: Slot, verdict: string)
    requires s.verdict == Str(Raw(verdict))
    ensures Stamps(env, s).Keys == WRITTEN
    ensures Written(env, Stamps(env, s), s.verifies, s.phase, s.iteration, s.agent, verdict, s.sequence)
  {
    var m := Stamps(env, s);
    assert LedgerSchemaVersion in m && Run in m && Field.Phase in m && Iteration in m && Role in m && Source in m
           && Boundary in m && Verdict in m && Verifies in m && PriorOpenDecisionItems in m && RecordedAt in m
           && SourceBinding in m && Sequence in m;
  }

  lemma WrittenOver(env: Env, under: Record, m: Record, verifies: Json, phase: Phase, iteration: int, agent: Agent,
                    verdict: string, sequence: nat)
    requires m.Keys == WRITTEN && Written(env, m, verifies, phase, iteration, agent, verdict, sequence)
    ensures Written(env, under + m, verifies, phase, iteration, agent, verdict, sequence)
  {
    forall f | f in WRITTEN ensures Get(under + m, f) == Get(m, f) {
    }
  }

  lemma StampedPublishes(env: Env, declared: Record, s: Slot, verdict: string)
    requires s.verdict == Str(Raw(verdict)) && s.verifies == Get(declared, Verifies)
    ensures Publishes(env, Stamped(env, declared, s), declared, s.phase, s.iteration, s.agent, verdict, s.sequence)
  {
    var m, d := Stamps(env, s), Defaults(s);
    StampsWritten(env, s, verdict);
    WrittenOver(env, d + declared, m, s.verifies, s.phase, s.iteration, s.agent, verdict, s.sequence);
    DefaultsAre(s);
    FieldsApart();
    hide Stamps, Defaults, Written, WRITTEN, FILLED;
    Overlaid(d, declared, m);
  }

  lemma Overlaid(d: Record, declared: Record, m: Record)
    requires d.Keys == FILLED && m.Keys == WRITTEN && FILLED !! WRITTEN
    ensures
      var r := d + declared + m;
      && r.Keys == declared.Keys + WRITTEN + FILLED
      && (forall f :: f in declared && f !in WRITTEN ==> r[f] == declared[f])
      && (forall f :: f in FILLED && f !in declared ==> r[f] == d[f])
  {
    hide WRITTEN, FILLED;
  }

  lemma FieldsApart()
    ensures FILLED !! WRITTEN && FILLED == {ResponsiblePhase, Evidence, Assumption, OpenItem}
  {
  }

  lemma DefaultsAre(s: Slot)
    ensures
      var d := Defaults(s);
      && d.Keys == FILLED
      && d[ResponsiblePhase] == Str(PhaseName(s.phase)) && d[Evidence] == Obj(map[])
      && d[Assumption] == Null && d[OpenItem] == Null
  {
  }

  // ---- the ledger ----

  /** Record k of those a run adds is its agent's declaration of round k / 2 + 1, the Worker's before
      the Reviewer's. */
  ghost predicate IsRecordOf(env: Env, phase: Phase, script: Script, k: nat, r: Record, sequence: nat) {
    var i := k / 2;
    if k % 2 == 0 then
      && i < |script.workers| && script.workers[i].WorkerOutput?
      && var read := ParseGateResult(env.judge, script.workers[i].text.body);
      && read.Ok? && Publishes(env, r, read.value.record, phase, i + 1, WorkerAgent, "", sequence)
    else
      && i < |script.reviewers| && script.reviewers[i].ReviewerOutput?
      && var text := script.reviewers[i].text;
      && var read := ParseGateResult(env.judge, text.body);
      && read.Ok?
      && Publishes(env, r, read.value.record, phase, i + 1, ReviewerAgent, if text.passes then "PASS" else "FAIL",
                   sequence)
  }

  /** `ledger` was grown from its first `base` records by such declarations alone. */
  ghost predicate RecordsTheRun(env: Env, phase: Phase, script: Script, base: nat, ledger: seq<Record>) {
    && base <= |ledger|
    && forall j | base <= j < |ledger| :: IsRecordOf(env, phase, script, j - base, ledger[j], j)
  }

  lemma OneMoreRecord(env: Env, phase: Phase, script: Script, base: nat, ledger: seq<Record>, r: Record)
    requires RecordsTheRun(env, phase, script, base, ledger)
    requires IsRecordOf(env, phase, script, |ledger| - base, r, |ledger|)
    ensures RecordsTheRun(env, phase, script, base, ledger + [r])
  {
    hide IsRecordOf;
  }

  /** The record a Worker's half may file. */
  function WorkerRecord(env: Env, phase: Phase, st: Loop, declared: Record): Record {
    Stamped(env, declared, Slot(phase, st.iteration, WorkerAgent, Str(Raw("")), Get(declared, Verifies), |st.ledger|))
  }

  lemma WorkerFiles(env: Env, phase: Phase, script: Script, st: Loop)
    requires st.iteration >= 1
    ensures
      var i := st.iteration - 1;
      var half := WorkerHalf(env, phase, script, st);
      var after := if half.HalfOver? then half.end.ledger else half.st.ledger;
      && (half.ToReviewer? ==> after != st.ledger)
      && (after != st.ledger ==>
            && i < |script.workers| && script.workers[i].WorkerOutput?
            && var read := ParseGateResult(env.judge, script.workers[i].text.body);
            && read.Ok? && after == st.ledger + [WorkerRecord(env, phase, st, read.value.record)])
  {
    hide Stamped, ParseGateResult, KeyOf, AddResolutions;
  }

  lemma WorkerRecords(env: Env, phase: Phase, script: Script, base: nat, st: Loop)
    requires RecordsTheRun(env, phase, script, base, st.ledger)
    requires st.iteration >= 1 && |st.ledger| == base + 2 * (st.iteration - 1)
    ensures
      match WorkerHalf(env, phase, script, st)
      case HalfOver(end) => RecordsTheRun(env, phase, script, base, end.ledger) && st.ledger <= end.ledger
      case ToReviewer(st', _, _, _, _) =>
        && RecordsTheRun(env, phase, script, base, st'.ledger) && st.ledger <= st'.ledger
        && |st'.ledger| == |st.ledger| + 1
  {
    hide Stamped, ParseGateResult, Publishes, RecordsTheRun, WorkerHalf;
    var i := st.iteration - 1;
    WorkerFiles(env, phase, script, st);
    if i < |script.workers| && script.workers[i].WorkerOutput? {
      var read := ParseGateResult(env.judge, script.workers[i].text.body);
      if read.Ok? {
        var s := Slot(phase, st.iteration, WorkerAgent, Str(Raw("")), Get(read.value.record, Verifies), |st.ledger|);
        StampedPublishes(env, read.value.record, s, "");
        assert (2 * i) / 2 == i && (2 * i) % 2 == 0;
        OneMoreRecord(env, phase, script, base, st.ledger, Stamped(env, read.value.record, s));
      }
    }
  }

  /** The record a Reviewer's half may file. */
  function ReviewerRecord(env: Env, phase: Phase, w: Half, text: ReviewerText, declared: Record): Record
    requires w.ToReviewer?
  {
    Stamped(env, declared, Slot(phase, w.st.iteration, ReviewerAgent, VerdictText(text.passes),
                                Get(declared, Verifies), |w.st.ledger|))
  }

  lemma ReviewerFiles(env: Env, phase: Phase, script: Script, w: Half)
    requires w.ToReviewer? && w.st.iteration >= 1
    ensures
      var i := w.st.iteration - 1;
      var turn := ReviewerHalf(env, phase, script, w);
      var after := if turn.Over? then turn.end.ledger else turn.st.ledger;
      && (turn.Again? ==> after != w.st.ledger)
      && (after != w.st.ledger ==>
            && i < |script.reviewers| && script.reviewers[i].ReviewerOutput?
            && var text := script.reviewers[i].text;
            && ParseGateResult(env.judge, text.body).Ok?
            && after == w.st.ledger
                        + [ReviewerRecord(env, phase, w, text, ParseGateResult(env.judge, text.body).value.record)])
  {
    hide Stamped, ParseGateResult, AddReviews, EvaluateVerification;
  }

  lemma ReviewerRecords(env: Env, phase: Phase, script: Script, base: nat, w: Half)
    requires w.ToReviewer? && RecordsTheRun(env, phase, script, base, w.st.ledger)
    requires w.st.iteration >= 1 && |w.st.ledger| == base + 2 * (w.st.iteration - 1) + 1
    ensures
      match ReviewerHalf(env, phase, script, w)
      case Over(end) => RecordsTheRun(env, phase, script, base, end.ledger) && w.st.ledger <= end.ledger
      case Again(st') =>
        && RecordsTheRun(env, phase, script, base, st'.ledger) && w.st.ledger <= st'.ledger
        && |st'.ledger| == |w.st.ledger| + 1
  {
    hide Stamped, ParseGateResult, Publishes, RecordsTheRun, ReviewerHalf;
    var i := w.st.iteration - 1;
    ReviewerFiles(env, phase, script, w);
    if i < |script.reviewers| && script.reviewers[i].ReviewerOutput? {
      var text := script.reviewers[i].text;
      var read := ParseGateResult(env.judge, text.body);
      if read.Ok? {
        var s := Slot(phase, w.st.iteration, ReviewerAgent, VerdictText(text.passes), Get(read.value.record, Verifies),
                      |w.st.ledger|);
        StampedPublishes(env, read.value.record, s, if text.passes then "PASS" else "FAIL");
        assert (2 * i + 1) / 2 == i && (2 * i + 1) % 2 == 1;
        OneMoreRecord(env, phase, script, base, w.st.ledger, Stamped(env, read.value.record, s));
      }
    }
  }

  lemma {:induction false} LedgerFrom(env: Env, phase: Phase, budget: int, script: Script, base: nat, st: Loop)
    requires RecordsTheRun(env, phase, script, base, st.ledger)
    requires st.iteration >= 1 && |st.ledger| == base + 2 * (st.iteration - 1)
    ensures RecordsTheRun(env, phase, script, base, RunFrom(env, phase, budget, script, st).ledger)
    ensures st.ledger <= RunFrom(env, phase, budget, script, st).ledger
    decreases budget - st.iteration
  {
    hide WorkerHalf, ReviewerHalf, RecordsTheRun;
    if st.iteration <= budget {
      WorkerRecords(env, phase, script, base, st);
      var half := WorkerHalf(env, phase, script, st);
      if half.ToReviewer? {
        ReviewerRecords(env, phase, script, base, half);
        var turn := ReviewerHalf(env, phase, script, half);
        if turn.Again? {
          LedgerFrom(env, phase, budget, script, base, turn.st);
        }
      }
    }
  }

  /** Every record a phase run adds to the ledger is the accepted declaration of the agent whose turn it
      was, in the order of the turns, published under the next sequence number; what was there stays. */
  lemma LedgerIsWhatWasDeclared(env: Env, phase: Phase, budget: int, script: Script, ledger: seq<Record>,
                                dispatches: seq<Dispatch>)
    ensures
      var after := RunPhase(env, phase, budget, script, ledger, dispatches).ledger;
      && ledger <= after
      && forall j | |ledger| <= j < |after| :: IsRecordOf(env, phase, script, j - |ledger|, after[j], j)
  {
    LedgerFrom(env, phase, budget, script, |ledger|, Start(ledger, dispatches));
    hide RunFrom, IsRecordOf;
  }

  // ---- the findings' histories ----

  /** The iterations, of the first n, whose review raised `f`. */
  function RaisedUpTo(script: Script, f: FindingId, n: nat): seq<int> {
    if n == 0 then [] else RaisedUpTo(script, f, n - 1) + if f in Raised(script, n + 1) then [n] else []
  }

  /** The answers of the first n Workers to `f`, each to the review before it. */
  function AnsweredUpTo(script: Script, f: FindingId, n: nat): seq<(int, string)> {
    if n == 0 then []
    else
      AnsweredUpTo(script, f, n - 1)
      + if f in Raised(script, n) && n <= |script.workers| && script.workers[n - 1].WorkerOutput?
           && f in script.workers[n - 1].text.resolutions
        then [(n, script.workers[n - 1].text.resolutions[f])] else []
  }

  /** After `reviews` reviews and `answers` answers every finding raised has its whole history: first
      raised in its first review, then each time, with each answer as the Worker gave it. */
  ghost predicate Histories(script: Script, traces: Traces, reviews: nat, answers: nat) {
    forall f ::
      && (f in traces <==> RaisedUpTo(script, f, reviews) != [])
      && (f in traces ==>
            var raised := RaisedUpTo(script, f, reviews);
            traces[f] == Trace(raised[0], raised, AnsweredUpTo(script, f, answers)))
  }

  lemma {:induction false} NothingToAnswer(script: Script, f: FindingId, n: nat)
    requires n > 0 && RaisedUpTo(script, f, n - 1) == []
    ensures AnsweredUpTo(script, f, n) == []
  {
    hide Raised;
    if n > 1 {
      NothingToAnswer(script, f, n - 1);
    } else {
      assert f !in Raised(script, 1) by { NothingRaisedBefore(script); }
    }
  }

  lemma NothingRaisedBefore(script: Script)
    ensures Raised(script, 1) == {}
  {
  }

  lemma AnswersJoin(script: Script, traces: Traces, n: nat)
    requires 1 <= n <= |script.workers| && script.workers[n - 1].WorkerOutput?
    requires Histories(script, traces, n - 1, n - 1)
    requires Raised(script, n) != {} ==> script.workers[n - 1].text.resolutions.Keys == Raised(script, n)
    ensures
      var traces' := if Raised(script, n) == {} then traces
                     else AddResolutions(traces, script.workers[n - 1].text.resolutions, n);
      Histories(script, traces', n - 1, n)
  {
    hide Raised, RaisedUpTo;
  }

  lemma ReviewJoins(script: Script, traces: Traces, n: nat)
    requires 1 <= n <= |script.reviewers| && script.reviewers[n - 1].ReviewerOutput?
    requires Histories(script, traces, n - 1, n) && Distinct(script.reviewers[n - 1].text.findings)
    ensures Histories(script, AddReviews(traces, script.reviewers[n - 1].text.findings, n), n, n)
  {
    var findings := script.reviewers[n - 1].text.findings;
    assert forall f :: f in Raised(script, n + 1) <==> f in findings;
    AddReviewsIs(traces, findings, n);
    hide Raised, AddReviews, AnsweredUpTo, Distinct;
    var traces' := AddReviews(traces, findings, n);
    forall f
      ensures f in traces' <==> RaisedUpTo(script, f, n) != []
      ensures f in traces' ==>
                traces'[f] == Trace(RaisedUpTo(script, f, n)[0], RaisedUpTo(script, f, n), AnsweredUpTo(script, f, n))
    {
      assert f in traces' <==> f in traces || f in findings by {
        assert f in Members(findings) <==> f in findings;
      }
      if f !in traces {
        NothingToAnswer(script, f, n);
      }
    }
  }

  lemma WorkerTraces(env: Env, phase: Phase, script: Script, st: Loop)
    requires st.iteration >= 1 && st.previous == Raised(script, st.iteration)
    ensures
      var n, half := st.iteration, WorkerHalf(env, phase, script, st);
      half.ToReviewer? || half.end.result.status.Completed? ==>
        && n <= |script.workers| && script.workers[n - 1].WorkerOutput?
        && var text := script.workers[n - 1].text;
        && (Raised(script, n) != {} ==> text.resolutions.Keys == Raised(script, n))
        && (if half.ToReviewer? then half.st.traces else half.end.result.traces)
           == if Raised(script, n) == {} then st.traces else AddResolutions(st.traces, text.resolutions, n)
  {
    hide Stamped, ParseGateResult, KeyOf, AddResolutions, Raised;
  }

  lemma ReviewerTraces(env: Env, phase: Phase, script: Script, w: Half)
    requires w.ToReviewer? && w.st.iteration >= 1
    ensures
      var n := w.st.iteration;
      match ReviewerHalf(env, phase, script, w)
      case Over(end) => end.result.status.Completed? ==> end.result.traces == w.st.traces
      case Again(st') =>
        && n <= |script.reviewers| && script.reviewers[n - 1].ReviewerOutput?
        && var findings := script.reviewers[n - 1].text.findings;
        && Distinct(findings) && st'.traces == AddReviews(w.st.traces, findings, n)
        && st'.previous == Raised(script, n + 1)
  {
    hide Stamped, ParseGateResult, AddReviews, EvaluateVerification, VerificationBinds;
  }

  lemma {:induction false} HistoriesFrom(env: Env, phase: Phase, budget: int, script: Script, st: Loop)
    requires 1 <= st.iteration && (st.iteration <= budget + 1 || st.iteration == 1)
    requires st.previous == Raised(script, st.iteration)
    requires Histories(script, st.traces, st.iteration - 1, st.iteration - 1)
    ensures
      var r := RunFrom(env, phase, budget, script, st).result;
      && (r.status.Completed? ==> r.iteration >= 1 && Histories(script, r.traces, r.iteration - 1, r.iteration))
      && (r.status.Escalated? ==>
            var n := if budget < 0 then 0 else budget;
            Histories(script, r.traces, n, n))
    decreases budget - st.iteration
  {
    hide WorkerHalf, ReviewerHalf, Raised, Histories, AddReviews, AddResolutions, Distinct;
    if st.iteration <= budget {
      var n := st.iteration;
      CompletesWhereItIs(env, phase, script, st);
      WorkerTraces(env, phase, script, st);
      var half := WorkerHalf(env, phase, script, st);
      if half.ToReviewer? || half.end.result.status.Completed? {
        AnswersJoin(script, st.traces, n);
      }
      if half.ToReviewer? {
        WorkerStaysInIteration(env, phase, script, st);
        ReviewerTraces(env, phase, script, half);
        var turn := ReviewerHalf(env, phase, script, half);
        if turn.Again? {
          ReviewJoins(script, half.st.traces, n);
          HistoriesFrom(env, phase, budget, script, turn.st);
        }
      }
    }
  }

  lemma NoHistoryYet(script: Script)
    ensures Histories(script, map[], 0, 0)
  {
  }

  /** When a phase completes, and when its budget runs out, its traces hold exactly what its reviews
      raised and its Workers answered: every finding from its first review on, and nothing else. */
  lemma TracesAreWhatWasSaid(env: Env, phase: Phase, budget: int, script: Script, ledger: seq<Record>,
                             dispatches: seq<Dispatch>)
    ensures
      var r := RunPhase(env, phase, budget, script, ledger, dispatches).result;
      && (r.status.Completed? ==> r.iteration >= 1 && Histories(script, r.traces, r.iteration - 1, r.iteration))
      && (r.status.Escalated? ==>
            var n := if budget < 0 then 0 else budget;
            Histories(script, r.traces, n, n))
  {
    NothingRaisedBefore(script);
    NoHistoryYet(script);
    hide Raised, RunFrom, Histories;
    HistoriesFrom(env, phase, budget, script, Start(ledger, dispatches));
  }
}
