/** How much of a phase's run depends on the ledger it extends, its budget and its risk level. */
module PhaseRunRisk {
  import opened Vocabulary
  import opened Gate
  import opened PhaseRun
  import opened PhaseRunFacts
  import opened PhaseRunTraces

  /** The same agents under the same judge, both with a Reviewer in the loop. */
  ghost predicate Comparable(a: Env, b: Env) {
    a.judge == b.judge && a.run == b.run && !a.risk.Low? && !b.risk.Low?
  }

  /** Beyond their first `m` and `n` records, the two ledgers carry reason codes alike. */
  predicate CarryAlike(a: seq<Record>, m: nat, b: seq<Record>, n: nat) {
    && m <= |a| && n <= |b| && |a| - m == |b| - n
    && forall i | m <= i < |a| :: ReasonCode in a[i] <==> ReasonCode in b[n + i - m]
  }

  predicate Peers(a: Loop, m: nat, b: Loop, n: nat) {
    && a.iteration == b.iteration && a.previous == b.previous && a.traces == b.traces
    && a.workers == b.workers && a.reviews == b.reviews
    && CarryAlike(a.ledger, m, b.ledger, n)
  }

  lemma RecordedPeers(ea: Env, eb: Env, a: Loop, m: nat, b: Loop, n: nat, record: Record, phase: Phase, agent: Agent,
                      verdict: Json)
    requires Peers(a, m, b, n)
    ensures Peers(Recorded(ea, a, record, phase, agent, verdict, Null), m,
                  Recorded(eb, b, record, phase, agent, verdict, Null), n)
  {
    hide Stamped;
    StampedFields(ea, record, Slot(phase, a.iteration, agent, verdict, Null, |a.ledger|));
    StampedFields(eb, record, Slot(phase, b.iteration, agent, verdict, Null, |b.ledger|));
  }

  lemma WorkersAgree(ea: Env, eb: Env, phase: Phase, script: Script, a: Loop, m: nat, b: Loop, n: nat)
    requires Comparable(ea, eb) && Peers(a, m, b, n)
    ensures
      var x, y := WorkerHalf(ea, phase, script, a), WorkerHalf(eb, phase, script, b);
      match x
      case HalfOver(end) => y.HalfOver? && y.end.result == end.result
      case ToReviewer(st, verifying, state, record, _) =>
        y.ToReviewer? && y.verifying == verifying && y.state == state && y.record == record && Peers(st, m, y.st, n)
  {
    hide Stamped, ParseGateResult, KeyOf, AddResolutions, CarryAlike, Recorded;
    if 1 <= a.iteration <= |script.workers| && script.workers[a.iteration - 1].WorkerOutput? {
      var text := script.workers[a.iteration - 1].text;
      var gate := WorkerGate(ea, text.body);
      if gate.Ok? {
        var a2 := Dispatched(a, WorkerAgent, phase).(workers := a.workers + [text]);
        var b2 := Dispatched(b, WorkerAgent, phase).(workers := b.workers + [text]);
        RecordedPeers(ea, eb, a2, m, b2, n, gate.value.record, phase, WorkerAgent, Str(Raw("")));
        RecordedKeeps(ea, a2, gate.value.record, phase, WorkerAgent, Str(Raw("")));
        RecordedKeeps(eb, b2, gate.value.record, phase, WorkerAgent, Str(Raw("")));
      }
    }
  }

  lemma RecordedKeeps(env: Env, st: Loop, record: Record, phase: Phase, agent: Agent, verdict: Json)
    ensures
      var st' := Recorded(env, st, record, phase, agent, verdict, Null);
      st' == st.(ledger := st'.ledger)
  {
    hide Stamped;
  }

  /** Two turns that agree: the same next iteration, or the same end, or both blocked. */
  ghost predicate TurnsAgree(x: Turn, m: nat, y: Turn, n: nat) {
    match x
    case Again(st) => y.Again? && Peers(st, m, y.st, n)
    case Over(end) =>
      && y.Over?
      && (|| y.end.result == end.result
          || (end.result.status in {Stopped, Errored} && y.end.result.status in {Stopped, Errored}))
      && (end.result.status.Completed? ==> CarryAlike(end.ledger, m, y.end.ledger, n))
  }

  lemma ReviewsAgree(ea: Env, eb: Env, phase: Phase, a: Loop, m: nat, b: Loop, n: nat, text: ReviewerText,
                     r: GateResult)
    requires Comparable(ea, eb) && Peers(a, m, b, n)
    ensures TurnsAgree(ReviewedTurn(ea, phase, a, text, r), m, ReviewedTurn(eb, phase, b, text, r), n)
  {
    hide Stamped, AddReviews, CarryAlike, Recorded;
    RecordedPeers(ea, eb, a, m, b, n, r.record, phase, ReviewerAgent, VerdictText(text.passes));
    RecordedKeeps(ea, a, r.record, phase, ReviewerAgent, VerdictText(text.passes));
    RecordedKeeps(eb, b, r.record, phase, ReviewerAgent, VerdictText(text.passes));
  }

  lemma VerificationStops(env: Env, phase: Phase, st: Loop, passes: bool, w: Half, r: GateResult)
    requires w.ToReviewer?
    ensures VerifiedTurn(env, phase, st, passes, w, r).result.status.Stopped?
  {
    hide Stamped, VerificationBinds, EvaluateVerification;
  }

  lemma ReviewersAgree(ea: Env, eb: Env, phase: Phase, script: Script, w: Half, m: nat, v: Half, n: nat)
    requires Comparable(ea, eb) && w.ToReviewer? && v.ToReviewer? && Peers(w.st, m, v.st, n)
    requires w.verifying == v.verifying && w.state == v.state && w.record == v.record
    ensures TurnsAgree(ReviewerHalf(ea, phase, script, w), m, ReviewerHalf(eb, phase, script, v), n)
  {
    hide ParseGateResult, VerifiedTurn, ReviewedTurn, CarryAlike, ReviewVerdict;
    var i := w.st.iteration;
    if 1 <= i <= |script.reviewers| && script.reviewers[i - 1].ReviewerOutput? {
      var text := script.reviewers[i - 1].text;
      var gate := ParseGateResult(ea.judge, text.body);
      if gate.Ok? {
        var a2 := Dispatched(w.st, ReviewerAgent, phase).(reviews := w.st.reviews + [text.passes]);
        var b2 := Dispatched(v.st, ReviewerAgent, phase).(reviews := v.st.reviews + [text.passes]);
        if w.verifying {
          VerificationStops(ea, phase, a2, text.passes, w, gate.value);
          VerificationStops(eb, phase, b2, text.passes, v, gate.value);
        } else {
          ReviewsAgree(ea, eb, phase, a2, m, b2, n, text, gate.value);
        }
      }
    }
  }

  lemma {:induction false} RunsAgree(ea: Env, eb: Env, phase: Phase, budget: int, script: Script, a: Loop, m: nat,
                                     b: Loop, n: nat)
    requires Comparable(ea, eb) && Peers(a, m, b, n)
    ensures
      var x, y := RunFrom(ea, phase, budget, script, a), RunFrom(eb, phase, budget, script, b);
      && (x.result.status.Completed? ==> y.result == x.result && CarryAlike(x.ledger, m, y.ledger, n))
    decreases budget - a.iteration
  {
    hide WorkerHalf, ReviewerHalf, CarryAlike;
    if a.iteration <= budget {
      WorkersAgree(ea, eb, phase, script, a, m, b, n);
      var x, y := WorkerHalf(ea, phase, script, a), WorkerHalf(eb, phase, script, b);
      if x.ToReviewer? {
        ReviewersAgree(ea, eb, phase, script, x, m, y, n);
        var p, q := ReviewerHalf(ea, phase, script, x), ReviewerHalf(eb, phase, script, y);
        if p.Again? {
          RunsAgree(ea, eb, phase, budget, script, p.st, m, q.st, n);
        }
      } else {
        WorkerHalfNeverCompletes(ea, phase, script, a);
      }
    }
  }

  lemma WorkerHalfNeverCompletes(env: Env, phase: Phase, script: Script, st: Loop)
    requires !env.risk.Low?
    ensures var h := WorkerHalf(env, phase, script, st); h.HalfOver? ==> !h.end.result.status.Completed?
  {
    hide Stamped, ParseGateResult, KeyOf, AddResolutions;
  }

  /** A run that completes yields the same result whatever ledger it extends, at MEDIUM as at HIGH,
      and under every larger budget. */
  lemma CompletedRunsAgree(ea: Env, eb: Env, phase: Phase, budget: int, larger: int, script: Script,
                           la: seq<Record>, da: seq<Dispatch>, lb: seq<Record>, db: seq<Dispatch>)
    requires Comparable(ea, eb) && budget <= larger
    requires RunPhase(ea, phase, budget, script, la, da).result.status.Completed?
    ensures
      var x, y := RunPhase(ea, phase, budget, script, la, da), RunPhase(eb, phase, larger, script, lb, db);
      y.result == x.result && CarryAlike(x.ledger, |la|, y.ledger, |lb|)
  {
    hide RunFrom;
    RunsAgree(ea, eb, phase, budget, script, Start(la, da), |la|, Start(lb, db), |lb|);
    LargerBudgetChangesNothing(eb, phase, budget, larger, script, Start(lb, db));
  }
}
