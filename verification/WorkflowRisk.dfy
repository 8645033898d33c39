/** What the risk level buys: a scenario that completes at HIGH completes at MEDIUM on the same
    rounds, and costs strictly less at LOW than at MEDIUM and no less at HIGH. */
module WorkflowRisk {
  import opened Vocabulary
  import opened Sequences
  import opened Gate
  import opened PhaseRun
  import opened PhaseRunFacts
  import opened PhaseRunRisk
  import opened Phases
  import opened Stamping
  import opened RunLedger
  import opened Workflow
  import opened WorkflowFacts
  import opened WorkflowOrder

  function AtMedium(env: Env): Env {
    env.(risk := Medium)
  }

  /** A HIGH run under a steady judge that accepts the run-entry record. */
  ghost predicate Sane(env: Env, s: Scenario) {
    env.risk.High? && Steady(env) && GoodEntry(env, Entry(env, s))
  }

  lemma SaneAtMedium(env: Env, s: Scenario)
    requires Sane(env, s)
    ensures Steady(AtMedium(env)) && GoodEntry(AtMedium(env), Entry(AtMedium(env), s))
    ensures Entry(AtMedium(env), s) == Entry(env, s)
  {
    hide RunEntryRecord, Defaults;
    var m := AtMedium(env);
    SameEntry(env, s.entry, s.opening);
    forall base, slot ensures Stamped(m, base, slot) == Stamped(env, base, slot) {
      SameStamps(env, slot);
    }
  }

  lemma SameStamps(env: Env, slot: Slot)
    ensures Stamps(AtMedium(env), slot) == Stamps(env, slot)
  {
  }

  lemma SameEntry(env: Env, phase: Json, binding: Json)
    ensures RunEntryRecord(AtMedium(env), phase, binding) == RunEntryRecord(env, phase, binding)
  {
    assert EntryStamps(AtMedium(env), phase, binding) == EntryStamps(env, phase, binding);
    hide EntryStamps, EntryClaims;
  }

  // ---- the HIGH run and the MEDIUM run side by side ----

  /** Every round but the revalidations, with what it yielded. */
  function Rounds(gates: seq<GateRun>): seq<(Purpose, Phase, RunResult)> {
    if gates == [] then []
    else
      var last := gates[|gates| - 1];
      Rounds(gates[..|gates| - 1])
      + if last.purpose.Revalidation? then [] else [(last.purpose, last.phase, last.result)]
  }

  function Cost(result: RunResult): nat {
    |result.workers| + |result.reviews|
  }

  /** The dispatches spent on revalidations. */
  function Extra(gates: seq<GateRun>): nat {
    if gates == [] then 0
    else
      var last := gates[|gates| - 1];
      Extra(gates[..|gates| - 1]) + if last.purpose.Revalidation? then Cost(last.result) else 0
  }

  ghost predicate RevalidationsCost(gates: seq<GateRun>) {
    forall k | 0 <= k < |gates| && gates[k].purpose.Revalidation? :: Cost(gates[k].result) > 0
  }

  /** `m` has done what `h` has done, but for the revalidations. */
  ghost predicate Follows(h: Wf, m: Wf) {
    && m.attempts == h.attempts && m.verdict == h.verdict && m.corrected == h.corrected
    && (AllCarry(h.ledger) ==> AllCarry(m.ledger))
    && (forall p :: Used(m, p) <= Used(h, p))
    && Rounds(m.gates) == Rounds(h.gates) && |Rounds(m.gates)| == |m.gates|
    && |h.dispatches| == |m.dispatches| + Extra(h.gates)
    && RevalidationsCost(h.gates)
  }

  ghost predicate Lock(env: Env, max: int, s: Scenario, h: Wf, m: Wf) {
    Inv(env, max, s, h) && Inv(AtMedium(env), max, s, m) && Follows(h, m)
  }

  lemma GuardFollows(env: Env, max: int, s: Scenario, h: Wf, m: Wf, site: Site)
    requires Sane(env, s) && Lock(env, max, s, h, m) && Guarded(env, h, site).Go?
    ensures
      var x, y := Guarded(env, h, site), Guarded(AtMedium(env), m, site);
      && y.Go? && Lock(env, max, s, x.wf, y.wf)
      && x.wf.iterations == h.iterations && y.wf.iterations == m.iterations
      && x.wf.attempts == h.attempts && y.wf.attempts == m.attempts
  {
    hide AdmitHead, Quiet, HeadSettled, AllCarry, WithinBudget, Steady, GoodEntry, GuardsExact, RunEntryRecord,
         Rounds, Extra,
         RevalidationsCost;
    SaneAtMedium(env, s);
    GuardedKeeps(env, max, s, h, site);
    GuardedKeeps(AtMedium(env), max, s, m, site);
    GuardIffAllCarry(env, Entry(env, s), h.ledger, h.settled);
    GuardIffAllCarry(AtMedium(env), Entry(env, s), m.ledger, m.settled);
    assert forall p :: Used(Guarded(env, h, site).wf, p) == Used(h, p);
    assert forall p :: Used(Guarded(AtMedium(env), m, site).wf, p) == Used(m, p);
  }

  lemma CarryGrows(h: seq<Record>, h': seq<Record>, m: seq<Record>, m': seq<Record>)
    requires |h| >= 1 && |m| >= 1 && h <= h' && m <= m' && CarryAlike(h', |h|, m', |m|)
    requires AllCarry(h) ==> AllCarry(m)
    ensures AllCarry(h') ==> AllCarry(m')
  {
    if AllCarry(h') {
      forall i | 1 <= i < |h| ensures ReasonCode in h[i] {
        assert h[i] == h'[i];
      }
      forall j | 1 <= j < |m'| ensures ReasonCode in m'[j] {
        if j < |m| {
          assert m'[j] == m[j];
        } else {
          var i := j - |m| + |h|;
          assert ReasonCode in h'[i];
        }
      }
    }
  }

  /** What a completed round adds. */
  lemma CompletedRan(env: Env, wf: Wf, p: Phase, purpose: Purpose, budget: int, script: Script)
    requires LastResult(Ran(env, wf, p, purpose, budget, script)).status.Completed?
    ensures
      var ran := Ran(env, wf, p, purpose, budget, script);
      var result := LastResult(ran);
      && result == RunPhase(env, p, budget, script, wf.ledger, wf.dispatches).result
      && ran.ledger == RunPhase(env, p, budget, script, wf.ledger, wf.dispatches).ledger
      && wf.ledger <= ran.ledger
      && |ran.dispatches| == |wf.dispatches| + Cost(result)
      && ran.gates == wf.gates + [GateRun(purpose, p, budget, result)]
      && (forall q :: Used(ran, q) == Used(wf, q) + if q == p then Charge(env.risk, result) else 0)
      && ran.corrected == wf.corrected && ran.attempts == wf.attempts && ran.verdict == wf.verdict
      && (if env.risk.Low? then Cost(result) == 1 else Cost(result) >= 2)
  {
    RunKeeps(env, p, budget, script, wf.ledger, wf.dispatches);
    hide RunPhase, Charge, Numbered, CleanFrom, Settles, OnlyVerified, IsBlocking;
  }

  lemma RoundsStep(gates: seq<GateRun>, g: GateRun)
    ensures Rounds(gates + [g])
            == Rounds(gates) + if g.purpose.Revalidation? then [] else [(g.purpose, g.phase, g.result)]
    ensures Extra(gates + [g]) == Extra(gates) + if g.purpose.Revalidation? then Cost(g.result) else 0
  {
    assert (gates + [g])[..|gates|] == gates;
  }

  /** A round that completes at HIGH completes at MEDIUM, with the same result. */
  lemma RanAgrees(env: Env, h: Wf, m: Wf, p: Phase, purpose: Purpose, bh: int, bm: int, script: Script)
    requires env.risk.High? && bh <= bm && |h.ledger| >= 1 && |m.ledger| >= 1
    requires LastResult(Ran(env, h, p, purpose, bh, script)).status.Completed?
    ensures
      var x, y := Ran(env, h, p, purpose, bh, script), Ran(AtMedium(env), m, p, purpose, bm, script);
      && LastResult(y) == LastResult(x)
      && ((AllCarry(h.ledger) ==> AllCarry(m.ledger)) ==> (AllCarry(x.ledger) ==> AllCarry(y.ledger)))
  {
    hide RunPhase, Ran, LastResult, Charge, CarryAlike, AllCarry;
    CompletedRan(env, h, p, purpose, bh, script);
    RanIs(AtMedium(env), m, p, purpose, bm, script);
    CompletedRunsAgree(env, AtMedium(env), p, bh, bm, script, h.ledger, h.dispatches, m.ledger, m.dispatches);
    CompletedRan(AtMedium(env), m, p, purpose, bm, script);
    var x, y := Ran(env, h, p, purpose, bh, script), Ran(AtMedium(env), m, p, purpose, bm, script);
    if AllCarry(h.ledger) ==> AllCarry(m.ledger) {
      CarryGrows(h.ledger, x.ledger, m.ledger, y.ledger);
    }
  }

  lemma RanFollows(env: Env, h: Wf, m: Wf, p: Phase, purpose: Purpose, bh: int, bm: int, script: Script)
    requires env.risk.High? && Follows(h, m) && !purpose.Revalidation? && bh <= bm && |h.ledger| >= 1 && |m.ledger| >= 1
    requires LastResult(Ran(env, h, p, purpose, bh, script)).status.Completed?
    ensures
      var x, y := Ran(env, h, p, purpose, bh, script), Ran(AtMedium(env), m, p, purpose, bm, script);
      LastResult(y) == LastResult(x) && Follows(x, y)
  {
    hide Ran, LastResult, Charge, AllCarry, Rounds, Extra, Cost;
    RanAgrees(env, h, m, p, purpose, bh, bm, script);
    CompletedRan(env, h, p, purpose, bh, script);
    CompletedRan(AtMedium(env), m, p, purpose, bm, script);
    var x, y := Ran(env, h, p, purpose, bh, script), Ran(AtMedium(env), m, p, purpose, bm, script);
    RoundsStep(h.gates, GateRun(purpose, p, bh, LastResult(x)));
    RoundsStep(m.gates, GateRun(purpose, p, bm, LastResult(x)));
    SameCharge(LastResult(x));
  }

  /** A revalidation moves only the HIGH run. */
  lemma RevalidationFollows(env: Env, h: Wf, m: Wf, p: Phase, a: nat, budget: int, script: Script)
    requires env.risk.High? && Follows(h, m)
    requires LastResult(Ran(env, h, p, Revalidation(a), budget, script)).status.Completed?
    requires |h.ledger| >= 1
    ensures Follows(Ran(env, h, p, Revalidation(a), budget, script), m)
  {
    hide Ran, LastResult, Charge, Rounds, Extra, Cost;
    CompletedRan(env, h, p, Revalidation(a), budget, script);
    var x := Ran(env, h, p, Revalidation(a), budget, script);
    RoundsStep(h.gates, GateRun(Revalidation(a), p, budget, LastResult(x)));
    if AllCarry(x.ledger) {
      PrefixCarries(x.ledger, |h.ledger|);
      assert x.ledger[..|h.ledger|] == h.ledger;
    }
  }

  lemma RanIs(env: Env, wf: Wf, p: Phase, purpose: Purpose, budget: int, script: Script)
    ensures LastResult(Ran(env, wf, p, purpose, budget, script))
            == RunPhase(env, p, budget, script, wf.ledger, wf.dispatches).result
  {
    hide RunPhase, Charge, Numbered;
  }

  lemma SameCharge(result: RunResult)
    ensures Charge(High, result) == Charge(Medium, result)
  {
  }

  lemma LockHolds(env: Env, max: int, s: Scenario, h: Wf, m: Wf)
    requires Lock(env, max, s, h, m)
    ensures |h.ledger| >= 1 && |m.ledger| >= 1 && m.attempts == h.attempts
    ensures forall p :: 0 <= Used(m, p) <= Used(h, p)
  {
  }

  /** A round of both runs: what completes at HIGH completes at MEDIUM, and they stay in step. */
  lemma RanLocks(env: Env, max: int, s: Scenario, h: Wf, m: Wf, p: Phase, purpose: Purpose, bh: int, bm: int,
                 script: Script)
    requires Sane(env, s) && Lock(env, max, s, h, m) && !purpose.Revalidation? && (h.attempts <= 1 || h.attempts <= max)
    requires if purpose.Initial? then bh == bm == max && Used(h, p) == 0
             else bh == max - Used(h, p) && bh >= 1 && bm == max - Used(m, p)
    requires LastResult(Ran(env, h, p, purpose, bh, script)).status.Completed?
    ensures
      var x, y := Ran(env, h, p, purpose, bh, script), Ran(AtMedium(env), m, p, purpose, bm, script);
      LastResult(y) == LastResult(x) && Lock(env, max, s, x, y) && x.attempts == h.attempts
  {
    hide Ran, LastResult, Inv, Follows;
    assert Used(m, p) <= Used(h, p) && 0 <= Used(m, p) by { LockHolds(env, max, s, h, m); }
    LockHolds(env, max, s, h, m);
    RanFollows(env, h, m, p, purpose, bh, bm, script);
    RanKeeps(env, max, s, h, p, purpose, bh, script);
    RanKeeps(AtMedium(env), max, s, m, p, purpose, bm, script);
  }

  lemma {:induction false} GatesFollow(env: Env, max: int, s: Scenario, h: Wf, m: Wf, todo: seq<Phase>)
    requires Sane(env, s) && Lock(env, max, s, h, m) && h.attempts == 0
    requires Distinct(todo) && forall p | p in todo :: Used(h, p) == 0
    requires PhaseGates(env, max, s, h, todo).Go?
    ensures
      var x, y := PhaseGates(env, max, s, h, todo), PhaseGates(AtMedium(env), max, s, m, todo);
      y.Go? && Lock(env, max, s, x.wf, y.wf) && x.wf.attempts == 0
    decreases |todo|
  {
    hide Lock, Ran, LastResult, Refusal, Sane;
    if todo != [] {
      DistinctHead(todo);
      var p := todo[0];
      GuardFollows(env, max, s, h, m, PhaseGate);
      var gh, gm := Guarded(env, h, PhaseGate).wf, Guarded(AtMedium(env), m, PhaseGate).wf;
      RanLocks(env, max, s, gh, gm, p, Initial, max, max, s.gates[p]);
      var x, y := Ran(env, gh, p, Initial, max, s.gates[p]), Ran(AtMedium(env), gm, p, Initial, max, s.gates[p]);
      forall q | q in todo[1..] ensures Used(x, q) == 0 {
        assert q in Members(todo[1..]) && q in todo && q != p;
        CompletedRan(env, gh, p, Initial, max, s.gates[p]);
      }
      GatesFollow(env, max, s, x, y, todo[1..]);
    }
  }

  /** One correction round that leaves the run going. */
  ghost predicate Corrects(env: Env, max: int, s: Scenario, wf: Wf, routed: seq<(FindingId, Phase)>, p: Phase) {
    && Guarded(env, wf, CorrectionGate).Go? && Used(wf, p) < max && (p, wf.attempts) in s.corrections
    && var result := LastResult(CorrectionRan(env, max, s, wf, p));
    && Bridged(result, set id | id in IdsOf(routed, p)) && result.status.Completed?
  }

  function CorrectionRan(env: Env, max: int, s: Scenario, wf: Wf, p: Phase): (ran: Wf)
    requires (p, wf.attempts) in s.corrections
    ensures ran.gates != []
  {
    Ran(env, Guarded(env, wf, CorrectionGate).wf, p, Correction(wf.attempts), max - Used(wf, p),
        s.corrections[(p, wf.attempts)])
  }

  function AfterCorrection(attempts: nat, ran: Wf, routed: seq<(FindingId, Phase)>, p: Phase): Wf
    requires ran.gates != []
  {
    ran.(corrected := ran.corrected + CorrectedRows(attempts, p, IdsOf(routed, p), Resolutions(LastResult(ran))))
  }

  lemma CorrectionsUnfold(env: Env, max: int, s: Scenario, wf: Wf, routed: seq<(FindingId, Phase)>, todo: seq<Phase>)
    requires todo != []
    ensures Corrections(env, max, s, wf, routed, todo).Go? ==> Corrects(env, max, s, wf, routed, todo[0])
    ensures Corrects(env, max, s, wf, routed, todo[0]) ==>
              Corrections(env, max, s, wf, routed, todo)
              == Corrections(env, max, s, AfterCorrection(wf.attempts, CorrectionRan(env, max, s, wf, todo[0]),
                                                          routed, todo[0]),
                             routed, todo[1..])
  {
    hide Guarded, Ran, LastResult, Bridged, IdsOf, CorrectedRows, Resolutions;
  }

  lemma {:induction false} CorrectionsFollow(env: Env, max: int, s: Scenario, h: Wf, m: Wf,
                                             routed: seq<(FindingId, Phase)>, todo: seq<Phase>)
    requires Sane(env, s) && Lock(env, max, s, h, m) && (h.attempts <= 1 || h.attempts <= max)
    requires Corrections(env, max, s, h, routed, todo).Go?
    ensures
      var x, y := Corrections(env, max, s, h, routed, todo), Corrections(AtMedium(env), max, s, m, routed, todo);
      y.Go? && Lock(env, max, s, x.wf, y.wf)
    decreases |todo|
  {
    hide Lock, Corrections, Corrects, Sane, CorrectionRan, AfterCorrection;
    if todo != [] {
      var p := todo[0];
      CorrectionsUnfold(env, max, s, h, routed, todo);
      CorrectionsUnfold(AtMedium(env), max, s, m, routed, todo);
      CorrectionFollows(env, max, s, h, m, routed, p);
      assert (p, h.attempts) in s.corrections && (p, m.attempts) in s.corrections;
      var x := AfterCorrection(h.attempts, CorrectionRan(env, max, s, h, p), routed, p);
      var y := AfterCorrection(m.attempts, CorrectionRan(AtMedium(env), max, s, m, p), routed, p);
      CorrectionsFollow(env, max, s, x, y, routed, todo[1..]);
    } else {
      NoCorrections(env, max, s, h, routed);
      NoCorrections(AtMedium(env), max, s, m, routed);
    }
  }

  lemma NoCorrections(env: Env, max: int, s: Scenario, wf: Wf, routed: seq<(FindingId, Phase)>)
    ensures Corrections(env, max, s, wf, routed, []) == Go(wf)
  {
  }

  lemma CorrectionFollows(env: Env, max: int, s: Scenario, h: Wf, m: Wf, routed: seq<(FindingId, Phase)>, p: Phase)
    requires Sane(env, s) && Lock(env, max, s, h, m) && (h.attempts <= 1 || h.attempts <= max)
    requires Corrects(env, max, s, h, routed, p)
    ensures Corrects(AtMedium(env), max, s, m, routed, p) && m.attempts == h.attempts
    ensures (p, h.attempts) in s.corrections
    ensures
      var x := AfterCorrection(h.attempts, CorrectionRan(env, max, s, h, p), routed, p);
      var y := AfterCorrection(m.attempts, CorrectionRan(AtMedium(env), max, s, m, p), routed, p);
      Lock(env, max, s, x, y) && x.attempts == h.attempts
  {
    hide Lock, Ran, LastResult, Guarded, Sane, Bridged, CorrectedRows, IdsOf, Resolutions;
    LockHolds(env, max, s, h, m);
    GuardFollows(env, max, s, h, m, CorrectionGate);
    var gh, gm := Guarded(env, h, CorrectionGate).wf, Guarded(AtMedium(env), m, CorrectionGate).wf;
    var a, script := h.attempts, s.corrections[(p, h.attempts)];
    assert Used(gh, p) == Used(h, p) && Used(gm, p) == Used(m, p);
    RanLocks(env, max, s, gh, gm, p, Correction(a), max - Used(h, p), max - Used(m, p), script);
    var x, y := CorrectionRan(env, max, s, h, p), CorrectionRan(AtMedium(env), max, s, m, p);
    CorrectedLocks(env, max, s, x, y, CorrectedRows(a, p, IdsOf(routed, p), Resolutions(LastResult(x))));
  }

  lemma CorrectedLocks(env: Env, max: int, s: Scenario, x: Wf, y: Wf, rows: seq<Corrected>)
    requires Lock(env, max, s, x, y)
    ensures Lock(env, max, s, x.(corrected := x.corrected + rows), y.(corrected := y.corrected + rows))
  {
    hide Inv, AllCarry, Rounds, Extra, RevalidationsCost;
    var x', y' := x.(corrected := x.corrected + rows), y.(corrected := y.corrected + rows);
    SameButCorrected(env, max, s, x, x');
    SameButCorrected(AtMedium(env), max, s, y, y');
    assert forall p :: Used(x', p) == Used(x, p) && Used(y', p) == Used(y, p);
  }

  lemma {:induction false} RevalidationsFollow(env: Env, max: int, s: Scenario, h: Wf, m: Wf, todo: seq<Phase>)
    requires Sane(env, s) && Lock(env, max, s, h, m) && (h.attempts <= 1 || h.attempts <= max)
    requires Revalidations(env, max, s, h, todo).Go?
    ensures Lock(env, max, s, Revalidations(env, max, s, h, todo).wf, m)
    decreases |todo|
  {
    hide Inv, Follows, Ran, LastResult, Refusal, Sane;
    if todo != [] {
      var p := todo[0];
      GuardFollows(env, max, s, h, m, RevalidationGate);
      var gh := Guarded(env, h, RevalidationGate).wf;
      var a, script := h.attempts, s.revalidations[(p, h.attempts)];
      GuardedFollows(env, h, m, RevalidationGate);
      GuardedKeeps(env, max, s, h, RevalidationGate);
      LockHolds(env, max, s, h, m);
      IsHigh(env, s);
      RevalidationFollows(env, gh, m, p, a, max - Used(h, p), script);
      RanKeeps(env, max, s, gh, p, Revalidation(a), max - Used(h, p), script);
      RevalidationsFollow(env, max, s, Ran(env, gh, p, Revalidation(a), max - Used(h, p), script), m, todo[1..]);
    }
  }

  lemma IsHigh(env: Env, s: Scenario)
    requires Sane(env, s)
    ensures env.risk.High?
  {
  }

  lemma GuardedFollows(env: Env, h: Wf, m: Wf, site: Site)
    requires Follows(h, m)
    ensures Follows(Guarded(env, h, site).wf, m)
  {
    hide Refusal, AllCarry, Rounds, Extra, RevalidationsCost;
    assert forall p :: Used(Guarded(env, h, site).wf, p) == Used(h, p);
  }

  // ---- Final Review attempts ----

  lemma FiledFollows(env: Env, h: Wf, m: Wf, text: FinalText)
    requires Follows(h, m) && |h.ledger| >= 1 && |m.ledger| >= 1 && FiledReview(env, h, text).Go?
    ensures
      var x, y := FiledReview(env, h, text), FiledReview(AtMedium(env), m, text);
      y.Go? && Follows(x.wf, y.wf)
  {
    hide ParseGateResult, Stamped, Rounds, Extra, RevalidationsCost;
    var record := ParseGateResult(env.judge, text.body).value.record;
    var verdict := VerdictText(text.passes);
    StampedFields(env, record, Slot(FinalReview, h.attempts, FinalReviewerAgent, verdict, Null, |h.ledger|));
    StampedFields(AtMedium(env), record, Slot(FinalReview, m.attempts, FinalReviewerAgent, verdict, Null, |m.ledger|));
    var x, y := FiledReview(env, h, text).wf, FiledReview(AtMedium(env), m, text).wf;
    CarryGrows(h.ledger, x.ledger, m.ledger, y.ledger);
    assert forall p :: Used(x, p) == Used(h, p) && Used(y, p) == Used(m, p);
  }

  /** The attempt's opening moves, in both runs. */
  lemma OpenedFollows(h: Wf, m: Wf, h': Wf, m': Wf)
    requires Follows(h, m)
    requires h'.iterations == h.iterations && m'.iterations == m.iterations && h'.gates == h.gates
             && m'.gates == m.gates
    requires h'.ledger == h.ledger && m'.ledger == m.ledger && h'.corrected == h.corrected
             && m'.corrected == m.corrected
    requires h'.attempts == m'.attempts && h'.verdict == m'.verdict
    requires |h'.dispatches| - |h.dispatches| == |m'.dispatches| - |m.dispatches|
    ensures Follows(h', m')
  {
    hide AllCarry, Rounds, Extra, RevalidationsCost;
    assert forall p :: Used(h', p) == Used(h, p) && Used(m', p) == Used(m, p);
  }

  /** What the two attempts do alike: the same findings routed, or the same completion. */
  ghost predicate SameReview(x: Review, y: Review) {
    match x
    case Correct(wf, routed) => y.Correct? && y.routed == routed && Follows(wf, y.wf)
    case Decided(flow) =>
      flow.Stop? && flow.status.Completed? ==>
        y.Decided? && y.flow.Stop? && y.flow.status.Completed? && Follows(flow.wf, y.flow.wf)
  }

  lemma ReviewedFollows(env: Env, max: int, s: Scenario, h: Wf, m: Wf)
    requires Follows(h, m) && |h.ledger| >= 1 && |m.ledger| >= 1
    ensures SameReview(Reviewed(env, max, s, h), Reviewed(AtMedium(env), max, s, m))
  {
    hide FiledReview, Follows, Route, AnyBlocking;
    assert m.attempts == h.attempts by { FollowsAttempts(h, m); }
    if 1 <= h.attempts <= |s.finals| && s.finals[h.attempts - 1].FinalOutput? {
      var text := s.finals[h.attempts - 1].text;
      var opening := Dispatch(FinalReviewerAgent, FinalReview, h.attempts, |h.ledger|);
      var h2 := h.(dispatches := h.dispatches + [opening]).(verdict := Some(text.passes));
      var m2 := m.(dispatches := m.dispatches + [opening.(after := |m.ledger|)]).(verdict := Some(text.passes));
      FollowsAttempts(h, m);
      OpenedFollows(h, m, h2, m2);
      if FiledReview(env, h2, text).Go? {
        FiledFollows(env, h2, m2, text);
        var x, y := FiledReview(env, h2, text), FiledReview(AtMedium(env), m2, text);
        FollowsAttempts(x.wf, y.wf);
        JudgedFollows(max, s, x.wf, y.wf, text);
      }
    }
  }

  lemma FollowsAttempts(h: Wf, m: Wf)
    requires Follows(h, m)
    ensures m.attempts == h.attempts && m.verdict == h.verdict && m.corrected == h.corrected
  {
  }

  lemma JudgedFollows(max: int, s: Scenario, x: Wf, y: Wf, text: FinalText)
    requires Follows(x, y)
    ensures SameReview(Judged(max, s, x, text), Judged(max, s, y, text))
  {
    hide Follows, Route, AnyBlocking;
    FollowsAttempts(x, y);
  }

  lemma AttemptFollows(env: Env, max: int, s: Scenario, h: Wf, m: Wf)
    requires Sane(env, s) && Lock(env, max, s, h, m) && (h.attempts == 0 || h.attempts < max)
    requires Guarded(env, h, FinalGate).Go?
    ensures
      var x, y := Attempt(env, max, s, h), Attempt(AtMedium(env), max, s, m);
      && SameReview(x, y)
      && (x.Correct? ==> Lock(env, max, s, x.wf, y.wf))
  {
    hide Reviewed, Guarded, Inv, Sane;
    GuardFollows(env, max, s, h, m, FinalGate);
    AttemptKeeps(env, max, s, h);
    AttemptKeeps(AtMedium(env), max, s, m);
    var gh, gm := Guarded(env, h, FinalGate).wf, Guarded(AtMedium(env), m, FinalGate).wf;
    LockHolds(env, max, s, gh, gm);
    var h', m' := gh.(attempts := h.attempts + 1), gm.(attempts := m.attempts + 1);
    OpenedFollows(gh, gm, h', m');
    ReviewedFollows(env, max, s, h', m');
    hide Follows;
  }

  // ---- the whole run ----

  lemma {:induction false} FinalLoopFollows(env: Env, max: int, s: Scenario, h: Wf, m: Wf)
    requires Sane(env, s) && Lock(env, max, s, h, m) && (h.attempts == 0 || h.attempts < max)
    requires FinalLoop(env, max, s, h).status.Completed?
    ensures
      var x, y := FinalLoop(env, max, s, h), FinalLoop(AtMedium(env), max, s, m);
      y.status.Completed? && Follows(x.wf, y.wf)
    decreases max - h.attempts
  {
    hide Lock, Follows, Sane, Attempt, Corrections, Revalidations, Responsible, Owners, Guarded,
         DownstreamRevalidationSet;
    LockHolds(env, max, s, h, m);
    IsHigh(env, s);
    RefusedAttempt(env, max, s, h);
    AttemptFollows(env, max, s, h, m);
    var x, y := Attempt(env, max, s, h), Attempt(AtMedium(env), max, s, m);
    if x.Correct? {
      var responsible := Responsible(s.phases, Owners(x.routed));
      CorrectionsFollow(env, max, s, x.wf, y.wf, x.routed, responsible);
      var ch := Corrections(env, max, s, x.wf, x.routed, responsible);
      var cm := Corrections(AtMedium(env), max, s, y.wf, x.routed, responsible);
      RevalidationsFollow(env, max, s, ch.wf, cm.wf, Downstream(env.risk, responsible, s.phases));
      var rh := Revalidations(env, max, s, ch.wf, Downstream(env.risk, responsible, s.phases));
      NoRevalidations(AtMedium(env), max, s, cm.wf, responsible);
      LockHolds(env, max, s, ch.wf, cm.wf);
      FinalLoopFollows(env, max, s, rh.wf, cm.wf);
    }
  }

  lemma RefusedAttempt(env: Env, max: int, s: Scenario, wf: Wf)
    ensures Guarded(env, wf, FinalGate).Stop? ==>
              var review := Attempt(env, max, s, wf);
              review.Decided? && review.flow.status.Stopped?
  {
    hide Reviewed, Refusal;
  }

  lemma NoRevalidations(env: Env, max: int, s: Scenario, wf: Wf, responsible: seq<Phase>)
    requires env.risk.Medium?
    ensures Revalidations(env, max, s, wf, Downstream(env.risk, responsible, s.phases)) == Go(wf)
  {
  }

  lemma StartsInStep(env: Env, max: int, s: Scenario)
    requires Sane(env, s)
    ensures Lock(env, max, s, Opened(env, s), Opened(AtMedium(env), s))
    ensures forall p :: Used(Opened(env, s), p) == 0
  {
    hide RunEntryRecord, Steady, GoodEntry, Quiet, HeadSettled;
    OpenedIsGood(env, max, s);
    OpenedIsGood(AtMedium(env), max, s);
    SaneAtMedium(env, s);
  }

  /** A scenario that completes at HIGH completes at MEDIUM, after the same phase gates and
      correction rounds with the same results, the same number of Final Review attempts and the same
      correction table; HIGH costs exactly its revalidations more. */
  lemma HighCompletesAtMedium(env: Env, max: int, s: Scenario)
    requires Sane(env, s) && Distinct(s.phases) && RunWorkflow(env, max, s).status.Completed?
    ensures
      var h, m := RunWorkflow(env, max, s), RunWorkflow(AtMedium(env), max, s);
      m.status.Completed? && Follows(h.wf, m.wf)
  {
    hide PhaseGates, FinalLoop, Lock, Sane, Follows, Opened;
    StartsInStep(env, max, s);
    var h, m := Opened(env, s), Opened(AtMedium(env), s);
    assert h.attempts == 0 by { NoAttemptYet(env, s); }
    GatesFollow(env, max, s, h, m, s.phases);
    FinalLoopFollows(env, max, s, PhaseGates(env, max, s, h, s.phases).wf,
                     PhaseGates(AtMedium(env), max, s, m, s.phases).wf);
  }

  lemma NoAttemptYet(env: Env, s: Scenario)
    ensures Opened(env, s).attempts == 0
  {
    hide RunEntryRecord;
  }

  // ---- what HIGH costs beyond MEDIUM ----

  lemma {:induction false} ExtraIsZeroIff(gates: seq<GateRun>)
    requires RevalidationsCost(gates)
    ensures Extra(gates) == 0 <==> forall k | 0 <= k < |gates| :: !gates[k].purpose.Revalidation?
    decreases |gates|
  {
    if gates != [] {
      var n := |gates| - 1;
      assert gates[n] == gates[|gates| - 1];
      assert RevalidationsCost(gates[..n]);
      ExtraIsZeroIff(gates[..n]);
      assert forall k | 0 <= k < n :: gates[..n][k] == gates[k];
    }
  }

  lemma {:induction false} RunForIsEmptyIff(gates: seq<GateRun>, purpose: Purpose)
    ensures RunFor(gates, purpose) == [] <==> forall k | 0 <= k < |gates| :: gates[k].purpose != purpose
    decreases |gates|
  {
    if gates != [] {
      var n := |gates| - 1;
      RunForIsEmptyIff(gates[..n], purpose);
      assert forall k | 0 <= k < n :: gates[..n][k] == gates[k];
    }
  }

  /** No attempt corrected a phase that another requested phase follows. */
  ghost predicate NothingDownstreamEver(gates: seq<GateRun>, phases: seq<Phase>) {
    forall a: nat :: DownstreamRevalidationSet(RunFor(gates, Correction(a)), phases) == []
  }

  /** HIGH costs at least what MEDIUM costs, and exactly that when every downstream set was empty. */
  lemma HighCostsItsRevalidations(env: Env, max: int, s: Scenario)
    requires Sane(env, s) && Distinct(s.phases) && RunWorkflow(env, max, s).status.Completed?
    ensures
      var h, m := RunWorkflow(env, max, s).wf, RunWorkflow(AtMedium(env), max, s).wf;
      && |m.dispatches| <= |h.dispatches|
      && (|m.dispatches| == |h.dispatches| <==> NothingDownstreamEver(h.gates, s.phases))
  {
    hide RunWorkflow, Steady, GoodEntry, RunFor, Extra, DownstreamRevalidationSet, Rounds, AllCarry;
    HighCompletesAtMedium(env, max, s);
    EveryAttemptIsRepaired(env, max, s);
    var h := RunWorkflow(env, max, s).wf;
    ExtraIsZeroIff(h.gates);
    forall a: nat
      ensures RunFor(h.gates, Revalidation(a)) == DownstreamRevalidationSet(RunFor(h.gates, Correction(a)), s.phases)
    {
    }
    if NothingDownstreamEver(h.gates, s.phases) {
      forall k | 0 <= k < |h.gates| ensures !h.gates[k].purpose.Revalidation? {
        if h.gates[k].purpose.Revalidation? {
          RunForIsEmptyIff(h.gates, Revalidation(h.gates[k].purpose.attempt));
        }
      }
    }
    if forall k | 0 <= k < |h.gates| :: !h.gates[k].purpose.Revalidation? {
      forall a: nat ensures DownstreamRevalidationSet(RunFor(h.gates, Correction(a)), s.phases) == [] {
        RunForIsEmptyIff(h.gates, Revalidation(a));
      }
    }
  }

  // ---- what MEDIUM costs beyond LOW ----

  /** The same rounds at two levels: one dispatch each at LOW, at least two above. */
  ghost predicate Cheaper(l: Wf, m: Wf) {
    && l.attempts == m.attempts && |l.gates| == |m.gates|
    && |l.dispatches| + |l.gates| <= |m.dispatches|
  }

  lemma GuardIsFree(env: Env, wf: Wf, site: Site)
    ensures
      var wf' := Guarded(env, wf, site).wf;
      wf'.attempts == wf.attempts && wf'.gates == wf.gates && wf'.dispatches == wf.dispatches
  {
    hide Refusal;
  }

  lemma RanIsCheaper(low: Env, env: Env, l: Wf, m: Wf, p: Phase, purpose: Purpose, bl: int, bm: int, sl: Script,
                     sm: Script)
    requires low.risk.Low? && !env.risk.Low? && Cheaper(l, m)
    requires LastResult(Ran(low, l, p, purpose, bl, sl)).status.Completed?
    requires LastResult(Ran(env, m, p, purpose, bm, sm)).status.Completed?
    ensures Cheaper(Ran(low, l, p, purpose, bl, sl), Ran(env, m, p, purpose, bm, sm))
  {
    hide Ran, LastResult, Charge, Cost;
    CompletedRan(low, l, p, purpose, bl, sl);
    CompletedRan(env, m, p, purpose, bm, sm);
  }

  lemma {:induction false} GatesAreCheaper(low: Env, env: Env, max: int, s: Scenario, l: Wf, m: Wf, todo: seq<Phase>)
    requires low.risk.Low? && !env.risk.Low? && Cheaper(l, m)
    requires PhaseGates(low, max, s, l, todo).Go? && PhaseGates(env, max, s, m, todo).Go?
    ensures
      var x, y := PhaseGates(low, max, s, l, todo).wf, PhaseGates(env, max, s, m, todo).wf;
      Cheaper(x, y) && |x.gates| == |l.gates| + |todo|
    decreases |todo|
  {
    hide Ran, LastResult, Guarded;
    if todo != [] {
      var p := todo[0];
      GuardIsFree(low, l, PhaseGate);
      GuardIsFree(env, m, PhaseGate);
      var gl, gm := Guarded(low, l, PhaseGate).wf, Guarded(env, m, PhaseGate).wf;
      CompletedRan(low, gl, p, Initial, max, s.gates[p]);
      RanIsCheaper(low, env, gl, gm, p, Initial, max, max, s.gates[p], s.gates[p]);
      GatesAreCheaper(low, env, max, s, Ran(low, gl, p, Initial, max, s.gates[p]),
                      Ran(env, gm, p, Initial, max, s.gates[p]), todo[1..]);
    }
  }

  lemma {:induction false} CorrectionsAreCheaper(low: Env, env: Env, max: int, s: Scenario, l: Wf, m: Wf,
                                                 routed: seq<(FindingId, Phase)>, todo: seq<Phase>)
    requires low.risk.Low? && !env.risk.Low? && Cheaper(l, m)
    requires Corrections(low, max, s, l, routed, todo).Go? && Corrections(env, max, s, m, routed, todo).Go?
    ensures
      var x, y := Corrections(low, max, s, l, routed, todo).wf, Corrections(env, max, s, m, routed, todo).wf;
      Cheaper(x, y) && |x.gates| >= |l.gates|
    decreases |todo|
  {
    hide Ran, LastResult, Guarded, Corrections, IdsOf, Bridged, CorrectedRows, Resolutions;
    if todo != [] {
      var p := todo[0];
      CorrectionsUnfold(low, max, s, l, routed, todo);
      CorrectionsUnfold(env, max, s, m, routed, todo);
      GuardIsFree(low, l, CorrectionGate);
      GuardIsFree(env, m, CorrectionGate);
      var gl, gm := Guarded(low, l, CorrectionGate).wf, Guarded(env, m, CorrectionGate).wf;
      var a := l.attempts;
      var script := s.corrections[(p, a)];
      CompletedRan(low, gl, p, Correction(a), max - Used(l, p), script);
      CompletedRan(env, gm, p, Correction(a), max - Used(m, p), script);
      RanIsCheaper(low, env, gl, gm, p, Correction(a), max - Used(l, p), max - Used(m, p), script, script);
      var x := AfterCorrection(a, CorrectionRan(low, max, s, l, p), routed, p);
      var y := AfterCorrection(a, CorrectionRan(env, max, s, m, p), routed, p);
      CorrectionsAreCheaper(low, env, max, s, x, y, routed, todo[1..]);
    } else {
      NoCorrections(low, max, s, l, routed);
      NoCorrections(env, max, s, m, routed);
    }
  }

  /** What both attempts were given to read: the same findings, or the same pass. */
  lemma AttemptsAreCheaper(low: Env, env: Env, max: int, s: Scenario, l: Wf, m: Wf)
    requires Cheaper(l, m)
    ensures
      var x, y := Attempt(low, max, s, l), Attempt(env, max, s, m);
      && (x.Correct? && y.Correct? ==> x.routed == y.routed && Cheaper(x.wf, y.wf))
      && (x.Decided? && x.flow.status.Completed? && y.Decided? && y.flow.status.Completed? ==>
            Cheaper(x.flow.wf, y.flow.wf))
      && (x.Correct? && y.Decided? ==> !y.flow.status.Completed?)
      && (x.Decided? && y.Correct? ==> !x.flow.status.Completed?)
      && (x.Correct? ==> x.wf.gates == l.gates)
  {
    hide Guarded, FiledReview, Route, AnyBlocking;
    GuardIsFree(low, l, FinalGate);
    GuardIsFree(env, m, FinalGate);
  }

  lemma {:induction false} FinalLoopIsCheaper(low: Env, env: Env, max: int, s: Scenario, l: Wf, m: Wf)
    requires low.risk.Low? && env.risk.Medium? && Cheaper(l, m)
    requires FinalLoop(low, max, s, l).status.Completed? && FinalLoop(env, max, s, m).status.Completed?
    ensures
      var x, y := FinalLoop(low, max, s, l).wf, FinalLoop(env, max, s, m).wf;
      Cheaper(x, y) && |x.gates| >= |l.gates|
    decreases max - l.attempts
  {
    hide Attempt, Corrections, Responsible, Owners;
    AttemptsAreCheaper(low, env, max, s, l, m);
    AttemptRunsNoGate(low, max, s, l);
    var x, y := Attempt(low, max, s, l), Attempt(env, max, s, m);
    if x.Correct? && y.Correct? {
      var responsible := Responsible(s.phases, Owners(x.routed));
      CorrectionsAreCheaper(low, env, max, s, x.wf, y.wf, x.routed, responsible);
      FinalLoopIsCheaper(low, env, max, s, Corrections(low, max, s, x.wf, x.routed, responsible).wf,
                         Corrections(env, max, s, y.wf, x.routed, responsible).wf);
    }
  }

  /** A scenario with at least one phase that completes at both levels costs less at LOW. */
  lemma LowCostsLessThanMedium(low: Env, env: Env, max: int, s: Scenario)
    requires low.risk.Low? && env.risk.Medium? && s.phases != []
    requires RunWorkflow(low, max, s).status.Completed? && RunWorkflow(env, max, s).status.Completed?
    ensures |RunWorkflow(low, max, s).wf.dispatches| < |RunWorkflow(env, max, s).wf.dispatches|
  {
    hide PhaseGates, FinalLoop, RunEntryRecord;
    var l, m := Opened(low, s), Opened(env, s);
    GatesAreCheaper(low, env, max, s, l, m, s.phases);
    FinalLoopIsCheaper(low, env, max, s, PhaseGates(low, max, s, l, s.phases).wf,
                       PhaseGates(env, max, s, m, s.phases).wf);
  }
}
