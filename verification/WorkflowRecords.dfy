/** What a workflow run writes down: its dispatch rows number every charged iteration once, and its
    correction table holds only answers a Worker gave. Proved by induction over the run's steps. */
module WorkflowRecords {
  import opened Vocabulary
  import opened Sequences
  import opened Gate
  import opened PhaseRunFacts
  import opened PhaseRun
  import opened Phases
  import opened Workflow

  // ---- an induction principle for runs ----

  /** Initial gates come before the first Final Review, all others belong to the current attempt. */
  predicate Fits(wf: Wf, purpose: Purpose) {
    match purpose
    case Initial => wf.attempts == 0
    case Correction(a) => a == wf.attempts >= 1
    case Revalidation(a) => a == wf.attempts >= 1
  }

  /** The last round was a completed correction of `p` that answered exactly `ids`. */
  predicate Answers(wf: Wf, p: Phase, ids: seq<FindingId>) {
    && wf.gates != []
    && var last := wf.gates[|wf.gates| - 1];
    && last.purpose == Correction(wf.attempts) && last.phase == p && last.result.status.Completed?
    && last.result.workers != [] && last.result.workers[0].resolutions.Keys == set id | id in ids
  }

  function Tabled(wf: Wf, p: Phase, ids: seq<FindingId>): Wf
    requires wf.gates != []
  {
    wf.(corrected := wf.corrected + CorrectedRows(wf.attempts, p, ids, Resolutions(LastResult(wf))))
  }

  function NextAttempt(wf: Wf): Wf {
    wf.(attempts := wf.attempts + 1)
  }

  function Opening(wf: Wf): Wf {
    wf.(dispatches := wf.dispatches + [Dispatch(FinalReviewerAgent, FinalReview, wf.attempts, |wf.ledger|)])
  }

  function Read(wf: Wf, passes: bool): Wf {
    wf.(verdict := Some(passes))
  }

  function Refiled(wf: Wf, ledger: seq<Record>, settled: Option<Settled>): Wf {
    wf.(ledger := ledger, settled := settled)
  }

  /** Every step a run can take keeps `holds`. */
  ghost predicate Kept(env: Env, holds: Wf -> bool) {
    && (forall wf, site {:trigger Guarded(env, wf, site)} :: holds(wf) ==> holds(Guarded(env, wf, site).wf))
    && (forall wf, p, purpose, budget, script {:trigger Ran(env, wf, p, purpose, budget, script)} ::
          holds(wf) && Fits(wf, purpose) ==> holds(Ran(env, wf, p, purpose, budget, script)))
    && (forall wf, p, ids {:trigger Answers(wf, p, ids)} ::
          holds(wf) && Answers(wf, p, ids) ==> holds(Tabled(wf, p, ids)))
    && (forall wf {:trigger NextAttempt(wf)} :: holds(wf) ==> holds(NextAttempt(wf)))
    && (forall wf {:trigger Opening(wf)} :: holds(wf) ==> holds(Opening(wf)))
    && (forall wf, passes {:trigger Read(wf, passes)} :: holds(wf) ==> holds(Read(wf, passes)))
    && (forall wf, ledger, settled {:trigger Refiled(wf, ledger, settled)} ::
          holds(wf) ==> holds(Refiled(wf, ledger, settled)))
  }

  lemma {:induction false} GatesKeep(env: Env, max: int, s: Scenario, wf: Wf, todo: seq<Phase>, holds: Wf -> bool)
    requires Kept(env, holds) && holds(wf) && wf.attempts == 0
    ensures holds(PhaseGates(env, max, s, wf, todo).wf)
    ensures PhaseGates(env, max, s, wf, todo).wf.attempts == 0
    decreases |todo|
  {
    hide Refusal, Ran, LastResult;
    if todo != [] {
      var guarded := Guarded(env, wf, PhaseGate);
      assert holds(guarded.wf);
      if guarded.Go? && todo[0] in s.gates {
        var ran := Ran(env, guarded.wf, todo[0], Initial, max, s.gates[todo[0]]);
        assert holds(ran) && ran.attempts == 0 by { RanKeepsAttempts(env, guarded.wf, todo[0], Initial, max,
                                                                     s.gates[todo[0]]); }
        GatesKeep(env, max, s, ran, todo[1..], holds);
      }
    }
  }

  lemma RanKeepsAttempts(env: Env, wf: Wf, p: Phase, purpose: Purpose, budget: int, script: Script)
    ensures
      var ran := Ran(env, wf, p, purpose, budget, script);
      && ran.attempts == wf.attempts && ran.corrected == wf.corrected
      && ran.gates == wf.gates + [GateRun(purpose, p, budget, LastResult(ran))]
  {
    hide RunPhase, Charge, Numbered;
  }

  lemma {:induction false} CorrectionsKeepIt(env: Env, max: int, s: Scenario, wf: Wf, routed: seq<(FindingId, Phase)>,
                                             todo: seq<Phase>, holds: Wf -> bool)
    requires Kept(env, holds) && holds(wf) && wf.attempts >= 1
    ensures holds(Corrections(env, max, s, wf, routed, todo).wf)
    decreases |todo|
  {
    hide Refusal, Ran, LastResult, Bridged, Answers, CorrectedRows, IdsOf, Resolutions;
    if todo != [] {
      var p := todo[0];
      var guarded := Guarded(env, wf, CorrectionGate);
      assert holds(guarded.wf);
      if guarded.Go? && Used(wf, p) < max && (p, wf.attempts) in s.corrections {
        var script := s.corrections[(p, wf.attempts)];
        var ran := Ran(env, guarded.wf, p, Correction(wf.attempts), max - Used(wf, p), script);
        assert Fits(guarded.wf, Correction(wf.attempts)) && holds(ran);
        RanKeepsAttempts(env, guarded.wf, p, Correction(wf.attempts), max - Used(wf, p), script);
        var ids := IdsOf(routed, p);
        if Bridged(LastResult(ran), set id | id in ids) && LastResult(ran).status.Completed? {
          BridgedAnswers(env, guarded.wf, p, max - Used(wf, p), script, ids);
          assert holds(Tabled(ran, p, ids));
          CorrectionsKeepIt(env, max, s, Tabled(ran, p, ids), routed, todo[1..], holds);
        }
      }
    }
  }

  /** A completed correction that passes the bridge was answered by a Worker: the bridge's two
      exemptions, no Worker and a first iteration that stopped, do not complete. */
  lemma BridgedAnswers(env: Env, wf: Wf, p: Phase, budget: int, script: Script, ids: seq<FindingId>)
    requires
      var ran := Ran(env, wf, p, Correction(wf.attempts), budget, script);
      Bridged(LastResult(ran), set id | id in ids) && LastResult(ran).status.Completed?
    ensures Answers(Ran(env, wf, p, Correction(wf.attempts), budget, script), p, ids)
  {
    hide RunPhase, Charge, Numbered;
    RunKeeps(env, p, budget, script, wf.ledger, wf.dispatches);
    hide Grown, CleanFrom, Settles, OnlyVerified, IsBlocking;
  }

  lemma {:induction false} RevalidationsKeepIt(env: Env, max: int, s: Scenario, wf: Wf, todo: seq<Phase>,
                                               holds: Wf -> bool)
    requires Kept(env, holds) && holds(wf) && wf.attempts >= 1
    ensures holds(Revalidations(env, max, s, wf, todo).wf)
    decreases |todo|
  {
    hide Refusal, Ran, LastResult;
    if todo != [] {
      var p := todo[0];
      var guarded := Guarded(env, wf, RevalidationGate);
      assert holds(guarded.wf);
      if guarded.Go? && Used(wf, p) < max && (p, wf.attempts) in s.revalidations {
        var script := s.revalidations[(p, wf.attempts)];
        var ran := Ran(env, guarded.wf, p, Revalidation(wf.attempts), max - Used(wf, p), script);
        assert Fits(guarded.wf, Revalidation(wf.attempts)) && holds(ran);
        RanKeepsAttempts(env, guarded.wf, p, Revalidation(wf.attempts), max - Used(wf, p), script);
        RevalidationsKeepIt(env, max, s, ran, todo[1..], holds);
      }
    }
  }

  lemma AttemptKeepsIt(env: Env, max: int, s: Scenario, wf: Wf, holds: Wf -> bool)
    requires Kept(env, holds) && holds(wf)
    ensures
      var review := Attempt(env, max, s, wf);
      holds(if review.Correct? then review.wf else review.flow.wf)
  {
    hide Refusal, FiledReview, Route, AnyBlocking;
    var guarded := Guarded(env, wf, FinalGate);
    assert holds(guarded.wf);
    var current := NextAttempt(guarded.wf);
    assert holds(current);
    if guarded.Go? && current.attempts <= |s.finals| {
      assert holds(Opening(current));
      if s.finals[current.attempts - 1].FinalOutput? {
        var text := s.finals[current.attempts - 1].text;
        var read := Read(Opening(current), text.passes);
        assert holds(read);
        var filed := FiledReview(env, read, text).wf;
        assert holds(Refiled(read, filed.ledger, filed.settled));
      }
    }
  }

  lemma {:induction false} FinalLoopKeepsIt(env: Env, max: int, s: Scenario, wf: Wf, holds: Wf -> bool)
    requires Kept(env, holds) && holds(wf)
    ensures holds(FinalLoop(env, max, s, wf).wf)
    decreases max - wf.attempts
  {
    hide Kept, Attempt, Corrections, Revalidations, Responsible, Owners, Downstream;
    AttemptKeepsIt(env, max, s, wf, holds);
    var review := Attempt(env, max, s, wf);
    if review.Correct? {
      var responsible := Responsible(s.phases, Owners(review.routed));
      CorrectionsKeepIt(env, max, s, review.wf, review.routed, responsible, holds);
      var corrected := Corrections(env, max, s, review.wf, review.routed, responsible);
      if corrected.Go? {
        var down := Downstream(env.risk, responsible, s.phases);
        RevalidationsKeepIt(env, max, s, corrected.wf, down, holds);
        var flow := Revalidations(env, max, s, corrected.wf, down);
        if flow.Go? {
          FinalLoopKeepsIt(env, max, s, flow.wf, holds);
        }
      }
    }
  }

  /** Whatever holds when a run opens and is kept by every step holds however the run ends. */
  lemma RunInduction(env: Env, max: int, s: Scenario, holds: Wf -> bool)
    requires Kept(env, holds) && holds(Opened(env, s))
    ensures holds(RunWorkflow(env, max, s).wf)
  {
    hide Kept, PhaseGates, FinalLoop, RunEntryRecord;
    GatesKeep(env, max, s, Opened(env, s), s.phases, holds);
    var gated := PhaseGates(env, max, s, Opened(env, s), s.phases);
    if gated.Go? {
      FinalLoopKeepsIt(env, max, s, gated.wf, holds);
    }
  }

  // ---- the dispatch rows ----

  /** What the initial gates alone charged to a phase. */
  function InitiallyCharged(risk: Risk, gates: seq<GateRun>, p: Phase): int {
    if gates == [] then 0
    else
      var last := gates[|gates| - 1];
      InitiallyCharged(risk, gates[..|gates| - 1], p)
      + if last.phase == p && last.purpose.Initial? then Charge(risk, last.result) else 0
  }

  /** The correction and revalidation rows number, once each, exactly the iterations charged to
      each phase beyond its initial gate. */
  ghost predicate RowsNumberCharges(env: Env, wf: Wf) {
    && Distinct(wf.corrections) && Distinct(wf.revalidations)
    && (forall p, n :: (p, n) in wf.corrections && (p, n) in wf.revalidations ==> false)
    && (forall p, n :: (p, n) in wf.corrections || (p, n) in wf.revalidations <==>
          InitiallyCharged(env.risk, wf.gates, p) < n <= Used(wf, p))
    && (forall p :: InitiallyCharged(env.risk, wf.gates, p) <= Used(wf, p))
    && (wf.attempts == 0 ==> wf.corrections == [] && wf.revalidations == [])
  }

  lemma NumberedIs(p: Phase, used: int, n: nat)
    ensures Distinct(Numbered(p, used, n))
    ensures forall q, k :: (q, k) in Numbered(p, used, n) <==> q == p && used < k <= used + n
  {
    var rows := Numbered(p, used, n);
    forall q, k | q == p && used < k <= used + n ensures (q, k) in rows {
      assert rows[k - used - 1] == (q, k);
    }
  }

  lemma RanNumbers(env: Env, wf: Wf, p: Phase, purpose: Purpose, budget: int, script: Script)
    requires RowsNumberCharges(env, wf) && Fits(wf, purpose)
    ensures RowsNumberCharges(env, Ran(env, wf, p, purpose, budget, script))
  {
    hide RunPhase, Charge, Numbered;
    var ran := Ran(env, wf, p, purpose, budget, script);
    var n := Charge(env.risk, LastResult(ran));
    var rows := Numbered(p, Used(wf, p), n);
    NumberedIs(p, Used(wf, p), n);
    assert ran.gates[..|wf.gates|] == wf.gates;
    forall q ensures Used(ran, q) == Used(wf, q) + if q == p then n else 0 {
    }
    assert forall q :: InitiallyCharged(env.risk, ran.gates, q)
                       == InitiallyCharged(env.risk, wf.gates, q) + if q == p && purpose.Initial? then n else 0;
    hide InitiallyCharged, Used;
    if purpose.Correction? {
      NewRows(env, wf, p, wf.corrections, wf.revalidations, rows, n);
    } else if purpose.Revalidation? {
      NewRows(env, wf, p, wf.revalidations, wf.corrections, rows, n);
    } else {
      forall q ensures Used(wf, q) <= InitiallyCharged(env.risk, wf.gates, q) {
        assert (q, Used(wf, q)) !in wf.corrections && (q, Used(wf, q)) !in wf.revalidations;
      }
    }
  }

  /** Appending the rows of a round to one of the two lists. */
  lemma NewRows(env: Env, wf: Wf, p: Phase, grown: seq<(Phase, int)>, other: seq<(Phase, int)>,
                rows: seq<(Phase, int)>, n: nat)
    requires RowsNumberCharges(env, wf)
    requires || (grown == wf.corrections && other == wf.revalidations)
             || (grown == wf.revalidations && other == wf.corrections)
    requires Distinct(rows) && forall q, k :: (q, k) in rows <==> q == p && Used(wf, p) < k <= Used(wf, p) + n
    ensures Distinct(grown + rows)
    ensures forall q, k :: (q, k) in grown + rows && (q, k) in other ==> false
    ensures forall q, k :: (q, k) in grown + rows || (q, k) in other <==>
              || InitiallyCharged(env.risk, wf.gates, q) < k <= Used(wf, q)
              || (q == p && Used(wf, p) < k <= Used(wf, p) + n)
  {
    hide InitiallyCharged, Used;
    DistinctConcat(grown, rows);
    forall row | row in Members(grown) ensures row !in Members(rows) {
      var q, k := row.0, row.1;
      assert (q, k) in wf.corrections || (q, k) in wf.revalidations;
      assert (q, k) in rows <==> q == p && Used(wf, p) < k <= Used(wf, p) + n;
    }
    forall q, k ensures (q, k) in grown + rows <==> (q, k) in grown || (q, k) in rows {
    }
  }

  /** Every run, however it ends: the rows a run reports number exactly the iterations it charged to
      corrections and revalidations, none twice. */
  lemma RowsNumberEveryCharge(env: Env, max: int, s: Scenario)
    ensures RowsNumberCharges(env, RunWorkflow(env, max, s).wf)
  {
    hide RunWorkflow, Ran, Guarded, RunEntryRecord, InitiallyCharged, Used;
    var holds := wf => RowsNumberCharges(env, wf);
    assert Kept(env, holds) by {
      forall wf, site | holds(wf) ensures holds(Guarded(env, wf, site).wf) {
        GuardLeavesRows(env, wf, site);
      }
      forall wf, p, purpose, budget, script | holds(wf) && Fits(wf, purpose)
        ensures holds(Ran(env, wf, p, purpose, budget, script)) {
        RanNumbers(env, wf, p, purpose, budget, script);
      }
      forall wf, p, ids | holds(wf) && Answers(wf, p, ids) ensures holds(Tabled(wf, p, ids)) {
        SameRows(env, wf, Tabled(wf, p, ids));
      }
      forall wf | holds(wf) ensures holds(NextAttempt(wf)) && holds(Opening(wf)) {
        SameRows(env, wf, NextAttempt(wf));
        SameRows(env, wf, Opening(wf));
      }
      forall wf, passes | holds(wf) ensures holds(Read(wf, passes)) {
        SameRows(env, wf, Read(wf, passes));
      }
      forall wf, ledger, settled | holds(wf) ensures holds(Refiled(wf, ledger, settled)) {
        SameRows(env, wf, Refiled(wf, ledger, settled));
      }
    }
    NoRowsYet(env, s);
    RunInduction(env, max, s, holds);
  }

  lemma SameRows(env: Env, wf: Wf, wf': Wf)
    requires RowsNumberCharges(env, wf)
    requires wf'.corrections == wf.corrections && wf'.revalidations == wf.revalidations
    requires wf'.gates == wf.gates && wf'.iterations == wf.iterations && wf'.attempts >= wf.attempts
    ensures RowsNumberCharges(env, wf')
  {
    assert forall p :: Used(wf', p) == Used(wf, p);
    hide InitiallyCharged, Used;
  }

  lemma GuardLeavesRows(env: Env, wf: Wf, site: Site)
    requires RowsNumberCharges(env, wf)
    ensures RowsNumberCharges(env, Guarded(env, wf, site).wf)
  {
    hide Refusal, RowsNumberCharges;
    SameRows(env, wf, Guarded(env, wf, site).wf);
  }

  lemma NoRowsYet(env: Env, s: Scenario)
    ensures RowsNumberCharges(env, Opened(env, s))
  {
    hide RunEntryRecord;
  }

  // ---- the correction table ----

  /** Every row of the correction table is an answer the first Worker of that correction gave. */
  ghost predicate RowsAreAnswers(wf: Wf) {
    forall j | 0 <= j < |wf.corrected| :: Answered(wf.gates, wf.corrected[j])
  }

  ghost predicate Answered(gates: seq<GateRun>, row: Corrected) {
    exists k :: 0 <= k < |gates| && IsAnswer(gates[k], row)
  }

  predicate IsAnswer(g: GateRun, row: Corrected) {
    && g.purpose == Correction(row.attempt) && g.phase == row.phase
    && g.result.status.Completed? && g.result.workers != []
    && row.finding in g.result.workers[0].resolutions && g.result.workers[0].resolutions[row.finding] == row.resolution
  }

  lemma MoreGates(wf: Wf, wf': Wf)
    requires RowsAreAnswers(wf) && wf.gates <= wf'.gates && wf'.corrected == wf.corrected
    ensures RowsAreAnswers(wf')
  {
    hide IsAnswer;
    forall j | 0 <= j < |wf'.corrected| ensures Answered(wf'.gates, wf'.corrected[j]) {
      var k :| 0 <= k < |wf.gates| && IsAnswer(wf.gates[k], wf.corrected[j]);
      assert wf'.gates[k] == wf.gates[k];
    }
  }

  lemma TabledAnswers(wf: Wf, p: Phase, ids: seq<FindingId>)
    requires RowsAreAnswers(wf) && Answers(wf, p, ids)
    ensures RowsAreAnswers(Tabled(wf, p, ids))
  {
    var wf' := Tabled(wf, p, ids);
    var last := |wf.gates| - 1;
    var n := |wf.corrected|;
    forall j | 0 <= j < |wf'.corrected| ensures Answered(wf'.gates, wf'.corrected[j]) {
      if j < n {
        var k :| 0 <= k < |wf.gates| && IsAnswer(wf.gates[k], wf.corrected[j]);
        assert wf'.corrected[j] == wf.corrected[j] && wf'.gates[k] == wf.gates[k];
      } else {
        assert ids[j - n] in (set id | id in ids);
        assert IsAnswer(wf'.gates[last], wf'.corrected[j]);
      }
    }
  }

  /** Every run, however it ends: no finding is ever reported corrected but by the answer its own
      correction's Worker gave to it; the placeholder for an unaccounted finding is never used. */
  lemma EveryCorrectionWasAnswered(env: Env, max: int, s: Scenario)
    ensures RowsAreAnswers(RunWorkflow(env, max, s).wf)
  {
    hide RunWorkflow, Ran, Guarded, RunEntryRecord, IsAnswer;
    var holds := wf => RowsAreAnswers(wf);
    assert Kept(env, holds) by {
      hide RowsAreAnswers, Answers, Tabled;
      forall wf, site | holds(wf) ensures holds(Guarded(env, wf, site).wf) {
        GuardLeavesTable(env, wf, site);
      }
      forall wf, p, purpose, budget, script | holds(wf) && Fits(wf, purpose)
        ensures holds(Ran(env, wf, p, purpose, budget, script)) {
        RanKeepsAttempts(env, wf, p, purpose, budget, script);
        MoreGates(wf, Ran(env, wf, p, purpose, budget, script));
      }
      forall wf, p, ids | holds(wf) && Answers(wf, p, ids) ensures holds(Tabled(wf, p, ids)) {
        TabledAnswers(wf, p, ids);
      }
      forall wf | holds(wf) ensures holds(NextAttempt(wf)) && holds(Opening(wf)) {
        MoreGates(wf, NextAttempt(wf));
        MoreGates(wf, Opening(wf));
      }
      forall wf, passes | holds(wf) ensures holds(Read(wf, passes)) {
        MoreGates(wf, Read(wf, passes));
      }
      forall wf, ledger, settled | holds(wf) ensures holds(Refiled(wf, ledger, settled)) {
        MoreGates(wf, Refiled(wf, ledger, settled));
      }
    }
    EmptyTable(env, s);
    RunInduction(env, max, s, holds);
  }

  lemma GuardLeavesTable(env: Env, wf: Wf, site: Site)
    requires RowsAreAnswers(wf)
    ensures RowsAreAnswers(Guarded(env, wf, site).wf)
  {
    hide Refusal, RowsAreAnswers;
    MoreGates(wf, Guarded(env, wf, site).wf);
  }

  lemma EmptyTable(env: Env, s: Scenario)
    ensures RowsAreAnswers(Opened(env, s))
  {
    hide RunEntryRecord;
  }

  // ---- routing ----

  /** A failed review is routed exactly when each of its blocking findings names a phase some
      requested phase owns; then every blocking finding goes to its owner, and nothing else does. */
  lemma {:induction false} RouteIsExact(findings: seq<Finding>, phases: seq<Phase>)
    ensures Route(findings, phases).Ok? <==>
              forall i | 0 <= i < |findings| && findings[i].blocking ::
                findings[i].responsible.Some? && LowerToRequestedPhase(findings[i].responsible.value, phases).Some?
    ensures Route(findings, phases).Ok? ==>
              forall id, owner :: (id, owner) in Route(findings, phases).value <==>
                exists i :: 0 <= i < |findings| && RoutedTo(findings[i], phases, id, owner)
  {
    hide LowerToRequestedPhase;
    if findings != [] {
      var rest := findings[1..];
      RouteIsExact(rest, phases);
      assert forall i | 1 <= i < |findings| :: findings[i] == rest[i - 1];
      if Route(findings, phases).Ok? {
        forall id, owner
          ensures (id, owner) in Route(findings, phases).value <==>
                    exists i :: 0 <= i < |findings| && RoutedTo(findings[i], phases, id, owner)
        {
          if RoutedTo(findings[0], phases, id, owner) {
            assert Route(findings, phases).value[0] == (id, owner);
          }
          if i :| 0 <= i < |rest| && RoutedTo(rest[i], phases, id, owner) {
            assert RoutedTo(findings[i + 1], phases, id, owner);
          }
        }
      }
    }
  }

  predicate RoutedTo(f: Finding, phases: seq<Phase>, id: FindingId, owner: Phase) {
    && f.blocking && f.id == id && f.responsible.Some?
    && LowerToRequestedPhase(f.responsible.value, phases) == Some(owner)
  }
}
