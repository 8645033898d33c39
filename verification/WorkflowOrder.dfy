/** In what order phases were last run: at HIGH a Final Review attempt always opens on gates that
    were last run in canonical order, because corrections send every later phase back to its gate. */
module WorkflowOrder {
  import opened Vocabulary
  import opened Sequences
  import opened PhaseRun
  import opened Phases
  import opened Workflow

  // ---- the last run of a phase ----

  function LastIndex(ps: seq<Phase>, p: Phase): (i: int)
    ensures -1 <= i < |ps|
    ensures i >= 0 ==> ps[i] == p
    ensures forall j :: i < j < |ps| ==> ps[j] != p
  {
    if ps == [] then -1
    else if ps[|ps| - 1] == p then |ps| - 1
    else LastIndex(ps[..|ps| - 1], p)
  }

  lemma LastIndexIs(ps: seq<Phase>, p: Phase, i: int)
    requires 0 <= i < |ps| && ps[i] == p && forall j :: i < j < |ps| ==> ps[j] != p
    ensures LastIndex(ps, p) == i
  {
  }

  /** Of any two requested canonical phases, the later one was last run later. */
  predicate InOrder(ps: seq<Phase>, phases: seq<Phase>) {
    forall p, q :: p in phases && q in phases && IsCanonical(p) && IsCanonical(q) && Rank(p) < Rank(q) ==>
      LastIndex(ps, p) < LastIndex(ps, q)
  }

  /** The canonical phases of `ps` come in canonical order. */
  predicate Ascending(ps: seq<Phase>) {
    forall i, j :: 0 <= i < j < |ps| && IsCanonical(ps[i]) && IsCanonical(ps[j]) ==> Rank(ps[i]) < Rank(ps[j])
  }

  lemma LastIndexOfConcat(a: seq<Phase>, b: seq<Phase>, p: Phase)
    ensures LastIndex(a + b, p) == if p in b then |a| + LastIndex(b, p) else LastIndex(a, p)
  {
    var ab := a + b;
    if p in b {
      var i := LastIndex(b, p);
      assert ab[|a| + i] == p;
      forall j | |a| + i < j < |ab| ensures ab[j] != p {
        assert ab[j] == b[j - |a|];
      }
      LastIndexIs(ab, p, |a| + i);
    } else if p in a {
      var i := LastIndex(a, p);
      assert ab[i] == p;
      LastIndexIs(ab, p, i);
    } else {
      assert p !in ab;
    }
  }

  lemma AscendingIsInOrder(ps: seq<Phase>, p: Phase, q: Phase)
    requires Ascending(ps) && q in ps && IsCanonical(p) && IsCanonical(q) && Rank(p) < Rank(q)
    ensures LastIndex(ps, p) < LastIndex(ps, q)
  {
    var i, j := LastIndex(ps, p), LastIndex(ps, q);
    assert ps[j] == q;
    if i >= 0 {
      assert ps[i] == p;
    }
  }

  /** Correcting some phases and revalidating everything downstream of them restores the order. */
  lemma RepairRestoresOrder(ps: seq<Phase>, phases: seq<Phase>, corrected: seq<Phase>)
    requires InOrder(ps, phases) && Ascending(corrected)
    ensures InOrder(ps + corrected + DownstreamRevalidationSet(corrected, phases), phases)
  {
    var down := DownstreamRevalidationSet(corrected, phases);
    DownstreamRanks(corrected, phases);
    hide DownstreamRevalidationSet, Rank;
    forall p, q | p in phases && q in phases && IsCanonical(p) && IsCanonical(q) && Rank(p) < Rank(q)
      ensures LastIndex(ps + corrected + down, p) < LastIndex(ps + corrected + down, q)
    {
      assert LastIndex(ps, p) < LastIndex(ps, q);
      LastIndexOfConcat(ps + corrected, down, p);
      LastIndexOfConcat(ps + corrected, down, q);
      LastIndexOfConcat(ps, corrected, p);
      LastIndexOfConcat(ps, corrected, q);
      if q in down {
        if p in down {
          AscendingIsInOrder(down, p, q);
        }
      } else {
        assert p !in corrected && p !in down;
      }
    }
  }

  /** Where a requested phase is first listed. */
  function FirstListed(phases: seq<Phase>, p: Phase): nat
    requires p in phases
  {
    if phases[0] == p then 0 else 1 + FirstListed(phases[1..], p)
  }

  ghost predicate ListedInOrder(phases: seq<Phase>, r: seq<Phase>) {
    && (forall i | 0 <= i < |r| :: r[i] in phases)
    && (forall i, j | 0 <= i < j < |r| :: FirstListed(phases, r[i]) < FirstListed(phases, r[j]))
  }

  /** The phases to correct are exactly the requested owners, each once, in the order in which they
      were requested; so in canonical order when those were. */
  lemma {:induction false} ResponsibleIs(phases: seq<Phase>, owners: set<Phase>)
    ensures
      var r := Responsible(phases, owners);
      && (forall p :: p in r <==> p in phases && p in owners)
      && Distinct(r) && ListedInOrder(phases, r)
      && (Ascending(phases) ==> Ascending(r))
  {
    ResponsibleMembers(phases, owners);
    ResponsibleInOrder(phases, owners);
    var r := Responsible(phases, owners);
    forall i, j | 0 <= i < j < |r| && Ascending(phases) && IsCanonical(r[i]) && IsCanonical(r[j])
      ensures Rank(r[i]) < Rank(r[j])
    {
      FirstListedAt(phases, r[i]);
      FirstListedAt(phases, r[j]);
    }
  }

  lemma FirstListedAt(phases: seq<Phase>, p: Phase)
    requires p in phases
    ensures FirstListed(phases, p) < |phases| && phases[FirstListed(phases, p)] == p
  {
  }

  lemma {:induction false} ResponsibleMembers(phases: seq<Phase>, owners: set<Phase>)
    ensures forall p :: p in Responsible(phases, owners) <==> p in phases && p in owners
  {
    if phases != [] {
      ResponsibleMembers(phases[1..], owners);
      ResponsibleMembers(phases[1..], owners - {phases[0]});
      assert phases == [phases[0]] + phases[1..];
    }
  }

  lemma {:induction false} ResponsibleInOrder(phases: seq<Phase>, owners: set<Phase>)
    ensures ListedInOrder(phases, Responsible(phases, owners))
  {
    if phases != [] {
      var rest := if phases[0] in owners then owners - {phases[0]} else owners;
      var later := Responsible(phases[1..], rest);
      ResponsibleMembers(phases[1..], rest);
      ResponsibleInOrder(phases[1..], rest);
      LaterKeepsOrder(phases, later);
      if phases[0] in owners {
        FirstGoesFirst(phases, later);
      }
    }
  }

  lemma LaterKeepsOrder(phases: seq<Phase>, later: seq<Phase>)
    requires phases != [] && phases[0] !in later && ListedInOrder(phases[1..], later)
    ensures ListedInOrder(phases, later)
  {
    forall i | 0 <= i < |later|
      ensures later[i] in phases && FirstListed(phases, later[i]) == 1 + FirstListed(phases[1..], later[i])
    {
      assert later[i] in later;
    }
  }

  lemma FirstGoesFirst(phases: seq<Phase>, later: seq<Phase>)
    requires phases != [] && phases[0] !in later && ListedInOrder(phases, later)
    ensures ListedInOrder(phases, [phases[0]] + later)
  {
    var r := [phases[0]] + later;
    forall i, j | 0 <= i < j < |r|
      ensures r[i] in phases && r[j] in phases && FirstListed(phases, r[i]) < FirstListed(phases, r[j])
    {
      assert r[j] == later[j - 1] && later[j - 1] in later;
      if i > 0 {
        assert r[i] == later[i - 1];
      }
    }
  }

  // ---- which rounds a run makes ----

  function PhasesOf(gates: seq<GateRun>): seq<Phase> {
    seq(|gates|, i requires 0 <= i < |gates| => gates[i].phase)
  }

  /** `after` ran exactly `todo` beyond `before`, for one purpose, and opened no Final Review. */
  ghost predicate RanAll(before: Wf, after: Wf, purpose: Purpose, todo: seq<Phase>) {
    && before.gates <= after.gates
    && PhasesOf(after.gates[|before.gates|..]) == todo
    && (forall k | |before.gates| <= k < |after.gates| :: after.gates[k].purpose == purpose)
    && NoneOpened(before, after)
  }

  /** No guard of `after` beyond those of `before` stood at a Final Review. */
  ghost predicate NoneOpened(before: Wf, after: Wf) {
    && before.gates <= after.gates && before.guards <= after.guards
    && forall k | |before.guards| <= k < |after.guards| :: !after.guards[k].site.FinalGate?
  }

  lemma RanAllStep(before: Wf, mid: Wf, after: Wf, purpose: Purpose, todo: seq<Phase>)
    requires todo != [] && NoneOpened(before, mid)
    requires |mid.gates| == |before.gates| + 1
    requires mid.gates[|before.gates|].phase == todo[0] && mid.gates[|before.gates|].purpose == purpose
    requires RanAll(mid, after, purpose, todo[1..])
    ensures RanAll(before, after, purpose, todo)
  {
    var n := |before.gates|;
    assert after.gates[n] == mid.gates[n];
    var tail := after.gates[n..];
    assert tail[1..] == after.gates[n + 1..];
    assert PhasesOf(tail) == [todo[0]] + PhasesOf(tail[1..]);
  }

  lemma GuardedOpensNone(env: Env, wf: Wf, site: Site)
    ensures
      var wf' := Guarded(env, wf, site).wf;
      && wf'.gates == wf.gates && wf'.attempts == wf.attempts
      && wf'.guards == wf.guards + [Guard(site, |wf.ledger|, |wf.gates|, Refusal(env, wf))]
      && (!site.FinalGate? ==> NoneOpened(wf, wf'))
  {
    hide Refusal;
  }

  lemma RanOpensNone(env: Env, wf: Wf, p: Phase, purpose: Purpose, budget: int, script: Script)
    ensures
      var ran := Ran(env, wf, p, purpose, budget, script);
      && ran.guards == wf.guards && ran.attempts == wf.attempts
      && wf.gates <= ran.gates && |ran.gates| == |wf.gates| + 1
      && ran.gates[|wf.gates|].phase == p && ran.gates[|wf.gates|].purpose == purpose
  {
    hide RunPhase, Charge, Numbered;
  }

  lemma {:induction false} PhaseGatesRun(env: Env, max: int, s: Scenario, wf: Wf, todo: seq<Phase>)
    ensures
      var flow := PhaseGates(env, max, s, wf, todo);
      && NoneOpened(wf, flow.wf)
      && (flow.Go? ==> RanAll(wf, flow.wf, Initial, todo) && flow.wf.attempts == wf.attempts)
    decreases |todo|
  {
    hide Guarded, Ran, LastResult, RanAll, NoneOpened;
    if todo == [] {
      NothingRan(wf, Initial);
    } else {
      var p := todo[0];
      GuardedOpensNone(env, wf, PhaseGate);
      NothingRan(wf, Initial);
      var guarded := Guarded(env, wf, PhaseGate);
      if p in s.gates && guarded.Go? {
        RanOpensNone(env, guarded.wf, p, Initial, max, s.gates[p]);
        var ran := Ran(env, guarded.wf, p, Initial, max, s.gates[p]);
        OpenedSteps(wf, guarded.wf, ran);
        if LastResult(ran).status.Completed? {
          PhaseGatesRun(env, max, s, ran, todo[1..]);
          var flow := PhaseGates(env, max, s, ran, todo[1..]);
          OpenedTransitive(wf, ran, flow.wf);
          if flow.Go? {
            RanAllStep(wf, ran, flow.wf, Initial, todo);
          }
        }
      }
    }
  }

  lemma NothingRan(wf: Wf, purpose: Purpose)
    ensures RanAll(wf, wf, purpose, []) && NoneOpened(wf, wf)
  {
  }

  lemma OpenedSteps(a: Wf, b: Wf, c: Wf)
    requires NoneOpened(a, b) && c.guards == b.guards && b.gates <= c.gates
    ensures NoneOpened(a, c)
  {
  }

  lemma OpenedTransitive(a: Wf, b: Wf, c: Wf)
    requires NoneOpened(a, b) && NoneOpened(b, c)
    ensures NoneOpened(a, c)
  {
    forall k | |a.guards| <= k < |c.guards| ensures !c.guards[k].site.FinalGate? {
      if k < |b.guards| {
        assert c.guards[k] == b.guards[k];
      }
    }
  }

  lemma {:induction false} CorrectionsRun(env: Env, max: int, s: Scenario, wf: Wf, routed: seq<(FindingId, Phase)>,
                                          todo: seq<Phase>)
    ensures
      var flow := Corrections(env, max, s, wf, routed, todo);
      && NoneOpened(wf, flow.wf)
      && (flow.Go? ==> RanAll(wf, flow.wf, Correction(wf.attempts), todo))
    decreases |todo|
  {
    hide Guarded, Ran, LastResult, RanAll, NoneOpened, Bridged, CorrectedRows, IdsOf, Resolutions;
    NothingRan(wf, Correction(wf.attempts));
    if todo != [] {
      var p := todo[0];
      GuardedOpensNone(env, wf, CorrectionGate);
      var guarded := Guarded(env, wf, CorrectionGate);
      if guarded.Go? && Used(wf, p) < max && (p, wf.attempts) in s.corrections {
        var purpose, budget, script := Correction(wf.attempts), max - Used(wf, p), s.corrections[(p, wf.attempts)];
        RanOpensNone(env, guarded.wf, p, purpose, budget, script);
        var ran := Ran(env, guarded.wf, p, purpose, budget, script);
        OpenedSteps(wf, guarded.wf, ran);
        var result := LastResult(ran);
        if Bridged(result, set id | id in IdsOf(routed, p)) && result.status.Completed? {
          var next := ran.(corrected := ran.corrected + CorrectedRows(wf.attempts, p, IdsOf(routed, p),
                                                                      Resolutions(result)));
          OpenedSteps(wf, guarded.wf, next);
          CorrectionsRun(env, max, s, next, routed, todo[1..]);
          var flow := Corrections(env, max, s, next, routed, todo[1..]);
          OpenedTransitive(wf, next, flow.wf);
          if flow.Go? {
            RanAllStep(wf, next, flow.wf, purpose, todo);
          }
        }
      }
    }
  }

  lemma {:induction false} RevalidationsRun(env: Env, max: int, s: Scenario, wf: Wf, todo: seq<Phase>)
    ensures
      var flow := Revalidations(env, max, s, wf, todo);
      && NoneOpened(wf, flow.wf)
      && (flow.Go? ==> RanAll(wf, flow.wf, Revalidation(wf.attempts), todo))
    decreases |todo|
  {
    hide Guarded, Ran, LastResult, RanAll, NoneOpened;
    NothingRan(wf, Revalidation(wf.attempts));
    if todo != [] {
      var p := todo[0];
      GuardedOpensNone(env, wf, RevalidationGate);
      var guarded := Guarded(env, wf, RevalidationGate);
      if guarded.Go? && Used(wf, p) < max && (p, wf.attempts) in s.revalidations {
        var purpose, budget, script := Revalidation(wf.attempts), max - Used(wf, p), s.revalidations[(p, wf.attempts)];
        RanOpensNone(env, guarded.wf, p, purpose, budget, script);
        var ran := Ran(env, guarded.wf, p, purpose, budget, script);
        OpenedSteps(wf, guarded.wf, ran);
        if LastResult(ran).status.Completed? {
          RevalidationsRun(env, max, s, ran, todo[1..]);
          var flow := Revalidations(env, max, s, ran, todo[1..]);
          OpenedTransitive(wf, ran, flow.wf);
          if flow.Go? {
            RanAllStep(wf, ran, flow.wf, purpose, todo);
          }
        }
      }
    }
  }

  /** One attempt: it runs no gate, and stands at one guard. */
  lemma AttemptRunsNoGate(env: Env, max: int, s: Scenario, wf: Wf)
    ensures
      var review := Attempt(env, max, s, wf);
      var wf' := if review.Correct? then review.wf else review.flow.wf;
      && wf'.gates == wf.gates
      && wf'.guards == wf.guards + [Guard(FinalGate, |wf.ledger|, |wf.gates|, Refusal(env, wf))]
  {
    hide Refusal, FiledReview, Route, AnyBlocking;
  }

  // ---- the order of gates ----

  /** Every Final Review that was opened found the gates last run in canonical order. */
  ghost predicate OpenedInOrder(wf: Wf, phases: seq<Phase>) {
    forall k | 0 <= k < |wf.guards| && wf.guards[k].site.FinalGate? ::
      wf.guards[k].ran <= |wf.gates| && InOrder(PhasesOf(wf.gates[..wf.guards[k].ran]), phases)
  }

  lemma StillOpenedInOrder(before: Wf, after: Wf, phases: seq<Phase>)
    requires OpenedInOrder(before, phases) && NoneOpened(before, after)
    ensures OpenedInOrder(after, phases)
  {
    hide InOrder, PhasesOf;
    forall k | 0 <= k < |after.guards| && after.guards[k].site.FinalGate?
      ensures after.guards[k].ran <= |after.gates| && InOrder(PhasesOf(after.gates[..after.guards[k].ran]), phases)
    {
      var g := before.guards[k];
      assert g == after.guards[k] && after.gates[..g.ran] == before.gates[..g.ran];
    }
  }

  lemma AttemptOpensInOrder(env: Env, max: int, s: Scenario, wf: Wf)
    requires OpenedInOrder(wf, s.phases) && InOrder(PhasesOf(wf.gates), s.phases)
    ensures
      var review := Attempt(env, max, s, wf);
      var wf' := if review.Correct? then review.wf else review.flow.wf;
      OpenedInOrder(wf', s.phases) && wf'.gates == wf.gates
  {
    hide Attempt, InOrder, PhasesOf, Refusal;
    AttemptRunsNoGate(env, max, s, wf);
    assert wf.gates[..|wf.gates|] == wf.gates;
  }

  lemma RanAllPhases(before: Wf, after: Wf, purpose: Purpose, todo: seq<Phase>)
    requires RanAll(before, after, purpose, todo)
    ensures PhasesOf(after.gates) == PhasesOf(before.gates) + todo
  {
    assert after.gates == before.gates + after.gates[|before.gates|..];
  }

  lemma {:induction false} FinalLoopOrders(env: Env, max: int, s: Scenario, wf: Wf)
    requires env.risk.High? && Ascending(s.phases)
    requires OpenedInOrder(wf, s.phases) && InOrder(PhasesOf(wf.gates), s.phases)
    ensures
      var end := FinalLoop(env, max, s, wf);
      OpenedInOrder(end.wf, s.phases) && (end.status.Completed? ==> InOrder(PhasesOf(end.wf.gates), s.phases))
    decreases max - wf.attempts
  {
    hide Attempt, Corrections, Revalidations, Responsible, Owners, OpenedInOrder, InOrder, PhasesOf, RanAll, NoneOpened,
         DownstreamRevalidationSet;
    AttemptOpensInOrder(env, max, s, wf);
    var review := Attempt(env, max, s, wf);
    if review.Correct? {
      var responsible := Responsible(s.phases, Owners(review.routed));
      ResponsibleIs(s.phases, Owners(review.routed));
      CorrectionsRun(env, max, s, review.wf, review.routed, responsible);
      var corrected := Corrections(env, max, s, review.wf, review.routed, responsible);
      StillOpenedInOrder(review.wf, corrected.wf, s.phases);
      if corrected.Go? {
        var down := DownstreamRevalidationSet(responsible, s.phases);
        RevalidationsRun(env, max, s, corrected.wf, down);
        var flow := Revalidations(env, max, s, corrected.wf, down);
        StillOpenedInOrder(corrected.wf, flow.wf, s.phases);
        if flow.Go? {
          RanAllPhases(review.wf, corrected.wf, Correction(review.wf.attempts), responsible);
          RanAllPhases(corrected.wf, flow.wf, Revalidation(corrected.wf.attempts), down);
          RepairRestoresOrder(PhasesOf(wf.gates), s.phases, responsible);
          FinalLoopOrders(env, max, s, flow.wf);
        }
      }
    }
  }

  /** At HIGH, whatever was corrected in whatever attempts, every Final Review opens on gates last
      run in canonical order, and so does a run end COMPLETED. */
  lemma GatesEndInCanonicalOrder(env: Env, max: int, s: Scenario)
    requires env.risk.High? && Ascending(s.phases)
    ensures
      var end := RunWorkflow(env, max, s);
      OpenedInOrder(end.wf, s.phases) && (end.status.Completed? ==> InOrder(PhasesOf(end.wf.gates), s.phases))
  {
    hide PhaseGates, FinalLoop, OpenedInOrder, InOrder, PhasesOf, RunEntryRecord;
    var start := Opened(env, s);
    PhaseGatesRun(env, max, s, start, s.phases);
    var gated := PhaseGates(env, max, s, start, s.phases);
    OpensNothing(env, s);
    StillOpenedInOrder(start, gated.wf, s.phases);
    if gated.Go? {
      RanAllPhases(start, gated.wf, Initial, s.phases);
      AscendingPhases(s.phases);
      assert PhasesOf(start.gates) + s.phases == s.phases by { assert |PhasesOf(start.gates)| == 0; }
      FinalLoopOrders(env, max, s, gated.wf);
    }
  }

  lemma OpensNothing(env: Env, s: Scenario)
    ensures OpenedInOrder(Opened(env, s), s.phases) && PhasesOf(Opened(env, s).gates) == []
  {
    hide RunEntryRecord;
  }

  lemma AscendingPhases(phases: seq<Phase>)
    requires Ascending(phases)
    ensures InOrder(phases, phases)
  {
    forall p, q | p in phases && q in phases && IsCanonical(p) && IsCanonical(q) && Rank(p) < Rank(q)
      ensures LastIndex(phases, p) < LastIndex(phases, q)
    {
      AscendingIsInOrder(phases, p, q);
    }
  }

  // ---- what every failed attempt sends back ----

  /** The phases run for one purpose, in order. */
  function RunFor(gates: seq<GateRun>, purpose: Purpose): seq<Phase> {
    if gates == [] then []
    else
      var last := gates[|gates| - 1];
      RunFor(gates[..|gates| - 1], purpose) + if last.purpose == purpose then [last.phase] else []
  }

  lemma {:induction false} RunForConcat(a: seq<GateRun>, b: seq<GateRun>, purpose: Purpose)
    ensures RunFor(a + b, purpose) == RunFor(a, purpose) + RunFor(b, purpose)
    decreases |b|
  {
    if b == [] {
      assert a + b == a;
    } else {
      var n := |b| - 1;
      RunForConcat(a, b[..n], purpose);
      assert (a + b)[..|a| + n] == a + b[..n];
    }
  }

  lemma {:induction false} RunForAll(gates: seq<GateRun>, purpose: Purpose, other: Purpose)
    requires forall k | 0 <= k < |gates| :: gates[k].purpose == purpose
    ensures RunFor(gates, other) == if other == purpose then PhasesOf(gates) else []
    decreases |gates|
  {
    if gates != [] {
      var n := |gates| - 1;
      RunForAll(gates[..n], purpose, other);
      assert PhasesOf(gates) == PhasesOf(gates[..n]) + [gates[n].phase];
    }
  }

  lemma RanAllFor(before: Wf, after: Wf, purpose: Purpose, todo: seq<Phase>, other: Purpose)
    requires RanAll(before, after, purpose, todo)
    ensures RunFor(after.gates, other) == RunFor(before.gates, other) + if other == purpose then todo else []
  {
    var tail := after.gates[|before.gates|..];
    assert after.gates == before.gates + tail;
    RunForConcat(before.gates, tail, other);
    RunForAll(tail, purpose, other);
  }

  /** For every attempt the revalidations run are exactly those its corrections demand. */
  ghost predicate Repairs(env: Env, s: Scenario, gates: seq<GateRun>) {
    forall a: nat :: RunFor(gates, Revalidation(a)) == Downstream(env.risk, RunFor(gates, Correction(a)), s.phases)
  }

  /** No round belongs to an attempt later than `n`. */
  ghost predicate NoneAfter(gates: seq<GateRun>, n: nat) {
    forall a: nat :: a > n ==> RunFor(gates, Correction(a)) == []
  }

  lemma RepairsKeepWhole(env: Env, s: Scenario, start: Wf, corrected: Wf, revalidated: Wf, a: nat,
                         responsible: seq<Phase>)
    requires a >= 1 && Repairs(env, s, start.gates) && NoneAfter(start.gates, a - 1)
    requires RanAll(start, corrected, Correction(a), responsible)
    requires RanAll(corrected, revalidated, Revalidation(a), Downstream(env.risk, responsible, s.phases))
    ensures Repairs(env, s, revalidated.gates) && NoneAfter(revalidated.gates, a)
  {
    hide RunFor, RanAll, Downstream;
    var down := Downstream(env.risk, responsible, s.phases);
    NothingDownstream(env.risk, s.phases);
    forall b: nat
      ensures RunFor(revalidated.gates, Revalidation(b))
              == Downstream(env.risk, RunFor(revalidated.gates, Correction(b)), s.phases)
      ensures b > a ==> RunFor(revalidated.gates, Correction(b)) == []
    {
      RanAllFor(start, corrected, Correction(a), responsible, Correction(b));
      RanAllFor(start, corrected, Correction(a), responsible, Revalidation(b));
      RanAllFor(corrected, revalidated, Revalidation(a), down, Correction(b));
      RanAllFor(corrected, revalidated, Revalidation(a), down, Revalidation(b));
      var rows, again := RunFor(start.gates, Correction(b)), RunFor(start.gates, Revalidation(b));
      assert again == Downstream(env.risk, rows, s.phases) && rows + [] == rows && again + [] == again;
      assert [] + responsible == responsible == responsible + [] && [] + down == down;
      assert (rows + []) + [] == rows && (again + []) + [] == again;
    }
  }

  lemma NothingDownstream(risk: Risk, phases: seq<Phase>)
    ensures Downstream(risk, [], phases) == []
  {
  }

  lemma {:induction false} FinalLoopRepairs(env: Env, max: int, s: Scenario, wf: Wf)
    requires Repairs(env, s, wf.gates) && NoneAfter(wf.gates, wf.attempts)
    ensures FinalLoop(env, max, s, wf).status.Completed? ==> Repairs(env, s, FinalLoop(env, max, s, wf).wf.gates)
    decreases max - wf.attempts
  {
    hide Attempt, Corrections, Revalidations, Responsible, Owners, RanAll, RunFor, Downstream, Repairs, NoneAfter;
    AttemptRunsNoGate(env, max, s, wf);
    var review := Attempt(env, max, s, wf);
    if review.Correct? {
      var responsible := Responsible(s.phases, Owners(review.routed));
      CorrectionsRun(env, max, s, review.wf, review.routed, responsible);
      var corrected := Corrections(env, max, s, review.wf, review.routed, responsible);
      if corrected.Go? {
        var down := Downstream(env.risk, responsible, s.phases);
        RevalidationsRun(env, max, s, corrected.wf, down);
        var flow := Revalidations(env, max, s, corrected.wf, down);
        if flow.Go? {
          RepairsKeepWhole(env, s, review.wf, corrected.wf, flow.wf, review.wf.attempts, responsible);
          FinalLoopRepairs(env, max, s, flow.wf);
        }
      }
    }
  }

  /** Once a run completes, each of its attempts was followed by exactly the revalidations that the
      phases it corrected demand: every requested phase after the earliest of them, at HIGH only. */
  lemma EveryAttemptIsRepaired(env: Env, max: int, s: Scenario)
    ensures
      var end := RunWorkflow(env, max, s);
      end.status.Completed? ==> Repairs(env, s, end.wf.gates)
  {
    hide PhaseGates, FinalLoop, RunEntryRecord, RunFor, RanAll, Downstream;
    var start := Opened(env, s);
    PhaseGatesRun(env, max, s, start, s.phases);
    var gated := PhaseGates(env, max, s, start, s.phases);
    if gated.Go? {
      NothingDownstream(env.risk, s.phases);
      forall a: nat ensures RunFor(gated.wf.gates, Correction(a)) == [] == RunFor(gated.wf.gates, Revalidation(a)) {
        RanAllFor(start, gated.wf, Initial, s.phases, Correction(a));
        RanAllFor(start, gated.wf, Initial, s.phases, Revalidation(a));
        NoGatesYet(Correction(a));
        NoGatesYet(Revalidation(a));
      }
      FinalLoopRepairs(env, max, s, gated.wf);
    }
  }

  lemma NoGatesYet(purpose: Purpose)
    ensures RunFor([], purpose) == []
  {
  }
}
