/** Deriving a decision item's effective decision from its decisions and its ordered transitions,
    rejecting forks, orphans and cycles (`_lineage_state` in scripts/clarification_protocol.py). */
module Lineage {
  import opened Vocabulary
  import opened Sequences

  // Identifiers are digests of what they name, so they are modelled by what they name.
  datatype Request = Request(text: string, revision: nat, items: set<string>)

  datatype ResponseId = ResponseId(request: Request, item: string, submission: string)

  datatype DecisionId = DecisionId(response: ResponseId, choice: string)

  datatype Transition = Supersede(prior: DecisionId, next: DecisionId) | Cancel(head: Option<DecisionId>)

  datatype Error = LineageInvalid | LineageFork | OrphanDecision

  datatype Status = Unresolved | Effective(head: DecisionId) | CancelledAt(anchor: DecisionId) | CancelledEmpty

  // ---- the derivation ----

  function Next(ts: seq<Transition>, d: DecisionId): set<DecisionId> {
    set t | t in ts && t.Supersede? && t.prior == d :: t.next
  }

  function Prior(ts: seq<Transition>, d: DecisionId): set<DecisionId> {
    set t | t in ts && t.Supersede? && t.next == d :: t.prior
  }

  predicate Forks(decisions: set<DecisionId>, ts: seq<Transition>) {
    exists d :: d in decisions && (|Next(ts, d)| > 1 || |Prior(ts, d)| > 1)
  }

  function Roots(decisions: set<DecisionId>, ts: seq<Transition>): set<DecisionId> {
    set d | d in decisions && Prior(ts, d) == {}
  }

  /** Follow the successors from `cursor` until one is missing or already seen. */
  ghost function Reach(decisions: set<DecisionId>, ts: seq<Transition>, cursor: DecisionId,
                       seen: set<DecisionId>): set<DecisionId>
    decreases |decisions - seen|
  {
    if cursor in seen || cursor !in decisions then seen
    else
      var seen' := seen + {cursor};
      assert decisions - seen' < decisions - seen;
      SubsetSize(decisions - seen', decisions - seen);
      if Next(ts, cursor) == {} then seen'
      else
        var next :| next in Next(ts, cursor);
        Reach(decisions, ts, next, seen')
  }

  /** The walk over the events in order: the current head, or the anchor a cancellation left. */
  datatype Walked = Walked(head: Option<DecisionId>, anchor: Option<DecisionId>)

  function Step(at: Walked, t: Transition): Option<Walked> {
    match t
    case Cancel(prior) => if prior != at.head then None else Some(Walked(None, prior))
    case Supersede(prior, next) =>
      if (if at.head.Some? then at.head else at.anchor) == Some(prior) then Some(Walked(Some(next), None)) else None
  }

  function Walk(root: DecisionId, ts: seq<Transition>): Option<Walked> {
    if ts == [] then Some(Walked(Some(root), None))
    else
      var before := Walk(root, ts[..|ts| - 1]);
      if before.None? then None else Step(before.value, ts[|ts| - 1])
  }

  function StatusAt(w: Walked): Status {
    if w.head.Some? then Effective(w.head.value)
    else if w.anchor.Some? then CancelledAt(w.anchor.value)
    else CancelledEmpty
  }

  ghost function Derive(decisions: set<DecisionId>, ts: seq<Transition>): Result<Status, Error> {
    if decisions == {} then
      if forall t | t in ts :: !t.Cancel? then Ok(Unresolved)
      else if ts == [Cancel(None)] then Ok(CancelledEmpty)
      else Err(LineageFork)
    else if Cancel(None) in ts then Err(LineageInvalid)
    else if Forks(decisions, ts) then Err(LineageFork)
    else if |Roots(decisions, ts)| > 1 then Err(OrphanDecision)
    else if Roots(decisions, ts) == {} then Err(LineageFork)
    else
      var root :| root in Roots(decisions, ts);
      if |Reach(decisions, ts, root, {})| != |decisions| then Err(OrphanDecision)
      else
        var walked := Walk(root, ts);
        if walked.None? then Err(LineageFork) else Ok(StatusAt(walked.value))
  }

  /** Each supersession relates two different decisions of the item. */
  ghost predicate Bound(decisions: set<DecisionId>, ts: seq<Transition>) {
    forall t | t in ts && t.Supersede? :: t.prior in decisions && t.next in decisions && t.prior != t.next
  }

  // ---- what a legal history is, independently of the graph ----

  /** `ts` supersedes ds[0] by ds[1], ds[1] by ds[2], ... in order, interleaved with cancellations
      of the then-current head, never two in a row. */
  ghost predicate History(ds: seq<DecisionId>, ts: seq<Transition>)
    decreases |ts|
  {
    ds != [] &&
    if ts == [] then |ds| == 1
    else
      var before := ts[..|ts| - 1];
      match ts[|ts| - 1]
      case Supersede(prior, next) =>
        |ds| >= 2 && prior == ds[|ds| - 2] && next == ds[|ds| - 1] && History(ds[..|ds| - 1], before)
      case Cancel(prior) =>
        prior == Some(ds[|ds| - 1]) && (before == [] || !before[|before| - 1].Cancel?) && History(ds, before)
  }

  /** The decisions of one item form the legal history `ds`. */
  ghost predicate HistoryOf(decisions: set<DecisionId>, ds: seq<DecisionId>, ts: seq<Transition>) {
    Distinct(ds) && Members(ds) == decisions && History(ds, ts)
  }

  /** The status a legal history ends in. */
  function Outcome(ds: seq<DecisionId>, ts: seq<Transition>): Status
    requires ds != []
  {
    var last := ds[|ds| - 1];
    if ts != [] && ts[|ts| - 1].Cancel? then CancelledAt(last) else Effective(last)
  }

  // ---- from a successful derivation to the history ----

  function Chain(root: DecisionId, ts: seq<Transition>): seq<DecisionId> {
    if ts == [] then [root]
    else
      var before := Chain(root, ts[..|ts| - 1]);
      if ts[|ts| - 1].Supersede? then before + [ts[|ts| - 1].next] else before
  }

  /** The walk stands where the history `ds` ends. */
  predicate StandsAt(w: Walked, ds: seq<DecisionId>, ts: seq<Transition>)
    requires ds != []
  {
    var last := Some(ds[|ds| - 1]);
    if ts != [] && ts[|ts| - 1].Cancel? then w == Walked(None, last) else w == Walked(last, None)
  }

  lemma {:induction false} WalkIsHistory(root: DecisionId, ts: seq<Transition>)
    requires Walk(root, ts).Some?
    requires Cancel(None) !in ts
    ensures Chain(root, ts) != [] && Chain(root, ts)[0] == root
    ensures History(Chain(root, ts), ts)
    ensures StandsAt(Walk(root, ts).value, Chain(root, ts), ts)
    decreases |ts|
  {
    if ts != [] {
      var before, last := ts[..|ts| - 1], ts[|ts| - 1];
      assert last in ts && Cancel(None) !in before;
      WalkIsHistory(root, before);
      StepIsHistory(Walk(root, before).value, Chain(root, before), before, last);
      assert before + [last] == ts;
      hide History, Walk, StandsAt;
      assert Chain(root, ts) == if last.Supersede? then Chain(root, before) + [last.next] else Chain(root, before);
    }
  }

  lemma StepIsHistory(w: Walked, ds: seq<DecisionId>, before: seq<Transition>, t: Transition)
    requires ds != [] && History(ds, before) && StandsAt(w, ds, before) && Step(w, t).Some? && t != Cancel(None)
    ensures
      var ds' := if t.Supersede? then ds + [t.next] else ds;
      History(ds', before + [t]) && StandsAt(Step(w, t).value, ds', before + [t])
  {
    var ts := before + [t];
    assert ts[..|ts| - 1] == before && ts[|ts| - 1] == t;
    if t.Supersede? {
      var ds' := ds + [t.next];
      assert ds'[..|ds'| - 1] == ds;
    }
  }

  /** `n` comes immediately after `p` in `ds`. */
  ghost predicate Follows(ds: seq<DecisionId>, k: int, p: DecisionId, n: DecisionId) {
    0 < k < |ds| && ds[k - 1] == p && ds[k] == n
  }

  /** In a legal history the supersessions are exactly the consecutive pairs. */
  lemma {:induction false} HistoryEdges(ds: seq<DecisionId>, ts: seq<Transition>)
    requires History(ds, ts)
    ensures forall p, n :: Supersede(p, n) in ts <==> exists k :: Follows(ds, k, p, n)
    ensures Cancel(None) !in ts
    decreases |ts|
  {
    if ts != [] {
      var before, last := ts[..|ts| - 1], ts[|ts| - 1];
      assert ts == before + [last];
      if last.Supersede? {
        var ds' := ds[..|ds| - 1];
        HistoryEdges(ds', before);
        forall p, n
          ensures Supersede(p, n) in ts <==> exists k :: Follows(ds, k, p, n)
        {
          if Supersede(p, n) == last {
            assert Follows(ds, |ds| - 1, p, n);
          }
          if k :| Follows(ds', k, p, n) {
            assert Follows(ds, k, p, n);
          }
          if k :| Follows(ds, k, p, n) && k < |ds| - 1 {
            assert Follows(ds', k, p, n);
          }
        }
      } else {
        HistoryEdges(ds, before);
      }
    }
  }

  lemma NextOf(ds: seq<DecisionId>, ts: seq<Transition>, k: nat)
    requires History(ds, ts) && Distinct(ds) && k < |ds|
    ensures Next(ts, ds[k]) == if k + 1 < |ds| then {ds[k + 1]} else {}
    ensures Prior(ts, ds[k]) == if k > 0 then {ds[k - 1]} else {}
  {
    HistoryEdges(ds, ts);
    forall n ensures n in Next(ts, ds[k]) <==> k + 1 < |ds| && n == ds[k + 1] {
      assert n in Next(ts, ds[k]) <==> Supersede(ds[k], n) in ts;
      if j :| Follows(ds, j, ds[k], n) {
        assert j - 1 == k;
      }
      if k + 1 < |ds| && n == ds[k + 1] {
        assert Follows(ds, k + 1, ds[k], n);
      }
    }
    forall p ensures p in Prior(ts, ds[k]) <==> k > 0 && p == ds[k - 1] {
      assert p in Prior(ts, ds[k]) <==> Supersede(p, ds[k]) in ts;
      if j :| Follows(ds, j, p, ds[k]) {
        assert j == k;
      }
      if k > 0 && p == ds[k - 1] {
        assert Follows(ds, k, p, ds[k]);
      }
    }
  }

  lemma {:induction false} SizeAtMostOne<T>(s: set<T>, x: T, y: T)
    requires |s| <= 1 && x in s && y in s
    ensures x == y
  {
    if x != y {
      SubsetSize({x, y}, s);
    }
  }

  /** No decision recurs on the chain: a recurrence would lead back to the root, which has no prior. */
  lemma {:induction false} ChainIsDistinct(ds: seq<DecisionId>, ts: seq<Transition>, i: nat, j: nat)
    requires History(ds, ts) && i < j < |ds|
    requires Prior(ts, ds[0]) == {}
    requires forall d | d in ds :: |Prior(ts, d)| <= 1
    ensures ds[i] != ds[j]
    decreases i
  {
    HistoryEdges(ds, ts);
    assert Follows(ds, j, ds[j - 1], ds[j]);
    assert Supersede(ds[j - 1], ds[j]) in ts;
    assert ds[j - 1] in Prior(ts, ds[j]);
    if i > 0 {
      assert Follows(ds, i, ds[i - 1], ds[i]);
      assert Supersede(ds[i - 1], ds[i]) in ts;
      assert ds[i - 1] in Prior(ts, ds[i]);
      ChainIsDistinct(ds, ts, i - 1, j - 1);
      if ds[i] == ds[j] {
        SizeAtMostOne(Prior(ts, ds[i]), ds[i - 1], ds[j - 1]);
      }
    }
  }

  lemma {:induction false} ReachStaysOnChain(decisions: set<DecisionId>, ds: seq<DecisionId>, ts: seq<Transition>,
                                             cursor: DecisionId, seen: set<DecisionId>)
    requires History(ds, ts)
    requires cursor in ds && seen <= Members(ds)
    ensures Reach(decisions, ts, cursor, seen) <= Members(ds)
    decreases |decisions - seen|
  {
    if cursor !in seen && cursor in decisions {
      SubsetSize(decisions - (seen + {cursor}), decisions - seen);
      HistoryEdges(ds, ts);
      forall next | next in Next(ts, cursor)
        ensures Reach(decisions, ts, next, seen + {cursor}) <= Members(ds)
      {
        var k :| Follows(ds, k, cursor, next);
        assert ds[k] in ds;
        ReachStaysOnChain(decisions, ds, ts, next, seen + {cursor});
      }
    }
  }

  lemma {:induction false} ReachCoversChain(decisions: set<DecisionId>, ds: seq<DecisionId>, ts: seq<Transition>,
                                            k: nat)
    requires HistoryOf(decisions, ds, ts) && k < |ds|
    ensures Reach(decisions, ts, ds[k], Members(ds[..k])) == decisions
    decreases |ds| - k
  {
    NextOf(ds, ts, k);
    assert ds[k] !in Members(ds[..k]) && ds[k] in decisions;
    assert Members(ds[..k]) + {ds[k]} == Members(ds[..k + 1]) by {
      assert ds[..k + 1] == ds[..k] + [ds[k]];
    }
    if k + 1 < |ds| {
      ReachCoversChain(decisions, ds, ts, k + 1);
    } else {
      assert ds[..k + 1] == ds;
    }
  }

  lemma {:induction false} HistoryWalks(ds: seq<DecisionId>, ts: seq<Transition>)
    requires History(ds, ts)
    ensures Walk(ds[0], ts).Some? && StatusAt(Walk(ds[0], ts).value) == Outcome(ds, ts)
    ensures Walk(ds[0], ts).value.head.Some? ==> Walk(ds[0], ts).value.anchor.None?
    decreases |ts|
  {
    if ts != [] {
      var ds' := if ts[|ts| - 1].Supersede? then ds[..|ds| - 1] else ds;
      HistoryWalks(ds', ts[..|ts| - 1]);
    }
  }

  /** A legal history's graph is one chain from its first decision. */
  lemma HistoryGraph(decisions: set<DecisionId>, ds: seq<DecisionId>, ts: seq<Transition>)
    requires HistoryOf(decisions, ds, ts)
    ensures !Forks(decisions, ts) && Roots(decisions, ts) == {ds[0]}
  {
    assert ds != [] && ds[0] in decisions by { NotEmpty(ds, ts); }
    hide History, Next, Prior;
    forall d | d in decisions
      ensures |Next(ts, d)| <= 1 && |Prior(ts, d)| <= 1 && (Prior(ts, d) == {} <==> d == ds[0])
    {
      var k :| 0 <= k < |ds| && ds[k] == d;
      NextOf(ds, ts, k);
    }
  }

  lemma DeriveOfHistory(decisions: set<DecisionId>, ds: seq<DecisionId>, ts: seq<Transition>)
    requires HistoryOf(decisions, ds, ts)
    ensures Derive(decisions, ts) == Ok(Outcome(ds, ts))
  {
    hide History, Forks, Roots, Reach, Walk;
    assert ds != [] && ds[0] in decisions by { NotEmpty(ds, ts); }
    HistoryEdges(ds, ts);
    HistoryGraph(decisions, ds, ts);
    ReachCoversChain(decisions, ds, ts, 0);
    assert Members(ds[..0]) == {};
    HistoryWalks(ds, ts);
  }

  lemma NotEmpty(ds: seq<DecisionId>, ts: seq<Transition>)
    requires History(ds, ts)
    ensures ds != []
  {
  }

  /** What the graph checks establish before the walk. */
  lemma DerivedRoot(decisions: set<DecisionId>, ts: seq<Transition>) returns (root: DecisionId)
    requires decisions != {} && Derive(decisions, ts).Ok?
    ensures root in decisions && Prior(ts, root) == {}
    ensures forall d | d in decisions :: |Prior(ts, d)| <= 1
    ensures |Reach(decisions, ts, root, {})| == |decisions|
    ensures Walk(root, ts).Some? && Cancel(None) !in ts
  {
    hide Reach, Walk;
    root :| root in Roots(decisions, ts);
    forall r | r in Roots(decisions, ts) ensures r == root {
      SizeAtMostOne(Roots(decisions, ts), r, root);
    }
  }

  lemma HistoryOfDerive(decisions: set<DecisionId>, ts: seq<Transition>) returns (ds: seq<DecisionId>)
    requires Bound(decisions, ts) && decisions != {}
    requires Derive(decisions, ts).Ok?
    ensures HistoryOf(decisions, ds, ts)
  {
    hide Derive, Reach, Walk, Chain, Prior;
    var root := DerivedRoot(decisions, ts);
    ds := Chain(root, ts);
    WalkIsHistory(root, ts);
    forall k | 0 <= k < |ds| ensures ds[k] in decisions {
      if k > 0 {
        HistoryEdges(ds, ts);
        assert Follows(ds, k, ds[k - 1], ds[k]);
        assert Supersede(ds[k - 1], ds[k]) in ts;
      }
    }
    forall i, j | 0 <= i < j < |ds| ensures ds[i] != ds[j] {
      ChainIsDistinct(ds, ts, i, j);
    }
    ReachStaysOnChain(decisions, ds, ts, root, {});
    SubsetSize(Reach(decisions, ts, root, {}), Members(ds));
    SubsetSize(Members(ds), decisions);
  }

  /** The characterization: with sound bindings the derivation succeeds exactly on legal histories,
      and the status it returns is the one the history ends in. */
  lemma DeriveIff(decisions: set<DecisionId>, ts: seq<Transition>)
    requires Bound(decisions, ts)
    ensures Derive(decisions, ts).Ok? <==>
              || (decisions == {} && ts in {[], [Cancel(None)]})
              || (exists ds :: HistoryOf(decisions, ds, ts))
    ensures decisions == {} && ts == [] ==> Derive(decisions, ts) == Ok(Unresolved)
    ensures decisions == {} && ts == [Cancel(None)] ==> Derive(decisions, ts) == Ok(CancelledEmpty)
    ensures forall ds | HistoryOf(decisions, ds, ts) ::
              decisions != {} && Derive(decisions, ts) == Ok(Outcome(ds, ts))
  {
    forall ds | HistoryOf(decisions, ds, ts) ensures Derive(decisions, ts) == Ok(Outcome(ds, ts)) {
      DeriveOfHistory(decisions, ds, ts);
    }
    if decisions != {} && Derive(decisions, ts).Ok? {
      var ds := HistoryOfDerive(decisions, ts);
    }
    forall ds | HistoryOf(decisions, ds, ts) ensures decisions != {} {
      assert ds[0] in decisions;
    }
    if decisions == {} && ts != [] {
      assert ts[0] in ts;
    }
  }
}
