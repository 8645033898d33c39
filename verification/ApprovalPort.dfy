/** The clarification port as the program runs it: in-memory artifacts updated by appending, and
    the lineage derivation by dictionaries and loops (scripts/clarification_protocol.py). */
module ApprovalPorts {
  import opened Vocabulary
  import opened Sequences
  import opened Lineage
  import opened Clarification

  class ApprovalPort {
    var responses: map<ResponseId, Response>
    var decisions: set<DecisionId>
    var lineage: seq<Event>
    var requests: set<Request>

    constructor ()
      ensures View() == EMPTY
    {
      responses, decisions, lineage, requests := map[], {}, [], {};
    }

    function View(): Artifacts
      reads this
    {
      Artifacts(responses, decisions, lineage, requests)
    }

    /** Collect the item's decisions and transitions, check every binding, then derive. */
    method LineageState(item: string) returns (state: Result<Status, Error>)
      ensures state == StateOf(View(), item)
    {
      var mine := DecisionsOf(View(), item);
      var transitions: seq<Transition> := [];
      for i := 0 to |lineage|
        invariant transitions == Transitions(lineage[..i], item)
        invariant forall j | 0 <= j < i :: lineage[j].item == item ==> EventBound(View(), lineage[j])
      {
        assert lineage[..i + 1][..i] == lineage[..i];
        if lineage[i].item == item && lineage[i].change.Moved? {
          if !EventBound(View(), lineage[i]) {
            return Err(LineageInvalid);
          }
          transitions := transitions + [lineage[i].change.transition];
        }
      }
      assert lineage[..|lineage|] == lineage;
      state := DeriveByLoops(mine, transitions);
    }

    /** Append one immutable event; its sequence is its position. */
    method AppendEvent(call: Call, change: Change)
      modifies this`lineage
      ensures View() == Appended(old(View()), call, change)
    {
      lineage := lineage + [Event(call.item, ResponseIdOf(call), change)];
    }

    method IngestOne(call: Call) returns (result: Ingested)
      modifies this
      ensures (View(), result) == Ingest(old(View()), call)
    {
      hide Derive, Transitions, EventBound;
      if call.item !in call.request.items {
        return Failed(ItemNotInRequest);
      }
      var stale := exists other :: other in requests && other.items == call.request.items
                                   && other.revision > call.request.revision;
      var id := ResponseIdOf(call);
      var before: Result<Status, Error> := Ok(Unresolved);
      if call.reply.Decide? && !stale {
        before := LineageState(call.item);
        if before.Err? {
          return Failed(Unreadable(before.error));
        }
        if before.value.CancelledEmpty? {
          return Failed(CancelledItem);
        }
      }
      if id in responses {
        if !(responses[id].reply == call.reply && responses[id].meta == call.meta) {
          return Failed(IdConflict);
        }
      } else {
        var decision := if call.reply.Decide? && !stale then Some(DecisionId(id, call.reply.choice)) else None;
        responses := responses[id := Response(call.reply, call.meta, stale, decision)];
      }
      assert View() == Recorded(old(View()), call);
      if stale {
        return StaleRequest;
      }
      match call.reply {
        case Decide(_) =>
          var decision := responses[id].decision;
          if decision.None? {
            return Failed(MissingDecision);
          }
          decisions := decisions + {decision.value};
          var predecessor := Predecessor(before.value);
          if predecessor.Some? && predecessor.value != decision.value {
            AppendEvent(call, Moved(Supersede(predecessor.value, decision.value)));
          }
          result := Decided;
        case Withdraw =>
          var state := LineageState(call.item);
          if state.Err? {
            return Failed(Unreadable(state.error));
          }
          if !IsMarked(View(), call) {
            AppendEvent(call, Moved(Cancel(HeadOf(state.value))));
          }
          result := Cancelled;
        case Unclear(_) =>
          if call.request.revision >= MAX_RECLARIFICATION_REVISIONS {
            result := AmbiguityLimit;
          } else {
            requests := requests + {Revised(call.request)};
            result := Reclarified;
          }
          AppendEvent(call, Noted);
      }
    }
  }

  lemma {:induction false} WalkFailureIsFinal(root: DecisionId, ts: seq<Transition>, i: nat)
    requires i <= |ts| && Walk(root, ts[..i]).None?
    ensures Walk(root, ts).None?
    decreases |ts|
  {
    if i < |ts| {
      assert ts[..|ts| - 1][..i] == ts[..i];
      WalkFailureIsFinal(root, ts[..|ts| - 1], i);
    } else {
      assert ts[..i] == ts;
    }
  }

  /** The graph checks and the walk over `incoming` and `outgoing` dictionaries. */
  method DeriveByLoops(decisions: set<DecisionId>, ts: seq<Transition>) returns (state: Result<Status, Error>)
    ensures state == Derive(decisions, ts)
  {
    hide Walk, Reach;
    if decisions == {} {
      if forall t | t in ts :: !t.Cancel? {
        return Ok(Unresolved);
      }
      return if ts == [Cancel(None)] then Ok(CancelledEmpty) else Err(LineageFork);
    }
    if Cancel(None) in ts {
      return Err(LineageInvalid);
    }
    var outgoing, incoming := Neighbours(decisions, ts);
    if exists d :: d in decisions && (|outgoing[d]| > 1 || |incoming[d]| > 1) {
      return Err(LineageFork);
    }
    var roots := set d | d in decisions && incoming[d] == {};
    assert roots == Roots(decisions, ts);
    if |roots| > 1 {
      return Err(OrphanDecision);
    }
    if roots == {} {
      return Err(LineageFork);
    }
    var root :| root in roots;
    forall r | r in roots ensures r == root {
      SizeAtMostOne(roots, r, root);
    }
    var reachable := Follow(decisions, ts, outgoing, root);
    if |reachable| != |decisions| {
      return Err(OrphanDecision);
    }
    var walked := WalkByLoop(root, ts);
    state := if walked.None? then Err(LineageFork) else Ok(StatusAt(walked.value));
  }

  /** The walk over the events in order. */
  method WalkByLoop(root: DecisionId, ts: seq<Transition>) returns (walked: Option<Walked>)
    ensures walked == Walk(root, ts)
  {
    var head, anchor := Some(root), None;
    for i := 0 to |ts|
      invariant Walk(root, ts[..i]) == Some(Walked(head, anchor))
    {
      assert ts[..i + 1][..i] == ts[..i];
      match ts[i] {
        case Cancel(prior) =>
          if prior != head {
            WalkFailureIsFinal(root, ts, i + 1);
            return None;
          }
          head, anchor := None, prior;
        case Supersede(prior, next) =>
          if (if head.Some? then head else anchor) != Some(prior) {
            WalkFailureIsFinal(root, ts, i + 1);
            return None;
          }
          head, anchor := Some(next), None;
      }
    }
    assert ts[..|ts|] == ts;
    walked := Some(Walked(head, anchor));
  }

  lemma NoEdges()
    ensures forall d :: Next([], d) == {} && Prior([], d) == {}
  {
  }

  lemma OneMoreEdge(ts: seq<Transition>, t: Transition, d: DecisionId)
    ensures Next(ts + [t], d) == Next(ts, d) + if t.Supersede? && t.prior == d then {t.next} else {}
    ensures Prior(ts + [t], d) == Prior(ts, d) + if t.Supersede? && t.next == d then {t.prior} else {}
  {
  }

  /** Each decision's successors and predecessors, filled in one pass over the supersessions. */
  method Neighbours(decisions: set<DecisionId>, ts: seq<Transition>)
    returns (outgoing: map<DecisionId, set<DecisionId>>, incoming: map<DecisionId, set<DecisionId>>)
    ensures outgoing.Keys == incoming.Keys == decisions
    ensures forall d | d in decisions :: outgoing[d] == Next(ts, d) && incoming[d] == Prior(ts, d)
  {
    hide Next, Prior;
    assert forall d :: Next([], d) == {} && Prior([], d) == {} by { NoEdges(); }
    outgoing := map d | d in decisions :: {};
    incoming := map d | d in decisions :: {};
    for i := 0 to |ts|
      invariant outgoing.Keys == incoming.Keys == decisions
      invariant forall d | d in decisions :: outgoing[d] == Next(ts[..i], d) && incoming[d] == Prior(ts[..i], d)
    {
      assert ts[..i + 1] == ts[..i] + [ts[i]];
      forall d | d in decisions
        ensures Next(ts[..i + 1], d)
                == Next(ts[..i], d) + if ts[i].Supersede? && ts[i].prior == d then {ts[i].next} else {}
        ensures Prior(ts[..i + 1], d)
                == Prior(ts[..i], d) + if ts[i].Supersede? && ts[i].next == d then {ts[i].prior} else {}
      {
        OneMoreEdge(ts[..i], ts[i], d);
      }
      if ts[i].Supersede? {
        if ts[i].prior in decisions {
          outgoing := outgoing[ts[i].prior := outgoing[ts[i].prior] + {ts[i].next}];
        }
        if ts[i].next in decisions {
          incoming := incoming[ts[i].next := incoming[ts[i].next] + {ts[i].prior}];
        }
      }
    }
    assert ts[..|ts|] == ts;
  }

  /** Follow the single successors from the root. */
  method Follow(decisions: set<DecisionId>, ts: seq<Transition>, outgoing: map<DecisionId, set<DecisionId>>,
                root: DecisionId)
    returns (reachable: set<DecisionId>)
    requires root in decisions && outgoing.Keys == decisions
    requires forall d | d in decisions :: outgoing[d] == Next(ts, d) && |outgoing[d]| <= 1
    ensures reachable == Reach(decisions, ts, root, {})
  {
    reachable := {};
    var cursor := root;
    while cursor !in reachable && cursor in decisions
      invariant reachable <= decisions
      invariant Reach(decisions, ts, root, {}) == Reach(decisions, ts, cursor, reachable)
      decreases |decisions - reachable|
    {
      SubsetSize(decisions - (reachable + {cursor}), decisions - reachable);
      reachable := reachable + {cursor};
      if outgoing[cursor] == {} {
        break;
      }
      var next :| next in outgoing[cursor];
      forall n | n in Next(ts, cursor) ensures n == next {
        SizeAtMostOne(Next(ts, cursor), n, next);
      }
      cursor := next;
    }
  }
}
