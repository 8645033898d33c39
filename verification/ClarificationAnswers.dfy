/** What one call answers and leaves behind, and what one reading of an item reports, said of the
    artifacts themselves. */
module ClarificationAnswers {
  import opened Vocabulary
  import opened Sequences
  import opened Lineage
  import opened Clarification

  // ---- reading an item ----

  /** An event of the item that moved it, but whose response is not on record for the item or says
      something else: for a supersession, a decision for the next of two different decisions of the
      item; for a cancellation, to cancel. */
  ghost predicate Misbound(a: Artifacts, e: Event) {
    && e.change.Moved?
    && (|| e.response !in a.responses || e.response.item != e.item
        || match e.change.transition
           case Supersede(prior, next) =>
             || prior == next
             || prior !in a.decisions || prior.response.item != e.item
             || next !in a.decisions || next.response.item != e.item
             || a.responses[e.response].decision != Some(next) || !a.responses[e.response].reply.Decide?
           case Cancel(_) => a.responses[e.response].reply != Withdraw)
  }

  /** An item cannot be read while one of its own events is misbound; the events of other items are of
      no concern to it. */
  lemma MisboundIsUnreadable(a: Artifacts, item: string)
    ensures (exists e :: e in a.lineage && e.item == item && Misbound(a, e)) ==> StateOf(a, item) == Err(LineageInvalid)
    ensures (forall e :: e in a.lineage && e.item == item ==> !Misbound(a, e)) ==>
              StateOf(a, item) == Derive(DecisionsOf(a, item), Transitions(a.lineage, item))
  {
    forall e ensures EventBound(a, e) <==> !Misbound(a, e) {
      BoundIff(a, e);
    }
    hide Derive, Transitions, EventBound, Misbound;
  }

  lemma BoundIff(a: Artifacts, e: Event)
    ensures EventBound(a, e) <==> !Misbound(a, e)
  {
  }

  /** Two supersessions leave one decision, or lead to one, by different ways. */
  ghost predicate Branches(ts: seq<Transition>) {
    exists s, t :: s in ts && t in ts && s.Supersede? && t.Supersede?
                   && ((s.prior == t.prior && s.next != t.next) || (s.next == t.next && s.prior != t.prior))
  }

  ghost predicate Unpreceded(decisions: set<DecisionId>, ts: seq<Transition>, d: DecisionId) {
    d in decisions && forall t :: t in ts && t.Supersede? ==> t.next != d
  }

  lemma ForksIff(decisions: set<DecisionId>, ts: seq<Transition>)
    requires Bound(decisions, ts)
    ensures Forks(decisions, ts) <==> Branches(ts)
  {
    forall d ensures |Next(ts, d)| > 1 <==> exists x, y :: x in Next(ts, d) && y in Next(ts, d) && x != y {
      MoreThanOne(Next(ts, d));
    }
    forall d ensures |Prior(ts, d)| > 1 <==> exists x, y :: x in Prior(ts, d) && y in Prior(ts, d) && x != y {
      MoreThanOne(Prior(ts, d));
    }
    if s, t :| s in ts && t in ts && s.Supersede? && t.Supersede?
               && ((s.prior == t.prior && s.next != t.next) || (s.next == t.next && s.prior != t.prior)) {
      assert s.next in Next(ts, s.prior) && t.next in Next(ts, t.prior);
      assert s.prior in Prior(ts, s.next) && t.prior in Prior(ts, t.next);
    }
  }

  lemma {:induction false} MoreThanOne<T>(s: set<T>)
    ensures |s| > 1 <==> exists x, y :: x in s && y in s && x != y
  {
    if s != {} {
      var x :| x in s;
      if s == {x} {
      } else {
        assert s == {x} + (s - {x});
        var y :| y in s - {x};
        SubsetSize({x, y}, s);
      }
    }
  }

  lemma {:induction false} ReachStaysInside(decisions: set<DecisionId>, ts: seq<Transition>, cursor: DecisionId,
                                            seen: set<DecisionId>)
    requires seen <= decisions
    ensures Reach(decisions, ts, cursor, seen) <= decisions
    decreases |decisions - seen|
  {
    if cursor !in seen && cursor in decisions {
      SubsetSize(decisions - (seen + {cursor}), decisions - seen);
      forall next | next in Next(ts, cursor) ensures Reach(decisions, ts, next, seen + {cursor}) <= decisions {
        ReachStaysInside(decisions, ts, next, seen + {cursor});
      }
    }
  }

  /** The one decision nothing precedes, and what following the supersessions from it misses. */
  ghost predicate Misses(decisions: set<DecisionId>, ts: seq<Transition>) {
    exists root, d :: Unpreceded(decisions, ts, root) && d in decisions && d !in Reach(decisions, ts, root, {})
  }

  ghost predicate TwoStarts(decisions: set<DecisionId>, ts: seq<Transition>) {
    exists x, y :: Unpreceded(decisions, ts, x) && Unpreceded(decisions, ts, y) && x != y
  }

  lemma RootsAre(decisions: set<DecisionId>, ts: seq<Transition>)
    ensures forall d :: d in Roots(decisions, ts) <==> Unpreceded(decisions, ts, d)
  {
    forall d | d in decisions ensures Prior(ts, d) == {} <==> Unpreceded(decisions, ts, d) {
      if t :| t in ts && t.Supersede? && t.next == d {
        assert t.prior in Prior(ts, d);
      }
    }
  }

  /** Which fault is reported: a cancellation of nothing on an item with decisions is invalid; a
      decision off the line from the only first one, or a second first one, is an orphan unless the
      line branches; every other fault is a fork. */
  lemma FaultIs(decisions: set<DecisionId>, ts: seq<Transition>)
    requires Bound(decisions, ts)
    ensures
      var read := Derive(decisions, ts);
      && (read == Err(LineageInvalid) <==> decisions != {} && Cancel(None) in ts)
      && (read == Err(OrphanDecision) <==>
            decisions != {} && Cancel(None) !in ts && !Branches(ts)
            && (TwoStarts(decisions, ts) || Misses(decisions, ts)))
  {
    hide Walk, Reach, Forks, Branches, Unpreceded, Bound, Roots;
    ForksIff(decisions, ts);
    RootsAre(decisions, ts);
    var roots := Roots(decisions, ts);
    MoreThanOne(roots);
    if decisions != {} && roots != {} && |roots| <= 1 {
      var root :| root in roots;
      forall r | r in roots ensures r == root {
        SizeAtMostOne(roots, r, root);
      }
      ReachStaysInside(decisions, ts, root, {});
      SubsetSize(Reach(decisions, ts, root, {}), decisions);
      assert Misses(decisions, ts) <==> Reach(decisions, ts, root, {}) != decisions;
    }
    if roots == {} {
      assert !Misses(decisions, ts) && !TwoStarts(decisions, ts);
    }
  }

  // ---- one call ----

  /** What a call is recorded under, and as. */
  function FiledAs(call: Call): ResponseId {
    ResponseId(call.request, call.item, call.submission)
  }

  /** No request for the same items has been revised further. */
  ghost predicate Timely(a: Artifacts, call: Call) {
    forall other :: other in a.requests && other.items == call.request.items ==>
                      other.revision <= call.request.revision
  }

  /** The same response identifier is on record with other content. */
  predicate Contradicts(a: Artifacts, call: Call) {
    && FiledAs(call) in a.responses
    && (a.responses[FiledAs(call)].reply, a.responses[FiledAs(call)].meta) != (call.reply, call.meta)
  }

  /** The artifacts with the response on record, once. */
  function Filing(a: Artifacts, call: Call, stale: bool): Artifacts {
    var decision := match call.reply
      case Decide(choice) => if stale then None else Some(DecisionId(FiledAs(call), choice))
      case _ => None;
    if FiledAs(call) in a.responses then a
    else a.(responses := a.responses[FiledAs(call) := Response(call.reply, call.meta, stale, decision)])
  }

  /** The decision a new one takes the place of. */
  function Standing(s: Status): Option<DecisionId> {
    match s
    case Effective(head) => Some(head)
    case CancelledAt(anchor) => Some(anchor)
    case _ => None
  }

  /** The event by which a decision replaces another. */
  function Replacing(call: Call, standing: Option<DecisionId>, d: DecisionId): seq<Event> {
    match standing
    case None => []
    case Some(prior) => if prior == d then [] else [Event(call.item, FiledAs(call), Moved(Supersede(prior, d)))]
  }

  ghost predicate AlreadyCancelled(a: Artifacts, call: Call) {
    exists e :: e in a.lineage && e.item == call.item && e.response == FiledAs(call) && e.change.Moved?
                && e.change.transition.Cancel?
  }

  /** What a timely call leaves, given the status its item was read with. */
  ghost predicate Answers(a: Artifacts, call: Call, status: Option<Status>, a': Artifacts, result: Ingested) {
    var filed := Filing(a, call, false);
    match call.reply
    case Decide(choice) =>
      var d := DecisionId(FiledAs(call), choice);
      (match status
       case None => a' == a && result.Failed? && result.failure.Unreadable?
       case Some(CancelledEmpty) => a' == a && result == Failed(CancelledItem)
       case Some(s) =>
         && result == Decided
         && a' == filed.(decisions := a.decisions + {d}, lineage := a.lineage + Replacing(call, Standing(s), d)))
    case Withdraw =>
      (match status
       case None => a' == filed && result.Failed? && result.failure.Unreadable?
       case Some(s) =>
         var head := if s.Effective? then Some(s.head) else None;
         var moved := if AlreadyCancelled(a, call) then [] else [Event(call.item, FiledAs(call), Moved(Cancel(head)))];
         && result == Cancelled && a' == filed.(lineage := a.lineage + moved))
    case Unclear(_) =>
      var noted := filed.(lineage := a.lineage + [Event(call.item, FiledAs(call), Noted)]);
      if call.request.revision < 2 then
        && result == Reclarified
        && a' == noted.(requests := a.requests + {Request(call.request.text, call.request.revision + 1,
                                                          call.request.items)})
      else result == AmbiguityLimit && a' == noted
  }

  /** What every call answers and leaves behind. */
  lemma IngestAnswers(a: Artifacts, call: Call)
    requires Valid(a)
    ensures
      var (a', result) := Ingest(a, call);
      var status := Abstract(a, call.item);
      if call.item !in call.request.items then a' == a && result == Failed(ItemNotInRequest)
      else if Contradicts(a, call)
              && !(Timely(a, call) && call.reply.Decide? && status in {None, Some(CancelledEmpty)}) then
        a' == a && result == Failed(IdConflict)
      else if !Timely(a, call) then a' == Filing(a, call, true) && result == StaleRequest
      else Answers(a, call, status, a', result)
  {
    hide Derive, Transitions, Valid;
    assert IsCurrent(a, call) <==> Timely(a, call);
    assert Conflicts(a, call) <==> Contradicts(a, call);
    assert Recorded(a, call) == Filing(a, call, !Timely(a, call));
    if call.item in call.request.items && !Conflicts(a, call) && IsCurrent(a, call) {
      if call.reply.Decide? {
        PublishedIsValid(a, call);
      } else {
        RecordedIsValid(a, call);
      }
      assert a.lineage + [] == a.lineage;
    }
  }
}
