/** Human answers as append-only artifacts: ingesting a response, a replay or a cancellation, and
    the state every item is left in (`_ingest_one`, `_append_event` in
    scripts/clarification_protocol.py). The artifact tree is held in memory. */
module Clarification {
  import opened Vocabulary
  import opened Sequences
  import opened Lineage

  /** A response's bytes as normalization reads them: one declared choice, nothing recognizable,
      or an explicit cancellation. */
  datatype Reply = Decide(choice: string) | Unclear(text: string) | Withdraw

  datatype Call = Call(request: Request, item: string, submission: string, reply: Reply, meta: string)

  datatype Response = Response(reply: Reply, meta: string, stale: bool, decision: Option<DecisionId>)

  datatype Change = Moved(transition: Transition) | Noted

  datatype Event = Event(item: string, response: ResponseId, change: Change)

  /** Requests, responses, decisions and lineage events as published. Nothing is ever removed. */
  datatype Artifacts = Artifacts(
    responses: map<ResponseId, Response>,
    decisions: set<DecisionId>,
    lineage: seq<Event>,
    requests: set<Request>)

  datatype Failure = ItemNotInRequest | CancelledItem | IdConflict | MissingDecision | Unreadable(error: Error)

  datatype Ingested = Decided | Cancelled | StaleRequest | Reclarified | AmbiguityLimit | Failed(failure: Failure)

  const MAX_RECLARIFICATION_REVISIONS: nat := 2

  // ---- an item's state ----

  function DecisionsOf(a: Artifacts, item: string): set<DecisionId> {
    set d | d in a.decisions && d.response.item == item
  }

  function Transitions(lineage: seq<Event>, item: string): seq<Transition> {
    if lineage == [] then []
    else
      var last := lineage[|lineage| - 1];
      Transitions(lineage[..|lineage| - 1], item)
      + (if last.item == item && last.change.Moved? then [last.change.transition] else [])
  }

  /** The event's response exists, belongs to the item and says what the event records. */
  predicate EventBound(a: Artifacts, e: Event) {
    e.change.Moved? ==>
      && e.response in a.responses && e.response.item == e.item
      && match e.change.transition
         case Supersede(prior, next) =>
           && prior in DecisionsOf(a, e.item) && next in DecisionsOf(a, e.item) && prior != next
           && a.responses[e.response].reply.Decide? && a.responses[e.response].decision == Some(next)
         case Cancel(_) => a.responses[e.response].reply.Withdraw?
  }

  ghost function StateOf(a: Artifacts, item: string): Result<Status, Error> {
    if exists e :: e in a.lineage && e.item == item && !EventBound(a, e) then Err(LineageInvalid)
    else Derive(DecisionsOf(a, item), Transitions(a.lineage, item))
  }

  // ---- one ingest ----

  function ResponseIdOf(call: Call): ResponseId {
    ResponseId(call.request, call.item, call.submission)
  }

  /** No published request for the same items has a later revision. */
  predicate IsLatest(requests: set<Request>, r: Request) {
    forall other | other in requests && other.items == r.items :: other.revision <= r.revision
  }

  predicate IsCurrent(a: Artifacts, call: Call) {
    IsLatest(a.requests, call.request)
  }

  /** The request that asks the same items again. */
  function Revised(r: Request): Request {
    r.(revision := r.revision + 1)
  }

  predicate Conflicts(a: Artifacts, call: Call) {
    var id := ResponseIdOf(call);
    id in a.responses && !(a.responses[id].reply == call.reply && a.responses[id].meta == call.meta)
  }

  /** The response is written once; a replay keeps the one already there. */
  function Recorded(a: Artifacts, call: Call): Artifacts {
    var id := ResponseIdOf(call);
    if id in a.responses then a
    else
      var decision := if call.reply.Decide? && IsCurrent(a, call) then Some(DecisionId(id, call.reply.choice))
                      else None;
      a.(responses := a.responses[id := Response(call.reply, call.meta, !IsCurrent(a, call), decision)])
  }

  predicate IsMarked(a: Artifacts, call: Call) {
    exists e :: e in a.lineage && e.change.Moved? && e.change.transition.Cancel?
                && e.item == call.item && e.response == ResponseIdOf(call)
  }

  function Appended(a: Artifacts, call: Call, change: Change): Artifacts {
    a.(lineage := a.lineage + [Event(call.item, ResponseIdOf(call), change)])
  }

  function Predecessor(s: Status): Option<DecisionId> {
    match s
    case Effective(head) => Some(head)
    case CancelledAt(anchor) => Some(anchor)
    case _ => None
  }

  function HeadOf(s: Status): Option<DecisionId> {
    if s.Effective? then Some(s.head) else None
  }

  function DecidedArtifacts(a: Artifacts, call: Call, d: DecisionId, s: Status): Artifacts {
    var a' := a.(decisions := a.decisions + {d});
    var p := Predecessor(s);
    if p.Some? && p.value != d then Appended(a', call, Moved(Supersede(p.value, d))) else a'
  }

  ghost function Ingest(a: Artifacts, call: Call): (Artifacts, Ingested) {
    var state := StateOf(a, call.item);
    if call.item !in call.request.items then (a, Failed(ItemNotInRequest))
    else if IsCurrent(a, call) && call.reply.Decide? && state.Err? then (a, Failed(Unreadable(state.error)))
    else if IsCurrent(a, call) && call.reply.Decide? && state.value.CancelledEmpty? then (a, Failed(CancelledItem))
    else if Conflicts(a, call) then (a, Failed(IdConflict))
    else
      var a1 := Recorded(a, call);
      if !IsCurrent(a, call) then (a1, StaleRequest)
      else match call.reply
        case Decide(_) =>
          var decision := a1.responses[ResponseIdOf(call)].decision;
          if decision.None? then (a1, Failed(MissingDecision))
          else (DecidedArtifacts(a1, call, decision.value, state.value), Decided)
        case Withdraw =>
          var state1 := StateOf(a1, call.item);
          if state1.Err? then (a1, Failed(Unreadable(state1.error)))
          else if IsMarked(a1, call) then (a1, Cancelled)
          else (Appended(a1, call, Moved(Cancel(HeadOf(state1.value)))), Cancelled)
        case Unclear(_) =>
          if call.request.revision >= MAX_RECLARIFICATION_REVISIONS then (Appended(a1, call, Noted), AmbiguityLimit)
          else (Appended(a1.(requests := a1.requests + {Revised(call.request)}), call, Noted), Reclarified)
  }

  // ---- the abstract machine ----

  /** What one accepted call makes of an item's state; None is an item whose lineage can no longer
      be read. `known`: the response is already recorded. `marked`: its cancellation is too. */
  function NextStatus(s: Option<Status>, reply: Reply, d: DecisionId, known: bool, marked: bool): Option<Status> {
    if s.None? then None
    else match reply
      case Unclear(_) => s
      case Decide(_) =>
        if s.value.Unresolved? then Some(Effective(d))
        else if s.value.CancelledEmpty? || Predecessor(s.value) == Some(d) then s
        else if known then None
        else Some(Effective(d))
      case Withdraw =>
        if marked then s
        else match s.value
          case Unresolved => Some(CancelledEmpty)
          case Effective(head) => Some(CancelledAt(head))
          case _ => None
  }

  predicate Takes(a: Artifacts, call: Call) {
    call.item in call.request.items && IsCurrent(a, call) && !Conflicts(a, call)
  }

  ghost function Abstract(a: Artifacts, item: string): Option<Status> {
    var state := StateOf(a, item);
    if state.Ok? then Some(state.value) else None
  }

  function DecisionIdOf(call: Call): DecisionId {
    DecisionId(ResponseIdOf(call), if call.reply.Decide? then call.reply.choice else "")
  }

  ghost function NextAbstract(a: Artifacts, call: Call): Option<Status> {
    var s := Abstract(a, call.item);
    if Takes(a, call)
    then NextStatus(s, call.reply, DecisionIdOf(call), ResponseIdOf(call) in a.responses, IsMarked(a, call))
    else s
  }

  // ---- the invariant of every artifact tree ----

  ghost predicate ResponseSound(a: Artifacts, id: ResponseId)
    requires id in a.responses
  {
    var r := a.responses[id];
    && (r.decision.Some? <==> r.reply.Decide? && !r.stale)
    && (r.decision.Some? ==> r.decision.value == DecisionId(id, r.reply.choice))
    && (r.stale ==> !IsLatest(a.requests, id.request))
  }

  ghost predicate Valid(a: Artifacts) {
    && (forall id :: id in a.responses ==> ResponseSound(a, id))
    && (forall d :: d in a.decisions <==> d.response in a.responses && a.responses[d.response].decision == Some(d))
    && (forall e :: e in a.lineage ==> EventBound(a, e))
  }

  const EMPTY := Artifacts(map[], {}, [], {})

  lemma StateIsDerived(a: Artifacts, item: string)
    requires Valid(a)
    ensures StateOf(a, item) == Derive(DecisionsOf(a, item), Transitions(a.lineage, item))
    ensures Bound(DecisionsOf(a, item), Transitions(a.lineage, item))
  {
    TransitionsAreBound(a, a.lineage, item);
  }

  lemma {:induction false} TransitionsAreBound(a: Artifacts, lineage: seq<Event>, item: string)
    requires forall e :: e in lineage ==> EventBound(a, e)
    ensures Bound(DecisionsOf(a, item), Transitions(lineage, item))
    decreases |lineage|
  {
    if lineage != [] {
      var before, last := lineage[..|lineage| - 1], lineage[|lineage| - 1];
      assert lineage == before + [last];
      TransitionsAreBound(a, before, item);
      assert EventBound(a, last);
    }
  }

  lemma TransitionsAfterAppend(lineage: seq<Event>, e: Event, item: string)
    ensures Transitions(lineage + [e], item)
            == Transitions(lineage, item) + (if e.item == item && e.change.Moved? then [e.change.transition] else [])
  {
    assert (lineage + [e])[..|lineage|] == lineage;
  }

  /** More responses and decisions never unbind an event. */
  lemma EventStaysBound(a: Artifacts, a': Artifacts, e: Event)
    requires EventBound(a, e)
    requires forall id :: id in a.responses ==> id in a'.responses && a'.responses[id] == a.responses[id]
    requires a.decisions <= a'.decisions
    ensures EventBound(a', e)
  {
  }

  lemma RecordedIsValid(a: Artifacts, call: Call)
    requires Valid(a) && !(call.reply.Decide? && IsCurrent(a, call) && ResponseIdOf(call) !in a.responses)
    ensures Valid(Recorded(a, call))
    ensures forall item :: StateOf(Recorded(a, call), item) == StateOf(a, item)
    ensures IsMarked(Recorded(a, call), call) == IsMarked(a, call)
  {
    var a1 := Recorded(a, call);
    forall e | e in a.lineage ensures EventBound(a1, e) {
      EventStaysBound(a, a1, e);
    }
    forall item ensures StateOf(a1, item) == StateOf(a, item) {
      StateIsDerived(a, item);
      StateIsDerived(a1, item);
    }
  }

  function Supersessions(ts: seq<Transition>): nat {
    if ts == [] then 0
    else Supersessions(ts[..|ts| - 1]) + (if ts[|ts| - 1].Supersede? then 1 else 0)
  }

  lemma {:induction false} HistoryLength(ds: seq<DecisionId>, ts: seq<Transition>)
    requires History(ds, ts)
    ensures |ds| == 1 + Supersessions(ts)
    decreases |ts|
  {
    if ts != [] {
      HistoryLength(if ts[|ts| - 1].Supersede? then ds[..|ds| - 1] else ds, ts[..|ts| - 1]);
    }
  }

  // ---- how a history grows ----

  lemma HistoryGrows(decisions: set<DecisionId>, ds: seq<DecisionId>, ts: seq<Transition>, d: DecisionId)
    requires HistoryOf(decisions, ds, ts) && d !in decisions
    ensures HistoryOf(decisions + {d}, ds + [d], ts + [Supersede(ds[|ds| - 1], d)])
  {
    hide Distinct, Members;
    var ds', ts' := ds + [d], ts + [Supersede(ds[|ds| - 1], d)];
    assert ds'[..|ds'| - 1] == ds && ts'[..|ts'| - 1] == ts;
    assert History(ds', ts');
    hide History;
    DistinctConcat(ds, [d]);
    OneMember(d);
  }

  lemma OneMember(d: DecisionId)
    ensures Members([d]) == {d} && Distinct([d])
  {
  }

  /** A fresh decision extends a legal history. */
  lemma FreshDecision(decisions: set<DecisionId>, ts: seq<Transition>, d: DecisionId)
    requires Bound(decisions, ts) && Derive(decisions, ts).Ok?
    requires d !in decisions && !Derive(decisions, ts).value.CancelledEmpty?
    ensures
      var s := Derive(decisions, ts).value;
      var ts' := if Predecessor(s).Some? then ts + [Supersede(Predecessor(s).value, d)] else ts;
      Derive(decisions + {d}, ts') == Ok(Effective(d))
  {
    hide Derive;
    DeriveIff(decisions, ts);
    if decisions == {} {
      NoDecisions(decisions, ts);
      assert Members([d]) == {d};
      assert HistoryOf({d}, [d], ts);
      DeriveOfHistory({d}, [d], ts);
      assert decisions + {d} == {d};
    } else {
      var ds := HistoryOfDerive(decisions, ts);
      var ds', ts' := ds + [d], ts + [Supersede(ds[|ds| - 1], d)];
      HistoryGrows(decisions, ds, ts, d);
      DeriveOfHistory(decisions + {d}, ds', ts');
    }
  }

  lemma NoDecisions(decisions: set<DecisionId>, ts: seq<Transition>)
    requires Bound(decisions, ts) && decisions == {} && Derive(decisions, ts).Ok?
    ensures ts in {[], [Cancel(None)]}
    ensures Derive(decisions, ts).value == if ts == [] then Unresolved else CancelledEmpty
  {
    DeriveIff(decisions, ts);
  }

  /** Pointing an already superseded decision out again makes the lineage unreadable. */
  lemma OldReplay(decisions: set<DecisionId>, ts: seq<Transition>, d: DecisionId)
    requires Bound(decisions, ts) && Derive(decisions, ts).Ok? && d in decisions
    requires Predecessor(Derive(decisions, ts).value).Some? && Predecessor(Derive(decisions, ts).value).value != d
    ensures Derive(decisions, ts + [Supersede(Predecessor(Derive(decisions, ts).value).value, d)]).Err?
  {
    hide Derive;
    var ds := HistoryOfDerive(decisions, ts);
    DeriveIff(decisions, ts);
    SizeOfDistinct(ds);
    HistoryLength(ds, ts);
    var ts' := ts + [Supersede(Predecessor(Derive(decisions, ts).value).value, d)];
    assert ts'[..|ts'| - 1] == ts;
    assert ds[|ds| - 1] in decisions;
    DeriveIff(decisions, ts');
    forall ds' | HistoryOf(decisions, ds', ts') ensures |Members(ds')| > |Members(ds)| {
      SizeOfDistinct(ds');
      HistoryLength(ds', ts');
    }
  }

  /** Cancelling the current head, or an item that has no decision yet. */
  lemma FirstCancel(decisions: set<DecisionId>, ts: seq<Transition>)
    requires Bound(decisions, ts) && Derive(decisions, ts).Ok?
    requires Derive(decisions, ts).value.Unresolved? || Derive(decisions, ts).value.Effective?
    ensures
      var s := Derive(decisions, ts).value;
      Derive(decisions, ts + [Cancel(HeadOf(s))]) == Ok(if s.Effective? then CancelledAt(s.head) else CancelledEmpty)
  {
    hide Derive;
    DeriveIff(decisions, ts);
    if decisions == {} {
      NoDecisions(decisions, ts);
      assert ts + [Cancel(None)] == [Cancel(None)];
      DeriveIff(decisions, [Cancel(None)]);
    } else {
      var ds := HistoryOfDerive(decisions, ts);
      var ts' := ts + [Cancel(Some(ds[|ds| - 1]))];
      assert ts'[..|ts'| - 1] == ts;
      assert HistoryOf(decisions, ds, ts');
      DeriveOfHistory(decisions, ds, ts');
    }
  }

  /** A second cancellation of a cancelled item has no head to cancel and makes it unreadable. */
  lemma SecondCancel(decisions: set<DecisionId>, ts: seq<Transition>)
    requires Bound(decisions, ts) && Derive(decisions, ts).Ok?
    requires Derive(decisions, ts).value.CancelledAt? || Derive(decisions, ts).value.CancelledEmpty?
    ensures Derive(decisions, ts + [Cancel(None)]).Err?
  {
    if decisions == {} {
      NoDecisions(decisions, ts);
      var ts' := ts + [Cancel(None)];
      assert |ts'| == 2 && ts'[1] in ts';
    } else {
      assert Cancel(None) in ts + [Cancel(None)];
    }
  }

  // ---- refinement ----

  /** Every call, whatever it is, moves the item it names exactly as the abstract machine says,
      leaves every other item as it was, and keeps the artifact tree well-formed. */
  lemma IngestRefines(a: Artifacts, call: Call)
    requires Valid(a)
    ensures Valid(Ingest(a, call).0)
    ensures Abstract(Ingest(a, call).0, call.item) == NextAbstract(a, call)
    ensures forall item :: item != call.item ==> StateOf(Ingest(a, call).0, item) == StateOf(a, item)
    ensures Ingest(a, call).1 != Failed(MissingDecision)
  {
    if Takes(a, call) {
      match call.reply {
        case Decide(_) => DecideRefines(a, call);
        case Withdraw => WithdrawRefines(a, call);
        case Unclear(_) => UnclearRefines(a, call);
      }
    } else if call.item in call.request.items && !IsCurrent(a, call) && !Conflicts(a, call) {
      RecordedIsValid(a, call);
    }
  }

  lemma UnclearRefines(a: Artifacts, call: Call)
    requires Valid(a) && Takes(a, call) && call.reply.Unclear?
    ensures Valid(Ingest(a, call).0)
    ensures forall item :: StateOf(Ingest(a, call).0, item) == StateOf(a, item)
    ensures Ingest(a, call).1 in {AmbiguityLimit, Reclarified}
  {
    hide Derive, Valid, StateOf, Recorded, Conflicts;
    RecordedIsValid(a, call);
    var a1 := Recorded(a, call);
    NotedIsValid(a1, call, a1.requests);
    NotedIsValid(a1, call, a1.requests + {Revised(call.request)});
    assert a1.(requests := a1.requests) == a1;
  }

  /** Noting an unclear answer moves no item. */
  lemma NotedIsValid(a: Artifacts, call: Call, requests: set<Request>)
    requires Valid(a) && a.requests <= requests
    ensures
      var a' := Appended(a.(requests := requests), call, Noted);
      Valid(a') && forall item :: StateOf(a', item) == StateOf(a, item)
  {
    hide Derive;
    var e := Event(call.item, ResponseIdOf(call), Noted);
    var a' := Appended(a.(requests := requests), call, Noted);
    assert Valid(a') by {
      forall id | id in a'.responses ensures ResponseSound(a', id) {
        assert ResponseSound(a, id);
      }
      forall e' | e' in a'.lineage ensures EventBound(a', e') {
        if e' in a.lineage {
          EventStaysBound(a, a', e');
        }
      }
    }
    hide Valid, StateOf, EventBound;
    forall item ensures StateOf(a', item) == StateOf(a, item) {
      TransitionsAfterAppend(a.lineage, e, item);
      assert Transitions(a.lineage, item) + [] == Transitions(a.lineage, item);
      assert DecisionsOf(a', item) == DecisionsOf(a, item);
      StateIsDerived(a, item);
      StateIsDerived(a', item);
    }
  }

  /** Appending a bound transition for one item. */
  lemma AppendedIsValid(a: Artifacts, call: Call, t: Transition)
    requires Valid(a) && EventBound(a, Event(call.item, ResponseIdOf(call), Moved(t)))
    ensures Valid(Appended(a, call, Moved(t)))
    ensures forall item :: item != call.item ==> StateOf(Appended(a, call, Moved(t)), item) == StateOf(a, item)
    ensures StateOf(Appended(a, call, Moved(t)), call.item)
            == Derive(DecisionsOf(a, call.item), Transitions(a.lineage, call.item) + [t])
  {
    hide Derive;
    var a' := Appended(a, call, Moved(t));
    var e := Event(call.item, ResponseIdOf(call), Moved(t));
    assert Valid(a') by {
      forall id | id in a'.responses ensures ResponseSound(a', id) {
        assert ResponseSound(a, id);
      }
      forall e' | e' in a'.lineage ensures EventBound(a', e') {
        EventStaysBound(a, a', e');
      }
    }
    forall item
      ensures StateOf(a', item)
              == Derive(DecisionsOf(a, item), Transitions(a.lineage, item) + (if item == call.item then [t] else []))
      ensures item != call.item ==> StateOf(a', item) == StateOf(a, item)
    {
      TransitionsAfterAppend(a.lineage, e, item);
      StateIsDerived(a, item);
      StateIsDerived(a', item);
      assert DecisionsOf(a', item) == DecisionsOf(a, item);
      assert Transitions(a.lineage, item) + [] == Transitions(a.lineage, item);
    }
  }

  lemma WithdrawRefines(a: Artifacts, call: Call)
    requires Valid(a) && Takes(a, call) && call.reply.Withdraw?
    ensures Valid(Ingest(a, call).0)
    ensures Abstract(Ingest(a, call).0, call.item) == NextAbstract(a, call)
    ensures forall item :: item != call.item ==> StateOf(Ingest(a, call).0, item) == StateOf(a, item)
    ensures Ingest(a, call).1 != Failed(MissingDecision)
  {
    hide Derive;
    RecordedIsValid(a, call);
    var a1 := Recorded(a, call);
    var state := StateOf(a1, call.item);
    if state.Ok? && !IsMarked(a1, call) {
      StateIsDerived(a1, call.item);
      AppendedIsValid(a1, call, Cancel(HeadOf(state.value)));
      var decisions, ts := DecisionsOf(a1, call.item), Transitions(a1.lineage, call.item);
      if state.value.Unresolved? || state.value.Effective? {
        FirstCancel(decisions, ts);
      } else {
        SecondCancel(decisions, ts);
      }
    }
  }

  /** Publishing a fresh decision, before any event is appended for it. */
  lemma PublishedIsValid(a: Artifacts, call: Call)
    requires Valid(a) && Takes(a, call) && call.reply.Decide?
    ensures
      var a2 := Recorded(a, call).(decisions := a.decisions + {DecisionIdOf(call)});
      && Valid(a2)
      && (forall item :: item != call.item ==> StateOf(a2, item) == StateOf(a, item))
      && DecisionsOf(a2, call.item) == DecisionsOf(a, call.item) + {DecisionIdOf(call)}
      && Recorded(a, call).responses[ResponseIdOf(call)].decision == Some(DecisionIdOf(call))
      && (ResponseIdOf(call) in a.responses <==> DecisionIdOf(call) in a.decisions)
  {
    var a2 := Recorded(a, call).(decisions := a.decisions + {DecisionIdOf(call)});
    if ResponseIdOf(call) in a.responses {
      assert ResponseSound(a, ResponseIdOf(call));
    }
    assert Valid(a2) by {
      forall id | id in a2.responses ensures ResponseSound(a2, id) {
        if id in a.responses {
          assert ResponseSound(a, id);
        }
      }
      forall e | e in a2.lineage ensures EventBound(a2, e) {
        EventStaysBound(a, a2, e);
      }
    }
    forall item ensures item != call.item ==> StateOf(a2, item) == StateOf(a, item) {
      StateIsDerived(a, item);
      StateIsDerived(a2, item);
      if item != call.item {
        assert DecisionsOf(a2, item) == DecisionsOf(a, item);
      }
    }
  }

  lemma DecideRefines(a: Artifacts, call: Call)
    requires Valid(a) && Takes(a, call) && call.reply.Decide?
    ensures Valid(Ingest(a, call).0)
    ensures Abstract(Ingest(a, call).0, call.item) == NextAbstract(a, call)
    ensures forall item :: item != call.item ==> StateOf(Ingest(a, call).0, item) == StateOf(a, item)
    ensures Ingest(a, call).1 != Failed(MissingDecision)
  {
    hide Derive;
    var state := StateOf(a, call.item);
    if state.Ok? && !state.value.CancelledEmpty? {
      StateIsDerived(a, call.item);
      PublishedIsValid(a, call);
      var d := DecisionIdOf(call);
      var decisions, ts := DecisionsOf(a, call.item), Transitions(a.lineage, call.item);
      var a2 := Recorded(a, call).(decisions := a.decisions + {d});
      var p := Predecessor(state.value);
      assert d in a.decisions <==> d in decisions;
      PredecessorIsADecision(decisions, ts);
      if p.Some? && p.value != d {
        AppendedIsValid(a2, call, Supersede(p.value, d));
      } else {
        StateIsDerived(a2, call.item);
      }
      if d in decisions {
        assert decisions + {d} == decisions;
        if p.Some? && p.value != d {
          OldReplay(decisions, ts, d);
        }
      } else {
        FreshDecision(decisions, ts, d);
      }
    }
  }

  lemma PredecessorIsADecision(decisions: set<DecisionId>, ts: seq<Transition>)
    requires Bound(decisions, ts) && Derive(decisions, ts).Ok?
    ensures Predecessor(Derive(decisions, ts).value).Some? ==>
              Predecessor(Derive(decisions, ts).value).value in decisions
    ensures decisions != {} ==> Predecessor(Derive(decisions, ts).value).Some?
  {
    hide Derive;
    DeriveIff(decisions, ts);
    if decisions == {} {
      NoDecisions(decisions, ts);
    } else {
      var ds := HistoryOfDerive(decisions, ts);
      assert ds[|ds| - 1] in Members(ds);
    }
  }

  /** The only decision a call can add is its own, on an item it finds open to decisions. */
  lemma OnlyItsOwnDecision(a: Artifacts, call: Call)
    requires Valid(a)
    ensures
      var added := Ingest(a, call).0.decisions;
      && a.decisions <= added <= a.decisions + {DecisionIdOf(call)}
      && (added != a.decisions ==> StateOf(a, call.item).Ok? && !StateOf(a, call.item).value.CancelledEmpty?)
  {
    hide Derive, Transitions;
    if Takes(a, call) && call.reply.Decide? {
      PublishedIsValid(a, call);
    }
  }

  /** Only an item without decisions is cancelled before any. */
  lemma CancelledEmptyHasNone(a: Artifacts, item: string)
    requires Valid(a) && Abstract(a, item) == Some(CancelledEmpty)
    ensures DecisionsOf(a, item) == {}
  {
    hide Derive;
    StateIsDerived(a, item);
    PredecessorIsADecision(DecisionsOf(a, item), Transitions(a.lineage, item));
  }
}
