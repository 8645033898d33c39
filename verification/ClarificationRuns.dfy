/** Whole histories of an artifact tree: any sequence of requests published and responses ingested. */
module ClarificationRuns {
  import opened Vocabulary
  import opened Lineage
  import opened Clarification

  datatype Step = Publish(request: Request) | Respond(call: Call)

  ghost function Apply(a: Artifacts, step: Step): Artifacts {
    match step
    case Publish(request) => a.(requests := a.requests + {request})
    case Respond(call) => Ingest(a, call).0
  }

  ghost function Run(steps: seq<Step>): Artifacts {
    if steps == [] then EMPTY else Apply(Run(steps[..|steps| - 1]), steps[|steps| - 1])
  }

  /** The two calls that break an item: replaying a decision that is no longer the head or the
      anchor, and cancelling, under a new submission, an item already cancelled. */
  ghost predicate Breaks(a: Artifacts, call: Call) {
    var s := Abstract(a, call.item);
    && Takes(a, call) && s.Some?
    && match call.reply
       case Unclear(_) => false
       case Decide(_) =>
         && ResponseIdOf(call) in a.responses
         && Predecessor(s.value).Some? && Predecessor(s.value) != Some(DecisionIdOf(call))
       case Withdraw => !IsMarked(a, call) && (s.value.CancelledAt? || s.value.CancelledEmpty?)
  }

  /** Publishing a request moves no item; it may make older requests for the same items stale. */
  lemma PublishKeeps(a: Artifacts, request: Request)
    requires Valid(a)
    ensures
      var a' := Apply(a, Publish(request));
      && Valid(a') && a'.decisions == a.decisions
      && forall item :: StateOf(a', item) == StateOf(a, item) && DecisionsOf(a', item) == DecisionsOf(a, item)
  {
    hide Derive;
    var a' := Apply(a, Publish(request));
    assert Valid(a') by {
      forall id | id in a'.responses ensures ResponseSound(a', id) {
        assert ResponseSound(a, id);
      }
      forall e | e in a'.lineage ensures EventBound(a', e) {
        EventStaysBound(a, a', e);
      }
    }
    forall item ensures StateOf(a', item) == StateOf(a, item) {
      assert DecisionsOf(a', item) == DecisionsOf(a, item);
      StateIsDerived(a, item);
      StateIsDerived(a', item);
    }
  }

  lemma {:induction false} RunIsValid(steps: seq<Step>)
    ensures Valid(Run(steps))
    decreases |steps|
  {
    hide Valid, Ingest;
    if steps == [] {
      NothingIsValid();
    } else {
      RunIsValid(steps[..|steps| - 1]);
      match steps[|steps| - 1] {
        case Publish(request) => PublishKeeps(Run(steps[..|steps| - 1]), request);
        case Respond(call) => IngestRefines(Run(steps[..|steps| - 1]), call);
      }
    }
  }

  lemma NothingIsValid()
    ensures Valid(EMPTY)
  {
  }

  /** A call makes a readable item unreadable exactly when it is one of the two that break it. */
  lemma BreaksIff(a: Artifacts, call: Call)
    requires Valid(a)
    ensures Breaks(a, call) <==> Abstract(a, call.item).Some? && Abstract(Ingest(a, call).0, call.item).None?
  {
    IngestRefines(a, call);
    var s := Abstract(a, call.item);
    if s.Some? && Takes(a, call) && call.reply.Decide? && ResponseIdOf(call) in a.responses {
      KnownHasPredecessor(a, call);
    }
    hide StateOf, Valid, Conflicts, IsMarked, Ingest;
  }

  /** An item one of whose answers is recorded has a decision to go back to. */
  lemma KnownHasPredecessor(a: Artifacts, call: Call)
    requires Valid(a) && Takes(a, call) && call.reply.Decide? && ResponseIdOf(call) in a.responses
    requires Abstract(a, call.item).Some?
    ensures Predecessor(Abstract(a, call.item).value).Some?
  {
    hide Derive;
    StateIsDerived(a, call.item);
    PublishedIsValid(a, call);
    assert DecisionIdOf(call) in DecisionsOf(a, call.item);
    PredecessorIsADecision(DecisionsOf(a, call.item), Transitions(a.lineage, call.item));
  }

  /** What one call leaves unreadable stays so, and what is unreadable is never repaired. */
  lemma UnreadableStays(a: Artifacts, call: Call)
    requires Valid(a)
    ensures Abstract(a, call.item).None? ==> Abstract(Ingest(a, call).0, call.item).None?
    ensures forall item :: item != call.item ==> Abstract(Ingest(a, call).0, item) == Abstract(a, item)
  {
    IngestRefines(a, call);
    hide StateOf, Ingest, Valid;
  }

  ghost predicate BreaksAt(a: Artifacts, step: Step, item: string) {
    step.Respond? && step.call.item == item && Breaks(a, step.call)
  }

  /** Step `k` breaks the item. */
  ghost predicate BrokenAt(steps: seq<Step>, k: nat, item: string)
    requires k < |steps|
  {
    BreaksAt(Run(steps[..k]), steps[k], item)
  }

  /** An item can be read after a step exactly when it could before and the step did not break it. */
  lemma StepReads(a: Artifacts, step: Step, item: string)
    requires Valid(a)
    ensures Abstract(Apply(a, step), item).Some? <==> Abstract(a, item).Some? && !BreaksAt(a, step, item)
  {
    hide Valid, Breaks, Ingest, StateOf;
    match step {
      case Publish(request) => PublishKeeps(a, request);
      case Respond(call) =>
        BreaksIff(a, call);
        UnreadableStays(a, call);
    }
  }

  /** Over any sequence of steps, an item's lineage can be read at the end exactly when no call
      broke it on the way; once broken it stays unreadable. */
  lemma {:induction false} ReadableIffNeverBroken(steps: seq<Step>, item: string)
    ensures Abstract(Run(steps), item).Some? <==> forall k | 0 <= k < |steps| :: !BrokenAt(steps, k, item)
    decreases |steps|
  {
    hide Valid, Breaks, Ingest, Apply, Abstract, BreaksAt;
    if steps == [] {
      NothingIsUnresolved(item);
    } else {
      var n := |steps| - 1;
      var before := steps[..n];
      ReadableIffNeverBroken(before, item);
      RunIsValid(before);
      forall k | 0 <= k < n ensures BrokenAt(before, k, item) <==> BrokenAt(steps, k, item) {
        assert before[..k] == steps[..k];
      }
      StepReads(Run(before), steps[n], item);
      assert BrokenAt(steps, n, item) <==> BreaksAt(Run(before), steps[n], item);
    }
  }

  lemma NothingIsUnresolved(item: string)
    ensures Abstract(EMPTY, item) == Some(Unresolved)
  {
    assert Transitions(EMPTY.lineage, item) == [];
    assert DecisionsOf(EMPTY, item) == {};
  }

  // ---- items cancelled before any decision ----

  lemma CancelledEmptyRefusesDecisions(a: Artifacts, call: Call)
    requires Abstract(a, call.item) == Some(CancelledEmpty) || Abstract(a, call.item).None?
    requires call.item in call.request.items && IsCurrent(a, call) && call.reply.Decide?
    ensures Ingest(a, call).0 == a && Ingest(a, call).1.Failed?
  {
  }

  /** `call` cancels the item once more, under a submission that has not cancelled it yet. */
  ghost predicate CancelsAgain(a: Artifacts, call: Call, item: string) {
    call.item == item && Takes(a, call) && call.reply.Withdraw? && !IsMarked(a, call)
  }

  /** The step from a cancelled-empty item: it stays so, or a second cancellation makes it unreadable. */
  lemma CancelledEmptyStep(a: Artifacts, call: Call)
    requires Valid(a) && Abstract(a, call.item) == Some(CancelledEmpty)
    ensures Abstract(Ingest(a, call).0, call.item)
            == if CancelsAgain(a, call, call.item) then None else Some(CancelledEmpty)
  {
    IngestRefines(a, call);
    hide StateOf, Valid, Conflicts, IsMarked, Ingest;
  }

  ghost predicate CancelledAgainAt(steps: seq<Step>, more: seq<Step>, k: nat, item: string)
    requires k < |more|
  {
    more[k].Respond? && CancelsAgain(Run(steps + more[..k]), more[k].call, item)
  }

  /** Cancelling an item before its first decision is final. Whatever follows, no decision on it is
      ever recorded: every current one is refused and changes nothing. The item stays cancelled until
      some further cancellation under a new submission, which makes it unreadable for good. */
  lemma {:induction false} CancelledEmptyIsFinal(steps: seq<Step>, more: seq<Step>, item: string)
    requires Abstract(Run(steps), item) == Some(CancelledEmpty)
    ensures DecisionsOf(Run(steps + more), item) == {}
    ensures Abstract(Run(steps + more), item)
            == if exists k :: 0 <= k < |more| && CancelledAgainAt(steps, more, k, item) then None
               else Some(CancelledEmpty)
    ensures forall call: Call |
              && call.item == item && item in call.request.items
              && IsCurrent(Run(steps + more), call) && call.reply.Decide? ::
              Ingest(Run(steps + more), call).0 == Run(steps + more) && Ingest(Run(steps + more), call).1.Failed?
    decreases |more|
  {
    hide Valid, Ingest, StateOf, IsCurrent, DecisionsOf;
    RunIsValid(steps);
    if more == [] {
      assert steps + more == steps;
      CancelledEmptyHasNone(Run(steps), item);
    } else {
      var n := |more| - 1;
      var before := more[..n];
      CancelledEmptyIsFinal(steps, before, item);
      RunIsValid(steps + before);
      assert (steps + more)[..|steps + more| - 1] == steps + before && (steps + more)[|steps + more| - 1] == more[n];
      forall k | 0 <= k < n
        ensures CancelledAgainAt(steps, before, k, item) <==> CancelledAgainAt(steps, more, k, item)
      {
        assert before[..k] == more[..k];
      }
      CancelledEmptyMoves(Run(steps + before), more[n], item);
      assert CancelledAgainAt(steps, more, n, item)
             <==> more[n].Respond? && CancelsAgain(Run(steps + before), more[n].call, item);
    }
    forall call: Call | call.item == item && item in call.request.items && call.reply.Decide?
                        && IsCurrent(Run(steps + more), call)
      ensures Ingest(Run(steps + more), call).0 == Run(steps + more) && Ingest(Run(steps + more), call).1.Failed?
    {
      CancelledEmptyRefusesDecisions(Run(steps + more), call);
    }
  }

  lemma CancelledEmptyMoves(a: Artifacts, step: Step, item: string)
    requires Valid(a) && DecisionsOf(a, item) == {}
    requires Abstract(a, item) == Some(CancelledEmpty) || Abstract(a, item).None?
    ensures DecisionsOf(Apply(a, step), item) == {}
    ensures Abstract(Apply(a, step), item)
            == if step.Respond? && CancelsAgain(a, step.call, item) then None else Abstract(a, item)
  {
    hide Valid, Ingest, StateOf, Takes, IsMarked;
    match step {
      case Publish(request) => PublishKeeps(a, request);
      case Respond(call) =>
        OnlyItsOwnDecision(a, call);
        UnreadableStays(a, call);
        if call.item == item && Abstract(a, item).Some? {
          CancelledEmptyStep(a, call);
        }
    }
  }

  // ---- replays ----

  /** Publishing is write-once and replays are exact: repeating a call changes nothing, except that
      an unclear answer to the last allowed revision notes the limit once more, and only that. */
  lemma ReplayIsExact(a: Artifacts, call: Call)
    requires Valid(a)
    ensures
      var (a', result) := Ingest(a, call);
      Ingest(a', call).0 == if result.AmbiguityLimit? then Appended(a', call, Noted) else a'
  {
    hide Derive;
    var a' := Ingest(a, call).0;
    IngestRefines(a, call);
    if Takes(a, call) && call.reply.Decide? && StateOf(a, call.item).Ok?
       && !StateOf(a, call.item).value.CancelledEmpty? {
      DecidedReplay(a, call);
    } else if Takes(a, call) && call.reply.Withdraw? && StateOf(a, call.item).Ok? {
      RecordedIsValid(a, call);
      WithdrawnReplay(a, call);
    } else if Takes(a, call) && call.reply.Withdraw? {
      RecordedIsValid(a, call);
      assert a' == Recorded(a, call);
    } else if Takes(a, call) && call.reply.Unclear? {
      UnclearReplay(a, call);
    }
  }

  lemma UnclearReplay(a: Artifacts, call: Call)
    requires Valid(a) && Takes(a, call) && call.reply.Unclear?
    ensures
      var (a', result) := Ingest(a, call);
      Ingest(a', call).0 == if result.AmbiguityLimit? then Appended(a', call, Noted) else a'
  {
    hide StateOf, Valid;
    var a' := Ingest(a, call).0;
    assert Recorded(a', call) == a' && !Conflicts(a', call);
    if call.request.revision < MAX_RECLARIFICATION_REVISIONS {
      assert Revised(call.request) in a'.requests;
    }
  }

  lemma DecidedReplay(a: Artifacts, call: Call)
    requires Valid(a) && Takes(a, call) && call.reply.Decide?
    requires StateOf(a, call.item).Ok? && !StateOf(a, call.item).value.CancelledEmpty?
    ensures Ingest(Ingest(a, call).0, call).0 == Ingest(a, call).0 && Ingest(a, call).1.Decided?
  {
    hide Derive, Transitions;
    var a' := Ingest(a, call).0;
    IngestRefines(a, call);
    PublishedIsValid(a, call);
    var s := StateOf(a', call.item);
    assert DecisionIdOf(call) in a'.decisions && !Conflicts(a', call) && Recorded(a', call) == a';
    assert a'.decisions + {DecisionIdOf(call)} == a'.decisions;
    if s.Ok? {
      assert Predecessor(s.value) == Some(DecisionIdOf(call)) by {
        if ResponseIdOf(call) in a.responses {
          KnownHasPredecessor(a, call);
        }
      }
    }
  }

  lemma WithdrawnReplay(a: Artifacts, call: Call)
    requires Valid(a) && Takes(a, call) && call.reply.Withdraw?
    requires Valid(Recorded(a, call)) && StateOf(Recorded(a, call), call.item).Ok?
    ensures Ingest(Ingest(a, call).0, call).0 == Ingest(a, call).0 && Ingest(a, call).1.Cancelled?
  {
    hide Derive, Transitions;
    var a1, a' := Recorded(a, call), Ingest(a, call).0;
    if !IsMarked(a1, call) {
      var e := a'.lineage[|a'.lineage| - 1];
      assert e in a'.lineage && e.change.Moved?;
    }
    assert IsMarked(a', call) && Recorded(a', call) == a';
  }

  // ---- the inputs that break an item ----

  const ASKED := Request("request", 0, {"item"})

  function Answer(submission: string, choice: string): Call {
    Call(ASKED, "item", submission, Decide(choice), "")
  }

  function Abandon(submission: string): Call {
    Call(ASKED, "item", submission, Withdraw, "")
  }

  /** Answering twice and then replaying the first answer makes the item unreadable; replaying the
      second does not. */
  lemma OldReplayBreaksTheItem(s1: string, s2: string, yes: string, no: string)
    requires s1 != s2
    ensures
      var answered := [Publish(ASKED), Respond(Answer(s1, yes)), Respond(Answer(s2, no))];
      && Abstract(Run(answered + [Respond(Answer(s1, yes))]), "item").None?
      && Abstract(Run(answered + [Respond(Answer(s2, no))]), "item") == Some(Effective(DecisionIdOf(Answer(s2, no))))
  {
    hide Derive, Ingest, StateOf, Run;
    var asked := [Publish(ASKED)];
    var first, second := Answer(s1, yes), Answer(s2, no);
    AskedIsUnresolved();
    OneMore(asked, first);
    OneMore(asked + [Respond(first)], second);
    var answered := [Publish(ASKED), Respond(first), Respond(second)];
    assert asked + [Respond(first)] + [Respond(second)] == answered;
    OneMore(answered, first);
    OneMore(answered, second);
  }

  /** Cancelling twice under two submissions makes the item unreadable; replaying one does not. */
  lemma SecondCancelBreaksTheItem(s1: string, s2: string)
    requires s1 != s2
    ensures
      var cancelled := [Publish(ASKED), Respond(Abandon(s1))];
      && Abstract(Run(cancelled + [Respond(Abandon(s2))]), "item").None?
      && Abstract(Run(cancelled + [Respond(Abandon(s1))]), "item") == Some(CancelledEmpty)
  {
    hide Derive, Ingest, StateOf, Run;
    var asked := [Publish(ASKED)];
    AskedIsUnresolved();
    OneMore(asked, Abandon(s1));
    assert asked + [Respond(Abandon(s1))] == [Publish(ASKED), Respond(Abandon(s1))];
    OneMore([Publish(ASKED), Respond(Abandon(s1))], Abandon(s2));
    OneMore([Publish(ASKED), Respond(Abandon(s1))], Abandon(s1));
  }

  lemma AskedIsUnresolved()
    ensures
      var a := Run([Publish(ASKED)]);
      && a == EMPTY.(requests := {ASKED}) && Abstract(a, "item") == Some(Unresolved)
  {
    assert [Publish(ASKED)][..0] == [];
    assert Run([]) == EMPTY;
    NothingIsValid();
    PublishKeeps(EMPTY, ASKED);
    NothingIsUnresolved("item");
    hide StateOf, Valid;
  }

  /** What one more call does to a run, and what it leaves behind when it was taken. */
  lemma OneMore(steps: seq<Step>, call: Call)
    ensures Abstract(Run(steps + [Respond(call)]), call.item) == NextAbstract(Run(steps), call)
    ensures
      var a, a' := Run(steps), Run(steps + [Respond(call)]);
      Takes(a, call) && Abstract(a, call.item).Some? && !call.reply.Unclear?
      && !(call.reply.Decide? && Abstract(a, call.item) == Some(CancelledEmpty)) ==>
        && a'.responses == Recorded(a, call).responses && a'.requests == a.requests
        && (forall other: Call :: IsMarked(a', other) <==> IsMarked(a, other) || SameCancellation(call, other))
  {
    hide Derive, Valid, NextAbstract, DecisionsOf, Transitions;
    var a, a' := Run(steps), Run(steps + [Respond(call)]);
    assert (steps + [Respond(call)])[..|steps|] == steps;
    RunIsValid(steps);
    IngestRefines(a, call);
    if Takes(a, call) && Abstract(a, call.item).Some? && !call.reply.Unclear?
       && !(call.reply.Decide? && Abstract(a, call.item) == Some(CancelledEmpty)) {
      if call.reply.Decide? {
        PublishedIsValid(a, call);
      } else {
        RecordedIsValid(a, call);
      }
      MarksAfter(a, a', call);
    }
  }

  predicate SameCancellation(call: Call, other: Call) {
    call.reply.Withdraw? && other.item == call.item && ResponseIdOf(other) == ResponseIdOf(call)
  }

  lemma MarksAfter(a: Artifacts, a': Artifacts, call: Call)
    requires
      || a'.lineage == a.lineage
      || (exists e ::
            && a'.lineage == a.lineage + [e]
            && e.item == call.item && e.response == ResponseIdOf(call)
            && (e.change.Moved? && e.change.transition.Cancel? ==> call.reply.Withdraw?))
    requires call.reply.Withdraw? ==> IsMarked(a', call)
    ensures forall other: Call :: IsMarked(a', other) <==> IsMarked(a, other) || SameCancellation(call, other)
  {
  }
}
