/** What the shipped contract lets close an open decision. */
module ShippedResolutions {
  import opened Vocabulary
  import opened Policy
  import opened Gate
  import opened GateLedger
  import opened ShippedContract
  import opened ShippedStates

  /** A pause becomes CLEAR by a user decision alone and never an assumption; an assumption becomes CLEAR
      by a retraction; every other move is free. */
  lemma ShippedMoves(source: State, target: State, record: Record)
    ensures ValidTransition(SHIPPED, source, target, record) <==>
              && (source in {NeedsInput, Conflict} ==>
                    target != AssumptionAllowed && (target == Clear ==> UserDecided(record)))
              && (source == AssumptionAllowed && target == Clear ==> Given(Get(record, Retraction)))
  {
    AuthorizedIff(record);
    GivenIff(Get(record, Retraction));
    hide ProvesUserDecision, UserDecided, Given, IsEmpty, CODES, ELEMENTS;
  }

  lemma OpenItemBlocks(c: Judge, ledger: seq<Record>, r: Record, start: int, i: nat)
    requires GaplessFrom(ledger + [r], start) && i < |ledger| && KeyOf(ledger[i]) in OpenItems(c, ledger)
    ensures Get(ledger[i], Field.State) in {Str(StateName(NeedsInput)), Str(StateName(Conflict))}
  {
    var j :| 0 <= j < |ledger| && OpenAt(c, ledger, j) && KeyOf(ledger[j]) == KeyOf(ledger[i]);
    assert (ledger + [r])[i] == ledger[i] && (ledger + [r])[j] == ledger[j];
    KeysAreDistinct(ledger + [r], start, i, j);
  }

  /** Under the shipped contract an open item is closed by exactly the next record of its run and phase
      that declares CLEAR with a user decision on record and verifies nothing: whatever two agents agree
      on, no assumption and no verification ever does. */
  lemma OnlyAUserDecisionCloses(ledger: seq<Record>, start: int, r: Record, i: nat)
    requires GaplessFrom(ledger + [r], start) && start >= 0 && i < |ledger|
    requires KeyOf(ledger[i]) in OpenItems(JudgeOf(SHIPPED), ledger)
    ensures KeyOf(ledger[i]) !in OpenItems(JudgeOf(SHIPPED), ledger + [r]) <==>
              && Get(r, Field.State) == Str(StateName(Clear)) && UserDecided(r) && Get(r, Verifies) == Null
              && Get(r, Run) == Get(ledger[i], Run) && Get(r, Field.Phase) == Get(ledger[i], Field.Phase)
  {
    OpenItemBlocks(JudgeOf(SHIPPED), ledger, r, start, i);
    OnlyAResolutionCloses(JudgeOf(SHIPPED), ledger, start, r, i);
    if StateOf(r).Some? {
      ShippedMoves(StateOf(ledger[i]).value, StateOf(r).value, r);
    }
    hide UserDecided, Given, CODES, ELEMENTS, KeyOf, OpenItems, ValidTransition, SHIPPED;
  }
}
