/** What the gate's recomputation over an append-only ledger guarantees. */
module GateLedger {
  import opened Vocabulary
  import opened Gate

  // ---- gapless ledgers are their own sorted form ----

  predicate GaplessFrom(records: seq<Record>, start: int) {
    forall i | 0 <= i < |records| :: Get(records[i], Sequence) == Int(start + i)
  }

  lemma {:induction false} GaplessIsSorted(records: seq<Record>, start: int)
    requires GaplessFrom(records, start)
    ensures SortBySequence(records) == records
  {
    if records != [] {
      assert GaplessFrom(records[1..], start + 1) by {
        forall i | 0 <= i < |records[1..]| ensures Get(records[1..][i], Sequence) == Int(start + 1 + i) {
          assert records[1..][i] == records[i + 1];
        }
      }
      GaplessIsSorted(records[1..], start + 1);
      if |records| > 1 {
        assert records[1..][0] == records[1];
      }
    }
  }

  lemma {:induction false} GaplessHasOneZero(records: seq<Record>, start: int)
    requires GaplessFrom(records, start) && start >= 0
    ensures Zeros(records) == if start == 0 && records != [] then [records[0]] else []
  {
    if records != [] {
      assert Get(records[0], Sequence) == Int(start + 0);
      assert GaplessFrom(records[1..], start + 1) by {
        forall i | 0 <= i < |records[1..]| ensures Get(records[1..][i], Sequence) == Int(start + 1 + i) {
          assert records[1..][i] == records[i + 1];
        }
      }
      GaplessHasOneZero(records[1..], start + 1);
    }
  }

  lemma {:induction false} NoDefectIffAllValid(c: Judge, records: seq<Record>)
    ensures FirstDefect(c, records).None? <==> forall i | 0 <= i < |records| :: c.defect(records[i]).None?
  {
    if records != [] {
      NoDefectIffAllValid(c, records[1..]);
      assert forall i | 1 <= i < |records| :: records[i] == records[1..][i - 1];
    }
  }

  // ---- recomputation from scratch is an incremental fold ----

  /** What one appended record does to the open set. */
  function AfterAppend(c: Judge, ledger: seq<Record>, open: set<Json>, r: Record): set<Json> {
    (set i | 0 <= i < |ledger| && KeyOf(ledger[i]) in open && !Closes(c, ledger[i], r) :: KeyOf(ledger[i]))
    + (if Opens(r) then {KeyOf(r)} else {})
  }

  function FoldOpen(c: Judge, ledger: seq<Record>): set<Json> {
    if ledger == [] then {}
    else
      var before := ledger[..|ledger| - 1];
      AfterAppend(c, before, FoldOpen(c, before), ledger[|ledger| - 1])
  }

  lemma KeysAreDistinct(ledger: seq<Record>, start: int, i: nat, j: nat)
    requires GaplessFrom(ledger, start)
    requires i < |ledger| && j < |ledger| && KeyOf(ledger[i]) == KeyOf(ledger[j])
    ensures i == j
  {
    assert Get(ledger[i], Sequence) == Int(start + i) && Get(ledger[j], Sequence) == Int(start + j);
  }

  /** On a gapless ledger an item is open exactly when it found and nothing closes it. */
  lemma OpenAtIff(c: Judge, ledger: seq<Record>, start: int, i: nat)
    requires GaplessFrom(ledger, start) && i < |ledger|
    ensures OpenAt(c, ledger, i) <==>
              Opens(ledger[i]) && forall j | 0 <= j < |ledger| :: !Closes(c, ledger[i], ledger[j])
  {
    forall j | i < j < |ledger| && KeyOf(ledger[j]) == KeyOf(ledger[i]) ensures false {
      KeysAreDistinct(ledger, start, i, j);
    }
  }

  lemma {:induction false} OpenItemsAfterAppend(c: Judge, ledger: seq<Record>, start: int, r: Record)
    requires GaplessFrom(ledger + [r], start) && start >= 0
    ensures OpenItems(c, ledger + [r]) == AfterAppend(c, ledger, OpenItems(c, ledger), r)
  {
    hide Closes, Opens, KeyOf, OpenAt;
    var all := ledger + [r];
    assert GaplessFrom(ledger, start) by {
      forall i | 0 <= i < |ledger| ensures Get(ledger[i], Sequence) == Int(start + i) {
        assert all[i] == ledger[i];
      }
    }
    forall i | 0 <= i < |ledger|
      ensures OpenAt(c, all, i) <==> OpenAt(c, ledger, i) && !Closes(c, ledger[i], r)
    {
      OpenAtIff(c, all, start, i);
      OpenAtIff(c, ledger, start, i);
      assert all[|ledger|] == r;
      assert forall j | 0 <= j < |ledger| :: all[j] == ledger[j];
    }
    assert OpenAt(c, all, |ledger|) <==> Opens(r) by {
      OpenAtIff(c, all, start, |ledger|);
      forall j | 0 <= j < |all| ensures !Closes(c, r, all[j]) {
        assert Get(all[j], Sequence) == Int(start + j);
        assert Get(all[|ledger|], Sequence) == Int(start + |ledger|);
        EarlierClosesNothing(c, r, all[j]);
      }
    }
    var lhs, rhs := OpenItems(c, all), AfterAppend(c, ledger, OpenItems(c, ledger), r);
    forall k | k in lhs ensures k in rhs {
      var i :| 0 <= i < |all| && OpenAt(c, all, i) && KeyOf(all[i]) == k;
      if i < |ledger| {
        assert all[i] == ledger[i];
      }
    }
    forall k | k in rhs ensures k in lhs {
      if Opens(r) && k == KeyOf(r) {
        assert all[|ledger|] == r && OpenAt(c, all, |ledger|);
      } else {
        var i :| 0 <= i < |ledger| && KeyOf(ledger[i]) in OpenItems(c, ledger) && !Closes(c, ledger[i], r)
                 && KeyOf(ledger[i]) == k;
        var i' :| 0 <= i' < |ledger| && OpenAt(c, ledger, i') && KeyOf(ledger[i']) == k;
        KeysAreDistinct(ledger, start, i, i');
        assert all[i] == ledger[i];
      }
    }
  }

  lemma {:induction false} OpenItemsIsAFold(c: Judge, ledger: seq<Record>, start: int)
    requires GaplessFrom(ledger, start) && start >= 0
    ensures OpenItems(c, ledger) == FoldOpen(c, ledger)
    decreases |ledger|
  {
    if ledger != [] {
      var before, last := ledger[..|ledger| - 1], ledger[|ledger| - 1];
      assert ledger == before + [last];
      OpenItemsIsAFold(c, before, start);
      OpenItemsAfterAppend(c, before, start, last);
    }
  }

  /** Only a later, non-blocking, non-verifying record of the same run and phase whose transition
      the contract permits ever closes an item; agreement between two agents never does. */
  lemma OnlyAResolutionCloses(c: Judge, ledger: seq<Record>, start: int, r: Record, i: nat)
    requires GaplessFrom(ledger + [r], start) && start >= 0 && i < |ledger|
    requires KeyOf(ledger[i]) in OpenItems(c, ledger) && StateOf(ledger[i]).Some?
    ensures KeyOf(ledger[i]) !in OpenItems(c, ledger + [r]) <==>
              && !IsBlocking(r) && Get(r, Verifies) == Null
              && Get(r, Run) == Get(ledger[i], Run) && Get(r, Field.Phase) == Get(ledger[i], Field.Phase)
              && StateOf(r).Some? && c.resolves(StateOf(ledger[i]).value, StateOf(r).value, r)
  {
    var all := ledger + [r];
    assert GaplessFrom(ledger, start) by {
      forall j | 0 <= j < |ledger| ensures Get(ledger[j], Sequence) == Int(start + j) {
        assert all[j] == ledger[j];
      }
    }
    OpenItemsAfterAppend(c, ledger, start, r);
    var i' :| 0 <= i' < |ledger| && OpenAt(c, ledger, i') && KeyOf(ledger[i']) == KeyOf(ledger[i]);
    KeysAreDistinct(ledger, start, i, i');
    assert all[i] == ledger[i] && all[|ledger|] == r;
    assert Get(all[i], Sequence) == Int(start + i) && Get(all[|ledger|], Sequence) == Int(start + |ledger|);
    assert KeyOf(r) != KeyOf(ledger[i]);
    forall k | 0 <= k < |ledger| && KeyOf(ledger[k]) == KeyOf(ledger[i]) ensures k == i {
      KeysAreDistinct(ledger, start, i, k);
    }
  }

  /** The last of the first `n` records that opened an item under `k` is `r`. */
  ghost predicate LastOpening(records: seq<Record>, n: nat, k: Json, r: Record)
    requires n <= |records|
  {
    exists j :: 0 <= j < n && Opens(records[j]) && KeyOf(records[j]) == k && records[j] == r
                && forall j' :: j < j' < n && Opens(records[j']) ==> KeyOf(records[j']) != k
  }

  ghost predicate ClosedBySome(c: Judge, records: seq<Record>, item: Record) {
    exists j :: 0 <= j < |records| && Closes(c, item, records[j])
  }

  lemma OpenItemsByKey(c: Judge, records: seq<Record>, k: Json)
    ensures k in OpenItems(c, records) <==>
              exists r :: LastOpening(records, |records|, k, r) && !ClosedBySome(c, records, r)
  {
    hide Closes, KeyOf, Opens;
    if k in OpenItems(c, records) {
      var i :| 0 <= i < |records| && OpenAt(c, records, i) && KeyOf(records[i]) == k;
      assert LastOpening(records, |records|, k, records[i]);
    }
    if r :| LastOpening(records, |records|, k, r) && !ClosedBySome(c, records, r) {
      var j :| 0 <= j < |records| && Opens(records[j]) && KeyOf(records[j]) == k && records[j] == r
               && forall j' :: j < j' < |records| && Opens(records[j']) ==> KeyOf(records[j']) != k;
      assert OpenAt(c, records, j);
    }
  }

  method SearchClosing(c: Judge, records: seq<Record>, item: Record) returns (closed: bool)
    ensures closed == ClosedBySome(c, records, item)
  {
    hide Closes;
    for j := 0 to |records|
      invariant forall j' | 0 <= j' < j :: !Closes(c, item, records[j'])
    {
      if Closes(c, item, records[j]) {
        return true;
      }
    }
    closed := false;
  }

  /** One more record read: it is the last opening under its own key, and no other key's changes. */
  lemma LastOpeningStep(records: seq<Record>, i: nat, items: map<Json, Record>)
    requires i < |records| && forall k :: k in items ==> LastOpening(records, i, k, items[k])
    ensures
      var items' := if Opens(records[i]) then items[KeyOf(records[i]) := records[i]] else items;
      forall k :: k in items' ==> LastOpening(records, i + 1, k, items'[k])
  {
    hide KeyOf, Opens;
    var items' := if Opens(records[i]) then items[KeyOf(records[i]) := records[i]] else items;
    forall k | k in items' ensures LastOpening(records, i + 1, k, items'[k]) {
      if !(Opens(records[i]) && KeyOf(records[i]) == k) {
        var j :| 0 <= j < i && Opens(records[j]) && KeyOf(records[j]) == k && records[j] == items[k]
                 && forall j' :: j < j' < i && Opens(records[j']) ==> KeyOf(records[j']) != k;
        assert forall j' :: j < j' < i + 1 && Opens(records[j']) ==> KeyOf(records[j']) != k;
      }
    }
  }

  /** The recomputation as the gate runs it: a dictionary of what opened, then one search for a
      closing record per item. */
  method ComputeOpenItems(c: Judge, records: seq<Record>) returns (open: set<Json>)
    ensures open == OpenItems(c, records)
  {
    hide Closes, KeyOf, Opens;
    var items: map<Json, Record> := map[];
    for i := 0 to |records|
      invariant forall k :: k in items ==> LastOpening(records, i, k, items[k])
      invariant forall j :: 0 <= j < i && Opens(records[j]) ==> KeyOf(records[j]) in items
    {
      LastOpeningStep(records, i, items);
      if Opens(records[i]) {
        items := items[KeyOf(records[i]) := records[i]];
      }
    }
    var resolved: set<Json> := {};
    var pending := items.Keys;
    while pending != {}
      invariant pending <= items.Keys && resolved !! pending
      invariant forall k :: k in items && k !in pending ==> (k in resolved <==> ClosedBySome(c, records, items[k]))
    {
      var key :| key in pending;
      var closed := SearchClosing(c, records, items[key]);
      if closed {
        resolved := resolved + {key};
      }
      pending := pending - {key};
    }
    open := items.Keys - resolved;
    forall k ensures k in open <==> k in OpenItems(c, records) {
      OpenItemsByKey(c, records, k);
      if r :| LastOpening(records, |records|, k, r) && k in items {
        OpeningIsUnique(records, k, r, items[k]);
      }
    }
  }

  lemma OpeningIsUnique(records: seq<Record>, k: Json, r: Record, r': Record)
    requires LastOpening(records, |records|, k, r) && LastOpening(records, |records|, k, r')
    ensures r == r'
  {
    var n := |records|;
    var j :| 0 <= j < n && Opens(records[j]) && KeyOf(records[j]) == k && records[j] == r
             && forall j' :: j < j' < n && Opens(records[j']) ==> KeyOf(records[j']) != k;
    var i :| 0 <= i < n && Opens(records[i]) && KeyOf(records[i]) == k && records[i] == r'
             && forall j' :: i < j' < n && Opens(records[j']) ==> KeyOf(records[j']) != k;
    assert i == j;
  }

  // ---- admission ----

  /** The run-entry declaration never closes an item opened after it. */
  lemma EntryClosesNothing(c: Judge, records: seq<Record>)
    requires GaplessFrom(records, 0) && records != []
    ensures OpenItems(c, records[1..]) <= OpenItems(c, records)
  {
    var tail := records[1..];
    assert GaplessFrom(tail, 1) by {
      forall i | 0 <= i < |tail| ensures Get(tail[i], Sequence) == Int(1 + i) {
        assert tail[i] == records[i + 1];
      }
    }
    forall k | k in OpenItems(c, tail) ensures k in OpenItems(c, records) {
      var i :| 0 <= i < |tail| && OpenAt(c, tail, i) && KeyOf(tail[i]) == k;
      OpenAtIff(c, tail, 1, i);
      OpenAtIff(c, records, 0, i + 1);
      assert records[i + 1] == tail[i];
      forall j | 0 <= j < |records| ensures !Closes(c, records[i + 1], records[j]) {
        if j > 0 {
          assert records[j] == tail[j - 1];
        } else {
          EarlierClosesNothing(c, records[i + 1], records[0]);
        }
      }
    }
  }

  lemma EarlierClosesNothing(c: Judge, item: Record, earlier: Record)
    requires Get(item, Sequence).Int? && Get(earlier, Sequence).Int? && earlier[Sequence].n <= item[Sequence].n
    ensures !Closes(c, item, earlier)
  {
  }

  lemma {:induction false} InsertKeeps(r: Record, sorted: seq<Record>)
    ensures multiset(InsertBySequence(r, sorted)) == multiset{r} + multiset(sorted)
  {
    if sorted != [] && SequenceOr(r, 0) > SequenceOr(sorted[0], 0) {
      assert sorted == [sorted[0]] + sorted[1..];
      InsertKeeps(r, sorted[1..]);
    }
  }

  lemma {:induction false} SortKeeps(records: seq<Record>)
    ensures multiset(SortBySequence(records)) == multiset(records)
  {
    if records != [] {
      assert records == [records[0]] + records[1..];
      SortKeeps(records[1..]);
      InsertKeeps(records[0], SortBySequence(records[1..]));
    }
  }

  /** While an item is open and a record already verifies it, no dispatch whatever is admitted, in
      whatever order the ledger lists its records. */
  lemma VerifiedItemAdmitsNothing(c: Judge, records: seq<Record>, run: Json, expected: Option<Settled>,
                                  verification: Option<VerificationDispatch>, key: Json)
    requires key in OpenItems(c, SortBySequence(records))
    requires exists r :: r in records && VerifiedBy(r, key)
    ensures AdmitHead(c, records, run, expected, verification).Err?
  {
    hide FirstDefect, Zeros, SortBySequence, OpenItems, VerifiedBy;
    var ordered := SortBySequence(records);
    SortKeeps(records);
    var r :| r in records && VerifiedBy(r, key);
    assert r in multiset(ordered);
  }

  /** Exactly what an admission certifies of a ledger, listed in any order: sorted, it is gapless and
      valid, was opened for this run, its head is the round just settled, and either nothing is open
      or one unverified Worker block whose own bound Reviewer is the dispatch. */
  lemma AdmissionIff(c: Judge, records: seq<Record>, run: Json, expected: Option<Settled>,
                     verification: Option<VerificationDispatch>)
    ensures
      var ordered := SortBySequence(records);
      AdmitHead(c, records, run, expected, verification).Ok? <==>
        && ordered != [] && Gapless(ordered) && IsRunEntry(ordered[0], run)
        && (forall i | 0 <= i < |ordered| :: c.defect(ordered[i]).None?)
        && HeadBinds(ordered, expected)
        && var head := ordered[|ordered| - 1];
        || (DeclaredOpen(ordered[0]) == OpenItems(c, ordered[1..]) && OpenItems(c, ordered) == {})
        || (&& verification.Some? && verification.value.role == Reviewer
            && OpenItems(c, ordered) == {KeyOf(head)} && Opens(head)
            && Get(head, Boundary) == Str(B2) && Get(head, Source) == Str(Worker) && Get(head, Role) == Str(Worker)
            && Get(head, Run) == run
            && Get(head, Field.Phase) == verification.value.phase
            && Get(head, Iteration) == verification.value.iteration
            && verification.value.verifies == KeyOf(head)
            && (forall i | 0 <= i < |ordered| :: !VerifiedBy(ordered[i], KeyOf(head)))
            && (|| DeclaredOpen(ordered[0]) == OpenItems(c, ordered[1..])
                || (DeclaredOpen(ordered[0]) <= OpenItems(c, ordered[1..]) == {KeyOf(head)})))
  {
    hide OpenItems, Zeros, SortBySequence, FirstDefect, KeyOf, Opens, VerifiedBy;
    var ordered := SortBySequence(records);
    NoDefectIffAllValid(c, ordered);
    if Gapless(ordered) && ordered != [] {
      assert GaplessFrom(ordered, 0);
      GaplessHasOneZero(ordered, 0);
      EntryClosesNothing(c, ordered);
    }
  }

  // ---- terminal agreement ----

  /** A valid ledger of a run found empty, none of whose records is an open block. */
  ghost predicate QuietLedger(c: Judge, ledger: seq<Record>, run: Json) {
    && ledger != [] && GaplessFrom(ledger, 0)
    && FirstDefect(c, ledger).None?
    && IsRunEntry(ledger[0], run) && Get(ledger[0], PriorOpenDecisionItems) == List([])
    && (forall i | 0 <= i < |ledger| :: !Opens(ledger[i]))
  }

  /** `ledger` extended by a Worker block, or by a block the Reviewer discovered. */
  ghost predicate EndsInBlock(c: Judge, ledger: seq<Record>, run: Json, r: Record) {
    && QuietLedger(c, ledger, run)
    && Get(r, Sequence) == Int(|ledger|)
    && c.defect(r).None? && Opens(r)
    && Identity(r).0 != Str(B1)
  }

  lemma {:induction false} QuietLedgerHasNothingOpen(c: Judge, ledger: seq<Record>)
    requires forall i | 0 <= i < |ledger| :: !Opens(ledger[i])
    ensures OpenItems(c, ledger) == {}
  {
    assert forall i | 0 <= i < |ledger| :: !OpenAt(c, ledger, i);
  }

  lemma {:induction false} OpenAfterBlock(c: Judge, ledger: seq<Record>, start: int, r: Record)
    requires GaplessFrom(ledger + [r], start) && start >= 0
    requires (forall i | 0 <= i < |ledger| :: !Opens(ledger[i])) && Opens(r)
    ensures OpenItems(c, ledger + [r]) == {KeyOf(r)}
  {
    QuietLedgerHasNothingOpen(c, ledger);
    OpenItemsAfterAppend(c, ledger, start, r);
  }

  lemma {:induction false} FoundByKey(ledger: seq<Record>, start: int, i: nat)
    requires GaplessFrom(ledger, start) && i < |ledger|
    ensures RecordWithKey(ledger, KeyOf(ledger[i])) == Some(ledger[i])
    decreases |ledger|
  {
    var last := |ledger| - 1;
    if KeyOf(ledger[last]) == KeyOf(ledger[i]) {
      KeysAreDistinct(ledger, start, i, last);
    } else {
      var before := ledger[..last];
      assert before[i] == ledger[i];
      assert GaplessFrom(before, start) by {
        forall j | 0 <= j < |before| ensures Get(before[j], Sequence) == Int(start + j) {
          assert before[j] == ledger[j];
        }
      }
      FoundByKey(before, start, i);
    }
  }

  lemma {:induction false} FirstOpenIsTheOne(ledger: seq<Record>, start: int, i: nat)
    requires GaplessFrom(ledger, start) && i < |ledger|
    ensures FirstOpen(ledger, {KeyOf(ledger[i])}) == Some(ledger[i])
  {
    if KeyOf(ledger[0]) == KeyOf(ledger[i]) {
      KeysAreDistinct(ledger, start, 0, i);
    } else {
      assert ledger[1..][i - 1] == ledger[i];
      assert GaplessFrom(ledger[1..], start + 1) by {
        forall j | 0 <= j < |ledger[1..]| ensures Get(ledger[1..][j], Sequence) == Int(start + 1 + j) {
          assert ledger[1..][j] == ledger[j + 1];
        }
      }
      FirstOpenIsTheOne(ledger[1..], start + 1, i - 1);
    }
  }

  /** A ledger ended by one open block is refused as a disagreeing declaration, and reclassifying
      that refusal names the block's own state and reason code. */
  lemma BlockIsNamedAtTheTerminal(c: Judge, ledger: seq<Record>, run: Json, r: Record)
    requires Sound(c) && EndsInBlock(c, ledger, run, r)
    ensures
      var all := ledger + [r];
      var code := Get(r, ReasonCode);
      && AdmitHead(c, all, run, Some(Binding(r)), None) == Err(DeclarationDisagrees)
      && UnresolvedBlockReason(c, all, DeclarationDisagrees) == Some(Blocked(StateOf(r).value, code))
  {
    hide OpenItems, Zeros, SortBySequence, FirstDefect;
    var all := ledger + [r];
    NoDefectIffAllValid(c, [r]);
    TerminalShape(c, ledger, run, [r]);
    assert all[1..] == ledger[1..] + [r];
    assert forall i | 0 <= i < |ledger[1..]| :: ledger[1..][i] == ledger[i + 1];
    OpenAfterBlock(c, ledger[1..], 1, r);
    assert DeclaredOpen(ledger[0]) == {};
    assert all[|all| - 1] == r && all[0] == ledger[0];
  }

  /** The facts the two readers of a terminal ledger share. */
  lemma TerminalShape(c: Judge, ledger: seq<Record>, run: Json, tail: seq<Record>)
    requires Sound(c) && QuietLedger(c, ledger, run)
    requires FirstDefect(c, tail).None?
    requires forall i | 0 <= i < |tail| :: Get(tail[i], Sequence) == Int(|ledger| + i)
    ensures
      var all := ledger + tail;
      && GaplessFrom(all, 0) && GaplessFrom(all[1..], 1)
      && SortBySequence(all) == all
      && Zeros(all) == [ledger[0]]
      && FirstDefect(c, all).None?
      && all[1..] == ledger[1..] + tail
  {
    hide Opens, OpenItems, Zeros, FirstDefect, SortBySequence;
    var all := ledger + tail;
    NoDefectIffAllValid(c, ledger);
    NoDefectIffAllValid(c, tail);
    forall i | 0 <= i < |all|
      ensures Get(all[i], Sequence) == Int(i) && c.defect(all[i]).None?
    {
      if i >= |ledger| {
        assert all[i] == tail[i - |ledger|];
      }
    }
    forall i | 0 <= i < |all[1..]| ensures Get(all[1..][i], Sequence) == Int(1 + i) {
      assert all[1..][i] == all[i + 1];
    }
    GaplessIsSorted(all, 0);
    GaplessHasOneZero(all, 0);
    NoDefectIffAllValid(c, all);
  }

  /** A verification closes nothing: the block stays open, joined by the verifier's own if it opens one. */
  lemma OpenAfterVerification(c: Judge, agents: seq<Record>, w: Record, v: Record)
    requires GaplessFrom(agents + [w], 1) && GaplessFrom((agents + [w]) + [v], 1)
    requires (forall i | 0 <= i < |agents| :: !Opens(agents[i])) && Opens(w) && Get(v, Verifies) != Null
    ensures OpenItems(c, (agents + [w]) + [v]) == {KeyOf(w)} + (if Opens(v) then {KeyOf(v)} else {})
    ensures KeyOf(w) != KeyOf(v)
  {
    var before := agents + [w];
    var all := before + [v];
    assert before[|agents|] == w == all[|agents|] && all[|agents| + 1] == v;
    OpenAfterBlock(c, agents, 1, w);
    OpenItemsAfterAppend(c, before, 1, v);
    assert !Closes(c, w, v);
    assert Get(all[|agents|], Sequence) == Int(1 + |agents|) && Get(all[|agents| + 1], Sequence) == Int(2 + |agents|);
    hide Opens, Closes, KeyOf, OpenItems;
    assert KeyOf(before[|agents|]) in OpenItems(c, before);
  }

  /** A stricter verification is named by its own state and code, a permitted downgrade still by the
      Worker's, and any other downgrade is rejected; a confirming one names both alike. */
  lemma VerificationSettles(c: Judge, ws: State, w: Record, vs: State, v: Record)
    ensures
      var outcome := EvaluateVerification(c, ws, w, vs, v);
      && (vs in {NeedsInput, Conflict} ==>
            outcome.reason == Blocked(outcome.state, outcome.code) && outcome.state == vs
            && outcome.code == Get(v, ReasonCode))
      && (vs in {Clear, AssumptionAllowed} ==> outcome.state == ws && outcome.code == Get(w, ReasonCode))
      && (vs in {Clear, AssumptionAllowed} ==>
            outcome.reason == if c.resolves(ws, vs, v) then Blocked(ws, Get(w, ReasonCode)) else DowngradeRejected)
  {
  }

  /** With the Worker block's bound verification appended, the terminal reason is what it settles. */
  lemma VerificationNamesItsOutcome(c: Judge, ledger: seq<Record>, run: Json, w: Record, v: Record)
    requires Sound(c) && EndsInBlock(c, ledger, run, w) && Identity(w) == (Str(B2), Str(Worker), Str(Worker))
    requires c.defect(v).None? && Get(v, Sequence) == Int(|ledger| + 1)
    requires VerificationBinds(v, KeyOf(w), Binding(w)) && Binding(v) == Binding(w)
    ensures
      var all := ledger + [w, v];
      && AdmitHead(c, all, run, Some(Binding(v)), None) == Err(DeclarationDisagrees)
      && UnresolvedBlockReason(c, all, DeclarationDisagrees)
         == Some(EvaluateVerification(c, StateOf(w).value, w, StateOf(v).value, v).reason)
  {
    hide OpenItems, Zeros, SortBySequence, FirstDefect, EvaluateVerification, RecordWithKey, FirstOpen,
         UnresolvedBlockReason, AdmitHead;
    var all := ledger + [w, v];
    NoDefectIffAllValid(c, [w, v]);
    assert (ledger + [w, v])[|ledger| + 1] == v;
    TerminalShape(c, ledger, run, [w, v]);
    NoDefectIffAllValid(c, [w]);
    TerminalShape(c, ledger, run, [w]);
    assert all[1..] == (ledger[1..] + [w]) + [v];
    assert forall i | 0 <= i < |ledger[1..]| :: ledger[1..][i] == ledger[i + 1];
    OpenAfterVerification(c, ledger[1..], w, v);
    FirstOpenIsTheOne(all, 0, |ledger|);
    FoundByKey(all, 0, |ledger|);
    assert all[|ledger|] == w && all[|all| - 1] == v && all[0] == ledger[0];
    assert DeclaredOpen(ledger[0]) == {};
    assert HeadBinds(all, Some(Binding(v)));
    VerifiedTerminal(c, all, run, w, v);
  }

  /** With the Worker block's bound verification appended, the terminal reason is the verification's
      own block when it blocks, the Worker's when it validly downgrades it, and otherwise that the
      downgrade was rejected. */
  lemma VerificationIsNamedAtTheTerminal(c: Judge, ledger: seq<Record>, run: Json, w: Record, v: Record)
    requires Sound(c) && EndsInBlock(c, ledger, run, w) && Identity(w) == (Str(B2), Str(Worker), Str(Worker))
    requires c.defect(v).None? && Get(v, Sequence) == Int(|ledger| + 1)
    requires VerificationBinds(v, KeyOf(w), Binding(w)) && Binding(v) == Binding(w)
    ensures
      var all := ledger + [w, v];
      && AdmitHead(c, all, run, Some(Binding(v)), None) == Err(DeclarationDisagrees)
      && UnresolvedBlockReason(c, all, DeclarationDisagrees)
         == Some(if StateOf(v).value in {NeedsInput, Conflict} then Blocked(StateOf(v).value, Get(v, ReasonCode))
                 else if c.resolves(StateOf(w).value, StateOf(v).value, v)
                 then Blocked(StateOf(w).value, Get(w, ReasonCode))
                 else DowngradeRejected)
  {
    VerificationSettles(c, StateOf(w).value, w, StateOf(v).value, v);
    hide UnresolvedBlockReason, AdmitHead, EvaluateVerification, EndsInBlock, VerificationBinds;
    VerificationNamesItsOutcome(c, ledger, run, w, v);
  }

  /** Reading a ledger whose only open items are a Worker's block and, perhaps, its verifier's. */
  lemma VerifiedTerminal(c: Judge, all: seq<Record>, run: Json, w: Record, v: Record)
    requires all != [] && SortBySequence(all) == all && Zeros(all) == [all[0]] && IsRunEntry(all[0], run)
    requires FirstDefect(c, all).None? && GaplessFrom(all, 0) && HeadBinds(all, Some(Binding(v)))
             && DeclaredOpen(all[0]) == {}
    requires all[|all| - 1] == v && KeyOf(w) != KeyOf(v)
    requires OpenItems(c, all[1..]) == {KeyOf(w)} + (if Opens(v) then {KeyOf(v)} else {})
    requires FirstOpen(all, {KeyOf(w)}) == Some(w) && RecordWithKey(all, KeyOf(w)) == Some(w)
    requires Identity(w) == (Str(B2), Str(Worker), Str(Worker))
             && Identity(v) == (Str(B3), Str(Reviewer), Str(Reviewer))
    requires VerificationBinds(v, KeyOf(w), Binding(w)) && StateOf(w).Some? && StateOf(v).Some?
    ensures AdmitHead(c, all, run, Some(Binding(v)), None) == Err(DeclarationDisagrees)
    ensures UnresolvedBlockReason(c, all, DeclarationDisagrees)
            == Some(EvaluateVerification(c, StateOf(w).value, w, StateOf(v).value, v).reason)
  {
    hide OpenItems, Zeros, SortBySequence, FirstDefect, EvaluateVerification, RecordWithKey, FirstOpen, KeyOf, Opens,
         HeadBinds, DeclaredOpen, IsRunEntry, VerificationBinds, StateOf, Identity, BlockReason, Binding;
    assert OpenItems(c, all[1..]) - {KeyOf(v)} == {KeyOf(w)};
  }

  /** A confirming verification changes nothing: MEDIUM and HIGH end on the reason LOW ends on. */
  lemma ConfirmationEqualsLow(c: Judge, ledger: seq<Record>, run: Json, w: Record, v: Record)
    requires Sound(c) && EndsInBlock(c, ledger, run, w) && Identity(w) == (Str(B2), Str(Worker), Str(Worker))
    requires c.defect(v).None? && Get(v, Sequence) == Int(|ledger| + 1)
    requires VerificationBinds(v, KeyOf(w), Binding(w)) && Binding(v) == Binding(w)
    requires StateOf(v) == StateOf(w) && Get(v, ReasonCode) == Get(w, ReasonCode)
    ensures UnresolvedBlockReason(c, ledger + [w, v], DeclarationDisagrees)
            == UnresolvedBlockReason(c, ledger + [w], DeclarationDisagrees)
  {
    hide OpenItems, UnresolvedBlockReason, AdmitHead;
    VerificationIsNamedAtTheTerminal(c, ledger, run, w, v);
    BlockIsNamedAtTheTerminal(c, ledger, run, w);
  }
}
