/** The ledger keys a clarification request names as its source: the producer's own and those of the
    Reviewer records validly bound to it (`canonical_reviewer_binding`, `derive_source_ledger_keys` in
    scripts/clarification_protocol.py), and when they pass the check every item makes of them. */
module SourceKeys {
  import opened Vocabulary
  import opened Sequences
  import opened LedgerKeys

  /** The closed object a Reviewer's record verifies with. */
  datatype Verified = Verified(run: string, phase: string, iteration: nat, workerKey: string)

  /** A ledger record as the derivation reads it; the side of `parts` is its boundary. */
  datatype Filed = Filed(parts: Parts, role: Side, verifies: Option<Verified>, open: bool, state: State, code: string)

  datatype KeyError = SourceNotOpen | FoldedJudgementsDisagree

  /** A published open decision. */
  predicate Pending(r: Filed) {
    r.open && r.state.Blocks()
  }

  predicate SameRound(p: Parts, q: Parts) {
    p.run == q.run && p.phase == q.phase && p.iteration == q.iteration
  }

  predicate Binds(reviewer: Filed, worker: Filed) {
    && worker.role.WorkerSide? && worker.parts.side.WorkerSide?
    && reviewer.role.ReviewerSide? && reviewer.parts.side.ReviewerSide?
    && SameRound(reviewer.parts, worker.parts)
    && reviewer.verifies == Some(Verified(worker.parts.run, worker.parts.phase, worker.parts.iteration,
                                          PrintKey(worker.parts)))
  }

  /** `r` joins the source of the request `producer` opens. */
  predicate Folds(r: Filed, producer: Filed) {
    r.role.ReviewerSide? && r.parts.side.ReviewerSide? && Pending(r) && Binds(r, producer)
  }

  predicate Disagrees(r: Filed, producer: Filed) {
    r.state != producer.state || r.code != producer.code
  }

  /** The last record filed under a key. */
  function ByKey(records: seq<Filed>, key: string): Option<Filed> {
    if records == [] then None
    else if PrintKey(records[|records| - 1].parts) == key then Some(records[|records| - 1])
    else ByKey(records[..|records| - 1], key)
  }

  function Folded(records: seq<Filed>, producer: Filed): set<string> {
    set r | r in records && Folds(r, producer) :: PrintKey(r.parts)
  }

  /** The set of keys, or why there is none. */
  function Derivation(primary: string, records: seq<Filed>): Result<set<string>, KeyError> {
    var producer := ByKey(records, primary);
    if producer.None? || !Pending(producer.value) || producer.value.role.ReviewerSide? then Err(SourceNotOpen)
    else if exists r :: r in records && Folds(r, producer.value) && Disagrees(r, producer.value)
    then Err(FoldedJudgementsDisagree)
    else Ok({primary} + Folded(records, producer.value))
  }

  /** `producer` is the record filed last under the key. */
  ghost predicate FiledLast(records: seq<Filed>, key: string, producer: Filed) {
    exists i :: 0 <= i < |records| && records[i] == producer && PrintKey(records[i].parts) == key
                && forall j :: i < j < |records| ==> PrintKey(records[j].parts) != key
  }

  lemma {:induction false} ByKeyIff(records: seq<Filed>, key: string, producer: Filed)
    ensures ByKey(records, key) == Some(producer) <==> FiledLast(records, key, producer)
    decreases |records|
  {
    hide PrintKey;
    if records != [] {
      var last := |records| - 1;
      ByKeyIff(records[..last], key, producer);
      if PrintKey(records[last].parts) != key {
        if i :| 0 <= i < last && records[..last][i] == producer && PrintKey(records[..last][i].parts) == key
                && forall j :: i < j < last ==> PrintKey(records[..last][j].parts) != key {
          assert records[i] == producer;
          assert forall j :: i < j < |records| ==> j == last || records[j] == records[..last][j];
        }
      }
    }
  }

  /** A Reviewer's open, blocking record of the producer's round that names the producer's key and
      round as what it verifies. */
  predicate Judges(r: Filed, producer: Filed) {
    && r.role == ReviewerSide == r.parts.side && r.open && r.state in {NeedsInput, Conflict}
    && producer.role == WorkerSide == producer.parts.side
    && r.parts.run == producer.parts.run && r.parts.phase == producer.parts.phase
    && r.parts.iteration == producer.parts.iteration
    && r.verifies == Some(Verified(producer.parts.run, producer.parts.phase, producer.parts.iteration,
                                   PrintKey(producer.parts)))
  }

  /** What is derived for the record last filed under the key: its key and those of the judgements of
      it, when it is an open decision of a producer and they all share its state and reason code. A
      judgement with another state or another code is refused; everything else is not open. */
  lemma DerivationIs(primary: string, records: seq<Filed>)
    ensures
      var derived := Derivation(primary, records);
      && (forall producer | FiledLast(records, primary, producer) ::
            if !producer.open || producer.state in {Clear, AssumptionAllowed} || producer.role == ReviewerSide then
              derived == Err(SourceNotOpen)
            else if exists r ::
                      r in records && Judges(r, producer) && (r.state, r.code) != (producer.state, producer.code)
            then derived == Err(FoldedJudgementsDisagree)
            else derived.Ok? && forall key :: key in derived.value <==>
                   key == primary || exists r :: r in records && Judges(r, producer) && PrintKey(r.parts) == key)
      && ((forall producer :: !FiledLast(records, primary, producer)) ==> derived == Err(SourceNotOpen))
  {
    forall producer ensures ByKey(records, primary) == Some(producer) <==> FiledLast(records, primary, producer) {
      ByKeyIff(records, primary, producer);
    }
    if ByKey(records, primary).Some? {
      var producer := ByKey(records, primary).value;
      assert FiledLast(records, primary, producer);
      forall r ensures Folds(r, producer) <==> Judges(r, producer) {
        FoldsIff(r, producer);
      }
      hide ByKey, FiledLast, Folds, Judges, PrintKey;
    }
  }

  lemma FoldsIff(r: Filed, producer: Filed)
    ensures Folds(r, producer) <==> Judges(r, producer)
  {
    hide PrintKey;
  }

  // ---- sorting by number ----

  /** `_ledger_sort_key` order: by phase as a string, then by iteration and sequence as numbers. */
  predicate NotAfter(a: string, b: string) {
    var x, y := SortKey(a), SortKey(b);
    Before(x.0, y.0) || (x.0 == y.0 && (x.1 < y.1 || (x.1 == y.1 && x.2 <= y.2)))
  }

  predicate InKeyOrder(keys: seq<string>) {
    forall i | 0 < i < |keys| :: NotAfter(keys[i - 1], keys[i])
  }

  lemma {:induction false} BeforeIsTotal(a: string, b: string)
    ensures Before(a, b) || a == b || Before(b, a)
  {
    if a != "" && b != "" && a[0] == b[0] {
      BeforeIsTotal(a[1..], b[1..]);
      assert a == [a[0]] + a[1..] && b == [b[0]] + b[1..];
    }
  }

  lemma {:induction false} BeforeIsAsymmetric(a: string, b: string)
    requires Before(a, b)
    ensures !Before(b, a)
  {
    if a != "" && a[0] == b[0] {
      BeforeIsAsymmetric(a[1..], b[1..]);
    }
  }

  lemma NotAfterIsTotal(a: string, b: string)
    ensures NotAfter(a, b) || NotAfter(b, a)
  {
    hide SortKey, Before;
    BeforeIsTotal(SortKey(a).0, SortKey(b).0);
  }

  method InsertKey(key: string, keys: seq<string>) returns (sorted: seq<string>)
    requires InKeyOrder(keys) && Distinct(keys) && key !in keys
    ensures InKeyOrder(sorted) && Distinct(sorted) && Members(sorted) == Members(keys) + {key}
  {
    hide NotAfter, Distinct, Members;
    var i := 0;
    while i < |keys| && !NotAfter(key, keys[i])
      invariant 0 <= i <= |keys|
      invariant i > 0 ==> !NotAfter(key, keys[i - 1])
    {
      i := i + 1;
    }
    if i > 0 {
      NotAfterIsTotal(key, keys[i - 1]);
    }
    sorted := keys[..i] + [key] + keys[i..];
    InsertedAt(key, keys, i);
    forall j | 0 < j < |sorted| ensures NotAfter(sorted[j - 1], sorted[j]) {
      if j < i {
        assert sorted[j - 1] == keys[j - 1] && sorted[j] == keys[j];
      } else if j > i + 1 {
        assert sorted[j - 1] == keys[j - 2] && sorted[j] == keys[j - 1];
      }
    }
  }

  lemma InsertedAt(key: string, keys: seq<string>, i: nat)
    requires i <= |keys| && Distinct(keys) && key !in keys
    ensures
      var inserted := keys[..i] + [key] + keys[i..];
      Distinct(inserted) && Members(inserted) == Members(keys) + {key}
  {
    hide Distinct;
    assert keys == keys[..i] + keys[i..];
    DistinctConcat(keys[..i], keys[i..]);
    DistinctConcat(keys[..i], [key]);
    DistinctConcat(keys[..i] + [key], keys[i..]);
    assert Distinct([key]) by { OneKey(key); }
    assert Members([key]) == {key};
  }

  lemma OneKey(key: string)
    ensures Distinct([key])
  {
  }

  method SortedKeys(keys: set<string>) returns (sorted: seq<string>)
    ensures InKeyOrder(sorted) && Distinct(sorted) && Members(sorted) == keys
  {
    hide NotAfter, InKeyOrder, Distinct;
    assert InKeyOrder([]) && Distinct<string>([]) by { NothingToSort(); }
    sorted := [];
    var rest := keys;
    while rest != {}
      invariant rest <= keys && Members(sorted) == keys - rest
      invariant InKeyOrder(sorted) && Distinct(sorted)
    {
      var key :| key in rest;
      assert key !in Members(sorted);
      sorted := InsertKey(key, sorted);
      rest := rest - {key};
    }
  }

  lemma NothingToSort()
    ensures InKeyOrder([]) && Distinct<string>([])
  {
  }

  /** The derivation as it runs: look the producer up, collect what folds onto it, sort. */
  method DeriveSourceKeys(primary: string, records: seq<Filed>) returns (result: Result<seq<string>, KeyError>)
    ensures
      match Derivation(primary, records)
      case Err(e) => result == Err(e)
      case Ok(keys) => result.Ok? && Members(result.value) == keys && Distinct(result.value) && InKeyOrder(result.value)
  {
    hide Folds, InKeyOrder, Distinct, PrintKey;
    var producer := LookUp(primary, records);
    if producer.None? || !Pending(producer.value) || producer.value.role.ReviewerSide? {
      return Err(SourceNotOpen);
    }
    var keys := {primary};
    for i := 0 to |records|
      invariant keys == {primary} + Folded(records[..i], producer.value)
      invariant forall r | r in records[..i] && Folds(r, producer.value) :: !Disagrees(r, producer.value)
    {
      assert records[..i + 1] == records[..i] + [records[i]];
      if Folds(records[i], producer.value) {
        if Disagrees(records[i], producer.value) {
          assert records[i] in records;
          return Err(FoldedJudgementsDisagree);
        }
        keys := keys + {PrintKey(records[i].parts)};
      }
    }
    assert records[..|records|] == records;
    var sorted := SortedKeys(keys);
    return Ok(sorted);
  }

  /** The dictionary of records by key keeps the last one filed under each. */
  method LookUp(key: string, records: seq<Filed>) returns (found: Option<Filed>)
    ensures found == ByKey(records, key)
  {
    hide PrintKey;
    found := None;
    for i := 0 to |records|
      invariant found == ByKey(records[..i], key)
    {
      assert records[..i + 1][..i] == records[..i];
      if PrintKey(records[i].parts) == key {
        found := Some(records[i]);
      }
    }
    assert records[..|records|] == records;
  }

  // ---- when the derived keys pass ----

  /** A published ledger: valid keys, sequence numbers ascending. */
  ghost predicate Published(records: seq<Filed>) {
    && (forall i | 0 <= i < |records| :: ValidParts(records[i].parts))
    && (forall i, j | 0 <= i < j < |records| :: records[i].parts.sequence < records[j].parts.sequence)
  }

  function SequenceOf(key: string): nat {
    SortKey(key).2
  }

  /** What every derived key is. */
  lemma DerivedKeyIs(primary: string, records: seq<Filed>, producer: Filed, key: string)
    returns (r: Filed)
    requires Published(records) && ByKey(records, primary) == Some(producer)
    requires key in {primary} + Folded(records, producer)
    ensures r in records && ValidParts(r.parts) && PrintKey(r.parts) == key && SameRound(r.parts, producer.parts)
    ensures ParseKey(key) == Some(r.parts) && SortKey(key) == (r.parts.phase, r.parts.iteration, r.parts.sequence)
    ensures key == primary ==> r == producer
    ensures key != primary ==> r.parts.side.ReviewerSide? && producer.parts.side.WorkerSide?
  {
    FoundIs(records, primary);
    if key == primary {
      r := producer;
    } else {
      r :| r in records && Folds(r, producer) && PrintKey(r.parts) == key;
    }
    ParseOfPrint(r.parts);
  }

  lemma {:induction false} FoundIs(records: seq<Filed>, key: string)
    ensures ByKey(records, key).Some? ==>
              ByKey(records, key).value in records && PrintKey(ByKey(records, key).value.parts) == key
    decreases |records|
  {
    if records != [] {
      FoundIs(records[..|records| - 1], key);
    }
  }

  lemma SequencesTellApart(records: seq<Filed>, r: Filed, q: Filed)
    requires Published(records) && r in records && q in records && r.parts.sequence == q.parts.sequence
    ensures r == q
  {
    var i :| 0 <= i < |records| && records[i] == r;
    var j :| 0 <= j < |records| && records[j] == q;
  }

  /** Derived keys ascend in sequence. */
  lemma DerivedAscend(primary: string, records: seq<Filed>, producer: Filed, a: string, b: string)
    requires Published(records) && ByKey(records, primary) == Some(producer)
    requires a in {primary} + Folded(records, producer) && b in {primary} + Folded(records, producer)
    requires a != b && NotAfter(a, b)
    ensures SequenceOf(a) < SequenceOf(b)
  {
    hide SortKey, PrintKey, Before, Published, Folded;
    var r := DerivedKeyIs(primary, records, producer, a);
    var q := DerivedKeyIs(primary, records, producer, b);
    BeforeIsIrreflexive(r.parts.phase);
    if r.parts.sequence == q.parts.sequence {
      SequencesTellApart(records, r, q);
    }
  }

  lemma {:induction false} BeforeIsIrreflexive(a: string)
    ensures !Before(a, a)
  {
    if Before(a, a) {
      BeforeIsAsymmetric(a, a);
    }
  }

  /** Both orders put the two sequences the same way round. */
  predicate SequencesAgree(m: nat, n: nat) {
    m < n && OrdersAgree(m, n)
  }

  /** What the sorted keys of a derivation are. */
  ghost predicate DerivedKeys(primary: string, records: seq<Filed>, keys: seq<string>) {
    && Derivation(primary, records).Ok? && Members(keys) == Derivation(primary, records).value
    && Distinct(keys) && InKeyOrder(keys)
  }

  lemma AdjacentAscend(primary: string, records: seq<Filed>, keys: seq<string>, i: nat)
    requires Published(records) && DerivedKeys(primary, records, keys) && 0 < i < |keys|
    ensures SequenceOf(keys[i - 1]) < SequenceOf(keys[i])
  {
    hide NotAfter, SortKey, Folded, Published;
    assert keys[i - 1] in Members(keys) && keys[i] in Members(keys);
    DerivedAscend(primary, records, ByKey(records, primary).value, keys[i - 1], keys[i]);
  }

  /** Two neighbours are in string order unless the second is the producer's or, both being
      Reviewers', their sequences are in another order as numerals. */
  lemma AdjacentPassIff(primary: string, records: seq<Filed>, keys: seq<string>, i: nat)
    requires Published(records) && DerivedKeys(primary, records, keys) && 0 < i < |keys|
    ensures Before(keys[i - 1], keys[i]) <==>
              keys[i] != primary
              && (keys[i - 1] == primary || SequencesAgree(SequenceOf(keys[i - 1]), SequenceOf(keys[i])))
  {
    AdjacentAscend(primary, records, keys, i);
    AreDifferent(keys, i - 1, i);
    hide SortKey, PrintKey, ParseKey, Folded, Published, NotAfter, Before, InKeyOrder, Distinct, OrdersAgree;
    var producer := ByKey(records, primary).value;
    assert keys[i - 1] in Members(keys) && keys[i] in Members(keys);
    var p := DerivedKeyIs(primary, records, producer, keys[i - 1]);
    var q := DerivedKeyIs(primary, records, producer, keys[i]);
    if keys[i] == primary {
      ProducerComesFirst(producer.parts, p.parts);
      BeforeIsAsymmetric(primary, keys[i - 1]);
    } else if keys[i - 1] == primary {
      ProducerComesFirst(producer.parts, q.parts);
    } else {
      ReviewersByNumeral(p.parts, q.parts);
    }
  }

  lemma AreDifferent(keys: seq<string>, i: nat, j: nat)
    requires Distinct(keys) && i < j < |keys|
    ensures keys[i] != keys[j]
  {
  }

  /** The derived keys pass the check made of every item, that they are sorted as strings, exactly
      when the producer's comes first and every two consecutive Reviewer sequences are in the same
      order as numbers and as numerals. */
  lemma DerivedPassIff(primary: string, records: seq<Filed>, keys: seq<string>)
    requires Published(records) && DerivedKeys(primary, records, keys)
    ensures primary in keys
    ensures StringSorted(keys) <==>
              && keys[0] == primary
              && forall i | 1 < i < |keys| :: SequencesAgree(SequenceOf(keys[i - 1]), SequenceOf(keys[i]))
  {
    assert primary in Members(keys);
    var at :| 0 <= at < |keys| && keys[at] == primary;
    forall i | 0 < i < |keys|
      ensures Before(keys[i - 1], keys[i]) <==>
                keys[i] != primary
                && (keys[i - 1] == primary || SequencesAgree(SequenceOf(keys[i - 1]), SequenceOf(keys[i])))
    {
      AdjacentPassIff(primary, records, keys, i);
    }
    forall i, j | 0 <= i < j < |keys| ensures keys[i] != keys[j] {
      AreDifferent(keys, i, j);
    }
    hide Before, SequencesAgree, DerivedKeys, Published, SequenceOf;
    assert at > 0 ==> !Before(keys[at - 1], keys[at]);
  }

  /** With at most one Reviewer record bound to the producer, as many as the gate ever admits, and
      that one filed after it, the derived keys pass. */
  lemma OneFoldedPasses(primary: string, records: seq<Filed>, keys: seq<string>)
    requires Published(records) && DerivedKeys(primary, records, keys)
    requires
      var producer := ByKey(records, primary).value;
      && (forall r, q :: r in records && q in records && Folds(r, producer) && Folds(q, producer) ==> r == q)
      && (forall r :: r in records && Folds(r, producer) ==> producer.parts.sequence < r.parts.sequence)
    ensures StringSorted(keys)
  {
    DerivedPassIff(primary, records, keys);
    hide SortKey, PrintKey, ParseKey, Published, NotAfter, Before, InKeyOrder, Distinct, OrdersAgree, Folds,
         StringSorted;
    var producer := ByKey(records, primary).value;
    forall i, j | 0 <= i < j < |keys| ensures keys[i] == primary || keys[j] == primary {
      assert keys[i] in Members(keys) && keys[j] in Members(keys);
      AreDifferent(keys, i, j);
    }
    if keys[0] != primary {
      assert keys[1] == primary;
      AdjacentAscend(primary, records, keys, 1);
      assert keys[0] in Members(keys) && keys[1] in Members(keys);
      FoldedIsLater(primary, records, producer, keys[0]);
    }
  }

  lemma FoldedIsLater(primary: string, records: seq<Filed>, producer: Filed, key: string)
    requires Published(records) && ByKey(records, primary) == Some(producer)
    requires key in Folded(records, producer)
    requires forall r :: r in records && Folds(r, producer) ==> producer.parts.sequence < r.parts.sequence
    ensures SequenceOf(primary) < SequenceOf(key)
  {
    var r :| r in records && Folds(r, producer) && PrintKey(r.parts) == key;
    ParseOfPrint(r.parts);
    var p := DerivedKeyIs(primary, records, producer, primary);
  }

  // ---- the input at which they do not ----

  const ASKER := Parts("run", "plan", 1, WorkerSide, 8)

  /** A Worker's block at sequence 8 and a Reviewer's at `n`, bound to it. */
  function Block(): Filed {
    Filed(ASKER, WorkerSide, None, true, NeedsInput, "ambiguous_requirement")
  }

  function Verification(n: nat): Filed {
    Filed(ASKER.(side := ReviewerSide, sequence := n), ReviewerSide,
          Some(Verified("run", "plan", 1, PrintKey(ASKER))), true, NeedsInput, "ambiguous_requirement")
  }

  function NineAndTen(): seq<Filed> {
    [Block(), Verification(9), Verification(10)]
  }

  lemma NineAndTenFound()
    ensures Published(NineAndTen()) && ByKey(NineAndTen(), PrintKey(ASKER)) == Some(Block())
    ensures SequenceOf(PrintKey(ASKER)) == 8
    ensures SequenceOf(PrintKey(Verification(9).parts)) == 9 && SequenceOf(PrintKey(Verification(10).parts)) == 10
  {
    hide PrintKey, ParseKey, SortKey;
    var records := NineAndTen();
    assert ValidParts(ASKER) && ValidParts(Verification(9).parts) && ValidParts(Verification(10).parts);
    KeysAreInjective(Verification(9).parts, ASKER);
    KeysAreInjective(Verification(10).parts, ASKER);
    KeysAreInjective(ASKER, ASKER);
    assert records[..2] == [Block(), Verification(9)] && records[..2][..1] == [Block()];
    assert ByKey(records[..2][..1], PrintKey(ASKER)) == Some(Block());
    assert ByKey(records[..2], PrintKey(ASKER)) == Some(Block());
  }

  lemma NineAndTenFold(n: nat)
    ensures Folds(Verification(n), Block()) && !Disagrees(Verification(n), Block()) && !Folds(Block(), Block())
  {
    hide PrintKey;
  }

  lemma NineAndTenAre()
    ensures forall r :: r in NineAndTen() <==> r == Block() || r == Verification(9) || r == Verification(10)
    ensures Pending(Block()) && Block().role.WorkerSide?
  {
    hide Verification, PrintKey;
    var records := NineAndTen();
    assert records[0] == Block() && records[1] == Verification(9) && records[2] == Verification(10);
  }

  lemma NineAndTenFolded()
    ensures Folded(NineAndTen(), Block()) == {PrintKey(Verification(9).parts), PrintKey(Verification(10).parts)}
  {
    hide PrintKey, Folds, NineAndTen, Verification, Block;
    NineAndTenAre();
    NineAndTenFold(9);
    NineAndTenFold(10);
  }

  lemma NineAndTenDerive()
    ensures Derivation(PrintKey(ASKER), NineAndTen())
            == Ok({PrintKey(ASKER), PrintKey(Verification(9).parts), PrintKey(Verification(10).parts)})
  {
    hide PrintKey, ByKey, Folds, Disagrees, NineAndTen, Verification, Block, Pending, Folded;
    NineAndTenFound();
    NineAndTenAre();
    NineAndTenFold(9);
    NineAndTenFold(10);
    NineAndTenFolded();
    assert forall r :: r in NineAndTen() && Folds(r, Block()) ==> !Disagrees(r, Block());
    Joined(PrintKey(ASKER), PrintKey(Verification(9).parts), PrintKey(Verification(10).parts));
  }

  lemma Joined(a: string, b: string, c: string)
    ensures {a} + {b, c} == {a, b, c}
  {
  }

  /** Two Reviewer records at sequences 9 and 10 fold onto the Worker's at 8: their three keys are
      derived, and however they are sorted by number the check rejects them. */
  lemma NineAndTenDisagree(keys: seq<string>)
    requires DerivedKeys(PrintKey(ASKER), NineAndTen(), keys)
    ensures |keys| == 3 && !StringSorted(keys)
  {
    NineAndTenFound();
    NineAndTenDerive();
    hide SortKey, PrintKey, ParseKey, Published, InKeyOrder, ByKey, SequenceOf, NineAndTen, StringSorted;
    DerivedPassIff(PrintKey(ASKER), NineAndTen(), keys);
    SizeOfDistinct(keys);
    ListsThree(keys, PrintKey(ASKER), PrintKey(Verification(9).parts), PrintKey(Verification(10).parts));
    NeitherAgrees();
    assert keys[0] == PrintKey(ASKER) ==> !SequencesAgree(SequenceOf(keys[2 - 1]), SequenceOf(keys[2]));
  }

  lemma ListsThree(keys: seq<string>, a: string, b: string, c: string)
    requires Distinct(keys) && |keys| == 3 && Members(keys) == {a, b, c}
    ensures keys[0] == a ==> (keys[1] == b && keys[2] == c) || (keys[1] == c && keys[2] == b)
  {
    assert keys[1] in Members(keys) && keys[2] in Members(keys);
  }

  lemma NeitherAgrees()
    ensures !SequencesAgree(9, 10) && !SequencesAgree(10, 9)
  {
    assert Dropped(10, 1) == 1 && Decimal(9) == "9" && Decimal(10) == "10";
  }
}
