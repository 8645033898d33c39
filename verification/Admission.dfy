/** What the gate answers, said of the fields it reads: how a body is read, which one dispatch passes
    an open block, what each refusal certifies and when a refused terminal names a block. */
module Admission {
  import opened Vocabulary
  import opened Policy
  import opened Gate
  import opened GateLedger

  // ---- reading an agent's result ----

  /** The body declares `s` once and carries one record. */
  ghost predicate Carries(body: Body, s: State, record: Record) {
    body.declarations == [StateName(s)] && body.fences == [Parsed(Obj(record))]
  }

  /** A body is accepted exactly when it declares one state and carries one record of that state that
      the judge accepts. Nothing declared, or one state and no record, is missing; one state and one
      record of another is a disagreement; everything else is malformed. */
  lemma ReadingIs(c: Judge, body: Body)
    ensures
      var read := ParseGateResult(c, body);
      && (forall s, record :: read == Ok(GateResult(s, record)) <==>
            Carries(body, s, record) && Get(record, Field.State) == Str(StateName(s)) && c.accepts(record))
      && (read == Err(InputMissing) <==>
            body.declarations == [] || (body.fences == [] && exists s :: body.declarations == [StateName(s)]))
      && (read == Err(SummaryDisagrees) <==>
            exists s, record :: Carries(body, s, record) && Get(record, Field.State) != Str(StateName(s)))
      && (read.Err? ==> read.error in {InputMissing, SummaryDisagrees, InputMalformed})
  {
    if |body.declarations| == 1 && body.declarations[0].StateName? {
      var s := body.declarations[0].state;
      assert body.declarations == [StateName(s)];
      if |body.fences| == 1 && body.fences[0].Parsed? && body.fences[0].value.Obj? {
        var record := body.fences[0].value.members;
        assert Carries(body, s, record);
      }
    }
  }

  // ---- ledger records ----

  /** Names the evaluator or nested objects use, never fields of a record. */
  predicate IsOutside(f: Field) {
    f.Other? || f in {ExplicitUserAuthority, ExplicitRequirementConflict, ConflictClause, UserIntentAbsent,
                      Unclassifiable, PolicySourceRole, WorkerRecordKey, Kind, Locator}
  }

  lemma ClosedIff(f: Field)
    ensures IsClosedField(f) <==> !IsOutside(f)
  {
  }

  /** The record is a Worker's, a Reviewer's or a run entry's, and only a Reviewer's verifies. */
  predicate IsIdentity(record: Record) {
    var triple := (Get(record, Boundary), Get(record, Source), Get(record, Role));
    || triple == (Str(B3), Str(Reviewer), Str(Reviewer))
    || (Get(record, Verifies) == Null
        && (triple == (Str(B2), Str(Worker), Str(Worker)) || triple == (Str(B1), Str(RunEntry), Str(Coordinator))))
  }

  lemma IdentityIff(record: Record)
    ensures ValidIdentity(record) <==> IsIdentity(record)
  {
  }

  /** What every ledger record must carry. */
  const CARRIED: set<Field> := {
    Run, Field.Phase, Iteration, Field.State, ReasonCode, Evidence, Assumption, OpenItem, ResponsiblePhase, Role,
    Verdict, SourceBinding, RecordedAt, LedgerSchemaVersion, Boundary, Sequence, Source, PriorOpenDecisionItems,
    Verifies}

  lemma CarriedAre(r: Record)
    ensures HasRequiredFields(r) <==> CARRIED <= r.Keys
  {
  }

  /** A ledger record passes exactly when its fields are all of the closed set and none of the nineteen is
      missing, it is of schema 1, numbered from 0, declares a list of open items, verifies nothing or names
      the four parts of what it verifies, is one of the three identities, and carries a valid declaration.
      A record of another schema version is unsupported; every other fault is malformed. */
  lemma RecordDefectIs(c: Contract, r: Record)
    ensures
      var closed := forall f :: f in r ==> !IsOutside(f);
      && (RecordDefect(c, r) == None <==>
            && closed && CARRIED <= r.Keys && r[LedgerSchemaVersion] == Int(1)
            && r[Sequence].Int? && r[Sequence].n >= 0 && r[PriorOpenDecisionItems].List?
            && (r[Verifies] != Null ==>
                  r[Verifies].Obj? && r[Verifies].members.Keys == {Run, Field.Phase, Iteration, WorkerRecordKey})
            && IsIdentity(r) && ValidRecord(c, r))
      && (RecordDefect(c, r) == Some(LedgerSchemaUnsupported) <==>
            closed && Get(r, LedgerSchemaVersion).Int? && r[LedgerSchemaVersion] != Int(1))
      && RecordDefect(c, r) in {None, Some(InputMalformed), Some(LedgerSchemaUnsupported)}
  {
    forall f ensures IsClosedField(f) <==> !IsOutside(f) {
      ClosedIff(f);
    }
    IdentityIff(r);
    CarriedAre(r);
    assert LedgerSchemaVersion in CARRIED && Sequence in CARRIED && PriorOpenDecisionItems in CARRIED
           && Verifies in CARRIED;
    hide IsClosedField, IsOutside, HasRequiredFields, CARRIED, ValidIdentity, IsIdentity, ValidRecord;
  }

  // ---- the one dispatch an open block admits ----

  /** The key a record says it verifies; a missing member reads as null. */
  function WorkerKeyOf(r: Record): Option<Json> {
    match Get(r, Verifies)
    case Obj(members) => Some(Get(members, WorkerRecordKey))
    case _ => None
  }

  /** Of a ledger ended by one open Worker block, exactly one dispatch passes: the Reviewer of that
      very round of this run, verifying that very record, if none has verified it. Every other is
      refused as disagreeing. */
  lemma OnlyItsReviewerPasses(c: Judge, ledger: seq<Record>, run: Json, w: Record, d: VerificationDispatch)
    requires Sound(c) && EndsInBlock(c, ledger, run, w)
    requires Get(w, Boundary) == Str(B2) && Get(w, Source) == Str(Worker) && Get(w, Role) == Str(Worker)
    ensures
      var expected := Settled(Get(w, Run), Get(w, Field.Phase), Get(w, Iteration));
      AdmitHead(c, ledger + [w], run, Some(expected), Some(d))
      == if && d == VerificationDispatch(Reviewer, Get(w, Field.Phase), Get(w, Iteration), KeyOf(w))
            && Get(w, Run) == run && forall i | 0 <= i < |ledger| :: WorkerKeyOf(ledger[i]) != Some(KeyOf(w))
         then Ok(w) else Err(DeclarationDisagrees)
  {
    BlockedLedger(c, ledger, run, w);
    IsUnverified(c, ledger, w);
    OpensAlone(ledger + [w], w, run, d);
    hide OpenItems, Zeros, SortBySequence, FirstDefect, KeyOf, VerifiedBy, EndsInBlock, HeadBinds, DeclaredOpen,
         IsRunEntry, Gapless, AdmitsVerification, Sound, WorkerKeyOf, AdmitHead;
    AdmitsAlone(c, ledger + [w], run, w, d);
  }

  lemma IsUnverified(c: Judge, ledger: seq<Record>, w: Record)
    requires Get(w, Verifies) == Null
    ensures (forall i | 0 <= i < |ledger| :: WorkerKeyOf(ledger[i]) != Some(KeyOf(w)))
            <==> forall i | 0 <= i < |ledger + [w]| :: !VerifiedBy((ledger + [w])[i], KeyOf(w))
  {
    var all := ledger + [w];
    assert forall r :: VerifiedBy(r, KeyOf(w)) <==> WorkerKeyOf(r) == Some(KeyOf(w));
    hide VerifiedBy, KeyOf;
    assert WorkerKeyOf(w) == None && all[|ledger|] == w;
    assert forall i | 0 <= i < |ledger| :: all[i] == ledger[i];
  }

  /** Admission of a ledger that is sound but for its open head. */
  lemma AdmitsAlone(c: Judge, all: seq<Record>, run: Json, w: Record, d: VerificationDispatch)
    requires SortBySequence(all) == all && all != [] && all[|all| - 1] == w
    requires Zeros(all) == [all[0]] && IsRunEntry(all[0], run) && FirstDefect(c, all).None? && Gapless(all)
    requires HeadBinds(all, Some(Binding(w))) && DeclaredOpen(all[0]) == {}
    requires OpenItems(c, all[1..]) == {KeyOf(w)} && OpenItems(c, all) == {KeyOf(w)}
    ensures AdmitHead(c, all, run, Some(Binding(w)), Some(d))
            == if AdmitsVerification(all, w, {KeyOf(w)}, d, run) then Ok(w) else Err(DeclarationDisagrees)
  {
    hide OpenItems, Zeros, SortBySequence, FirstDefect, KeyOf, HeadBinds, DeclaredOpen, IsRunEntry, Gapless,
         AdmitsVerification;
  }

  lemma OpensAlone(records: seq<Record>, w: Record, run: Json, d: VerificationDispatch)
    requires Opens(w) && Identity(w) == (Str(B2), Str(Worker), Str(Worker))
    ensures AdmitsVerification(records, w, {KeyOf(w)}, d, run) <==>
              && d == VerificationDispatch(Reviewer, Get(w, Field.Phase), Get(w, Iteration), KeyOf(w))
              && Get(w, Run) == run && forall i | 0 <= i < |records| :: !VerifiedBy(records[i], KeyOf(w))
  {
    hide KeyOf, VerifiedBy, Opens;
  }

  /** What admission reads of a ledger ended by one open block. */
  lemma BlockedLedger(c: Judge, ledger: seq<Record>, run: Json, w: Record)
    requires Sound(c) && EndsInBlock(c, ledger, run, w)
    ensures
      var all := ledger + [w];
      && SortBySequence(all) == all && all != [] && all[|all| - 1] == w && |all| > 1
      && Zeros(all) == [all[0]] && IsRunEntry(all[0], run) && FirstDefect(c, all).None? && Gapless(all)
      && HeadBinds(all, Some(Binding(w)))
      && DeclaredOpen(all[0]) == {} && OpenItems(c, all[1..]) == {KeyOf(w)} && OpenItems(c, all) == {KeyOf(w)}
      && (Get(w, Verifies) != Null ==> Identity(w) == (Str(B3), Str(Reviewer), Str(Reviewer)))
  {
    hide OpenItems, Zeros, SortBySequence, FirstDefect;
    var all := ledger + [w];
    NoDefectIffAllValid(c, [w]);
    TerminalShape(c, ledger, run, [w]);
    assert all[1..] == ledger[1..] + [w];
    assert forall i | 0 <= i < |ledger[1..]| :: ledger[1..][i] == ledger[i + 1];
    OpenAfterBlock(c, ledger[1..], 1, w);
    OpenAfterBlock(c, ledger, 0, w);
    assert all[|all| - 1] == w && all[0] == ledger[0];
  }

  // ---- what each refusal certifies ----

  /** Numbered 0; a JSON false is read as 0. */
  predicate IsFirst(r: Record) {
    Get(r, Sequence) in {Int(0), Bool(false)}
  }

  /** Exactly one record is numbered 0, and it opens this run. */
  ghost predicate OpensTheRun(records: seq<Record>, run: Json) {
    exists i :: 0 <= i < |records| && IsFirst(records[i])
                && (forall j :: 0 <= j < |records| && IsFirst(records[j]) ==> j == i)
                && Get(records[i], Source) == Str(RunEntry) && Get(records[i], Boundary) == Str(B1)
                && Get(records[i], Run) == run
  }

  /** Record i is the first with a defect. */
  ghost predicate FirstFault(c: Judge, records: seq<Record>, i: int) {
    && 0 <= i < |records| && c.defect(records[i]).Some?
    && forall j | 0 <= j < i :: c.defect(records[j]) == None
  }

  lemma {:induction false} ZerosAre(records: seq<Record>)
    ensures forall r :: r in Zeros(records) ==> r in records && IsFirst(r)
    ensures |Zeros(records)| == 0 <==> forall i :: 0 <= i < |records| ==> !IsFirst(records[i])
    ensures |Zeros(records)| == 1 <==>
              exists i :: 0 <= i < |records| && IsFirst(records[i]) && Zeros(records) == [records[i]]
                          && forall j :: 0 <= j < |records| && IsFirst(records[j]) ==> j == i
  {
    hide IsFirst;
    if records != [] {
      var first, rest := records[0], records[1..];
      ZerosAre(rest);
      ZerosHead(records);
      assert forall k | 0 <= k < |rest| :: rest[k] == records[k + 1];
      if IsFirst(first) && Zeros(rest) == [] {
        assert forall j :: 0 <= j < |records| && IsFirst(records[j]) ==> j == 0;
      }
      if !IsFirst(first) {
        if i :| 0 <= i < |rest| && IsFirst(rest[i]) && Zeros(rest) == [rest[i]]
                && forall j :: 0 <= j < |rest| && IsFirst(rest[j]) ==> j == i {
          assert records[i + 1] == rest[i];
          assert forall j :: 0 <= j < |records| && IsFirst(records[j]) ==> j == i + 1;
        }
        if i :| 0 <= i < |records| && IsFirst(records[i]) && Zeros(records) == [records[i]]
                && forall j :: 0 <= j < |records| && IsFirst(records[j]) ==> j == i {
          assert rest[i - 1] == records[i];
        }
      }
    }
  }

  lemma ZerosHead(records: seq<Record>)
    requires records != []
    ensures Zeros(records) == (if IsFirst(records[0]) then [records[0]] else []) + Zeros(records[1..])
  {
  }

  lemma OpenedIff(records: seq<Record>, run: Json)
    ensures |Zeros(records)| == 1 && IsRunEntry(Zeros(records)[0], run) <==> OpensTheRun(records, run)
  {
    ZerosAre(records);
    hide IsFirst, Zeros;
    if OpensTheRun(records, run) {
      var i :| 0 <= i < |records| && IsFirst(records[i])
               && (forall j :: 0 <= j < |records| && IsFirst(records[j]) ==> j == i)
               && Get(records[i], Source) == Str(RunEntry) && Get(records[i], Boundary) == Str(B1)
               && Get(records[i], Run) == run;
      OneZero(records, i);
    }
  }

  lemma {:induction false} OneZero(records: seq<Record>, i: nat)
    requires i < |records| && IsFirst(records[i])
    requires forall j :: 0 <= j < |records| && IsFirst(records[j]) ==> j == i
    ensures Zeros(records) == [records[i]]
  {
    hide IsFirst;
    var rest := records[1..];
    ZerosHead(records);
    ZerosAre(rest);
    assert forall k | 0 <= k < |rest| :: rest[k] == records[k + 1];
    if i > 0 {
      OneZero(rest, i - 1);
    }
  }

  lemma {:induction false} FirstFaultIs(c: Judge, records: seq<Record>)
    ensures FirstDefect(c, records).Some? ==>
              exists i :: FirstFault(c, records, i) && FirstDefect(c, records) == c.defect(records[i])
  {
    if records != [] && c.defect(records[0]) == None {
      var rest := records[1..];
      FirstFaultIs(c, rest);
      assert forall k | 0 <= k < |rest| :: rest[k] == records[k + 1];
      if i :| FirstFault(c, rest, i) && FirstDefect(c, rest) == c.defect(rest[i]) {
        assert FirstFault(c, records, i + 1);
      }
    } else if records != [] {
      assert FirstFault(c, records, 0);
    }
  }

  lemma {:induction false} FirstOpenIsThere(ledger: seq<Record>, open: set<Json>)
    ensures FirstOpen(ledger, open).Some? ==>
              FirstOpen(ledger, open).value in ledger && KeyOf(FirstOpen(ledger, open).value) in open
    ensures (exists r :: r in ledger && KeyOf(r) in open) ==> FirstOpen(ledger, open).Some?
  {
    hide KeyOf;
    if ledger != [] {
      FirstOpenIsThere(ledger[1..], open);
      assert ledger == [ledger[0]] + ledger[1..];
    }
  }

  lemma OpenIsThere(c: Judge, ledger: seq<Record>)
    ensures OpenItems(c, ledger) != {} ==> exists r :: r in ledger && KeyOf(r) in OpenItems(c, ledger)
  {
    hide KeyOf, OpenAt;
    if k :| k in OpenItems(c, ledger) {
      var i :| 0 <= i < |ledger| && OpenAt(c, ledger, i) && KeyOf(ledger[i]) == k;
      assert ledger[i] in ledger;
    }
  }

  /** A gapless ledger's head is what the caller expects: nothing settled yet on a run just opened, and
      else the very round an agent's record settled. */
  predicate HeadIsExpected(ledger: seq<Record>, expected: Option<Settled>)
    requires ledger != []
  {
    var head := ledger[|ledger| - 1];
    match expected
    case None => |ledger| == 1
    case Some(Settled(run, phase, iteration)) =>
      && |ledger| > 1
      && Get(head, Source) in {Str(Worker), Str(Reviewer)} && Get(head, Boundary) in {Str(B2), Str(B3)}
      && Get(head, Run) == run && Get(head, Field.Phase) == phase && Get(head, Iteration) == iteration
  }

  /** What every refusal certifies, for a ledger listed in any order and sorted by sequence, one check
      after the other: nothing there; not opened, or not by this run; the first faulty record's fault;
      a gap; another head than expected; a declaration that disagrees with what is open, unless it is
      the verification that is offered; and else the first open block. */
  lemma RefusalsAre(c: Judge, records: seq<Record>, run: Json, expected: Option<Settled>)
    ensures
      var ledger := SortBySequence(records);
      var answer := AdmitHead(c, records, run, expected, None);
      if records == [] then answer == Err(InputMissing)
      else if !OpensTheRun(ledger, run) then answer == Err(LedgerInconsistent)
      else if exists i :: FirstFault(c, ledger, i) then
        exists i :: FirstFault(c, ledger, i) && answer == Err(c.defect(ledger[i]).value)
      else if !Gapless(ledger) then answer == Err(InputMalformed)
      else
        && ledger != []
        && if !HeadIsExpected(ledger, expected) then answer == Err(InputUnbound)
           else if DeclaredOpen(ledger[0]) != OpenItems(c, ledger[1..]) then answer == Err(DeclarationDisagrees)
           else if OpenItems(c, ledger) == {} then answer == Ok(ledger[|ledger| - 1])
           else answer.Err? && exists r :: r in ledger && KeyOf(r) in OpenItems(c, ledger)
                                          && answer.error == BlockReason(r)
  {
    var ledger := SortBySequence(records);
    SortIsEmpty(records);
    OpenedIff(ledger, run);
    FirstFaultIs(c, ledger);
    NoDefectIffAllValid(c, ledger);
    FirstOpenIsThere(ledger, OpenItems(c, ledger));
    OpenIsThere(c, ledger);
    hide OpenItems, Zeros, SortBySequence, FirstDefect, KeyOf, DeclaredOpen, OpensTheRun, BlockReason, Gapless;
  }

  lemma SortIsEmpty(records: seq<Record>)
    ensures SortBySequence(records) == [] <==> records == []
  {
    SortKeeps(records);
    assert |multiset(records)| == |records| && |multiset(SortBySequence(records))| == |SortBySequence(records)|;
  }

  // ---- naming a terminal ----

  /** The head is the only open item, and an agent's. */
  ghost predicate BlockAtHead(c: Judge, ledger: seq<Record>)
    requires ledger != []
  {
    var head := ledger[|ledger| - 1];
    OpenItems(c, ledger[1..]) == {KeyOf(head)} && Get(head, Boundary) in {Str(B2), Str(B3)}
  }

  /** Apart from the head one item is open, `w`, a Worker's, and the head is the Reviewer's record
      that verifies it and its round. */
  ghost predicate VerifiedAtHead(c: Judge, ledger: seq<Record>, w: Record)
    requires ledger != []
  {
    var head := ledger[|ledger| - 1];
    && w in ledger && OpenItems(c, ledger[1..]) - {KeyOf(head)} == {KeyOf(w)}
    && Identity(w) == (Str(B2), Str(Worker), Str(Worker))
    && Identity(head) == (Str(B3), Str(Reviewer), Str(Reviewer))
    && Get(head, Verifies) == Obj(map[Run := Get(w, Run), Field.Phase := Get(w, Field.Phase),
                                      Iteration := Get(w, Iteration), WorkerRecordKey := KeyOf(w)])
  }

  lemma BindsField(v: Record, w: Record)
    ensures VerificationBinds(v, KeyOf(w), Binding(w)) <==>
              Get(v, Verifies) == Obj(map[Run := Get(w, Run), Field.Phase := Get(w, Field.Phase),
                                          Iteration := Get(w, Iteration), WorkerRecordKey := KeyOf(w)])
  {
    hide KeyOf;
    if VerificationBinds(v, KeyOf(w), Binding(w)) {
      var m := v[Verifies].members;
      assert m == map[Run := Get(w, Run), Field.Phase := Get(w, Field.Phase),
                      Iteration := Get(w, Iteration), WorkerRecordKey := KeyOf(w)];
    }
  }

  lemma FoundAlone(ledger: seq<Record>, w: Record)
    requires GaplessFrom(ledger, 0) && w in ledger
    ensures FirstOpen(ledger, {KeyOf(w)}) == Some(w) == RecordWithKey(ledger, KeyOf(w))
  {
    var i :| 0 <= i < |ledger| && ledger[i] == w;
    FirstOpenIsTheOne(ledger, 0, i);
    FoundByKey(ledger, 0, i);
  }

  /** The search for the item the head verifies. */
  lemma VerifiedIff(c: Judge, ledger: seq<Record>)
    requires ledger != [] && GaplessFrom(ledger, 0)
    requires forall r :: r in ledger ==> StateOf(r).Some?
    ensures
      var head := ledger[|ledger| - 1];
      var named := VerifiedBlockReason(c, ledger, OpenItems(c, ledger[1..]) - {KeyOf(head)}, head);
      && (named.Some? <==> exists w :: VerifiedAtHead(c, ledger, w))
      && (forall w | VerifiedAtHead(c, ledger, w) ::
            named == Some(EvaluateVerification(c, StateOf(w).value, w, StateOf(head).value, head).reason))
  {
    var head := ledger[|ledger| - 1];
    var candidates := OpenItems(c, ledger[1..]) - {KeyOf(head)};
    hide OpenItems, KeyOf, FirstOpen, RecordWithKey, StateOf, VerificationBinds, EvaluateVerification;
    FirstOpenIsThere(ledger, candidates);
    var first := FirstOpen(ledger, candidates);
    if first.Some? && candidates == {KeyOf(first.value)} {
      FoundAlone(ledger, first.value);
      BindsField(head, first.value);
      assert VerifiedBlockReason(c, ledger, candidates, head).Some? ==> VerifiedAtHead(c, ledger, first.value);
    }
    forall w | VerifiedAtHead(c, ledger, w)
      ensures VerifiedBlockReason(c, ledger, candidates, head)
              == Some(EvaluateVerification(c, StateOf(w).value, w, StateOf(head).value, head).reason)
    {
      FoundAlone(ledger, w);
      BindsField(head, w);
    }
  }

  /** The same ledger, read in one go. */
  lemma NamedAs(c: Judge, ledger: seq<Record>, refusedWith: Reason)
    requires Sound(c) && ledger != [] && GaplessFrom(ledger, 0) && FirstDefect(c, ledger).None?
    ensures
      var head := ledger[|ledger| - 1];
      var open := OpenItems(c, ledger[1..]);
      && StateOf(head).Some? && (forall r :: r in ledger ==> StateOf(r).Some?)
      && UnresolvedBlockReason(c, ledger, refusedWith)
         == if refusedWith != DeclarationDisagrees || !(DeclaredOpen(ledger[0]) <= open) then None
            else if open != {KeyOf(head)} then VerifiedBlockReason(c, ledger, open - {KeyOf(head)}, head)
            else if Get(head, Boundary) in {Str(B2), Str(B3)}
            then Some(Blocked(StateOf(head).value, Get(head, ReasonCode)))
            else None
  {
    GaplessIsSorted(ledger, 0);
    GaplessHasOneZero(ledger, 0);
    NoDefectIffAllValid(c, ledger);
    var head := ledger[|ledger| - 1];
    assert forall r :: r in ledger ==> c.defect(r).None?;
    assert forall r :: r in ledger ==> StateOf(r).Some? && ValidIdentity(r);
    assert Identity(head) in IDENTITIES;
    hide OpenItems, KeyOf, VerifiedBlockReason, FirstDefect, Zeros, SortBySequence, DeclaredOpen;
  }

  /** A refused terminal ledger names a block exactly when it was refused as disagreeing, claims open
      nothing that is not, and ends in the one open block or in the verification of it; the block's
      own state and code are then named, or what the verification settles. Else the refusal stands. */
  lemma TerminalIsNamedIff(c: Judge, ledger: seq<Record>, refusedWith: Reason)
    requires Sound(c) && ledger != [] && GaplessFrom(ledger, 0) && FirstDefect(c, ledger).None?
    ensures
      var named := UnresolvedBlockReason(c, ledger, refusedWith);
      var head := ledger[|ledger| - 1];
      && StateOf(head).Some? && (forall r :: r in ledger ==> StateOf(r).Some?)
      && (named.Some? <==>
            && refusedWith == DeclarationDisagrees && DeclaredOpen(ledger[0]) <= OpenItems(c, ledger[1..])
            && (BlockAtHead(c, ledger) || exists w :: VerifiedAtHead(c, ledger, w)))
      && (named.Some? && BlockAtHead(c, ledger) ==>
            named.value == Blocked(StateOf(head).value, Get(head, ReasonCode)))
      && (forall w | named.Some? && VerifiedAtHead(c, ledger, w) ::
            named.value == if StateOf(head).value in {NeedsInput, Conflict}
                           then Blocked(StateOf(head).value, Get(head, ReasonCode))
                           else if c.resolves(StateOf(w).value, StateOf(head).value, head)
                           then Blocked(StateOf(w).value, Get(w, ReasonCode))
                           else DowngradeRejected)
  {
    NamedAs(c, ledger, refusedWith);
    VerifiedIff(c, ledger);
    hide OpenItems, KeyOf, VerifiedBlockReason, FirstDefect, UnresolvedBlockReason, EvaluateVerification, DeclaredOpen,
         StateOf, GaplessFrom, Sound;
    var head := ledger[|ledger| - 1];
    forall w | VerifiedAtHead(c, ledger, w)
      ensures
        && BlockAtHead(c, ledger) == false
        && EvaluateVerification(c, StateOf(w).value, w, StateOf(head).value, head).reason
           == if StateOf(head).value in {NeedsInput, Conflict} then Blocked(StateOf(head).value, Get(head, ReasonCode))
              else if c.resolves(StateOf(w).value, StateOf(head).value, head)
              then Blocked(StateOf(w).value, Get(w, ReasonCode))
              else DowngradeRejected
    {
      VerificationSettles(c, StateOf(w).value, w, StateOf(head).value, head);
      assert KeyOf(w) in OpenItems(c, ledger[1..]) - {KeyOf(head)};
    }
  }
}
