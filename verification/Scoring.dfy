/** Turning a match into rates: classifying what was left over and the consistency both rates must
    have (`classify_unmatched`, `score`, `_assert_metric_consistency` in
    scripts/final_review_eval.py). Rates are exact. */
module Scoring {
  import opened Vocabulary
  import opened Sequences
  import opened Matching
  import opened MatchingFacts

  datatype Class = AdjudicatedTrue | AdjudicatedFalse | AttestedFalse | Unadjudicated

  datatype Counts = Counts(adjudicatedTrue: nat, adjudicatedFalse: nat, attestedFalse: nat, unadjudicated: nat)

  datatype Rates = Rates(precision: real, falsePositiveRate: real)

  /** An explicit verdict always wins; an attestation covers only findings compared with the whole key. */
  function Classify(u: Unmatched, verdicts: map<Id, bool>, closedWorld: bool): Class {
    if u.finding in verdicts then (if verdicts[u.finding] then AdjudicatedTrue else AdjudicatedFalse)
    else if closedWorld && u.reason == NoKeyMatch then AttestedFalse
    else Unadjudicated
  }

  function Count(us: seq<Unmatched>, verdicts: map<Id, bool>, closedWorld: bool, c: Class): nat {
    if us == [] then 0
    else (if Classify(us[0], verdicts, closedWorld) == c then 1 else 0) + Count(us[1..], verdicts, closedWorld, c)
  }

  lemma {:induction false} EveryLeftoverHasOneClass(us: seq<Unmatched>, verdicts: map<Id, bool>, closedWorld: bool)
    ensures Count(us, verdicts, closedWorld, AdjudicatedTrue) + Count(us, verdicts, closedWorld, AdjudicatedFalse)
            + Count(us, verdicts, closedWorld, AttestedFalse) + Count(us, verdicts, closedWorld, Unadjudicated) == |us|
  {
    if us != [] {
      EveryLeftoverHasOneClass(us[1..], verdicts, closedWorld);
    }
  }

  /** Without a signed attestation no unmatched finding ever counts against the report unjudged. */
  lemma {:induction false} OpenWorldAttestsNothing(us: seq<Unmatched>, verdicts: map<Id, bool>)
    ensures Count(us, verdicts, false, AttestedFalse) == 0
    ensures verdicts == map[] ==> Count(us, verdicts, false, Unadjudicated) == |us|
  {
    if us != [] {
      OpenWorldAttestsNothing(us[1..], verdicts);
    }
  }

  function IdsOf(findings: seq<Finding>): set<Id> {
    set f | f in findings :: f.id
  }

  lemma IdsHead(findings: seq<Finding>)
    requires DistinctIds(findings, []) && findings != []
    ensures DistinctIds(findings[1..], [])
    ensures IdsOf(findings) == {findings[0].id} + IdsOf(findings[1..])
    ensures findings[0].id !in IdsOf(findings[1..])
  {
    var first, rest := findings[0], findings[1..];
    assert findings == [first] + rest;
    assert forall i | 0 <= i < |rest| :: rest[i] == findings[i + 1];
  }

  lemma {:induction false} LeftoverSize(findings: seq<Finding>, entries: seq<Entry>, used: set<Id>)
    requires DistinctIds(findings, [])
    ensures |Leftover(findings, entries, used)| + |used * IdsOf(findings)| == |findings|
  {
    hide ReasonFor, IdsOf, DistinctIds;
    if findings != [] {
      var id, rest := findings[0].id, IdsOf(findings[1..]);
      IdsHead(findings);
      LeftoverSize(findings[1..], entries, used);
      assert used * ({id} + rest) == (if id in used then {id} else {}) + used * rest;
    } else {
      NoIds();
      assert used * {} == {};
    }
  }

  lemma NoIds()
    ensures IdsOf([]) == {}
  {
  }

  /** Every finding is either matched once or left over once. */
  lemma FindingsAreConserved(findings: seq<Finding>, entries: seq<Entry>)
    requires DistinctIds(findings, entries)
    ensures
      var matched := Matched(findings, entries);
      |matched| + |Leftover(findings, entries, FindingsOf(Members(matched)))| == |findings|
  {
    var matched := Matched(findings, entries);
    var used := FindingsOf(Members(matched));
    MatchedIsStable(findings, entries);
    SizeOfDistinct(matched);
    ImageSizes(Members(matched));
    LeftoverSize(findings, entries, used);
    PairsAre(findings, entries);
    forall id | id in used ensures id in IdsOf(findings) {
      var p :| p in Members(matched) && p.finding == id;
      assert p in PairSet(Members(findings), Members(entries));
      assert p in Members(Pairs(findings, entries));
      assert Relates(p, Members(findings), Members(entries));
      var f, e :| f in Members(findings) && e in Members(entries) && IsCandidate(f, e) && p == PairOf(f, e);
      assert f in findings;
    }
    assert used * IdsOf(findings) == used;
  }

  // ---- what the counters count ----

  /** The findings left over that `Classify` puts in one class. */
  ghost function LeftAs(findings: seq<Finding>, entries: seq<Entry>, used: set<Id>, verdicts: map<Id, bool>,
                        closedWorld: bool, c: Class): set<Finding> {
    set f | f in findings && IsLeftAs(f, entries, used, verdicts, closedWorld, c)
  }

  predicate IsLeftAs(f: Finding, entries: seq<Entry>, used: set<Id>, verdicts: map<Id, bool>, closedWorld: bool,
                     c: Class) {
    f.id !in used && Classify(Unmatched(f.id, ReasonFor(f, entries)), verdicts, closedWorld) == c
  }

  lemma {:induction false} CountIs(findings: seq<Finding>, entries: seq<Entry>, used: set<Id>, verdicts: map<Id, bool>,
                                   closedWorld: bool, c: Class)
    requires DistinctIds(findings, [])
    ensures Count(Leftover(findings, entries, used), verdicts, closedWorld, c)
            == |LeftAs(findings, entries, used, verdicts, closedWorld, c)|
  {
    if findings != [] {
      IdsHead(findings);
      CountIs(findings[1..], entries, used, verdicts, closedWorld, c);
      CountHead(findings, entries, used, verdicts, closedWorld, c);
      LeftAsHead(findings, entries, used, verdicts, closedWorld, c);
      hide Count, LeftAs, IsLeftAs, Leftover, IdsOf, DistinctIds;
    }
  }

  lemma CountHead(findings: seq<Finding>, entries: seq<Entry>, used: set<Id>, verdicts: map<Id, bool>,
                  closedWorld: bool, c: Class)
    requires findings != []
    ensures Count(Leftover(findings, entries, used), verdicts, closedWorld, c)
            == (if IsLeftAs(findings[0], entries, used, verdicts, closedWorld, c) then 1 else 0)
               + Count(Leftover(findings[1..], entries, used), verdicts, closedWorld, c)
  {
    hide ReasonFor, Classify;
    var u := Unmatched(findings[0].id, ReasonFor(findings[0], entries));
    var left := Leftover(findings[1..], entries, used);
    assert ([u] + left)[1..] == left && ([u] + left)[0] == u;
    assert [] + left == left;
  }

  lemma LeftAsHead(findings: seq<Finding>, entries: seq<Entry>, used: set<Id>, verdicts: map<Id, bool>,
                   closedWorld: bool, c: Class)
    requires findings != [] && DistinctIds(findings, [])
    ensures |LeftAs(findings, entries, used, verdicts, closedWorld, c)|
            == (if IsLeftAs(findings[0], entries, used, verdicts, closedWorld, c) then 1 else 0)
               + |LeftAs(findings[1..], entries, used, verdicts, closedWorld, c)|
  {
    NotAmong(findings);
    hide IsLeftAs, DistinctIds;
    var first, rest := findings[0], findings[1..];
    assert forall f :: f in findings <==> f == first || f in rest by {
      assert findings == [first] + rest;
    }
    var all := LeftAs(findings, entries, used, verdicts, closedWorld, c);
    var others := LeftAs(rest, entries, used, verdicts, closedWorld, c);
    assert first !in others;
    var joins := IsLeftAs(first, entries, used, verdicts, closedWorld, c);
    assert forall f :: f in all <==> (joins && f == first) || f in others;
    hide LeftAs;
    OneMore(all, others, first, joins);
  }

  lemma OneMore<T>(all: set<T>, others: set<T>, x: T, joins: bool)
    requires x !in others && forall y :: y in all <==> (joins && y == x) || y in others
    ensures |all| == (if joins then 1 else 0) + |others|
  {
    assert all == (if joins then {x} else {}) + others;
  }

  lemma NotAmong(findings: seq<Finding>)
    requires DistinctIds(findings, []) && findings != []
    ensures findings[0] !in findings[1..]
  {
    var rest := findings[1..];
    assert forall i | 0 <= i < |rest| :: rest[i] == findings[i + 1];
  }

  /** The findings no pair of the match takes. */
  ghost function Missed(findings: seq<Finding>, matched: seq<Pair>): set<Finding> {
    set f | f in findings && forall p :: p in matched ==> p.finding != f.id
  }

  lemma MissedIff(findings: seq<Finding>, matched: seq<Pair>)
    ensures forall f :: f in Missed(findings, matched) <==> f in findings && f.id !in FindingsOf(Members(matched))
  {
    forall f | f in findings ensures f in Missed(findings, matched) <==> f.id !in FindingsOf(Members(matched)) {
      if p :| p in matched && p.finding == f.id {
        assert p in Members(matched);
      }
    }
  }

  /** What each counter counts: the unmatched findings judged true, those judged false, those nobody
      judged that a closed world attests, and the rest. */
  ghost predicate CountsThe(findings: seq<Finding>, entries: seq<Entry>, matched: seq<Pair>, verdicts: map<Id, bool>,
                            closedWorld: bool, n: Counts) {
    var missed := Missed(findings, matched);
    var attested := set f | f in missed && f.id !in verdicts && f.file.Some? && !Undecided(f, Members(entries));
    && n.adjudicatedTrue == |set f | f in missed && f.id in verdicts && verdicts[f.id]|
    && n.adjudicatedFalse == |set f | f in missed && f.id in verdicts && !verdicts[f.id]|
    && n.attestedFalse == (if closedWorld then |attested| else 0)
    && n.unadjudicated == |(set f | f in missed && f.id !in verdicts) - (if closedWorld then attested else {})|
  }

  lemma CountersCount(findings: seq<Finding>, entries: seq<Entry>, verdicts: map<Id, bool>, closedWorld: bool)
    requires DistinctIds(findings, entries)
    ensures
      var matched := Matched(findings, entries);
      var us := Leftover(findings, entries, FindingsOf(Members(matched)));
      CountsThe(findings, entries, matched, verdicts, closedWorld,
                Counts(Count(us, verdicts, closedWorld, AdjudicatedTrue),
                       Count(us, verdicts, closedWorld, AdjudicatedFalse),
                       Count(us, verdicts, closedWorld, AttestedFalse),
                       Count(us, verdicts, closedWorld, Unadjudicated)))
  {
    hide Matched, Leftover, FindingsOf, ReasonFor, Undecided, Count;
    var matched := Matched(findings, entries);
    var used := FindingsOf(Members(matched));
    CountIs(findings, entries, used, verdicts, closedWorld, AdjudicatedTrue);
    CountIs(findings, entries, used, verdicts, closedWorld, AdjudicatedFalse);
    CountIs(findings, entries, used, verdicts, closedWorld, AttestedFalse);
    CountIs(findings, entries, used, verdicts, closedWorld, Unadjudicated);
    hide Missed, DistinctIds, LeftAs;
    ClassesAre(findings, entries, matched, verdicts, closedWorld);
  }

  lemma ClassesAre(findings: seq<Finding>, entries: seq<Entry>, matched: seq<Pair>, verdicts: map<Id, bool>,
                   closedWorld: bool)
    requires DistinctIds(findings, entries)
    ensures
      var used := FindingsOf(Members(matched));
      var missed := Missed(findings, matched);
      var attested := set f | f in missed && f.id !in verdicts && f.file.Some? && !Undecided(f, Members(entries));
      && LeftAs(findings, entries, used, verdicts, closedWorld, AdjudicatedTrue)
         == (set f | f in missed && f.id in verdicts && verdicts[f.id])
      && LeftAs(findings, entries, used, verdicts, closedWorld, AdjudicatedFalse)
         == (set f | f in missed && f.id in verdicts && !verdicts[f.id])
      && LeftAs(findings, entries, used, verdicts, closedWorld, AttestedFalse) == (if closedWorld then attested else {})
      && LeftAs(findings, entries, used, verdicts, closedWorld, Unadjudicated)
         == (set f | f in missed && f.id !in verdicts) - (if closedWorld then attested else {})
  {
    MissedIff(findings, matched);
    forall f
      ensures ReasonFor(f, entries) == WhyLeft(f, Members(entries))
      ensures WhyLeft(f, Members(entries)) == NoKeyMatch <==> f.file.Some? && !Undecided(f, Members(entries))
    {
      ReasonIs(f, entries);
    }
    hide FindingsOf, ReasonFor, Undecided, Missed, DistinctIds, WhyLeft;
  }

  /** The class a leftover belongs to. */
  predicate IsClass(u: Unmatched, verdicts: map<Id, bool>, closedWorld: bool, c: Class) {
    match c
    case AdjudicatedTrue => u.finding in verdicts && verdicts[u.finding]
    case AdjudicatedFalse => u.finding in verdicts && !verdicts[u.finding]
    case AttestedFalse => u.finding !in verdicts && closedWorld && u.reason == NoKeyMatch
    case Unadjudicated => u.finding !in verdicts && !(closedWorld && u.reason == NoKeyMatch)
  }

  lemma ClassifyIs(u: Unmatched, verdicts: map<Id, bool>, closedWorld: bool)
    ensures IsClass(u, verdicts, closedWorld, Classify(u, verdicts, closedWorld))
  {
  }

  /** One pass over the leftovers, updating a counter per class. A verdict always wins; only in a
      closed world is a leftover without one held against the report, and then only if it was compared
      with the whole key. */
  method ClassifyUnmatched(us: seq<Unmatched>, verdicts: map<Id, bool>, closedWorld: bool)
    returns (classes: seq<Class>, n: Counts)
    ensures |classes| == |us|
    ensures forall i | 0 <= i < |us| :: IsClass(us[i], verdicts, closedWorld, classes[i])
    ensures n.adjudicatedTrue == multiset(classes)[AdjudicatedTrue]
    ensures n.adjudicatedFalse == multiset(classes)[AdjudicatedFalse]
    ensures n.attestedFalse == multiset(classes)[AttestedFalse]
    ensures n.unadjudicated == multiset(classes)[Unadjudicated]
    ensures n == Counts(Count(us, verdicts, closedWorld, AdjudicatedTrue),
                        Count(us, verdicts, closedWorld, AdjudicatedFalse),
                        Count(us, verdicts, closedWorld, AttestedFalse),
                        Count(us, verdicts, closedWorld, Unadjudicated))
  {
    hide Classify;
    classes := [];
    var tp, fp, attested, open := 0, 0, 0, 0;
    for i := 0 to |us|
      invariant |classes| == i && forall j | 0 <= j < i :: classes[j] == Classify(us[j], verdicts, closedWorld)
      invariant tp == multiset(classes)[AdjudicatedTrue] && fp == multiset(classes)[AdjudicatedFalse]
      invariant attested == multiset(classes)[AttestedFalse] && open == multiset(classes)[Unadjudicated]
      invariant Count(us, verdicts, closedWorld, AdjudicatedTrue) == tp + Count(us[i..], verdicts, closedWorld,
                                                                                AdjudicatedTrue)
      invariant Count(us, verdicts, closedWorld, AdjudicatedFalse)
                == fp + Count(us[i..], verdicts, closedWorld, AdjudicatedFalse)
      invariant Count(us, verdicts, closedWorld, AttestedFalse)
                == attested + Count(us[i..], verdicts, closedWorld, AttestedFalse)
      invariant Count(us, verdicts, closedWorld, Unadjudicated) == open + Count(us[i..], verdicts, closedWorld,
                                                                                Unadjudicated)
    {
      assert us[i..][1..] == us[i + 1..];
      var c := Classify(us[i], verdicts, closedWorld);
      match c {
        case AdjudicatedTrue => tp := tp + 1;
        case AdjudicatedFalse => fp := fp + 1;
        case AttestedFalse => attested := attested + 1;
        case Unadjudicated => open := open + 1;
      }
      classes := classes + [c];
    }
    n := Counts(tp, fp, attested, open);
    forall i | 0 <= i < |us| ensures IsClass(us[i], verdicts, closedWorld, classes[i]) {
      ClassifyIs(us[i], verdicts, closedWorld);
    }
  }

  /** The rates are computed exactly when there is a finding and every leftover is accounted for, and
      then share the findings between them: the scorer's consistency assertion never fails. The
      counters count the unmatched findings as they were judged, whatever the match is. */
  method Score(findings: seq<Finding>, entries: seq<Entry>, verdicts: map<Id, bool>, closedWorld: bool)
    returns (rates: Option<Rates>, matched: seq<Pair>, n: Counts)
    requires DistinctIds(findings, entries)
    ensures matched == Matched(findings, entries)
    ensures CountsThe(findings, entries, matched, verdicts, closedWorld, n)
    ensures |matched| + n.adjudicatedTrue + n.adjudicatedFalse + n.attestedFalse + n.unadjudicated == |findings|
    ensures rates.Some? <==> findings != [] && n.unadjudicated == 0
    ensures rates.Some? ==>
              && rates.value.precision == (|matched| + n.adjudicatedTrue) as real / |findings| as real
              && rates.value.falsePositiveRate == (n.adjudicatedFalse + n.attestedFalse) as real / |findings| as real
              && rates.value.precision + rates.value.falsePositiveRate == 1.0
  {
    var unmatched;
    matched, unmatched := MatchFindings(findings, entries);
    FindingsAreConserved(findings, entries);
    CountersCount(findings, entries, verdicts, closedWorld);
    hide CountsThe, Matched, Count;
    var classes;
    classes, n := ClassifyUnmatched(unmatched, verdicts, closedWorld);
    EveryLeftoverHasOneClass(unmatched, verdicts, closedWorld);
    if findings == [] || n.unadjudicated != 0 {
      rates := None;
    } else {
      var total := |findings| as real;
      var hits, misses := (|matched| + n.adjudicatedTrue) as real, (n.adjudicatedFalse + n.attestedFalse) as real;
      assert hits + misses == total;
      SharesAddUp(hits, misses, total);
      rates := Some(Rates(hits / total, misses / total));
    }
  }

  lemma SharesAddUp(a: real, b: real, total: real)
    requires total > 0.0 && a + b == total
    ensures a / total + b / total == 1.0
  {
    assert a / total + b / total == (a + b) / total;
  }
}
