/** Scoring a review against a key of seeded defects: candidate pairs, the ambiguity guard and the
    greedy one-to-one assignment (`match_findings` in scripts/final_review_eval.py). */
module Matching {
  import opened Vocabulary
  import opened Sequences

  /** Identifiers by their rank in string order. */
  type Id = nat

  /** Texts are already normalized. `groups` lists, per required claim, its accepted forms. */
  datatype Entry = Entry(id: Id, groups: seq<seq<string>>, file: string, start: int, end: int,
                         symbol: string, tolerance: int)

  datatype Finding = Finding(id: Id, claim: string, location: string, file: Option<string>, line: Option<int>)

  /** A finding that may name an entry. `distance` is twice the distance of the finding's line from
      the middle of the entry's range, so that it is whole. */
  datatype Pair = Pair(finding: Id, entry: Id, groups: nat, hit: bool, distance: nat)

  // ---- candidates ----

  predicate Contains(text: string, form: string) {
    exists i | 0 <= i <= |text| :: form <= text[i..]
  }

  function GroupsSatisfied(claim: string, groups: seq<seq<string>>): nat {
    if groups == [] then 0
    else
      (if exists form :: form in groups[0] && Contains(claim, form) then 1 else 0)
      + GroupsSatisfied(claim, groups[1..])
  }

  predicate IsCandidate(f: Finding, e: Entry) {
    && GroupsSatisfied(f.claim, e.groups) == |e.groups|
    && f.file == Some(e.file)
    && (f.line.Some? ==> e.start - e.tolerance <= f.line.value <= e.end + e.tolerance)
  }

  function Distance(f: Finding, e: Entry): nat {
    if f.line.None? then 0
    else if 2 * f.line.value >= e.start + e.end then 2 * f.line.value - (e.start + e.end)
    else e.start + e.end - 2 * f.line.value
  }

  function PairOf(f: Finding, e: Entry): Pair {
    Pair(f.id, e.id, |e.groups|, Contains(f.claim, e.symbol) || Contains(f.location, e.symbol), Distance(f, e))
  }

  function Candidates(f: Finding, entries: seq<Entry>): seq<Pair> {
    if entries == [] then []
    else (if IsCandidate(f, entries[0]) then [PairOf(f, entries[0])] else []) + Candidates(f, entries[1..])
  }

  // ---- the ambiguity guard ----

  function Hits(options: seq<Pair>): seq<Pair> {
    if options == [] then [] else (if options[0].hit then [options[0]] else []) + Hits(options[1..])
  }

  predicate Nearer(p: Pair, q: Pair) {
    p.distance < q.distance || (p.distance == q.distance && p.entry < q.entry)
  }

  function Nearest(options: seq<Pair>): Pair
    requires options != []
  {
    if |options| == 1 then options[0]
    else
      var rest := Nearest(options[1..]);
      if Nearer(rest, options[0]) then rest else options[0]
  }

  /** More than one candidate: the only symbol hit, else the nearest line, else none at all. */
  function Disambiguated(f: Finding, options: seq<Pair>): seq<Pair> {
    if |options| < 2 then options
    else if |Hits(options)| == 1 then Hits(options)
    else if f.line.Some? then [Nearest(options)]
    else []
  }

  predicate IsAmbiguous(f: Finding, options: seq<Pair>) {
    |options| >= 2 && |Hits(options)| != 1 && f.line.None?
  }

  function Pairs(findings: seq<Finding>, entries: seq<Entry>): seq<Pair> {
    if findings == [] then []
    else Disambiguated(findings[0], Candidates(findings[0], entries)) + Pairs(findings[1..], entries)
  }

  // ---- the greedy assignment ----

  /** More groups first, then symbol hits, then nearer lines, then entry and finding identity. */
  predicate Precedes(p: Pair, q: Pair) {
    if p.groups != q.groups then p.groups > q.groups
    else if p.hit != q.hit then p.hit
    else if p.distance != q.distance then p.distance < q.distance
    else if p.entry != q.entry then p.entry < q.entry
    else p.finding < q.finding
  }

  function Insert(p: Pair, sorted: seq<Pair>): seq<Pair> {
    if sorted == [] || !Precedes(sorted[0], p) then [p] + sorted else [sorted[0]] + Insert(p, sorted[1..])
  }

  function Sorted(pairs: seq<Pair>): seq<Pair> {
    if pairs == [] then [] else Insert(pairs[0], Sorted(pairs[1..]))
  }

  function Greedy(pairs: seq<Pair>, usedFindings: set<Id>, usedEntries: set<Id>): seq<Pair> {
    if pairs == [] then []
    else if pairs[0].finding in usedFindings || pairs[0].entry in usedEntries
    then Greedy(pairs[1..], usedFindings, usedEntries)
    else [pairs[0]] + Greedy(pairs[1..], usedFindings + {pairs[0].finding}, usedEntries + {pairs[0].entry})
  }

  function Matched(findings: seq<Finding>, entries: seq<Entry>): seq<Pair> {
    Greedy(Sorted(Pairs(findings, entries)), {}, {})
  }

  // ---- what the assignment is, as a set ----

  predicate Clash(p: Pair, q: Pair) {
    p.finding == q.finding || p.entry == q.entry
  }

  /** One-to-one: no two pairs share a finding or an entry. */
  ghost predicate OneToOne(m: set<Pair>) {
    forall p, q :: p in m && q in m && Clash(p, q) ==> p == q
  }

  /** A one-to-one choice in which every pair left out clashes with a preferred pair chosen. */
  ghost predicate Stable(pairs: set<Pair>, m: set<Pair>) {
    && m <= pairs && OneToOne(m)
    && (forall p :: p in pairs && p !in m ==> exists q :: q in m && Clash(p, q) && Precedes(q, p))
  }

  /** Pairs are determined by the finding and the entry they relate. */
  ghost predicate Proper(pairs: set<Pair>) {
    forall p, q :: p in pairs && q in pairs && p.finding == q.finding && p.entry == q.entry ==> p == q
  }

  lemma {:induction false} LeastPair(pairs: set<Pair>) returns (least: Pair)
    requires pairs != {} && Proper(pairs)
    ensures least in pairs && forall p :: p in pairs && p != least ==> Precedes(least, p)
  {
    least :| least in pairs;
    if pairs != {least} {
      var first := least;
      var other := LeastPair(pairs - {first});
      least := if Precedes(other, first) then other else first;
      forall p | p in pairs && p != least ensures Precedes(least, p) {
        assert p == first || p == other || Precedes(other, p);
      }
    }
  }

  /** A pair one stable choice takes and the other leaves out has a rival, preferred to it, that
      only the other takes. */
  lemma Rival(pairs: set<Pair>, m: set<Pair>, n: set<Pair>, p: Pair)
    requires Stable(pairs, m) && Stable(pairs, n) && p in m && p !in n
    ensures exists q :: q in n - m && Precedes(q, p)
  {
    var q :| q in n && Clash(p, q) && Precedes(q, p);
    assert q in n - m;
  }

  /** A set of proper pairs has at most one stable choice, so the assignment is a function of the
      pairs alone. */
  lemma StableIsUnique(pairs: set<Pair>, m: set<Pair>, n: set<Pair>)
    requires Proper(pairs) && Stable(pairs, m) && Stable(pairs, n)
    ensures m == n
  {
    var differ := (m - n) + (n - m);
    if differ != {} {
      var p := LeastPair(differ);
      if p in m {
        Rival(pairs, m, n, p);
      } else {
        Rival(pairs, n, m, p);
      }
    }
  }

  // ---- the greedy assignment is the stable one ----

  predicate InPreferenceOrder(pairs: seq<Pair>) {
    forall i, j | 0 <= i < j < |pairs| :: Precedes(pairs[i], pairs[j])
  }

  lemma PrecedesIsTransitive()
    ensures forall p, q, r :: Precedes(p, q) && Precedes(q, r) ==> Precedes(p, r)
    ensures forall p, q :: Precedes(p, q) ==> !Precedes(q, p)
  {
  }

  lemma {:induction false} InsertIs(p: Pair, sorted: seq<Pair>)
    requires InPreferenceOrder(sorted)
    requires forall i | 0 <= i < |sorted| :: Precedes(p, sorted[i]) || Precedes(sorted[i], p)
    ensures InPreferenceOrder(Insert(p, sorted))
    ensures Members(Insert(p, sorted)) == {p} + Members(sorted)
  {
    PrecedesIsTransitive();
    hide Precedes;
    if sorted == [] {
      assert Insert(p, sorted) == [p];
    } else if !Precedes(sorted[0], p) {
      assert Insert(p, sorted) == [p] + sorted;
      forall i | 0 <= i < |sorted| ensures Precedes(p, sorted[i]) {
        if i > 0 {
          assert Precedes(sorted[0], sorted[i]);
        }
      }
    } else {
      var rest := Insert(p, sorted[1..]);
      assert forall i | 0 <= i < |sorted[1..]| :: sorted[1..][i] == sorted[i + 1];
      InsertIs(p, sorted[1..]);
      assert sorted == [sorted[0]] + sorted[1..];
      forall i | 0 <= i < |rest| ensures Precedes(sorted[0], rest[i]) {
        assert rest[i] in Members(rest);
        if rest[i] != p {
          var j :| 0 <= j < |sorted[1..]| && sorted[1..][j] == rest[i];
          assert Precedes(sorted[0], sorted[j + 1]);
        }
      }
    }
  }

  lemma {:induction false} SortedIs(pairs: seq<Pair>)
    requires Distinct(pairs) && Proper(Members(pairs))
    ensures InPreferenceOrder(Sorted(pairs)) && Members(Sorted(pairs)) == Members(pairs)
  {
    if pairs != [] {
      var rest := pairs[1..];
      assert pairs == [pairs[0]] + rest;
      assert forall x :: x in Members(pairs) <==> x == pairs[0] || x in Members(rest);
      SortedIs(rest);
      var sorted := Sorted(rest);
      forall i | 0 <= i < |sorted| ensures Precedes(pairs[0], sorted[i]) || Precedes(sorted[i], pairs[0]) {
        assert sorted[i] in Members(sorted);
        var j :| 0 <= j < |rest| && rest[j] == sorted[i];
        assert pairs[0] != pairs[j + 1];
        assert pairs[0] in Members(pairs);
      }
      InsertIs(pairs[0], sorted);
    }
  }

  lemma {:induction false} GreedyIs(pairs: seq<Pair>, usedFindings: set<Id>, usedEntries: set<Id>)
    requires InPreferenceOrder(pairs)
    ensures
      var m := Greedy(pairs, usedFindings, usedEntries);
      && Distinct(m) && Members(m) <= Members(pairs) && OneToOne(Members(m))
      && (forall p :: p in m ==> p.finding !in usedFindings && p.entry !in usedEntries)
      && (forall p :: p in pairs && p !in m ==>
            || p.finding in usedFindings || p.entry in usedEntries
            || exists q :: q in m && Clash(p, q) && Precedes(q, p))
  {
    if pairs != [] {
      var first, rest := pairs[0], pairs[1..];
      assert pairs == [first] + rest;
      assert forall i | 0 <= i < |rest| :: rest[i] == pairs[i + 1];
      var m := Greedy(pairs, usedFindings, usedEntries);
      if first.finding in usedFindings || first.entry in usedEntries {
        GreedyIs(rest, usedFindings, usedEntries);
      } else {
        var f', e' := usedFindings + {first.finding}, usedEntries + {first.entry};
        GreedyIs(rest, f', e');
        var m' := Greedy(rest, f', e');
        assert m == [first] + m';
        DistinctConcat([first], m');
        assert forall p :: p in m <==> p == first || p in m';
        forall p | p in pairs && p !in m && p.finding !in usedFindings && p.entry !in usedEntries
          ensures exists q :: q in m && Clash(p, q) && Precedes(q, p)
        {
          if p.finding in f' || p.entry in e' {
            var i :| 0 <= i < |rest| && rest[i] == p;
            assert Precedes(first, pairs[i + 1]);
            assert first in m && Clash(p, first);
          } else {
            var q :| q in m' && Clash(p, q) && Precedes(q, p);
            assert q in m;
          }
        }
      }
    }
  }

  lemma GreedyIsStable(pairs: seq<Pair>)
    requires Distinct(pairs) && Proper(Members(pairs))
    ensures Stable(Members(pairs), Members(Greedy(Sorted(pairs), {}, {})))
  {
    SortedIs(pairs);
    GreedyIs(Sorted(pairs), {}, {});
    assert forall p :: p in Sorted(pairs) <==> p in Members(pairs);
  }

  // ---- the pairs depend only on the sets of findings and entries ----

  ghost function Options(f: Finding, entries: set<Entry>): set<Pair> {
    set e | e in entries && IsCandidate(f, e) :: PairOf(f, e)
  }

  ghost function Kept(f: Finding, options: set<Pair>): set<Pair> {
    var hits := set p | p in options && p.hit;
    if |options| < 2 then options
    else if |hits| == 1 then hits
    else if f.line.Some? then set p | p in options && forall q :: q in options && q != p ==> Nearer(p, q)
    else {}
  }

  ghost function PairSet(findings: set<Finding>, entries: set<Entry>): set<Pair> {
    set f, p | f in findings && p in Kept(f, Options(f, entries)) :: p
  }

  predicate DistinctIds(findings: seq<Finding>, entries: seq<Entry>) {
    && (forall i, j | 0 <= i < j < |findings| :: findings[i].id != findings[j].id)
    && (forall i, j | 0 <= i < j < |entries| :: entries[i].id != entries[j].id)
  }

  /** Every option comes from an entry of that id. */
  ghost predicate FromEntries(f: Finding, entries: seq<Entry>, options: seq<Pair>) {
    forall p :: p in options ==> p.finding == f.id && exists e :: e in entries && e.id == p.entry && p == PairOf(f, e)
  }

  lemma {:induction false} CandidatesCome(f: Finding, entries: seq<Entry>)
    ensures FromEntries(f, entries, Candidates(f, entries))
  {
    hide IsCandidate, PairOf;
    if entries != [] {
      var first, rest := entries[0], entries[1..];
      CandidatesCome(f, rest);
      PairNames(f, first);
      forall p | p in Candidates(f, entries)
        ensures p.finding == f.id && exists e :: e in entries && e.id == p.entry && p == PairOf(f, e)
      {
        if p in Candidates(f, rest) {
          var e :| e in rest && e.id == p.entry && p == PairOf(f, e);
          assert e in entries;
        } else {
          assert first in entries;
        }
      }
    }
  }

  lemma PairNames(f: Finding, e: Entry)
    ensures PairOf(f, e).finding == f.id && PairOf(f, e).entry == e.id
  {
  }

  lemma {:induction false} CandidatesAreOptions(f: Finding, entries: seq<Entry>)
    ensures Members(Candidates(f, entries)) == Options(f, Members(entries))
  {
    hide IsCandidate, PairOf;
    if entries == [] {
      assert Members(entries) == {};
    } else {
      CandidatesAreOptions(f, entries[1..]);
      OptionsGrow(f, entries);
      hide Options;
      var head := if IsCandidate(f, entries[0]) then [PairOf(f, entries[0])] else [];
      assert Candidates(f, entries) == head + Candidates(f, entries[1..]);
      MembersOfConcat(head, Candidates(f, entries[1..]));
    }
  }

  lemma OptionsGrow(f: Finding, entries: seq<Entry>)
    requires entries != []
    ensures Options(f, Members(entries))
            == Options(f, Members(entries[1..])) + (if IsCandidate(f, entries[0]) then {PairOf(f, entries[0])} else {})
  {
    hide IsCandidate, PairOf;
    assert entries == [entries[0]] + entries[1..];
  }

  lemma {:induction false} CandidatesAre(f: Finding, entries: seq<Entry>)
    requires DistinctIds([], entries)
    ensures Members(Candidates(f, entries)) == Options(f, Members(entries))
    ensures Distinct(Candidates(f, entries)) && FromEntries(f, entries, Candidates(f, entries))
    ensures forall i, j | 0 <= i < j < |Candidates(f, entries)| ::
              Candidates(f, entries)[i].entry != Candidates(f, entries)[j].entry
  {
    CandidatesCome(f, entries);
    CandidatesAreOptions(f, entries);
    if entries != [] {
      var first, rest := entries[0], entries[1..];
      assert forall i | 0 <= i < |rest| :: rest[i] == entries[i + 1];
      CandidatesAre(f, rest);
      hide IsCandidate, Options;
      forall i | 0 <= i < |Candidates(f, rest)| ensures Candidates(f, rest)[i].entry != first.id {
        var e :| e in rest && e.id == Candidates(f, rest)[i].entry;
        assert first.id != e.id;
      }
    }
  }

  lemma {:induction false} HitsAre(options: seq<Pair>)
    requires Distinct(options)
    ensures Members(Hits(options)) == set p | p in Members(options) && p.hit
    ensures Distinct(Hits(options))
  {
    if options != [] {
      DistinctHead(options);
      HitsAre(options[1..]);
      DistinctConcat(if options[0].hit then [options[0]] else [], Hits(options[1..]));
    }
  }

  lemma NearerIsTransitive(a: Pair, b: Pair, c: Pair)
    ensures Nearer(a, b) && Nearer(b, c) ==> Nearer(a, c)
  {
  }

  lemma NearerIsTotal(a: Pair, b: Pair)
    requires a.entry != b.entry
    ensures Nearer(a, b) || Nearer(b, a)
  {
  }

  /** The options are for different entries. */
  ghost predicate Apart(options: seq<Pair>) {
    forall i, j | 0 <= i < j < |options| :: options[i].entry != options[j].entry
  }

  lemma ApartHead(options: seq<Pair>)
    requires options != [] && Apart(options)
    ensures Apart(options[1..]) && forall p | p in options[1..] :: p.entry != options[0].entry
  {
    var rest := options[1..];
    assert forall i | 0 <= i < |rest| :: rest[i] == options[i + 1];
  }

  lemma {:induction false} NearestIs(options: seq<Pair>)
    requires options != [] && Apart(options)
    ensures Nearest(options) in options
    ensures forall p :: p in options && p != Nearest(options) ==> Nearer(Nearest(options), p)
  {
    hide Nearer, Apart;
    if |options| > 1 {
      var first, rest := options[0], options[1..];
      assert options == [first] + rest;
      ApartHead(options);
      NearestIs(rest);
      NearerIsTotal(Nearest(rest), first);
      forall p | p in rest && p != Nearest(rest) && Nearest(options) == first ensures Nearer(first, p) {
        NearerIsTransitive(first, Nearest(rest), p);
      }
    }
  }

  lemma KeptAre(f: Finding, options: seq<Pair>)
    requires Distinct(options)
    requires forall i, j | 0 <= i < j < |options| :: options[i].entry != options[j].entry
    ensures Members(Disambiguated(f, options)) == Kept(f, Members(options))
    ensures Distinct(Disambiguated(f, options))
    ensures Members(Disambiguated(f, options)) <= Members(options)
  {
    SizeOfDistinct(options);
    HitsAre(options);
    SizeOfDistinct(Hits(options));
    if |options| >= 2 {
      NearestIs(options);
      var nearest := set p | p in Members(options) && forall q :: q in Members(options) && q != p ==> Nearer(p, q);
      assert Nearest(options) in nearest;
      assert nearest == {Nearest(options)};
      assert Members([Nearest(options)]) == {Nearest(options)};
    }
  }

  /** `p` is the pair of a candidate finding and entry. */
  ghost predicate Relates(p: Pair, findings: set<Finding>, entries: set<Entry>) {
    exists f, e :: f in findings && e in entries && IsCandidate(f, e) && p == PairOf(f, e)
  }

  lemma DisambiguatedIs(f: Finding, entries: seq<Entry>)
    requires DistinctIds([], entries)
    ensures
      var kept := Disambiguated(f, Candidates(f, entries));
      && Members(kept) == Kept(f, Options(f, Members(entries))) && Distinct(kept)
      && (forall p :: p in kept ==> p.finding == f.id && Relates(p, {f}, Members(entries)))
      && (forall p, q :: p in kept && q in kept && p.entry == q.entry ==> p == q)
  {
    hide Options, Kept, Disambiguated, IsCandidate, PairOf;
    var options := Candidates(f, entries);
    CandidatesAre(f, entries);
    KeptAre(f, options);
    var kept := Disambiguated(f, options);
    forall p | p in kept ensures p in options && Relates(p, {f}, Members(entries)) {
      assert p in Members(kept);
      CandidateRelates(f, entries, p);
    }
  }

  lemma CandidateRelates(f: Finding, entries: seq<Entry>, p: Pair)
    requires p in Options(f, Members(entries))
    ensures Relates(p, {f}, Members(entries))
  {
  }

  lemma {:induction false} PairsAre(findings: seq<Finding>, entries: seq<Entry>)
    requires DistinctIds(findings, entries)
    ensures Members(Pairs(findings, entries)) == PairSet(Members(findings), Members(entries))
    ensures Distinct(Pairs(findings, entries)) && Proper(Members(Pairs(findings, entries)))
    ensures forall p :: p in Pairs(findings, entries) ==> Relates(p, Members(findings), Members(entries))
  {
    hide Options, Kept, Disambiguated, Candidates, IsCandidate;
    if findings != [] {
      var first, rest := findings[0], findings[1..];
      assert forall i | 0 <= i < |rest| :: rest[i] == findings[i + 1];
      MembersOfConcat([first], rest);
      assert findings == [first] + rest && Members([first]) == {first};
      PairsAre(rest, entries);
      DisambiguatedIs(first, entries);
      var mine, others := Disambiguated(first, Candidates(first, entries)), Pairs(rest, entries);
      PairSetHead(first, Members(rest), Members(entries));
      forall p | p in others ensures p.finding != first.id {
        var f, e :| f in Members(rest) && e in Members(entries) && IsCandidate(f, e) && p == PairOf(f, e);
      }
      assert Members(mine) !! Members(others);
      DistinctConcat(mine, others);
    }
  }

  lemma PairSetHead(first: Finding, rest: set<Finding>, entries: set<Entry>)
    ensures PairSet({first} + rest, entries) == Kept(first, Options(first, entries)) + PairSet(rest, entries)
  {
    hide Options, Kept;
  }

  // ---- the results ----

  /** The matching is the one stable choice among the candidate pairs. */
  lemma MatchedIsStable(findings: seq<Finding>, entries: seq<Entry>)
    requires DistinctIds(findings, entries)
    ensures Stable(PairSet(Members(findings), Members(entries)), Members(Matched(findings, entries)))
    ensures Distinct(Matched(findings, entries))
  {
    PairsAre(findings, entries);
    GreedyIsStable(Pairs(findings, entries));
    SortedIs(Pairs(findings, entries));
    GreedyIs(Sorted(Pairs(findings, entries)), {}, {});
  }

  /** The matching does not depend on the order in which findings and key entries are listed. */
  lemma MatchedIgnoresOrder(findings: seq<Finding>, entries: seq<Entry>, findings': seq<Finding>, entries': seq<Entry>)
    requires DistinctIds(findings, entries) && DistinctIds(findings', entries')
    requires Members(findings) == Members(findings') && Members(entries) == Members(entries')
    ensures Members(Matched(findings, entries)) == Members(Matched(findings', entries'))
  {
    MatchedIsStable(findings, entries);
    MatchedIsStable(findings', entries');
    PairsAre(findings, entries);
    StableIsUnique(PairSet(Members(findings), Members(entries)),
                   Members(Matched(findings, entries)), Members(Matched(findings', entries')));
  }

  function FindingsOf(m: set<Pair>): set<Id> {
    set p | p in m :: p.finding
  }

  function EntriesOf(m: set<Pair>): set<Id> {
    set p | p in m :: p.entry
  }

  lemma {:induction false} AtMostByFinding(n: set<Pair>, ids: set<Id>)
    requires OneToOne(n) && FindingsOf(n) <= ids
    ensures |n| <= |ids|
  {
    if n != {} {
      var p :| p in n;
      assert p.finding in FindingsOf(n);
      forall id | id in FindingsOf(n - {p}) ensures id in ids - {p.finding} {
        var q :| q in n - {p} && q.finding == id;
        assert id in FindingsOf(n);
      }
      AtMostByFinding(n - {p}, ids - {p.finding});
    }
  }

  lemma {:induction false} AtMostByEntry(n: set<Pair>, ids: set<Id>)
    requires OneToOne(n) && EntriesOf(n) <= ids
    ensures |n| <= |ids|
  {
    if n != {} {
      var p :| p in n;
      assert p.entry in EntriesOf(n);
      forall id | id in EntriesOf(n - {p}) ensures id in ids - {p.entry} {
        var q :| q in n - {p} && q.entry == id;
        assert id in EntriesOf(n);
      }
      AtMostByEntry(n - {p}, ids - {p.entry});
    }
  }

  lemma WithoutOne(m: set<Pair>, p: Pair)
    requires OneToOne(m) && p in m
    ensures OneToOne(m - {p})
    ensures FindingsOf(m) == FindingsOf(m - {p}) + {p.finding} && p.finding !in FindingsOf(m - {p})
    ensures EntriesOf(m) == EntriesOf(m - {p}) + {p.entry} && p.entry !in EntriesOf(m - {p})
  {
    var rest := m - {p};
    assert m == rest + {p};
    forall id ensures id in FindingsOf(m) <==> id in FindingsOf(rest) + {p.finding} {
    }
    forall id ensures id in EntriesOf(m) <==> id in EntriesOf(rest) + {p.entry} {
    }
  }

  lemma {:induction false} ImageSizes(m: set<Pair>)
    requires OneToOne(m)
    ensures |FindingsOf(m)| == |EntriesOf(m)| == |m|
  {
    if m != {} {
      var p :| p in m;
      WithoutOne(m, p);
      hide OneToOne, FindingsOf, EntriesOf;
      ImageSizes(m - {p});
    }
  }

  /** Each pair of `n` is met, on one side or the other, by a pair of a maximal matching. */
  lemma MetByMatching(candidates: set<Pair>, m: set<Pair>, n: set<Pair>)
    requires Stable(candidates, m) && n <= candidates
    ensures forall p | p in n :: p.finding in FindingsOf(m) || p.entry in EntriesOf(m)
  {
    forall p | p in n ensures p.finding in FindingsOf(m) || p.entry in EntriesOf(m) {
      if p in m {
        assert p.finding in FindingsOf(m);
      } else {
        var q :| q in m && Clash(p, q) && Precedes(q, p);
        assert q.finding in FindingsOf(m) && q.entry in EntriesOf(m);
      }
    }
  }

  /** Every one-to-one assignment of the candidate pairs is at most twice the size of the matching. */
  lemma MatchedIsHalfOptimal(findings: seq<Finding>, entries: seq<Entry>, n: set<Pair>)
    requires DistinctIds(findings, entries)
    requires n <= PairSet(Members(findings), Members(entries)) && OneToOne(n)
    ensures |n| <= 2 * |Matched(findings, entries)|
  {
    hide PairSet, DistinctIds, Matched, FindingsOf, EntriesOf;
    MatchedIsStable(findings, entries);
    var m := Members(Matched(findings, entries));
    SizeOfDistinct(Matched(findings, entries));
    StableIsOneToOne(PairSet(Members(findings), Members(entries)), m);
    MetByMatching(PairSet(Members(findings), Members(entries)), m, n);
    HalfOptimal(m, n);
  }

  lemma StableIsOneToOne(candidates: set<Pair>, m: set<Pair>)
    requires Stable(candidates, m)
    ensures OneToOne(m)
  {
  }

  lemma HalfOptimal(m: set<Pair>, n: set<Pair>)
    requires OneToOne(m) && OneToOne(n)
    requires forall p | p in n :: p.finding in FindingsOf(m) || p.entry in EntriesOf(m)
    ensures |n| <= 2 * |m|
  {
    var byFinding := set p | p in n && p.finding in FindingsOf(m);
    var byEntry := set p | p in n && p.entry in EntriesOf(m);
    assert n == byFinding + byEntry;
    SomeOf(n, byFinding);
    SomeOf(n, byEntry);
    assert FindingsOf(byFinding) <= FindingsOf(m) && EntriesOf(byEntry) <= EntriesOf(m);
    hide FindingsOf, EntriesOf, OneToOne;
    ImageSizes(m);
    AtMostByFinding(byFinding, FindingsOf(m));
    AtMostByEntry(byEntry, EntriesOf(m));
    UnionSize(n, byFinding, byEntry);
  }

  lemma SomeOf(n: set<Pair>, part: set<Pair>)
    requires OneToOne(n) && part <= n
    ensures OneToOne(part)
  {
  }

  lemma NothingFound()
    ensures FindingsOf(Members([])) == {}
  {
    assert Members<Pair>([]) == {};
  }

  lemma FindingsGrow(matched: seq<Pair>, p: Pair)
    ensures FindingsOf(Members(matched + [p])) == FindingsOf(Members(matched)) + {p.finding}
  {
    assert Members(matched + [p]) == Members(matched) + {p};
    forall id ensures id in FindingsOf(Members(matched) + {p}) <==> id in FindingsOf(Members(matched)) + {p.finding} {
    }
  }

  /** The assignment loop over the sorted pairs. */
  method Assign(pairs: seq<Pair>) returns (matched: seq<Pair>, usedFindings: set<Id>)
    ensures matched == Greedy(pairs, {}, {})
    ensures usedFindings == FindingsOf(Members(matched))
  {
    hide FindingsOf;
    matched := [];
    usedFindings := {};
    assert FindingsOf(Members(matched)) == {} by { NothingFound(); }
    var usedEntries: set<Id> := {};
    for i := 0 to |pairs|
      invariant Greedy(pairs, {}, {}) == matched + Greedy(pairs[i..], usedFindings, usedEntries)
      invariant usedFindings == FindingsOf(Members(matched))
    {
      var p := pairs[i];
      assert pairs[i..][1..] == pairs[i + 1..];
      if p.finding !in usedFindings && p.entry !in usedEntries {
        FindingsGrow(matched, p);
        usedFindings, usedEntries := usedFindings + {p.finding}, usedEntries + {p.entry};
        matched := matched + [p];
      }
    }
  }

  datatype Reason = AmbiguousMatch | UnresolvableLocation | NoKeyMatch

  datatype Unmatched = Unmatched(finding: Id, reason: Reason)

  function ReasonFor(f: Finding, entries: seq<Entry>): Reason {
    if IsAmbiguous(f, Candidates(f, entries)) then AmbiguousMatch
    else if f.file.None? then UnresolvableLocation
    else NoKeyMatch
  }

  function Leftover(findings: seq<Finding>, entries: seq<Entry>, used: set<Id>): seq<Unmatched> {
    if findings == [] then []
    else
      (if findings[0].id in used then [] else [Unmatched(findings[0].id, ReasonFor(findings[0], entries))])
      + Leftover(findings[1..], entries, used)
  }

  method CollectCandidates(f: Finding, entries: seq<Entry>) returns (options: seq<Pair>)
    ensures options == Candidates(f, entries)
  {
    hide IsCandidate, PairOf;
    options := [];
    for j := 0 to |entries|
      invariant Candidates(f, entries) == options + Candidates(f, entries[j..])
    {
      assert entries[j..][1..] == entries[j + 1..];
      if IsCandidate(f, entries[j]) {
        options := options + [PairOf(f, entries[j])];
      }
    }
  }

  method CollectPairs(findings: seq<Finding>, entries: seq<Entry>) returns (pairs: seq<Pair>)
    ensures pairs == Pairs(findings, entries)
  {
    hide Candidates, Disambiguated;
    pairs := [];
    for i := 0 to |findings|
      invariant Pairs(findings, entries) == pairs + Pairs(findings[i..], entries)
    {
      var options := CollectCandidates(findings[i], entries);
      assert findings[i..][1..] == findings[i + 1..];
      pairs := pairs + Disambiguated(findings[i], options);
    }
  }

  lemma OneMoreLeft(before: seq<Unmatched>, u: Unmatched, after: seq<Unmatched>)
    ensures before + ([u] + after) == (before + [u]) + after
  {
  }

  method CollectLeftovers(findings: seq<Finding>, entries: seq<Entry>, used: set<Id>)
    returns (unmatched: seq<Unmatched>)
    ensures unmatched == Leftover(findings, entries, used)
  {
    hide ReasonFor, Leftover;
    unmatched := [];
    assert Leftover(findings[|findings|..], entries, used) == [] by { NothingLeft(entries, used); }
    for i := 0 to |findings|
      invariant Leftover(findings, entries, used) == unmatched + Leftover(findings[i..], entries, used)
    {
      LeftoverHead(findings[i..], entries, used);
      assert findings[i..][1..] == findings[i + 1..];
      if findings[i].id !in used {
        var u := Unmatched(findings[i].id, ReasonFor(findings[i], entries));
        OneMoreLeft(unmatched, u, Leftover(findings[i + 1..], entries, used));
        unmatched := unmatched + [u];
      }
    }
  }

  lemma NothingLeft(entries: seq<Entry>, used: set<Id>)
    ensures Leftover([], entries, used) == []
  {
  }

  lemma LeftoverHead(findings: seq<Finding>, entries: seq<Entry>, used: set<Id>)
    requires findings != []
    ensures Leftover(findings, entries, used)
            == (if findings[0].id in used then [] else [Unmatched(findings[0].id, ReasonFor(findings[0], entries))])
               + Leftover(findings[1..], entries, used)
  {
  }

  /** The whole match: candidates per finding, the guard, the sort, the assignment, the leftovers. */
  method MatchFindings(findings: seq<Finding>, entries: seq<Entry>)
    returns (matched: seq<Pair>, unmatched: seq<Unmatched>)
    ensures matched == Matched(findings, entries)
    ensures unmatched == Leftover(findings, entries, FindingsOf(Members(matched)))
  {
    var pairs := CollectPairs(findings, entries);
    var used: set<Id>;
    matched, used := Assign(Sorted(pairs));
    unmatched := CollectLeftovers(findings, entries, used);
  }
}
