/** The match between findings and key entries, said of their texts and lines: which entries a finding
    may be matched to, which of two pairs is taken first, and why a finding is left over. */
module MatchingFacts {
  import opened Vocabulary
  import opened Sequences
  import opened Matching

  // ---- what a finding may be matched to ----

  ghost predicate Occurs(form: string, text: string) {
    exists before, after :: text == before + form + after
  }

  ghost predicate MeetsClaims(claim: string, groups: seq<seq<string>>) {
    forall i | 0 <= i < |groups| :: exists form :: form in groups[i] && Occurs(form, claim)
  }

  /** One accepted form of every required claim, the file, and a line within the tolerance if any. */
  ghost predicate Describes(f: Finding, e: Entry) {
    && MeetsClaims(f.claim, e.groups)
    && f.file == Some(e.file)
    && (f.line.Some? ==> e.start <= f.line.value + e.tolerance && f.line.value <= e.end + e.tolerance)
  }

  ghost predicate NamesSymbol(f: Finding, e: Entry) {
    Occurs(e.symbol, f.claim) || Occurs(e.symbol, f.location)
  }

  /** Twice the distance of the finding's line from the middle of the entry's range. */
  function Offset(f: Finding, e: Entry): nat {
    match f.line
    case None => 0
    case Some(line) =>
      var off := 2 * line - (e.start + e.end);
      if off < 0 then -off else off
  }

  /** Of all the entries it describes the finding names the symbol of this one alone. */
  ghost predicate SoleHit(f: Finding, e: Entry, entries: set<Entry>) {
    && e in entries && Describes(f, e) && NamesSymbol(f, e)
    && forall other :: other in entries && Describes(f, other) && NamesSymbol(f, other) ==> other == e
  }

  ghost predicate Closest(f: Finding, e: Entry, entries: set<Entry>) {
    forall other :: other in entries && Describes(f, other) && other != e ==>
                      Offset(f, e) < Offset(f, other) || (Offset(f, e) == Offset(f, other) && e.id < other.id)
  }

  /** The entries a finding may be matched to: the only one it describes; else the only one of these
      whose symbol it names; else, if it has a line, the closest. */
  ghost predicate Eligible(f: Finding, e: Entry, entries: set<Entry>) {
    && e in entries && Describes(f, e)
    && (|| (forall other :: other in entries && Describes(f, other) ==> other == e)
        || SoleHit(f, e, entries)
        || (f.line.Some? && (forall other :: !SoleHit(f, other, entries)) && Closest(f, e, entries)))
  }

  /** Several entries described, none of them told apart. */
  ghost predicate Undecided(f: Finding, entries: set<Entry>) {
    && f.line.None? && (forall e :: !SoleHit(f, e, entries))
    && exists a, b :: a in entries && b in entries && a != b && Describes(f, a) && Describes(f, b)
  }

  /** More required claims first, then a named symbol, then the nearer line, then the lesser entry and
      the lesser finding. */
  predicate Preferred(q: Pair, p: Pair) {
    || q.groups > p.groups
    || (q.groups == p.groups && q.hit && !p.hit)
    || (q.groups == p.groups && q.hit == p.hit && q.distance < p.distance)
    || (q.groups == p.groups && q.hit == p.hit && q.distance == p.distance && q.entry < p.entry)
    || (q.groups == p.groups && q.hit == p.hit && q.distance == p.distance && q.entry == p.entry
        && q.finding < p.finding)
  }

  lemma PrecedesIff(q: Pair, p: Pair)
    ensures Precedes(q, p) <==> Preferred(q, p)
  {
  }

  lemma ContainsIff(text: string, form: string)
    ensures Contains(text, form) <==> Occurs(form, text)
  {
    if Contains(text, form) {
      var i :| 0 <= i <= |text| && form <= text[i..];
      assert text == text[..i] + form + text[i + |form|..];
    }
    if before, after :| text == before + form + after {
      assert text[|before|..] == form + after;
    }
  }

  lemma {:induction false} GroupsIff(claim: string, groups: seq<seq<string>>)
    ensures GroupsSatisfied(claim, groups) <= |groups|
    ensures GroupsSatisfied(claim, groups) == |groups| <==> MeetsClaims(claim, groups)
  {
    hide Contains, Occurs;
    if groups != [] {
      var rest := groups[1..];
      GroupsIff(claim, rest);
      forall form ensures Contains(claim, form) <==> Occurs(form, claim) {
        ContainsIff(claim, form);
      }
      assert MeetsClaims(claim, groups)
        <==> (exists form :: form in groups[0] && Occurs(form, claim)) && MeetsClaims(claim, rest) by {
        assert forall i | 1 <= i < |groups| :: groups[i] == rest[i - 1];
        assert forall i | 0 <= i < |rest| :: rest[i] == groups[i + 1];
      }
    }
  }

  lemma CandidateIff(f: Finding, e: Entry)
    ensures IsCandidate(f, e) <==> Describes(f, e)
    ensures PairOf(f, e) == Pair(f.id, e.id, |e.groups|, NamesSymbol(f, e), Offset(f, e))
  {
    GroupsIff(f.claim, e.groups);
    ContainsIff(f.claim, e.symbol);
    ContainsIff(f.location, e.symbol);
    hide Contains, Occurs, GroupsSatisfied, MeetsClaims;
  }

  // ---- the guard ----

  lemma {:induction false} FewerThanTwo<T>(s: set<T>)
    ensures |s| < 2 <==> forall x, y :: x in s && y in s ==> x == y
  {
    if s != {} {
      var x :| x in s;
      assert s == {x} + (s - {x});
      if s - {x} == {} {
        assert s == {x};
      } else {
        var y :| y in s - {x};
        assert {x, y} <= s;
        SubsetSize({x, y}, s);
      }
    }
  }

  ghost function Described(f: Finding, entries: set<Entry>): set<Entry> {
    set e | e in entries && Describes(f, e)
  }

  /** Entries with identifiers of their own. */
  ghost predicate Apart(entries: set<Entry>) {
    forall a, b :: a in entries && b in entries && a.id == b.id ==> a == b
  }

  lemma OptionsAre(f: Finding, entries: set<Entry>)
    requires Apart(entries)
    ensures forall p :: p in Options(f, entries) <==> exists e :: e in Described(f, entries) && p == PairOf(f, e)
    ensures forall a, b :: a in Described(f, entries) && b in Described(f, entries) && PairOf(f, a) == PairOf(f, b) ==>
              a == b
  {
    forall e ensures IsCandidate(f, e) <==> Describes(f, e) && PairOf(f, e).entry == e.id {
      CandidateIff(f, e);
    }
    hide IsCandidate, Describes;
    forall a, b | a in Described(f, entries) && b in Described(f, entries) && PairOf(f, a) == PairOf(f, b)
      ensures a == b
    {
      assert PairOf(f, a).entry == a.id && PairOf(f, b).entry == b.id;
    }
  }

  lemma AloneIff(f: Finding, entries: set<Entry>)
    requires Apart(entries)
    ensures |Options(f, entries)| < 2 <==>
              forall a, b :: a in Described(f, entries) && b in Described(f, entries) ==> a == b
  {
    var options := Options(f, entries);
    OptionsAre(f, entries);
    FewerThanTwo(options);
    hide Described, Options, PairOf, Apart;
    if |options| < 2 {
      forall a, b | a in Described(f, entries) && b in Described(f, entries) ensures a == b {
        assert PairOf(f, a) in options && PairOf(f, b) in options;
      }
    }
  }

  /** The closest pair is the closest entry's. */
  lemma ClosestIff(f: Finding, e: Entry, entries: set<Entry>)
    requires Apart(entries) && e in Described(f, entries)
    ensures
      var p := PairOf(f, e);
      (forall q :: q in Options(f, entries) && q != p ==> Nearer(p, q)) <==> Closest(f, e, entries)
  {
    OptionsAre(f, entries);
    PairsSay(f);
    hide Describes, Options, PairOf, Nearer, Offset, Apart;
    var p := PairOf(f, e);
    if forall q :: q in Options(f, entries) && q != p ==> Nearer(p, q) {
      forall other | other in entries && Describes(f, other) && other != e
        ensures Offset(f, e) < Offset(f, other) || (Offset(f, e) == Offset(f, other) && e.id < other.id)
      {
        assert other in Described(f, entries);
        assert PairOf(f, other) in Options(f, entries) && PairOf(f, other) != p;
      }
    }
    if Closest(f, e, entries) {
      forall q | q in Options(f, entries) && q != p ensures Nearer(p, q) {
        var other :| other in Described(f, entries) && q == PairOf(f, other);
      }
    }
  }

  lemma KeptOne(f: Finding, e: Entry, entries: set<Entry>)
    requires Apart(entries) && e in Described(f, entries)
    ensures PairOf(f, e) in Kept(f, Options(f, entries)) <==> Eligible(f, e, entries)
  {
    OptionsAre(f, entries);
    AloneIff(f, entries);
    HitsSay(f, entries);
    ClosestIff(f, e, entries);
    PairsSay(f);
    hide Describes, Options, PairOf, Nearer, Offset, Apart, NamesSymbol, Closest;
    assert PairOf(f, e) in Options(f, entries);
    assert (forall a, b :: a in Described(f, entries) && b in Described(f, entries) ==> a == b)
      <==> forall other :: other in entries && Describes(f, other) ==> other == e by {
      assert forall other :: other in Described(f, entries) <==> other in entries && Describes(f, other);
    }
  }

  /** The pairs the guard leaves a finding are those of its eligible entries. */
  lemma KeptIff(f: Finding, entries: set<Entry>)
    requires Apart(entries)
    ensures forall p :: p in Kept(f, Options(f, entries)) <==> exists e :: Eligible(f, e, entries) && p == PairOf(f, e)
  {
    OptionsAre(f, entries);
    forall e | e in Described(f, entries)
      ensures PairOf(f, e) in Kept(f, Options(f, entries)) <==> Eligible(f, e, entries)
    {
      KeptOne(f, e, entries);
    }
    KeptIsSome(f, Options(f, entries));
    assert forall e :: Eligible(f, e, entries) ==> e in Described(f, entries);
    hide Describes, Options, PairOf, Apart, Kept, Eligible;
  }

  lemma KeptIsSome(f: Finding, options: set<Pair>)
    ensures Kept(f, options) <= options
  {
    hide Nearer;
  }

  lemma PairsSay(f: Finding)
    ensures forall e :: PairOf(f, e).hit == NamesSymbol(f, e)
    ensures forall a, b :: Nearer(PairOf(f, a), PairOf(f, b)) <==>
                           Offset(f, a) < Offset(f, b) || (Offset(f, a) == Offset(f, b) && a.id < b.id)
  {
    forall e ensures PairOf(f, e) == Pair(f.id, e.id, |e.groups|, NamesSymbol(f, e), Offset(f, e)) {
      CandidateIff(f, e);
    }
    hide PairOf, NamesSymbol, Offset;
  }

  lemma HitsSay(f: Finding, entries: set<Entry>)
    requires Apart(entries)
    ensures
      var hits := set p | p in Options(f, entries) && p.hit;
      |hits| == 1 <==> exists e :: SoleHit(f, e, entries)
  {
    var hits := set p | p in Options(f, entries) && p.hit;
    OptionsAre(f, entries);
    PairsSay(f);
    FewerThanTwo(hits);
    hide Describes, Options, NamesSymbol, PairOf, Apart;
    if e :| SoleHit(f, e, entries) {
      assert e in Described(f, entries);
      assert PairOf(f, e) in hits;
    }
    if |hits| == 1 {
      var p :| p in hits;
      var e :| e in Described(f, entries) && p == PairOf(f, e);
      forall other | other in entries && Describes(f, other) && NamesSymbol(f, other) ensures other == e {
        assert other in Described(f, entries);
        assert PairOf(f, other) in hits;
      }
      assert SoleHit(f, e, entries);
    }
  }

  // ---- the match ----

  /** The pair of a finding and an entry, field by field. */
  ghost function PairFor(f: Finding, e: Entry): Pair {
    Pair(f.id, e.id, |e.groups|, NamesSymbol(f, e), Offset(f, e))
  }

  lemma EntriesApart(findings: seq<Finding>, entries: seq<Entry>)
    requires DistinctIds(findings, entries)
    ensures Apart(Members(entries))
  {
  }

  /** The match takes pairs of eligible findings and entries only, no finding and no entry twice, and
      leaves out no eligible pair but for one it prefers of the same finding or entry. */
  lemma MatchedIsExact(findings: seq<Finding>, entries: seq<Entry>)
    requires DistinctIds(findings, entries)
    ensures
      var matched := Matched(findings, entries);
      && (forall p :: p in matched ==>
            exists f, e :: f in findings && Eligible(f, e, Members(entries)) && p == PairFor(f, e))
      && (forall i, j | 0 <= i < j < |matched| ::
            matched[i].finding != matched[j].finding && matched[i].entry != matched[j].entry)
      && (forall f, e :: f in findings && Eligible(f, e, Members(entries)) && PairFor(f, e) !in matched ==>
            exists q :: q in matched && (q.finding == f.id || q.entry == e.id) && Preferred(q, PairFor(f, e)))
  {
    var matched, es := Matched(findings, entries), Members(entries);
    var pairs := PairSet(Members(findings), es);
    MatchedIsStable(findings, entries);
    EntriesApart(findings, entries);
    EligiblePairs(Members(findings), es);
    StableSays(pairs, matched);
    hide Eligible, PairFor, Preferred, PairSet, Apart, DistinctIds, Matched, Stable;
    forall p | p in matched
      ensures exists f, e :: f in findings && Eligible(f, e, es) && p == PairFor(f, e)
    {
      assert p in pairs;
      var f, e :| f in Members(findings) && Eligible(f, e, es) && p == PairFor(f, e);
    }
    forall f, e | f in findings && Eligible(f, e, es) && PairFor(f, e) !in matched
      ensures exists q :: q in matched && (q.finding == f.id || q.entry == e.id) && Preferred(q, PairFor(f, e))
    {
      assert f in Members(findings);
      assert PairFor(f, e) in pairs;
      PairForNames(f, e);
    }
  }

  lemma StableSays(pairs: set<Pair>, matched: seq<Pair>)
    requires Stable(pairs, Members(matched)) && Distinct(matched)
    ensures forall p :: p in matched ==> p in pairs
    ensures forall i, j | 0 <= i < j < |matched| ::
              matched[i].finding != matched[j].finding && matched[i].entry != matched[j].entry
    ensures forall p :: p in pairs && p !in matched ==>
              exists q :: q in matched && (q.finding == p.finding || q.entry == p.entry) && Preferred(q, p)
  {
    hide Preferred, Precedes;
    forall p | p in matched ensures p in pairs {
      assert p in Members(matched);
    }
    forall i, j | 0 <= i < j < |matched|
      ensures matched[i].finding != matched[j].finding && matched[i].entry != matched[j].entry
    {
      assert matched[i] in Members(matched) && matched[j] in Members(matched);
    }
    forall p | p in pairs && p !in matched
      ensures exists q :: q in matched && (q.finding == p.finding || q.entry == p.entry) && Preferred(q, p)
    {
      var q :| q in Members(matched) && Clash(p, q) && Precedes(q, p);
      PrecedesIff(q, p);
    }
  }

  lemma PairForNames(f: Finding, e: Entry)
    ensures PairFor(f, e).finding == f.id && PairFor(f, e).entry == e.id && PairFor(f, e) == PairOf(f, e)
  {
    CandidateIff(f, e);
  }

  lemma EligiblePairs(findings: set<Finding>, entries: set<Entry>)
    requires Apart(entries)
    ensures forall p :: p in PairSet(findings, entries) <==>
                        exists f, e :: f in findings && Eligible(f, e, entries) && p == PairFor(f, e)
  {
    forall f, p
      ensures p in Kept(f, Options(f, entries)) <==> exists e :: Eligible(f, e, entries) && p == PairFor(f, e)
    {
      KeptIff(f, entries);
      forall e ensures PairFor(f, e) == PairOf(f, e) {
        PairForNames(f, e);
      }
      hide Kept, Options, Eligible, PairFor, PairOf;
    }
    hide Kept, Options, Eligible, PairFor;
    forall p | p in PairSet(findings, entries)
      ensures exists f, e :: f in findings && Eligible(f, e, entries) && p == PairFor(f, e)
    {
      var f :| f in findings && p in Kept(f, Options(f, entries));
    }
    forall f, e | f in findings && Eligible(f, e, entries) ensures PairFor(f, e) in PairSet(findings, entries) {
      assert PairFor(f, e) in Kept(f, Options(f, entries));
    }
  }

  lemma AmbiguousIff(f: Finding, entries: seq<Entry>)
    requires DistinctIds([], entries)
    ensures IsAmbiguous(f, Candidates(f, entries)) <==> Undecided(f, Members(entries))
  {
    var options, es := Candidates(f, entries), Members(entries);
    CandidatesAre(f, entries);
    SizeOfDistinct(options);
    HitsAre(options);
    SizeOfDistinct(Hits(options));
    EntriesApart([], entries);
    AloneIff(f, es);
    HitsSay(f, es);
    assert (exists a, b :: a in es && b in es && a != b && Describes(f, a) && Describes(f, b))
      <==> !forall a, b :: a in Described(f, es) && b in Described(f, es) ==> a == b by {
      hide Describes;
      if a, b :| a in Described(f, es) && b in Described(f, es) && a != b {
        assert Describes(f, a) && Describes(f, b);
      }
      if a, b :| a in es && b in es && a != b && Describes(f, a) && Describes(f, b) {
        assert a in Described(f, es) && b in Described(f, es);
      }
    }
    hide Candidates, Hits, Options, Describes, SoleHit, Described, DistinctIds, Apart;
  }

  /** Why a finding is left over, for each that is: none of several entries could be told apart, no file
      could be resolved, or it describes nothing in the key that was not taken. */
  lemma {:induction false} LeftoversAre(findings: seq<Finding>, entries: seq<Entry>, used: set<Id>)
    requires DistinctIds(findings, entries)
    ensures forall u :: u in Leftover(findings, entries, used) <==>
                        exists f :: f in findings && f.id !in used
                                    && u == Unmatched(f.id, WhyLeft(f, Members(entries)))
  {
    hide ReasonFor, WhyLeft;
    if findings != [] {
      var first, rest := findings[0], findings[1..];
      assert forall i | 0 <= i < |rest| :: rest[i] == findings[i + 1];
      LeftoversAre(rest, entries, used);
      ReasonIs(first, entries);
      assert findings == [first] + rest;
      assert Leftover(findings, entries, used)
             == (if first.id in used then [] else [Unmatched(first.id, ReasonFor(first, entries))])
                + Leftover(rest, entries, used);
    }
  }

  ghost function WhyLeft(f: Finding, entries: set<Entry>): Reason {
    if f.file.None? then UnresolvableLocation else if Undecided(f, entries) then AmbiguousMatch else NoKeyMatch
  }

  lemma ReasonIs(f: Finding, entries: seq<Entry>)
    requires DistinctIds([], entries)
    ensures ReasonFor(f, entries) == WhyLeft(f, Members(entries))
  {
    AmbiguousIff(f, entries);
    hide IsAmbiguous, Candidates;
  }
}
