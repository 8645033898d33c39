/** The canonical order of phases, and the two ways a Final Review finding travels along it
    (scripts/e2e_harness.py): down to the phase that owns it, up to the phases it invalidates. */
module Phases {
  import opened Vocabulary

  const CANONICAL: seq<Phase> := [Analysis, Plan, Design, Implementation, Test]

  predicate IsCanonical(p: Phase) {
    p in CANONICAL
  }

  function Rank(p: Phase): (rank: int)
    ensures IsCanonical(p) <==> rank >= 0
    ensures rank < 5
    ensures rank >= 0 ==> CANONICAL[rank] == p
  {
    match p
    case Analysis => 0
    case Plan => 1
    case Design => 2
    case Implementation => 3
    case Test => 4
    case _ =>
      -1
  }

  /** The highest requested canonical phase at or below rank `r`. */
  function HighestRequested(r: int, requested: seq<Phase>): Option<Phase>
    requires r < 5
    decreases r + 1
  {
    if r < 0 then None
    else if CANONICAL[r] in requested then Some(CANONICAL[r])
    else HighestRequested(r - 1, requested)
  }

  function LowerToRequestedPhase(p: Phase, requested: seq<Phase>): Option<Phase> {
    if p in requested then Some(p)
    else if !IsCanonical(p) then None
    else HighestRequested(Rank(p), requested)
  }

  function RequestedFrom(r: int, requested: seq<Phase>): seq<Phase>
    requires 0 <= r <= 5
    decreases 5 - r
  {
    if r == 5 then []
    else (if CANONICAL[r] in requested then [CANONICAL[r]] else []) + RequestedFrom(r + 1, requested)
  }

  /** The lowest rank among the corrected canonical phases; 5 when there is none. */
  function EarliestRank(corrected: seq<Phase>): (r: int)
    ensures 0 <= r <= 5
  {
    if corrected == [] then 5
    else
      var rest := EarliestRank(corrected[1..]);
      if IsCanonical(corrected[0]) && Rank(corrected[0]) < rest then Rank(corrected[0]) else rest
  }

  function DownstreamRevalidationSet(corrected: seq<Phase>, requested: seq<Phase>): seq<Phase> {
    var earliest := EarliestRank(corrected);
    if earliest == 5 then [] else RequestedFrom(earliest + 1, requested)
  }

  // ---- what the two promise ----

  /** The canonical order, phase by phase. */
  predicate ComesBefore(p: Phase, q: Phase) {
    match p
    case Analysis => q in {Plan, Design, Implementation, Test}
    case Plan => q in {Design, Implementation, Test}
    case Design => q in {Implementation, Test}
    case Implementation => q == Test
    case _ => false
  }

  lemma RanksAre(p: Phase, q: Phase)
    ensures IsCanonical(p) && IsCanonical(q) && Rank(p) < Rank(q) <==> ComesBefore(p, q)
    ensures IsCanonical(p) && IsCanonical(q) && Rank(p) == Rank(q) ==> p == q
  {
  }

  lemma {:induction false} HighestIs(r: int, requested: seq<Phase>)
    requires r < 5
    ensures
      match HighestRequested(r, requested)
      case Some(q) =>
        && q in requested && IsCanonical(q) && Rank(q) <= r
        && (forall q' :: q' in requested && IsCanonical(q') && Rank(q') <= r ==> Rank(q') <= Rank(q))
      case None => forall q' :: q' in requested && IsCanonical(q') ==> Rank(q') > r
    decreases r + 1
  {
    if r >= 0 && CANONICAL[r] !in requested {
      HighestIs(r - 1, requested);
    }
    if r >= 0 && CANONICAL[r] in requested {
      assert forall q' :: IsCanonical(q') && Rank(q') == r ==> q' == CANONICAL[r];
    }
  }

  /** A finding is lowered to the nearest requested phase before its own, never lifted above it; it is
      out of scope exactly when neither its own phase nor one before it is requested. */
  lemma LoweringIsNearest(p: Phase, requested: seq<Phase>)
    ensures
      match LowerToRequestedPhase(p, requested)
      case Some(owner) =>
        && owner in requested
        && (owner != p ==>
              && p !in requested && ComesBefore(owner, p)
              && forall q :: q in requested && ComesBefore(q, p) ==> q == owner || ComesBefore(q, owner))
      case None => p !in requested && forall q :: q in requested ==> !ComesBefore(q, p)
  {
    if p !in requested && IsCanonical(p) {
      HighestIs(Rank(p), requested);
      forall q ensures IsCanonical(q) && Rank(q) < Rank(p) <==> ComesBefore(q, p) {
        RanksAre(q, p);
      }
      match HighestRequested(Rank(p), requested) {
        case None =>
        case Some(owner) =>
          RanksAre(owner, p);
          forall q | q in requested && ComesBefore(q, p) ensures q == owner || ComesBefore(q, owner) {
            RanksAre(q, owner);
          }
      }
    } else if p !in requested {
      forall q ensures !ComesBefore(q, p) {
        RanksAre(q, p);
      }
    }
  }

  lemma {:induction false} RequestedFromHolds(r: int, requested: seq<Phase>)
    requires 0 <= r <= 5
    ensures forall q :: q in RequestedFrom(r, requested) <==> q in requested && IsCanonical(q) && Rank(q) >= r
    decreases 5 - r
  {
    if r < 5 {
      RequestedFromHolds(r + 1, requested);
      assert Rank(CANONICAL[r]) == r;
    }
  }

  /** The phases come in rising rank. */
  ghost predicate Rising(s: seq<Phase>) {
    forall i, j :: 0 <= i < j < |s| ==> Rank(s[i]) < Rank(s[j])
  }

  lemma RisesFromFirst(first: Phase, later: seq<Phase>)
    requires Rising(later) && forall j | 0 <= j < |later| :: Rank(later[j]) > Rank(first)
    ensures Rising([first] + later)
  {
    hide Rank;
  }

  lemma {:induction false} RequestedFromRises(r: int, requested: seq<Phase>)
    requires 0 <= r <= 5
    ensures Rising(RequestedFrom(r, requested))
    decreases 5 - r
  {
    if r < 5 {
      RequestedFromRises(r + 1, requested);
      RequestedFromHolds(r + 1, requested);
      assert Rank(CANONICAL[r]) == r;
      hide Rank, Rising;
      var later := RequestedFrom(r + 1, requested);
      forall j | 0 <= j < |later| ensures Rank(later[j]) > r {
        assert later[j] in later;
      }
      RisesFromFirst(CANONICAL[r], later);
      assert [] + later == later;
    } else {
      assert Rising([]) by { NothingRises(); }
    }
  }

  lemma NothingRises()
    ensures Rising([])
  {
  }

  lemma RequestedFromIs(r: int, requested: seq<Phase>)
    requires 0 <= r <= 5
    ensures
      var s := RequestedFrom(r, requested);
      && (forall q :: q in s <==> q in requested && IsCanonical(q) && Rank(q) >= r)
      && (forall i, j :: 0 <= i < j < |s| ==> Rank(s[i]) < Rank(s[j]))
  {
    hide Rank, RequestedFrom;
    RequestedFromHolds(r, requested);
    RequestedFromRises(r, requested);
  }

  lemma {:induction false} EarliestIs(corrected: seq<Phase>)
    ensures
      var r := EarliestRank(corrected);
      && (forall p :: p in corrected && IsCanonical(p) ==> r <= Rank(p))
      && (r < 5 ==> CANONICAL[r] in corrected)
      && (r == 5 ==> forall p :: p in corrected ==> !IsCanonical(p))
  {
    if corrected != [] {
      EarliestIs(corrected[1..]);
      forall p | p in corrected && IsCanonical(p) ensures EarliestRank(corrected) <= Rank(p) {
        if p != corrected[0] {
          assert p in corrected[1..];
        }
      }
    }
  }

  /** What must be revalidated: the requested phases that come after some corrected one, once each, in
      canonical order. */
  lemma DownstreamIs(corrected: seq<Phase>, requested: seq<Phase>)
    ensures
      var s := DownstreamRevalidationSet(corrected, requested);
      && (forall q :: q in s <==> q in requested && exists p :: p in corrected && ComesBefore(p, q))
      && (forall i, j :: 0 <= i < j < |s| ==> ComesBefore(s[i], s[j]))
  {
    DownstreamRanks(corrected, requested);
    forall p, q ensures IsCanonical(p) && IsCanonical(q) && Rank(p) < Rank(q) <==> ComesBefore(p, q) {
      RanksAre(p, q);
    }
    hide Rank, IsCanonical, ComesBefore, DownstreamRevalidationSet;
  }

  lemma DownstreamRanks(corrected: seq<Phase>, requested: seq<Phase>)
    ensures
      var s := DownstreamRevalidationSet(corrected, requested);
      && (forall q :: q in s <==>
            && q in requested && IsCanonical(q)
            && exists p :: p in corrected && IsCanonical(p) && Rank(p) < Rank(q))
      && (forall i, j :: 0 <= i < j < |s| ==> IsCanonical(s[i]) && IsCanonical(s[j]) && Rank(s[i]) < Rank(s[j]))
  {
    var r := EarliestRank(corrected);
    EarliestIs(corrected);
    if r < 5 {
      RequestedFromIs(r + 1, requested);
      assert Rank(CANONICAL[r]) == r && IsCanonical(CANONICAL[r]);
    }
  }
}
