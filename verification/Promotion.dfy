/** Publishing dependent questions in order: the dependency-ready items are cut into antichain
    bundles, each bundle is published, and promotion repeats as answers arrive
    (`publication_batches`, `promote` in scripts/clarification_protocol.py). */
module Promotion {
  import opened Vocabulary
  import opened Sequences
  import opened DependencyGraph
  import opened Publication

  // ---- batches ----

  ghost predicate Independent(g: Graph, a: Id, b: Id) {
    !DependsOn(g, a, b) && !DependsOn(g, b, a)
  }

  ghost predicate Antichain(g: Graph, q: seq<Id>) {
    forall i, j | 0 <= i < |q| && 0 <= j < |q| && i != j :: !DependsOn(g, q[i], q[j])
  }

  ghost predicate Fits(g: Graph, id: Id, chosen: seq<Id>) {
    forall other | other in chosen :: Independent(g, id, other)
  }

  function Ready(g: Graph, resolved: set<Id>, published: set<Id>): set<Id> {
    set id | id in g && id !in published && g[id] * (g.Keys - resolved) == {}
  }

  function InOrder(s: set<Id>): (q: seq<Id>)
  {
    if s == {} then [] else [MinOf(s)] + InOrder(s - {MinOf(s)})
  }

  lemma {:induction false} InOrderLists(s: set<Id>)
    ensures Members(InOrder(s)) == s && Distinct(InOrder(s))
    ensures forall i, j | 0 <= i < j < |InOrder(s)| :: InOrder(s)[i] < InOrder(s)[j]
  {
    hide Distinct;
    if s != {} {
      var first := MinOf(s);
      var rest := InOrder(s - {first});
      InOrderLists(s - {first});
      FirstIsLess(first, s, rest);
      assert Members([first]) == {first};
      hide Members;
      assert InOrder(s) == [first] + rest;
      DistinctConcat([first], rest);
      assert Distinct([first]) by { OneIsDistinct(first); }
      assert Members(rest) == s - {first};
    } else {
      assert Members(InOrder(s)) == {};
      NothingIsDistinct();
    }
  }

  lemma FirstIsLess(first: Id, s: set<Id>, rest: seq<Id>)
    requires IsMinimum(first, s) && Members(rest) == s - {first}
    ensures forall i | 0 <= i < |rest| :: first < rest[i]
  {
    forall i | 0 <= i < |rest| ensures first < rest[i] {
      assert rest[i] in Members(rest);
    }
  }

  lemma OneIsDistinct(id: Id)
    ensures Distinct([id])
  {
  }

  lemma NothingIsDistinct()
    ensures Distinct<Id>([])
  {
  }

  /** First fit: take each remaining item independent of those already chosen, up to three. */
  ghost function Choose(g: Graph, remaining: seq<Id>, chosen: seq<Id>): seq<Id> {
    if remaining == [] || |chosen| >= MAX_BUNDLE_ITEMS then chosen
    else if Fits(g, remaining[0], chosen) then Choose(g, remaining[1..], chosen + [remaining[0]])
    else Choose(g, remaining[1..], chosen)
  }

  function Without(q: seq<Id>, taken: seq<Id>): seq<Id> {
    if q == [] then []
    else if q[0] in taken then Without(q[1..], taken)
    else [q[0]] + Without(q[1..], taken)
  }

  lemma {:induction false} WithoutIs(q: seq<Id>, taken: seq<Id>)
    requires Distinct(q)
    ensures Distinct(Without(q, taken)) && |Without(q, taken)| <= |q|
    ensures Members(Without(q, taken)) == Members(q) - Members(taken)
    ensures q != [] && q[0] in taken ==> |Without(q, taken)| < |q|
  {
    if q != [] {
      assert q == [q[0]] + q[1..];
      DistinctConcat([q[0]], q[1..]);
      WithoutIs(q[1..], taken);
      DistinctConcat([q[0]], Without(q[1..], taken));
    }
  }

  lemma {:induction false} ChooseIs(g: Graph, remaining: seq<Id>, chosen: seq<Id>)
    requires Distinct(remaining) && Distinct(chosen) && Members(remaining) !! Members(chosen)
    requires Antichain(g, chosen) && |chosen| <= MAX_BUNDLE_ITEMS
    ensures
      var c := Choose(g, remaining, chosen);
      && chosen <= c && |c| <= MAX_BUNDLE_ITEMS
      && Distinct(c) && Antichain(g, c)
      && Members(c) <= Members(chosen) + Members(remaining)
      && (|c| < MAX_BUNDLE_ITEMS ==> forall x :: x in remaining && x !in c ==> !Fits(g, x, c))
  {
    if remaining != [] && |chosen| < MAX_BUNDLE_ITEMS {
      var first, rest := remaining[0], remaining[1..];
      assert remaining == [first] + rest;
      assert first in Members(remaining) && first !in Members(chosen) && first !in Members(rest);
      if Fits(g, first, chosen) {
        var more := chosen + [first];
        assert Members(more) == Members(chosen) + {first};
        forall i, j | 0 <= i < |more| && 0 <= j < |more| && i != j ensures !DependsOn(g, more[i], more[j]) {
          if i == |chosen| {
            assert more[j] in chosen && Independent(g, first, more[j]);
          } else if j == |chosen| {
            assert more[i] in chosen && Independent(g, first, more[i]);
          }
        }
        ChooseIs(g, rest, more);
        assert first in Choose(g, rest, more);
      } else {
        ChooseIs(g, rest, chosen);
        var c := Choose(g, rest, chosen);
        assert forall x | x in chosen :: x in c;
      }
    }
  }

  ghost function Cut(g: Graph, remaining: seq<Id>): seq<seq<Id>>
    requires Distinct(remaining)
    decreases |remaining|
  {
    if remaining == [] then []
    else
      var c := Choose(g, remaining, []);
      ChooseIs(g, remaining, []);
      ChooseTakesFirst(g, remaining);
      WithoutIs(remaining, c);
      [c] + Cut(g, Without(remaining, c))
  }

  lemma ChooseTakesFirst(g: Graph, remaining: seq<Id>)
    requires Distinct(remaining) && remaining != []
    ensures remaining[0] in Choose(g, remaining, [])
  {
    assert [] + [remaining[0]] == [remaining[0]];
    assert remaining[0] !in Members(remaining[1..]);
    ChooseIs(g, remaining[1..], [remaining[0]]);
  }

  function Flatten(batches: seq<seq<Id>>): seq<Id> {
    if batches == [] then [] else batches[0] + Flatten(batches[1..])
  }

  ghost predicate ValidBatch(g: Graph, batch: seq<Id>) {
    1 <= |batch| <= MAX_BUNDLE_ITEMS && Distinct(batch) && Antichain(g, batch)
  }

  /** The batches partition the items: every one of them is an antichain of one to three items, and
      every item is in exactly one of them. A batch is short only when nothing left fits it. */
  lemma {:induction false} CutPartitions(g: Graph, remaining: seq<Id>)
    requires Distinct(remaining)
    ensures
      var batches := Cut(g, remaining);
      && (forall b | b in batches :: ValidBatch(g, b))
      && Distinct(Flatten(batches)) && Members(Flatten(batches)) == Members(remaining)
      && (batches != [] && |batches[0]| < MAX_BUNDLE_ITEMS ==>
            forall x | x in remaining && x !in batches[0] :: !Fits(g, x, batches[0]))
    decreases |remaining|
  {
    if remaining != [] {
      var c := Choose(g, remaining, []);
      ChooseIs(g, remaining, []);
      ChooseTakesFirst(g, remaining);
      WithoutIs(remaining, c);
      CutPartitions(g, Without(remaining, c));
      var rest := Cut(g, Without(remaining, c));
      assert Cut(g, remaining)[1..] == rest;
      assert Flatten(Cut(g, remaining)) == c + Flatten(rest);
      DistinctConcat(c, Flatten(rest));
      assert Members(c) <= Members(remaining);
    }
  }

  ghost function Batches(g: Graph, resolved: set<Id>, published: set<Id>): seq<seq<Id>> {
    InOrderLists(Ready(g, resolved, published));
    Cut(g, InOrder(Ready(g, resolved, published)))
  }

  /** Exactly the ready unpublished items, each once, in valid batches. */
  lemma BatchesPartitionReady(g: Graph, resolved: set<Id>, published: set<Id>)
    ensures
      var batches := Batches(g, resolved, published);
      && (forall b | b in batches :: ValidBatch(g, b))
      && Distinct(Flatten(batches)) && Members(Flatten(batches)) == Ready(g, resolved, published)
  {
    InOrderLists(Ready(g, resolved, published));
    CutPartitions(g, InOrder(Ready(g, resolved, published)));
  }

  /** Every item's closure, by worklist. */
  method Closures(g: Graph) returns (closure: map<Id, set<Id>>)
    ensures closure.Keys == g.Keys && forall id | id in closure :: closure[id] == Ancestors(g, id)
  {
    hide Ancestors;
    closure := map[];
    var todo := g.Keys;
    while todo != {}
      invariant todo <= g.Keys && closure.Keys == g.Keys - todo
      invariant forall id | id in closure :: closure[id] == Ancestors(g, id)
    {
      var id :| id in todo;
      var found := FindAncestors(g, id);
      closure := closure[id := found];
      todo := todo - {id};
    }
  }

  /** The batching as the program runs it: closures by worklist, then repeated first-fit passes. */
  method PublicationBatches(g: Graph, resolved: set<Id>, published: set<Id>) returns (batches: seq<seq<Id>>)
    ensures batches == Batches(g, resolved, published)
  {
    hide Ancestors, Choose, Without, InOrder, Ready;
    var closure := Closures(g);
    var remaining := InOrder(Ready(g, resolved, published));
    InOrderLists(Ready(g, resolved, published));
    ReadyIsKnown(g, resolved, published);
    ghost var all := Cut(g, remaining);
    batches := [];
    while remaining != []
      invariant Distinct(remaining) && Members(remaining) <= g.Keys
      invariant all == batches + Cut(g, remaining)
      decreases |remaining|
    {
      var chosen := ChooseByClosure(g, closure, remaining);
      ChooseIs(g, remaining, []);
      ChooseTakesFirst(g, remaining);
      WithoutIs(remaining, chosen);
      batches := batches + [chosen];
      remaining := Without(remaining, chosen);
    }
  }

  lemma ReadyIsKnown(g: Graph, resolved: set<Id>, published: set<Id>)
    ensures Ready(g, resolved, published) <= g.Keys
  {
  }

  method ChooseByClosure(g: Graph, closure: map<Id, set<Id>>, remaining: seq<Id>) returns (chosen: seq<Id>)
    requires closure.Keys == g.Keys && forall id | id in closure :: closure[id] == Ancestors(g, id)
    requires Members(remaining) <= g.Keys
    ensures chosen == Choose(g, remaining, [])
  {
    chosen := [];
    var i := 0;
    while i < |remaining| && |chosen| < MAX_BUNDLE_ITEMS
      invariant 0 <= i <= |remaining|
      invariant forall other | other in chosen :: other in g
      invariant Choose(g, remaining, []) == Choose(g, remaining[i..], chosen)
    {
      var id := remaining[i];
      assert id in Members(remaining);
      forall other | other in chosen
        ensures id !in closure[other] && other !in closure[id] <==> Independent(g, id, other)
      {
        AncestorsIff(g, other, id);
        AncestorsIff(g, id, other);
      }
      if forall other | other in chosen :: id !in closure[other] && other !in closure[id] {
        chosen := chosen + [id];
      }
      assert remaining[i..][1..] == remaining[i + 1..];
      i := i + 1;
    }
  }

  // ---- publishing the batches ----

  function ItemsOf(g: Graph, batch: seq<Id>): seq<Item>
    requires Members(batch) <= g.Keys
  {
    seq(|batch|, i requires 0 <= i < |batch| =>
      assert batch[i] in Members(batch);
      Item(batch[i], g[batch[i]], Members(batch) - {batch[i]}))
  }

  lemma FlattenSplits(batches: seq<seq<Id>>)
    requires batches != []
    ensures Members(Flatten(batches)) == Members(batches[0]) + Members(Flatten(batches[1..]))
  {
    MembersOfConcat(batches[0], Flatten(batches[1..]));
  }

  /** What is published once the batches were offered one after the other, up to the first that is
      refused, and what that refusal may report. */
  ghost function PublishAll(g: Graph, batches: seq<seq<Id>>, st: Published): (Published, set<PublishError>)
    requires Members(Flatten(batches)) <= g.Keys
  {
    if batches == [] then (st, {})
    else
      FlattenSplits(batches);
      var items := ItemsOf(g, batches[0]);
      if PublishDefects(st, items) != {} then (st, PublishDefects(st, items))
      else PublishAll(g, batches[1..], st.(known := Merged(st.known, items)))
  }

  ghost function Promote(g: Graph, st: Published): (Published, set<PublishError>) {
    BatchesPartitionReady(g, st.effective * st.known.Keys, st.known.Keys);
    PublishAll(g, Batches(g, st.effective * st.known.Keys, st.known.Keys), st)
  }

  lemma ItemsOfBatch(g: Graph, batch: seq<Id>)
    requires Members(batch) <= g.Keys && Distinct(batch)
    ensures
      var items := ItemsOf(g, batch);
      && IdsOf(items) == Members(batch) && |IdsOf(items)| == |items| == |batch|
      && forall x | x in items ::
           x.id in batch && x.dependsOn == g[x.id] && x.independentWith == Members(batch) - {x.id}
  {
    var items := ItemsOf(g, batch);
    SizeOfDistinct(batch);
    forall id | id in batch ensures id in IdsOf(items) {
      var i :| 0 <= i < |batch| && batch[i] == id;
      assert items[i].id == id && items[i] in items;
    }
    assert forall x | x in items :: x.id in batch;
    assert IdsOf(items) == Members(batch);
  }

  /** The first `n` batches were published over `st`, leaving `after`; the next one was refused when
      there is one. */
  ghost predicate StoppedAfter(batches: seq<seq<Id>>, n: nat, st: Published, after: Published, refused: bool) {
    && n <= |batches| && (refused <==> n < |batches|)
    && after.effective == st.effective
    && after.known.Keys == st.known.Keys + Members(Flatten(batches[..n]))
    && forall id | id in st.known :: after.known[id] == st.known[id]
  }

  lemma OneMorePublished(batches: seq<seq<Id>>, n: nat, st: Published, st1: Published, after: Published,
                         refused: bool)
    requires batches != [] && StoppedAfter(batches[1..], n, st1, after, refused)
    requires st1.effective == st.effective && st1.known.Keys == st.known.Keys + Members(batches[0])
    requires forall id | id in st.known :: st1.known[id] == st.known[id]
    ensures StoppedAfter(batches, n + 1, st, after, refused)
  {
    hide Flatten;
    assert batches[..n + 1][1..] == batches[1..][..n];
    FlattenSplits(batches[..n + 1]);
  }

  lemma BatchIsAdded(g: Graph, batch: seq<Id>, st: Published)
    requires Members(batch) <= g.Keys && Distinct(batch) && Members(batch) !! st.known.Keys
    ensures
      var known' := Merged(st.known, ItemsOf(g, batch));
      known'.Keys == st.known.Keys + Members(batch) && forall id | id in st.known :: known'[id] == st.known[id]
  {
    hide Merged, ItemsOf, Distinct, IdsOf;
    ItemsOfBatch(g, batch);
    MergedOutside(st.known, ItemsOf(g, batch));
  }

  /** A promotion that is refused leaves published exactly the batches before the refused one, and
      touches nothing already published. */
  lemma {:induction false} RefusalKeepsEarlierBatches(g: Graph, batches: seq<seq<Id>>, st: Published)
    returns (n: nat)
    requires Members(Flatten(batches)) <= g.Keys && Distinct(Flatten(batches))
    requires Members(Flatten(batches)) !! st.known.Keys
    ensures StoppedAfter(batches, n, st, PublishAll(g, batches, st).0, PublishAll(g, batches, st).1 != {})
    decreases |batches|
  {
    hide PublishDefects, Merged, ItemsOf, Flatten, StoppedAfter, Distinct;
    if batches == [] {
      n := 0;
      NonePublished(batches, st, false);
    } else {
      FlattenParts(batches);
      var items := ItemsOf(g, batches[0]);
      if PublishDefects(st, items) != {} {
        n := 0;
        NonePublished(batches, st, true);
      } else {
        BatchIsAdded(g, batches[0], st);
        var st1 := st.(known := Merged(st.known, items));
        n := RefusalKeepsEarlierBatches(g, batches[1..], st1);
        OneMorePublished(batches, n, st, st1, PublishAll(g, batches, st).0, PublishAll(g, batches, st).1 != {});
        n := n + 1;
      }
    }
  }

  lemma NonePublished(batches: seq<seq<Id>>, st: Published, refused: bool)
    requires refused <==> batches != []
    ensures StoppedAfter(batches, 0, st, st, refused)
  {
    assert Flatten(batches[..0]) == [];
  }

  /** The same of one promotion, over its own batches. */
  lemma PromotionStopsCleanly(g: Graph, st: Published) returns (n: nat)
    ensures
      StoppedAfter(Batches(g, st.effective * st.known.Keys, st.known.Keys), n, st,
                   Promote(g, st).0, Promote(g, st).1 != {})
  {
    hide StoppedAfter, Batches, PublishAll, Flatten, Distinct;
    var resolved := st.effective * st.known.Keys;
    BatchesPartitionReady(g, resolved, st.known.Keys);
    assert Ready(g, resolved, st.known.Keys) !! st.known.Keys;
    n := RefusalKeepsEarlierBatches(g, Batches(g, resolved, st.known.Keys), st);
  }

  lemma FlattenParts(batches: seq<seq<Id>>)
    requires batches != []
    ensures Members(Flatten(batches)) == Members(batches[0]) + Members(Flatten(batches[1..]))
    ensures Distinct(Flatten(batches)) <==>
              && Distinct(batches[0]) && Distinct(Flatten(batches[1..]))
              && Members(batches[0]) !! Members(Flatten(batches[1..]))
  {
    DistinctConcat(batches[0], Flatten(batches[1..]));
  }

  // ---- promotion never fails, never republishes and never skips a predecessor ----

  /** What is published is a dependency-closed part of the source set. */
  ghost predicate Consistent(g: Graph, st: Published) {
    && st.effective <= st.known.Keys <= g.Keys
    && (forall id | id in st.known :: st.known[id].dependsOn == g[id] && g[id] <= st.known.Keys)
  }

  lemma SubgraphIsAcyclic(g: Graph, sub: Graph)
    requires Acyclic(g) && sub.Keys <= g.Keys && forall id | id in sub :: sub[id] == g[id]
    ensures Acyclic(sub)
  {
    forall id ensures !DependsOn(sub, id, id) {
      if p :| ChainFrom(sub, p, id, id) {
        ChainInSuper(g, sub, p);
        assert ChainFrom(g, p, id, id);
        assert DependsOn(g, id, id);
      }
    }
  }

  lemma {:induction false} ChainInSuper(g: Graph, sub: Graph, p: seq<Id>)
    requires sub.Keys <= g.Keys && forall id | id in sub :: sub[id] == g[id]
    requires Chain(sub, p)
    ensures Chain(g, p)
    decreases |p|
  {
    if |p| > 1 {
      ChainInSuper(g, sub, p[1..]);
    }
  }

  lemma ConsistentIsSound(g: Graph, st: Published)
    requires Acyclic(g) && Consistent(g, st)
    ensures Sound(st)
  {
    SubgraphIsAcyclic(g, GraphOf(st.known));
  }

  /** A batch of ready items passes every bundle check and every graph check. */
  lemma BatchPasses(g: Graph, st: Published, batch: seq<Id>)
    requires Acyclic(g) && Consistent(g, st)
    requires ValidBatch(g, batch) && Members(batch) <= g.Keys && Members(batch) !! st.known.Keys
    requires forall id | id in batch :: Deps(g, id) <= st.effective
    ensures PublishDefects(st, ItemsOf(g, batch)) == {}
  {
    hide Acyclic, Antichain, PublishDefects, ItemsOf, Sound, IdsOf, Publishable;
    var items := ItemsOf(g, batch);
    ItemsOfBatch(g, batch);
    forall x | x in items ensures SoundItem(st, x, IdsOf(items)) {
      assert x.dependsOn <= st.known.Keys;
      assert x.id in Members(batch);
    }
    ConsistentIsSound(g, st);
    CyclesNeverForm(st, items);
    PublishesIff(st, items);
  }

  /** Adding a batch of ready items keeps the published part dependency-closed. */
  lemma MergedStaysConsistent(g: Graph, st: Published, batch: seq<Id>)
    requires Consistent(g, st)
    requires Distinct(batch) && Members(batch) <= g.Keys
    requires forall id | id in batch :: Deps(g, id) <= st.effective
    ensures
      var known' := Merged(st.known, ItemsOf(g, batch));
      Consistent(g, st.(known := known')) && known'.Keys == st.known.Keys + Members(batch)
  {
    hide Merged, ItemsOf, IdsOf;
    var items := ItemsOf(g, batch);
    ItemsOfBatch(g, batch);
    MergedOutside(st.known, items);
    MergedInside(st.known, items);
    var known' := Merged(st.known, items);
    forall id | id in known' ensures id in g && known'[id].dependsOn == g[id] && g[id] <= known'.Keys {
      if id in IdsOf(items) {
        var x := WithId(items, id);
        assert known'[id] == x;
      }
    }
  }

  lemma {:induction false} PublishAllSucceeds(g: Graph, batches: seq<seq<Id>>, st: Published)
    requires Acyclic(g) && Closed(g) && Consistent(g, st)
    requires forall b | b in batches :: ValidBatch(g, b)
    requires Distinct(Flatten(batches)) && Members(Flatten(batches)) <= g.Keys - st.known.Keys
    requires forall id | id in Flatten(batches) :: Deps(g, id) <= st.effective
    ensures
      var r := PublishAll(g, batches, st);
      && r.1 == {} && Consistent(g, r.0) && r.0.effective == st.effective
      && r.0.known.Keys == st.known.Keys + Members(Flatten(batches))
    decreases |batches|
  {
    hide PublishDefects, Merged, Acyclic, Antichain, ItemsOf;
    if batches != [] {
      var batch, rest := batches[0], batches[1..];
      assert batches == [batch] + rest;
      DistinctConcat(batch, Flatten(rest));
      assert Members(batch) <= Members(Flatten(batches));
      forall id | id in batch || id in Flatten(rest) ensures Deps(g, id) <= st.effective {
        assert id in batch + Flatten(rest);
      }
      BatchPasses(g, st, batch);
      MergedStaysConsistent(g, st, batch);
      PublishAllSucceeds(g, rest, st.(known := Merged(st.known, ItemsOf(g, batch))));
    }
  }

  /** For an acyclic, dependency-closed source set, promotion publishes exactly the unpublished
      items all of whose predecessors are effective: each once, none early, and it never fails. */
  lemma PromotePublishesReady(g: Graph, st: Published)
    requires Acyclic(g) && Closed(g) && Consistent(g, st)
    ensures
      var r := Promote(g, st);
      && r.1 == {} && Consistent(g, r.0) && r.0.effective == st.effective
      && r.0.known.Keys == st.known.Keys + (set id | id in g && g[id] <= st.effective)
  {
    var resolved := st.effective * st.known.Keys;
    assert resolved == st.effective;
    BatchesPartitionReady(g, resolved, st.known.Keys);
    var batches := Batches(g, resolved, st.known.Keys);
    forall id | id in Flatten(batches) ensures Deps(g, id) <= st.effective {
      assert id in Members(Flatten(batches));
      assert id in Ready(g, resolved, st.known.Keys);
      assert g[id] <= g.Keys;
      forall d | d in g[id] ensures d in resolved {
        assert d in g.Keys && d !in g[id] * (g.Keys - resolved);
      }
    }
    PublishAllSucceeds(g, batches, st);
    forall id | id in g && g[id] <= st.effective && id !in st.known ensures id in Members(Flatten(batches)) {
      assert g[id] * (g.Keys - resolved) == {};
      assert id in Ready(g, resolved, st.known.Keys);
    }
  }

  // ---- promotion is live ----

  /** What is published after `n` rounds of "promote, then every published item is answered", and
      what a refused promotion reported. */
  ghost function Rounds(g: Graph, n: nat): (Published, set<PublishError>) {
    if n == 0 then (Published(map[], {}), {})
    else
      var (before, defects) := Rounds(g, n - 1);
      if defects != {} then (before, defects)
      else Promote(g, before.(effective := before.known.Keys))
  }

  /** The items with no dependency chain longer than `n`. */
  ghost predicate ChainsWithin(g: Graph, id: Id, n: nat) {
    forall p | Chain(g, p) && p[0] == id :: |p| <= n
  }

  lemma ChainsWithinIff(g: Graph, id: Id, n: nat)
    requires Closed(g) && id in g
    ensures ChainsWithin(g, id, n + 1) <==> forall d | d in g[id] :: ChainsWithin(g, d, n)
  {
    if ChainsWithin(g, id, n + 1) {
      forall d, p | d in g[id] && Chain(g, p) && p[0] == d ensures |p| <= n {
        assert ([id] + p)[1..] == p;
        assert Chain(g, [id] + p);
      }
    }
    if forall d | d in g[id] :: ChainsWithin(g, d, n) {
      forall p | Chain(g, p) && p[0] == id ensures |p| <= n + 1 {
        if |p| > 1 {
          assert Chain(g, p[1..]) && p[1..][0] == p[1];
        }
      }
    }
  }

  /** A round publishes exactly the items all of whose predecessors were published before it. */
  lemma RoundAdds(g: Graph, before: Published, n: nat)
    requires Acyclic(g) && Closed(g) && Consistent(g, before)
    requires forall id | id in g :: id in before.known <==> ChainsWithin(g, id, n)
    ensures
      var (after, defects) := Promote(g, before.(effective := before.known.Keys));
      && defects == {} && Consistent(g, after)
      && forall id | id in g :: id in after.known <==> ChainsWithin(g, id, n + 1)
  {
    hide Promote, Chain, Acyclic, ChainsWithin;
    var answered := before.(effective := before.known.Keys);
    PromotePublishesReady(g, answered);
    forall id | id in g
      ensures id in Promote(g, answered).0.known <==> ChainsWithin(g, id, n + 1)
    {
      ChainsWithinIff(g, id, n);
      if id in before.known {
        assert g[id] <= before.known.Keys;
      }
    }
  }

  /** After `n` rounds the published items are exactly those whose longest chain of dependencies is
      at most `n` long: an item is asked in the round its longest chain allows, never before. */
  lemma {:induction false} RoundsReachChains(g: Graph, n: nat)
    requires Acyclic(g) && Closed(g)
    ensures Rounds(g, n).1 == {} && Consistent(g, Rounds(g, n).0)
    ensures forall id | id in g :: id in Rounds(g, n).0.known <==> ChainsWithin(g, id, n)
  {
    hide Promote, Acyclic, Consistent;
    if n == 0 {
      forall id | id in g ensures !ChainsWithin(g, id, 0) {
        assert Chain(g, [id]);
      }
      NothingIsConsistent(g);
    } else {
      hide Chain, ChainsWithin;
      RoundsReachChains(g, n - 1);
      RoundAdds(g, Rounds(g, n - 1).0, n - 1);
    }
  }

  lemma NothingIsConsistent(g: Graph)
    ensures Consistent(g, Published(map[], {}))
  {
  }

  /** Every item of the source set is published within as many rounds as it has items. */
  lemma PromotionIsLive(g: Graph)
    requires Acyclic(g) && Closed(g)
    ensures Rounds(g, |g.Keys|).1 == {} && Rounds(g, |g.Keys|).0.known.Keys == g.Keys
  {
    RoundsReachChains(g, |g.Keys|);
    forall id | id in g ensures ChainsWithin(g, id, |g.Keys|) {
      forall p | Chain(g, p) && p[0] == id ensures |p| <= |g.Keys| {
        ChainStaysInside(g, p);
        ChainsAreShort(g, p, g.Keys);
      }
    }
  }

  /** The port whose published requests and effective decisions promotion reads and extends. */
  class PromotionPort {
    var known: map<Id, Item>
    var effective: set<Id>

    constructor ()
      ensures View() == Published(map[], {})
    {
      known, effective := map[], {};
    }

    function View(): Published
      reads this
    {
      Published(known, effective)
    }

    /** Publish one bundle: the checks in order, then everything at once or nothing. */
    method PublishItems(given: seq<Item>) returns (defect: Option<PublishError>)
      modifies this`known
      ensures defect.None? <==> Publishable(old(View()), given)
      ensures defect.Some? ==> defect.value in PublishDefects(old(View()), given)
      ensures known == if defect.None? then Merged(old(known), given) else old(known)
    {
      hide Merged, GraphOf, Closed, Acyclic, Publishable, BundleDefect, IdsOf, InIdOrder, EdgeDefects, Mutates;
      PublishesIff(View(), given);
      InIdOrderKeeps(given);
      var items := InIdOrder(given);
      if !(1 <= |items| <= MAX_BUNDLE_ITEMS) {
        return Some(BundleSize);
      }
      var members := IdsOf(items);
      if |members| != |items| {
        return Some(DuplicateItem);
      }
      defect := FindBundleDefect(items, members);
      if defect.Some? {
        return;
      }
      var merged, mutated := MergeKnown(known, items);
      if mutated {
        return Some(KnownItemMutation);
      }
      defect := CheckEdges(GraphOf(merged));
      if defect.Some? {
        return;
      }
      NoEdgeDefectIsClosed(GraphOf(merged));
      var search := new CycleSearch(GraphOf(merged));
      var cycle := search.Search();
      if cycle {
        return Some(DependencyCycle);
      }
      var missing := MissesPredecessor(items, members, effective);
      if missing {
        return Some(PredecessorNotEffective);
      }
      MergedIgnoresOrder(known, items, given);
      known := merged;
      return None;
    }

    /** Publish the antichains the effective decisions unlock, stopping at the first refusal. What
        earlier batches published stays. */
    method PromoteReady(g: Graph) returns (defect: Option<PublishError>)
      modifies this`known
      ensures View() == Promote(g, old(View())).0
      ensures defect.None? <==> Promote(g, old(View())).1 == {}
      ensures defect.Some? ==> defect.value in Promote(g, old(View())).1
    {
      hide PublishDefects, Publishable, Merged, ItemsOf, Flatten, Batches;
      var batches := PublicationBatches(g, effective * known.Keys, known.Keys);
      BatchesPartitionReady(g, effective * known.Keys, known.Keys);
      ReadyIsKnown(g, effective * known.Keys, known.Keys);
      ghost var outcome := Promote(g, View());
      defect := None;
      var rest := batches;
      while rest != []
        invariant defect == None
        invariant Members(Flatten(rest)) <= g.Keys
        invariant outcome == PublishAll(g, rest, View())
        invariant effective == old(effective)
        decreases |rest|
      {
        FlattenSplits(rest);
        var items := ItemsOf(g, rest[0]);
        PublishesIff(View(), items);
        defect := PublishItems(items);
        if defect.Some? {
          return;
        }
        rest := rest[1..];
      }
    }
  }
}
