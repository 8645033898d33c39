/** Publishing one bundle of questions: the checks it must pass and what it adds to what is known
    (`_publish_items`, `_validate_known_dag` in scripts/clarification_protocol.py). */
module Publication {
  import opened Vocabulary
  import opened Sequences
  import opened DependencyGraph

  const MAX_BUNDLE_ITEMS: nat := 3

  datatype Item = Item(id: Id, dependsOn: set<Id>, independentWith: set<Id>)

  /** The requests published so far, and the items that carry an effective decision. */
  datatype Published = Published(known: map<Id, Item>, effective: set<Id>)

  datatype PublishError =
    | BundleSize | DuplicateItem | NotIndependent | DependencyInBundle
    | KnownItemMutation | UnknownDependency | SelfCycle | DependencyCycle | PredecessorNotEffective

  // ---- the order of a bundle ----

  function IdsOf(items: seq<Item>): set<Id> {
    set x | x in items :: x.id
  }

  function Inserted(x: Item, items: seq<Item>): seq<Item> {
    if items == [] || x.id <= items[0].id then [x] + items else [items[0]] + Inserted(x, items[1..])
  }

  /** Sorting by identifier, equal ones in the order given. */
  function InIdOrder(items: seq<Item>): seq<Item> {
    if items == [] then [] else Inserted(items[0], InIdOrder(items[1..]))
  }

  predicate Ascending(items: seq<Item>) {
    forall i, j | 0 <= i < j < |items| :: items[i].id <= items[j].id
  }

  lemma {:induction false} InsertedMembers(x: Item, items: seq<Item>)
    ensures multiset(Inserted(x, items)) == multiset{x} + multiset(items)
  {
    if items != [] && x.id > items[0].id {
      assert items == [items[0]] + items[1..];
      InsertedMembers(x, items[1..]);
    }
  }

  lemma {:induction false} InsertedAscends(x: Item, items: seq<Item>)
    requires Ascending(items)
    ensures Ascending(Inserted(x, items))
  {
    if items != [] && x.id > items[0].id {
      var rest := Inserted(x, items[1..]);
      InsertedAscends(x, items[1..]);
      InsertedMembers(x, items[1..]);
      forall y | y in rest ensures items[0].id <= y.id {
        assert y in multiset(rest);
      }
    }
  }

  lemma {:induction false} InIdOrderKeeps(items: seq<Item>)
    ensures multiset(InIdOrder(items)) == multiset(items) && Ascending(InIdOrder(items))
  {
    hide Inserted, Ascending;
    if items != [] {
      assert items == [items[0]] + items[1..];
      InIdOrderKeeps(items[1..]);
      InsertedMembers(items[0], InIdOrder(items[1..]));
      InsertedAscends(items[0], InIdOrder(items[1..]));
    } else {
      NothingAscends();
    }
  }

  lemma NothingAscends()
    ensures Ascending([])
  {
  }

  lemma SameItems(a: seq<Item>, b: seq<Item>)
    requires multiset(a) == multiset(b)
    ensures |a| == |b| && IdsOf(a) == IdsOf(b) && forall x :: x in a <==> x in b
  {
    assert |multiset(a)| == |a| && |multiset(b)| == |b|;
    forall x ensures x in a <==> x in b {
      assert x in a <==> x in multiset(a);
      assert x in b <==> x in multiset(b);
    }
  }

  // ---- the checks ----

  function ItemDefect(x: Item, members: set<Id>): Option<PublishError> {
    if x.independentWith != members - {x.id} then Some(NotIndependent)
    else if x.id in x.dependsOn || members * x.dependsOn != {} then Some(DependencyInBundle)
    else None
  }

  /** The first item's defect, in the order of the bundle. */
  function BundleDefect(items: seq<Item>, members: set<Id>): Option<PublishError> {
    if items == [] then None
    else if ItemDefect(items[0], members).Some? then ItemDefect(items[0], members)
    else BundleDefect(items[1..], members)
  }

  lemma {:induction false} BundleDefectIff(items: seq<Item>, members: set<Id>)
    ensures BundleDefect(items, members) == None <==> forall x | x in items :: ItemDefect(x, members) == None
    ensures BundleDefect(items, members) in {None, Some(NotIndependent), Some(DependencyInBundle)}
  {
    if items != [] {
      assert items == [items[0]] + items[1..];
      BundleDefectIff(items[1..], members);
    }
  }

  /** The loop over the bundle, item by item. */
  method FindBundleDefect(items: seq<Item>, members: set<Id>) returns (defect: Option<PublishError>)
    ensures defect == BundleDefect(items, members)
  {
    for i := 0 to |items|
      invariant BundleDefect(items, members) == BundleDefect(items[i..], members)
    {
      var x := items[i];
      if x.independentWith != members - {x.id} {
        return Some(NotIndependent);
      }
      if x.id in x.dependsOn || members * x.dependsOn != {} {
        return Some(DependencyInBundle);
      }
      assert items[i..][1..] == items[i + 1..];
    }
    return None;
  }

  predicate Mutates(known: map<Id, Item>, x: Item) {
    x.id in known && known[x.id] != x
  }

  function Merged(known: map<Id, Item>, items: seq<Item>): map<Id, Item> {
    if items == [] then known else Merged(known, items[..|items| - 1])[items[|items| - 1].id := items[|items| - 1]]
  }

  lemma {:induction false} MergedOutside(known: map<Id, Item>, items: seq<Item>)
    ensures Merged(known, items).Keys == known.Keys + IdsOf(items)
    ensures forall id | id in known && id !in IdsOf(items) :: Merged(known, items)[id] == known[id]
    decreases |items|
  {
    if items != [] {
      assert items == items[..|items| - 1] + [items[|items| - 1]];
      MergedOutside(known, items[..|items| - 1]);
    }
  }

  lemma {:induction false} OneIdEach(items: seq<Item>)
    ensures |IdsOf(items)| <= |items|
    ensures items != [] && |IdsOf(items)| == |items| ==>
              var rest := items[..|items| - 1];
              |IdsOf(rest)| == |rest| && items[|items| - 1].id !in IdsOf(rest)
    decreases |items|
  {
    if items != [] {
      var rest, last := items[..|items| - 1], items[|items| - 1];
      assert items == rest + [last];
      OneIdEach(rest);
      assert IdsOf(items) == IdsOf(rest) + {last.id};
    }
  }

  /** Merging a bundle without duplicates makes every one of its items known, as it is. */
  lemma {:induction false} MergedInside(known: map<Id, Item>, items: seq<Item>)
    requires |IdsOf(items)| == |items|
    ensures forall x | x in items :: x.id in Merged(known, items) && Merged(known, items)[x.id] == x
    decreases |items|
  {
    if items != [] {
      OneIdEach(items);
      assert items == items[..|items| - 1] + [items[|items| - 1]];
      MergedInside(known, items[..|items| - 1]);
    }
  }

  lemma MergedIgnoresOrder(known: map<Id, Item>, a: seq<Item>, b: seq<Item>)
    requires multiset(a) == multiset(b) && |IdsOf(a)| == |a|
    ensures Merged(known, a) == Merged(known, b)
  {
    hide Merged, IdsOf;
    SameItems(a, b);
    MergedOutside(known, a);
    MergedOutside(known, b);
    MergedInside(known, a);
    MergedInside(known, b);
    forall id | id in IdsOf(a) ensures Merged(known, a)[id] == Merged(known, b)[id] {
      var x := WithId(a, id);
    }
  }

  lemma WithId(items: seq<Item>, id: Id) returns (x: Item)
    requires id in IdsOf(items)
    ensures x in items && x.id == id
  {
    x :| x in items && x.id == id;
  }

  lemma {:induction false} AllDistinct(items: seq<Item>, n: nat)
    requires |IdsOf(items)| == |items| && n <= |items|
    ensures |IdsOf(items[..n])| == n
    decreases |items|
  {
    if n < |items| {
      OneIdEach(items);
      AllDistinct(items[..|items| - 1], n);
      assert items[..|items| - 1][..n] == items[..n];
    } else {
      assert items[..n] == items;
    }
  }

  lemma MergedNext(known: map<Id, Item>, items: seq<Item>, i: nat)
    requires i < |items|
    ensures Merged(known, items[..i + 1]) == Merged(known, items[..i])[items[i].id := items[i]]
  {
    assert items[..i + 1][..i] == items[..i];
  }

  /** Up to its `i`-th item the bundle has put nothing under that item's identifier. */
  lemma NotYetMerged(known: map<Id, Item>, items: seq<Item>, i: nat)
    requires |IdsOf(items)| == |items| && i < |items|
    ensures
      var merged, id := Merged(known, items[..i]), items[i].id;
      (id in merged <==> id in known) && (id in known ==> merged[id] == known[id])
  {
    hide Merged, IdsOf;
    AllDistinct(items, i + 1);
    OneIdEach(items[..i + 1]);
    assert items[..i + 1][..i] == items[..i];
    MergedOutside(known, items[..i]);
  }

  /** Merge the bundle into what is known, refusing an item known in another form. */
  method MergeKnown(known: map<Id, Item>, items: seq<Item>) returns (merged: map<Id, Item>, mutated: bool)
    requires |IdsOf(items)| == |items|
    ensures mutated <==> exists x :: x in items && Mutates(known, x)
    ensures !mutated ==> merged == Merged(known, items)
  {
    hide Merged, IdsOf;
    merged := known;
    assert Merged(known, items[..0]) == known by { NothingMerged(known, items[..0]); }
    for i := 0 to |items|
      invariant merged == Merged(known, items[..i])
      invariant forall k | 0 <= k < i :: !Mutates(known, items[k])
    {
      var x := items[i];
      NotYetMerged(known, items, i);
      MergedNext(known, items, i);
      assert x in items;
      if x.id in merged && merged[x.id] != x {
        return merged, true;
      }
      merged := merged[x.id := x];
    }
    assert items[..|items|] == items;
    return merged, false;
  }

  lemma NothingMerged(known: map<Id, Item>, items: seq<Item>)
    requires items == []
    ensures Merged(known, items) == known
  {
  }

  function GraphOf(known: map<Id, Item>): Graph {
    map id | id in known :: known[id].dependsOn
  }

  /** What the check of the edges may report: it reads the items in no particular order. */
  function EdgeDefects(g: Graph): set<PublishError> {
    (if Closed(g) then {} else {UnknownDependency})
    + (if exists id :: id in g && id in g[id] then {SelfCycle} else {})
  }

  method CheckEdges(g: Graph) returns (defect: Option<PublishError>)
    ensures defect.None? ==> EdgeDefects(g) == {}
    ensures defect.Some? ==> defect.value in EdgeDefects(g)
  {
    var items := g.Keys;
    while items != {}
      invariant items <= g.Keys
      invariant forall id | id in g.Keys - items :: g[id] <= g.Keys && id !in g[id]
    {
      var id :| id in items;
      var dependencies := g[id];
      while dependencies != {}
        invariant dependencies <= g[id]
        invariant forall d | d in g[id] - dependencies :: d in g && d != id
      {
        var dependency :| dependency in dependencies;
        if dependency !in g {
          return Some(UnknownDependency);
        }
        if dependency == id {
          return Some(SelfCycle);
        }
        dependencies := dependencies - {dependency};
      }
      items := items - {id};
    }
    return None;
  }

  lemma NoEdgeDefectIsClosed(g: Graph)
    ensures EdgeDefects(g) == {} ==> Closed(g)
  {
  }

  /** The last check: every predecessor outside the bundle carries an effective decision. */
  method MissesPredecessor(items: seq<Item>, members: set<Id>, effective: set<Id>) returns (missing: bool)
    ensures missing <==> exists x :: x in items && !(x.dependsOn <= members + effective)
  {
    for i := 0 to |items|
      invariant forall x | x in items[..i] :: x.dependsOn <= members + effective
    {
      var dependencies := items[i].dependsOn;
      while dependencies != {}
        invariant dependencies <= items[i].dependsOn
        invariant items[i].dependsOn - dependencies <= members + effective
      {
        var dependency :| dependency in dependencies;
        if dependency !in members && dependency !in effective {
          return true;
        }
        dependencies := dependencies - {dependency};
      }
    }
    return false;
  }

  /** What publishing the bundle may report, check by check; nothing when it is published. */
  ghost function PublishDefects(st: Published, given: seq<Item>): set<PublishError> {
    var items := InIdOrder(given);
    var members := IdsOf(items);
    if !(1 <= |items| <= MAX_BUNDLE_ITEMS) then {BundleSize}
    else if |members| != |items| then {DuplicateItem}
    else if BundleDefect(items, members).Some? then {BundleDefect(items, members).value}
    else if exists x :: x in items && Mutates(st.known, x) then {KnownItemMutation}
    else
      var graph := GraphOf(Merged(st.known, items));
      if EdgeDefects(graph) != {} then EdgeDefects(graph)
      else if !Acyclic(graph) then {DependencyCycle}
      else if exists x :: x in items && !(x.dependsOn <= members + st.effective) then {PredecessorNotEffective}
      else {}
  }

  // ---- what a published bundle is ----

  ghost predicate SoundItem(st: Published, x: Item, members: set<Id>) {
    && x.independentWith == members - {x.id}
    && x.dependsOn !! members
    && x.dependsOn <= st.effective
    && !Mutates(st.known, x)
  }

  /** One to three different questions that declare each other independent and do not depend on each
      other, all of whose predecessors are answered, known in no other form, and whose dependencies
      together with the known ones form an acyclic graph of known items. */
  ghost predicate Publishable(st: Published, items: seq<Item>) {
    var members := IdsOf(items);
    && 1 <= |items| == |members| <= MAX_BUNDLE_ITEMS
    && (forall x | x in items :: SoundItem(st, x, members))
    && Closed(GraphOf(Merged(st.known, items)))
    && Acyclic(GraphOf(Merged(st.known, items)))
  }

  lemma AcyclicHasNoSelfLoop(g: Graph)
    requires Acyclic(g)
    ensures forall id | id in g :: id !in g[id]
  {
    forall id | id in g ensures id !in g[id] {
      if id in g[id] {
        DirectlyDepends(g, id, id);
      }
    }
  }

  /** What the per-item checks ask of one item. */
  lemma ItemPasses(st: Published, items: seq<Item>, x: Item)
    requires x in items
    ensures
      var members := IdsOf(items);
      SoundItem(st, x, members) <==>
        ItemDefect(x, members) == None && !Mutates(st.known, x) && x.dependsOn <= members + st.effective
  {
    hide IdsOf, Mutates;
    IdIsMember(items, x);
    var members := IdsOf(items);
    DisjointIff(members, x.dependsOn);
    assert x.dependsOn !! members && x.dependsOn <= members + st.effective ==> x.dependsOn <= st.effective;
  }

  lemma DisjointIff(a: set<Id>, b: set<Id>)
    ensures a * b == {} <==> b !! a
  {
    if a * b == {} {
      forall x | x in b ensures x !in a {
        assert x !in a * b;
      }
    }
  }

  /** The checks, made one after the other on the sorted bundle, accept exactly the publishable ones,
      whatever order they are given in. */
  lemma PublishesIff(st: Published, given: seq<Item>)
    ensures PublishDefects(st, given) == {} <==> Publishable(st, given)
  {
    hide Merged, Acyclic, GraphOf, IdsOf, BundleDefect, Closed, InIdOrder, Mutates, ItemDefect, SoundItem;
    var items := InIdOrder(given);
    InIdOrderKeeps(given);
    SameItems(items, given);
    BundleDefectIff(items, IdsOf(items));
    forall x | x in items
      ensures SoundItem(st, x, IdsOf(items)) <==>
                && ItemDefect(x, IdsOf(items)) == None && !Mutates(st.known, x)
                && x.dependsOn <= IdsOf(items) + st.effective
    {
      ItemPasses(st, items, x);
    }
    if |IdsOf(items)| == |items| {
      MergedIgnoresOrder(st.known, items, given);
    }
    var graph := GraphOf(Merged(st.known, items));
    if Acyclic(graph) {
      AcyclicHasNoSelfLoop(graph);
    }
  }

  /** The item depends on itself or on another of its bundle. */
  predicate DependsInside(x: Item, members: set<Id>) {
    exists id :: id in x.dependsOn && (id == x.id || id in members)
  }

  lemma ItemDefectIs(x: Item, members: set<Id>)
    ensures ItemDefect(x, members) == Some(NotIndependent) <==> x.independentWith != members - {x.id}
    ensures ItemDefect(x, members) == Some(DependencyInBundle) <==>
              x.independentWith == members - {x.id} && DependsInside(x, members)
  {
    if id :| id in x.dependsOn && (id == x.id || id in members) {
      assert id == x.id || id in members * x.dependsOn;
    }
    if members * x.dependsOn != {} {
      var id :| id in members * x.dependsOn;
    }
  }

  /** The first defect is an item's before which every other passes. */
  lemma {:induction false} FirstDefect(items: seq<Item>, members: set<Id>)
    requires Ascending(items) && BundleDefect(items, members).Some?
    ensures exists x :: x in items && ItemDefect(x, members) == BundleDefect(items, members)
                        && forall y :: y in items && y.id < x.id ==> ItemDefect(y, members) == None
  {
    hide ItemDefect;
    var first := items[0];
    assert items == [first] + items[1..];
    if ItemDefect(first, members).Some? {
      assert first in items;
      assert forall y :: y in items ==> y.id >= first.id;
    } else {
      assert forall i | 0 <= i < |items[1..]| :: items[1..][i] == items[i + 1];
      FirstDefect(items[1..], members);
      var x :| x in items[1..] && ItemDefect(x, members) == BundleDefect(items[1..], members)
               && forall y :: y in items[1..] && y.id < x.id ==> ItemDefect(y, members) == None;
      assert x in items;
    }
  }

  /** Every item declares all the others independent and depends on none of them. */
  predicate StandApart(items: seq<Item>) {
    forall x :: x in items ==> x.independentWith == IdsOf(items) - {x.id} && !DependsInside(x, IdsOf(items))
  }

  lemma PassesIff(items: seq<Item>)
    ensures BundleDefect(items, IdsOf(items)) == None <==> StandApart(items)
  {
    BundleDefectIff(items, IdsOf(items));
    forall x ensures ItemDefect(x, IdsOf(items)) == None <==>
                     x.independentWith == IdsOf(items) - {x.id} && !DependsInside(x, IdsOf(items)) {
      ItemDefectIs(x, IdsOf(items));
    }
    hide ItemDefect, DependsInside, IdsOf, BundleDefect;
  }

  lemma FirstDefectSays(items: seq<Item>)
    requires Ascending(items)
    ensures BundleDefect(items, IdsOf(items)) == Some(NotIndependent) ==>
              exists x :: x in items && x.independentWith != IdsOf(items) - {x.id}
                          && forall y :: y in items && y.id < x.id ==> !DependsInside(y, IdsOf(items))
    ensures BundleDefect(items, IdsOf(items)) == Some(DependencyInBundle) ==>
              exists x :: x in items && x.independentWith == IdsOf(items) - {x.id} && DependsInside(x, IdsOf(items))
                          && forall y :: y in items && y.id < x.id ==> y.independentWith == IdsOf(items) - {y.id}
  {
    var members := IdsOf(items);
    forall x
      ensures ItemDefect(x, members) == Some(NotIndependent) <==> x.independentWith != members - {x.id}
      ensures ItemDefect(x, members) == Some(DependencyInBundle) <==>
                x.independentWith == members - {x.id} && DependsInside(x, members)
    {
      ItemDefectIs(x, members);
    }
    hide ItemDefect, DependsInside, IdsOf, BundleDefect, Ascending;
    if BundleDefect(items, members).Some? {
      FirstDefect(items, members);
    }
  }

  /** What each refusal says of the bundle. Size and repetition are checked first; then the items in
      the order of their identifiers, their independence before their dependencies; and only of a
      bundle whose items stand apart, what is known of them, the whole graph, and last whether their
      predecessors are answered. */
  lemma RefusalsSay(st: Published, given: seq<Item>)
    ensures
      var refused := PublishDefects(st, given);
      var members := IdsOf(given);
      && (BundleSize in refused <==> !(1 <= |given| <= 3))
      && (DuplicateItem in refused <==> 1 <= |given| <= 3 && |members| != |given|)
      && (NotIndependent in refused ==>
            exists x :: x in given && x.independentWith != members - {x.id}
                        && forall y :: y in given && y.id < x.id ==> !DependsInside(y, members))
      && (DependencyInBundle in refused ==>
            exists x :: x in given && x.independentWith == members - {x.id} && DependsInside(x, members)
                        && forall y :: y in given && y.id < x.id ==> y.independentWith == members - {y.id})
      && (refused !! {BundleSize, DuplicateItem, NotIndependent, DependencyInBundle} && refused != {} ==>
            StandApart(given) && |members| == |given| && LaterRefusal(st, given, refused))
  {
    var items := InIdOrder(given);
    InIdOrderKeeps(given);
    SameItems(items, given);
    FirstDefectSays(items);
    BundleDefectIff(items, IdsOf(items));
    PassesIff(items);
    hide Merged, Acyclic, GraphOf, IdsOf, BundleDefect, Closed, InIdOrder, DependsInside, Ascending, LaterRefusal,
         Mutates, EdgeDefects;
    assert StandApart(items) <==> StandApart(given) by { hide PublishDefects; }
    hide StandApart;
    var refused, members := PublishDefects(st, given), IdsOf(items);
    if !(1 <= |items| <= 3) {
      assert refused == {BundleSize};
    } else if |members| != |items| {
      assert refused == {DuplicateItem};
    } else if BundleDefect(items, members).Some? {
      assert refused == {BundleDefect(items, members).value};
    } else {
      hide PublishDefects;
      LaterRefusalIs(st, given);
      if refused != {} {
        LaterRefusalIsLater(st, given, refused);
      }
    }
  }

  /** What the checks against the known items report. */
  ghost predicate LaterRefusal(st: Published, given: seq<Item>, refused: set<PublishError>) {
    var graph := GraphOf(Merged(st.known, given));
    || (refused == {KnownItemMutation} && exists x :: x in given && x.id in st.known && st.known[x.id] != x)
    || (refused != {} && refused <= {UnknownDependency, SelfCycle}
        && (UnknownDependency in refused <==> exists id, d :: id in graph && d in graph[id] && d !in graph)
        && (SelfCycle in refused ==> exists id :: id in st.known && id in st.known[id].dependsOn))
    || (refused == {DependencyCycle} && exists id :: DependsOn(graph, id, id))
    || (refused == {PredecessorNotEffective}
        && exists x, id :: x in given && id in x.dependsOn && id !in IdsOf(given) && id !in st.effective)
  }

  lemma LaterRefusalIsLater(st: Published, given: seq<Item>, refused: set<PublishError>)
    requires LaterRefusal(st, given, refused)
    ensures refused !! {BundleSize, DuplicateItem, NotIndependent, DependencyInBundle}
  {
  }

  /** The checks against the known items, of the bundle as it was given. */
  lemma LaterChecks(st: Published, given: seq<Item>)
    requires 1 <= |given| <= 3 && |IdsOf(given)| == |given| && StandApart(given)
    ensures
      var graph := GraphOf(Merged(st.known, given));
      PublishDefects(st, given)
      == if exists x :: x in given && Mutates(st.known, x) then {KnownItemMutation}
         else if EdgeDefects(graph) != {} then EdgeDefects(graph)
         else if !Acyclic(graph) then {DependencyCycle}
         else if exists x :: x in given && !(x.dependsOn <= IdsOf(given) + st.effective) then {PredecessorNotEffective}
         else {}
  {
    var items := InIdOrder(given);
    InIdOrderKeeps(given);
    SameItems(items, given);
    PassesIff(items);
    MergedIgnoresOrder(st.known, items, given);
    hide Merged, Acyclic, GraphOf, IdsOf, BundleDefect, InIdOrder, DependsInside, Ascending, Mutates, EdgeDefects;
    assert StandApart(items);
  }

  lemma EdgeDefectsSay(st: Published, given: seq<Item>)
    requires |IdsOf(given)| == |given| && StandApart(given) && forall x :: x in given ==> !Mutates(st.known, x)
    ensures
      var graph := GraphOf(Merged(st.known, given));
      && EdgeDefects(graph) <= {UnknownDependency, SelfCycle}
      && (UnknownDependency in EdgeDefects(graph) <==> exists id, d :: id in graph && d in graph[id] && d !in graph)
      && (SelfCycle in EdgeDefects(graph) ==> exists id :: id in st.known && id in st.known[id].dependsOn)
  {
    SelfLoopsAreKnown(st, given) by { hide DependsInside; }
    hide Merged, GraphOf, IdsOf, DependsInside, Mutates;
  }

  lemma LaterRefusalIs(st: Published, given: seq<Item>)
    requires 1 <= |given| <= 3 && |IdsOf(given)| == |given| && StandApart(given)
    ensures PublishDefects(st, given) != {} ==> LaterRefusal(st, given, PublishDefects(st, given))
  {
    LaterChecks(st, given);
    hide Merged, Acyclic, GraphOf, IdsOf, StandApart, PublishDefects, EdgeDefects, LaterRefusal, Mutates;
    if x :| x in given && Mutates(st.known, x) {
      MutationSays(st, given, x);
    } else {
      EdgeDefectsSay(st, given);
      EdgesSay(st, given);
      GraphSays(st, given);
    }
  }

  lemma MutationSays(st: Published, given: seq<Item>, x: Item)
    requires x in given && Mutates(st.known, x)
    ensures LaterRefusal(st, given, {KnownItemMutation})
  {
    hide Merged, GraphOf, IdsOf;
  }

  lemma EdgesSay(st: Published, given: seq<Item>)
    requires |IdsOf(given)| == |given| && StandApart(given) && forall x :: x in given ==> !Mutates(st.known, x)
    ensures
      var defects := EdgeDefects(GraphOf(Merged(st.known, given)));
      defects != {} ==> LaterRefusal(st, given, defects)
  {
    EdgeDefectsSay(st, given);
    hide Merged, GraphOf, IdsOf, StandApart, EdgeDefects, Mutates;
  }

  lemma GraphSays(st: Published, given: seq<Item>)
    ensures !Acyclic(GraphOf(Merged(st.known, given))) ==> LaterRefusal(st, given, {DependencyCycle})
    ensures (exists x :: x in given && !(x.dependsOn <= IdsOf(given) + st.effective)) ==>
              LaterRefusal(st, given, {PredecessorNotEffective})
  {
    AcyclicIs(GraphOf(Merged(st.known, given)));
    hide Merged, GraphOf, IdsOf, Acyclic, DependsOn;
    if x :| x in given && !(x.dependsOn <= IdsOf(given) + st.effective) {
      var id :| id in x.dependsOn && id !in IdsOf(given) + st.effective;
    }
  }

  lemma AcyclicIs(g: Graph)
    ensures Acyclic(g) <==> !exists id :: DependsOn(g, id, id)
  {
  }

  lemma SelfLoopsAreKnown(st: Published, items: seq<Item>)
    requires |IdsOf(items)| == |items|
    requires forall x | x in items :: !Mutates(st.known, x) && !DependsInside(x, IdsOf(items))
    ensures
      var g := GraphOf(Merged(st.known, items));
      forall id :: id in g && id in g[id] ==> id in st.known && id in st.known[id].dependsOn
  {
    hide Merged, GraphOf, IdsOf, Mutates;
    MergedGraph(st, items);
    GraphOfIs(st.known);
  }

  // ---- what is known stays sound ----

  /** Everything a known item depends on is known, and nothing depends on itself. */
  ghost predicate Sound(st: Published) {
    && st.effective <= st.known.Keys
    && Closed(GraphOf(st.known)) && Acyclic(GraphOf(st.known))
  }

  /** A chain that starts in the closed part known before stays in it. */
  lemma {:induction false} ChainInPart(g: Graph, part: Graph, p: seq<Id>)
    requires Closed(part) && Chain(g, p) && p[0] in part
    requires forall id | id in part :: Deps(g, id) == part[id]
    ensures Chain(part, p)
    decreases |p|
  {
    if |p| > 1 {
      ChainInPart(g, part, p[1..]);
    }
  }

  /** Items that depend only on the closed acyclic part known before close no cycle. */
  lemma ExtensionIsAcyclic(g: Graph, part: Graph)
    requires Closed(part) && Acyclic(part)
    requires forall id | id in part :: Deps(g, id) == part[id]
    requires forall id :: Deps(g, id) <= part.Keys
    ensures Acyclic(g)
  {
    forall id ensures !DependsOn(g, id, id) {
      if p :| ChainFrom(g, p, id, id) {
        ClosedSetsHoldChains(g, part.Keys, p);
        ChainInPart(g, part, p);
        assert ChainFrom(part, p, id, id);
        assert DependsOn(part, id, id);
      }
    }
  }

  lemma IdIsMember(items: seq<Item>, x: Item)
    requires x in items
    ensures x.id in IdsOf(items)
  {
  }

  lemma GraphOfIs(known: map<Id, Item>)
    ensures GraphOf(known).Keys == known.Keys && forall id | id in known :: GraphOf(known)[id] == known[id].dependsOn
  {
  }

  /** What the graph is once a bundle that changes nothing known is merged. */
  lemma MergedGraph(st: Published, items: seq<Item>)
    requires |IdsOf(items)| == |items|
    requires forall x | x in items :: !Mutates(st.known, x)
    ensures
      var g, part := GraphOf(Merged(st.known, items)), GraphOf(st.known);
      && g.Keys == part.Keys + IdsOf(items)
      && (forall id | id in part :: g[id] == part[id])
      && (forall id | id in IdsOf(items) :: exists x :: x in items && x.id == id && g[id] == x.dependsOn)
  {
    hide Merged, IdsOf, Mutates, GraphOf;
    MergedOutside(st.known, items);
    GraphOfIs(st.known);
    GraphOfIs(Merged(st.known, items));
    forall id | id in IdsOf(items)
      ensures exists x :: x in items && x.id == id && GraphOf(Merged(st.known, items))[id] == x.dependsOn
      ensures id in st.known ==> Merged(st.known, items)[id] == st.known[id]
    {
      var x := MergedUnder(st, items, id);
    }
  }

  lemma MergedUnder(st: Published, items: seq<Item>, id: Id) returns (x: Item)
    requires |IdsOf(items)| == |items| && id in IdsOf(items)
    requires forall x | x in items :: !Mutates(st.known, x)
    ensures x in items && x.id == id && id in Merged(st.known, items) && Merged(st.known, items)[id] == x
    ensures id in st.known ==> st.known[id] == x
  {
    hide Merged, IdsOf;
    MergedInside(st.known, items);
    x := WithId(items, id);
  }

  lemma MergedIsAcyclic(st: Published, items: seq<Item>)
    requires Sound(st) && |IdsOf(items)| == |items|
    requires forall x | x in items :: x.dependsOn !! IdsOf(items) && !Mutates(st.known, x)
    ensures
      var g := GraphOf(Merged(st.known, items));
      && (Closed(g) ==> Acyclic(g))
      && (forall id | id in g :: id !in g[id])
      && (Closed(g) <==> forall x | x in items :: x.dependsOn <= st.known.Keys)
  {
    hide Merged, IdsOf, Acyclic, Mutates, GraphOf;
    var g, part := GraphOf(Merged(st.known, items)), GraphOf(st.known);
    GraphOfIs(st.known);
    MergedGraph(st, items);
    AcyclicHasNoSelfLoop(part);
    forall id | id in IdsOf(items) && Closed(g) ensures g[id] <= part.Keys {
      var x :| x in items && x.id == id && g[id] == x.dependsOn;
    }
    forall x | x in items ensures x.id in IdsOf(items) && g[x.id] == x.dependsOn {
      IdIsMember(items, x);
      MergedInside(st.known, items);
      GraphOfIs(Merged(st.known, items));
    }
    if Closed(g) {
      ExtensionIsAcyclic(g, part);
    }
  }

  /** On what publishing has left, the two cycle checks never fire, and the graph conditions follow
      from the others: the bundle and its predecessors decide alone. */
  lemma CyclesNeverForm(st: Published, given: seq<Item>)
    requires Sound(st)
    ensures SelfCycle !in PublishDefects(st, given) && DependencyCycle !in PublishDefects(st, given)
    ensures Publishable(st, given) <==>
              && 1 <= |given| == |IdsOf(given)| <= MAX_BUNDLE_ITEMS
              && forall x | x in given :: SoundItem(st, x, IdsOf(given))
  {
    NoCycleIsReported(st, given);
    hide PublishDefects, Merged, Acyclic, GraphOf, IdsOf, Closed, Mutates;
    if |given| == |IdsOf(given)| && forall x | x in given :: SoundItem(st, x, IdsOf(given)) {
      MergedIsAcyclic(st, given);
    }
  }

  lemma NoCycleIsReported(st: Published, given: seq<Item>)
    requires Sound(st)
    ensures SelfCycle !in PublishDefects(st, given) && DependencyCycle !in PublishDefects(st, given)
  {
    hide Merged, Acyclic, GraphOf, IdsOf, BundleDefect, Closed, InIdOrder, Mutates, ItemDefect, Sound;
    var items := InIdOrder(given);
    BundleDefectIff(items, IdsOf(items));
    if |IdsOf(items)| == |items| && BundleDefect(items, IdsOf(items)).None?
       && forall x | x in items :: !Mutates(st.known, x) {
      forall x | x in items ensures x.dependsOn !! IdsOf(items) {
        PassedIsDisjoint(x, IdsOf(items));
      }
      MergedIsAcyclic(st, items);
    }
  }

  lemma PassedIsDisjoint(x: Item, members: set<Id>)
    requires ItemDefect(x, members) == None
    ensures x.dependsOn !! members
  {
    DisjointIff(members, x.dependsOn);
  }

  /** What is known stays sound under every bundle published, and nothing known is changed. */
  lemma PublishingKeepsSound(st: Published, items: seq<Item>)
    requires Sound(st) && Publishable(st, items)
    ensures Sound(st.(known := Merged(st.known, items)))
    ensures forall id | id in st.known :: id in Merged(st.known, items) && Merged(st.known, items)[id] == st.known[id]
    ensures forall x | x in items :: x.id in Merged(st.known, items) && Merged(st.known, items)[x.id] == x
  {
    hide Acyclic, Closed, Merged, IdsOf, Mutates;
    MergedOutside(st.known, items);
    MergedInside(st.known, items);
    forall x | x in items ensures !Mutates(st.known, x) {
      assert SoundItem(st, x, IdsOf(items));
    }
    forall id | id in st.known ensures Merged(st.known, items)[id] == st.known[id] {
      if id in IdsOf(items) {
        var x := MergedUnder(st, items, id);
      }
    }
  }

  // ---- every history of publishing and answering ----

  /** A bundle is offered for publication, or the items with an effective decision become `items`. */
  datatype Move = Offer(bundle: seq<Item>) | Answer(items: set<Id>)

  ghost function After(moves: seq<Move>): Published {
    if moves == [] then Published(map[], {})
    else Moved(After(moves[..|moves| - 1]), moves[|moves| - 1])
  }

  ghost function Moved(st: Published, move: Move): Published {
    match move
    case Offer(bundle) =>
      if PublishDefects(st, bundle) == {} then st.(known := Merged(st.known, bundle)) else st
    case Answer(items) => st.(effective := items * st.known.Keys)
  }

  /** Move `k` published `x`, all of whose predecessors carried an effective decision then. */
  ghost predicate PublishedAt(moves: seq<Move>, k: nat, x: Item)
    requires k < |moves|
  {
    && moves[k].Offer? && x in moves[k].bundle
    && x.dependsOn <= After(moves[..k]).effective <= After(moves[..k]).known.Keys
    && x.id !in After(moves[..k]).known
  }

  /** Over any history, whatever is offered and whatever is answered or withdrawn: the known
      dependencies stay closed and acyclic, and every known item was published once, in the form it
      still has, at a moment when all its predecessors were published and effective. */
  lemma {:induction false} QuestionsWaitForPredecessors(moves: seq<Move>)
    ensures Sound(After(moves))
    ensures forall id | id in After(moves).known ::
              After(moves).known[id].id == id
              && exists k | 0 <= k < |moves| :: PublishedAt(moves, k, After(moves).known[id])
    decreases |moves|
  {
    hide Sound, PublishedAt, Moved;
    if moves == [] {
      NothingIsSound();
    } else {
      var n := |moves| - 1;
      var before := moves[..n];
      QuestionsWaitForPredecessors(before);
      MoveKeeps(After(before), moves[n]);
      forall id | id in After(moves).known
        ensures After(moves).known[id].id == id
        ensures exists k | 0 <= k < |moves| :: PublishedAt(moves, k, After(moves).known[id])
      {
        var x := After(moves).known[id];
        if id in After(before).known {
          var k :| 0 <= k < n && PublishedAt(before, k, x);
          StillPublished(moves, n, k, x);
        } else {
          PublishedLast(moves, id);
        }
      }
    }
  }

  lemma NothingIsSound()
    ensures Sound(Published(map[], {}))
  {
    var g := GraphOf(map[]);
    forall id ensures !DependsOn(g, id, id) {
      assert forall p :: !ChainFrom(g, p, id, id);
    }
  }

  /** One move keeps what is known sound and unchanged; what it adds is the offered bundle. */
  lemma MoveKeeps(st: Published, move: Move)
    requires Sound(st)
    ensures
      var st' := Moved(st, move);
      && Sound(st')
      && (forall id | id in st.known :: id in st'.known && st'.known[id] == st.known[id])
      && (forall id | id in st'.known && id !in st.known ::
            move.Offer? && Publishable(st, move.bundle) && st'.known[id] in move.bundle && st'.known[id].id == id)
  {
    hide PublishDefects, Publishable, Merged, Acyclic, Closed;
    if move.Offer? && PublishDefects(st, move.bundle) == {} {
      PublishesIff(st, move.bundle);
      BundleKeeps(st, move.bundle);
    }
  }

  lemma BundleKeeps(st: Published, items: seq<Item>)
    requires Sound(st) && Publishable(st, items)
    ensures
      var known' := Merged(st.known, items);
      && Sound(st.(known := known'))
      && (forall id | id in st.known :: id in known' && known'[id] == st.known[id])
      && (forall id | id in known' && id !in st.known :: known'[id] in items && known'[id].id == id)
  {
    hide Merged, IdsOf, Publishable, Sound;
    OneEach(st, items);
    PublishingKeepsSound(st, items);
    MergedOutside(st.known, items);
    forall id | id in IdsOf(items)
      ensures id in Merged(st.known, items)
      ensures Merged(st.known, items)[id] in items && Merged(st.known, items)[id].id == id
    {
      var x := WithId(items, id);
    }
  }

  lemma OneEach(st: Published, items: seq<Item>)
    requires Publishable(st, items)
    ensures |IdsOf(items)| == |items|
  {
  }

  lemma StillPublished(moves: seq<Move>, n: nat, k: nat, x: Item)
    requires k < n <= |moves| && PublishedAt(moves[..n], k, x)
    ensures PublishedAt(moves, k, x)
  {
    assert moves[..n][..k] == moves[..k];
  }

  lemma PublishedLast(moves: seq<Move>, id: Id)
    requires moves != [] && Sound(After(moves[..|moves| - 1]))
    requires id in After(moves).known && id !in After(moves[..|moves| - 1]).known
    ensures After(moves).known[id].id == id && PublishedAt(moves, |moves| - 1, After(moves).known[id])
  {
    MoveKeeps(After(moves[..|moves| - 1]), moves[|moves| - 1]);
  }
}
