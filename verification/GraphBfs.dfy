/** Breadth-first search over nodes that name their neighbours by index. */
module GraphBfs {
  import opened DistinctIndices
  import opened Options

  datatype Node = Node(value: nat, neighbors: seq<nat>)

  /** `bfs` looks at `v` from `u`: `v` need not be an index of a node. */
  predicate Edge(nodes: seq<Node>, u: nat, v: nat) {
    u < |nodes| && v in nodes[u].neighbors
  }

  /** A walk of `d` edges leads from `start` to `v`. */
  ghost predicate Walk(nodes: seq<Node>, start: nat, v: nat, d: nat)
    decreases d
  {
    if d == 0 then v == start
    else exists u: nat :: Walk(nodes, start, u, d - 1) && Edge(nodes, u, v)
  }

  ghost predicate Reachable(nodes: seq<Node>, start: nat, v: nat) {
    exists d: nat :: Walk(nodes, start, v, d)
  }

  /** `d` is the length of a shortest walk. */
  ghost predicate Distance(nodes: seq<Node>, start: nat, v: nat, d: nat) {
    Walk(nodes, start, v, d) && forall e: nat :: Walk(nodes, start, v, e) ==> d <= e
  }

  /** Something reachable is not an index, so a bounds check fails. */
  ghost predicate Dangling(nodes: seq<Node>, start: nat) {
    exists v: nat :: Reachable(nodes, start, v) && v >= |nodes|
  }

  /** Indices found so far, in order, with the length of the walk found to each. */
  ghost predicate Found(nodes: seq<Node>, start: nat, found: seq<nat>, dist: seq<nat>) {
    && |found| == |dist| > 0 && found[0] == start && dist[0] == 0
    && Distinct(found)
    && (forall i :: 0 <= i < |found| ==> found[i] < |nodes| && Walk(nodes, start, found[i], dist[i]))
    && (forall i, j :: 0 <= i <= j < |found| ==> dist[i] <= dist[j])
  }

  /** `v` was found by a walk of at most `d` edges. */
  ghost predicate FoundBy(found: seq<nat>, dist: seq<nat>, v: nat, d: nat) {
    exists j :: 0 <= j < |found| && j < |dist| && found[j] == v && dist[j] <= d
  }

  /** The first `m` neighbours of the `i`th found node have been found one step further. */
  ghost predicate Expanded(nodes: seq<Node>, found: seq<nat>, dist: seq<nat>, i: nat, m: nat)
    requires i < |found| == |dist| && found[i] < |nodes| && m <= |nodes[found[i]].neighbors|
  {
    forall q :: 0 <= q < m ==> FoundBy(found, dist, nodes[found[i]].neighbors[q], dist[i] + 1)
  }

  /** The first `k` found nodes are expanded completely, and no walk is more
      than one edge longer than the one to the node that is next. */
  ghost predicate Searching(nodes: seq<Node>, start: nat, found: seq<nat>, dist: seq<nat>, k: nat) {
    && Found(nodes, start, found, dist)
    && k <= |found|
    && (forall i :: 0 <= i < k ==> Expanded(nodes, found, dist, i, |nodes[found[i]].neighbors|))
    && (k < |found| ==> forall i :: 0 <= i < |found| ==> dist[i] <= dist[k] + 1)
  }

  /** The visited flags mark exactly the indices found. */
  ghost predicate Marks(visited: seq<bool>, found: seq<nat>) {
    forall i :: 0 <= i < |visited| ==> (visited[i] <==> i in found)
  }

  lemma ExpandedGrows(nodes: seq<Node>, found: seq<nat>, dist: seq<nat>, i: nat, m: nat, v: nat, d: nat)
    requires i < |found| == |dist| && found[i] < |nodes| && m <= |nodes[found[i]].neighbors|
    requires Expanded(nodes, found, dist, i, m)
    ensures Expanded(nodes, found + [v], dist + [d], i, m)
  {
    forall q | 0 <= q < m ensures FoundBy(found + [v], dist + [d], nodes[found[i]].neighbors[q], dist[i] + 1) {
      var w := nodes[found[i]].neighbors[q];
      assert FoundBy(found, dist, w, dist[i] + 1);
      var j :| 0 <= j < |found| && j < |dist| && found[j] == w && dist[j] <= dist[i] + 1;
      assert (found + [v])[j] == w && (dist + [d])[j] == dist[j];
    }
  }

  /** Enqueueing an unseen neighbour of the node being expanded. */
  lemma EnqueueKeepsSearching(nodes: seq<Node>, start: nat, found: seq<nat>, dist: seq<nat>, k: nat, v: nat)
    requires Searching(nodes, start, found, dist, k) && k < |found|
    requires Edge(nodes, found[k], v) && v < |nodes| && v !in found
    ensures Searching(nodes, start, found + [v], dist + [dist[k] + 1], k)
  {
    var found', dist' := found + [v], dist + [dist[k] + 1];
    assert Walk(nodes, start, found[k], dist[k]);
    assert Walk(nodes, start, v, dist[k] + 1);
    forall i | 0 <= i < k ensures Expanded(nodes, found', dist', i, |nodes[found'[i]].neighbors|) {
      ExpandedGrows(nodes, found, dist, i, |nodes[found[i]].neighbors|, v, dist[k] + 1);
    }
  }

  /** The search while the `k`th found node has its first `m` neighbours looked at. */
  ghost predicate Expanding(nodes: seq<Node>, start: nat, found: seq<nat>, dist: seq<nat>, k: nat, m: nat) {
    && Searching(nodes, start, found, dist, k)
    && k < |found| && m <= |nodes[found[k]].neighbors|
    && Expanded(nodes, found, dist, k, m)
  }

  lemma SeenNeighbor(nodes: seq<Node>, start: nat, found: seq<nat>, dist: seq<nat>, k: nat, m: nat)
    requires Expanding(nodes, start, found, dist, k, m) && m < |nodes[found[k]].neighbors|
    requires nodes[found[k]].neighbors[m] in found
    ensures Expanding(nodes, start, found, dist, k, m + 1)
  {
    var v := nodes[found[k]].neighbors[m];
    var j :| 0 <= j < |found| && found[j] == v;
    assert dist[j] <= dist[k] + 1;
    assert FoundBy(found, dist, v, dist[k] + 1);
  }

  lemma UnseenNeighbor(nodes: seq<Node>, start: nat, found: seq<nat>, dist: seq<nat>, k: nat, m: nat)
    requires Expanding(nodes, start, found, dist, k, m) && m < |nodes[found[k]].neighbors|
    requires nodes[found[k]].neighbors[m] !in found && nodes[found[k]].neighbors[m] < |nodes|
    ensures Expanding(nodes, start, found + [nodes[found[k]].neighbors[m]], dist + [dist[k] + 1], k, m + 1)
  {
    var v := nodes[found[k]].neighbors[m];
    EnqueueKeepsSearching(nodes, start, found, dist, k, v);
    ExpandedGrows(nodes, found, dist, k, m, v, dist[k] + 1);
    assert (found + [v])[|found|] == v && (dist + [dist[k] + 1])[|found|] == dist[k] + 1;
    assert FoundBy(found + [v], dist + [dist[k] + 1], v, dist[k] + 1);
  }

  lemma NextNode(nodes: seq<Node>, start: nat, found: seq<nat>, dist: seq<nat>, k: nat)
    requires Searching(nodes, start, found, dist, k) && k < |found|
    requires Expanded(nodes, found, dist, k, |nodes[found[k]].neighbors|)
    ensures Searching(nodes, start, found, dist, k + 1)
  {
  }

  /** A neighbour that is not an index. */
  lemma BadNeighbor(nodes: seq<Node>, start: nat, found: seq<nat>, dist: seq<nat>, k: nat, v: nat)
    requires Found(nodes, start, found, dist) && k < |found| && Edge(nodes, found[k], v) && v >= |nodes|
    ensures Dangling(nodes, start)
  {
    assert Walk(nodes, start, found[k], dist[k]);
    assert Walk(nodes, start, v, dist[k] + 1);
    assert Reachable(nodes, start, v);
  }

  /** When every found node is expanded, every walk ends in a found node, and
      none is shorter than the walk found. */
  lemma {:induction false} SearchIsComplete(nodes: seq<Node>, start: nat, found: seq<nat>, dist: seq<nat>,
                                            v: nat, d: nat)
    requires Searching(nodes, start, found, dist, |found|) && Walk(nodes, start, v, d)
    ensures FoundBy(found, dist, v, d)
    decreases d
  {
    if d == 0 {
      assert found[0] == v;
    } else {
      var u: nat :| Walk(nodes, start, u, d - 1) && Edge(nodes, u, v);
      SearchIsComplete(nodes, start, found, dist, u, d - 1);
      var j :| 0 <= j < |found| && j < |dist| && found[j] == u && dist[j] <= d - 1;
      var q :| 0 <= q < |nodes[u].neighbors| && nodes[u].neighbors[q] == v;
      assert Expanded(nodes, found, dist, j, |nodes[u].neighbors|);
      assert FoundBy(found, dist, v, dist[j] + 1);
    }
  }

  /** What a finished search has found: the reachable indices, each at its
      shortest distance. */
  lemma SearchMeaning(nodes: seq<Node>, start: nat, found: seq<nat>, dist: seq<nat>)
    requires Searching(nodes, start, found, dist, |found|)
    ensures forall v: nat :: Reachable(nodes, start, v) <==> v in found
    ensures forall i :: 0 <= i < |found| ==> Distance(nodes, start, found[i], dist[i])
    ensures !Dangling(nodes, start)
  {
    forall v: nat ensures Reachable(nodes, start, v) <==> v in found {
      if Reachable(nodes, start, v) {
        var d: nat :| Walk(nodes, start, v, d);
        SearchIsComplete(nodes, start, found, dist, v, d);
      }
      if v in found {
        var i :| 0 <= i < |found| && found[i] == v;
        assert Walk(nodes, start, v, dist[i]);
      }
    }
    forall i | 0 <= i < |found| ensures Distance(nodes, start, found[i], dist[i]) {
      forall e: nat | Walk(nodes, start, found[i], e) ensures dist[i] <= e {
        SearchIsComplete(nodes, start, found, dist, found[i], e);
        var j :| 0 <= j < |found| && j < |dist| && found[j] == found[i] && dist[j] <= e;
        assert j == i;
      }
    }
  }

  /** Visit order `visits`: the reachable indices, each once, nearest first. */
  ghost predicate BreadthFirst(nodes: seq<Node>, start: nat, visits: seq<nat>) {
    && Distinct(visits)
    && (forall v: nat :: v in visits <==> Reachable(nodes, start, v))
    && (forall i, j, d: nat, e: nat :: (0 <= i <= j < |visits|
          && Distance(nodes, start, visits[i], d) && Distance(nodes, start, visits[j], e)) ==> d <= e)
  }

  lemma DistancesOrdered(nodes: seq<Node>, start: nat, found: seq<nat>, dist: seq<nat>)
    requires Found(nodes, start, found, dist)
    requires forall i :: 0 <= i < |found| ==> Distance(nodes, start, found[i], dist[i])
    requires forall v: nat :: Reachable(nodes, start, v) <==> v in found
    ensures BreadthFirst(nodes, start, found)
  {
    forall i, j, d: nat, e: nat |
      0 <= i <= j < |found| && Distance(nodes, start, found[i], d) && Distance(nodes, start, found[j], e)
      ensures d <= e
    {
      assert Distance(nodes, start, found[i], dist[i]) && Distance(nodes, start, found[j], dist[j]);
    }
  }

  lemma FinishedSearch(nodes: seq<Node>, start: nat, found: seq<nat>, dist: seq<nat>)
    requires Searching(nodes, start, found, dist, |found|)
    ensures BreadthFirst(nodes, start, found) && !Dangling(nodes, start)
  {
    SearchMeaning(nodes, start, found, dist);
    DistancesOrdered(nodes, start, found, dist);
  }

  // ----- the order among nodes at one distance -----

  /** The neighbour lists of the first `k` visits, one after the other. */
  function Looked(nodes: seq<Node>, visits: seq<nat>, k: nat): seq<nat>
    requires k <= |visits|
  {
    if k == 0 then []
    else
      var u := visits[k - 1];
      Looked(nodes, visits, k - 1) + if u < |nodes| then nodes[u].neighbors else []
  }

  /** `found`, then the first occurrences of what of `more[..n]` is not in it. */
  function Extended(found: seq<nat>, more: seq<nat>, n: nat): seq<nat>
    requires n <= |more|
  {
    if n == 0 then found
    else
      var before := Extended(found, more, n - 1);
      if more[n - 1] in before then before else before + [more[n - 1]]
  }

  /** The first occurrence of every element, in order. */
  function Firsts(s: seq<nat>): seq<nat> {
    Extended([], s, |s|)
  }

  /** `v` stands at `p` in `s` and nowhere before. */
  predicate FirstAt(s: seq<nat>, v: nat, p: nat) {
    p < |s| && s[p] == v && forall q :: 0 <= q < p ==> s[q] != v
  }

  /** `v` is among the first `n` of `s`. */
  ghost predicate Among(s: seq<nat>, v: nat, n: nat) {
    exists p :: 0 <= p < n && FirstAt(s, v, p)
  }

  /** Where `u` first stands is before where `v` does. */
  ghost predicate Earlier(s: seq<nat>, u: nat, v: nat) {
    forall p, q :: FirstAt(s, u, p) && FirstAt(s, v, q) ==> p < q
  }

  /** `found` lists the elements of `s[..n]`, each once, by first occurrence. */
  ghost predicate ListsFirsts(found: seq<nat>, s: seq<nat>, n: nat)
    requires n <= |s|
  {
    && Distinct(found)
    && (forall i :: 0 <= i < |found| ==> Among(s, found[i], n))
    && (forall p :: 0 <= p < n ==> s[p] in found)
    && (forall i, j :: 0 <= i < j < |found| ==> Earlier(s, found[i], found[j]))
  }

  lemma OnePlace(s: seq<nat>, v: nat, p: nat, q: nat)
    requires FirstAt(s, v, p) && FirstAt(s, v, q)
    ensures p == q
  {
  }

  lemma AmongMore(s: seq<nat>, v: nat, n: nat)
    requires n < |s| && Among(s, v, n)
    ensures Among(s, v, n + 1) && (v != s[n] && (forall q :: 0 <= q < n ==> s[q] != s[n]) ==> Earlier(s, v, s[n]))
  {
    var p :| 0 <= p < n && FirstAt(s, v, p);
    forall p', q | FirstAt(s, v, p') && FirstAt(s, s[n], q) && (forall q :: 0 <= q < n ==> s[q] != s[n])
      ensures p' < q
    {
      OnePlace(s, v, p, p');
    }
  }

  lemma ListsSeen(found: seq<nat>, s: seq<nat>, n: nat)
    requires n < |s| && ListsFirsts(found, s, n) && s[n] in found
    ensures ListsFirsts(found, s, n + 1)
  {
    forall i | 0 <= i < |found| ensures Among(s, found[i], n + 1) {
      AmongMore(s, found[i], n);
    }
  }

  lemma ListsNew(found: seq<nat>, s: seq<nat>, n: nat)
    requires n < |s| && ListsFirsts(found, s, n) && s[n] !in found
    ensures ListsFirsts(found + [s[n]], s, n + 1)
  {
    var found' := found + [s[n]];
    assert FirstAt(s, s[n], n);
    assert Among(s, s[n], n + 1) && found'[|found|] == s[n];
    forall i | 0 <= i < |found| ensures Among(s, found'[i], n + 1) && Earlier(s, found'[i], s[n]) {
      assert found'[i] == found[i];
      AmongMore(s, found[i], n);
    }
    forall i, j | 0 <= i < j < |found'| ensures Earlier(s, found'[i], found'[j]) {
      if j < |found| {
        assert Earlier(s, found[i], found[j]);
      }
    }
    forall p | 0 <= p < n + 1 ensures s[p] in found' {
      assert p < n ==> s[p] in found;
    }
  }

  lemma {:induction false} ExtendedLists(s: seq<nat>, n: nat)
    requires n <= |s|
    ensures ListsFirsts(Extended([], s, n), s, n)
  {
    if n > 0 {
      var before := Extended([], s, n - 1);
      ExtendedLists(s, n - 1);
      if s[n - 1] in before {
        ListsSeen(before, s, n - 1);
      } else {
        ListsNew(before, s, n - 1);
      }
    }
  }

  /** What `Firsts` lists. */
  lemma FirstsMeaning(s: seq<nat>)
    ensures ListsFirsts(Firsts(s), s, |s|)
  {
    ExtendedLists(s, |s|);
  }

  lemma {:induction false} ExtendedAgain(found: seq<nat>, s: seq<nat>, more: seq<nat>, n: nat)
    requires n <= |more|
    ensures Extended(Extended(found, s, |s|), more, n) == Extended(found, s + more, |s| + n)
  {
    if n > 0 {
      ExtendedAgain(found, s, more, n - 1);
      assert (s + more)[|s| + n - 1] == more[n - 1];
    } else {
      ExtendedPrefix(found, s, more, |s|);
    }
  }

  lemma {:induction false} ExtendedPrefix(found: seq<nat>, s: seq<nat>, more: seq<nat>, n: nat)
    requires n <= |s|
    ensures Extended(found, s + more, n) == Extended(found, s, n)
  {
    if n > 0 {
      ExtendedPrefix(found, s, more, n - 1);
      assert (s + more)[n - 1] == s[n - 1];
    }
  }

  lemma {:induction false} LookedGrows(nodes: seq<Node>, found: seq<nat>, more: seq<nat>, k: nat)
    requires k <= |found| <= |more| && forall i :: 0 <= i < |found| ==> more[i] == found[i]
    ensures Looked(nodes, more, k) == Looked(nodes, found, k)
  {
    if k > 0 {
      LookedGrows(nodes, found, more, k - 1);
    }
  }

  /** What has been looked at: the start, then the neighbours of the first `k`
      nodes found. */
  function Seen(nodes: seq<Node>, start: nat, found: seq<nat>, k: nat): seq<nat>
    requires k <= |found|
  {
    [start] + Looked(nodes, found, k)
  }

  /** What has been found is, in order, what has been looked at first. */
  ghost predicate InOrder(nodes: seq<Node>, start: nat, found: seq<nat>, k: nat) {
    k <= |found| && Firsts(Seen(nodes, start, found, k)) == found
  }

  lemma StartsInOrder(nodes: seq<Node>, start: nat)
    ensures InOrder(nodes, start, [start], 0)
  {
    assert Seen(nodes, start, [start], 0) == [start];
    assert Extended([], [start], 0) == [];
    assert Firsts([start]) == [start];
  }

  lemma SeenMore(nodes: seq<Node>, start: nat, found: seq<nat>, k: nat, found': seq<nat>)
    requires k < |found| <= |found'| && found[k] < |nodes| && forall i :: 0 <= i < |found| ==> found'[i] == found[i]
    ensures Seen(nodes, start, found', k + 1) == Seen(nodes, start, found, k) + nodes[found[k]].neighbors
  {
    LookedGrows(nodes, found, found', k + 1);
  }

  lemma FirstsOf(s: seq<nat>, found: seq<nat>, more: seq<nat>)
    requires Firsts(s) == found
    ensures Firsts(s + more) == Extended(found, more, |more|)
  {
    ExtendedAgain([], s, more, |more|);
  }

  lemma MarkNew(visited: seq<bool>, visited': seq<bool>, found: seq<nat>, n: nat)
    requires Marks(visited, found) && n < |visited| && visited' == visited[n := true]
    ensures Marks(visited', found + [n])
  {
    assert (found + [n])[|found|] == n;
  }

  // ----- the search by values -----

  lemma {:induction false} ExtendedGrows(found: seq<nat>, more: seq<nat>, n: nat)
    requires n <= |more|
    ensures found <= Extended(found, more, n)
  {
    if n > 0 {
      ExtendedGrows(found, more, n - 1);
    }
  }

  /** Looking at the first `m` neighbours of the `k`th node, all of them indices. */
  lemma {:induction false} ExpandsTo(nodes: seq<Node>, start: nat, found: seq<nat>, dist: seq<nat>, k: nat, m: nat)
    returns (dist': seq<nat>)
    requires Searching(nodes, start, found, dist, k) && k < |found| && m <= |nodes[found[k]].neighbors|
    requires forall q :: 0 <= q < m ==> nodes[found[k]].neighbors[q] < |nodes|
    ensures Expanding(nodes, start, Extended(found, nodes[found[k]].neighbors, m), dist', k, m)
    ensures found <= Extended(found, nodes[found[k]].neighbors, m)
  {
    var ns := nodes[found[k]].neighbors;
    ExtendedGrows(found, ns, m);
    if m == 0 {
      dist' := dist;
    } else {
      var before := Extended(found, ns, m - 1);
      var dist1 := ExpandsTo(nodes, start, found, dist, k, m - 1);
      if ns[m - 1] in before {
        SeenNeighbor(nodes, start, before, dist1, k, m - 1);
        dist' := dist1;
      } else {
        UnseenNeighbor(nodes, start, before, dist1, k, m - 1);
        dist' := dist1 + [dist1[k] + 1];
      }
    }
  }

  predicate AllIndices(nodes: seq<Node>, ns: seq<nat>) {
    forall q :: 0 <= q < |ns| ==> ns[q] < |nodes|
  }

  /** `found'` is what is found once the `k`th node of `found` is expanded. */
  predicate Expands(nodes: seq<Node>, found: seq<nat>, k: nat, found': seq<nat>) {
    && k < |found| && found[k] < |nodes| && AllIndices(nodes, nodes[found[k]].neighbors)
    && found' == Extended(found, nodes[found[k]].neighbors, |nodes[found[k]].neighbors|)
  }

  predicate TrailStep(nodes: seq<Node>, trail: seq<seq<nat>>, k: nat)
    requires k + 1 < |trail|
  {
    Expands(nodes, trail[k], k, trail[k + 1])
  }

  /** The stages of a search from `start`. */
  ghost predicate Trail(nodes: seq<Node>, start: nat, trail: seq<seq<nat>>) {
    && start < |nodes| && |trail| > 0 && trail[0] == [start]
    && forall k {:trigger TrailStep(nodes, trail, k)} :: 0 <= k < |trail| - 1 ==> TrailStep(nodes, trail, k)
  }

  /** `found` is what some search has found when `k` nodes are expanded. */
  ghost predicate Stage(nodes: seq<Node>, start: nat, found: seq<nat>, k: nat) {
    exists trail :: Trail(nodes, start, trail) && |trail| == k + 1 && trail[k] == found
  }

  lemma NextDistances(nodes: seq<Node>, start: nat, found: seq<nat>, dist: seq<nat>, k: nat, found': seq<nat>)
    returns (dist': seq<nat>)
    requires Searching(nodes, start, found, dist, k) && Expands(nodes, found, k, found')
    ensures Searching(nodes, start, found', dist', k + 1)
  {
    var ns := nodes[found[k]].neighbors;
    dist' := ExpandsTo(nodes, start, found, dist, k, |ns|);
    NextNode(nodes, start, found', dist', k);
  }

  /** Distances at every stage of the search. */
  lemma {:induction false} TrailDistances(nodes: seq<Node>, start: nat, trail: seq<seq<nat>>, k: nat)
    returns (dist: seq<nat>)
    requires Trail(nodes, start, trail) && k < |trail|
    ensures Searching(nodes, start, trail[k], dist, k)
  {
    if k == 0 {
      dist := [0];
    } else {
      dist := TrailDistances(nodes, start, trail, k - 1);
      assert TrailStep(nodes, trail, k - 1);
      dist := NextDistances(nodes, start, trail[k - 1], dist, k - 1, trail[k]);
    }
  }

  lemma NextOrder(nodes: seq<Node>, start: nat, found: seq<nat>, k: nat, found': seq<nat>)
    requires InOrder(nodes, start, found, k) && Expands(nodes, found, k, found')
    ensures InOrder(nodes, start, found', k + 1)
  {
    var ns := nodes[found[k]].neighbors;
    ExtendedGrows(found, ns, |ns|);
    SeenMore(nodes, start, found, k, found');
    FirstsOf(Seen(nodes, start, found, k), found, ns);
  }

  /** The order at every stage of the search. */
  lemma {:induction false} TrailInOrder(nodes: seq<Node>, start: nat, trail: seq<seq<nat>>, k: nat)
    requires Trail(nodes, start, trail) && k < |trail|
    ensures InOrder(nodes, start, trail[k], k)
  {
    if k == 0 {
      StartsInOrder(nodes, start);
    } else {
      TrailInOrder(nodes, start, trail, k - 1);
      assert TrailStep(nodes, trail, k - 1);
      NextOrder(nodes, start, trail[k - 1], k - 1, trail[k]);
    }
  }

  lemma StageStart(nodes: seq<Node>, start: nat)
    requires start < |nodes|
    ensures Stage(nodes, start, [start], 0)
  {
    assert Trail(nodes, start, [[start]]);
  }

  /** What is found is in range, and there is no more of it than there are nodes. */
  lemma StageFacts(nodes: seq<Node>, start: nat, found: seq<nat>, k: nat)
    requires Stage(nodes, start, found, k)
    ensures k <= |found| <= |nodes| && forall i :: 0 <= i < |found| ==> found[i] < |nodes|
  {
    var trail :| Trail(nodes, start, trail) && |trail| == k + 1 && trail[k] == found;
    var dist := TrailDistances(nodes, start, trail, k);
    AtMostBelow(found, |nodes|);
  }

  lemma TrailExtends(nodes: seq<Node>, start: nat, trail: seq<seq<nat>>, found': seq<nat>)
    requires Trail(nodes, start, trail) && Expands(nodes, trail[|trail| - 1], |trail| - 1, found')
    ensures Trail(nodes, start, trail + [found'])
  {
    var trail' := trail + [found'];
    forall k | 0 <= k < |trail'| - 1 ensures TrailStep(nodes, trail', k) {
      if k < |trail| - 1 {
        assert TrailStep(nodes, trail, k);
      }
    }
  }

  lemma StageStep(nodes: seq<Node>, start: nat, found: seq<nat>, k: nat)
    requires Stage(nodes, start, found, k) && k < |found| && found[k] < |nodes|
    ensures var ns := nodes[found[k]].neighbors;
            && (AllIndices(nodes, ns) ==> Stage(nodes, start, Extended(found, ns, |ns|), k + 1))
            && (!AllIndices(nodes, ns) ==> Dangling(nodes, start))
  {
    var trail :| Trail(nodes, start, trail) && |trail| == k + 1 && trail[k] == found;
    var ns := nodes[found[k]].neighbors;
    if AllIndices(nodes, ns) {
      TrailExtends(nodes, start, trail, Extended(found, ns, |ns|));
    } else {
      var dist := TrailDistances(nodes, start, trail, k);
      var m :| 0 <= m < |ns| && ns[m] >= |nodes|;
      BadNeighbor(nodes, start, found, dist, k, ns[m]);
    }
  }

  /** `values` are those of the first nodes found. */
  ghost predicate ValuesOf(nodes: seq<Node>, found: seq<nat>, values: seq<nat>) {
    |values| <= |found| && forall i :: 0 <= i < |values| ==> found[i] < |nodes| && values[i] == nodes[found[i]].value
  }

  /** `values` are those of the indices `visits`: the reachable ones, each once,
      nearest first, and in the order in which they were first looked at. */
  ghost predicate Answers(nodes: seq<Node>, start: nat, visits: seq<nat>, values: seq<nat>) {
    && BreadthFirst(nodes, start, visits) && InOrder(nodes, start, visits, |visits|)
    && |values| == |visits| && ValuesOf(nodes, visits, values)
  }

  lemma StageEnds(nodes: seq<Node>, start: nat, found: seq<nat>, values: seq<nat>)
    requires Stage(nodes, start, found, |found|) && ValuesOf(nodes, found, values) && |values| == |found|
    ensures Answers(nodes, start, found, values) && !Dangling(nodes, start)
  {
    var trail :| Trail(nodes, start, trail) && |trail| == |found| + 1 && trail[|found|] == found;
    var dist := TrailDistances(nodes, start, trail, |found|);
    FinishedSearch(nodes, start, found, dist);
    TrailInOrder(nodes, start, trail, |found|);
  }

  lemma NextValue(nodes: seq<Node>, found: seq<nat>, added: seq<nat>, values: seq<nat>)
    requires ValuesOf(nodes, found, values) && |values| < |found| && found[|values|] < |nodes|
    ensures ValuesOf(nodes, found + added, values + [nodes[found[|values|]].value])
  {
  }

  // ----- the search in place -----

  lemma Behind(found: seq<nat>, added: seq<nat>, k: nat)
    requires k < |found|
    ensures (found + added)[k + 1..] == found[k..][1..] + added
  {
  }

  /** The inner loop of `bfs`: mark and enqueue the unseen neighbours of a node,
      up to one that is not an index. */
  method Expand(nodes: seq<Node>, visited: array<bool>, neighbors: seq<nat>, waiting: seq<nat>, ghost found: seq<nat>)
    returns (ok: bool, queue: seq<nat>, ghost added: seq<nat>)
    requires visited.Length == |nodes| && Marks(visited[..], found)
    modifies visited
    ensures ok <==> AllIndices(nodes, neighbors)
    ensures ok ==> Extended(found, neighbors, |neighbors|) == found + added
    ensures ok ==> queue == waiting + added && Marks(visited[..], found + added)
  {
    queue, added := waiting, [];
    assert found + [] == found;
    for m := 0 to |neighbors|
      invariant forall q :: 0 <= q < m ==> neighbors[q] < |nodes|
      invariant Extended(found, neighbors, m) == found + added
      invariant queue == waiting + added && Marks(visited[..], found + added)
    {
      var n := neighbors[m];
      if n >= |nodes| {
        return false, queue, added;
      }
      if !visited[n] {
        ghost var marks := visited[..];
        visited[n] := true;
        queue := queue + [n];
        MarkNew(marks, visited[..], found + added, n);
        assert found + added + [n] == found + (added + [n]);
        added := added + [n];
      }
    }
    ok := true;
  }

  lemma MarksStart(visited: seq<bool>, start: nat)
    requires start < |visited| && forall i :: 0 <= i < |visited| ==> visited[i] == (i == start)
    ensures Marks(visited, [start])
  {
  }

  /** `bfs`: the values in visit order, or `None` when an index check panics. */
  method Bfs(start: nat, nodes: seq<Node>) returns (order: Option<seq<nat>>, ghost visits: seq<nat>)
    ensures order.None? <==> Dangling(nodes, start)
    ensures order.Some? ==> Answers(nodes, start, visits, order.value)
  {
    if start >= |nodes| {
      assert Walk(nodes, start, start, 0) && Reachable(nodes, start, start);
      return None, [];
    }
    var visited := new bool[|nodes|](_ => false);
    visited[start] := true;
    MarksStart(visited[..], start);
    var queue := [start];
    var values := [];
    ghost var found: seq<nat> := [start];
    StageStart(nodes, start);
    while queue != []
      invariant |values| <= |found| && queue == found[|values|..] && Marks(visited[..], found)
      invariant Stage(nodes, start, found, |values|) && ValuesOf(nodes, found, values)
      decreases |nodes| - |values|
    {
      StageFacts(nodes, start, found, |values|);
      StageStep(nodes, start, found, |values|);
      var idx := queue[0];
      queue := queue[1..];
      ghost var before := values;
      values := values + [nodes[idx].value];
      var ok;
      ghost var added;
      ok, queue, added := Expand(nodes, visited, nodes[idx].neighbors, queue, found);
      if !ok {
        return None, [];
      }
      Behind(found, added, |before|);
      NextValue(nodes, found, added, before);
      found := found + added;
    }
    StageEnds(nodes, start, found, values);
    return Some(values), found;
  }
}
