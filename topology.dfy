/**
 * How many nodes the animation makes and how it groups them into clusters,
 * and which pairs of nodes `initEdges` joins: the pairs i < j whose distance
 * lies in [40, 250), at most a few per node, chosen with supplied random draws.
 * Both variants share these rules; only the distance differs (2D or 3D).
 */
module Topology {

  /** `baseDensity`: one node per 40000 square pixels at density 1. */
  const BaseDensity: real := 40000.0

  /**
   * `Math.floor((width * height) / (baseDensity / density))`; a density of 0
   * makes the divisor Infinity and the count 0.
   */
  function NodeCount(width: real, height: real, density: real): int {
    if density == 0.0 then 0 else ((width * height) / (BaseDensity / density)).Floor
  }

  /** A canvas of non-negative size at a non-negative density asks for a non-negative number of nodes. */
  lemma NodeCountNonNegative(width: real, height: real, density: real)
    requires width >= 0.0 && height >= 0.0 && density >= 0.0
    ensures NodeCount(width, height, density) >= 0
  {
    if density != 0.0 {
      assert BaseDensity / density > 0.0;
      assert width * height >= 0.0;
    }
  }

  /** `Math.floor(nodeCount / 8)`: for the positive divisor 8, Dafny's division rounds down as Math.floor does. */
  function ClusterCount(n: int): int {
    n / 8
  }

  /** `Math.floor(nodeCount * 0.2)` */
  function ScatteredCount(n: int): int {
    (n as real * 0.2).Floor
  }

  /** Fewer than 8 nodes make no cluster, so only the scattered nodes are made. */
  lemma FewNodesNoClusters(n: int)
    requires n < 8
    ensures ClusterCount(n) <= 0
  {
  }

  /** The scattered count is a fifth of the node count, rounded down, and never more than the node count. */
  lemma ScatteredCountBounds(n: int)
    requires n >= 0
    ensures 0 <= ScatteredCount(n) <= n
    ensures ScatteredCount(n) as real <= n as real * 0.2 < ScatteredCount(n) as real + 1.0
  {
  }

  /** `Math.ceil(nodeCount / clusterCount)`, for a positive cluster count. */
  function NodesPerClusterAsWritten(n: int, c: int): int
    requires c > 0
  {
    -((-n) / c)
  }

  /**
   * The sizes `initNodes` gives the clusters: every cluster the rounded-up
   * share, and the last one what is left of the node count.
   */
  function ClusterSizesAsWritten(n: int): (sizes: seq<int>)
    requires ClusterCount(n) > 0
    ensures |sizes| == ClusterCount(n)
  {
    var c := ClusterCount(n);
    var p := NodesPerClusterAsWritten(n, c);
    seq(c, k requires 0 <= k < c => if k == c - 1 then n - k * p else p)
  }

  /**
   * The rounded-down split: every cluster the rounded-down share, and the last
   * one the rest.
   */
  function ClusterSizesFloor(n: int): (sizes: seq<int>)
    requires ClusterCount(n) > 0
    ensures |sizes| == ClusterCount(n)
  {
    var c := ClusterCount(n);
    var p := n / c;
    seq(c, k requires 0 <= k < c => if k == c - 1 then n - k * p else p)
  }

  /**
   * The corrected sizes: the sizes `initNodes` gives whenever its last cluster
   * keeps a non-negative share, and the rounded-down split only when the
   * rounded-up shares of the other clusters already overshoot the node count.
   */
  function ClusterSizes(n: int): (sizes: seq<int>)
    requires ClusterCount(n) > 0
    ensures |sizes| == ClusterCount(n)
    ensures ClusterSizesAsWritten(n)[ClusterCount(n) - 1] >= 0 ==> sizes == ClusterSizesAsWritten(n)
  {
    var written := ClusterSizesAsWritten(n);
    if written[|written| - 1] >= 0 then written else ClusterSizesFloor(n)
  }

  /** How many nodes the clusters hold: all n when there is a cluster (with the corrected sizes), none otherwise. */
  function Clustered(n: int): nat {
    if ClusterCount(n) > 0 then n else 0
  }

  /** How many scattered nodes the loop `for (i = 0; i < scatteredCount; i++)` makes. */
  function Scattered(n: int): nat {
    if ScatteredCount(n) > 0 then ScatteredCount(n) else 0
  }

  /** The nodes the inner loop `for (i = 0; i < size; i++)` makes for each size: none for a negative size. */
  function Made(sizes: seq<int>): int {
    if sizes == [] then 0
    else Made(sizes[..|sizes| - 1]) + (if sizes[|sizes| - 1] > 0 then sizes[|sizes| - 1] else 0)
  }

  /** Made over one more cluster adds that cluster's size. */
  lemma MadeSnoc(sizes: seq<int>, c: nat)
    requires c < |sizes| && sizes[c] >= 0
    ensures Made(sizes[..c + 1]) == Made(sizes[..c]) + sizes[c]
  {
    assert sizes[..c + 1][..c] == sizes[..c];
  }

  lemma {:induction false} MadeConstant(m: nat, p: nat)
    ensures Made(seq(m, k => p)) == m * p
  {
    if m > 0 {
      assert seq(m, k => p)[..m - 1] == seq(m - 1, k => p);
      MadeConstant(m - 1, p);
    }
  }

  /**
   * Whenever the last cluster's share is not negative, the sizes `initNodes`
   * gives hold exactly the node count, every cluster but the last at least 8
   * nodes and the last one at most as many as the others.
   */
  lemma ClusterSizesAsWrittenTotal(n: int)
    requires ClusterCount(n) > 0 && ClusterSizesAsWritten(n)[ClusterCount(n) - 1] >= 0
    ensures Made(ClusterSizesAsWritten(n)) == n
    ensures forall k | 0 <= k < ClusterCount(n) - 1 :: ClusterSizesAsWritten(n)[k] >= 8
    ensures ClusterSizesAsWritten(n)[ClusterCount(n) - 1] <= ClusterSizesAsWritten(n)[0]
  {
    var c := ClusterCount(n);
    var p := NodesPerClusterAsWritten(n, c);
    var sizes := ClusterSizesAsWritten(n);
    assert p >= 8 by {
      CeilingAtLeast(n, c, 8);
    }
    assert (c - 1) * p == c * p - p;
    assert sizes[..c - 1] == seq(c - 1, k => p);
    MadeConstant(c - 1, p);
    assert n <= c * p by {
      CeilingAbove(n, c);
    }
  }

  /** The rounded-down split holds exactly the node count, and none of its clusters has fewer than 8 nodes. */
  lemma ClusterSizesFloorTotal(n: int)
    requires ClusterCount(n) > 0
    ensures Made(ClusterSizesFloor(n)) == n
    ensures forall k | 0 <= k < ClusterCount(n) :: ClusterSizesFloor(n)[k] >= 8
  {
    var c := ClusterCount(n);
    var p := n / c;
    var sizes := ClusterSizesFloor(n);
    assert c * p <= n;
    assert p >= 8 by {
      assert n >= 8 * c;
      DivideAtLeast(n, c, 8);
    }
    assert (c - 1) * p == c * p - p;
    assert sizes[..c - 1] == seq(c - 1, k => p);
    MadeConstant(c - 1, p);
  }

  /** The corrected clusters hold exactly the node count, and none of them has a negative size. */
  lemma ClusterSizesTotal(n: int)
    requires ClusterCount(n) > 0
    ensures Made(ClusterSizes(n)) == n
    ensures forall k | 0 <= k < |ClusterSizes(n)| :: ClusterSizes(n)[k] >= 0
  {
    if ClusterSizesAsWritten(n)[ClusterCount(n) - 1] >= 0 {
      ClusterSizesAsWrittenTotal(n);
    } else {
      ClusterSizesFloorTotal(n);
    }
  }

  /** `Math.ceil(n / c)` is at least m when n >= m * c. */
  lemma CeilingAtLeast(n: int, c: int, m: nat)
    requires c > 0 && n >= m * c
    ensures NodesPerClusterAsWritten(n, c) >= m
  {
    var q := (-n) / c;
    assert -n == q * c + (-n) % c;
    assert (-q) * c >= n;
  }

  /** `Math.ceil(n / c)` clusters of c cover n. */
  lemma CeilingAbove(n: int, c: int)
    requires c > 0
    ensures n <= c * NodesPerClusterAsWritten(n, c)
  {
    var q := (-n) / c;
    assert -n == q * c + (-n) % c;
  }

  /** n >= m * c gives n / c >= m. */
  lemma DivideAtLeast(n: int, c: int, m: nat)
    requires c > 0 && n >= m * c
    ensures n / c >= m
  {
    var q := n / c;
    assert n - c < q * c;
    assert (m - 1) * c == m * c - c;
    MulCancel(m - 1, q, c);
  }

  lemma MulCancel(a: int, b: int, c: int)
    requires c > 0 && a * c < b * c
    ensures a < b
  {
  }

  /**
   * As written, 148 nodes make 18 clusters of ceil(148 / 18) = 9: the first 17
   * already hold 153 nodes and the last cluster's share, 148 - 153, is negative.
   */
  lemma ClusterSizesAsWrittenOvershoot()
    ensures ClusterCount(148) == 18
    ensures ClusterSizesAsWritten(148)[17] == -5
    ensures Made(ClusterSizesAsWritten(148)) == 153
  {
    var sizes := ClusterSizesAsWritten(148);
    assert NodesPerClusterAsWritten(148, 18) == 9;
    assert sizes[..17] == seq(17, k => 9);
    MadeConstant(17, 9);
  }

  /** The band of distances an edge may span: `distance >= 40 && distance < 250`. */
  const MinDistance: real := 40.0
  const MaxDistance: real := 250.0

  predicate InBand(d: real) {
    MinDistance <= d < MaxDistance
  }

  /** The distance between node i and node j, as the caller measures it. */
  type Distance = (nat, nat) -> real

  predicate Increasing(s: seq<nat>) {
    forall a, b | 0 <= a < b < |s| :: s[a] < s[b]
  }

  /** The candidates of node i among the nodes i + 1 .. j - 1, in index order. */
  function CandidatesUpTo(distance: Distance, i: nat, j: nat): (cs: seq<nat>)
    requires i < j
    decreases j
  {
    if j == i + 1 then []
    else CandidatesUpTo(distance, i, j - 1) + (if InBand(distance(i, j - 1)) then [j - 1] else [])
  }

  /** The candidates are exactly the later nodes within the band, each once, in index order. */
  lemma {:induction false} CandidatesUpToSpec(distance: Distance, i: nat, j: nat)
    requires i < j
    ensures var cs := CandidatesUpTo(distance, i, j);
      && (forall k | 0 <= k < |cs| :: i < cs[k] < j && InBand(distance(i, cs[k])))
      && (forall k | i < k < j && InBand(distance(i, k)) :: k in cs)
      && Increasing(cs)
    decreases j
  {
    if j > i + 1 {
      CandidatesUpToSpec(distance, i, j - 1);
    }
  }

  /** The loop of `initEdges` that collects the candidates of node i among n nodes. */
  method FindCandidates(distance: Distance, n: nat, i: nat) returns (cs: seq<nat>)
    requires i < n
    ensures cs == CandidatesUpTo(distance, i, n)
  {
    cs := [];
    var j := i + 1;
    while j < n
      invariant i + 1 <= j <= n
      invariant cs == CandidatesUpTo(distance, i, j)
    {
      if InBand(distance(i, j)) {
        cs := cs + [j];
      }
      j := j + 1;
    }
  }

  function MinInt(a: int, b: int): int {
    if a <= b then a else b
  }

  /**
   * `Math.floor(r * (maxConnections - minConnections + 1)) + minConnections`
   * with `maxConnections = Math.min(5, count)` and `minConnections = 2`.
   */
  function ConnectionsToMake(r: real, count: nat): int {
    (r * ((MinInt(5, count) - 1) as real)).Floor + 2
  }

  /** For a draw in [0, 1) and at least two candidates, between 2 and min(5, count) connections are attempted. */
  lemma ConnectionsToMakeBounds(r: real, count: nat)
    requires 0.0 <= r < 1.0 && count >= 2
    ensures 2 <= ConnectionsToMake(r, count) <= MinInt(5, count)
  {
    var m := MinInt(5, count) - 1;
    if m == 1 {
      assert r * (m as real) == r;
    } else if m == 2 {
      assert r * (m as real) == r + r;
    } else if m == 3 {
      assert r * (m as real) == r + r + r;
    } else {
      assert r * (m as real) == r + r + r + r;
    }
  }

  /**
   * The connections the inner loop makes from position k of the shuffled
   * candidates on, with `made` already made: it stops at the end of the list or
   * when `made` reaches the target, and takes a candidate when its draw exceeds 0.3.
   */
  function Chosen(shuffled: seq<nat>, toMake: int, accept: nat -> real, k: nat, made: nat): seq<nat>
    requires k <= |shuffled|
    decreases |shuffled| - k
  {
    if k == |shuffled| || made >= toMake then []
    else if accept(k) > 0.3 then [shuffled[k]] + Chosen(shuffled, toMake, accept, k + 1, made + 1)
    else Chosen(shuffled, toMake, accept, k + 1, made)
  }

  /** The chosen candidates come from the list, in order, at most one per position and no more than the target. */
  lemma {:induction false} ChosenSpec(shuffled: seq<nat>, toMake: int, accept: nat -> real, k: nat, made: nat)
    requires k <= |shuffled|
    ensures var ch := Chosen(shuffled, toMake, accept, k, made);
      && |ch| <= |shuffled| - k
      && made + |ch| <= (if made <= toMake then toMake else made)
      && (forall x | x in ch :: x in shuffled[k..])
      && (Distinct(shuffled[k..]) ==> Distinct(ch))
    decreases |shuffled| - k
  {
    if k < |shuffled| && made < toMake {
      var taken := accept(k) > 0.3;
      ChosenSpec(shuffled, toMake, accept, k + 1, if taken then made + 1 else made);
      assert shuffled[k..] == [shuffled[k]] + shuffled[k + 1..];
      var rest := Chosen(shuffled, toMake, accept, k + 1, if taken then made + 1 else made);
      if taken && Distinct(shuffled[k..]) {
        var ch := [shuffled[k]] + rest;
        assert shuffled[k] !in shuffled[k + 1..];
        forall a, b | 0 <= a < b < |ch|
          ensures ch[a] != ch[b]
        {
          if a == 0 {
            assert ch[b] == rest[b - 1] && rest[b - 1] in rest;
          } else {
            assert ch[a] == rest[a - 1] && ch[b] == rest[b - 1];
          }
        }
      }
    }
  }

  predicate Distinct(s: seq<nat>) {
    forall a, b | 0 <= a < b < |s| :: s[a] != s[b]
  }

  /** The loop `for (k = 0; k < shuffled.length && made < toMake; k++)` of `initEdges`. */
  method Connect(shuffled: seq<nat>, toMake: int, accept: nat -> real) returns (chosen: seq<nat>)
    ensures chosen == Chosen(shuffled, toMake, accept, 0, 0)
  {
    chosen := [];
    var k := 0;
    while k < |shuffled| && |chosen| < toMake
      invariant k <= |shuffled|
      invariant chosen + Chosen(shuffled, toMake, accept, k, |chosen|) == Chosen(shuffled, toMake, accept, 0, 0)
    {
      if accept(k) > 0.3 {
        chosen := chosen + [shuffled[k]];
      }
      k := k + 1;
    }
  }

  /**
   * The random draws of `initEdges`, keyed by node index: the draw for the
   * number of connections, the order the random-comparator sort leaves the
   * candidates in, and the acceptance draw at each position of that order.
   */
  datatype EdgeDraws = EdgeDraws(
    connections: nat -> real,
    shuffle: (nat, seq<nat>) -> seq<nat>,
    accept: (nat, nat) -> real)

  /**
   * What the model assumes of the draws: Math.random() lies in [0, 1), and a
   * sort, whatever its comparator, leaves a permutation of its input.
   */
  ghost predicate Plausible(draws: EdgeDraws) {
    && (forall i: nat :: 0.0 <= draws.connections(i) < 1.0)
    && (forall i: nat, s: seq<nat> :: multiset(draws.shuffle(i, s)) == multiset(s))
  }

  /** The candidates of node i in the order the shuffle leaves them. */
  function Shuffled(distance: Distance, draws: EdgeDraws, n: nat, i: nat): seq<nat>
    requires i < n
  {
    draws.shuffle(i, CandidatesUpTo(distance, i, n))
  }

  /** The nodes node i is joined to. */
  function Partners(distance: Distance, draws: EdgeDraws, n: nat, i: nat): seq<nat>
    requires i < n
  {
    var cs := CandidatesUpTo(distance, i, n);
    Chosen(Shuffled(distance, draws, n, i), ConnectionsToMake(draws.connections(i), |cs|),
           (k: nat) => draws.accept(i, k), 0, 0)
  }

  /** The pairs of the edges `initEdges` makes for the nodes 0 .. m - 1, in order. */
  function EdgePairsUpTo(distance: Distance, draws: EdgeDraws, n: nat, m: nat): seq<(nat, nat)>
    requires m <= n
  {
    if m == 0 then []
    else
      EdgePairsUpTo(distance, draws, n, m - 1) + Block(m - 1, Partners(distance, draws, n, m - 1))
  }

  /** The pairs (i, j) of node i's edges, one per partner j. */
  function Block(i: nat, ps: seq<nat>): (b: seq<(nat, nat)>)
    ensures |b| == |ps|
    ensures forall k | 0 <= k < |ps| :: b[k] == (i, ps[k])
  {
    seq(|ps|, k requires 0 <= k < |ps| => (i, ps[k]))
  }

  /** The edges made for node i, as pairs (i, j). */
  function Degree(pairs: seq<(nat, nat)>, i: nat): nat {
    if pairs == [] then 0
    else Degree(pairs[..|pairs| - 1], i) + (if pairs[|pairs| - 1].0 == i then 1 else 0)
  }

  /** `initEdges` over n nodes, computing the joined pairs. */
  method SelectEdges(distance: Distance, draws: EdgeDraws, n: nat) returns (pairs: seq<(nat, nat)>)
    ensures pairs == EdgePairsUpTo(distance, draws, n, n)
  {
    pairs := [];
    var i := 0;
    while i < n
      invariant i <= n
      invariant pairs == EdgePairsUpTo(distance, draws, n, i)
    {
      var cs := FindCandidates(distance, n, i);
      var toMake := ConnectionsToMake(draws.connections(i), |cs|);
      var shuffled := draws.shuffle(i, cs);
      var chosen := Connect(shuffled, toMake, (k: nat) => draws.accept(i, k));
      assert chosen == Partners(distance, draws, n, i);
      pairs := pairs + Block(i, chosen);
      i := i + 1;
    }
  }

  /** A permutation of a list without repetitions has none either. */
  lemma PermutationDistinct(s: seq<nat>, t: seq<nat>)
    requires multiset(s) == multiset(t) && Distinct(t)
    ensures Distinct(s)
  {
    forall a, b | 0 <= a < b < |s|
      ensures s[a] != s[b]
    {
      if s[a] == s[b] {
        TwiceInMultiset(s, a, b);
        AtMostOnceInMultiset(t, s[a]);
      }
    }
  }

  lemma TwiceInMultiset(s: seq<nat>, a: nat, b: nat)
    requires a < b < |s| && s[a] == s[b]
    ensures multiset(s)[s[a]] >= 2
  {
    assert s == s[..b] + [s[b]] + s[b + 1..];
    assert s[a] in s[..b];
  }

  lemma {:induction false} AtMostOnceInMultiset(t: seq<nat>, x: nat)
    requires Distinct(t)
    ensures multiset(t)[x] <= 1
  {
    if t != [] {
      var init := t[..|t| - 1];
      assert t == init + [t[|t| - 1]];
      assert Distinct(init);
      AtMostOnceInMultiset(init, x);
      if t[|t| - 1] == x {
        assert x !in init;
      }
    }
  }

  /** Node i's partners are later nodes within the band, without repetition and at most min(5, candidates) of them. */
  lemma PartnersSpec(distance: Distance, draws: EdgeDraws, n: nat, i: nat)
    requires Plausible(draws) && i < n
    ensures var ps := Partners(distance, draws, n, i);
      && (forall k | 0 <= k < |ps| :: i < ps[k] < n && InBand(distance(i, ps[k])))
      && Distinct(ps)
      && |ps| <= MinInt(5, |CandidatesUpTo(distance, i, n)|)
  {
    var cs := CandidatesUpTo(distance, i, n);
    var sh := Shuffled(distance, draws, n, i);
    var toMake := ConnectionsToMake(draws.connections(i), |cs|);
    CandidatesUpToSpec(distance, i, n);
    assert multiset(sh) == multiset(cs);
    assert |sh| == |cs| by {
      assert |multiset(sh)| == |multiset(cs)|;
    }
    PermutationDistinct(sh, cs);
    assert sh[0..] == sh;
    ChosenSpec(sh, toMake, (k: nat) => draws.accept(i, k), 0, 0);
    var ps := Partners(distance, draws, n, i);
    forall k | 0 <= k < |ps|
      ensures i < ps[k] < n && InBand(distance(i, ps[k]))
    {
      assert ps[k] in sh;
      assert ps[k] in multiset(cs);
    }
    if |cs| >= 2 {
      ConnectionsToMakeBounds(draws.connections(i), |cs|);
    }
  }

  /** Every pair joins one of the first m nodes to a later node, at a distance within the band. */
  predicate PairsInBand(distance: Distance, pairs: seq<(nat, nat)>, m: nat, n: nat) {
    forall e | 0 <= e < |pairs| :: pairs[e].0 < m && pairs[e].0 < pairs[e].1 < n && InBand(distance(pairs[e].0, pairs[e].1))
  }

  predicate PairsDistinct(pairs: seq<(nat, nat)>) {
    forall e, f | 0 <= e < f < |pairs| :: pairs[e] != pairs[f]
  }

  /** Node i has at most min(5, number of its candidates) edges, and the nodes from m on have none. */
  predicate DegreesBounded(distance: Distance, pairs: seq<(nat, nat)>, m: nat, n: nat) {
    && (forall i | 0 <= i < n :: Degree(pairs, i) <= MinInt(5, |CandidatesUpTo(distance, i, n)|))
    && (forall i | m <= i < n :: Degree(pairs, i) == 0)
  }

  /** The partners of node i as PartnersSpec states them, without the lets. */
  predicate PartnersInBand(distance: Distance, ps: seq<nat>, i: nat, n: nat) {
    forall k | 0 <= k < |ps| :: i < ps[k] < n && InBand(distance(i, ps[k]))
  }

  lemma {:induction false} EdgePairsInBand(distance: Distance, draws: EdgeDraws, n: nat, m: nat)
    requires Plausible(draws) && m <= n
    ensures PairsInBand(distance, EdgePairsUpTo(distance, draws, n, m), m, n)
  {
    if m > 0 {
      EdgePairsInBand(distance, draws, n, m - 1);
      PartnersSpec(distance, draws, n, m - 1);
      var before := EdgePairsUpTo(distance, draws, n, m - 1);
      var ps := Partners(distance, draws, n, m - 1);
      assert PartnersInBand(distance, ps, m - 1, n);
      var block := Block(m - 1, ps);
      var pairs := before + block;
      forall e | 0 <= e < |pairs|
        ensures pairs[e].0 < m && pairs[e].0 < pairs[e].1 < n && InBand(distance(pairs[e].0, pairs[e].1))
      {
        if e < |before| {
          assert pairs[e] == before[e];
        } else {
          assert pairs[e] == block[e - |before|] == (m - 1, ps[e - |before|]);
        }
      }
    }
  }

  /** No pair appears twice, so no two edges join the same two nodes. */
  lemma {:induction false} EdgePairsDistinct(distance: Distance, draws: EdgeDraws, n: nat, m: nat)
    requires Plausible(draws) && m <= n
    ensures PairsDistinct(EdgePairsUpTo(distance, draws, n, m))
  {
    if m > 0 {
      EdgePairsDistinct(distance, draws, n, m - 1);
      EdgePairsInBand(distance, draws, n, m - 1);
      PartnersSpec(distance, draws, n, m - 1);
      var before := EdgePairsUpTo(distance, draws, n, m - 1);
      var ps := Partners(distance, draws, n, m - 1);
      assert Distinct(ps);
      assert PairsInBand(distance, before, m - 1, n);
      var block := Block(m - 1, ps);
      var pairs := before + block;
      forall e, f | 0 <= e < f < |pairs|
        ensures pairs[e] != pairs[f]
      {
        if f >= |before| {
          assert pairs[f] == block[f - |before|] == (m - 1, ps[f - |before|]);
          if e >= |before| {
            assert pairs[e] == block[e - |before|] == (m - 1, ps[e - |before|]);
          } else {
            assert pairs[e] == before[e] && before[e].0 < m - 1;
          }
        } else {
          assert pairs[e] == before[e] && pairs[f] == before[f];
        }
      }
    }
  }

  /** Node i has at most min(5, number of its candidates) edges, and nodes not yet visited have none. */
  lemma {:induction false} EdgePairsDegree(distance: Distance, draws: EdgeDraws, n: nat, m: nat)
    requires Plausible(draws) && m <= n
    ensures DegreesBounded(distance, EdgePairsUpTo(distance, draws, n, m), m, n)
  {
    if m > 0 {
      EdgePairsDegree(distance, draws, n, m - 1);
      PartnersSpec(distance, draws, n, m - 1);
      var before := EdgePairsUpTo(distance, draws, n, m - 1);
      var ps := Partners(distance, draws, n, m - 1);
      DegreesStep(distance, before, ps, m, n);
    }
  }

  /** Appending the block of node m - 1, within its bound, to pairs that respect the bounds keeps them. */
  lemma DegreesStep(distance: Distance, before: seq<(nat, nat)>, ps: seq<nat>, m: nat, n: nat)
    requires 0 < m <= n
    requires DegreesBounded(distance, before, m - 1, n)
    requires |ps| <= MinInt(5, |CandidatesUpTo(distance, m - 1, n)|)
    ensures DegreesBounded(distance, before + Block(m - 1, ps), m, n)
  {
    forall i: nat | 0 <= i < n
      ensures Degree(before + Block(m - 1, ps), i) <= MinInt(5, |CandidatesUpTo(distance, i, n)|)
      ensures m <= i ==> Degree(before + Block(m - 1, ps), i) == 0
    {
      DegreeAfterBlock(before, m - 1, ps, i, MinInt(5, |CandidatesUpTo(distance, i, n)|));
    }
  }

  lemma DegreeAfterBlock(before: seq<(nat, nat)>, last: nat, ps: seq<nat>, i: nat, cap: int)
    requires Degree(before, i) <= cap
    requires i == last ==> Degree(before, i) == 0 && |ps| <= cap
    ensures Degree(before + Block(last, ps), i) <= cap
    ensures i != last ==> Degree(before + Block(last, ps), i) == Degree(before, i)
  {
    DegreeBlock(before, last, ps, i);
  }

  /** Appending node m's block of pairs adds its partners to m's degree and nothing to the others. */
  lemma {:induction false} DegreeBlock(before: seq<(nat, nat)>, m: nat, ps: seq<nat>, i: nat)
    ensures Degree(before + Block(m, ps), i) == Degree(before, i) + (if i == m then |ps| else 0)
  {
    if ps != [] {
      var init := ps[..|ps| - 1];
      var all := before + Block(m, ps);
      BlockSnoc(m, ps);
      assert all == (before + Block(m, init)) + [(m, ps[|ps| - 1])];
      assert all[..|all| - 1] == before + Block(m, init);
      DegreeBlock(before, m, init, i);
    } else {
      assert before + Block(m, ps) == before;
    }
  }

  lemma BlockSnoc(m: nat, ps: seq<nat>)
    requires ps != []
    ensures Block(m, ps) == Block(m, ps[..|ps| - 1]) + [(m, ps[|ps| - 1])]
  {
    var init := ps[..|ps| - 1];
    var b := Block(m, init) + [(m, ps[|ps| - 1])];
    forall k | 0 <= k < |ps|
      ensures Block(m, ps)[k] == b[k]
    {
      if k < |init| {
        assert b[k] == Block(m, init)[k] == (m, init[k]);
      }
    }
  }

  /** The indices of the set flags among the first m, in order: the edges `initSignals` gives a signal. */
  function TrueUpTo(flags: seq<bool>, m: nat): seq<nat>
    requires m <= |flags|
  {
    if m == 0 then []
    else TrueUpTo(flags, m - 1) + (if flags[m - 1] then [m - 1] else [])
  }

  /** TrueUpTo lists exactly the set flags below m, each once, in increasing order. */
  lemma {:induction false} TrueUpToSpec(flags: seq<bool>, m: nat)
    requires m <= |flags|
    ensures forall k | 0 <= k < |TrueUpTo(flags, m)| :: TrueUpTo(flags, m)[k] < m && flags[TrueUpTo(flags, m)[k]]
    ensures forall e | 0 <= e < m && flags[e] :: e in TrueUpTo(flags, m)
    ensures Increasing(TrueUpTo(flags, m))
  {
    if m > 0 {
      TrueUpToSpec(flags, m - 1);
    }
  }

  /** The indices of all the set flags, in order. */
  function TrueIndices(flags: seq<bool>): (es: seq<nat>)
    ensures forall k | 0 <= k < |es| :: es[k] < |flags| && flags[es[k]]
    ensures forall e | 0 <= e < |flags| && flags[e] :: e in es
    ensures Increasing(es)
  {
    TrueUpToSpec(flags, |flags|);
    TrueUpTo(flags, |flags|)
  }
}
