/** The `parent` slice of `clusterAlerts` with its recursive, path-compressing `find` and its
    `union`. The trees are described by two ghost sequences: root[i] is the root above i, and
    rank falls along every parent edge, which is what makes `find` terminate. */
module UnionFind {

  ghost predicate Sized(parent: seq<int>, root: seq<int>, rank: seq<nat>) {
    |parent| == |root| == |rank|
  }

  /** Node i's parent edge stays inside the tree of root[i] and leads strictly downwards in rank. */
  ghost predicate Node(parent: seq<int>, root: seq<int>, rank: seq<nat>, i: int)
    requires Sized(parent, root, rank) && 0 <= i < |parent|
  {
    && 0 <= parent[i] < |parent| && 0 <= root[i] < |parent|
    && root[parent[i]] == root[i]
    && root[root[i]] == root[i]
    && (parent[i] == i <==> root[i] == i)
    && (parent[i] != i ==> rank[parent[i]] < rank[i])
  }

  ghost predicate Forest(parent: seq<int>, root: seq<int>, rank: seq<nat>) {
    Sized(parent, root, rank) && forall i :: 0 <= i < |parent| ==> Node(parent, root, rank, i)
  }

  /** Every node its own tree, as the initialisation loop leaves it. */
  lemma IdentityForest(parent: seq<int>)
    requires forall i :: 0 <= i < |parent| ==> parent[i] == i
    ensures Forest(parent, parent, seq(|parent|, _ => 0))
  {
  }

  lemma Compress(parent: seq<int>, root: seq<int>, rank: seq<nat>, x: int)
    requires Forest(parent, root, rank) && 0 <= x < |parent| && parent[x] != x
    requires Node(parent, root, rank, x) && rank[root[x]] < rank[x]
    ensures Forest(parent[x := root[x]], root, rank)
  {
    var p := parent[x := root[x]];
    forall i | 0 <= i < |p| ensures Node(p, root, rank, i) {
      assert Node(parent, root, rank, i);
    }
  }

  /** Returns the root of x. Compression rewires parents but moves no node to another tree. */
  method Find(parent: array<int>, x: int, ghost root: seq<int>, ghost rank: seq<nat>) returns (r: int)
    requires Forest(parent[..], root, rank) && 0 <= x < parent.Length
    modifies parent
    ensures Forest(parent[..], root, rank)
    ensures r == root[x] && parent[x] == r
    ensures 0 <= r < parent.Length && rank[r] <= rank[x]
    decreases rank[x]
  {
    assert Node(parent[..], root, rank, x);
    if parent[x] != x {
      var above := Find(parent, parent[x], root, rank);
      ghost var before := parent[..];
      assert Node(before, root, rank, x);
      Compress(before, root, rank, x);
      parent[x] := above;
      assert parent[..] == before[x := above];
    }
    r := parent[x];
  }

  ghost function MergedRoots(root: seq<int>, ra: int, rb: int): seq<int> {
    seq(|root|, i requires 0 <= i < |root| => if root[i] == ra then rb else root[i])
  }

  ghost function MergedRanks(root: seq<int>, rank: seq<nat>, ra: int, lift: nat): seq<nat>
    requires |root| == |rank|
  {
    seq(|rank|, i requires 0 <= i < |rank| => if root[i] == ra then rank[i] + lift else rank[i])
  }

  lemma LinkRoots(parent: seq<int>, root: seq<int>, rank: seq<nat>, ra: int, rb: int)
    requires Forest(parent, root, rank)
    requires 0 <= ra < |parent| && 0 <= rb < |parent| && ra != rb
    requires root[ra] == ra && root[rb] == rb
    ensures Forest(parent[ra := rb], MergedRoots(root, ra, rb), MergedRanks(root, rank, ra, rank[rb] + 1))
  {
    var p, t, k := parent[ra := rb], MergedRoots(root, ra, rb), MergedRanks(root, rank, ra, rank[rb] + 1);
    forall i | 0 <= i < |p| ensures Node(p, t, k, i) {
      assert Node(parent, root, rank, i);
      assert Node(parent, root, rank, ra);
    }
  }

  /** Merges the trees of a and b and no others: two nodes share a root afterwards exactly when
      they did before or each was in the tree of a or of b. */
  method Union(parent: array<int>, a: int, b: int, ghost root: seq<int>, ghost rank: seq<nat>)
    returns (ghost root': seq<int>, ghost rank': seq<nat>)
    requires Forest(parent[..], root, rank)
    requires 0 <= a < parent.Length && 0 <= b < parent.Length
    modifies parent
    ensures Forest(parent[..], root', rank')
    ensures root' == MergedRoots(root, root[a], root[b])
  {
    assert Node(parent[..], root, rank, a) && Node(parent[..], root, rank, b);
    var ra := Find(parent, a, root, rank);
    var rb := Find(parent, b, root, rank);
    if ra != rb {
      ghost var before := parent[..];
      LinkRoots(before, root, rank, ra, rb);
      parent[ra] := rb;
      assert parent[..] == before[ra := rb];
      root', rank' := MergedRoots(root, ra, rb), MergedRanks(root, rank, ra, rank[rb] + 1);
    } else {
      assert MergedRoots(root, ra, rb) == root;
      root', rank' := root, rank;
    }
  }
}
