/** The skeleton of a lightning tree: a flat array of segments in which a
    segment's id is its index and its parent is an earlier segment or the
    sentinel -1, so the array is a forest built by appending. */
module Skeleton {
  import opened Arith
  import opened Geometry

  datatype Segment = Segment(
    id: int,
    parentId: int,      // -1 for a trunk root
    depth: nat,
    dir: Vec2,
    len: real,
    color: Color)

  const SegmentSize := 2.0
  const NoParent := -1

  /** Segment i hangs off an earlier segment at the same depth (the next link
      of its chain) or one level up (the start of a child branch), or it is a
      depth-0 root. */
  ghost predicate Linked(sk: seq<Segment>, i: int)
    requires 0 <= i < |sk|
  {
    if sk[i].parentId == NoParent then sk[i].depth == 0
    else
      && 0 <= sk[i].parentId < i
      && (sk[sk[i].parentId].depth == sk[i].depth || sk[sk[i].parentId].depth + 1 == sk[i].depth)
  }

  /** Segment i carries its own index as id, is linked, and is shallower
      than maxDepth. */
  ghost predicate Placed(sk: seq<Segment>, maxDepth: nat, i: int)
    requires 0 <= i < |sk|
  {
    sk[i].id == i && sk[i].depth < maxDepth && Linked(sk, i)
  }

  /** The arena invariants: ids are indices, parents come first, depths are
      bounded by maxDepth. */
  ghost predicate Forest(sk: seq<Segment>, maxDepth: nat)
  {
    forall i :: 0 <= i < |sk| ==> Placed(sk, maxDepth, i)
  }

  lemma {:induction false} ForestPrefix(sk: seq<Segment>, maxDepth: nat, n: nat)
    requires Forest(sk, maxDepth) && n <= |sk|
    ensures Forest(sk[..n], maxDepth)
  {
    forall i | 0 <= i < n
      ensures Placed(sk[..n], maxDepth, i)
    {
      assert Placed(sk, maxDepth, i);
      assert sk[..n][i] == sk[i];
      if sk[i].parentId != NoParent {
        assert sk[..n][sk[i].parentId] == sk[sk[i].parentId];
      }
    }
  }

  /** Appending a segment whose id is the next index and whose parent is
      linked keeps the forest. */
  lemma {:induction false} ForestAppend(sk: seq<Segment>, maxDepth: nat, s: Segment)
    requires Forest(sk, maxDepth)
    requires s.id == |sk| && s.depth < maxDepth
    requires s.parentId == NoParent ==> s.depth == 0
    requires s.parentId != NoParent ==>
      0 <= s.parentId < |sk| &&
      (sk[s.parentId].depth == s.depth || sk[s.parentId].depth + 1 == s.depth)
    ensures Forest(sk + [s], maxDepth)
  {
    var t := sk + [s];
    forall i | 0 <= i < |t|
      ensures Placed(t, maxDepth, i)
    {
      if i < |sk| {
        assert Placed(sk, maxDepth, i);
        assert t[i] == sk[i];
        assert Linked(sk, i);
        if sk[i].parentId != NoParent {
          assert t[sk[i].parentId] == sk[sk[i].parentId];
        }
      } else {
        assert t[i] == s;
        if s.parentId != NoParent {
          assert t[s.parentId] == sk[s.parentId];
        }
      }
    }
  }

  /** The trunk root segment i descends from: following parents always ends,
      at a depth-0 root no later in the array. */
  function RootOf(sk: seq<Segment>, maxDepth: nat, i: int): (r: int)
    requires Forest(sk, maxDepth) && 0 <= i < |sk|
    ensures 0 <= r <= i
    ensures sk[r].parentId == NoParent && sk[r].depth == 0
    decreases i
  {
    assert Placed(sk, maxDepth, i);
    if sk[i].parentId == NoParent then i
    else RootOf(sk, maxDepth, sk[i].parentId)
  }

  /** Depth never exceeds the number of ancestors: depth(i) <= i - root. */
  lemma {:induction false} DepthBelowIndex(sk: seq<Segment>, maxDepth: nat, i: int)
    requires Forest(sk, maxDepth) && 0 <= i < |sk|
    ensures sk[i].depth <= i - RootOf(sk, maxDepth, i)
    decreases i
  {
    assert Placed(sk, maxDepth, i);
    if sk[i].parentId != NoParent {
      DepthBelowIndex(sk, maxDepth, sk[i].parentId);
    }
  }

  /** The number of trunk roots. */
  function Roots(sk: seq<Segment>): (n: nat)
    ensures n <= |sk|
  {
    if |sk| == 0 then 0
    else Roots(sk[..|sk| - 1]) + (if sk[|sk| - 1].parentId == NoParent then 1 else 0)
  }

  /** A tail without roots adds none. */
  lemma {:induction false} RootsNoneAfter(sk: seq<Segment>, m: nat)
    requires m <= |sk|
    requires forall i :: m <= i < |sk| ==> sk[i].parentId != NoParent
    ensures Roots(sk) == Roots(sk[..m])
    decreases |sk|
  {
    if |sk| > m {
      var t := sk[..|sk| - 1];
      assert t[..m] == sk[..m];
      RootsNoneAfter(t, m);
    } else {
      assert sk[..m] == sk;
    }
  }

  /** A tail whose first segment alone is a root adds exactly one. */
  lemma {:induction false} RootsOneAfter(sk: seq<Segment>, m: nat)
    requires m < |sk| && sk[m].parentId == NoParent
    requires forall i :: m < i < |sk| ==> sk[i].parentId != NoParent
    ensures Roots(sk) == Roots(sk[..m]) + 1
  {
    RootsNoneAfter(sk, m + 1);
    assert sk[..m + 1][..m] == sk[..m];
  }

  /** max(2, floor(length / segmentSize)) zig-zag steps per branch. */
  function Steps(length: real): (n: nat)
    ensures n >= 2
    ensures length >= 2.0 * SegmentSize ==> n as real <= length / SegmentSize < n as real + 1.0
  {
    var f := (length / SegmentSize).Floor;
    if f > 2 then f else 2
  }

  /** The kink of one zig-zag step, (r - 0.5) * 0.8 radians. */
  function Kink(r: real): (a: real)
    requires 0.0 <= r < 1.0
    ensures -0.4 <= a < 0.4
  {
    (r - 0.5) * 0.8
  }

  /** The angular spread of the children of a branch at this depth: 1.6
      radians at the trunk, 0.2 less per level, still positive at every depth
      below 8. */
  function ChildSpread(depth: nat): (s: real)
    ensures s <= 1.6
    ensures depth < 8 <==> s > 0.0
  {
    1.6 - depth as real * 0.2
  }

  /** The length factor of a child branch, 0.6 + r * 0.3. */
  function Decay(r: real): (f: real)
    requires 0.0 <= r < 1.0
    ensures 0.6 <= f < 0.9
  {
    0.6 + r * 0.3
  }

  // ---------------------------------------------------------------- colours

  /** Flat index 6 i + k of a buffer with six floats per segment. */
  lemma SextetIndex(i: nat, k: nat)
    requires k < 6
    ensures (6 * i + k) / 6 == i && (6 * i + k) % 6 == k && (6 * i + k) % 3 == k % 3
  {
  }

  /** min(1, c + depth / maxDepth * 0.8): tips glow towards white. */
  function Glow(c: real, depth: nat, maxDepth: nat): (v: real)
    requires maxDepth > 0
    ensures v <= 1.0
    ensures v == 1.0 || v == c + Quot(depth as real, maxDepth as real) * 0.8
    ensures 0.0 <= c ==> 0.0 <= v
    ensures c <= v || v == 1.0
  {
    QuotNonNegative(depth as real, maxDepth as real);
    var g := c + Quot(depth as real, maxDepth as real) * 0.8;
    if g < 1.0 then g else 1.0
  }

  function Channel(c: Color, k: nat): real
  {
    if k % 3 == 0 then c.r else if k % 3 == 1 then c.g else c.b
  }

  /** The colour-buffer value at flat index j: segment j / 6 (two vertices of
      three channels each), channel j % 3. */
  function ColorAt(sk: seq<Segment>, maxDepth: nat, j: nat): (v: real)
    requires maxDepth > 0 && j < 6 * |sk|
    ensures v <= 1.0
  {
    var s := sk[j / 6];
    Glow(Channel(s.color, j % 3), s.depth, maxDepth)
  }

  /** When every channel of every colour lies in [0,1], so does the buffer. */
  lemma {:induction false} ColorsInUnitRange(sk: seq<Segment>, maxDepth: nat, j: nat)
    requires maxDepth > 0 && j < 6 * |sk|
    requires forall i :: 0 <= i < |sk| ==>
      0.0 <= sk[i].color.r && 0.0 <= sk[i].color.g && 0.0 <= sk[i].color.b
    ensures 0.0 <= ColorAt(sk, maxDepth, j) <= 1.0
  {
    var s := sk[j / 6];
    assert 0.0 <= Channel(s.color, j % 3);
  }
}
