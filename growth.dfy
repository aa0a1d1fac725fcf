/** A growth unit: the lightning tree of one seed. `Tree` (src/tree.js) and
    `VoiceTree` (src/voice.js) are the same class body with different
    constants, so one class covers both, told apart by its kind. */
module Growth {
  import opened Arith
  import opened Geometry
  import opened Audio
  import opened Random
  import opened Border
  import opened Profile
  import opened Skeleton
  import opened Lifecycle
  import opened Projection

  const Pi := 3.141592653589793

  /** Whether growBranch passes its three guards: room in the buffer, depth
      below the limit, and no random early stop (the draw at d(c), read only
      when the stop is tested). */
  predicate Proceeds(k: Kind, size: nat, depth: nat, d: nat -> real, c: nat)
  {
    size < MaxSegments(k) && depth < MaxDepth(k) && !Stops(k, depth, d(c))
  }

  /** How many draws the guards consume: one when the stop test is reached. */
  function GuardDraws(k: Kind, size: nat, depth: nat): (n: nat)
    ensures n <= 1
  {
    if size < MaxSegments(k) && depth < MaxDepth(k) && StopTested(k, depth) then 1 else 0
  }

  /** How many links the zig-zag chain gets: all its steps, or as many as the
      buffer still holds. */
  function ChainLength(k: Kind, size: nat, length: real): (m: nat)
    requires size < MaxSegments(k)
    ensures 1 <= m <= Steps(length) && size + m <= MaxSegments(k)
    ensures m == Steps(length) || size + m == MaxSegments(k)
  {
    if size + Steps(length) <= MaxSegments(k) then Steps(length) else MaxSegments(k) - size
  }

  /** Link i of a chain that starts at index n0 under parentId: each link
      hangs off the previous one, is the branch direction rotated by its own
      kink draw, and has length length / steps. */
  function Link(rotate: (Vec2, real) -> Vec2, n0: nat, i: nat, parentId: int, direction: Vec2,
                depth: nat, color: Color, length: real, d: nat -> real, c: nat): (s: Segment)
    requires UnitDraws(d) && n0 <= i
    ensures s.id == i && s.depth == depth && s.color == color
    ensures s.parentId == (if i == n0 then parentId else i - 1)
  {
    Segment(i, if i == n0 then parentId else i - 1, depth,
            rotate(direction, Kink(d(c + (i - n0)))), Quot(length, Steps(length) as real), color)
  }

  /** The steps links of a whole chain together are as long as the branch. */
  lemma LinkLength(rotate: (Vec2, real) -> Vec2, n0: nat, i: nat, parentId: int, direction: Vec2,
                   depth: nat, color: Color, length: real, d: nat -> real, c: nat)
    requires UnitDraws(d) && n0 <= i
    ensures Mul(Link(rotate, n0, i, parentId, direction, depth, color, length, d, c).len, Steps(length) as real) == length
  {
    var steps := Steps(length) as real;
    assert Quot(length, steps) * steps == length;
  }

  /** The chain a proceeding call of growBranch emits: from index n0, as
      many links as the buffer holds, reading its kinks from d at c. */
  ghost predicate HasChain(sk: seq<Segment>, k: Kind, rotate: (Vec2, real) -> Vec2, n0: nat, parentId: int,
                           direction: Vec2, depth: nat, color: Color, length: real, d: nat -> real, c: nat)
    requires UnitDraws(d)
  {
    && n0 < MaxSegments(k)
    && |sk| >= n0 + ChainLength(k, n0, length)
    && forall i :: n0 <= i < n0 + ChainLength(k, n0, length) ==>
         sk[i] == Link(rotate, n0, i, parentId, direction, depth, color, length, d, c)
  }

  // ------------------------------------------------- growBranch as a function

  /** What growing leaves behind: the skeleton, and the cursor of the next
      unread draw. */
  datatype Grown = Grown(skeleton: seq<Segment>, cursor: nat)

  /** The first m links of a chain starting at index n0. */
  function Links(rotate: (Vec2, real) -> Vec2, n0: nat, m: nat, parentId: int, direction: Vec2,
                 depth: nat, color: Color, length: real, d: nat -> real, c: nat): (t: seq<Segment>)
    requires UnitDraws(d)
    ensures |t| == m
    decreases m
  {
    if m == 0 then []
    else Links(rotate, n0, m - 1, parentId, direction, depth, color, length, d, c)
         + [Link(rotate, n0, n0 + m - 1, parentId, direction, depth, color, length, d, c)]
  }

  lemma {:induction false} LinksAt(rotate: (Vec2, real) -> Vec2, n0: nat, m: nat, parentId: int, direction: Vec2,
                                   depth: nat, color: Color, length: real, d: nat -> real, c: nat, j: nat)
    requires UnitDraws(d) && j < m
    ensures Links(rotate, n0, m, parentId, direction, depth, color, length, d, c)[j]
         == Link(rotate, n0, n0 + j, parentId, direction, depth, color, length, d, c)
    decreases m
  {
    if j < m - 1 {
      LinksAt(rotate, n0, m - 1, parentId, direction, depth, color, length, d, c, j);
    }
  }

  /** The links a proceeding growBranch pushes at the end of sk. */
  function Chain(k: Kind, rotate: (Vec2, real) -> Vec2, sk: seq<Segment>, parentId: int, direction: Vec2,
                 depth: nat, color: Color, length: real, d: nat -> real, c: nat): (t: seq<Segment>)
    requires UnitDraws(d) && |sk| < MaxSegments(k)
  {
    Links(rotate, |sk|, ChainLength(k, |sk|, length), parentId, direction, depth, color, length, d, c)
  }

  /** A skeleton that extends sk by exactly its chain is sk + Chain(...). */
  lemma ChainAppended(k: Kind, rotate: (Vec2, real) -> Vec2, sk: seq<Segment>, chained: seq<Segment>, parentId: int,
                      direction: Vec2, depth: nat, color: Color, length: real, d: nat -> real, c: nat)
    requires UnitDraws(d) && |sk| < MaxSegments(k)
    requires |chained| == |sk| + ChainLength(k, |sk|, length)
    requires forall i :: 0 <= i < |sk| ==> chained[i] == sk[i]
    requires forall i :: |sk| <= i < |chained| ==>
      chained[i] == Link(rotate, |sk|, i, parentId, direction, depth, color, length, d, c)
    ensures chained == sk + Chain(k, rotate, sk, parentId, direction, depth, color, length, d, c)
  {
    var t := Chain(k, rotate, sk, parentId, direction, depth, color, length, d, c);
    forall i | 0 <= i < |chained|
      ensures chained[i] == (sk + t)[i]
    {
      if i >= |sk| {
        LinksAt(rotate, |sk|, ChainLength(k, |sk|, length), parentId, direction, depth, color, length, d, c, i - |sk|);
      }
    }
  }

  /** The body of growBranch in one step: the chain, then the children
      whose count is drawn at c1, right after it. */
  lemma SproutedIs(k: Kind, rotate: (Vec2, real) -> Vec2, sk: seq<Segment>, chained: seq<Segment>, last: int,
                   parentId: int, direction: Vec2, depth: nat, color: Color, length: real,
                   d: nat -> real, c: nat, c1: nat, g: Grown)
    requires UnitDraws(d) && |sk| < MaxSegments(k) && depth < MaxDepth(k)
    requires chained == sk + Chain(k, rotate, sk, parentId, direction, depth, color, length, d, c)
    requires last == |chained| - 1 && c1 == c + ChainLength(k, |sk|, length)
    requires g == Branched(k, rotate, chained, last, direction, depth, color, length,
                           ChildCount(k, depth, d, c1), 0, d, c1 + ChildDraws(k, depth, d, c1))
    ensures g == Sprouted(k, rotate, sk, parentId, direction, depth, color, length, d, c)
  {
  }

  /** One child of the branch loop, then the rest. */
  lemma BranchedStep(k: Kind, rotate: (Vec2, real) -> Vec2, sk: seq<Segment>, parentId: int, direction: Vec2,
                     depth: nat, color: Color, length: real, childCount: int, i: nat, d: nat -> real, c: nat,
                     rt: real, rd: real, c2: nat, g: Grown)
    requires UnitDraws(d) && depth < MaxDepth(k) && i < childCount
    requires rt == d(c) && rd == d(c + 1) && c2 == c + 2
    requires g == GrownChild(k, rotate, sk, parentId, direction, depth, color, length, d, rt, rd, c2)
    ensures Branched(k, rotate, sk, parentId, direction, depth, color, length, childCount, i, d, c)
         == Branched(k, rotate, g.skeleton, parentId, direction, depth, color, length, childCount, i + 1, d, g.cursor)
  {
  }

  /** The guards of growBranch: a stopped call leaves the skeleton and has
      read only the stop draw; a call that passes is its body. */
  lemma GrownBranchStops(k: Kind, rotate: (Vec2, real) -> Vec2, sk: seq<Segment>, parentId: int, direction: Vec2,
                         depth: nat, color: Color, length: real, d: nat -> real, c: nat)
    requires UnitDraws(d) && !Proceeds(k, |sk|, depth, d, c)
    ensures GrownBranch(k, rotate, sk, parentId, direction, depth, color, length, d, c)
         == Grown(sk, c + GuardDraws(k, |sk|, depth))
  {
  }

  lemma GrownBranchProceeds(k: Kind, rotate: (Vec2, real) -> Vec2, sk: seq<Segment>, parentId: int, direction: Vec2,
                            depth: nat, color: Color, length: real, d: nat -> real, c: nat, c1: nat, g: Grown)
    requires UnitDraws(d) && Proceeds(k, |sk|, depth, d, c) && c1 == c + GuardDraws(k, |sk|, depth)
    requires g == Sprouted(k, rotate, sk, parentId, direction, depth, color, length, d, c1)
    ensures g == GrownBranch(k, rotate, sk, parentId, direction, depth, color, length, d, c)
  {
  }

  /** The shape of a proceeding growBranch: its chain, followed by subtrees
      below the chain's last link, comes out as the chain followed by
      segments at or below the call's depth, in its colour, hanging off the
      call's own segments. */
  lemma SproutShape(k: Kind, rotate: (Vec2, real) -> Vec2, sk: seq<Segment>, chained: seq<Segment>,
                    grown: seq<Segment>, parentId: int, direction: Vec2, depth: nat, color: Color, length: real,
                    d: nat -> real, c: nat)
    requires UnitDraws(d)
    requires HasChain(chained, k, rotate, |sk|, parentId, direction, depth, color, length, d, c)
    requires |chained| == |sk| + ChainLength(k, |sk|, length)
    requires forall i :: 0 <= i < |sk| ==> chained[i] == sk[i]
    requires |grown| >= |chained|
    requires forall i :: 0 <= i < |chained| ==> grown[i] == chained[i]
    requires forall i :: |chained| <= i < |grown| ==>
      grown[i].depth > depth && grown[i].color == color && grown[i].parentId >= |chained| - 1
    ensures Subtree(grown, sk, depth, color)
    ensures HasChain(grown, k, rotate, |sk|, parentId, direction, depth, color, length, d, c)
    ensures grown[|sk|].parentId == parentId
  {
    forall i | |sk| <= i < |chained|
      ensures chained[i] == Link(rotate, |sk|, i, parentId, direction, depth, color, length, d, c)
    {
    }
  }

  /** growBranch(parentId, null, direction, depth, color, length) on the
      skeleton sk with the draws of d from c: the three guards, then the
      body. */
  function GrownBranch(k: Kind, rotate: (Vec2, real) -> Vec2, sk: seq<Segment>, parentId: int, direction: Vec2,
                       depth: nat, color: Color, length: real, d: nat -> real, c: nat): (g: Grown)
    requires UnitDraws(d)
    decreases MaxDepth(k) - depth, 2, c
  {
    if |sk| >= MaxSegments(k) || depth >= MaxDepth(k) then Grown(sk, c)
    else if Stops(k, depth, d(c)) then Grown(sk, c + 1)
    else Sprouted(k, rotate, sk, parentId, direction, depth, color, length, d, c + GuardDraws(k, |sk|, depth))
  }

  /** The body of growBranch past its guards: the chain, the child count
      drawn after it, and the children under the last link. */
  function Sprouted(k: Kind, rotate: (Vec2, real) -> Vec2, sk: seq<Segment>, parentId: int, direction: Vec2,
                    depth: nat, color: Color, length: real, d: nat -> real, c: nat): (g: Grown)
    requires UnitDraws(d) && |sk| < MaxSegments(k) && depth < MaxDepth(k)
    decreases MaxDepth(k) - depth, 1, c
  {
    var chained := sk + Chain(k, rotate, sk, parentId, direction, depth, color, length, d, c);
    var c1 := c + ChainLength(k, |sk|, length);
    Branched(k, rotate, chained, |chained| - 1, direction, depth, color, length,
             ChildCount(k, depth, d, c1), 0, d, c1 + ChildDraws(k, depth, d, c1))
  }

  /** One child of the branch loop from its turn draw rt and decay draw rd:
      growBranch one level deeper under parentId, the direction turned by
      (rt - 0.5) * spread and the length scaled by the decay. */
  function GrownChild(k: Kind, rotate: (Vec2, real) -> Vec2, sk: seq<Segment>, parentId: int, direction: Vec2,
                      depth: nat, color: Color, length: real, d: nat -> real, rt: real, rd: real, c: nat): (g: Grown)
    requires UnitDraws(d) && depth < MaxDepth(k) && 0.0 <= rd < 1.0
    decreases MaxDepth(k) - depth, 0, 0, c
  {
    GrownBranch(k, rotate, sk, parentId, rotate(direction, Mul(rt - 0.5, ChildSpread(depth))), depth + 1, color,
                Mul(length, Decay(rd)), d, c)
  }

  /** Children i, i + 1, ..., childCount - 1 of the branch loop: each reads
      its turn and its decay, then grows one level deeper under parentId. */
  function Branched(k: Kind, rotate: (Vec2, real) -> Vec2, sk: seq<Segment>, parentId: int, direction: Vec2,
                    depth: nat, color: Color, length: real, childCount: int, i: nat,
                    d: nat -> real, c: nat): (g: Grown)
    requires UnitDraws(d) && depth < MaxDepth(k)
    decreases MaxDepth(k) - depth, 0, childCount - i, c
  {
    if i >= childCount then Grown(sk, c)
    else
      var child := GrownChild(k, rotate, sk, parentId, direction, depth, color, length, d, d(c), d(c + 1), c + 2);
      Branched(k, rotate, child.skeleton, parentId, direction, depth, color, length, childCount, i + 1,
               d, child.cursor)
  }

  /** One trunk of regenerate from its four draws: direction ra, length rl,
      palette entry rp and shade rh, then growBranch from no parent at depth
      0. */
  function GrownTrunk(k: Kind, lib: Three, scale: real, sk: seq<Segment>, d: nat -> real,
                      ra: real, rl: real, rp: real, rh: real, c: nat): (g: Grown)
    requires UnitDraws(d) && 0.0 <= rl < 1.0 && 0.0 <= rp < 1.0
  {
    GrownBranch(k, lib.rotate, sk, NoParent, lib.polar(ra * Pi * 2.0), 0,
                lib.shade(Palette(k)[PaletteIndex(rp)], (rh - 0.5) * 0.1), Mul(TrunkLength(k, rl), scale), d, c)
  }

  /** Trunks i, i + 1, ..., trunkCount - 1 of regenerate. */
  function Trunks(k: Kind, lib: Three, scale: real, trunkCount: int, i: nat, sk: seq<Segment>,
                  d: nat -> real, c: nat): (g: Grown)
    requires UnitDraws(d)
    decreases trunkCount - i, c
  {
    if i >= trunkCount then Grown(sk, c)
    else
      var t := GrownTrunk(k, lib, scale, sk, d, d(c), d(c + 1), d(c + 2), d(c + 3), c + 4);
      Trunks(k, lib, scale, trunkCount, i + 1, t.skeleton, d, t.cursor)
  }

  /** One trunk of regenerate, then the rest. */
  lemma TrunksStep(k: Kind, lib: Three, scale: real, trunkCount: int, i: nat, sk: seq<Segment>,
                   d: nat -> real, c: nat, ra: real, rl: real, rp: real, rh: real, c4: nat, g: Grown)
    requires UnitDraws(d) && i < trunkCount
    requires ra == d(c) && rl == d(c + 1) && rp == d(c + 2) && rh == d(c + 3) && c4 == c + 4
    requires g == GrownTrunk(k, lib, scale, sk, d, ra, rl, rp, rh, c4)
    ensures Trunks(k, lib, scale, trunkCount, i, sk, d, c) == Trunks(k, lib, scale, trunkCount, i + 1, g.skeleton, d, g.cursor)
  {
  }

  /** regenerate(): the strike's scale and trunk count, then the trunks, on
      an empty skeleton. */
  function Regrown(k: Kind, lib: Three, treeScale: real, d: nat -> real, c: nat): (g: Grown)
    requires UnitDraws(d)
  {
    Trunks(k, lib, Mul(treeScale, 0.8 + d(c) * 0.4), TrunkCount(k, d(c + 1)), 0, [], d, c + 2)
  }

  /** The start of regenerate(): the scale draw rs and the trunk count draw
      rn, then trunk 0 on an empty skeleton. */
  lemma RegrownIs(k: Kind, lib: Three, treeScale: real, d: nat -> real, c: nat, rs: real, rn: real,
                  scale: real, trunkCount: int, sk: seq<Segment>, c2: nat)
    requires UnitDraws(d) && rs == d(c) && rn == d(c + 1)
    requires scale == Mul(treeScale, 0.8 + rs * 0.4) && trunkCount == TrunkCount(k, rn) && sk == [] && c2 == c + 2
    ensures Regrown(k, lib, treeScale, d, c) == Trunks(k, lib, scale, trunkCount, 0, sk, d, c2)
  {
  }

  /** The skeleton and the cursor after the tick of a frame whose draws for
      regenerate() start at c: regrown when the frame fires, as they were
      otherwise. */
  function Struck(k: Kind, lib: Three, treeScale: real, fires: bool, sk: seq<Segment>, d: nat -> real, c: nat): (g: Grown)
    requires UnitDraws(d)
  {
    if fires then Regrown(k, lib, treeScale, d, c) else Grown(sk, c)
  }

  /** Whether a Tree frame in the territory lights a flash: the machine is
      armed and the energy beats the threshold moved by the flux draw r. */
  predicate TreeFires(l: Life, threshold: real, audio: Bands, r: real)
    requires 0.0 <= r < 1.0
  {
    Armed(l) && TreeIgnites(TreeEnergy(audio), threshold, r)
  }

  /** Whether a VoiceTree frame in the territory lights a flash. */
  predicate VoiceFires(l: Life, audio: Bands)
  {
    Armed(l) && VoiceEnergy(audio.mid) > VoiceThreshold
  }

  /** grown extends sk by segments at or below depth, in color, each
      hanging off a segment added after sk except the first. */
  ghost predicate Subtree(grown: seq<Segment>, sk: seq<Segment>, depth: nat, color: Color)
  {
    && |grown| >= |sk|
    && (forall i :: 0 <= i < |sk| ==> grown[i] == sk[i])
    && (forall i :: |sk| <= i < |grown| ==> grown[i].depth >= depth && grown[i].color == color)
    && (forall i :: |sk| < i < |grown| ==> grown[i].parentId >= |sk|)
  }

  /** grown extends sk by segments strictly below depth, in color, none
      hanging off a segment before parentId: the children of parentId and
      their subtrees. */
  ghost predicate Children(grown: seq<Segment>, sk: seq<Segment>, parentId: int, depth: nat, color: Color)
  {
    && |grown| >= |sk|
    && (forall i :: 0 <= i < |sk| ==> grown[i] == sk[i])
    && (forall i :: |sk| <= i < |grown| ==>
          grown[i].depth > depth && grown[i].color == color && grown[i].parentId >= parentId)
  }

  /** Children of parentId grown after more children are still its children. */
  lemma ChildrenCompose(sk: seq<Segment>, mid: seq<Segment>, grown: seq<Segment>, parentId: int, depth: nat,
                        color: Color)
    requires Children(mid, sk, parentId, depth, color) && Children(grown, mid, parentId, depth, color)
    ensures Children(grown, sk, parentId, depth, color)
  {
  }

  /** A chain emitted under a linked parent keeps the forest: its first link
      hangs off parentId one level down, every later link off the one before
      it at the same depth. */
  lemma {:induction false} LinksForest(k: Kind, rotate: (Vec2, real) -> Vec2, sk: seq<Segment>, m: nat,
                                       parentId: int, direction: Vec2, depth: nat, color: Color, length: real,
                                       d: nat -> real, c: nat)
    requires UnitDraws(d) && Forest(sk, MaxDepth(k)) && depth < MaxDepth(k)
    requires parentId == NoParent ==> depth == 0
    requires parentId != NoParent ==> 0 <= parentId < |sk| && sk[parentId].depth + 1 == depth
    ensures Forest(sk + Links(rotate, |sk|, m, parentId, direction, depth, color, length, d, c), MaxDepth(k))
    decreases m
  {
    if m > 0 {
      LinksForest(k, rotate, sk, m - 1, parentId, direction, depth, color, length, d, c);
      var prev := sk + Links(rotate, |sk|, m - 1, parentId, direction, depth, color, length, d, c);
      var s := Link(rotate, |sk|, |sk| + m - 1, parentId, direction, depth, color, length, d, c);
      if m > 1 {
        LinksAt(rotate, |sk|, m - 1, parentId, direction, depth, color, length, d, c, m - 2);
        assert prev[|sk| + m - 2].depth == depth;
      } else if parentId != NoParent {
        assert prev[parentId] == sk[parentId];
      }
      ForestAppend(prev, MaxDepth(k), s);
      assert sk + Links(rotate, |sk|, m, parentId, direction, depth, color, length, d, c) == prev + [s];
    } else {
      assert sk + Links(rotate, |sk|, m, parentId, direction, depth, color, length, d, c) == sk;
    }
  }

  /** The chain of a proceeding growBranch on a forest: still a forest, the
      old skeleton followed by exactly the chain's links, the last of them at
      the call's depth. */
  lemma ChainFacts(k: Kind, rotate: (Vec2, real) -> Vec2, sk: seq<Segment>, chained: seq<Segment>, parentId: int,
                   direction: Vec2, depth: nat, color: Color, length: real, d: nat -> real, c: nat)
    requires UnitDraws(d) && Forest(sk, MaxDepth(k)) && |sk| < MaxSegments(k) && depth < MaxDepth(k)
    requires parentId == NoParent ==> depth == 0
    requires parentId != NoParent ==> 0 <= parentId < |sk| && sk[parentId].depth + 1 == depth
    requires chained == sk + Chain(k, rotate, sk, parentId, direction, depth, color, length, d, c)
    ensures Forest(chained, MaxDepth(k)) && |chained| == |sk| + ChainLength(k, |sk|, length)
    ensures forall i :: 0 <= i < |sk| ==> chained[i] == sk[i]
    ensures HasChain(chained, k, rotate, |sk|, parentId, direction, depth, color, length, d, c)
    ensures chained[|chained| - 1].depth == depth
  {
    var m := ChainLength(k, |sk|, length);
    LinksForest(k, rotate, sk, m, parentId, direction, depth, color, length, d, c);
    forall i | |sk| <= i < |chained|
      ensures chained[i] == Link(rotate, |sk|, i, parentId, direction, depth, color, length, d, c)
    {
      LinksAt(rotate, |sk|, m, parentId, direction, depth, color, length, d, c, i - |sk|);
    }
  }

  /** What growBranch leaves behind, on a forest and under a linked parent:
      still a forest within the cap, the old skeleton followed by segments at
      or below depth in its colour, the first of them under parentId; new
      segments exactly when the guards pass, and then the chain first; a
      stopped call reads only its guard draws. */
  lemma {:induction false} GrownBranchFacts(k: Kind, rotate: (Vec2, real) -> Vec2, sk: seq<Segment>, parentId: int,
                                            direction: Vec2, depth: nat, color: Color, length: real,
                                            d: nat -> real, c: nat)
    requires UnitDraws(d) && Forest(sk, MaxDepth(k)) && |sk| <= MaxSegments(k)
    requires parentId == NoParent ==> depth == 0
    requires parentId != NoParent ==> 0 <= parentId < |sk| && sk[parentId].depth + 1 == depth
    ensures var g := GrownBranch(k, rotate, sk, parentId, direction, depth, color, length, d, c);
      && Forest(g.skeleton, MaxDepth(k)) && |g.skeleton| <= MaxSegments(k)
      && Subtree(g.skeleton, sk, depth, color)
      && (|g.skeleton| > |sk| ==> g.skeleton[|sk|].parentId == parentId)
      && g.cursor >= c
      && (|g.skeleton| > |sk| <==> Proceeds(k, |sk|, depth, d, c))
      && (!Proceeds(k, |sk|, depth, d, c) ==> g.cursor == c + GuardDraws(k, |sk|, depth))
      && (Proceeds(k, |sk|, depth, d, c) ==>
            HasChain(g.skeleton, k, rotate, |sk|, parentId, direction, depth, color, length,
                     d, c + GuardDraws(k, |sk|, depth)))
    decreases MaxDepth(k) - depth, 2
  {
    if Proceeds(k, |sk|, depth, d, c) {
      SproutedFacts(k, rotate, sk, parentId, direction, depth, color, length, d, c + GuardDraws(k, |sk|, depth));
    }
  }

  /** What the body of growBranch leaves behind: its chain, then the
      children under the chain's last link. */
  lemma {:induction false} SproutedFacts(k: Kind, rotate: (Vec2, real) -> Vec2, sk: seq<Segment>, parentId: int,
                                         direction: Vec2, depth: nat, color: Color, length: real,
                                         d: nat -> real, c: nat)
    requires UnitDraws(d) && Forest(sk, MaxDepth(k)) && |sk| < MaxSegments(k) && depth < MaxDepth(k)
    requires parentId == NoParent ==> depth == 0
    requires parentId != NoParent ==> 0 <= parentId < |sk| && sk[parentId].depth + 1 == depth
    ensures var g := Sprouted(k, rotate, sk, parentId, direction, depth, color, length, d, c);
      && Forest(g.skeleton, MaxDepth(k)) && |g.skeleton| <= MaxSegments(k)
      && |g.skeleton| > |sk|
      && Subtree(g.skeleton, sk, depth, color)
      && HasChain(g.skeleton, k, rotate, |sk|, parentId, direction, depth, color, length, d, c)
      && g.skeleton[|sk|].parentId == parentId
      && g.cursor >= c
    decreases MaxDepth(k) - depth, 1
  {
    var chained := sk + Chain(k, rotate, sk, parentId, direction, depth, color, length, d, c);
    var c1 := c + ChainLength(k, |sk|, length);
    var n := ChildCount(k, depth, d, c1);
    var c2 := c1 + ChildDraws(k, depth, d, c1);
    var g := Branched(k, rotate, chained, |chained| - 1, direction, depth, color, length, n, 0, d, c2);
    SproutedIs(k, rotate, sk, chained, |chained| - 1, parentId, direction, depth, color, length, d, c, c1, g);
    ChainFacts(k, rotate, sk, chained, parentId, direction, depth, color, length, d, c);
    BranchedFacts(k, rotate, chained, |chained| - 1, direction, depth, color, length, n, 0, d, c2);
    SproutShape(k, rotate, sk, chained, g.skeleton, parentId, direction, depth, color, length, d, c);
  }

  /** What the branch loop leaves behind: the children of parentId and their
      subtrees, strictly below depth and in its colour. */
  lemma {:induction false} BranchedFacts(k: Kind, rotate: (Vec2, real) -> Vec2, sk: seq<Segment>, parentId: int,
                                         direction: Vec2, depth: nat, color: Color, length: real,
                                         childCount: int, i: nat, d: nat -> real, c: nat)
    requires UnitDraws(d) && Forest(sk, MaxDepth(k)) && |sk| <= MaxSegments(k) && depth < MaxDepth(k)
    requires 0 <= parentId < |sk| && sk[parentId].depth == depth
    ensures var g := Branched(k, rotate, sk, parentId, direction, depth, color, length, childCount, i, d, c);
      && Forest(g.skeleton, MaxDepth(k)) && |g.skeleton| <= MaxSegments(k)
      && Children(g.skeleton, sk, parentId, depth, color)
      && g.cursor >= c
    decreases MaxDepth(k) - depth, 0, childCount - i
  {
    if i < childCount {
      var newDir := rotate(direction, Mul(d(c) - 0.5, ChildSpread(depth)));
      var newLen := Mul(length, Decay(d(c + 1)));
      GrownBranchFacts(k, rotate, sk, parentId, newDir, depth + 1, color, newLen, d, c + 2);
      var child := GrownChild(k, rotate, sk, parentId, direction, depth, color, length, d, d(c), d(c + 1), c + 2);
      assert Children(child.skeleton, sk, parentId, depth, color);
      assert child.skeleton[parentId] == sk[parentId];
      BranchedFacts(k, rotate, child.skeleton, parentId, direction, depth, color, length, childCount, i + 1,
                    d, child.cursor);
      var g := Branched(k, rotate, child.skeleton, parentId, direction, depth, color, length, childCount, i + 1,
                        d, child.cursor);
      ChildrenCompose(sk, child.skeleton, g.skeleton, parentId, depth, color);
    }
  }

  /** One trunk on a forest: a growBranch from no parent at depth 0 adds
      exactly one root unless the buffer is already full, in which case
      nothing changes. */
  lemma TrunkFacts(k: Kind, rotate: (Vec2, real) -> Vec2, sk: seq<Segment>, direction: Vec2,
                   color: Color, length: real, d: nat -> real, c: nat)
    requires UnitDraws(d) && Forest(sk, MaxDepth(k)) && |sk| <= MaxSegments(k)
    ensures var g := GrownBranch(k, rotate, sk, NoParent, direction, 0, color, length, d, c);
      && Forest(g.skeleton, MaxDepth(k)) && |g.skeleton| <= MaxSegments(k)
      && |g.skeleton| >= |sk| && g.cursor >= c
      && (|sk| < MaxSegments(k) ==> Roots(g.skeleton) == Roots(sk) + 1)
      && (|sk| == MaxSegments(k) ==> g.skeleton == sk)
  {
    GrownBranchFacts(k, rotate, sk, NoParent, direction, 0, color, length, d, c);
    var g := GrownBranch(k, rotate, sk, NoParent, direction, 0, color, length, d, c);
    if |sk| < MaxSegments(k) {
      assert Proceeds(k, |sk|, 0, d, c);
      RootsOneAfter(g.skeleton, |sk|);
      assert g.skeleton[..|sk|] == sk;
    }
  }

  /** Trunks i.. on a forest: one more root per trunk while the buffer has
      room, never more. */
  lemma {:induction false} TrunksFacts(k: Kind, lib: Three, scale: real, trunkCount: int, i: nat,
                                       sk: seq<Segment>, d: nat -> real, c: nat)
    requires UnitDraws(d) && Forest(sk, MaxDepth(k)) && |sk| <= MaxSegments(k) && i <= trunkCount
    ensures var g := Trunks(k, lib, scale, trunkCount, i, sk, d, c);
      && Forest(g.skeleton, MaxDepth(k)) && |g.skeleton| <= MaxSegments(k)
      && |g.skeleton| >= |sk| && g.cursor >= c
      && Roots(g.skeleton) <= Roots(sk) + (trunkCount - i)
      && (|g.skeleton| < MaxSegments(k) ==> Roots(g.skeleton) == Roots(sk) + (trunkCount - i))
    decreases trunkCount - i
  {
    if i < trunkCount {
      TrunkFacts(k, lib.rotate, sk, lib.polar(d(c) * Pi * 2.0),
                 lib.shade(Palette(k)[PaletteIndex(d(c + 2))], (d(c + 3) - 0.5) * 0.1),
                 Mul(TrunkLength(k, d(c + 1)), scale), d, c + 4);
      var t := GrownTrunk(k, lib, scale, sk, d, d(c), d(c + 1), d(c + 2), d(c + 3), c + 4);
      TrunksFacts(k, lib, scale, trunkCount, i + 1, t.skeleton, d, t.cursor);
    }
  }

  /** regenerate() grows a forest within the cap with at most as many roots
      as its trunk count, and exactly that many when the cap is not hit. */
  lemma RegrownFacts(k: Kind, lib: Three, treeScale: real, d: nat -> real, c: nat)
    requires UnitDraws(d)
    ensures var g := Regrown(k, lib, treeScale, d, c);
      && Forest(g.skeleton, MaxDepth(k)) && |g.skeleton| <= MaxSegments(k)
      && g.cursor >= c + 2
      && Roots(g.skeleton) <= TrunkCount(k, d(c + 1))
      && (|g.skeleton| < MaxSegments(k) ==> Roots(g.skeleton) == TrunkCount(k, d(c + 1)))
  {
    TrunksFacts(k, lib, Mul(treeScale, 0.8 + d(c) * 0.4), TrunkCount(k, d(c + 1)), 0, [], d, c + 2);
  }

  /** The projection settings of a Tree frame: stretch 1 + bass * 0.15 and a
      jitter of 0.1 + treble * 4 + r * 0.3 that is always applied. */
  function TreeEnv(seeds: seq<Seed>, seedId: int, anchor: Vec2, audio: Bands, r: real,
                   normalize: Vec2 -> Vec2, draws: nat -> real): (e: Env)
    requires 0.0 <= r < 1.0
    ensures e.seeds == seeds && e.seedId == seedId && e.anchor == anchor && e.jitterOn
    ensures e.normalize == normalize && e.draws == draws
    ensures audio.bass >= 0.0 ==> e.stretch >= 1.0
    ensures audio.treble >= 0.0 ==> 0.1 <= e.jitter < 0.4 + audio.treble * 4.0
  {
    Env(seeds, seedId, anchor, 1.0 + audio.bass * 0.15, 0.1 + audio.treble * 4.0 + r * 0.3, true, normalize, draws)
  }

  /** The projection settings of a VoiceTree frame: the bass stretches only
      above 0.2, the mids jitter (by mid * 2) only above 0.3, and a jitter of
      at most 0.01 is not applied. */
  function VoiceEnv(seeds: seq<Seed>, seedId: int, anchor: Vec2, audio: Bands,
                    normalize: Vec2 -> Vec2, draws: nat -> real): (e: Env)
    ensures e.seeds == seeds && e.seedId == seedId && e.anchor == anchor
    ensures e.normalize == normalize && e.draws == draws
    ensures audio.bass <= 0.2 ==> e.stretch == 1.0
    ensures audio.bass > 0.2 ==> e.stretch == 1.0 + audio.bass * 0.15
    ensures audio.mid <= 0.3 ==> e.jitter == 0.0 && !e.jitterOn
    ensures audio.mid > 0.3 ==> e.jitter == audio.mid * 2.0 && e.jitterOn
  {
    var cleanBass := if audio.bass > 0.2 then audio.bass else 0.0;
    var jitter := if audio.mid > 0.3 then audio.mid * 2.0 else 0.0;
    Env(seeds, seedId, anchor, 1.0 + cleanBass * 0.15, jitter, jitter > 0.01, normalize, draws)
  }

  /** A quiet VoiceTree frame reads no draws: with mids at most 0.3 the
      projection is the same whatever the random stream, and leaves its cursor
      where it was. */
  lemma {:induction false} QuietVoiceFrameIsSteady(seeds: seq<Seed>, seedId: int, anchor: Vec2, audio: Bands,
                                                   normalize: Vec2 -> Vec2, d1: nat -> real, d2: nat -> real,
                                                   sk: seq<Segment>, c1: nat, c2: nat)
    requires Weighted(seeds) && audio.mid <= 0.3
    ensures ProjectUpTo(sk, VoiceEnv(seeds, seedId, anchor, audio, normalize, d1), |sk|, c1).cursor == c1
    ensures ProjectUpTo(sk, VoiceEnv(seeds, seedId, anchor, audio, normalize, d1), |sk|, c1).slots
         == ProjectUpTo(sk, VoiceEnv(seeds, seedId, anchor, audio, normalize, d2), |sk|, c2).slots
  {
    var e := VoiceEnv(seeds, seedId, anchor, audio, normalize, d1);
    assert e.(draws := d2) == VoiceEnv(seeds, seedId, anchor, audio, normalize, d2);
    NoJitterReadsNoDraws(sk, e, d2, |sk|, c1, c2);
  }

  /** The constructor's draws, in order: the scale, the initial cooldown and,
      for Tree only, the trigger threshold (0 when not drawn). */
  method DrawProfile(kind: Kind, rng: Rng) returns (rs: real, rc: real, rt: real)
    requires rng.Valid()
    modifies rng
    ensures rs == rng.stream(old(rng.pos)) && rc == rng.stream(old(rng.pos) + 1)
    ensures rt == if kind == Tree then rng.stream(old(rng.pos) + 2) else 0.0
    ensures rng.pos == old(rng.pos) + if kind == Tree then 3 else 2
  {
    rs := rng.Next();
    rc := rng.Next();
    rt := 0.0;
    if DrawsThreshold(kind) {
      rt := rng.Next();
    }
  }

  class GrowthUnit {
    const kind: Kind
    const seedId: int
    const border: BorderSystem
    const lib: Three
    const treeScale: real
    const triggerThreshold: real
    /** The Float32Array buffers: 6 floats per segment, maxSegments segments. */
    const positions: array<real>
    const colors: array<real>

    var opacity: real
    var isFlashing: bool
    var cooldownTimer: real
    var skeleton: seq<Segment>
    /** mesh.visible and material.opacity. */
    var visible: bool
    var materialOpacity: real
    /** VoiceTree only: the toggle state and the master fade. */
    var isActive: bool
    var masterAlpha: real

    function State(): Life
      reads this`opacity, this`isFlashing, this`cooldownTimer
    {
      Life(opacity, isFlashing, cooldownTimer)
    }

    ghost predicate Valid()
      reads this
    {
      && positions.Length == 6 * MaxSegments(kind)
      && colors.Length == 6 * MaxSegments(kind)
      && positions != colors
      && Forest(skeleton, MaxDepth(kind))
      && |skeleton| <= MaxSegments(kind)
      && Ok(State())
      && 0.0 <= masterAlpha <= 1.0
      && treeScale > 0.0
      && (kind == Tree ==> 0.15 <= triggerThreshold)
      && (kind == VoiceTree ==> triggerThreshold == VoiceThreshold)
    }

    /** The colour buffer holds the colours of the current skeleton. */
    ghost predicate ColorsMatch()
      reads this`skeleton, colors
    {
      && 6 * |skeleton| <= colors.Length
      && forall j :: 0 <= j < 6 * |skeleton| ==> colors[j] == ColorAt(skeleton, MaxDepth(kind), j)
    }

    /** The constructors of both classes: treeScale, cooldownTimer and (Tree
        only) triggerThreshold are drawn in that order, the buffers are
        allocated zeroed, and a first skeleton is grown. */
    constructor (kind: Kind, seedId: int, border: BorderSystem, lib: Three, rng: Rng)
      requires rng.Valid()
      modifies rng
      ensures Valid()
      ensures this.kind == kind && this.seedId == seedId && this.border == border && this.lib == lib
      ensures fresh(positions) && fresh(colors)
      ensures opacity == 0.0 && !isFlashing && !isActive && masterAlpha == 0.0
      ensures visible && materialOpacity == 0.0
      ensures treeScale == TreeScale(kind, rng.stream(old(rng.pos)))
      ensures cooldownTimer == Initial(rng.stream(old(rng.pos) + 1)).cooldown
      ensures kind == Tree ==> triggerThreshold == TriggerThreshold(kind, rng.stream(old(rng.pos) + 2))
      ensures Grown(skeleton, rng.pos)
           == Regrown(kind, lib, treeScale, rng.stream, old(rng.pos) + if kind == Tree then 3 else 2)
      ensures ColorsMatch()
      ensures forall j :: 0 <= j < positions.Length ==> positions[j] == 0.0
    {
      var rs, rc, rt := DrawProfile(kind, rng);
      this.kind := kind;
      this.seedId := seedId;
      this.border := border;
      this.lib := lib;
      treeScale := TreeScale(kind, rs);
      triggerThreshold := TriggerThreshold(kind, rt);
      var life := Initial(rc);
      opacity := life.opacity;
      isFlashing := life.flashing;
      cooldownTimer := life.cooldown;
      skeleton := [];
      visible := true;
      materialOpacity := 0.0;
      isActive := false;
      masterAlpha := 0.0;
      positions := new real[6 * MaxSegments(kind)](_ => 0.0);
      colors := new real[6 * MaxSegments(kind)](_ => 0.0);
      new;
      Regenerate(rng);
    }

    /** The child count of growBranch, with the draws of its source file. */
    method DrawChildCount(depth: nat, rng: Rng) returns (n: int)
      requires rng.Valid()
      modifies rng
      ensures n == ChildCount(kind, depth, rng.stream, old(rng.pos))
      ensures rng.pos == old(rng.pos) + ChildDraws(kind, depth, rng.stream, old(rng.pos))
    {
      if kind == Tree {
        var r := rng.Next();
        if depth == 0 {
          var r2 := rng.Next();
          n := 2 + (r2 * 3.0).Floor;
        } else if r < 0.3 {
          n := 1;
        } else if r < 0.8 {
          n := 2;
        } else {
          n := 3;
        }
      } else {
        if depth == 0 {
          var r := rng.Next();
          n := 2 + (r * 3.0).Floor;
        } else {
          var r1 := rng.Next();
          if r1 < 0.3 {
            n := 1;
          } else {
            var r2 := rng.Next();
            n := if r2 < 0.8 then 2 else 3;
          }
        }
      }
    }

    /** The zig-zag loop of growBranch: pushes up to steps links, stopping at
        the buffer cap; returns the id of the last link. */
    method EmitChain(parentId: int, direction: Vec2, depth: nat, color: Color, length: real, rng: Rng)
      returns (last: int)
      requires |skeleton| < MaxSegments(kind) && rng.Valid()
      modifies this`skeleton, rng
      ensures |skeleton| == old(|skeleton|) + ChainLength(kind, old(|skeleton|), length)
      ensures forall i :: 0 <= i < old(|skeleton|) ==> skeleton[i] == old(skeleton[i])
      ensures forall i :: old(|skeleton|) <= i < |skeleton| ==>
        skeleton[i] == Link(lib.rotate, old(|skeleton|), i, parentId, direction, depth, color, length,
                            rng.stream, old(rng.pos))
      ensures rng.pos == old(rng.pos) + ChainLength(kind, old(|skeleton|), length)
      ensures last == |skeleton| - 1
    {
      ghost var n0, c0 := |skeleton|, rng.pos;
      var steps := Steps(length);
      var currentParentId := parentId;
      var i := 0;
      while i < steps
        invariant 0 <= i <= steps && |skeleton| == n0 + i <= MaxSegments(kind)
        invariant forall j :: 0 <= j < n0 ==> skeleton[j] == old(skeleton[j])
        invariant forall j :: n0 <= j < |skeleton| ==>
          skeleton[j] == Link(lib.rotate, n0, j, parentId, direction, depth, color, length, rng.stream, c0)
        invariant rng.pos == c0 + i
        invariant currentParentId == if i == 0 then parentId else |skeleton| - 1
      {
        if |skeleton| >= MaxSegments(kind) {
          break;
        }
        var r := rng.Next();
        var currentDir := lib.rotate(direction, Kink(r));
        var seg := Segment(|skeleton|, currentParentId, depth, currentDir, Quot(length, steps as real), color);
        assert seg == Link(lib.rotate, n0, |skeleton|, parentId, direction, depth, color, length, rng.stream, c0);
        skeleton := skeleton + [seg];
        currentParentId := seg.id;
        i := i + 1;
      }
      last := currentParentId;
    }

    /** growBranch(parentId, null, direction, depth, color, length): the three
        guards, then the chain and the children. What the call leaves behind
        is stated on the function it computes (GrownBranchFacts). */
    method GrowBranch(parentId: int, direction: Vec2, depth: nat, color: Color, length: real, rng: Rng)
      requires rng.Valid()
      modifies this`skeleton, rng
      decreases MaxDepth(kind) - depth, 4
      ensures Grown(skeleton, rng.pos)
           == GrownBranch(kind, lib.rotate, old(skeleton), parentId, direction, depth, color, length,
                          rng.stream, old(rng.pos))
    {
      ghost var sk0, c0 := skeleton, rng.pos;
      if |skeleton| >= MaxSegments(kind) || depth >= MaxDepth(kind) {
        GrownBranchStops(kind, lib.rotate, sk0, parentId, direction, depth, color, length, rng.stream, c0);
        return;
      }
      if StopTested(kind, depth) {
        var r := rng.Next();
        if r < depth as real * StopRate(kind) {
          GrownBranchStops(kind, lib.rotate, sk0, parentId, direction, depth, color, length, rng.stream, c0);
          return;
        }
      }
      ghost var c1 := rng.pos;
      Sprout(parentId, direction, depth, color, length, rng);
      GrownBranchProceeds(kind, lib.rotate, sk0, parentId, direction, depth, color, length, rng.stream, c0, c1,
                          Grown(skeleton, rng.pos));
    }

    /** The body of growBranch past its guards: the zig-zag chain, the child
        count, and the children. */
    method Sprout(parentId: int, direction: Vec2, depth: nat, color: Color, length: real, rng: Rng)
      requires |skeleton| < MaxSegments(kind) && depth < MaxDepth(kind) && rng.Valid()
      modifies this`skeleton, rng
      decreases MaxDepth(kind) - depth, 3
      ensures Grown(skeleton, rng.pos)
           == Sprouted(kind, lib.rotate, old(skeleton), parentId, direction, depth, color, length,
                       rng.stream, old(rng.pos))
    {
      ghost var sk0, c0 := skeleton, rng.pos;
      var last := EmitChain(parentId, direction, depth, color, length, rng);
      ghost var chained := skeleton;
      ChainAppended(kind, lib.rotate, sk0, chained, parentId, direction, depth, color, length, rng.stream, c0);
      ghost var c1 := rng.pos;
      Branch(last, direction, depth, color, length, rng);
      SproutedIs(kind, lib.rotate, sk0, chained, last, parentId, direction, depth, color, length,
                 rng.stream, c0, c1, Grown(skeleton, rng.pos));
    }

    /** The child count of growBranch, then its branching loop. */
    method Branch(parentId: int, direction: Vec2, depth: nat, color: Color, length: real, rng: Rng)
      requires depth < MaxDepth(kind) && rng.Valid()
      modifies this`skeleton, rng
      decreases MaxDepth(kind) - depth, 2
      ensures Grown(skeleton, rng.pos)
           == Branched(kind, lib.rotate, old(skeleton), parentId, direction, depth, color, length,
                       ChildCount(kind, depth, rng.stream, old(rng.pos)), 0,
                       rng.stream, old(rng.pos) + ChildDraws(kind, depth, rng.stream, old(rng.pos)))
    {
      ghost var sk0 := skeleton;
      var childCount := DrawChildCount(depth, rng);
      ghost var c1 := rng.pos;
      GrowChildren(parentId, direction, depth, color, length, childCount, rng);
      assert Grown(skeleton, rng.pos)
          == Branched(kind, lib.rotate, sk0, parentId, direction, depth, color, length, childCount, 0, rng.stream, c1);
    }

    /** The branching loop of growBranch: childCount children under the last
        link, each turned by (r - 0.5) * spread and shortened by the decay. */
    method GrowChildren(parentId: int, direction: Vec2, depth: nat, color: Color, length: real,
                        childCount: int, rng: Rng)
      requires depth < MaxDepth(kind) && rng.Valid()
      modifies this`skeleton, rng
      decreases MaxDepth(kind) - depth, 1
      ensures Grown(skeleton, rng.pos)
           == Branched(kind, lib.rotate, old(skeleton), parentId, direction, depth, color, length, childCount, 0,
                       rng.stream, old(rng.pos))
    {
      var i := 0;
      while i < childCount
        invariant 0 <= i
        invariant Branched(kind, lib.rotate, old(skeleton), parentId, direction, depth, color, length, childCount, 0,
                           rng.stream, old(rng.pos))
               == Branched(kind, lib.rotate, skeleton, parentId, direction, depth, color, length, childCount, i,
                           rng.stream, rng.pos)
      {
        GrowChild(parentId, direction, depth, color, length, childCount, i, rng);
        i := i + 1;
      }
    }

    /** One iteration of the branching loop: the turn and the decay draws,
        then growBranch one level deeper under parentId. */
    method GrowChild(parentId: int, direction: Vec2, depth: nat, color: Color, length: real,
                     ghost childCount: int, ghost i: nat, rng: Rng)
      requires depth < MaxDepth(kind) && i < childCount && rng.Valid()
      modifies this`skeleton, rng
      decreases MaxDepth(kind) - depth, 0
      ensures Branched(kind, lib.rotate, old(skeleton), parentId, direction, depth, color, length, childCount, i,
                       rng.stream, old(rng.pos))
           == Branched(kind, lib.rotate, skeleton, parentId, direction, depth, color, length, childCount, i + 1,
                       rng.stream, rng.pos)
    {
      ghost var sk0, c0 := skeleton, rng.pos;
      var rt := rng.Next();
      var angleOffset := Mul(rt - 0.5, ChildSpread(depth));
      var newDir := lib.rotate(direction, angleOffset);
      var rd := rng.Next();
      var newLen := Mul(length, Decay(rd));
      ghost var c2 := rng.pos;
      GrowBranch(parentId, newDir, depth + 1, color, newLen, rng);
      BranchedStep(kind, lib.rotate, sk0, parentId, direction, depth, color, length, childCount, i,
                   rng.stream, c0, rt, rd, c2, Grown(skeleton, rng.pos));
    }

    /** regenerate(): a fresh skeleton of 2-4 (Tree) or 2-3 (VoiceTree) trunks,
        then the colour buffer. */
    method Regenerate(rng: Rng)
      requires Valid() && rng.Valid()
      modifies this`skeleton, colors, rng
      ensures Valid()
      ensures Grown(skeleton, rng.pos) == Regrown(kind, lib, treeScale, rng.stream, old(rng.pos))
      ensures ColorsMatch()
      ensures forall j :: 6 * |skeleton| <= j < colors.Length ==> colors[j] == old(colors[j])
    {
      ghost var c0 := rng.pos;
      skeleton := [];
      var rs := rng.Next();
      var currentScale := Mul(treeScale, 0.8 + rs * 0.4);
      var rn := rng.Next();
      var trunkCount := TrunkCount(kind, rn);
      RegrownIs(kind, lib, treeScale, rng.stream, c0, rs, rn, currentScale, trunkCount, skeleton, rng.pos);
      var i := 0;
      while i < trunkCount
        modifies this`skeleton, rng
        invariant 0 <= i <= trunkCount
        invariant Regrown(kind, lib, treeScale, rng.stream, c0)
               == Trunks(kind, lib, currentScale, trunkCount, i, skeleton, rng.stream, rng.pos)
      {
        PlantTrunk(currentScale, trunkCount, i, rng);
        i := i + 1;
      }
      RegrownFacts(kind, lib, treeScale, rng.stream, c0);
      UpdateColorBuffer();
    }

    /** One trunk of regenerate(): a random direction, length and shaded
        palette colour, then growBranch from no parent at depth 0. */
    method PlantTrunk(currentScale: real, ghost trunkCount: int, ghost i: nat, rng: Rng)
      requires i < trunkCount && rng.Valid()
      modifies this`skeleton, rng
      ensures Trunks(kind, lib, currentScale, trunkCount, i, old(skeleton), rng.stream, old(rng.pos))
           == Trunks(kind, lib, currentScale, trunkCount, i + 1, skeleton, rng.stream, rng.pos)
    {
      ghost var sk0, c0 := skeleton, rng.pos;
      var ra := rng.Next();
      var dir := lib.polar(ra * Pi * 2.0);
      var rl := rng.Next();
      var len := Mul(TrunkLength(kind, rl), currentScale);
      var rp := rng.Next();
      var rh := rng.Next();
      var baseColor := lib.shade(Palette(kind)[PaletteIndex(rp)], (rh - 0.5) * 0.1);
      ghost var c4 := rng.pos;
      GrowBranch(NoParent, dir, 0, baseColor, len, rng);
      TrunksStep(kind, lib, currentScale, trunkCount, i, sk0, rng.stream, c0, ra, rl, rp, rh, c4,
                 Grown(skeleton, rng.pos));
    }

    /** updateColorBuffer(): six floats per segment, each channel glowing
        towards white with depth; the rest of the buffer is left as it was. */
    method UpdateColorBuffer()
      requires Valid()
      modifies colors
      ensures ColorsMatch()
      ensures forall j :: 6 * |skeleton| <= j < colors.Length ==> colors[j] == old(colors[j])
    {
      var i := 0;
      while i < |skeleton|
        invariant 0 <= i <= |skeleton|
        invariant forall j :: 0 <= j < 6 * i ==> colors[j] == ColorAt(skeleton, MaxDepth(kind), j)
        invariant forall j :: 6 * i <= j < colors.Length ==> colors[j] == old(colors[j])
      {
        WriteColor(i);
        i := i + 1;
      }
    }

    /** One iteration of updateColorBuffer: both vertices of segment i. */
    method WriteColor(i: nat)
      requires Valid() && i < |skeleton|
      modifies colors
      ensures forall j :: 6 * i <= j < 6 * i + 6 ==> colors[j] == ColorAt(skeleton, MaxDepth(kind), j)
      ensures forall j :: 0 <= j < colors.Length && (j < 6 * i || 6 * i + 6 <= j) ==> colors[j] == old(colors[j])
    {
      var md := MaxDepth(kind);
      var seg := skeleton[i];
      var idx := i * 6;
      var k := 0;
      while k < 6
        invariant k == 0 || k == 3 || k == 6
        invariant forall j :: idx <= j < idx + k ==> colors[j] == ColorAt(skeleton, md, j)
        invariant forall j :: 0 <= j < colors.Length && (j < idx || idx + k <= j) ==> colors[j] == old(colors[j])
      {
        colors[idx + k] := Glow(seg.color.r, seg.depth, md);
        colors[idx + k + 1] := Glow(seg.color.g, seg.depth, md);
        colors[idx + k + 2] := Glow(seg.color.b, seg.depth, md);
        SextetIndex(i, k);
        SextetIndex(i, k + 1);
        SextetIndex(i, k + 2);
        k := k + 3;
      }
    }

    // ------------------------------------------------------------ the frame

    /** The lifecycle part of Tree.update, inside the territory. */
    method TreeTick(audio: Bands, rng: Rng) returns (ignited: bool)
      requires Valid() && rng.Valid() && kind == Tree
      modifies this`opacity, this`isFlashing, this`cooldownTimer, rng
      ensures Valid()
      ensures State() == Tick(old(State()), TreeIgnites(TreeEnergy(audio), triggerThreshold, rng.stream(old(rng.pos))),
                              rng.stream(old(rng.pos)))
      ensures rng.pos == old(rng.pos) + TickDraws(old(State()), true)
      ensures ignited <==> Armed(old(State())) && TreeIgnites(TreeEnergy(audio), triggerThreshold, rng.stream(old(rng.pos)))
    {
      ignited := false;
      if isFlashing {
        opacity := opacity - Dt * DecayRate;
        if opacity <= 0.0 {
          opacity := 0.0;
          isFlashing := false;
          var r := rng.Next();
          cooldownTimer := 0.2 + r * 1.5;
        }
      } else if cooldownTimer > 0.0 {
        cooldownTimer := cooldownTimer - Dt;
      } else {
        var audioEnergy := audio.bass * 0.6 + audio.mid * 0.8 + audio.treble * 1.5;
        var r := rng.Next();
        var flux := (r - 0.5) * 0.15;
        if audioEnergy > triggerThreshold + flux {
          isFlashing := true;
          opacity := 1.0;
          ignited := true;
        }
      }
    }

    /** The lifecycle part of VoiceTree.update, inside the territory: the same
        machine behind the noise gate, with no random flux. */
    method VoiceTick(audio: Bands, rng: Rng) returns (ignited: bool)
      requires Valid() && rng.Valid() && kind == VoiceTree
      modifies this`opacity, this`isFlashing, this`cooldownTimer, rng
      ensures Valid()
      ensures State() == Tick(old(State()), VoiceEnergy(audio.mid) > VoiceThreshold, rng.stream(old(rng.pos)))
      ensures rng.pos == old(rng.pos) + TickDraws(old(State()), false)
      ensures ignited <==> Armed(old(State())) && audio.mid >= VoiceGate
      ensures ignited <==> VoiceFires(old(State()), audio)
    {
      ignited := false;
      if isFlashing {
        opacity := opacity - Dt * DecayRate;
        if opacity <= 0.0 {
          opacity := 0.0;
          isFlashing := false;
          var r := rng.Next();
          cooldownTimer := 0.2 + r * 1.5;
        }
      } else if cooldownTimer > 0.0 {
        cooldownTimer := cooldownTimer - Dt;
      } else {
        var rawVoice := audio.mid;
        if rawVoice < 0.35 {
          rawVoice := 0.0;
        }
        var energy := Mul(rawVoice, rawVoice) * 3.0;
        VoiceTriggerIff(audio.mid);
        if energy > triggerThreshold {
          isFlashing := true;
          opacity := 1.0;
          ignited := true;
        }
      }
    }

    /** The six position floats of one slot, written at `at`. */
    method WriteSlot(at: nat, slot: Slot)
      requires at + 6 <= positions.Length
      modifies positions
      ensures forall k :: 0 <= k < 6 ==> positions[at + k] == SlotValue(slot, k)
      ensures forall j :: 0 <= j < positions.Length && (j < at || at + 6 <= j) ==> positions[j] == old(positions[j])
    {
      match slot
      case Drawn(start, end) =>
        positions[at] := start.x;
        positions[at + 1] := start.y;
        positions[at + 2] := 0.0;
        positions[at + 3] := end.x;
        positions[at + 4] := end.y;
        positions[at + 5] := 0.0;
      case Collapsed =>
        var k := 0;
        while k < 6
          invariant 0 <= k <= 6
          invariant forall j :: at <= j < at + k ==> positions[j] == 0.0
          invariant forall j :: 0 <= j < positions.Length && (j < at || at + k <= j) ==> positions[j] == old(positions[j])
        {
          positions[at + k] := 0.0;
          k := k + 1;
        }
    }

    /** One iteration of the projection loop: where the segment starts, its
        stretched and jittered end, and the clip against the territory. */
    method Resolve(sg: Segment, e: Env, ghost done: seq<Slot>, tips: map<int, Vec2>, rng: Rng)
      returns (slot: Slot, tips': map<int, Vec2>)
      requires border.Valid() && rng.Valid() && Weighted(e.seeds)
      requires e.seeds == border.seeds && e.seedId == seedId && e.normalize == lib.normalize && e.draws == rng.stream
      modifies rng
      ensures Step(Pass(done, tips, old(rng.pos)), sg, e) == Pass(done + [slot], tips', rng.pos)
    {
      if sg.parentId != NoParent && sg.parentId !in tips {
        return Collapsed, tips;
      }
      var start := if sg.parentId == NoParent then e.anchor else tips[sg.parentId];
      var currentLen := Mul(sg.len, e.stretch);
      var end := Add(start, Scale(sg.dir, currentLen));
      if e.jitterOn {
        var rx := rng.Next();
        var ry := rng.Next();
        end := Vec2(end.x + Mul(rx - 0.5, e.jitter), end.y + Mul(ry - 0.5, e.jitter));
      }
      var owner := border.GetOwnerId(end);
      if owner != seedId {
        end := Add(start, Scale(lib.normalize(Scale(sg.dir, currentLen)), Mul(currentLen, StubFraction)));
        owner := border.GetOwnerId(end);
        if owner != seedId {
          return Collapsed, tips;
        }
      }
      return Drawn(start, end), tips[sg.id := end];
    }

    /** The position buffer holds the projection of the skeleton under e
        with the draws from c, which leaves the draws at pos. */
    ghost predicate Shows(e: Env, c: nat, pos: nat)
      requires Weighted(e.seeds)
      reads this`skeleton, positions
    {
      && Rendered(positions[..], ProjectUpTo(skeleton, e, |skeleton|, c).slots)
      && pos == ProjectUpTo(skeleton, e, |skeleton|, c).cursor
    }

    /** After the lifecycle tick of a Tree frame that started from state l0,
        skeleton sk0, colour buffer cols0 and cursor c0: the machine has
        ticked, g is the skeleton and the cursor after regenerate() if the
        frame fired and as before otherwise, and the colours are untouched
        when it did not fire. */
    ghost predicate TreeTicked(l0: Life, sk0: seq<Segment>, cols0: seq<real>, audio: Bands, d: nat -> real, c0: nat,
                               g: Grown)
      requires UnitDraws(d)
      reads this`opacity, this`isFlashing, this`cooldownTimer, colors
    {
      var r := d(c0);
      && State() == Tick(l0, TreeIgnites(TreeEnergy(audio), triggerThreshold, r), r)
      && g == Struck(kind, lib, treeScale, TreeFires(l0, triggerThreshold, audio, r), sk0, d, c0 + TickDraws(l0, true))
      && (!TreeFires(l0, triggerThreshold, audio, r) ==> colors[..] == cols0)
    }

    /** The same for a VoiceTree frame, whose tick draws no flux. */
    ghost predicate VoiceTicked(l0: Life, sk0: seq<Segment>, cols0: seq<real>, audio: Bands, d: nat -> real, c0: nat,
                                g: Grown)
      requires UnitDraws(d)
      reads this`opacity, this`isFlashing, this`cooldownTimer, colors
    {
      && State() == Tick(l0, VoiceEnergy(audio.mid) > VoiceThreshold, d(c0))
      && g == Struck(kind, lib, treeScale, VoiceFires(l0, audio), sk0, d, c0 + TickDraws(l0, false))
      && (!VoiceFires(l0, audio) ==> colors[..] == cols0)
    }

    /** The end of a Tree frame in the territory whose tick left the grown
        skeleton and cursor g: shown exactly when the opacity reaches 0.01,
        then at that opacity with the positions projected after one jitter
        draw, the cursor at pos; hidden, the positions are pos0, the material
        opacity is mo0 and no draw is taken. */
    ghost predicate TreeShown(anchor: Vec2, audio: Bands, d: nat -> real, pos0: seq<real>, mo0: real, g: Grown, pos: nat)
      requires UnitDraws(d) && Weighted(border.seeds)
      reads this`opacity, this`skeleton, this`visible, this`materialOpacity, positions, border
    {
      && (visible <==> opacity >= 0.01)
      && (visible ==> materialOpacity == opacity
                      && Shows(TreeEnv(border.seeds, seedId, anchor, audio, d(g.cursor), lib.normalize, d),
                               g.cursor + 1, pos))
      && (!visible ==> positions[..] == pos0 && materialOpacity == mo0 && pos == g.cursor)
    }

    /** The end of a VoiceTree frame past the master fade: the material
        opacity is the product of the two fades; below 0.01 the positions are
        pos0 and no draw is taken, otherwise they are projected from the
        cursor g left, which ends at pos. */
    ghost predicate VoiceShown(anchor: Vec2, audio: Bands, d: nat -> real, pos0: seq<real>, g: Grown, pos: nat)
      requires Weighted(border.seeds)
      reads this`opacity, this`masterAlpha, this`skeleton, this`materialOpacity, positions, border
    {
      && materialOpacity == Mul(opacity, masterAlpha)
      && (materialOpacity < 0.01 ==> positions[..] == pos0 && pos == g.cursor)
      && (materialOpacity >= 0.01 ==> Shows(VoiceEnv(border.seeds, seedId, anchor, audio, lib.normalize, d),
                                            g.cursor, pos))
    }

    /** The position update of both update() methods: each segment in order,
        then zeros to the end of the buffer. */
    method Project(e: Env, rng: Rng)
      requires Valid() && border.Valid() && rng.Valid() && Weighted(e.seeds)
      requires e.seeds == border.seeds && e.seedId == seedId && e.normalize == lib.normalize && e.draws == rng.stream
      modifies positions, rng
      ensures Shows(e, old(rng.pos), rng.pos)
    {
      ghost var c0 := rng.pos;
      ghost var slots: seq<Slot> := [];
      var validTips: map<int, Vec2> := map[];
      var i := 0;
      while i < |skeleton|
        invariant 0 <= i <= |skeleton|
        invariant ProjectUpTo(skeleton, e, i, c0) == Pass(slots, validTips, rng.pos)
        invariant forall j :: 0 <= j < 6 * i ==> positions[j] == PositionAt(slots, j)
      {
        var slot, tips' := ProjectSegment(i, e, slots, validTips, rng);
        slots := slots + [slot];
        validTips := tips';
        i := i + 1;
      }
      ZeroTail(6 * i, slots);
    }

    /** Segment i of the projection loop, resolved and written at posIndex 6 i. */
    method ProjectSegment(i: nat, e: Env, ghost slots: seq<Slot>, tips: map<int, Vec2>, rng: Rng)
      returns (slot: Slot, tips': map<int, Vec2>)
      requires Valid() && border.Valid() && rng.Valid() && Weighted(e.seeds)
      requires e.seeds == border.seeds && e.seedId == seedId && e.normalize == lib.normalize && e.draws == rng.stream
      requires i < |skeleton| && |slots| == i
      requires forall j :: 0 <= j < 6 * i ==> positions[j] == PositionAt(slots, j)
      modifies positions, rng
      ensures Step(Pass(slots, tips, old(rng.pos)), skeleton[i], e) == Pass(slots + [slot], tips', rng.pos)
      ensures forall j :: 0 <= j < 6 * (i + 1) ==> positions[j] == PositionAt(slots + [slot], j)
    {
      slot, tips' := Resolve(skeleton[i], e, slots, tips, rng);
      WriteSlot(6 * i, slot);
      forall j | 0 <= j < 6 * (i + 1)
        ensures positions[j] == PositionAt(slots + [slot], j)
      {
        if j < 6 * i {
          PositionAtPrefix(slots, slot, j);
        } else {
          PositionAtLast(slots, slot, j - 6 * i);
        }
      }
    }

    /** The closing loop of the projection: zeros from the last slot on. */
    method ZeroTail(from: nat, ghost slots: seq<Slot>)
      requires from == 6 * |slots| <= positions.Length
      requires forall j :: 0 <= j < 6 * |slots| ==> positions[j] == PositionAt(slots, j)
      modifies positions
      ensures Rendered(positions[..], slots)
    {
      var posIndex := from;
      while posIndex < positions.Length
        invariant 6 * |slots| <= posIndex <= positions.Length
        invariant forall j :: 0 <= j < 6 * |slots| ==> positions[j] == PositionAt(slots, j)
        invariant forall j :: 6 * |slots| <= j < posIndex ==> positions[j] == 0.0
      {
        positions[posIndex] := 0.0;
        posIndex := posIndex + 1;
      }
    }

    /** Tree.update(audio, time): the territory check of the anchor, one tick
        of the flash machine (a new skeleton on ignition), the visibility cut
        at 0.01, and the projection with always-on jitter; g is the skeleton
        and the cursor once the tick and any regrowth are done. */
    method UpdateTree(audio: Bands, rng: Rng) returns (ghost g: Grown)
      requires Valid() && ColorsMatch() && border.Valid() && rng.Valid() && kind == Tree
      requires 0 <= seedId < |border.seeds|
      modifies this`opacity, this`isFlashing, this`cooldownTimer, this`skeleton, this`visible,
               this`materialOpacity, colors, positions, rng
      ensures Valid() && ColorsMatch()
      ensures var anchor := border.seeds[seedId].basePos;
        OwnerId(border.seeds, anchor) != seedId ==>
          && State() == Evicted(old(State())) && !visible && g == Grown(old(skeleton), old(rng.pos))
          && rng.pos == old(rng.pos) && materialOpacity == old(materialOpacity)
          && colors[..] == old(colors[..]) && positions[..] == old(positions[..])
      ensures var anchor := border.seeds[seedId].basePos;
        OwnerId(border.seeds, anchor) == seedId ==>
          && TreeTicked(old(State()), old(skeleton), old(colors[..]), audio, rng.stream, old(rng.pos), g)
          && TreeShown(anchor, audio, rng.stream, old(positions[..]), old(materialOpacity), g, rng.pos)
      ensures skeleton == g.skeleton
    {
      var anchorPos := border.seeds[seedId].basePos;
      var owner := border.GetOwnerId(anchorPos);
      if owner != seedId {
        opacity := 0.0;
        visible := false;
        isFlashing := false;
        g := Grown(skeleton, rng.pos);
        return;
      }
      g := TreeLit(anchorPos, audio, rng);
    }

    /** Tree.update inside the territory. */
    method TreeLit(anchor: Vec2, audio: Bands, rng: Rng) returns (ghost g: Grown)
      requires Valid() && ColorsMatch() && border.Valid() && rng.Valid() && kind == Tree
      modifies this`opacity, this`isFlashing, this`cooldownTimer, this`skeleton, this`visible,
               this`materialOpacity, colors, positions, rng
      ensures Valid() && ColorsMatch()
      ensures TreeTicked(old(State()), old(skeleton), old(colors[..]), audio, rng.stream, old(rng.pos), g)
      ensures skeleton == g.skeleton
      ensures TreeShown(anchor, audio, rng.stream, old(positions[..]), old(materialOpacity), g, rng.pos)
    {
      g := TreeStrike(audio, rng);
      if opacity < 0.01 {
        visible := false;
        return;
      }
      TreeDraw(anchor, audio, rng);
    }

    /** The lifecycle tick of Tree.update and, on ignition, regenerate(). */
    method TreeStrike(audio: Bands, rng: Rng) returns (ghost g: Grown)
      requires Valid() && ColorsMatch() && rng.Valid() && kind == Tree
      modifies this`opacity, this`isFlashing, this`cooldownTimer, this`skeleton, colors, rng
      ensures Valid() && ColorsMatch()
      ensures TreeTicked(old(State()), old(skeleton), old(colors[..]), audio, rng.stream, old(rng.pos), g)
      ensures g == Grown(skeleton, rng.pos)
    {
      ghost var sk0 := skeleton;
      var ignited := TreeTick(audio, rng);
      g := Struck(kind, lib, treeScale, ignited, sk0, rng.stream, rng.pos);
      if ignited {
        Regenerate(rng);
      }
    }

    /** The visible half of Tree.update: opacity to the material, one jitter
        draw, and the projection. */
    method TreeDraw(anchor: Vec2, audio: Bands, rng: Rng)
      requires Valid() && border.Valid() && rng.Valid() && opacity >= 0.01
      modifies this`visible, this`materialOpacity, positions, rng
      ensures Valid() && visible
      ensures TreeShown(anchor, audio, rng.stream, old(positions[..]), old(materialOpacity), Grown(skeleton, old(rng.pos)), rng.pos)
    {
      visible := true;
      materialOpacity := opacity;
      var r := rng.Next();
      var e := TreeEnv(border.seeds, seedId, anchor, audio, r, lib.normalize, rng.stream);
      border.ValidIsWeighted();
      Project(e, rng);
    }

    /** VoiceTree.update(audio, time): the master fade and its early return,
        the territory check of the moving anchor (which darkens but does not
        return), the gated flash machine, the combined opacity cut, and the
        projection; g is the skeleton and the cursor once the tick and any
        regrowth are done. */
    method UpdateVoice(audio: Bands, rng: Rng) returns (ghost g: Grown)
      requires Valid() && ColorsMatch() && border.Valid() && rng.Valid() && kind == VoiceTree
      requires 0 <= seedId < |border.seeds|
      modifies this`opacity, this`isFlashing, this`cooldownTimer, this`skeleton, this`visible,
               this`materialOpacity, this`masterAlpha, colors, positions, rng
      ensures Valid() && ColorsMatch()
      ensures masterAlpha == Fade(old(masterAlpha), isActive)
      ensures skeleton == g.skeleton
      ensures masterAlpha < 0.01 && !isActive ==>
        && !visible && State() == old(State()) && g == Grown(old(skeleton), old(rng.pos)) && rng.pos == old(rng.pos)
        && colors[..] == old(colors[..]) && materialOpacity == old(materialOpacity) && positions[..] == old(positions[..])
      ensures !(masterAlpha < 0.01 && !isActive) ==>
        && visible
        && VoiceShown(border.seeds[seedId].currPos, audio, rng.stream, old(positions[..]), g, rng.pos)
      ensures !(masterAlpha < 0.01 && !isActive) && OwnerId(border.seeds, border.seeds[seedId].currPos) != seedId ==>
        && State() == Evicted(old(State())) && g == Grown(old(skeleton), old(rng.pos))
        && colors[..] == old(colors[..]) && materialOpacity == 0.0
      ensures !(masterAlpha < 0.01 && !isActive) && OwnerId(border.seeds, border.seeds[seedId].currPos) == seedId ==>
        VoiceTicked(old(State()), old(skeleton), old(colors[..]), audio, rng.stream, old(rng.pos), g)
    {
      var targetMaster := if isActive then 1.0 else 0.0;
      masterAlpha := masterAlpha + (targetMaster - masterAlpha) * 0.05;
      if masterAlpha < 0.01 && !isActive {
        visible := false;
        g := Grown(skeleton, rng.pos);
        return;
      }
      visible := true;
      var anchorPos := border.seeds[seedId].currPos;
      g := VoiceLit(anchorPos, audio, rng);
    }

    /** VoiceTree.update past the master fade: the territory check, the gated
        flash machine, the combined opacity cut, and the projection. */
    method VoiceLit(anchor: Vec2, audio: Bands, rng: Rng) returns (ghost g: Grown)
      requires Valid() && ColorsMatch() && border.Valid() && rng.Valid() && kind == VoiceTree
      modifies this`opacity, this`isFlashing, this`cooldownTimer, this`skeleton,
               this`materialOpacity, colors, positions, rng
      ensures Valid() && ColorsMatch()
      ensures skeleton == g.skeleton
      ensures VoiceShown(anchor, audio, rng.stream, old(positions[..]), g, rng.pos)
      ensures OwnerId(border.seeds, anchor) != seedId ==>
        && State() == Evicted(old(State())) && g == Grown(old(skeleton), old(rng.pos))
        && colors[..] == old(colors[..]) && materialOpacity == 0.0
      ensures OwnerId(border.seeds, anchor) == seedId ==>
        VoiceTicked(old(State()), old(skeleton), old(colors[..]), audio, rng.stream, old(rng.pos), g)
    {
      var owner := border.GetOwnerId(anchor);
      if owner != seedId {
        opacity := 0.0;
        isFlashing := false;
        g := Grown(skeleton, rng.pos);
      } else {
        g := VoiceStrike(audio, rng);
      }
      materialOpacity := Mul(opacity, masterAlpha);
      if materialOpacity < 0.01 {
        return;
      }
      var e := VoiceEnv(border.seeds, seedId, anchor, audio, lib.normalize, rng.stream);
      border.ValidIsWeighted();
      Project(e, rng);
    }

    /** The gated lifecycle tick of VoiceTree.update and, on ignition,
        regenerate(). */
    method VoiceStrike(audio: Bands, rng: Rng) returns (ghost g: Grown)
      requires Valid() && ColorsMatch() && rng.Valid() && kind == VoiceTree
      modifies this`opacity, this`isFlashing, this`cooldownTimer, this`skeleton, colors, rng
      ensures Valid() && ColorsMatch()
      ensures VoiceTicked(old(State()), old(skeleton), old(colors[..]), audio, rng.stream, old(rng.pos), g)
      ensures g == Grown(skeleton, rng.pos)
    {
      ghost var sk0 := skeleton;
      var ignited := VoiceTick(audio, rng);
      g := Struck(kind, lib, treeScale, ignited, sk0, rng.stream, rng.pos);
      if ignited {
        Regenerate(rng);
      }
    }

    /** VoiceTree.toggle(state): switching on lights a fresh flash at full
        opacity over a regrown skeleton; switching off only clears the flag
        and lets the master fade take it out. */
    method Toggle(state: bool, rng: Rng)
      requires Valid() && ColorsMatch() && rng.Valid() && kind == VoiceTree
      modifies this`isActive, this`visible, this`isFlashing, this`opacity, this`skeleton, colors, rng
      ensures Valid() && ColorsMatch()
      ensures isActive == state && cooldownTimer == old(cooldownTimer)
      ensures state ==> visible && isFlashing && opacity == 1.0
      ensures state ==> Grown(skeleton, rng.pos) == Regrown(kind, lib, treeScale, rng.stream, old(rng.pos))
      ensures state ==> |skeleton| < MaxSegments(kind) ==> Roots(skeleton) == TrunkCount(kind, rng.stream(old(rng.pos) + 1))
      ensures !state ==> && visible == old(visible) && State() == old(State()) && skeleton == old(skeleton)
                         && colors[..] == old(colors[..]) && rng.pos == old(rng.pos)
    {
      isActive := state;
      if state {
        visible := true;
        isFlashing := true;
        opacity := 1.0;
        ghost var c0 := rng.pos;
        Regenerate(rng);
        RegrownFacts(kind, lib, treeScale, rng.stream, c0);
      }
    }
  }
}
