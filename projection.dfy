/** The per-frame projection of a skeleton into line segments: each segment
    starts at the trunk anchor or at its parent's recorded end, is stretched,
    jittered and clipped against the territory, and collapses when its parent
    did or when even a short stub leaves the territory. */
module Projection {
  import opened Arith
  import opened Geometry
  import opened Border
  import opened Skeleton

  /** What a segment contributes to the frame. */
  datatype Slot = Drawn(start: Vec2, end: Vec2) | Collapsed

  /** Everything a frame's projection reads besides the skeleton: the seeds of
      the partition, the unit's own seed, the anchor of the trunks, the audio
      stretch and jitter, whether jitter is applied, the normalisation of the
      library, and the random draws. */
  datatype Env = Env(
    seeds: seq<Seed>,
    seedId: int,
    anchor: Vec2,
    stretch: real,
    jitter: real,
    jitterOn: bool,
    normalize: Vec2 -> Vec2,
    draws: nat -> real)

  /** The slots so far, the validTips map (segment id to recorded end) and the
      cursor into the draws. */
  datatype Pass = Pass(slots: seq<Slot>, tips: map<int, Vec2>, cursor: nat)

  /** The stub a clipped segment shrinks to, as a fraction of its length. */
  const StubFraction := 0.1

  /** The end before clipping: start + dir * len * stretch, then, when jitter
      is on, (r - 0.5) * jitter added to x and then to y. */
  function FullEnd(sg: Segment, e: Env, start: Vec2, c: nat): Vec2
  {
    var tip := Add(start, Scale(sg.dir, Mul(sg.len, e.stretch)));
    if e.jitterOn then
      Vec2(tip.x + Mul(e.draws(c) - 0.5, e.jitter), tip.y + Mul(e.draws(c + 1) - 0.5, e.jitter))
    else tip
  }

  /** The clipped stub: start + normalize(dir * len * stretch) * (len * stretch * 0.1). */
  function StubEnd(sg: Segment, e: Env, start: Vec2): Vec2
  {
    var len := Mul(sg.len, e.stretch);
    Add(start, Scale(e.normalize(Scale(sg.dir, len)), Mul(len, StubFraction)))
  }

  /** The end lies within half the jitter of the stretched tip on each axis,
      and is the tip itself when jitter is off. */
  lemma FullEndNearTip(sg: Segment, e: Env, start: Vec2, c: nat)
    requires 0.0 <= e.jitter && 0.0 <= e.draws(c) < 1.0 && 0.0 <= e.draws(c + 1) < 1.0
    ensures var tip := Add(start, Scale(sg.dir, Mul(sg.len, e.stretch)));
      var end := FullEnd(sg, e, start, c);
      && (!e.jitterOn ==> end == tip)
      && -0.5 * e.jitter <= end.x - tip.x <= 0.5 * e.jitter
      && -0.5 * e.jitter <= end.y - tip.y <= 0.5 * e.jitter
  {
    MulMonoLeft(e.jitter, -0.5, e.draws(c) - 0.5);
    MulMonoLeft(e.jitter, e.draws(c) - 0.5, 0.5);
    MulComm(e.jitter, e.draws(c) - 0.5);
    MulMonoLeft(e.jitter, -0.5, e.draws(c + 1) - 0.5);
    MulMonoLeft(e.jitter, e.draws(c + 1) - 0.5, 0.5);
    MulComm(e.jitter, e.draws(c + 1) - 0.5);
  }

  /** Where normalize returns a unit vector, the stub ends a tenth of the
      stretched length from its start. */
  lemma StubEndLength(sg: Segment, e: Env, start: Vec2)
    requires var u := e.normalize(Scale(sg.dir, Mul(sg.len, e.stretch))); Sq(u.x) + Sq(u.y) == 1.0
    ensures Dist2(StubEnd(sg, e, start), start) == Sq(Mul(Mul(sg.len, e.stretch), StubFraction))
  {
    var u := e.normalize(Scale(sg.dir, Mul(sg.len, e.stretch)));
    var k := Mul(Mul(sg.len, e.stretch), StubFraction);
    var end := StubEnd(sg, e, start);
    assert end.x - start.x == u.x * k && end.y - start.y == u.y * k;
    assert (u.x * k) * (u.x * k) + (u.y * k) * (u.y * k) == (u.x * u.x + u.y * u.y) * (k * k);
  }

  function JitterDraws(e: Env): nat
  {
    if e.jitterOn then 2 else 0
  }

  /** One iteration of the projection loop. */
  function Step(p: Pass, sg: Segment, e: Env): (q: Pass)
    requires Weighted(e.seeds)
    ensures |q.slots| == |p.slots| + 1 && q.slots[..|p.slots|] == p.slots
  {
    if sg.parentId != NoParent && sg.parentId !in p.tips then
      Pass(p.slots + [Collapsed], p.tips, p.cursor)
    else
      var start := if sg.parentId == NoParent then e.anchor else p.tips[sg.parentId];
      var c := p.cursor + JitterDraws(e);
      var full := FullEnd(sg, e, start, p.cursor);
      if OwnerId(e.seeds, full) == e.seedId then
        Pass(p.slots + [Drawn(start, full)], p.tips[sg.id := full], c)
      else
        var stub := StubEnd(sg, e, start);
        if OwnerId(e.seeds, stub) == e.seedId then
          Pass(p.slots + [Drawn(start, stub)], p.tips[sg.id := stub], c)
        else
          Pass(p.slots + [Collapsed], p.tips, c)
  }

  /** The pass after the first n segments, starting from draw c0. */
  function ProjectUpTo(sk: seq<Segment>, e: Env, n: nat, c0: nat): (p: Pass)
    requires Weighted(e.seeds) && n <= |sk|
    ensures |p.slots| == n
  {
    if n == 0 then Pass([], map[], c0)
    else Step(ProjectUpTo(sk, e, n - 1, c0), sk[n - 1], e)
  }

  /** What the projection promises about the first n slots of a forest:
      - the tips are exactly the drawn segments, each at its drawn end;
      - a drawn segment starts at the anchor (a root) or at its parent's end;
      - every drawn end lies in the unit's territory;
      - a segment under a collapsed parent collapses too. */
  ghost predicate Sound(sk: seq<Segment>, e: Env, p: Pass, n: nat)
    requires n <= |sk| && Weighted(e.seeds)
  {
    && |p.slots| == n
    && (forall k :: k in p.tips ==> 0 <= k < n)
    && (forall i :: 0 <= i < n ==> (i in p.tips <==> p.slots[i].Drawn?))
    && (forall i :: 0 <= i < n && p.slots[i].Drawn? ==> p.tips[i] == p.slots[i].end)
    && (forall i :: 0 <= i < n && p.slots[i].Drawn? ==>
          OwnerId(e.seeds, p.slots[i].end) == e.seedId)
    && (forall i :: 0 <= i < n && p.slots[i].Drawn? && sk[i].parentId == NoParent ==>
          p.slots[i].start == e.anchor)
    && (forall i :: 0 <= i < n && p.slots[i].Drawn? && sk[i].parentId != NoParent ==>
          0 <= sk[i].parentId < i && p.slots[sk[i].parentId].Drawn? &&
          p.slots[i].start == p.slots[sk[i].parentId].end)
    && (forall i :: 0 <= i < n && sk[i].parentId != NoParent && 0 <= sk[i].parentId < i ==>
          (p.slots[sk[i].parentId].Collapsed? ==> p.slots[i].Collapsed?))
  }

  /** Appending a collapsed slot keeps the pass sound. */
  lemma {:induction false} CollapseSound(sk: seq<Segment>, maxDepth: nat, e: Env, p: Pass, n: nat, c: nat)
    requires Forest(sk, maxDepth) && Weighted(e.seeds) && n < |sk|
    requires Sound(sk, e, p, n)
    ensures Sound(sk, e, Pass(p.slots + [Collapsed], p.tips, c), n + 1)
  {
    var q := Pass(p.slots + [Collapsed], p.tips, c);
    assert forall i :: 0 <= i < n ==> q.slots[i] == p.slots[i];
    assert n !in p.tips;
  }

  /** Appending a drawn slot whose start is resolved as the loop resolves it
      and whose end lies in the territory keeps the pass sound. */
  lemma {:induction false} DrawSound(sk: seq<Segment>, maxDepth: nat, e: Env, p: Pass, n: nat,
                                     start: Vec2, end: Vec2, c: nat)
    requires Forest(sk, maxDepth) && Weighted(e.seeds) && n < |sk|
    requires Sound(sk, e, p, n)
    requires OwnerId(e.seeds, end) == e.seedId
    requires sk[n].parentId == NoParent ==> start == e.anchor
    requires sk[n].parentId != NoParent ==> sk[n].parentId in p.tips && start == p.tips[sk[n].parentId]
    ensures Sound(sk, e, Pass(p.slots + [Drawn(start, end)], p.tips[n := end], c), n + 1)
  {
    var q := Pass(p.slots + [Drawn(start, end)], p.tips[n := end], c);
    assert Placed(sk, maxDepth, n);
    assert q.slots[n] == Drawn(start, end);
    forall i | 0 <= i < n
      ensures q.slots[i] == p.slots[i]
      ensures i in q.tips <==> i in p.tips
      ensures i in p.tips ==> q.tips[i] == p.tips[i]
    {
    }
    assert forall i :: 0 <= i < n + 1 && q.slots[i].Drawn? ==>
      OwnerId(e.seeds, q.slots[i].end) == e.seedId;
    forall i | 0 <= i < n + 1 && q.slots[i].Drawn? && sk[i].parentId != NoParent
      ensures 0 <= sk[i].parentId < i && q.slots[sk[i].parentId].Drawn?
      ensures q.slots[i].start == q.slots[sk[i].parentId].end
    {
      if i == n {
        assert p.slots[sk[n].parentId].Drawn?;
      }
    }
  }

  lemma {:induction false} StepSound(sk: seq<Segment>, maxDepth: nat, e: Env, p: Pass, n: nat)
    requires Forest(sk, maxDepth) && Weighted(e.seeds) && n < |sk|
    requires Sound(sk, e, p, n)
    ensures Sound(sk, e, Step(p, sk[n], e), n + 1)
  {
    var sg := sk[n];
    assert Placed(sk, maxDepth, n);
    if sg.parentId != NoParent && sg.parentId !in p.tips {
      CollapseSound(sk, maxDepth, e, p, n, p.cursor);
    } else {
      var start := if sg.parentId == NoParent then e.anchor else p.tips[sg.parentId];
      var c := p.cursor + JitterDraws(e);
      var full := FullEnd(sg, e, start, p.cursor);
      var stub := StubEnd(sg, e, start);
      if OwnerId(e.seeds, full) == e.seedId {
        DrawSound(sk, maxDepth, e, p, n, start, full, c);
      } else if OwnerId(e.seeds, stub) == e.seedId {
        DrawSound(sk, maxDepth, e, p, n, start, stub, c);
      } else {
        CollapseSound(sk, maxDepth, e, p, n, c);
      }
    }
  }

  /** The projection of a forest is sound. */
  lemma {:induction false} ProjectSound(sk: seq<Segment>, maxDepth: nat, e: Env, n: nat, c0: nat)
    requires Forest(sk, maxDepth) && Weighted(e.seeds) && n <= |sk|
    ensures Sound(sk, e, ProjectUpTo(sk, e, n, c0), n)
    decreases n
  {
    if n > 0 {
      ProjectSound(sk, maxDepth, e, n - 1, c0);
      StepSound(sk, maxDepth, e, ProjectUpTo(sk, e, n - 1, c0), n - 1);
    }
  }

  /** Without jitter no draw is read: the pass does not depend on the draws
      or on where the cursor started, and the cursor does not move. */
  lemma {:induction false} NoJitterReadsNoDraws(sk: seq<Segment>, e: Env, d: nat -> real, n: nat, c0: nat, c1: nat)
    requires Weighted(e.seeds) && n <= |sk| && !e.jitterOn
    ensures ProjectUpTo(sk, e, n, c0).cursor == c0
    ensures ProjectUpTo(sk, e, n, c0).slots == ProjectUpTo(sk, e.(draws := d), n, c1).slots
    ensures ProjectUpTo(sk, e, n, c0).tips == ProjectUpTo(sk, e.(draws := d), n, c1).tips
  {
    if n > 0 {
      NoJitterReadsNoDraws(sk, e, d, n - 1, c0, c1);
      StepIgnoresDraws(ProjectUpTo(sk, e, n - 1, c0), ProjectUpTo(sk, e.(draws := d), n - 1, c1), sk[n - 1], e, d);
    }
  }

  /** One step without jitter reads no draw: from the same slots and tips it
      makes the same slot and tip whatever the draws and the cursor. */
  lemma StepIgnoresDraws(p: Pass, q: Pass, sg: Segment, e: Env, d: nat -> real)
    requires Weighted(e.seeds) && !e.jitterOn && p.slots == q.slots && p.tips == q.tips
    ensures Step(p, sg, e).cursor == p.cursor
    ensures Step(p, sg, e).slots == Step(q, sg, e.(draws := d)).slots
    ensures Step(p, sg, e).tips == Step(q, sg, e.(draws := d)).tips
  {
    if sg.parentId == NoParent || sg.parentId in p.tips {
      var start := if sg.parentId == NoParent then e.anchor else p.tips[sg.parentId];
      assert FullEnd(sg, e, start, p.cursor) == FullEnd(sg, e.(draws := d), start, q.cursor);
      assert StubEnd(sg, e, start) == StubEnd(sg, e.(draws := d), start);
    }
  }

  // -------------------------------------------------------------- the buffer

  /** The six floats a slot writes: start x, y, 0, end x, y, 0 -- or zeros. */
  function SlotValue(s: Slot, k: nat): (v: real)
    ensures s.Collapsed? ==> v == 0.0
    ensures s.Drawn? && k == 0 ==> v == s.start.x
    ensures s.Drawn? && k == 1 ==> v == s.start.y
    ensures s.Drawn? && k == 3 ==> v == s.end.x
    ensures s.Drawn? && k == 4 ==> v == s.end.y
    ensures k == 2 || k == 5 || k > 5 ==> v == 0.0
  {
    match s
    case Collapsed => 0.0
    case Drawn(a, b) =>
      if k == 0 then a.x else if k == 1 then a.y
      else if k == 3 then b.x else if k == 4 then b.y
      else 0.0
  }

  /** The position-buffer value at flat index j: slot j / 6, float j % 6. */
  function PositionAt(slots: seq<Slot>, j: nat): real
    requires j < 6 * |slots|
  {
    SlotValue(slots[j / 6], j % 6)
  }

  /** Appending a slot leaves the floats of the earlier ones in place. */
  lemma PositionAtPrefix(slots: seq<Slot>, s: Slot, j: nat)
    requires j < 6 * |slots|
    ensures PositionAt(slots + [s], j) == PositionAt(slots, j)
  {
    assert (slots + [s])[j / 6] == slots[j / 6];
  }

  /** ... and puts the new slot's six floats right after them. */
  lemma PositionAtLast(slots: seq<Slot>, s: Slot, k: nat)
    requires k < 6
    ensures PositionAt(slots + [s], 6 * |slots| + k) == SlotValue(s, k)
  {
    SextetIndex(|slots|, k);
  }

  /** The buffer a pass leaves: the slots' floats, then zeros to the end. */
  ghost predicate Rendered(buf: seq<real>, slots: seq<Slot>)
  {
    && 6 * |slots| <= |buf|
    && (forall j :: 0 <= j < 6 * |slots| ==> buf[j] == PositionAt(slots, j))
    && (forall j :: 6 * |slots| <= j < |buf| ==> buf[j] == 0.0)
  }
}
