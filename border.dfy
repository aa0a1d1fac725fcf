/** The territory partition: N moving, audio-weighted seeds and the query
    that gives every point of the plane to exactly one of them (a
    multiplicatively weighted Voronoi diagram). */
module Border {
  import opened Arith
  import opened Geometry
  import opened Audio
  import opened Random

  /** One seed site. Only currPos and currentWeight change after creation. */
  datatype Seed = Seed(
    id: int,
    basePos: Vec2,
    currPos: Vec2,
    baseWeight: real,
    currentWeight: real,
    freqType: int,      // 0 bass, 1 mid, 2 treble
    reactivity: real)

  /** noise3D(x, y, z): simplex noise, treated as an opaque function. */
  type Noise = (real, real, real) -> real

  const DriftRate := 0.05     // z = time * 0.05
  const BassWarp := 0.2
  const TrebleWarp := 0.1
  const NoiseScale := 0.05
  const AxisOffset := 100.0   // decorrelates the y sample from the x sample
  const Amplitude := 20.0

  // ---------------------------------------------------------------- creation

  /** (r - 0.5) * extent: a uniform draw spread over [-extent/2, extent/2). */
  function Spread(r: real, extent: real): (x: real)
    requires 0.0 <= r < 1.0
    ensures extent > 0.0 ==> -extent / 2.0 <= x < extent / 2.0
  {
    if extent > 0.0 then
      MulNonNegative(r, extent);
      MulStrictLeft(extent, r, 1.0);
      MulComm(r, extent);
      assert Mul(r - 0.5, extent) == Mul(r, extent) - extent / 2.0;
      Mul(r - 0.5, extent)
    else
      Mul(r - 0.5, extent)
  }

  /** The seed that `initSeeds` pushes with this id, reading the five draws
      d(c) .. d(c+4) in the order the object literal evaluates them. */
  function Spawn(id: int, d: nat -> real, c: nat, width: real, height: real): (s: Seed)
    requires UnitDraws(d)
    ensures s.id == id && s.currPos == s.basePos && s.currentWeight == 1.0
    ensures 1.0 <= s.baseWeight < 4.0
    ensures 5.0 <= s.reactivity < 15.0
    ensures 0 <= s.freqType <= 2
    ensures width > 0.0 ==> -width / 2.0 <= s.basePos.x < width / 2.0
    ensures height > 0.0 ==> -height / 2.0 <= s.basePos.y < height / 2.0
  {
    var x := Spread(d(c), width);
    var y := Spread(d(c + 1), height);
    Seed(id, Vec2(x, y), Vec2(x, y), 1.0 + d(c + 2) * 3.0, 1.0, (d(c + 3) * 3.0).Floor, 5.0 + d(c + 4) * 10.0)
  }

  /** The seeds initSeeds appends for ids 0 .. n-1, five draws each. */
  function Spawned(n: nat, d: nat -> real, c: nat, width: real, height: real): (r: seq<Seed>)
    requires UnitDraws(d)
    ensures |r| == n
  {
    seq(n, i requires 0 <= i < n => Spawn(i, d, c + 5 * i, width, height))
  }

  lemma {:induction false} SpawnedGrows(n: nat, d: nat -> real, c: nat, width: real, height: real)
    requires UnitDraws(d)
    ensures Spawned(n + 1, d, c, width, height)
         == Spawned(n, d, c, width, height) + [Spawn(n, d, c + 5 * n, width, height)]
  {
    var a, b := Spawned(n + 1, d, c, width, height), Spawned(n, d, c, width, height);
    assert forall i :: 0 <= i < n ==> a[i] == b[i];
  }

  /** Freshly spawned seeds keep the seed ranges and are numbered by position. */
  lemma {:induction false} SpawnedOk(n: nat, d: nat -> real, c: nat, width: real, height: real)
    requires UnitDraws(d)
    ensures SeedsOk(Spawned(n, d, c, width, height))
    ensures IdsAreIndices(Spawned(n, d, c, width, height))
  {
  }

  lemma {:induction false} SeedsOkAppend(a: seq<Seed>, b: seq<Seed>)
    requires SeedsOk(a) && SeedsOk(b)
    ensures SeedsOk(a + b)
  {
    forall i | 0 <= i < |a + b|
      ensures SeedOk((a + b)[i])
    {
      if i < |a| {
        assert (a + b)[i] == a[i];
      } else {
        assert (a + b)[i] == b[i - |a|];
      }
    }
  }

  /** The ranges every seed keeps for its whole life. */
  ghost predicate SeedOk(s: Seed)
  {
    1.0 <= s.baseWeight < 4.0 && 5.0 <= s.reactivity < 15.0 &&
    0 <= s.freqType <= 2 && s.currentWeight >= 1.0
  }

  ghost predicate SeedsOk(seeds: seq<Seed>)
  {
    forall i :: 0 <= i < |seeds| ==> SeedOk(seeds[i])
  }

  ghost predicate IdsAreIndices(seeds: seq<Seed>)
  {
    forall i :: 0 <= i < |seeds| ==> seeds[i].id == i
  }

  // ------------------------------------------------------------------ motion

  /** The band a seed reacts to: bass for freqType 0, mid for 1, treble
      otherwise. */
  function Energy(b: Bands, freqType: int): (e: real)
    ensures e == b.bass || e == b.mid || e == b.treble
    ensures NonNegative(b) ==> e >= 0.0
    ensures b == Silence ==> e == 0.0
  {
    if freqType == 0 then b.bass
    else if freqType == 1 then b.mid
    else b.treble
  }

  /** One seed after `update(time, audio)` with the (already defaulted) bands b. */
  function Moved(s: Seed, time: real, b: Bands, noise: Noise): (r: Seed)
    ensures r.id == s.id && r.basePos == s.basePos && r.baseWeight == s.baseWeight
    ensures r.freqType == s.freqType && r.reactivity == s.reactivity
    ensures NonNegative(b) && s.reactivity >= 0.0 ==> r.currentWeight >= s.baseWeight
  {
    var z := time * DriftRate;
    var w := b.bass * BassWarp + b.treble * TrebleWarp;
    var nX := noise(s.basePos.x * NoiseScale, s.basePos.y * NoiseScale, z + w);
    var nY := noise(s.basePos.x * NoiseScale, s.basePos.y * NoiseScale, z + w + AxisOffset);
    var e := Energy(b, s.freqType);
    assert NonNegative(b) && s.reactivity >= 0.0 ==> Mul(e, s.reactivity) >= 0.0 by {
      if NonNegative(b) && s.reactivity >= 0.0 { MulNonNegative(e, s.reactivity); }
    }
    s.(currPos := Vec2(s.basePos.x + nX * Amplitude, s.basePos.y + nY * Amplitude),
       currentWeight := s.baseWeight + Mul(e, s.reactivity))
  }

  /** The whole update loop: every seed moved in its place, in order. */
  function Updated(seeds: seq<Seed>, time: real, b: Bands, noise: Noise): (r: seq<Seed>)
    ensures |r| == |seeds|
    ensures forall i :: 0 <= i < |r| ==> r[i] == Moved(seeds[i], time, b, noise)
  {
    seq(|seeds|, i requires 0 <= i < |seeds| => Moved(seeds[i], time, b, noise))
  }

  /** The new position and weight depend on the frame's inputs alone, never on
      the state the previous frame left. */
  lemma {:induction false} MovedForgetsHistory(s: Seed, t: Seed, time: real, b: Bands, noise: Noise)
    requires s.id == t.id && s.basePos == t.basePos && s.baseWeight == t.baseWeight
    requires s.freqType == t.freqType && s.reactivity == t.reactivity
    ensures Moved(s, time, b, noise) == Moved(t, time, b, noise)
  {
  }

  /** Repeating an update with the same (time, audio) changes nothing. */
  lemma {:induction false} UpdateIdempotent(seeds: seq<Seed>, time: real, b: Bands, noise: Noise)
    ensures Updated(Updated(seeds, time, b, noise), time, b, noise) == Updated(seeds, time, b, noise)
  {
    var once := Updated(seeds, time, b, noise);
    var twice := Updated(once, time, b, noise);
    forall i | 0 <= i < |seeds|
      ensures twice[i] == once[i]
    {
      MovedForgetsHistory(once[i], seeds[i], time, b, noise);
    }
  }

  /** With non-negative bands every weight is at least its base weight. */
  lemma {:induction false} UpdatedWeightsAtLeastBase(seeds: seq<Seed>, time: real, b: Bands, noise: Noise)
    requires SeedsOk(seeds) && NonNegative(b)
    ensures SeedsOk(Updated(seeds, time, b, noise))
    ensures forall i :: 0 <= i < |seeds| ==>
      Updated(seeds, time, b, noise)[i].currentWeight >= seeds[i].baseWeight >= 1.0
  {
    var r := Updated(seeds, time, b, noise);
    forall i | 0 <= i < |seeds|
      ensures SeedOk(r[i]) && r[i].currentWeight >= seeds[i].baseWeight
    {
      assert r[i] == Moved(seeds[i], time, b, noise);
    }
  }

  /** A missing audio frame leaves every seed at its base weight. */
  lemma {:induction false} MissingAudioRestsAtBaseWeight(seeds: seq<Seed>, time: real, noise: Noise)
    ensures forall i :: 0 <= i < |seeds| ==>
      Updated(seeds, time, Safe(Missing), noise)[i].currentWeight == seeds[i].baseWeight
  {
    forall i | 0 <= i < |seeds|
      ensures Updated(seeds, time, Safe(Missing), noise)[i].currentWeight == seeds[i].baseWeight
    {
      var s := seeds[i];
      assert Energy(Silence, s.freqType) == 0.0;
      assert Updated(seeds, time, Safe(Missing), noise)[i] == Moved(s, time, Silence, noise);
    }
  }

  // --------------------------------------------------------------- ownership

  ghost predicate Weighted(seeds: seq<Seed>)
  {
    forall i :: 0 <= i < |seeds| ==> seeds[i].currentWeight > 0.0
  }

  /** (distance / currentWeight) squared: the same order as the source's
      quotient (see DistanceOrderIsScoreOrder) without a square root. */
  function Score(s: Seed, p: Vec2): real
    requires s.currentWeight > 0.0
  {
    MulPositive(s.currentWeight, s.currentWeight);
    Quot(Dist2(p, s.currPos), Sq(s.currentWeight))
  }

  /** The scan of getOwnerId over the first n seeds: strict `<`, so the first
      minimum wins; -1 before any seed has been seen. */
  function OwnerIndexUpTo(seeds: seq<Seed>, p: Vec2, n: nat): (k: int)
    requires n <= |seeds| && Weighted(seeds)
    ensures -1 <= k < n
    ensures k == -1 <==> n == 0
  {
    if n == 0 then -1
    else
      var k := OwnerIndexUpTo(seeds, p, n - 1);
      if k == -1 || Score(seeds[n - 1], p) < Score(seeds[k], p) then n - 1 else k
  }

  function OwnerIndex(seeds: seq<Seed>, p: Vec2): int
    requires Weighted(seeds)
  {
    OwnerIndexUpTo(seeds, p, |seeds|)
  }

  /** The id getOwnerId answers for p. What it is, is stated by
      OwnerIsEarliestArgmin and NoOwnerIffNoSeeds. */
  function OwnerId(seeds: seq<Seed>, p: Vec2): int
    requires Weighted(seeds)
  {
    var k := OwnerIndex(seeds, p);
    if k == -1 then -1 else seeds[k].id
  }

  /** k is a seed of least score among the first n, and earlier than every
      other seed of that score. */
  ghost predicate IsArgminUpTo(seeds: seq<Seed>, p: Vec2, n: nat, k: int)
    requires n <= |seeds|
  {
    && Weighted(seeds)
    && 0 <= k < n
    && (forall j :: 0 <= j < n ==> Score(seeds[k], p) <= Score(seeds[j], p))
    && (forall j :: 0 <= j < k ==> Score(seeds[k], p) < Score(seeds[j], p))
  }

  ghost predicate IsArgmin(seeds: seq<Seed>, p: Vec2, k: int)
  {
    IsArgminUpTo(seeds, p, |seeds|, k)
  }

  lemma {:induction false} ScanIsArgmin(seeds: seq<Seed>, p: Vec2, n: nat)
    requires Weighted(seeds) && 0 < n <= |seeds|
    ensures IsArgminUpTo(seeds, p, n, OwnerIndexUpTo(seeds, p, n))
  {
    if n > 1 {
      ScanIsArgmin(seeds, p, n - 1);
    }
  }

  lemma {:induction false} ArgminUnique(seeds: seq<Seed>, p: Vec2, n: nat, k: int, k': int)
    requires n <= |seeds| && IsArgminUpTo(seeds, p, n, k) && IsArgminUpTo(seeds, p, n, k')
    ensures k == k'
  {
    var a, b := Score(seeds[k], p), Score(seeds[k'], p);
    assert k < k' ==> b < a;
    assert k' < k ==> a < b;
  }

  /** The owner is exactly the earliest seed of least weighted distance. */
  lemma {:induction false} OwnerIsEarliestArgmin(seeds: seq<Seed>, p: Vec2, k: int)
    requires Weighted(seeds) && |seeds| > 0
    ensures IsArgmin(seeds, p, OwnerIndex(seeds, p))
    ensures IsArgmin(seeds, p, k) <==> k == OwnerIndex(seeds, p)
    ensures OwnerId(seeds, p) == seeds[OwnerIndex(seeds, p)].id
  {
    ScanIsArgmin(seeds, p, |seeds|);
    if IsArgmin(seeds, p, k) {
      ArgminUnique(seeds, p, |seeds|, k, OwnerIndex(seeds, p));
    }
  }

  /** getOwnerId answers -1 exactly when there are no seeds. */
  lemma {:induction false} NoOwnerIffNoSeeds(seeds: seq<Seed>, p: Vec2)
    requires Weighted(seeds) && IdsAreIndices(seeds)
    ensures OwnerId(seeds, p) == -1 <==> |seeds| == 0
    ensures |seeds| > 0 ==> 0 <= OwnerId(seeds, p) < |seeds|
  {
  }

  lemma ScoreShrinks(s: Seed, w: real, p: Vec2)
    requires 0.0 < s.currentWeight <= w
    ensures Score(s.(currentWeight := w), p) <= Score(s, p)
  {
    Dist2NonNegative(p, s.currPos);
    MulPositive(s.currentWeight, s.currentWeight);
    SqMonotone(s.currentWeight, w);
    QuotShrinks(Dist2(p, s.currPos), Sq(s.currentWeight), Sq(w));
  }

  /** Raising one seed's weight never costs it a point it owned. */
  lemma {:induction false} HeavierSeedKeepsItsPoints(seeds: seq<Seed>, p: Vec2, k: nat, w: real)
    requires Weighted(seeds) && k < |seeds| && OwnerIndex(seeds, p) == k
    requires w >= seeds[k].currentWeight
    ensures Weighted(seeds[k := seeds[k].(currentWeight := w)])
    ensures OwnerIndex(seeds[k := seeds[k].(currentWeight := w)], p) == k
    ensures OwnerId(seeds[k := seeds[k].(currentWeight := w)], p) == OwnerId(seeds, p)
  {
    var heavier := seeds[k := seeds[k].(currentWeight := w)];
    OwnerIsEarliestArgmin(seeds, p, k);
    ScoreShrinks(seeds[k], w, p);
    assert IsArgmin(heavier, p, k) by {
      forall j | 0 <= j < |heavier|
        ensures Score(heavier[k], p) <= Score(heavier[j], p)
        ensures j < k ==> Score(heavier[k], p) < Score(heavier[j], p)
      {
        if j != k {
          assert heavier[j] == seeds[j];
        }
      }
    }
    OwnerIsEarliestArgmin(heavier, p, k);
  }

  /** For positive weights, comparing the source's quotients
      distance / currentWeight (da, db being the Euclidean distances) is the
      same as comparing scores. */
  lemma DistanceOrderIsScoreOrder(a: Seed, b: Seed, p: Vec2, da: real, db: real)
    requires a.currentWeight > 0.0 && b.currentWeight > 0.0
    requires da >= 0.0 && Sq(da) == Dist2(p, a.currPos)
    requires db >= 0.0 && Sq(db) == Dist2(p, b.currPos)
    ensures da / a.currentWeight < db / b.currentWeight <==> Score(a, p) < Score(b, p)
  {
    QuotSquared(da, a.currentWeight);
    QuotSquared(db, b.currentWeight);
    QuotNonNegative(da, a.currentWeight);
    QuotNonNegative(db, b.currentWeight);
    SqMonotone(Quot(da, a.currentWeight), Quot(db, b.currentWeight));
  }

  function Site(id: int, x: real, y: real, w: real): Seed
  {
    Seed(id, Vec2(x, y), Vec2(x, y), w, w, 0, 5.0)
  }

  /** Four unit-weight sites on the axes: (-5,0) belongs to the site at
      (-10,0); with that site's weight raised to 4, so does (5,0). */
  lemma FourSitesScenario()
    ensures OwnerId([Site(0, -10.0, 0.0, 1.0), Site(1, 10.0, 0.0, 1.0),
                     Site(2, 0.0, -10.0, 1.0), Site(3, 0.0, 10.0, 1.0)], Vec2(-5.0, 0.0)) == 0
    ensures OwnerId([Site(0, -10.0, 0.0, 4.0), Site(1, 10.0, 0.0, 1.0),
                     Site(2, 0.0, -10.0, 1.0), Site(3, 0.0, 10.0, 1.0)], Vec2(5.0, 0.0)) == 0
  {
    var a := [Site(0, -10.0, 0.0, 1.0), Site(1, 10.0, 0.0, 1.0),
              Site(2, 0.0, -10.0, 1.0), Site(3, 0.0, 10.0, 1.0)];
    var p := Vec2(-5.0, 0.0);
    assert Score(a[0], p) == 25.0 && Score(a[1], p) == 225.0;
    assert Score(a[2], p) == 125.0 && Score(a[3], p) == 125.0;
    assert OwnerIndexUpTo(a, p, 2) == 0;
    assert OwnerIndexUpTo(a, p, 4) == 0;
    var b := a[0 := Site(0, -10.0, 0.0, 4.0)];
    var q := Vec2(5.0, 0.0);
    assert Score(b[0], q) == 225.0 / 16.0 && Score(b[1], q) == 25.0;
    assert Score(b[2], q) == 125.0 && Score(b[3], q) == 125.0;
    assert OwnerIndexUpTo(b, q, 2) == 0;
    assert OwnerIndexUpTo(b, q, 4) == 0;
  }

  // ------------------------------------------------------------------ system

  class BorderSystem {
    var seeds: seq<Seed>
    const width: real
    const height: real

    ghost predicate Valid()
      reads this
    {
      SeedsOk(seeds) && IdsAreIndices(seeds)
    }

    lemma ValidIsWeighted()
      requires Valid()
      ensures Weighted(seeds)
    {
    }

    constructor (count: nat, width: real, height: real, rng: Rng)
      requires rng.Valid()
      modifies rng
      ensures Valid() && this.width == width && this.height == height
      ensures seeds == Spawned(count, rng.stream, old(rng.pos), width, height)
      ensures rng.pos == old(rng.pos) + 5 * count
    {
      this.seeds := [];
      this.width := width;
      this.height := height;
      new;
      InitSeeds(count, rng);
    }

    /** Appends count seeds whose ids run 0 .. count-1 (so ids equal indices
        only when the list started empty, as it does in the constructor). */
    method InitSeeds(count: nat, rng: Rng)
      requires SeedsOk(seeds) && rng.Valid()
      modifies this`seeds, rng
      ensures seeds == old(seeds) + Spawned(count, rng.stream, old(rng.pos), width, height)
      ensures SeedsOk(seeds)
      ensures old(seeds) == [] ==> Valid()
      ensures rng.pos == old(rng.pos) + 5 * count
    {
      ghost var s0, c0 := seeds, rng.pos;
      var i := 0;
      while i < count
        invariant 0 <= i <= count && rng.Valid()
        invariant seeds == s0 + Spawned(i, rng.stream, c0, width, height)
        invariant rng.pos == c0 + 5 * i
      {
        var s := DrawSeed(i, rng);
        SpawnedGrows(i, rng.stream, c0, width, height);
        seeds := seeds + [s];
        i := i + 1;
      }
      SpawnedOk(count, rng.stream, c0, width, height);
      SeedsOkAppend(s0, Spawned(count, rng.stream, c0, width, height));
    }

    /** The object literal pushed by initSeeds: x, y, weight, frequency type
        and reactivity, drawn in that order. */
    method DrawSeed(id: int, rng: Rng) returns (s: Seed)
      requires rng.Valid()
      modifies rng
      ensures rng.pos == old(rng.pos) + 5
      ensures s == Spawn(id, rng.stream, old(rng.pos), width, height)
    {
      var rx := rng.Next();
      var ry := rng.Next();
      var x := Spread(rx, width);
      var y := Spread(ry, height);
      var rw := rng.Next();
      var rf := rng.Next();
      var rr := rng.Next();
      s := Seed(id, Vec2(x, y), Vec2(x, y), 1.0 + rw * 3.0, 1.0, (rf * 3.0).Floor, 5.0 + rr * 10.0);
    }

    /** Moves every seed and resizes it from its band. */
    method Update(time: real, audio: Input, noise: Noise)
      requires Valid() && NonNegative(Safe(audio))
      modifies this`seeds
      ensures Valid()
      ensures seeds == Updated(old(seeds), time, Safe(audio), noise)
    {
      var safe := Safe(audio);
      UpdatedWeightsAtLeastBase(seeds, time, safe, noise);
      var i := 0;
      while i < |seeds|
        invariant 0 <= i <= |seeds| == |old(seeds)|
        invariant forall j :: 0 <= j < i ==> seeds[j] == Moved(old(seeds)[j], time, safe, noise)
        invariant forall j :: i <= j < |seeds| ==> seeds[j] == old(seeds)[j]
      {
        seeds := seeds[i := Moved(seeds[i], time, safe, noise)];
        i := i + 1;
      }
      assert seeds == Updated(old(seeds), time, safe, noise);
    }

    /** The id of the seed with the least distance / currentWeight from point,
        the first such in array order; -1 when there are no seeds. */
    method GetOwnerId(point: Vec2) returns (id: int)
      requires Valid()
      ensures Weighted(seeds)
      ensures id == OwnerId(seeds, point)
    {
      var minDist := 0.0;   // read only once a seed has been seen: +Infinity before
      id := -1;
      ghost var k := -1;
      var i := 0;
      while i < |seeds|
        invariant 0 <= i <= |seeds|
        invariant k == OwnerIndexUpTo(seeds, point, i)
        invariant k == -1 ==> id == -1
        invariant k != -1 ==> id == seeds[k].id && minDist == Score(seeds[k], point)
      {
        var d := Score(seeds[i], point);
        if i == 0 || d < minDist {
          minDist := d;
          id := seeds[i].id;
          k := i;
        }
        i := i + 1;
      }
    }
  }
}
