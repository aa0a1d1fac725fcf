/** `Math.random` as an injected stream of draws in [0,1) and a cursor. */
module Random {

  ghost predicate UnitDraws(stream: nat -> real)
  {
    forall n: nat :: 0.0 <= stream(n) < 1.0
  }

  class Rng {
    const stream: nat -> real
    var pos: nat

    ghost predicate Valid()
    {
      UnitDraws(stream)
    }

    constructor (s: nat -> real)
      requires UnitDraws(s)
      ensures Valid() && stream == s && pos == 0
    {
      stream := s;
      pos := 0;
    }

    /** One call of Math.random(). */
    method Next() returns (r: real)
      requires Valid()
      modifies this
      ensures r == stream(old(pos)) && pos == old(pos) + 1
      ensures 0.0 <= r < 1.0
    {
      r := stream(pos);
      pos := pos + 1;
    }
  }
}
