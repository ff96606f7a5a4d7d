/** Draws of `Math.random()`.  The generators never call it here: every draw is a parameter,
    a real in [0, 1), which the functions below turn into a choice exactly as the source's
    `Math.floor(Math.random() * n)` idioms do. */
module Random {
  import opened Js

  /** A value `Math.random()` can return. */
  predicate Unit(u: real)
  {
    0.0 <= u < 1.0
  }

  lemma UnitScale(u: real, m: int)
    requires Unit(u)
    ensures m > 0 ==> 0.0 <= u * m as real < m as real
  {
    FloatScale(u, m as real);
  }

  lemma FloatScale(u: real, w: real)
    requires Unit(u)
    ensures w > 0.0 ==> 0.0 <= u * w < w
  {
    if w > 0.0 {
      assert (1.0 - u) * w > 0.0;
    }
  }

  /** `Math.floor(u * n)`: the index `randomChoice` takes from an array of length `n`. */
  function RandomIndex(u: real, n: nat): (r: nat)
    requires Unit(u) && n > 0
    ensures r < n
  {
    UnitScale(u, n);
    Floor(u * n as real)
  }

  /** `random(min, max)`: `Math.floor(u * (max - min + 1)) + min`. */
  function RandomInt(u: real, lo: int, hi: int): (r: int)
    requires Unit(u)
    ensures lo <= hi ==> lo <= r <= hi
  {
    UnitScale(u, hi - lo + 1);
    Floor(u * (hi - lo + 1) as real) + lo
  }

  /** `randomFloat(min, max)`: `u * (max - min) + min`. */
  function RandomFloat(u: real, lo: real, hi: real): (r: real)
    requires Unit(u)
    ensures lo < hi ==> lo <= r < hi
  {
    var w := hi - lo;
    FloatScale(u, w);
    u * w + lo
  }
}
