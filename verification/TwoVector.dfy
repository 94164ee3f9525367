/**
 * A 2D vector as a value. The source's `TwoVector` is a mutable object whose
 * `copy`, `add`, `subtract`, `multiplyScalar` and `lerp` overwrite the receiver;
 * here each of them is a function that returns the new value, and the caller
 * assigns it back to the field it came from.
 */
module TwoVector {

  datatype Vec2 = Vec2(x: real, y: real)

  const Zero: Vec2 := Vec2(0.0, 0.0)

  function Sub(a: Vec2, b: Vec2): Vec2 {
    Vec2(a.x - b.x, a.y - b.y)
  }

  /** Component-wise sum; subtracting `b` again gives back `a`. */
  function Add(a: Vec2, b: Vec2): (r: Vec2)
    ensures Sub(r, b) == a
  {
    Vec2(a.x + b.x, a.y + b.y)
  }

  /** `multiplyScalar`: every component times `k`. */
  function Scale(a: Vec2, k: real): (r: Vec2)
    ensures k == 1.0 ==> r == a
    ensures k == 0.0 ==> r == Zero
  {
    Vec2(a.x * k, a.y * k)
  }

  /** Scaling by `j` and by `k` and adding is scaling by `j + k`. */
  lemma ScaleAdd(a: Vec2, j: real, k: real)
    ensures Add(Scale(a, j), Scale(a, k)) == Scale(a, j + k)
  {
    assert a.x * j + a.x * k == a.x * (j + k);
    assert a.y * j + a.y * k == a.y * (j + k);
  }

  lemma AddAssoc(a: Vec2, b: Vec2, c: Vec2)
    ensures Add(Add(a, b), c) == Add(a, Add(b, c))
  {
  }

  /** `m` parts of `x` times `b / m` make `x` times `b`. */
  lemma SplitParts(x: real, b: real, m: real)
    requires m != 0.0
    ensures x * (b / m) * m == x * b
  {
    assert (b / m) * m == b;
    assert x * (b / m) * m == x * ((b / m) * m);
  }

  /** The vector form of `SplitParts`. */
  lemma ScaleSplit(d: Vec2, b: real, m: real)
    requires m != 0.0
    ensures Scale(Scale(d, b / m), m) == Scale(d, b)
  {
    SplitParts(d.x, b, m);
    SplitParts(d.y, b, m);
  }

  /** One more step of `d` after `k` of them is `k + 1` steps of `d`. */
  lemma AddOneMore(p: Vec2, d: Vec2, k: real)
    ensures Add(Add(p, d), Scale(d, k)) == Add(p, Scale(d, k + 1.0))
  {
    ScaleAdd(d, 1.0, k);
    AddAssoc(p, Scale(d, 1.0), Scale(d, k));
  }

  /** The largest and smallest of two reals, for the bounds of `Lerp`. */
  function Min(a: real, b: real): real { if a <= b then a else b }
  function Max(a: real, b: real): real { if a <= b then b else a }

  /**
   * `lerp(v, p)`: move from `a` towards `b` by the fraction `p`. It starts at `a`,
   * ends at `b`, and for `p` in [0, 1] stays inside the box the two span.
   */
  function Lerp(a: Vec2, b: Vec2, p: real): (r: Vec2)
    ensures p == 0.0 ==> r == a
    ensures p == 1.0 ==> r == b
    ensures 0.0 <= p <= 1.0 ==>
              Min(a.x, b.x) <= r.x <= Max(a.x, b.x) && Min(a.y, b.y) <= r.y <= Max(a.y, b.y)
  {
    LerpBetween(a.x, b.x, p);
    LerpBetween(a.y, b.y, p);
    Vec2(a.x + (b.x - a.x) * p, a.y + (b.y - a.y) * p)
  }

  lemma LerpBetween(a: real, b: real, p: real)
    ensures 0.0 <= p <= 1.0 ==> Min(a, b) <= a + (b - a) * p <= Max(a, b)
  {
    if 0.0 <= p <= 1.0 {
      if a <= b {
        assert 0.0 <= (b - a) * p <= b - a;
      } else {
        var d := a - b;
        assert d * (1.0 - p) >= 0.0;
        assert 0.0 <= d * p == d - d * (1.0 - p) <= d;
      }
    }
  }
}
