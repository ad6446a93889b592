/** Shared building blocks: failure-carrying results and the grid-array
    arithmetic (pointwise operations, sums, volume integrals) that every
    component uses.  A grid array is a flat `seq<real>`; its 3-D shape is
    not modelled. */
module Common {

  datatype Option<+T> = None | Some(value: T)

  datatype Result<+T, +E> = Ok(value: T) | Err(error: E)

  function Abs(x: real): real
  {
    if x < 0.0 then -x else x
  }

  function Min(a: real, b: real): real
  {
    if a <= b then a else b
  }

  function Max(a: real, b: real): real
  {
    if a >= b then a else b
  }

  /** Dividing by a nonzero number and multiplying back is the identity. */
  lemma DivideBack(n: real, c: real)
    requires n != 0.0
    ensures n * (c / n) == c
  {
  }

  /** Sum of the entries of a grid array from index `k` on. */
  function SumFrom(a: seq<real>, k: nat): real
    decreases |a| - k
  {
    if k >= |a| then 0.0 else a[k] + SumFrom(a, k + 1)
  }

  /** Sum of the entries of a grid array. */
  function Sum(a: seq<real>): real
  {
    SumFrom(a, 0)
  }

  /** `gd.integrate(a)` on one rank: the entries weighted by the volume element. */
  function Integrate(a: seq<real>, dv: real): real
  {
    dv * Sum(a)
  }

  function Zeros(n: nat): (z: seq<real>)
    ensures |z| == n && forall i :: 0 <= i < n ==> z[i] == 0.0
  {
    seq(n, _ => 0.0)
  }

  function Scale(a: seq<real>, c: real): (r: seq<real>)
    ensures |r| == |a| && forall i :: 0 <= i < |a| ==> r[i] == c * a[i]
  {
    seq(|a|, i requires 0 <= i < |a| => c * a[i])
  }

  /** `a + b` for arrays of one shape; entries of `b` beyond `|a|` are ignored
      and missing ones count as zero (shape mismatch is not modelled). */
  function Add(a: seq<real>, b: seq<real>): (r: seq<real>)
    ensures |r| == |a|
    ensures forall i :: 0 <= i < |a| ==> r[i] == a[i] + (if i < |b| then b[i] else 0.0)
  {
    seq(|a|, i requires 0 <= i < |a| => a[i] + (if i < |b| then b[i] else 0.0))
  }

  /** Sum is linear: entries scaled by `c` give a sum scaled by `c`. */
  lemma {:induction false} SumFromLinear(a: seq<real>, b: seq<real>, c: real, k: nat)
    requires |a| == |b| && forall i :: k <= i < |a| ==> b[i] == c * a[i]
    ensures SumFrom(b, k) == c * SumFrom(a, k)
    decreases |a| - k
  {
    if k < |a| {
      SumFromLinear(a, b, c, k + 1);
      var u, w := a[k], SumFrom(a, k + 1);
      assert c * u + c * w == c * (u + w);
    }
  }

  lemma SumLinear(a: seq<real>, b: seq<real>, c: real)
    requires |a| == |b| && forall i :: 0 <= i < |a| ==> b[i] == c * a[i]
    ensures Sum(b) == c * Sum(a)
  {
    SumFromLinear(a, b, c, 0);
  }

  lemma SumScale(a: seq<real>, c: real)
    ensures Sum(Scale(a, c)) == c * Sum(a)
  {
    SumLinear(a, Scale(a, c), c);
  }

  /** Integration is linear in the array: scaling by `c` scales the integral by `c`. */
  lemma IntegrateScale(a: seq<real>, dv: real, c: real)
    ensures Integrate(Scale(a, c), dv) == c * Integrate(a, dv)
  {
    SumScale(a, c);
    assert dv * (c * Sum(a)) == c * (dv * Sum(a));
  }

  lemma {:induction false} SumFromAdd(a: seq<real>, b: seq<real>, k: nat)
    requires |a| == |b|
    ensures SumFrom(Add(a, b), k) == SumFrom(a, k) + SumFrom(b, k)
    decreases |a| - k
  {
    if k < |a| {
      SumFromAdd(a, b, k + 1);
    }
  }

  /** Adding arrays of one shape adds their sums. */
  lemma SumAdd(a: seq<real>, b: seq<real>)
    requires |a| == |b|
    ensures Sum(Add(a, b)) == Sum(a) + Sum(b)
  {
    SumFromAdd(a, b, 0);
  }

  lemma {:induction false} SumFromZeros(n: nat, k: nat)
    ensures SumFrom(Zeros(n), k) == 0.0
    decreases n - k
  {
    if k < n {
      SumFromZeros(n, k + 1);
    }
  }

  lemma SumZeros(n: nat)
    ensures Sum(Zeros(n)) == 0.0
  {
    SumFromZeros(n, 0);
  }

  lemma {:induction false} SumFromConcat(a: seq<real>, b: seq<real>, k: nat)
    requires k <= |a|
    ensures SumFrom(a + b, k) == SumFrom(a, k) + Sum(b)
    decreases |a| - k
  {
    if k < |a| {
      SumFromConcat(a, b, k + 1);
    } else {
      SumFromShift(a, b, 0);
    }
  }

  lemma {:induction false} SumFromShift(a: seq<real>, b: seq<real>, k: nat)
    ensures SumFrom(a + b, |a| + k) == SumFrom(b, k)
    decreases |b| - k
  {
    if k < |b| {
      SumFromShift(a, b, k + 1);
    }
  }

  /** The sum of a concatenation is the sum of the sums. */
  lemma SumConcat(a: seq<real>, b: seq<real>)
    ensures Sum(a + b) == Sum(a) + Sum(b)
  {
    SumFromConcat(a, b, 0);
  }

  function Constant(n: nat, c: real): (r: seq<real>)
    ensures |r| == n && forall i :: 0 <= i < n ==> r[i] == c
  {
    seq(n, _ => c)
  }

  lemma {:induction false} SumFromConstant(n: nat, c: real, k: nat)
    requires k <= n
    ensures SumFrom(Constant(n, c), k) == ((n - k) as real) * c
    decreases n - k
  {
    if k < n {
      SumFromConstant(n, c, k + 1);
      assert ((n - k) as real) * c == c + ((n - (k + 1)) as real) * c;
    }
  }

  /** n copies of c sum to n * c. */
  lemma SumConstant(n: nat, c: real)
    ensures Sum(Constant(n, c)) == (n as real) * c
  {
    SumFromConstant(n, c, 0);
  }

  /** The inner product `dot(a, b)` from index `k` on; entries beyond the
      shorter vector are ignored (vectors of different lengths never meet). */
  function DotFrom(a: seq<real>, b: seq<real>, k: nat): real
    decreases |a| - k
  {
    if k >= |a| || k >= |b| then 0.0 else a[k] * b[k] + DotFrom(a, b, k + 1)
  }

  function Dot(a: seq<real>, b: seq<real>): real
  {
    DotFrom(a, b, 0)
  }

  lemma {:induction false} DotFromScale(a: seq<real>, b: seq<real>, c: real, k: nat)
    ensures DotFrom(Scale(a, c), b, k) == c * DotFrom(a, b, k)
    decreases |a| - k
  {
    if k < |a| && k < |b| {
      DotFromScale(a, b, c, k + 1);
      var u, v, w := a[k], b[k], DotFrom(a, b, k + 1);
      assert (c * u) * v == c * (u * v);
      assert c * (u * v) + c * w == c * (u * v + w);
    }
  }

  /** The inner product is linear in its first argument. */
  lemma DotScale(a: seq<real>, b: seq<real>, c: real)
    ensures Dot(Scale(a, c), b) == c * Dot(a, b)
  {
    DotFromScale(a, b, c, 0);
  }
}
