/** Index bookkeeping of a PAW atomic setup (`gpaw/setup.py`): the initial
    occupation numbers of the atomic orbitals, the diagonal initial density
    matrix, the block layout of the rotation matrices, the Hubbard-U offset,
    and the packed pair indices `q` (projector functions j1 <= j2) and `p`
    (projector indices i1 <= i2) of `calculate_T_Lqp`.

    A setup is described by the angular momenta `l_j` and occupation numbers
    `f_j` of its projector functions and by the angular momentum of each
    basis function.  Radial grids, splines and every floating-point integral
    are not modelled; Gaunt coefficients and rotation matrices are inputs. */
module Setup {
  import opened Common

  datatype SetupError =
    | AssertionFailed   // one of the source's `assert` statements fails
    | IndexOutOfRange   // an array is indexed past its end

  /** Number of magnetic sub-states of angular momentum l. */
  function Degeneracy(l: nat): nat
  {
    2 * l + 1
  }

  /** Number of electrons a shell of angular momentum l holds. */
  function Capacity(l: nat): real
  {
    2.0 * (Degeneracy(l) as real)
  }

  /** Index of the first sub-state of entry k when the entries of `ls`
      occupy 2l+1 consecutive indices each. */
  function ShellStart(ls: seq<nat>, k: nat): nat
    requires k <= |ls|
  {
    if k == 0 then 0 else ShellStart(ls, k - 1) + Degeneracy(ls[k - 1])
  }

  lemma {:induction false} ShellStartMonotone(ls: seq<nat>, a: nat, b: nat)
    requires a <= b <= |ls|
    ensures ShellStart(ls, a) <= ShellStart(ls, b)
    decreases b
  {
    if a < b {
      ShellStartMonotone(ls, a, b - 1);
    }
  }

  /** The first projector function at or after j with angular momentum l,
      or `|ls|` when there is none: the skip loop over projector functions
      that are not in the basis set. */
  function NextShell(ls: seq<nat>, j: nat, l: nat): (r: nat)
    ensures j <= r
    ensures j <= |ls| ==> r <= |ls|
    ensures r < |ls| ==> ls[r] == l
    decreases |ls| - j
  {
    if j < |ls| && ls[j] != l then NextShell(ls, j + 1, l) else j
  }

  /** The projector functions skipped on the way have another angular momentum. */
  lemma {:induction false} NextShellSkips(ls: seq<nat>, j: nat, l: nat)
    ensures forall k :: j <= k < NextShell(ls, j, l) ==> k < |ls| && ls[k] != l
    decreases |ls| - j
  {
    if j < |ls| && ls[j] != l {
      NextShellSkips(ls, j + 1, l);
      forall k | j <= k < NextShell(ls, j, l)
        ensures k < |ls| && ls[k] != l
      {
        if k > j {
          assert j + 1 <= k < NextShell(ls, j + 1, l);
        }
      }
    } else {
      assert NextShell(ls, j, l) == j;
    }
  }

  // ---------------------------------------------------------------------
  // Charge adjustment of the occupation numbers
  // ---------------------------------------------------------------------

  /** Occupation numbers that fit their shells. */
  predicate Occupancies(f: seq<real>, ls: seq<nat>)
  {
    |f| == |ls| && forall j :: 0 <= j < |f| ==> 0.0 <= f[j] <= Capacity(ls[j])
  }

  /** Electrons taken from shell j when `charge` electrons are removed from
      the highest shell downwards: what the shells above j could not
      supply, at most f[j]. */
  function Removed(f: seq<real>, charge: real, j: nat): real
    requires j < |f|
  {
    Min(f[j], Max(0.0, charge - SumFrom(f, j + 1)))
  }

  /** Free places in the shells below k. */
  function RoomBelow(f: seq<real>, ls: seq<nat>, k: nat): real
    requires k <= |f| && k <= |ls|
  {
    if k == 0 then 0.0 else RoomBelow(f, ls, k - 1) + (Capacity(ls[k - 1]) - f[k - 1])
  }

  /** Electrons put into shell j when -charge electrons are added from the
      lowest shell upwards: what the shells below j could not take, at most
      the room of shell j. */
  function Added(f: seq<real>, ls: seq<nat>, charge: real, j: nat): real
    requires j < |f| && j < |ls|
  {
    Min(Capacity(ls[j]) - f[j], Max(0.0, -charge - RoomBelow(f, ls, j)))
  }

  /** The occupation numbers after the charge adjustment, and the charge
      that could not be placed (zero when the adjustment succeeds). */
  function Adjusted(f: seq<real>, ls: seq<nat>, charge: real): (seq<real>, real)
    requires |f| == |ls|
  {
    if charge >= 0.0 then
      (AfterRemoval(f, charge), Max(0.0, charge - Sum(f)))
    else
      (AfterAddition(f, ls, charge), -Max(0.0, -charge - RoomBelow(f, ls, |f|)))
  }

  function AfterRemoval(f: seq<real>, charge: real): (g: seq<real>)
    ensures |g| == |f| && forall j {:trigger g[j]} :: 0 <= j < |f| ==> g[j] == f[j] - Removed(f, charge, j)
  {
    seq(|f|, j requires 0 <= j < |f| => f[j] - Removed(f, charge, j))
  }

  function AfterAddition(f: seq<real>, ls: seq<nat>, charge: real): (g: seq<real>)
    requires |f| == |ls|
    ensures |g| == |f| && forall j {:trigger g[j]} :: 0 <= j < |f| ==> g[j] == f[j] + Added(f, ls, charge, j)
  {
    seq(|f|, j requires 0 <= j < |f| => f[j] + Added(f, ls, charge, j))
  }

  /** The electrons removed from shells j.. together are as many as the
      charge, or all they hold. */
  lemma {:induction false} RemovedFrom(f: seq<real>, ls: seq<nat>, charge: real, j: nat)
    requires Occupancies(f, ls) && j <= |f| && charge >= 0.0
    ensures SumFrom(Adjusted(f, ls, charge).0, j) == SumFrom(f, j) - Min(charge, SumFrom(f, j))
    decreases |f| - j
  {
    if j < |f| {
      RemovedFrom(f, ls, charge, j + 1);
    }
  }

  lemma {:induction false} AddedFrom(f: seq<real>, ls: seq<nat>, charge: real, j: nat)
    requires Occupancies(f, ls) && j <= |f| && charge < 0.0
    ensures SumFrom(Adjusted(f, ls, charge).0, j)
            == SumFrom(f, j) + Min(-charge, RoomBelow(f, ls, |f|)) - Min(-charge, RoomBelow(f, ls, j))
    decreases |f| - j
  {
    if j < |f| {
      AddedFrom(f, ls, charge, j + 1);
    }
  }

  /** The adjustment keeps every shell within its capacity and conserves
      electrons: the occupations lose exactly the charge that was placed.
      All of it is placed iff the shells hold enough electrons (positive
      charge) or enough room (negative charge). */
  lemma AdjustedConserves(f: seq<real>, ls: seq<nat>, charge: real)
    requires Occupancies(f, ls)
    ensures var (g, rest) := Adjusted(f, ls, charge);
            && Occupancies(g, ls)
            && Sum(g) - rest == Sum(f) - charge
            && (rest == 0.0 <==> if charge >= 0.0 then charge <= Sum(f) else -charge <= RoomBelow(f, ls, |f|))
  {
    if charge >= 0.0 {
      RemovedFrom(f, ls, charge, 0);
    } else {
      AddedFrom(f, ls, charge, 0);
    }
  }

  /** `calculate_initial_occupation_numbers`, first part: remove a positive
      charge from the highest shell down, or add a negative one from the
      lowest shell up. */
  method AdjustCharge(f: seq<real>, ls: seq<nat>, charge: real) returns (g: seq<real>, rest: real)
    requires Occupancies(f, ls)
    ensures (g, rest) == Adjusted(f, ls, charge)
  {
    if charge >= 0.0 {
      g, rest := RemoveCharge(f, ls, charge);
    } else {
      g, rest := AddCharge(f, ls, charge);
    }
  }

  method RemoveCharge(f: seq<real>, ls: seq<nat>, charge: real) returns (g: seq<real>, rest: real)
    requires Occupancies(f, ls) && charge >= 0.0
    ensures (g, rest) == Adjusted(f, ls, charge)
  {
    g, rest := f, charge;
    var j := |f|;
    while j > 0
      invariant 0 <= j <= |f| && |g| == |f|
      invariant forall i :: 0 <= i < j ==> g[i] == f[i]
      invariant forall i {:trigger g[i]} :: j <= i < |f| ==> g[i] == f[i] - Removed(f, charge, i)
      invariant rest == Max(0.0, charge - SumFrom(f, j))
    {
      j := j - 1;
      var c := Min(g[j], rest);
      assert c == Removed(f, charge, j);
      g := g[j := g[j] - c];
      rest := rest - c;
    }
    assert g == AfterRemoval(f, charge);
  }

  method AddCharge(f: seq<real>, ls: seq<nat>, charge: real) returns (g: seq<real>, rest: real)
    requires Occupancies(f, ls) && charge < 0.0
    ensures (g, rest) == Adjusted(f, ls, charge)
  {
    g, rest := f, charge;
    var j := 0;
    while j < |f|
      invariant 0 <= j <= |f| && |g| == |f|
      invariant forall i {:trigger g[i]} :: 0 <= i < j ==> g[i] == f[i] + Added(f, ls, charge, i)
      invariant forall i :: j <= i < |f| ==> g[i] == f[i]
      invariant rest == -Max(0.0, -charge - RoomBelow(f, ls, j))
    {
      var c := Min(Capacity(ls[j]) - g[j], -rest);
      assert c == Added(f, ls, charge, j);
      g := g[j := g[j] + c];
      rest := rest + c;
      j := j + 1;
    }
    assert g == AfterAddition(f, ls, charge);
  }

  // ---------------------------------------------------------------------
  // Occupation of the basis-function blocks
  // ---------------------------------------------------------------------

  /** Python's `int(x)`: truncation toward zero. */
  function Trunc(x: real): int
  {
    if x >= 0.0 then x.Floor else -((-x).Floor)
  }

  function IntMin(a: int, b: int): int
  {
    if a <= b then a else b
  }

  function IntMax(a: int, b: int): int
  {
    if a >= b then a else b
  }

  /** Python's `cmp(x, 0)`. */
  function Sign(x: real): real
  {
    if x > 0.0 then 1.0 else if x < 0.0 then -1.0 else 0.0
  }

  /** A row of d entries whose first c are 1 and the rest 0: the slice
      assignment `f[i:i + c] = 1.0` on a block of d zeros. */
  function Ones(d: nat, c: int): (r: seq<real>)
    ensures |r| == d && forall k :: 0 <= k < d ==> r[k] == if k < c then 1.0 else 0.0
  {
    seq(d, k requires 0 <= k < d => if k < c then 1.0 else 0.0)
  }

  lemma {:induction false} SumFromOnes(d: nat, c: int, k: nat)
    requires k <= d
    ensures SumFrom(Ones(d, c), k) == (IntMax(IntMin(c, d) - k, 0)) as real
    decreases d - k
  {
    if k < d {
      SumFromOnes(d, c, k + 1);
    }
  }

  /** The spin-up and spin-down occupations of the d orbitals of one basis
      function, and the magnetic moment they carry away from `magmom`. */
  datatype Block = Block(up: seq<real>, down: seq<real>, moment: real)

  /** The magnetic moment a block of shell occupation f takes without Hund's
      rules: `magmom`, clamped to the largest moment f electrons in d
      orbitals can have. */
  function SpreadMoment(f: real, d: nat, magmom: real): real
  {
    var maxmom := Min(f, 2.0 * (d as real) - f);
    if Abs(magmom) > maxmom then Sign(magmom) * maxmom else magmom
  }

  /** Occupations of the block of a basis function of angular momentum l
      whose shell holds f electrons. */
  function OccupationBlock(f: real, l: nat, hund: bool, nspins: nat, magmom: real): (b: Block)
    ensures |b.up| == Degeneracy(l)
    ensures |b.down| == if !hund && nspins == 1 then 0 else Degeneracy(l)
  {
    var d := Degeneracy(l);
    if hund then
      var n := Trunc(f);
      Block(Ones(d, IntMin(n, d)), Ones(d, IntMax(n - d, 0)), (if n < d then n else 2 * d - n) as real)
    else if nspins == 1 then
      Block(Constant(d, 1.0 * f / (d as real)), [], 0.0)
    else
      var mag := SpreadMoment(f, d, magmom);
      Block(Constant(d, 0.5 * (f + mag) / (d as real)), Constant(d, 0.5 * (f - mag) / (d as real)), mag)
  }

  /** With Hund's rules a block holds the integer part n of f: min(n, d)
      spin-up ones and max(n - d, 0) spin-down ones, and the moment it
      takes from `magmom` is spin-up minus spin-down. */
  lemma HundBlockCounts(f: real, l: nat, nspins: nat, magmom: real)
    requires 0.0 <= f <= Capacity(l)
    ensures var b := OccupationBlock(f, l, true, nspins, magmom);
            && Sum(b.up) == (IntMin(Trunc(f), Degeneracy(l))) as real
            && Sum(b.down) == (IntMax(Trunc(f) - Degeneracy(l), 0)) as real
            && Sum(b.up) + Sum(b.down) == Trunc(f) as real
            && b.moment == Sum(b.up) - Sum(b.down)
  {
    var d, n := Degeneracy(l), Trunc(f);
    assert n <= 2 * d by {
      assert f.Floor as real <= f;
    }
    SumFromOnes(d, IntMin(n, d), 0);
    SumFromOnes(d, IntMax(n - d, 0), 0);
  }

  /** Without Hund's rules and with one spin, each orbital gets f/d: the
      block holds f electrons. */
  lemma SingleSpinBlockCounts(f: real, l: nat, magmom: real)
    ensures var b := OccupationBlock(f, l, false, 1, magmom);
            && Sum(b.up) == f && b.moment == 0.0
  {
    var d := Degeneracy(l) as real;
    SumConstant(Degeneracy(l), 1.0 * f / d);
    DivideBack(d, 1.0 * f);
  }

  /** The clamped moment stays within min(f, 2d - f) and is `magmom`
      itself whenever that bound allows it. */
  lemma SpreadMomentBound(f: real, d: nat, magmom: real)
    requires 0.0 <= f <= 2.0 * (d as real)
    ensures Abs(SpreadMoment(f, d, magmom)) <= Min(f, 2.0 * (d as real) - f)
    ensures Abs(magmom) <= Min(f, 2.0 * (d as real) - f) ==> SpreadMoment(f, d, magmom) == magmom
  {
  }

  /** d equal shares of a and of b, summed over the d orbitals, give back
      a + b and a - b. */
  lemma SharesSum(n: nat, a: real, b: real)
    requires n > 0
    ensures Sum(Constant(n, a / (n as real))) + Sum(Constant(n, b / (n as real))) == a + b
    ensures Sum(Constant(n, a / (n as real))) - Sum(Constant(n, b / (n as real))) == a - b
  {
    var d := n as real;
    SumConstant(n, a / d);
    SumConstant(n, b / d);
    DivideBack(d, a);
    DivideBack(d, b);
  }

  /** Without Hund's rules and with two spins, the block holds f electrons
      with moment mag = spin-up minus spin-down; |mag| <= min(f, 2d - f),
      and mag equals `magmom` whenever that bound allows it. */
  lemma TwoSpinBlockCounts(f: real, l: nat, magmom: real)
    requires 0.0 <= f <= Capacity(l)
    ensures var b := OccupationBlock(f, l, false, 2, magmom);
            && Sum(b.up) + Sum(b.down) == f
            && Sum(b.up) - Sum(b.down) == b.moment
            && Abs(b.moment) <= Min(f, Capacity(l) - f)
            && (Abs(magmom) <= Min(f, Capacity(l) - f) ==> b.moment == magmom)
  {
    var n := Degeneracy(l);
    var mag := SpreadMoment(f, n, magmom);
    SpreadMomentBound(f, n, magmom);
    SharesSum(n, 0.5 * (f + mag), 0.5 * (f - mag));
  }

  // ---------------------------------------------------------------------
  // The walk over the basis functions
  // ---------------------------------------------------------------------

  /** Where the search for the projector function of basis function k
      starts: one past the projector function matched by basis function
      k - 1. */
  function SearchStart(ls: seq<nat>, basis: seq<nat>, k: nat): nat
    requires k <= |basis|
    decreases k, 0
  {
    if k == 0 then 0 else Match(ls, basis, k - 1) + 1
  }

  /** The projector function basis function k belongs to (`|ls|` or more
      when none is left). */
  function Match(ls: seq<nat>, basis: seq<nat>, k: nat): nat
    requires k < |basis|
    decreases k, 1
  {
    NextShell(ls, SearchStart(ls, basis, k), basis[k])
  }

  /** `f = f_j[j] if j < nj else 0`. */
  function ShellOccupation(ls: seq<nat>, f: seq<real>, j: nat): real
  {
    if j < |ls| && j < |f| then f[j] else 0.0
  }

  /** The occupation rows and the remaining magnetic moment after the first
      k basis functions. */
  datatype Filling = Filling(up: seq<real>, down: seq<real>, magmom: real)

  function Fill(ls: seq<nat>, f: seq<real>, basis: seq<nat>, hund: bool, nspins: nat, magmom: real, k: nat): Filling
    requires k <= |basis|
  {
    if k == 0 then Filling([], [], magmom)
    else
      var st := Fill(ls, f, basis, hund, nspins, magmom, k - 1);
      var b := OccupationBlock(ShellOccupation(ls, f, Match(ls, basis, k - 1)), basis[k - 1], hund, nspins, st.magmom);
      Filling(st.up + b.up, st.down + b.down, st.magmom - b.moment)
  }

  lemma FillStep(ls: seq<nat>, f: seq<real>, basis: seq<nat>, hund: bool, nspins: nat, magmom: real, k: nat)
    requires k < |basis|
    ensures var st := Fill(ls, f, basis, hund, nspins, magmom, k);
      var b := OccupationBlock(ShellOccupation(ls, f, Match(ls, basis, k)), basis[k], hund, nspins, st.magmom);
      Fill(ls, f, basis, hund, nspins, magmom, k + 1) == Filling(st.up + b.up, st.down + b.down, st.magmom - b.moment)
  {
  }

  /** `f_si`: one row per spin. */
  function Rows(st: Filling, nspins: nat): seq<seq<real>>
  {
    if nspins == 1 then [st.up] else [st.up, st.down]
  }

  /** Block k occupies indices ShellStart(basis, k) .. ShellStart(basis, k + 1):
      after all basis functions the rows have niAO entries. */
  lemma {:induction false} FillLayout(ls: seq<nat>, f: seq<real>, basis: seq<nat>, hund: bool, nspins: nat, magmom: real, k: nat)
    requires k <= |basis|
    ensures var st := Fill(ls, f, basis, hund, nspins, magmom, k);
            && |st.up| == ShellStart(basis, k)
            && |st.down| == if !hund && nspins == 1 then 0 else ShellStart(basis, k)
  {
    if k > 0 {
      FillLayout(ls, f, basis, hund, nspins, magmom, k - 1);
    }
  }

  /** With Hund's rules, or without them and two spins, `magmom` decreases by
      exactly the moment (spin-up minus spin-down electrons) placed in the
      rows. */
  lemma {:induction false} FillMoment(ls: seq<nat>, f: seq<real>, basis: seq<nat>, hund: bool, nspins: nat, magmom: real, k: nat)
    requires k <= |basis| && Occupancies(f, ls) && (hund || nspins == 2)
    ensures var st := Fill(ls, f, basis, hund, nspins, magmom, k);
            st.magmom == magmom - (Sum(st.up) - Sum(st.down))
  {
    if k > 0 {
      FillMoment(ls, f, basis, hund, nspins, magmom, k - 1);
      var st := Fill(ls, f, basis, hund, nspins, magmom, k - 1);
      var l := basis[k - 1];
      var fl := ShellOccupation(ls, f, Match(ls, basis, k - 1));
      assert 0.0 <= fl <= Capacity(l);
      var b := OccupationBlock(fl, l, hund, nspins, st.magmom);
      if hund {
        HundBlockCounts(fl, l, nspins, st.magmom);
      } else {
        TwoSpinBlockCounts(fl, l, st.magmom);
      }
      SumConcat(st.up, b.up);
      SumConcat(st.down, b.down);
    }
  }

  // ---------------------------------------------------------------------
  // Projector indices i: the list `jlL_i` of (j, l, L) and its length ni
  // ---------------------------------------------------------------------

  /** Projector index i belongs to projector function j of angular momentum
      l and carries the spherical-harmonic index L = l^2 + m. */
  datatype ProjectorIndex = ProjectorIndex(j: nat, l: nat, bigL: nat)

  function ShellIndices(j: nat, l: nat): (r: seq<ProjectorIndex>)
    ensures |r| == Degeneracy(l)
    ensures forall m :: 0 <= m < |r| ==> r[m] == ProjectorIndex(j, l, l * l + m)
  {
    seq(Degeneracy(l), m requires 0 <= m < Degeneracy(l) => ProjectorIndex(j, l, l * l + m))
  }

  /** `jlL_i` over the first k projector functions. */
  function ProjectorIndices(ls: seq<nat>, k: nat): seq<ProjectorIndex>
    requires k <= |ls|
  {
    if k == 0 then [] else ProjectorIndices(ls, k - 1) + ShellIndices(k - 1, ls[k - 1])
  }

  /** Projector function j owns the indices ShellStart(j) .. ShellStart(j + 1)
      of `jlL_i`: every index a lies in the range of its own j, with
      m = a - ShellStart(j). */
  lemma {:induction false} ProjectorIndexShell(ls: seq<nat>, k: nat, a: nat)
    requires k <= |ls| && a < ShellStart(ls, k)
    ensures |ProjectorIndices(ls, k)| == ShellStart(ls, k)
    ensures var e := ProjectorIndices(ls, k)[a];
            && e.j < k
            && ShellStart(ls, e.j) <= a < ShellStart(ls, e.j + 1)
            && e == ProjectorIndex(e.j, ls[e.j], ls[e.j] * ls[e.j] + (a - ShellStart(ls, e.j)))
  {
    ProjectorIndicesLength(ls, k);
    ProjectorIndicesLength(ls, k - 1);
    if a >= ShellStart(ls, k - 1) {
    } else {
      ProjectorIndexShell(ls, k - 1, a);
    }
  }

  lemma {:induction false} ProjectorIndicesLength(ls: seq<nat>, k: nat)
    requires k <= |ls|
    ensures |ProjectorIndices(ls, k)| == ShellStart(ls, k)
  {
    if k > 0 {
      ProjectorIndicesLength(ls, k - 1);
    }
  }

  /** Index a lies in the range of projector function j only if j is its own. */
  lemma ShellRangesDisjoint(ls: seq<nat>, j1: nat, j2: nat, a: nat)
    requires j1 < |ls| && j2 < |ls|
    requires ShellStart(ls, j1) <= a < ShellStart(ls, j1 + 1)
    requires ShellStart(ls, j2) <= a < ShellStart(ls, j2 + 1)
    ensures j1 == j2
  {
    if j1 < j2 {
      ShellStartMonotone(ls, j1 + 1, j2);
    } else if j2 < j1 {
      ShellStartMonotone(ls, j2 + 1, j1);
    }
  }

  /** `max(l_j)`. */
  function MaxL(ls: seq<nat>): (m: nat)
    requires |ls| > 0
    ensures m in ls && forall x :: x in ls ==> x <= m
  {
    if |ls| == 1 then ls[0]
    else
      var r := MaxL(ls[1..]);
      assert forall x :: x in ls ==> x == ls[0] || x in ls[1..];
      if ls[0] >= r then ls[0] else r
  }

  /** `lcut`: the largest l of the projector functions, raised to
      (lmax + 1) // 2 when twice it is below lmax. It is the least value
      that is at least every l and at least half of lmax. */
  function Lcut(ls: seq<nat>, lmax: nat): (c: nat)
    requires |ls| > 0
    ensures forall l :: l in ls ==> l <= c
    ensures 2 * c >= lmax
    ensures c in ls || 2 * c <= lmax + 1
  {
    var c := MaxL(ls);
    if 2 * c < lmax then (lmax + 1) / 2 else c
  }

  // ---------------------------------------------------------------------
  // Packed pairs: the pairs (a, b) with a <= b < n, row by row
  // ---------------------------------------------------------------------

  /** Row a of the packed pairs: (a, a), (a, a + 1), ..., (a, n - 1). */
  function PairRow(a: nat, n: nat): (r: seq<(nat, nat)>)
    requires a <= n
    ensures |r| == n - a
    ensures forall t :: 0 <= t < |r| ==> r[t] == (a, a + t)
  {
    seq(n - a, t requires 0 <= t < n - a => (a, a + t))
  }

  /** The rows a, a + 1, ..., n - 1 of the packed pairs. */
  function PairsFrom(n: nat, a: nat): seq<(nat, nat)>
    decreases n - a
  {
    if a >= n then [] else PairRow(a, n) + PairsFrom(n, a + 1)
  }

  /** The order of the packed index p over the pairs a <= b < n. */
  function Pairs(n: nat): seq<(nat, nat)>
  {
    PairsFrom(n, 0)
  }

  /** Number of packed pairs in the rows before row a. */
  function RowOffset(a: nat, n: nat): nat
    requires a <= n
  {
    if a == 0 then 0 else RowOffset(a - 1, n) + (n - (a - 1))
  }

  /** The packed index of the pair (a, b), a <= b < n. */
  function PairIndex(a: nat, b: nat, n: nat): nat
    requires a <= b < n
  {
    RowOffset(a, n) + (b - a)
  }

  /** The closed form of the row offsets: 2 RowOffset(a) = a (2n - a + 1). */
  lemma {:induction false} RowOffsetClosed(a: nat, n: nat)
    requires a <= n
    ensures 2 * RowOffset(a, n) == a * (2 * n - a + 1)
  {
    if a > 0 {
      RowOffsetClosed(a - 1, n);
      ClosedStep(a - 1, n);
    }
  }

  lemma ClosedStep(c: int, n: int)
    ensures c * (2 * n - c + 1) + 2 * (n - c) == (c + 1) * (2 * n - (c + 1) + 1)
  {
    assert c * (2 * n - c + 1) == 2 * c * n - c * c + c;
    assert (c + 1) * (2 * n - c) == 2 * c * n - c * c + 2 * n - c;
  }

  lemma {:induction false} PairsFromLength(n: nat, a: nat)
    requires a <= n
    ensures |PairsFrom(n, a)| == RowOffset(n, n) - RowOffset(a, n)
    decreases n - a
  {
    if a < n {
      PairsFromLength(n, a + 1);
      RowOffsetMonotone(a + 1, n, n);
    }
  }

  lemma {:induction false} RowOffsetMonotone(a: nat, b: nat, n: nat)
    requires a <= b <= n
    ensures RowOffset(a, n) <= RowOffset(b, n)
    decreases b
  {
    if a < b {
      RowOffsetMonotone(a, b - 1, n);
    }
  }

  /** There are n (n + 1) / 2 packed pairs. */
  lemma PairsLength(n: nat)
    ensures |Pairs(n)| == n * (n + 1) / 2
  {
    PairsFromLength(n, 0);
    RowOffsetClosed(n, n);
  }

  /** The pair at packed index PairIndex(a, b) is (a, b). */
  lemma {:induction false} PairsFromAt(n: nat, a0: nat, a: nat, b: nat)
    requires a0 <= a <= b < n
    ensures RowOffset(a0, n) <= RowOffset(a, n)
    ensures var p := PairIndex(a, b, n) - RowOffset(a0, n);
            p < |PairsFrom(n, a0)| && PairsFrom(n, a0)[p] == (a, b)
    decreases a - a0
  {
    RowOffsetMonotone(a0, a, n);
    var head, tail := PairRow(a0, n), PairsFrom(n, a0 + 1);
    assert PairsFrom(n, a0) == head + tail;
    if a0 < a {
      PairsFromAt(n, a0 + 1, a, b);
      var p := PairIndex(a, b, n) - RowOffset(a0 + 1, n);
      assert PairIndex(a, b, n) - RowOffset(a0, n) == |head| + p;
    } else {
      assert PairIndex(a, b, n) - RowOffset(a0, n) == b - a;
    }
  }

  /** Every packed index p holds a pair a <= b < n whose packed index is p. */
  lemma {:induction false} PairsFromIndex(n: nat, a0: nat, p: nat)
    requires a0 <= n && p < |PairsFrom(n, a0)|
    ensures var (a, b) := PairsFrom(n, a0)[p];
            && a0 <= a <= b < n && RowOffset(a0, n) <= RowOffset(a, n)
            && PairIndex(a, b, n) == RowOffset(a0, n) + p
    decreases n - a0
  {
    if p >= n - a0 {
      PairsFromIndex(n, a0 + 1, p - (n - a0));
    }
  }

  /** The packed index p and the pair (a, b) determine each other. */
  lemma PairsEnumerate(n: nat)
    ensures forall a, b :: 0 <= a <= b < n ==>
              PairIndex(a, b, n) < |Pairs(n)| && Pairs(n)[PairIndex(a, b, n)] == (a, b)
    ensures forall p :: 0 <= p < |Pairs(n)| ==>
              Pairs(n)[p].0 <= Pairs(n)[p].1 < n && PairIndex(Pairs(n)[p].0, Pairs(n)[p].1, n) == p
  {
    forall a, b | 0 <= a <= b < n
      ensures PairIndex(a, b, n) < |Pairs(n)| && Pairs(n)[PairIndex(a, b, n)] == (a, b)
    {
      PairsFromAt(n, 0, a, b);
    }
    forall p | 0 <= p < |Pairs(n)|
      ensures Pairs(n)[p].0 <= Pairs(n)[p].1 < n && PairIndex(Pairs(n)[p].0, Pairs(n)[p].1, n) == p
    {
      PairsFromIndex(n, 0, p);
    }
  }

  /** RowOffset(a) = a n - a (a + 1) / 2 + a, the form `calculate_T_Lqp` uses. */
  lemma RowOffsetFormula(a: nat, n: nat)
    requires a <= n
    ensures RowOffset(a, n) == a * n - a * (a + 1) / 2 + a
  {
    RowOffsetClosed(a, n);
    var r, t := RowOffset(a, n), a * (a + 1);
    assert 2 * r == 2 * (a * n) - t + 2 * a;
    assert t == 2 * (a * n + a - r);
  }

  /** The pair index `q` of projector functions j1 and j2 in `calculate_T_Lqp`. */
  function PairQ(j1: nat, j2: nat, nj: nat): int
  {
    if j1 < j2 then j2 + j1 * nj - j1 * (j1 + 1) / 2
    else j1 + j2 * nj - j2 * (j2 + 1) / 2
  }

  /** q(j1, j2) is symmetric and is the packed index of (min, max): the
      position of the pair in the q order of `get_compensation_charges`. */
  lemma PairQIsPairIndex(j1: nat, j2: nat, nj: nat)
    requires j1 < nj && j2 < nj
    ensures PairQ(j1, j2, nj) == PairQ(j2, j1, nj)
    ensures var (a, b) := if j1 <= j2 then (j1, j2) else (j2, j1);
            && PairQ(j1, j2, nj) == PairIndex(a, b, nj)
            && 0 <= PairQ(j1, j2, nj) < nj * (nj + 1) / 2 == |Pairs(nj)|
            && Pairs(nj)[PairQ(j1, j2, nj)] == (a, b)
  {
    var (a, b) := if j1 <= j2 then (j1, j2) else (j2, j1);
    RowOffsetFormula(a, nj);
    PairsEnumerate(nj);
    PairsLength(nj);
  }

  /** The pair (a, b) sits at packed index PairIndex(a, b, n). */
  lemma PairAt(n: nat, a: nat, b: nat)
    requires a <= b < n
    ensures PairIndex(a, b, n) < |Pairs(n)| && Pairs(n)[PairIndex(a, b, n)] == (a, b)
  {
    PairsFromAt(n, 0, a, b);
  }

  // ---------------------------------------------------------------------
  // The expansion coefficients T_Lqp of `calculate_T_Lqp`
  // ---------------------------------------------------------------------

  /** `G_LLL[L1, L2, :Lcut]`, the Gaunt coefficients being an input. */
  function GauntRow(gaunt: (nat, nat, nat) -> real, bigL1: nat, bigL2: nat, lc: nat): (r: seq<real>)
    ensures |r| == lc && forall L :: 0 <= L < lc ==> r[L] == gaunt(bigL1, bigL2, L)
  {
    seq(lc, L requires 0 <= L < lc => gaunt(bigL1, bigL2, L))
  }

  /** `T_Lqp[:, q, p]`: for the p-th pair i1 <= i2 of projector indices, the
      Gaunt coefficients of their L values in row q = q(j1, j2) of their
      projector functions, zero in every other row. */
  function TColumn(js: seq<ProjectorIndex>, nj: nat, gaunt: (nat, nat, nat) -> real, lc: nat, q: nat, p: nat): seq<real>
  {
    if p < |Pairs(|js|)| && Pairs(|js|)[p].0 < |js| && Pairs(|js|)[p].1 < |js| then
      var (e1, e2) := (js[Pairs(|js|)[p].0], js[Pairs(|js|)[p].1]);
      if PairQ(e1.j, e2.j, nj) == q then GauntRow(gaunt, e1.bigL, e2.bigL, lc) else Zeros(lc)
    else Zeros(lc)
  }

  /** `T_Lqp` (stored as t[q][p][L]) after the first n columns p. */
  predicate TFilled(t: seq<seq<seq<real>>>, js: seq<ProjectorIndex>, nj: nat, gaunt: (nat, nat, nat) -> real,
                    lc: nat, nq: nat, np: nat, n: nat)
  {
    && |t| == nq
    && forall q :: 0 <= q < nq ==>
         |t[q]| == np && forall p :: 0 <= p < np ==> t[q][p] == if p < n then TColumn(js, nj, gaunt, lc, q, p) else Zeros(lc)
  }

  /** Writing column p = PairIndex(i1, i2) into row q(j1, j2). */
  lemma TFilledStep(t: seq<seq<seq<real>>>, js: seq<ProjectorIndex>, nj: nat, gaunt: (nat, nat, nat) -> real,
                    lc: nat, nq: nat, np: nat, i1: nat, i2: nat, p: nat, q: int)
    requires i1 <= i2 < |js| && js[i1].j < nj && js[i2].j < nj
    requires nq == nj * (nj + 1) / 2 && np == |js| * (|js| + 1) / 2
    requires p == PairIndex(i1, i2, |js|) && q == PairQ(js[i1].j, js[i2].j, nj)
    requires TFilled(t, js, nj, gaunt, lc, nq, np, p)
    ensures 0 <= q < nq && p < np
    ensures TFilled(t[q := t[q][p := GauntRow(gaunt, js[i1].bigL, js[i2].bigL, lc)]], js, nj, gaunt, lc, nq, np, p + 1)
  {
    PairAt(|js|, i1, i2);
    PairsLength(|js|);
    PairQIsPairIndex(js[i1].j, js[i2].j, nj);
  }

  /** Each column p of T_Lqp is nonzero in the one row q of its projector
      functions, and both i1 <= i2 orders of a pair of projector functions
      give the same q, which is their position in the pair order of
      `get_compensation_charges`. */
  lemma TColumnRows(js: seq<ProjectorIndex>, nj: nat, gaunt: (nat, nat, nat) -> real, lc: nat, i1: nat, i2: nat, q: nat)
    requires i1 <= i2 < |js| && js[i1].j < nj && js[i2].j < nj
    ensures var p := PairIndex(i1, i2, |js|);
            var (j1, j2) := (js[i1].j, js[i2].j);
            && p < |js| * (|js| + 1) / 2
            && 0 <= PairQ(j1, j2, nj) < nj * (nj + 1) / 2 == |Pairs(nj)|
            && Pairs(nj)[PairQ(j1, j2, nj)] == (if j1 <= j2 then (j1, j2) else (j2, j1))
            && TColumn(js, nj, gaunt, lc, q, p)
               == if q == PairQ(j1, j2, nj) then GauntRow(gaunt, js[i1].bigL, js[i2].bigL, lc) else Zeros(lc)
  {
    PairAt(|js|, i1, i2);
    PairsLength(|js|);
    PairQIsPairIndex(js[i1].j, js[i2].j, nj);
  }

  // ---------------------------------------------------------------------
  // The initial density matrix: the occupations on the diagonal, packed
  // ---------------------------------------------------------------------

  /** `d[start:end] = row[ib:ib + end - start]` (zero past the end of the row). */
  function Copied(d: seq<real>, start: nat, end: nat, row: seq<real>, ib: nat): (r: seq<real>)
    ensures |r| == |d|
  {
    seq(|d|, x requires 0 <= x < |d| =>
      if start <= x < end then (if ib + (x - start) < |row| then row[ib + (x - start)] else 0.0) else d[x])
  }

  /** Each basis function is matched with a later projector function than
      the one before it. */
  lemma {:induction false} MatchIncreasing(ls: seq<nat>, basis: seq<nat>, k1: nat, k2: nat)
    requires k1 < k2 < |basis|
    ensures Match(ls, basis, k1) < Match(ls, basis, k2)
    decreases k2
  {
    if k1 < k2 - 1 {
      MatchIncreasing(ls, basis, k1, k2 - 1);
    }
  }

  /** The projector function each basis function is matched with. */
  function Matches(ls: seq<nat>, basis: seq<nat>): (ms: seq<nat>)
    ensures |ms| == |basis| && forall k :: 0 <= k < |basis| ==> ms[k] == Match(ls, basis, k)
  {
    seq(|basis|, k requires 0 <= k < |basis| => Match(ls, basis, k))
  }

  /** A matching of basis functions with projector functions: in
      increasing order, each with its own angular momentum. */
  predicate MatchLayout(ls: seq<nat>, basis: seq<nat>, ms: seq<nat>)
  {
    && |ms| == |basis|
    && (forall k :: 0 <= k < |ms| && ms[k] < |ls| ==> ls[ms[k]] == basis[k])
    && (forall k1, k2 :: 0 <= k1 < k2 < |ms| ==> ms[k1] < ms[k2])
  }

  lemma MatchesLayout(ls: seq<nat>, basis: seq<nat>)
    ensures MatchLayout(ls, basis, Matches(ls, basis))
  {
    forall k1, k2 | 0 <= k1 < k2 < |basis|
      ensures Match(ls, basis, k1) < Match(ls, basis, k2)
    {
      MatchIncreasing(ls, basis, k1, k2);
    }
  }

  /** The first of the first k basis functions matched with projector
      function j, or k when there is none. */
  function Owner(ms: seq<nat>, j: nat, k: nat): (o: nat)
    requires k <= |ms|
    ensures o <= k && (o < k ==> ms[o] == j)
  {
    if k == 0 then 0
    else
      var o := Owner(ms, j, k - 1);
      if o < k - 1 then o else if ms[k - 1] == j then k - 1 else k
  }

  /** Owner(j, k) is k when none of the first k basis functions is matched with j. */
  lemma {:induction false} OwnerAbsent(ms: seq<nat>, j: nat, k: nat)
    requires k <= |ms| && forall k' :: 0 <= k' < k ==> ms[k'] != j
    ensures Owner(ms, j, k) == k
  {
    if k > 0 {
      OwnerAbsent(ms, j, k - 1);
    }
  }

  /** Owner(j, k) is the first basis function k0 < k matched with j. */
  lemma {:induction false} OwnerIs(ms: seq<nat>, j: nat, k: nat, k0: nat)
    requires k0 < k <= |ms| && ms[k0] == j && forall k' :: 0 <= k' < k0 ==> ms[k'] != j
    ensures Owner(ms, j, k) == k0
  {
    if k - 1 > k0 {
      OwnerIs(ms, j, k - 1, k0);
    } else {
      OwnerAbsent(ms, j, k0);
    }
  }

  /** The projector function at or after j owning index x. */
  function ShellFrom(ls: seq<nat>, j: nat, x: nat): (r: nat)
    requires j <= |ls| && ShellStart(ls, j) <= x < ShellStart(ls, |ls|)
    ensures j <= r < |ls| && ShellStart(ls, r) <= x < ShellStart(ls, r + 1)
    decreases |ls| - j
  {
    if x < ShellStart(ls, j + 1) then j else ShellFrom(ls, j + 1, x)
  }

  /** The projector function owning index x: the `j` of `jlL_i[x]`. */
  function ShellOf(ls: seq<nat>, x: nat): (j: nat)
    requires x < ShellStart(ls, |ls|)
    ensures j < |ls| && ShellStart(ls, j) <= x < ShellStart(ls, j + 1)
  {
    ShellFrom(ls, 0, x)
  }

  lemma ShellOfIndices(ls: seq<nat>, x: nat)
    requires x < ShellStart(ls, |ls|)
    ensures x < |ProjectorIndices(ls, |ls|)| && ProjectorIndices(ls, |ls|)[x].j == ShellOf(ls, x)
  {
    ProjectorIndexShell(ls, |ls|, x);
    ShellRangesDisjoint(ls, ShellOf(ls, x), ProjectorIndices(ls, |ls|)[x].j, x);
  }

  /** Entry x of the diagonal of `D_ii` for one spin row of `f_si` after the
      first k basis functions, basis function k being matched with
      projector function ms[k]: the occupation the first basis function
      matched with x's projector function has at the same offset, or zero
      when no such basis function came yet. */
  function DiagonalEntry(ls: seq<nat>, basis: seq<nat>, ms: seq<nat>, row: seq<real>, k: nat, x: nat): real
    requires k <= |basis| == |ms| && x < ShellStart(ls, |ls|)
  {
    var j := ShellOf(ls, x);
    var o := Owner(ms, j, k);
    if o < k then
      var a := ShellStart(basis, o) + (x - ShellStart(ls, j));
      if a < |row| then row[a] else 0.0
    else 0.0
  }

  /** The diagonal of `D_ii` after the first k basis functions. */
  function Diagonal(ls: seq<nat>, basis: seq<nat>, ms: seq<nat>, row: seq<real>, k: nat): (d: seq<real>)
    requires k <= |basis| == |ms|
    ensures |d| == ShellStart(ls, |ls|)
  {
    seq(ShellStart(ls, |ls|), x requires 0 <= x < ShellStart(ls, |ls|) => DiagonalEntry(ls, basis, ms, row, k, x))
  }

  /** Before any basis function the diagonal is zero. */
  lemma DiagonalStart(ls: seq<nat>, basis: seq<nat>, ms: seq<nat>, row: seq<real>)
    requires |basis| == |ms|
    ensures Diagonal(ls, basis, ms, row, 0) == Zeros(ShellStart(ls, |ls|))
  {
  }

  /** Basis function k without a projector function left changes nothing. */
  lemma DiagonalUnmatched(ls: seq<nat>, basis: seq<nat>, ms: seq<nat>, row: seq<real>, k: nat)
    requires k < |basis| == |ms| && ms[k] >= |ls|
    ensures Diagonal(ls, basis, ms, row, k + 1) == Diagonal(ls, basis, ms, row, k)
  {
    forall x | 0 <= x < ShellStart(ls, |ls|)
      ensures DiagonalEntry(ls, basis, ms, row, k + 1, x) == DiagonalEntry(ls, basis, ms, row, k, x)
    {
    }
  }

  /** Entry x after basis function k, matched with projector function
      j = ms[k]: the new occupation inside the range of j, the old entry
      elsewhere. */
  lemma DiagonalMatchedAt(ls: seq<nat>, basis: seq<nat>, ms: seq<nat>, row: seq<real>, k: nat, x: nat)
    requires MatchLayout(ls, basis, ms) && k < |basis| && ms[k] < |ls| && x < ShellStart(ls, |ls|)
    ensures DiagonalEntry(ls, basis, ms, row, k + 1, x)
            == if ShellStart(ls, ms[k]) <= x < ShellStart(ls, ms[k] + 1)
               then (if ShellStart(basis, k) + (x - ShellStart(ls, ms[k])) < |row| then row[ShellStart(basis, k) + (x - ShellStart(ls, ms[k]))] else 0.0)
               else DiagonalEntry(ls, basis, ms, row, k, x)
  {
    var j, jx := ms[k], ShellOf(ls, x);
    if ShellStart(ls, j) <= x < ShellStart(ls, j + 1) {
      ShellRangesDisjoint(ls, j, jx, x);
      assert forall k' :: 0 <= k' < k ==> ms[k'] < ms[k];
      OwnerAbsent(ms, j, k);
    }
  }

  /** Basis function k copies its block of the row to the indices of its
      projector function ms[k] (the slice assignment of
      `initialize_density_matrix`). */
  lemma DiagonalMatched(ls: seq<nat>, basis: seq<nat>, ms: seq<nat>, row: seq<real>, k: nat)
    requires MatchLayout(ls, basis, ms) && k < |basis| && ms[k] < |ls|
    ensures Diagonal(ls, basis, ms, row, k + 1)
            == Copied(Diagonal(ls, basis, ms, row, k), ShellStart(ls, ms[k]), ShellStart(ls, ms[k] + 1), row, ShellStart(basis, k))
  {
    var after := Diagonal(ls, basis, ms, row, k + 1);
    var copied := Copied(Diagonal(ls, basis, ms, row, k), ShellStart(ls, ms[k]), ShellStart(ls, ms[k] + 1), row, ShellStart(basis, k));
    forall x | 0 <= x < ShellStart(ls, |ls|)
      ensures after[x] == copied[x]
    {
      DiagonalMatchedAt(ls, basis, ms, row, k, x);
    }
  }

  /** Some block among the first k that is copied reaches past the end of
      the rows of width `niao` (`f_si[:, ib + m]` raises IndexError). */
  function Overruns(ls: seq<nat>, basis: seq<nat>, ms: seq<nat>, niao: nat, k: nat): bool
    requires k <= |basis| == |ms|
  {
    k > 0 && (Overruns(ls, basis, ms, niao, k - 1) || (ms[k - 1] < |ls| && ShellStart(basis, k) > niao))
  }

  /** Once a block has overrun, the error stays. */
  lemma {:induction false} OverrunsLater(ls: seq<nat>, basis: seq<nat>, ms: seq<nat>, niao: nat, k0: nat, k: nat)
    requires k0 <= k <= |basis| == |ms| && Overruns(ls, basis, ms, niao, k0)
    ensures Overruns(ls, basis, ms, niao, k)
    decreases k - k0
  {
    if k > k0 {
      OverrunsLater(ls, basis, ms, niao, k0, k - 1);
    }
  }

  /** A matched block reaching past the rows is an error of the whole loop. */
  lemma OverrunsAt(ls: seq<nat>, basis: seq<nat>, ms: seq<nat>, niao: nat, k: nat)
    requires k < |basis| == |ms| && ms[k] < |ls| && ShellStart(basis, k) + 2 * basis[k] + 1 > niao
    ensures Overruns(ls, basis, ms, niao, |basis|)
  {
    OverrunsLater(ls, basis, ms, niao, k + 1, |basis|);
  }

  /** After the break nothing changes: basis functions past one without a
      projector function neither copy nor overrun. */
  lemma {:induction false} StoppedDiagonal(ls: seq<nat>, basis: seq<nat>, ms: seq<nat>, row: seq<real>, niao: nat, k0: nat, k: nat)
    requires MatchLayout(ls, basis, ms)
    requires k0 <= k <= |basis| && k0 < |basis| && ms[k0] >= |ls|
    ensures Diagonal(ls, basis, ms, row, k) == Diagonal(ls, basis, ms, row, k0)
    ensures Overruns(ls, basis, ms, niao, k) == Overruns(ls, basis, ms, niao, k0)
    decreases k - k0
  {
    if k > k0 {
      StoppedDiagonal(ls, basis, ms, row, niao, k0, k - 1);
      assert ms[k0] <= ms[k - 1];
      DiagonalUnmatched(ls, basis, ms, row, k - 1);
    }
  }

  /** The diagonal holds the occupations of basis function k0 at the
      indices of its projector function ms[k0]. */
  lemma DiagonalCopies(ls: seq<nat>, basis: seq<nat>, ms: seq<nat>, row: seq<real>, k0: nat, x: nat)
    requires MatchLayout(ls, basis, ms)
    requires k0 < |basis| && ms[k0] < |ls| && ShellStart(basis, k0 + 1) <= |row|
    requires ShellStart(ls, ms[k0]) <= x < ShellStart(ls, ms[k0] + 1)
    ensures x < ShellStart(ls, |ls|) && ShellStart(basis, k0) + (x - ShellStart(ls, ms[k0])) < |row|
    ensures Diagonal(ls, basis, ms, row, |basis|)[x] == row[ShellStart(basis, k0) + (x - ShellStart(ls, ms[k0]))]
  {
    var j := ms[k0];
    ShellStartMonotone(ls, j + 1, |ls|);
    ShellRangesDisjoint(ls, j, ShellOf(ls, x), x);
    assert forall k' :: 0 <= k' < k0 ==> ms[k'] < ms[k0];
    OwnerIs(ms, j, |basis|, k0);
  }

  /** The indices of a projector function no basis function is matched
      with stay zero. */
  lemma DiagonalZeroElsewhere(ls: seq<nat>, basis: seq<nat>, ms: seq<nat>, row: seq<real>, j: nat, x: nat)
    requires |basis| == |ms| && j < |ls| && ShellStart(ls, j) <= x < ShellStart(ls, j + 1)
    requires forall k :: 0 <= k < |ms| ==> ms[k] != j
    ensures x < ShellStart(ls, |ls|)
    ensures Diagonal(ls, basis, ms, row, |basis|)[x] == 0.0
  {
    ShellStartMonotone(ls, j + 1, |ls|);
    ShellRangesDisjoint(ls, j, ShellOf(ls, x), x);
  }

  /** Copying one more entry of the block. */
  lemma CopiedStep(d: seq<real>, start: nat, m: nat, row: seq<real>, ib: nat)
    requires start + m < |d| && ib + m < |row|
    ensures Copied(d, start, start + m + 1, row, ib) == Copied(d, start, start + m, row, ib)[start + m := row[ib + m]]
  {
  }

  lemma CopiedNothing(d: seq<real>, start: nat, row: seq<real>, ib: nat)
    ensures Copied(d, start, start, row, ib) == d
  {
  }

  /** The entry of packed index p of a diagonal matrix: its diagonal value
      on the pairs (a, a), zero elsewhere. */
  function PackedEntry(d: seq<real>, pair: (nat, nat)): real
  {
    if pair.0 == pair.1 && pair.0 < |d| then d[pair.0] else 0.0
  }

  /** Rows a, a + 1, ... of `pack` applied to the diagonal matrix with diagonal d. */
  function PackFrom(d: seq<real>, a: nat): seq<real>
    decreases |d| - a
  {
    if a >= |d| then [] else [d[a]] + Zeros(|d| - a - 1) + PackFrom(d, a + 1)
  }

  /** `pack` of the diagonal matrix with diagonal d: its upper triangle row by row. */
  function PackDiagonal(d: seq<real>): seq<real>
  {
    PackFrom(d, 0)
  }

  lemma {:induction false} PackFromPairs(d: seq<real>, a: nat)
    requires a <= |d|
    ensures |PackFrom(d, a)| == |PairsFrom(|d|, a)|
    ensures forall p :: 0 <= p < |PackFrom(d, a)| ==> PackFrom(d, a)[p] == PackedEntry(d, PairsFrom(|d|, a)[p])
    decreases |d| - a
  {
    if a < |d| {
      PackFromPairs(d, a + 1);
      var row, rest := [d[a]] + Zeros(|d| - a - 1), PackFrom(d, a + 1);
      var prow, prest := PairRow(a, |d|), PairsFrom(|d|, a + 1);
      assert PackFrom(d, a) == row + rest;
      assert PairsFrom(|d|, a) == prow + prest;
      forall p | 0 <= p < |row + rest|
        ensures (row + rest)[p] == PackedEntry(d, (prow + prest)[p])
      {
        if p >= |row| {
          assert (row + rest)[p] == rest[p - |row|];
          assert (prow + prest)[p] == prest[p - |row|];
        }
      }
    }
  }

  /** The packed diagonal matrix has n (n + 1) / 2 entries: the diagonal
      value at the packed index of (a, a) and zero at every other pair. */
  lemma PackDiagonalLayout(d: seq<real>)
    ensures |PackDiagonal(d)| == |d| * (|d| + 1) / 2 == |Pairs(|d|)|
    ensures forall a, b :: 0 <= a <= b < |d| ==>
              PairIndex(a, b, |d|) < |PackDiagonal(d)| &&
              PackDiagonal(d)[PairIndex(a, b, |d|)] == if a == b then d[a] else 0.0
  {
    PackFromPairs(d, 0);
    PairsLength(|d|);
    PairsEnumerate(|d|);
  }

  // ---------------------------------------------------------------------
  // The rotation matrices R_sii of `calculate_rotations`
  // ---------------------------------------------------------------------

  /** `R_lmm[l]` has one (2l + 1) x (2l + 1) matrix for every l of the setup. */
  predicate RotationBlocks(ls: seq<nat>, rlmm: seq<seq<seq<real>>>)
  {
    forall j :: 0 <= j < |ls| ==>
      ls[j] < |rlmm| && |rlmm[ls[j]]| == Degeneracy(ls[j])
      && forall m :: 0 <= m < Degeneracy(ls[j]) ==> |rlmm[ls[j]][m]| == Degeneracy(ls[j])
  }

  /** `M[i1:i1 + |B|, i1:i1 + |B|] = B` for a square block B. */
  function PlacedBlock(mat: seq<seq<real>>, i1: nat, block: seq<seq<real>>): (r: seq<seq<real>>)
    ensures |r| == |mat| && forall a :: 0 <= a < |mat| ==> |r[a]| == |mat[a]|
  {
    seq(|mat|, a requires 0 <= a < |mat| =>
      seq(|mat[a]|, b requires 0 <= b < |mat[a]| =>
        if i1 <= a < i1 + |block| && i1 <= b < i1 + |block| && b - i1 < |block[a - i1]|
        then block[a - i1][b - i1] else mat[a][b]))
  }

  /** Entry (a, b) of R_ii once the blocks of the first n projector
      functions are placed: `R_lmm[l][m1][m2]` when a and b are sub-states
      m1 and m2 of one such projector function of angular momentum l, zero
      otherwise (and zero where `R_lmm` has no such entry). */
  function RotationEntry(ls: seq<nat>, rlmm: seq<seq<seq<real>>>, n: nat, a: nat, b: nat): real
    requires a < ShellStart(ls, |ls|) && b < ShellStart(ls, |ls|)
  {
    var j := ShellOf(ls, a);
    var (m1, m2) := (a - ShellStart(ls, j), b - ShellStart(ls, j));
    if j == ShellOf(ls, b) && j < n && ls[j] < |rlmm| && m1 < |rlmm[ls[j]]| && m2 < |rlmm[ls[j]][m1]|
    then rlmm[ls[j]][m1][m2] else 0.0
  }

  function Rotation(ls: seq<nat>, rlmm: seq<seq<seq<real>>>, n: nat): (r: seq<seq<real>>)
    ensures |r| == ShellStart(ls, |ls|) && forall a :: 0 <= a < |r| ==> |r[a]| == ShellStart(ls, |ls|)
  {
    var ni := ShellStart(ls, |ls|);
    seq(ni, a requires 0 <= a < ni => seq(ni, b requires 0 <= b < ni => RotationEntry(ls, rlmm, n, a, b)))
  }

  /** With no block placed R_ii is zero. */
  lemma RotationStart(ls: seq<nat>, rlmm: seq<seq<seq<real>>>)
    ensures Rotation(ls, rlmm, 0) == seq(ShellStart(ls, |ls|), _ => Zeros(ShellStart(ls, |ls|)))
  {
    var ni := ShellStart(ls, |ls|);
    var r, z := Rotation(ls, rlmm, 0), seq(ni, _ => Zeros(ni));
    forall a | 0 <= a < ni
      ensures r[a] == z[a]
    {
    }
  }

  /** Placing the block of projector function n. */
  lemma RotationStep(ls: seq<nat>, rlmm: seq<seq<seq<real>>>, n: nat)
    requires RotationBlocks(ls, rlmm) && n < |ls|
    ensures Rotation(ls, rlmm, n + 1) == PlacedBlock(Rotation(ls, rlmm, n), ShellStart(ls, n), rlmm[ls[n]])
  {
    var ni := ShellStart(ls, |ls|);
    var after, placed := Rotation(ls, rlmm, n + 1), PlacedBlock(Rotation(ls, rlmm, n), ShellStart(ls, n), rlmm[ls[n]]);
    forall a | 0 <= a < ni
      ensures after[a] == placed[a]
    {
      forall b | 0 <= b < ni
        ensures after[a][b] == placed[a][b]
      {
        RotationStepAt(ls, rlmm, n, a, b);
      }
    }
  }

  lemma RotationStepAt(ls: seq<nat>, rlmm: seq<seq<seq<real>>>, n: nat, a: nat, b: nat)
    requires RotationBlocks(ls, rlmm) && n < |ls| && a < ShellStart(ls, |ls|) && b < ShellStart(ls, |ls|)
    ensures var i1 := ShellStart(ls, n);
            RotationEntry(ls, rlmm, n + 1, a, b)
            == if i1 <= a < i1 + Degeneracy(ls[n]) && i1 <= b < i1 + Degeneracy(ls[n])
               then rlmm[ls[n]][a - i1][b - i1] else RotationEntry(ls, rlmm, n, a, b)
  {
    var i1 := ShellStart(ls, n);
    var ja, jb := ShellOf(ls, a), ShellOf(ls, b);
    var ina, inb := i1 <= a < i1 + Degeneracy(ls[n]), i1 <= b < i1 + Degeneracy(ls[n]);
    if ina {
      ShellRangesDisjoint(ls, n, ja, a);
    } else {
      assert ja != n;
    }
    if inb {
      ShellRangesDisjoint(ls, n, jb, b);
    } else {
      assert jb != n;
    }
    if ina && inb {
      assert ls[n] < |rlmm| && |rlmm[ls[n]]| == Degeneracy(ls[n]) && |rlmm[ls[n]][a - i1]| == Degeneracy(ls[n]);
      RotationEntryIn(ls, rlmm, n + 1, a, b, n);
    } else if ja == jb {
      RotationEntryIn(ls, rlmm, n + 1, a, b, ja);
      RotationEntryIn(ls, rlmm, n, a, b, ja);
    }
  }

  /** The entry of two sub-states of projector function j. */
  lemma RotationEntryIn(ls: seq<nat>, rlmm: seq<seq<seq<real>>>, n: nat, a: nat, b: nat, j: nat)
    requires a < ShellStart(ls, |ls|) && b < ShellStart(ls, |ls|) && ShellOf(ls, a) == j && ShellOf(ls, b) == j
    ensures var (m1, m2) := (a - ShellStart(ls, j), b - ShellStart(ls, j));
            RotationEntry(ls, rlmm, n, a, b)
            == if j < n && ls[j] < |rlmm| && m1 < |rlmm[ls[j]]| && m2 < |rlmm[ls[j]][m1]| then rlmm[ls[j]][m1][m2] else 0.0
  {
  }

  /** R_ii is block diagonal: the block of projector function j is
      `R_lmm[l_j]`, and entries of two different projector functions are
      zero. */
  lemma RotationLayout(ls: seq<nat>, rlmm: seq<seq<seq<real>>>, j1: nat, j2: nat, m1: nat, m2: nat)
    requires RotationBlocks(ls, rlmm) && j1 < |ls| && j2 < |ls| && m1 < Degeneracy(ls[j1]) && m2 < Degeneracy(ls[j2])
    ensures ShellStart(ls, j1) + m1 < ShellStart(ls, |ls|) && ShellStart(ls, j2) + m2 < ShellStart(ls, |ls|)
    ensures Rotation(ls, rlmm, |ls|)[ShellStart(ls, j1) + m1][ShellStart(ls, j2) + m2]
            == if j1 == j2 then rlmm[ls[j1]][m1][m2] else 0.0
  {
    var a, b := ShellStart(ls, j1) + m1, ShellStart(ls, j2) + m2;
    ShellStartMonotone(ls, j1 + 1, |ls|);
    ShellStartMonotone(ls, j2 + 1, |ls|);
    ShellRangesDisjoint(ls, j1, ShellOf(ls, a), a);
    ShellRangesDisjoint(ls, j2, ShellOf(ls, b), b);
    var v := RotationEntry(ls, rlmm, |ls|, a, b);
    assert Rotation(ls, rlmm, |ls|)[a][b] == v;
    if j1 == j2 {
      assert ls[j1] < |rlmm| && |rlmm[ls[j1]]| == Degeneracy(ls[j1]) && |rlmm[ls[j1]][m1]| == Degeneracy(ls[j1]);
      RotationEntryIn(ls, rlmm, |ls|, a, b, j1);
      assert v == rlmm[ls[j1]][m1][m2];
    } else {
      assert v == 0.0;
    }
  }

  /** `Hubi` is the first projector index of angular momentum l: every
      index before it belongs to another l, and when the setup has a
      projector function of angular momentum l, index `Hubi` is its m = 0
      sub-state. */
  lemma HubbardIndex(ls: seq<nat>, l: nat)
    ensures var h := ShellStart(ls, NextShell(ls, 0, l));
            var js := ProjectorIndices(ls, |ls|);
            && |js| == ShellStart(ls, |ls|)
            && h <= |js|
            && (forall i :: 0 <= i < h ==> js[i].l != l)
            && (l in ls ==> h < |js| && js[h] == ProjectorIndex(NextShell(ls, 0, l), l, l * l))
            && (l !in ls ==> h == |js|)
  {
    var j0 := NextShell(ls, 0, l);
    var h := ShellStart(ls, j0);
    ProjectorIndicesLength(ls, |ls|);
    ShellStartMonotone(ls, j0, |ls|);
    NextShellSkips(ls, 0, l);
    forall i | 0 <= i < h
      ensures ProjectorIndices(ls, |ls|)[i].l != l
    {
      ProjectorIndexShell(ls, |ls|, i);
      var e := ProjectorIndices(ls, |ls|)[i];
      if j0 <= e.j {
        ShellStartMonotone(ls, j0, e.j);
      }
    }
    if l in ls {
      var w :| 0 <= w < |ls| && ls[w] == l;
      assert j0 <= w;
      ShellStartMonotone(ls, j0 + 1, |ls|);
      ProjectorIndexShell(ls, |ls|, h);
      var e := ProjectorIndices(ls, |ls|)[h];
      ShellRangesDisjoint(ls, j0, e.j, h);
    }
  }

  // ---------------------------------------------------------------------
  // The setup
  // ---------------------------------------------------------------------

  class Setup {
    /** `l_j` and `f_j` of the projector functions. */
    const lj: seq<nat>
    const fj: seq<real>
    /** Angular momentum of each basis function `phit_j`. */
    const basis: seq<nat>
    const lmax: nat
    /** `jlL_i`, `ni`, `_np`, `nq`, `lcut` and `niAO`. */
    const jlL: seq<ProjectorIndex>
    const ni: nat
    const np: nat
    const nq: nat
    const lcut: nat
    const niAO: nat

    /** Hubbard-U parameters (`HubU`, `Hubl`, `Hubi`, `Hubs`, `HubStore`,
        `HubLinRes`, `HubOcc`). */
    var hubU: Option<real>
    var hubl: nat
    var hubi: nat
    var hubScale: int
    var hubStore: int
    var hubLinRes: int
    var hubOcc: seq<real>
    /** `R_sii`: one ni x ni rotation matrix per symmetry operation. */
    var rotations: seq<seq<seq<real>>>

    predicate Valid()
    {
      && |lj| > 0
      && Occupancies(fj, lj)
      && jlL == ProjectorIndices(lj, |lj|)
      && ni == ShellStart(lj, |lj|)
      && np == ni * (ni + 1) / 2
      && nq == |lj| * (|lj| + 1) / 2
      && lcut == Lcut(lj, lmax)
      && niAO == ShellStart(basis, |basis|)
    }

    /** The index setup of `Setup.__init__`. */
    constructor (lj: seq<nat>, fj: seq<real>, basis: seq<nat>, lmax: nat)
      requires |lj| > 0 && Occupancies(fj, lj)
      ensures Valid()
      ensures this.lj == lj && this.fj == fj && this.basis == basis && this.lmax == lmax
      ensures hubU == None && rotations == []
    {
      var indices: seq<ProjectorIndex> := [];
      var i := 0;
      var j := 0;
      while j < |lj|
        invariant 0 <= j <= |lj|
        invariant indices == ProjectorIndices(lj, j) && i == |indices|
      {
        var l := lj[j];
        var m := 0;
        while m < 2 * l + 1
          invariant 0 <= m <= 2 * l + 1
          invariant indices == ProjectorIndices(lj, j) + ShellIndices(j, l)[..m] && i == |indices|
        {
          indices := indices + [ProjectorIndex(j, l, l * l + m)];
          i := i + 1;
          m := m + 1;
        }
        j := j + 1;
      }
      ProjectorIndicesLength(lj, |lj|);
      var nao := 0;
      var k := 0;
      while k < |basis|
        invariant 0 <= k <= |basis| && nao == ShellStart(basis, k)
      {
        nao := nao + 2 * basis[k] + 1;
        k := k + 1;
      }
      this.lj := lj;
      this.fj := fj;
      this.basis := basis;
      this.lmax := lmax;
      this.jlL := indices;
      this.ni := i;
      this.np := i * (i + 1) / 2;
      this.nq := |lj| * (|lj| + 1) / 2;
      this.lcut := Lcut(lj, lmax);
      this.niAO := nao;
      hubU := None;
      hubl, hubi, hubScale, hubStore, hubLinRes, hubOcc := 0, 0, 0, 0, 0, [];
      rotations := [];
    }

    /** `calculate_initial_occupation_numbers`: the adjusted shell
        occupations spread over the blocks of the basis functions. Fails
        when Hund's rules are asked for together with custom occupations,
        when the charge cannot be placed, or (indexing the missing spin-down
        row) when Hund's rules are used with one spin. */
    method InitialOccupations(magmom: real, hund: bool, charge: real, nspins: nat, custom: Option<seq<real>>)
      returns (r: Result<seq<seq<real>>, SetupError>)
      requires Valid() && (nspins == 1 || nspins == 2)
      requires custom.Some? ==> Occupancies(custom.value, lj)
      ensures var (f, rest) := Adjusted(if custom.Some? then custom.value else fj, lj, charge);
              && ((r.Err? && r.error == AssertionFailed) <==> (hund && custom.Some?) || rest != 0.0)
              && ((r.Err? && r.error == IndexOutOfRange)
                    <==> (!(hund && custom.Some?) && rest == 0.0 && hund && nspins == 1 && |basis| > 0))
              && (r.Ok? ==> r.value == Rows(Fill(lj, f, basis, hund, nspins, magmom, |basis|), nspins))
              && (r.Ok? ==> |r.value| == nspins && forall s :: 0 <= s < nspins ==> |r.value[s]| == niAO)
    {
      if hund && custom.Some? {
        return Err(AssertionFailed);
      }
      var f, rest := AdjustCharge(if custom.Some? then custom.value else fj, lj, charge);
      if rest != 0.0 {
        return Err(AssertionFailed);
      }
      if hund && nspins == 1 && |basis| > 0 {
        // the first basis function already writes the missing spin-down row f_si[1]
        return Err(IndexOutOfRange);
      }
      var st, i := FillRows(lj, f, basis, hund, nspins, magmom);
      FillLayout(lj, f, basis, hund, nspins, magmom, |basis|);
      assert i == niAO;
      r := Ok(if nspins == 1 then [st.up] else [st.up, st.down]);
    }

    /** The loop of `calculate_initial_occupation_numbers` over the basis
        functions, with its offset `i` into the rows. */
    static method FillRows(ls: seq<nat>, f: seq<real>, basis: seq<nat>, hund: bool, nspins: nat, magmom: real)
      returns (st: Filling, i: nat)
      ensures st == Fill(ls, f, basis, hund, nspins, magmom, |basis|)
      ensures i == ShellStart(basis, |basis|)
    {
      st := Filling([], [], magmom);
      var j, k := 0, 0;
      i := 0;
      while k < |basis|
        invariant 0 <= k <= |basis|
        invariant j == SearchStart(ls, basis, k) && i == ShellStart(basis, k)
        invariant st == Fill(ls, f, basis, hund, nspins, magmom, k)
      {
        st, j := NextBlock(ls, f, basis, hund, nspins, magmom, k, st, j);
        i := i + 2 * basis[k] + 1;
        k := k + 1;
      }
    }

    /** The body of the loop over the basis functions: find the projector
        function of basis function k, and append the block of its
        occupations to the rows. */
    static method NextBlock(ls: seq<nat>, f: seq<real>, basis: seq<nat>, hund: bool, nspins: nat, magmom: real,
                            k: nat, st: Filling, j: nat)
      returns (st': Filling, j': nat)
      requires k < |basis| && j == SearchStart(ls, basis, k)
      requires st == Fill(ls, f, basis, hund, nspins, magmom, k)
      ensures st' == Fill(ls, f, basis, hund, nspins, magmom, k + 1)
      ensures j' == SearchStart(ls, basis, k + 1)
    {
      var l := basis[k];
      j' := SkipShells(ls, j, l);
      var fl := if j' < |ls| && j' < |f| then f[j'] else 0.0;
      var b := FillBlock(fl, l, hund, nspins, st.magmom);
      FillStep(ls, f, basis, hund, nspins, magmom, k);
      st' := Filling(st.up + b.up, st.down + b.down, st.magmom - b.moment);
      j' := j' + 1;
    }

    /** The skip loop over the projector functions not in the basis set. */
    static method SkipShells(ls: seq<nat>, j: nat, l: nat) returns (r: nat)
      ensures r == NextShell(ls, j, l)
    {
      r := j;
      while r < |ls| && ls[r] != l
        invariant j <= r <= NextShell(ls, j, l)
        invariant NextShell(ls, r, l) == NextShell(ls, j, l)
      {
        r := r + 1;
      }
    }

    /** One pass of the loop body of `calculate_initial_occupation_numbers`:
        the occupations of the block of a basis function of angular
        momentum l whose shell holds fl electrons. */
    static method FillBlock(fl: real, l: nat, hund: bool, nspins: nat, magmom: real) returns (b: Block)
      ensures b == OccupationBlock(fl, l, hund, nspins, magmom)
    {
      var d := 2 * l + 1;
      if hund {
        var n := Trunc(fl);
        var moment := if n < d then n else 2 * d - n;
        b := Block(Ones(d, IntMin(n, d)), Ones(d, IntMax(n - d, 0)), moment as real);
      } else if nspins == 1 {
        b := Block(Constant(d, 1.0 * fl / (d as real)), [], 0.0);
      } else {
        var maxmom := Min(fl, 2.0 * (d as real) - fl);
        var mag := magmom;
        if Abs(mag) > maxmom {
          mag := Sign(mag) * maxmom;
        }
        b := Block(Constant(d, 0.5 * (fl + mag) / (d as real)), Constant(d, 0.5 * (fl - mag) / (d as real)), mag);
      }
    }

    /** `initialize_density_matrix`: the diagonal of `D_sii` receives, for
        each basis function, its occupations `f_si[:, ib + m]` at the
        indices of the next projector function of its angular momentum;
        the loop stops at the first basis function without one, and every
        spin's matrix is packed. Fails when a block reaches past the end
        of the rows of `f_si`. */
    method InitializeDensityMatrix(fsi: seq<seq<real>>, niao: nat) returns (r: Result<seq<seq<real>>, SetupError>)
      requires Valid() && forall s :: 0 <= s < |fsi| ==> |fsi[s]| == niao
      ensures var ms := Matches(lj, basis);
              && (r.Err? <==> Overruns(lj, basis, ms, niao, |basis|))
              && (r.Err? ==> r.error == IndexOutOfRange)
              && (r.Ok? ==> |r.value| == |fsi|
                            && forall s :: 0 <= s < |fsi| ==> r.value[s] == PackDiagonal(Diagonal(lj, basis, ms, fsi[s], |basis|)))
    {
      ShellStartMonotone(lj, 0, |lj|);
      var diags := DiagonalRows(lj, basis, fsi, niao, ni);
      if diags.Err? {
        return Err(diags.error);
      }
      var packed := PackRows(diags.value);
      r := Ok(packed);
    }

    /** The loop of `initialize_density_matrix` over the basis functions,
        on the diagonals of `D_sii` of size ni. */
    static method DiagonalRows(ls: seq<nat>, basis: seq<nat>, fsi: seq<seq<real>>, niao: nat, ni: nat)
      returns (r: Result<seq<seq<real>>, SetupError>)
      requires ni == ShellStart(ls, |ls|) && forall s :: 0 <= s < |fsi| ==> |fsi[s]| == niao
      ensures var ms := Matches(ls, basis);
              && (r.Err? <==> Overruns(ls, basis, ms, niao, |basis|))
              && (r.Err? ==> r.error == IndexOutOfRange)
              && (r.Ok? ==> |r.value| == |fsi|
                            && forall s :: 0 <= s < |fsi| ==> r.value[s] == Diagonal(ls, basis, ms, fsi[s], |basis|))
    {
      ghost var ms := Matches(ls, basis);
      MatchesLayout(ls, basis);
      var nj := |ls|;
      var diags: seq<seq<real>> := seq(|fsi|, _ => Zeros(ni));
      forall s | 0 <= s < |fsi|
        ensures diags[s] == Diagonal(ls, basis, ms, fsi[s], 0)
      {
        DiagonalStart(ls, basis, ms, fsi[s]);
      }
      var j, i, ib, k := 0, 0, 0, 0;
      while k < |basis|
        invariant 0 <= k <= |basis| && j <= nj
        invariant j == SearchStart(ls, basis, k) && i == ShellStart(ls, j) && ib == ShellStart(basis, k)
        invariant |diags| == |fsi| && forall s :: 0 <= s < |fsi| ==> diags[s] == Diagonal(ls, basis, ms, fsi[s], k)
        invariant !Overruns(ls, basis, ms, niao, k)
      {
        var stop, fail;
        stop, fail, j, i, diags := DiagonalBlock(ls, basis, ms, fsi, niao, k, j, i, ib, diags);
        if stop {
          break;
        } else if fail {
          return Err(IndexOutOfRange);
        }
        ib, k := ib + 2 * basis[k] + 1, k + 1;
      }
      r := Ok(diags);
    }

    /** The body of the loop over the basis functions: skip to the
        projector function of basis function k, then stop (none is left),
        fail (its block reaches past the rows) or copy its block. */
    static method DiagonalBlock(ls: seq<nat>, basis: seq<nat>, ghost ms: seq<nat>, fsi: seq<seq<real>>, niao: nat,
                                k: nat, j: nat, i: nat, ib: nat, diags: seq<seq<real>>)
      returns (stop: bool, fail: bool, j': nat, i': nat, diags': seq<seq<real>>)
      requires ms == Matches(ls, basis) && MatchLayout(ls, basis, ms) && forall s :: 0 <= s < |fsi| ==> |fsi[s]| == niao
      requires k < |basis| && j <= |ls| && j == SearchStart(ls, basis, k) && i == ShellStart(ls, j) && ib == ShellStart(basis, k)
      requires |diags| == |fsi| && forall s :: 0 <= s < |fsi| ==> diags[s] == Diagonal(ls, basis, ms, fsi[s], k)
      requires !Overruns(ls, basis, ms, niao, k)
      ensures stop ==> |diags'| == |fsi| && !Overruns(ls, basis, ms, niao, |basis|)
                       && forall s :: 0 <= s < |fsi| ==> diags'[s] == Diagonal(ls, basis, ms, fsi[s], |basis|)
      ensures !stop && fail ==> Overruns(ls, basis, ms, niao, |basis|)
      ensures !stop && !fail ==>
                && j' <= |ls| && j' == SearchStart(ls, basis, k + 1) && i' == ShellStart(ls, j')
                && |diags'| == |fsi| && (forall s :: 0 <= s < |fsi| ==> diags'[s] == Diagonal(ls, basis, ms, fsi[s], k + 1))
                && !Overruns(ls, basis, ms, niao, k + 1)
    {
      var l := basis[k];
      j', i' := SkipShellIndices(ls, j, i, l);
      diags' := diags;
      assert j' == ms[k];
      if j' == |ls| {
        forall s | 0 <= s < |fsi|
          ensures diags[s] == Diagonal(ls, basis, ms, fsi[s], |basis|)
        {
          StoppedDiagonal(ls, basis, ms, fsi[s], niao, k, |basis|);
        }
        StoppedDiagonal(ls, basis, ms, [], niao, k, |basis|);
        return true, false, j', i', diags';
      }
      if ib + 2 * l + 1 > niao {
        OverrunsAt(ls, basis, ms, niao, k);
        return false, true, j', i', diags';
      }
      ShellStartMonotone(ls, j' + 1, |ls|);
      diags' := CopyBlock(diags, fsi, i', 2 * l + 1, ib);
      forall s | 0 <= s < |fsi|
        ensures diags'[s] == Diagonal(ls, basis, ms, fsi[s], k + 1)
      {
        DiagonalMatched(ls, basis, ms, fsi[s], k);
      }
      stop, fail, j', i' := false, false, j' + 1, i' + 2 * l + 1;
    }

    /** `D_sp[s] = pack(D_sii[s])` for every spin. */
    static method PackRows(diags: seq<seq<real>>) returns (packed: seq<seq<real>>)
      ensures |packed| == |diags| && forall s :: 0 <= s < |diags| ==> packed[s] == PackDiagonal(diags[s])
    {
      packed := [];
      var s := 0;
      while s < |diags|
        invariant 0 <= s <= |diags| && |packed| == s
        invariant forall s' :: 0 <= s' < s ==> packed[s'] == PackDiagonal(diags[s'])
      {
        packed := packed + [PackDiagonal(diags[s])];
        s := s + 1;
      }
    }

    /** The skip loop of `initialize_density_matrix`, advancing the offset
        `i` of projector function j with it. */
    static method SkipShellIndices(ls: seq<nat>, j: nat, i: nat, l: nat) returns (j': nat, i': nat)
      requires j <= |ls| && i == ShellStart(ls, j)
      ensures j' == NextShell(ls, j, l) && j' <= |ls| && i' == ShellStart(ls, j')
    {
      j', i' := j, i;
      while j' < |ls| && ls[j'] != l
        invariant j <= j' <= NextShell(ls, j, l) && j' <= |ls|
        invariant NextShell(ls, j', l) == NextShell(ls, j, l) && i' == ShellStart(ls, j')
      {
        i' := i' + 2 * ls[j'] + 1;
        j' := j' + 1;
      }
    }

    /** `D_sii[:, i + m, i + m] = f_si[:, ib + m]` for m < n, on the
        diagonals of all spins. */
    static method CopyBlock(diags: seq<seq<real>>, fsi: seq<seq<real>>, i: nat, n: nat, ib: nat) returns (diags': seq<seq<real>>)
      requires |diags| == |fsi|
      requires forall s :: 0 <= s < |fsi| ==> i + n <= |diags[s]| && ib + n <= |fsi[s]|
      ensures |diags'| == |diags| && forall s :: 0 <= s < |fsi| ==> diags'[s] == Copied(diags[s], i, i + n, fsi[s], ib)
    {
      diags' := diags;
      forall s | 0 <= s < |fsi|
        ensures diags'[s] == Copied(diags[s], i, i, fsi[s], ib)
      {
        CopiedNothing(diags[s], i, fsi[s], ib);
      }
      var m := 0;
      while m < n
        invariant 0 <= m <= n && |diags'| == |diags|
        invariant forall s :: 0 <= s < |fsi| ==> diags'[s] == Copied(diags[s], i, i + m, fsi[s], ib)
      {
        var prev := diags';
        diags' := seq(|prev|, s requires 0 <= s < |prev| =>
          if s < |fsi| && i + m < |prev[s]| && ib + m < |fsi[s]| then prev[s][i + m := fsi[s][ib + m]] else prev[s]);
        forall s | 0 <= s < |fsi|
          ensures diags'[s] == Copied(diags[s], i, i + m + 1, fsi[s], ib)
        {
          CopiedStep(diags[s], i, m, fsi[s], ib);
        }
        m := m + 1;
      }
    }

    /** `calculate_T_Lqp(lcut, nq, _np, nj, jlL_i)`: column p of every pair
        i1 <= i2 of projector indices, in that order, receives the Gaunt
        coefficients of L1 and L2 in row q(j1, j2). The result is stored
        as t[q][p][L] for `T_Lqp[L, q, p]`. */
    static method CalculateTLqp(lcut: nat, nq: nat, np: nat, nj: nat, js: seq<ProjectorIndex>, gaunt: (nat, nat, nat) -> real)
      returns (t: seq<seq<seq<real>>>)
      requires nq == nj * (nj + 1) / 2 && np == |js| * (|js| + 1) / 2
      requires forall i :: 0 <= i < |js| ==> js[i].j < nj
      ensures TFilled(t, js, nj, gaunt, (2 * lcut + 1) * (2 * lcut + 1), nq, np, np)
    {
      var lc := (2 * lcut + 1) * (2 * lcut + 1);
      t := seq(nq, _ => seq(np, _ => Zeros(lc)));
      var p := 0;
      var i1 := 0;
      while i1 < |js|
        invariant 0 <= i1 <= |js| && p == RowOffset(i1, |js|)
        invariant TFilled(t, js, nj, gaunt, lc, nq, np, p)
      {
        t, p := TRow(lcut, nq, np, nj, js, gaunt, i1, t, p);
        i1 := i1 + 1;
      }
      RowOffsetClosed(|js|, |js|);
    }

    /** The inner loop of `calculate_T_Lqp`: the columns of the pairs
        (i1, i2), i2 = i1, ..., ni - 1. */
    static method TRow(lcut: nat, nq: nat, np: nat, nj: nat, js: seq<ProjectorIndex>, gaunt: (nat, nat, nat) -> real,
                       i1: nat, t: seq<seq<seq<real>>>, p: nat)
      returns (t': seq<seq<seq<real>>>, p': nat)
      requires nq == nj * (nj + 1) / 2 && np == |js| * (|js| + 1) / 2
      requires forall i :: 0 <= i < |js| ==> js[i].j < nj
      requires i1 < |js| && p == RowOffset(i1, |js|)
      requires TFilled(t, js, nj, gaunt, (2 * lcut + 1) * (2 * lcut + 1), nq, np, p)
      ensures p' == RowOffset(i1 + 1, |js|)
      ensures TFilled(t', js, nj, gaunt, (2 * lcut + 1) * (2 * lcut + 1), nq, np, p')
    {
      var lc := (2 * lcut + 1) * (2 * lcut + 1);
      t', p' := t, p;
      var i2 := i1;
      while i2 < |js|
        invariant i1 <= i2 <= |js| && p' == RowOffset(i1, |js|) + (i2 - i1)
        invariant TFilled(t', js, nj, gaunt, lc, nq, np, p')
      {
        var (j1, j2) := (js[i1].j, js[i2].j);
        var q := if j1 < j2 then j2 + j1 * nj - j1 * (j1 + 1) / 2 else j1 + j2 * nj - j2 * (j2 + 1) / 2;
        TFilledStep(t', js, nj, gaunt, lc, nq, np, i1, i2, p', q);
        t' := t'[q := t'[q][p' := GauntRow(gaunt, js[i1].bigL, js[i2].bigL, lc)]];
        p' := p' + 1;
        i2 := i2 + 1;
      }
    }

    /** The q loop of `get_compensation_charges`: the pairs j1 <= j2 of
        projector functions, row by row, and their count. */
    static method CompensationPairs(nj: nat) returns (pairs: seq<(nat, nat)>, q: nat)
      ensures pairs == Pairs(nj) && q == nj * (nj + 1) / 2
    {
      pairs, q := [], 0;
      var j1 := 0;
      while j1 < nj
        invariant 0 <= j1 <= nj && pairs + PairsFrom(nj, j1) == Pairs(nj) && q == |pairs|
      {
        var j2 := j1;
        var row: seq<(nat, nat)> := [];
        while j2 < nj
          invariant j1 <= j2 <= nj && row == PairRow(j1, nj)[..j2 - j1]
        {
          row := row + [(j1, j2)];
          j2 := j2 + 1;
        }
        assert PairsFrom(nj, j1) == PairRow(j1, nj) + PairsFrom(nj, j1 + 1);
        pairs, q := pairs + row, q + |row|;
        j1 := j1 + 1;
      }
      PairsLength(nj);
    }

    /** `calculate_rotations(R_slmm)`: one ni x ni matrix per symmetry
        operation s, holding `R_slmm[s][l]` in the diagonal block of every
        projector function of angular momentum l. */
    method CalculateRotations(rslmm: seq<seq<seq<seq<real>>>>)
      requires Valid() && forall s :: 0 <= s < |rslmm| ==> RotationBlocks(lj, rslmm[s])
      modifies this
      ensures Valid()
      ensures |rotations| == |rslmm| && forall s :: 0 <= s < |rslmm| ==> rotations[s] == Rotation(lj, rslmm[s], |lj|)
      ensures hubU == old(hubU) && hubl == old(hubl) && hubi == old(hubi) && hubScale == old(hubScale)
      ensures hubStore == old(hubStore) && hubLinRes == old(hubLinRes) && hubOcc == old(hubOcc)
    {
      rotations := Rotations(lj, rslmm);
    }

    /** The loop of `calculate_rotations` over the projector functions. */
    static method Rotations(ls: seq<nat>, rslmm: seq<seq<seq<seq<real>>>>) returns (rot: seq<seq<seq<real>>>)
      requires forall s :: 0 <= s < |rslmm| ==> RotationBlocks(ls, rslmm[s])
      ensures |rot| == |rslmm| && forall s :: 0 <= s < |rslmm| ==> rot[s] == Rotation(ls, rslmm[s], |ls|)
    {
      var ni := ShellStart(ls, |ls|);
      rot := seq(|rslmm|, _ => seq(ni, _ => Zeros(ni)));
      forall s | 0 <= s < |rslmm|
        ensures rot[s] == Rotation(ls, rslmm[s], 0)
      {
        RotationStart(ls, rslmm[s]);
      }
      var i1 := 0;
      var j := 0;
      while j < |ls|
        invariant 0 <= j <= |ls| && i1 == ShellStart(ls, j)
        invariant |rot| == |rslmm| && forall s :: 0 <= s < |rslmm| ==> rot[s] == Rotation(ls, rslmm[s], j)
      {
        var i2 := i1 + 2 * ls[j] + 1;
        rot := PlaceBlocks(ls, rslmm, j, rot);
        i1 := i2;
        j := j + 1;
      }
    }

    /** The inner loop of `calculate_rotations`: the block of projector
        function j for every symmetry operation. */
    static method PlaceBlocks(ls: seq<nat>, rslmm: seq<seq<seq<seq<real>>>>, j: nat, rot: seq<seq<seq<real>>>)
      returns (rot': seq<seq<seq<real>>>)
      requires j < |ls| && forall s :: 0 <= s < |rslmm| ==> RotationBlocks(ls, rslmm[s])
      requires |rot| == |rslmm| && forall s :: 0 <= s < |rslmm| ==> rot[s] == Rotation(ls, rslmm[s], j)
      ensures |rot'| == |rslmm| && forall s :: 0 <= s < |rslmm| ==> rot'[s] == Rotation(ls, rslmm[s], j + 1)
    {
      rot' := rot;
      var s := 0;
      while s < |rslmm|
        invariant 0 <= s <= |rslmm| && |rot'| == |rslmm|
        invariant forall s' :: 0 <= s' < s ==> rot'[s'] == Rotation(ls, rslmm[s'], j + 1)
        invariant forall s' :: s <= s' < |rslmm| ==> rot'[s'] == Rotation(ls, rslmm[s'], j)
      {
        RotationStep(ls, rslmm[s], j);
        rot' := rot'[s := PlacedBlock(rot'[s], ShellStart(ls, j), rslmm[s][ls[j]])];
        s := s + 1;
      }
    }

    /** `set_hubbard_u(U, l, scale, store, LinRes)`: the parameters, and
        `Hubi`, the offset of the first projector function of angular
        momentum l (ni when there is none). */
    method SetHubbardU(u: real, l: nat, scale: int, store: int, linRes: int)
      requires Valid()
      modifies this
      ensures Valid() && rotations == old(rotations)
      ensures hubU == Some(u) && hubl == l && hubScale == scale && hubStore == store && hubLinRes == linRes && hubOcc == []
      ensures hubi == ShellStart(lj, NextShell(lj, 0, l))
    {
      hubLinRes, hubScale, hubStore, hubOcc, hubU, hubl := linRes, scale, store, [], Some(u), l;
      var i := 0;
      var j := 0;
      while j < |lj|
        invariant 0 <= j <= NextShell(lj, 0, l) && NextShell(lj, j, l) == NextShell(lj, 0, l) && i == ShellStart(lj, j)
        invariant hubl == l
      {
        if lj[j] == hubl {
          break;
        }
        i := i + 2 * lj[j] + 1;
        j := j + 1;
      }
      hubi := i;
    }
  }
}
