/** The pseudo electron density and its bookkeeping.

    A `Density` owns the smooth core density on the coarse grid, the
    per-spin pseudo density on the coarse and the fine grid, the spin-summed
    fine density and the total charge density, together with the atomic
    density matrices of the nuclei.  Grid arrays are flat `seq<real>`; a
    volume integral is the volume element times the sum of the entries.  The
    coarse-to-fine Transformer is an opaque function of the array; the atomic
    densities, compensation charges, core densities and the density matrices
    computed from wave functions are inputs of the operations that receive
    them.  Everything runs on one rank, so communicator sums are the
    identity. */
module Density {
  import opened Common

  /** What the density needs of a nucleus's setup: the atomic number, the
      valence and core electron counts, and the two parts of the l = 0
      multipole moment -- the constant Delta0 and the coefficients
      Delta_pL[:, 0] that multiply the packed density matrix. */
  datatype NucleusSetup = NucleusSetup(z: real, nv: real, nc: real, delta0: real, deltaP0: seq<real>)

  datatype MixerKind = MixerSum | Mixer

  datatype DensityError =
    | ZeroDivision                  // a rescaling divides by a vanishing integral
    | RescaleOutOfRange             // the 0.83 < x < 1.17 plausibility assertion failed
    | ChargeNotConserved(excess: real)
    | NotImplemented                // an unsupported grid refinement
    | UndefinedName                 // a name the code uses but never imports

  /** The grid the all-electron density is built on. */
  datatype RefinedGrid = CoarseGrid | FineGrid | ExtraFineGrid

  /** One k-point's contribution to the coarse density of its spin. */
  datatype KptContribution = KptContribution(s: nat, density: seq<real>)

  /** sqrt(4 pi) as a double. */
  const SqrtFourPi: real := 3.5449077018110318
  /** Largest excess charge `update_pseudo_charge` accepts. */
  const ChargeTolerance: real := 0.0000001
  /** `initialize2`'s threshold below which an integral counts as zero. */
  const ZeroTolerance: real := 0.000000001

  /** Z - Nv - Nc of every nucleus: the charge each nucleus adds. */
  function NuclearExcesses(nuclei: seq<NucleusSetup>): (r: seq<real>)
    ensures |r| == |nuclei| && forall a :: 0 <= a < |nuclei| ==> r[a] == nuclei[a].z - nuclei[a].nv - nuclei[a].nc
  {
    seq(|nuclei|, a requires 0 <= a < |nuclei| => nuclei[a].z - nuclei[a].nv - nuclei[a].nc)
  }

  /** The mixer choice: the spin-summed mixer exactly for two spins without a
      fixed moment at zero temperature. */
  function ChooseMixer(nspins: nat, fixmom: bool, kT: real): (m: MixerKind)
    ensures m == MixerSum <==> nspins == 2 && (!fixmom || kT != 0.0)
  {
    if nspins == 2 && (!fixmom || kT != 0.0) then MixerSum else Mixer
  }

  // -----------------------------------------------------------------
  // Multipole moments

  /** Every row of `d` has length `k`. */
  predicate RowsShaped(d: seq<seq<real>>, k: nat)
  {
    forall s :: 0 <= s < |d| ==> |d[s]| == k
  }

  /** The packed matrices of every nucleus have one row per spin of the
      nucleus's packed size. */
  predicate MatricesShaped(nuclei: seq<NucleusSetup>, dm: seq<seq<seq<real>>>, nspins: nat)
  {
    |dm| == |nuclei| &&
    (nspins == 1 || nspins == 2) &&
    forall a :: 0 <= a < |dm| ==> |dm[a]| == nspins && RowsShaped(dm[a], |nuclei[a].deltaP0|)
  }

  /** The density-matrix part of a nucleus's l = 0 moment for its one or
      two spin density matrices `d`: sum over spins of dot(D_sp[s], Delta_pL[:, 0]). */
  function MatrixCharge(d: seq<seq<real>>, v: seq<real>): real
  {
    if |d| == 0 then 0.0 else if |d| == 1 then Dot(d[0], v) else Dot(d[0], v) + Dot(d[1], v)
  }

  /** For each nucleus, the density-matrix part of its l = 0 moment. */
  function NucleusCharges(nuclei: seq<NucleusSetup>, dm: seq<seq<seq<real>>>): (r: seq<real>)
    requires |dm| == |nuclei|
    ensures |r| == |nuclei| && forall a :: 0 <= a < |nuclei| ==> r[a] == MatrixCharge(dm[a], nuclei[a].deltaP0)
  {
    seq(|nuclei|, a requires 0 <= a < |nuclei| => MatrixCharge(dm[a], nuclei[a].deltaP0))
  }

  /** Sum over nuclei of the density-matrix part of the l = 0 moment. */
  function MatricesCharge(nuclei: seq<NucleusSetup>, dm: seq<seq<seq<real>>>): real
    requires |dm| == |nuclei|
  {
    Sum(NucleusCharges(nuclei, dm))
  }

  /** For each nucleus, Delta0. */
  function Delta0s(nuclei: seq<NucleusSetup>): (r: seq<real>)
    ensures |r| == |nuclei| && forall a :: 0 <= a < |nuclei| ==> r[a] == nuclei[a].delta0
  {
    seq(|nuclei|, a requires 0 <= a < |nuclei| => nuclei[a].delta0)
  }

  /** For each nucleus, spin `s`'s share of its l = 0 moment: half of Delta0
      plus dot(D_sp[s], Delta_pL[:, 0]). */
  function SpinCharges(nuclei: seq<NucleusSetup>, dm: seq<seq<seq<real>>>, s: nat): (r: seq<real>)
    requires |dm| == |nuclei|
    ensures |r| == |nuclei|
    ensures forall a :: 0 <= a < |nuclei| ==>
              r[a] == 0.5 * nuclei[a].delta0 + (if s < |dm[a]| then Dot(dm[a][s], nuclei[a].deltaP0) else 0.0)
  {
    seq(|nuclei|, a requires 0 <= a < |nuclei| =>
      0.5 * nuclei[a].delta0 + (if s < |dm[a]| then Dot(dm[a][s], nuclei[a].deltaP0) else 0.0))
  }

  /** The spin rows of one nucleus's matrices multiplied by `x`. */
  function ScaleRows(d: seq<seq<real>>, x: real): (r: seq<seq<real>>)
    ensures |r| == |d| && forall s :: 0 <= s < |d| ==> r[s] == Scale(d[s], x)
  {
    seq(|d|, s requires 0 <= s < |d| => Scale(d[s], x))
  }

  /** Every density matrix multiplied by `x` (`D_sp *= x` on every nucleus). */
  function ScaleMatrices(dm: seq<seq<seq<real>>>, x: real): (r: seq<seq<seq<real>>>)
    ensures |r| == |dm| && forall a :: 0 <= a < |dm| ==> r[a] == ScaleRows(dm[a], x)
  {
    seq(|dm|, a requires 0 <= a < |dm| => ScaleRows(dm[a], x))
  }

  /** `t' == x * t` for sums t = p + q and t' = p' + q' of scaled parts. */
  lemma Distribute(x: real, p: real, q: real, p': real, q': real, t: real, t': real)
    requires p' == x * p && q' == x * q && t == p + q && t' == p' + q'
    ensures t' == x * t
  {
  }

  /** Scaling one nucleus's matrices by `x` scales its moment part by `x`. */
  lemma MatrixChargeScale(d: seq<seq<real>>, v: seq<real>, x: real)
    ensures MatrixCharge(ScaleRows(d, x), v) == x * MatrixCharge(d, v)
  {
    var e := ScaleRows(d, x);
    if |d| == 1 {
      DotScale(d[0], v, x);
    } else if |d| > 1 {
      DotScale(d[0], v, x);
      DotScale(d[1], v, x);
      Distribute(x, Dot(d[0], v), Dot(d[1], v), Dot(e[0], v), Dot(e[1], v), MatrixCharge(d, v), MatrixCharge(e, v));
    }
  }

  lemma ScaleMatricesShaped(nuclei: seq<NucleusSetup>, dm: seq<seq<seq<real>>>, nspins: nat, x: real)
    requires MatricesShaped(nuclei, dm, nspins)
    ensures MatricesShaped(nuclei, ScaleMatrices(dm, x), nspins)
  {
  }

  /** Scaling every density matrix by `x` scales the density-matrix part of
      the moments by `x`. */
  lemma MatricesChargeScale(nuclei: seq<NucleusSetup>, dm: seq<seq<seq<real>>>, x: real)
    requires |dm| == |nuclei|
    ensures MatricesCharge(nuclei, ScaleMatrices(dm, x)) == x * MatricesCharge(nuclei, dm)
  {
    var p, p' := NucleusCharges(nuclei, dm), NucleusCharges(nuclei, ScaleMatrices(dm, x));
    forall a | 0 <= a < |nuclei|
      ensures p'[a] == x * p[a]
    {
      MatrixChargeScale(dm[a], nuclei[a].deltaP0, x);
    }
    SumLinear(p, p', x);
    assert MatricesCharge(nuclei, dm) == Sum(p);
    assert MatricesCharge(nuclei, ScaleMatrices(dm, x)) == Sum(p');
  }

  // -----------------------------------------------------------------
  // Rescaling factors

  /** The single-spin rescaling: when Q0 != Q the density matrices are scaled
      by (Nt + Q0 + charge) / (Q0 - Q); otherwise the pseudo density is scaled
      by -(charge + Q) / Nt, which divides by zero when Nt is zero. */
  datatype SingleRescale = ScaleMatricesBy(x: real) | ScaleDensityBy(x: real)

  function SingleSpinRescale(nt: real, q: real, q0: real, charge: real): (r: Result<SingleRescale, DensityError>)
    ensures r.Err? <==> q0 == q && nt == 0.0
    ensures r.Err? ==> r.error == ZeroDivision
    ensures r.Ok? ==> (r.value.ScaleMatricesBy? <==> q0 != q)
  {
    if q0 - q != 0.0 then Ok(ScaleMatricesBy((nt + q0 + charge) / (q0 - q)))
    else if nt == 0.0 then Err(ZeroDivision)
    else Ok(ScaleDensityBy(-(charge + q) / nt))
  }

  /** The factor solves the neutrality condition of its branch: scaled
      matrices give x (Q0 - Q) = Nt + Q0 + charge, a scaled density
      Nt x + Q = -charge. */
  lemma SingleSpinRescaleBalances(nt: real, q: real, q0: real, charge: real)
    ensures match SingleSpinRescale(nt, q, q0, charge)
            case Err(_) => true
            case Ok(ScaleMatricesBy(x)) => x * (q0 - q) == nt + q0 + charge
            case Ok(ScaleDensityBy(x)) => nt * x + q == -charge
  {
    if q0 - q != 0.0 {
      var x := (nt + q0 + charge) / (q0 - q);
      assert x * (q0 - q) == nt + q0 + charge;
    } else if nt != 0.0 {
      var x := -(charge + q) / nt;
      assert nt * x == -(charge + q);
    }
  }

  /** Whether an integral counts as zero: exactly zero for `initialize`, below
      1e-9 in magnitude for `initialize2`. */
  predicate Vanishes(n: real, tolerant: bool)
  {
    if tolerant then Abs(n) < ZeroTolerance else n == 0.0
  }

  /** The second test of `initialize2` for the spin-1 integral is `> 1e-9`,
      not the negation of `< 1e-9`: exactly 1e-9 counts as neither. */
  predicate Significant(n: real, tolerant: bool)
  {
    if tolerant then Abs(n) > ZeroTolerance else n != 0.0
  }

  /** The two-spin rescaling factors (x, y) for spin integrals n0, n1, spin
      moments q0, q1, total charge and total magnetic moment m, before the
      plausibility check: a factor stays 1 unless its spin is rescaled. */
  function TwoSpinFactors(n0: real, n1: real, q0: real, q1: real, charge: real, m: real, tolerant: bool): (r: (real, real))
    ensures Vanishes(n0, tolerant) ==> r.0 == 1.0
    ensures Vanishes(n0, tolerant) && !Significant(n1, tolerant) ==> r.1 == 1.0
    ensures !Vanishes(n0, tolerant) && Vanishes(n1, tolerant) ==> r.1 == 1.0
  {
    if Vanishes(n0, tolerant) then
      if Significant(n1, tolerant) then (1.0, -(charge + q0 + q1) / n1) else (1.0, 1.0)
    else if Vanishes(n1, tolerant) then (-(charge + q0 + q1) / n0, 1.0)
    else SolvedPair(n0, n1, -q0 - q1 - charge, -q0 + q1 + m)
  }

  /** The solution of [[n0, n1], [n0, -n1]] (x, y) = (a, b). */
  function SolvedPair(n0: real, n1: real, a: real, b: real): (real, real)
    requires n0 != 0.0 && n1 != 0.0
  {
    ((a + b) / (2.0 * n0), (a - b) / (2.0 * n1))
  }

  lemma SolvedPairSolves(n0: real, n1: real, a: real, b: real)
    requires n0 != 0.0 && n1 != 0.0
    ensures var r := SolvedPair(n0, n1, a, b);
            n0 * r.0 + n1 * r.1 == a && n0 * r.0 - n1 * r.1 == b
  {
    var x, y := (a + b) / (2.0 * n0), (a - b) / (2.0 * n1);
    assert n0 * x == (a + b) / 2.0;
    assert n1 * y == (a - b) / 2.0;
  }

  /** With spin 0 empty and spin 1 significant, y makes spin 1 carry minus
      the total charge and moments. */
  lemma OnlySpinOneRescaled(n0: real, n1: real, q0: real, q1: real, charge: real, m: real, tolerant: bool)
    requires Vanishes(n0, tolerant) && Significant(n1, tolerant)
    ensures n1 * TwoSpinFactors(n0, n1, q0, q1, charge, m, tolerant).1 == -(charge + q0 + q1)
  {
    DivideBack(n1, -(charge + q0 + q1));
  }

  /** With spin 0 nonempty and spin 1 empty, x makes spin 0 carry minus the
      total charge and moments. */
  lemma OnlySpinZeroRescaled(n0: real, n1: real, q0: real, q1: real, charge: real, m: real, tolerant: bool)
    requires !Vanishes(n0, tolerant) && Vanishes(n1, tolerant)
    ensures n0 * TwoSpinFactors(n0, n1, q0, q1, charge, m, tolerant).0 == -(charge + q0 + q1)
  {
    DivideBack(n0, -(charge + q0 + q1));
  }

  /** With both spins nonempty, (x, y) solves the electron-count and the
      magnetic-moment equations. */
  lemma BothSpinsRescaled(n0: real, n1: real, q0: real, q1: real, charge: real, m: real, tolerant: bool)
    requires !Vanishes(n0, tolerant) && !Vanishes(n1, tolerant)
    ensures var r := TwoSpinFactors(n0, n1, q0, q1, charge, m, tolerant);
            && n0 * r.0 + n1 * r.1 == -q0 - q1 - charge
            && n0 * r.0 - n1 * r.1 == -q0 + q1 + m
  {
    SolvedPairSolves(n0, n1, -q0 - q1 - charge, -q0 + q1 + m);
  }

  /** The plausibility assertion on the two-spin factors f: for a neutral
      system `initialize` requires both factors in (0.83, 1.17),
      `initialize2` only x. */
  function PlausibleFactors(f: (real, real), charge: real, tolerant: bool): (r: Result<(real, real), DensityError>)
    ensures r.Ok? ==> r.value == f
    ensures r.Err? <==> charge == 0.0 && !(0.83 < f.0 < 1.17 && (tolerant || 0.83 < f.1 < 1.17))
    ensures r.Err? ==> r.error == RescaleOutOfRange
  {
    if charge == 0.0 && !(0.83 < f.0 < 1.17) then Err(RescaleOutOfRange)
    else if charge == 0.0 && !tolerant && !(0.83 < f.1 < 1.17) then Err(RescaleOutOfRange)
    else Ok(f)
  }

  /** The two-spin factors balance the charge: with exact zero tests and not
      both spins empty, the rescaled spin integrals x n0 and y n1 and the
      moments add up to minus the total charge; with both spins nonempty,
      also under the 1e-9 tests, and the spin difference is the total
      magnetic moment m. */
  lemma TwoSpinFactorsBalance(n0: real, n1: real, q0: real, q1: real, charge: real, m: real, tolerant: bool)
    ensures var f := TwoSpinFactors(n0, n1, q0, q1, charge, m, tolerant);
            && (!tolerant && (n0 != 0.0 || n1 != 0.0) ==> f.0 * n0 + f.1 * n1 + q0 + q1 == -charge)
            && (!Vanishes(n0, tolerant) && !Vanishes(n1, tolerant) ==>
                  && f.0 * n0 + f.1 * n1 + q0 + q1 == -charge
                  && (f.0 * n0 + q0) - (f.1 * n1 + q1) == m)
  {
    if Vanishes(n0, tolerant) {
      if Significant(n1, tolerant) {
        OnlySpinOneRescaled(n0, n1, q0, q1, charge, m, tolerant);
      }
    } else if Vanishes(n1, tolerant) {
      OnlySpinZeroRescaled(n0, n1, q0, q1, charge, m, tolerant);
    } else {
      BothSpinsRescaled(n0, n1, q0, q1, charge, m, tolerant);
    }
  }

  // -----------------------------------------------------------------
  // Grid refinement dispatch of get_all_electron_density

  /** The dispatch as written: refinement 4 refers to `Interpolator`, a name
      the module never imports, so it fails before reaching the extra-fine grid. */
  function AllElectronGridAsWritten(gridrefinement: int): (r: Result<RefinedGrid, DensityError>)
    ensures gridrefinement == 4 ==> r == Err(UndefinedName)
  {
    if gridrefinement == 1 then Ok(CoarseGrid)
    else if gridrefinement == 2 then Ok(FineGrid)
    else if gridrefinement == 4 then Err(UndefinedName)
    else Err(NotImplemented)
  }

  /** The intended dispatch: 1, 2 and 4 select the coarse, fine and
      extra-fine grid; anything else is not implemented. */
  function AllElectronGrid(gridrefinement: int): (r: Result<RefinedGrid, DensityError>)
    ensures r.Ok? <==> gridrefinement in {1, 2, 4}
    ensures r == Ok(CoarseGrid) <==> gridrefinement == 1
    ensures r == Ok(FineGrid) <==> gridrefinement == 2
    ensures r == Ok(ExtraFineGrid) <==> gridrefinement == 4
    ensures r.Err? ==> r.error == NotImplemented
  {
    if gridrefinement == 1 then Ok(CoarseGrid)
    else if gridrefinement == 2 then Ok(FineGrid)
    else if gridrefinement == 4 then Ok(ExtraFineGrid)
    else Err(NotImplemented)
  }

  /** The two dispatches agree except on refinement 4. */
  lemma AllElectronGridAsWrittenDiffers(gridrefinement: int)
    ensures AllElectronGridAsWritten(gridrefinement) == AllElectronGrid(gridrefinement) <==> gridrefinement != 4
  {
  }

  // -----------------------------------------------------------------
  // Accumulation of k-point contributions and core densities

  /** The coarse density of spin `s` accumulated from zero over the first
      `k` contributions of `cs`. */
  function SpinDensity(cs: seq<KptContribution>, s: nat, n: nat, k: nat): (r: seq<real>)
    requires k <= |cs|
    ensures |r| == n
  {
    if k == 0 then Zeros(n)
    else
      var prev := SpinDensity(cs, s, n, k - 1);
      if cs[k - 1].s == s then Add(prev, cs[k - 1].density) else prev
  }

  /** The electrons the first `k` contributions of spin `s` carry. */
  function SpinElectrons(cs: seq<KptContribution>, s: nat, k: nat): real
    requires k <= |cs|
  {
    if k == 0 then 0.0
    else SpinElectrons(cs, s, k - 1) + (if cs[k - 1].s == s then Sum(cs[k - 1].density) else 0.0)
  }

  /** Accumulation loses nothing: the summed density of a spin holds exactly
      the electrons its contributions carry. */
  lemma {:induction false} SpinDensityElectrons(cs: seq<KptContribution>, s: nat, n: nat, k: nat)
    requires k <= |cs| && forall j :: 0 <= j < |cs| ==> |cs[j].density| == n
    ensures Sum(SpinDensity(cs, s, n, k)) == SpinElectrons(cs, s, k)
  {
    if k == 0 {
      SumZeros(n);
    } else {
      SpinDensityElectrons(cs, s, n, k - 1);
      if cs[k - 1].s == s {
        SumAdd(SpinDensity(cs, s, n, k - 1), cs[k - 1].density);
      }
    }
  }

  /** The first `k` arrays of `cs` added up from zero. */
  function ArraySum(cs: seq<seq<real>>, n: nat, k: nat): (r: seq<real>)
    requires k <= |cs|
    ensures |r| == n
  {
    if k == 0 then Zeros(n) else Add(ArraySum(cs, n, k - 1), cs[k - 1])
  }

  /** Sum over the first `k` arrays of `cs` of the entries of each. */
  function TotalOfSums(cs: seq<seq<real>>, k: nat): real
    requires k <= |cs|
  {
    if k == 0 then 0.0 else TotalOfSums(cs, k - 1) + Sum(cs[k - 1])
  }

  /** Adding up arrays adds up their electron counts. */
  lemma {:induction false} ArraySumTotal(cs: seq<seq<real>>, n: nat, k: nat)
    requires k <= |cs| && forall j :: 0 <= j < |cs| ==> |cs[j]| == n
    ensures Sum(ArraySum(cs, n, k)) == TotalOfSums(cs, k)
  {
    if k == 0 {
      SumZeros(n);
    } else {
      ArraySumTotal(cs, n, k - 1);
      SumAdd(ArraySum(cs, n, k - 1), cs[k - 1]);
    }
  }

  // -----------------------------------------------------------------
  // Charge check of update_pseudo_charge

  /** The outcome of the charge check for an excess charge of `excess`. */
  function ChargeCheck(excess: real): (r: Result<(), DensityError>)
    ensures r.Err? <==> Abs(excess) > ChargeTolerance
    ensures r.Err? ==> r.error == ChargeNotConserved(excess)
  {
    if Abs(excess) > ChargeTolerance then Err(ChargeNotConserved(excess)) else Ok(())
  }

  /** Integration is additive over arrays of one shape. */
  lemma IntegrateAdd(a: seq<real>, b: seq<real>, dv: real)
    requires |a| == |b|
    ensures Integrate(Add(a, b), dv) == Integrate(a, dv) + Integrate(b, dv)
  {
    SumAdd(a, b);
  }

  /** The two-spin total charge density integrates to the two spin
      integrals plus the compensation charge integral. */
  lemma PseudoChargeIntegral(n0: seq<real>, n1: seq<real>, ghat: seq<real>, fineDv: real)
    requires |n0| == |n1| == |ghat|
    ensures Integrate(Add(Add(n0, n1), ghat), fineDv) == Integrate(n0, fineDv) + Integrate(n1, fineDv) + Integrate(ghat, fineDv)
  {
    IntegrateAdd(n0, n1, fineDv);
    IntegrateAdd(Add(n0, n1), ghat, fineDv);
  }

  /** Coarse pseudo densities and density matrices. */
  datatype Charged = Charged(nt: seq<seq<real>>, dm: seq<seq<seq<real>>>)

  class Density {
    const nspins: nat
    const nvalence: real
    const nvalence0: real
    const charge: real
    const fixdensity: bool
    const hund: bool
    const magmoms: seq<real>
    const nuclei: seq<NucleusSetup>
    const mixer: MixerKind
    /** Number of points and volume element of the coarse and the fine grid. */
    const nG: nat
    const ng: nat
    const dv: real
    const fineDv: real
    /** True when the domain is periodic along every axis. */
    const periodic: bool
    /** The Transformer from the coarse to the fine grid. */
    const interpolate: seq<real> -> seq<real>

    var nctG: seq<real>
    var ntSG: seq<seq<real>>
    var ntSg: seq<seq<real>>
    /** The separate spin-summed fine array of a two-spin density (for one spin
        `nt_g` is `nt_sg[0]` itself; see `FineTotal`). */
    var ntg: seq<real>
    var rhotg: seq<real>
    /** The packed atomic density matrices D_sp of the nuclei. */
    var dm: seq<seq<seq<real>>>

    predicate SpinArrays(a: seq<seq<real>>, n: nat)
    {
      |a| == nspins && forall s :: 0 <= s < nspins ==> |a[s]| == n
    }

    /** The Transformer maps coarse arrays to fine ones. */
    ghost predicate InterpolatesToFine()
    {
      forall a: seq<real> {:trigger interpolate(a)} :: |a| == nG ==> |interpolate(a)| == ng
    }

    ghost predicate Valid()
      reads this
    {
      && InterpolatesToFine()
      && |nctG| == nG && |ntg| == ng && |rhotg| == ng
      && SpinArrays(ntSG, nG) && SpinArrays(ntSg, ng)
      && MatricesShaped(nuclei, dm, nspins)
    }

    /** `nt_g`: the first fine spin density for one spin, the separate array for two. */
    function FineTotal(): seq<real>
      reads this
      requires |ntSg| > 0
    {
      if nspins == 1 then ntSg[0] else ntg
    }

    /** The l = 0 compensation charge of all nuclei for matrices `d`:
        sqrt(4 pi) times the sum of Q_L[0] = Delta0 + dot(sum_s D_sp[s], Delta_pL[:, 0]). */
    function CompensationCharge(d: seq<seq<seq<real>>>): real
      requires |d| == |nuclei|
    {
      SqrtFourPi * (Sum(Delta0s(nuclei)) + MatricesCharge(nuclei, d))
    }

    constructor (nspins: nat, fixmom: bool, kT: real, magmoms: seq<real>, chargeIn: real, nvalence: real,
                 nuclei: seq<NucleusSetup>, fixdensity: bool, hund: bool, nG: nat, ng: nat, dv: real, fineDv: real,
                 periodic: bool, interpolate: seq<real> -> seq<real>, dm: seq<seq<seq<real>>>)
      requires forall a: seq<real> {:trigger interpolate(a)} :: |a| == nG ==> |interpolate(a)| == ng
      requires MatricesShaped(nuclei, dm, nspins)
      ensures Valid()
      ensures this.nvalence == nvalence && nvalence0 == nvalence + chargeIn
      ensures charge == chargeIn + Sum(NuclearExcesses(nuclei))
      ensures mixer == ChooseMixer(nspins, fixmom, kT)
      ensures this.nspins == nspins && this.nuclei == nuclei && this.magmoms == magmoms && this.dm == dm
      ensures this.fixdensity == fixdensity && this.hund == hund && this.periodic == periodic
      ensures this.nG == nG && this.ng == ng && this.dv == dv && this.fineDv == fineDv
      ensures this.interpolate == interpolate
      ensures nctG == Zeros(nG) && ntg == Zeros(ng) && rhotg == Zeros(ng)
      ensures ntSG == seq(nspins, _ => Zeros(nG)) && ntSg == seq(nspins, _ => Zeros(ng))
    {
      this.nspins := nspins;
      this.magmoms := magmoms;
      this.hund := hund;
      this.fixdensity := fixdensity;
      this.nuclei := nuclei;
      this.nvalence := nvalence;
      this.nvalence0 := nvalence + chargeIn;
      var excess := NuclearExcesses(nuclei);
      var c := chargeIn;
      var i := 0;
      while i < |nuclei|
        invariant i <= |nuclei|
        invariant c + SumFrom(excess, i) == chargeIn + Sum(excess)
      {
        c := c + (nuclei[i].z - nuclei[i].nv - nuclei[i].nc);
        i := i + 1;
      }
      this.charge := c;
      this.nG, this.ng, this.dv, this.fineDv := nG, ng, dv, fineDv;
      this.periodic := periodic;
      this.interpolate := interpolate;
      this.dm := dm;
      this.nctG := Zeros(nG);
      this.ntSG := seq(nspins, _ => Zeros(nG));
      this.rhotg := Zeros(ng);
      this.ntSg := seq(nspins, _ => Zeros(ng));
      this.ntg := Zeros(ng);
      this.mixer := if nspins == 2 && (!fixmom || kT != 0.0) then MixerSum else Mixer;
    }

    // ---------------------------------------------------------------
    // interpolate_pseudo_density

    /** A fine density rescaled so that it carries `nt0` electrons, unless the
        domain is fully periodic or the density integrates to zero. */
    function ConserveCharge(fine: seq<real>, nt0: real): (r: seq<real>)
      ensures |r| == |fine|
    {
      var nt := Integrate(fine, fineDv);
      if periodic || nt == 0.0 then fine else Scale(fine, nt0 / nt)
    }

    /** With some non-periodic axis and a fine integral Nt != 0, the rescaled
        fine density integrates to the coarse integral Nt0; otherwise it is
        left as interpolated. */
    lemma ConserveChargeIntegral(fine: seq<real>, nt0: real)
      ensures !periodic && Integrate(fine, fineDv) != 0.0 ==> Integrate(ConserveCharge(fine, nt0), fineDv) == nt0
      ensures periodic || Integrate(fine, fineDv) == 0.0 ==> ConserveCharge(fine, nt0) == fine
    {
      var nt := Integrate(fine, fineDv);
      if !periodic && nt != 0.0 {
        IntegrateScale(fine, fineDv, nt0 / nt);
      }
    }

    /** The fine densities `interpolate_pseudo_density` produces from `coarse`. */
    function FineDensity(coarse: seq<seq<real>>): (r: seq<seq<real>>)
      requires InterpolatesToFine() && SpinArrays(coarse, nG)
      ensures SpinArrays(r, ng)
    {
      seq(nspins, s requires 0 <= s < nspins => ConserveCharge(interpolate(coarse[s]), Integrate(coarse[s], dv)))
    }

    /** `interpolate_pseudo_density`: interpolate each spin, then, unless the
        domain is fully periodic, rescale each spin to its coarse integral. */
    method InterpolatePseudoDensity()
      requires Valid()
      modifies this
      ensures Valid()
      ensures ntSg == FineDensity(ntSG)
      ensures nctG == old(nctG) && ntSG == old(ntSG) && ntg == old(ntg) && rhotg == old(rhotg) && dm == old(dm)
    {
      var s := 0;
      while s < nspins
        invariant s <= nspins && SpinArrays(ntSg, ng)
        invariant nctG == old(nctG) && ntSG == old(ntSG) && ntg == old(ntg) && rhotg == old(rhotg) && dm == old(dm)
        invariant forall t :: 0 <= t < s ==> ntSg[t] == interpolate(ntSG[t])
      {
        ntSg := ntSg[s := interpolate(ntSG[s])];
        s := s + 1;
      }
      if !periodic {
        s := 0;
        while s < nspins
          invariant s <= nspins && SpinArrays(ntSg, ng)
          invariant nctG == old(nctG) && ntSG == old(ntSG) && ntg == old(ntg) && rhotg == old(rhotg) && dm == old(dm)
          invariant forall t :: 0 <= t < s ==> ntSg[t] == ConserveCharge(interpolate(ntSG[t]), Integrate(ntSG[t], dv))
          invariant forall t :: s <= t < nspins ==> ntSg[t] == interpolate(ntSG[t])
        {
          var nt0 := Integrate(ntSG[s], dv);
          var nt := Integrate(ntSg[s], fineDv);
          assert ntSg[s] == interpolate(ntSG[s]);
          if nt != 0.0 {
            ntSg := ntSg[s := Scale(ntSg[s], nt0 / nt)];
          }
          s := s + 1;
        }
      }
      assert ntSg == FineDensity(ntSG);
    }

    // ---------------------------------------------------------------
    // initialize / initialize2

    /** The moment sums of the single-spin branch: Q = sqrt(4 pi) sum of
        Q_L[0] and Q0 = sqrt(4 pi) sum of Delta0. */
    method SingleSpinMoments() returns (q: real, q0: real)
      requires Valid()
      ensures q == CompensationCharge(dm) && q0 == SqrtFourPi * Sum(Delta0s(nuclei))
    {
      var d0, dc := Delta0s(nuclei), NucleusCharges(nuclei, dm);
      var a := 0;
      q, q0 := 0.0, 0.0;
      while a < |nuclei|
        invariant a <= |nuclei|
        invariant q + SumFrom(d0, a) + SumFrom(dc, a) == Sum(d0) + Sum(dc)
        invariant q0 + SumFrom(d0, a) == Sum(d0)
      {
        q := q + (nuclei[a].delta0 + MatrixCharge(dm[a], nuclei[a].deltaP0));
        q0 := q0 + nuclei[a].delta0;
        a := a + 1;
      }
      q, q0 := SqrtFourPi * q, SqrtFourPi * q0;
    }

    /** The per-spin moments of the two-spin branch:
        Q_s = sqrt(4 pi) sum of 0.5 Delta0 + dot(D_sp[s], Delta_pL[:, 0]). */
    method SpinMoments() returns (q0: real, q1: real)
      requires Valid() && nspins == 2
      ensures q0 == SpinMoment(dm, 0) && q1 == SpinMoment(dm, 1)
    {
      var c0, c1 := SpinCharges(nuclei, dm, 0), SpinCharges(nuclei, dm, 1);
      var a := 0;
      q0, q1 := 0.0, 0.0;
      while a < |nuclei|
        invariant a <= |nuclei|
        invariant q0 + SumFrom(c0, a) == Sum(c0)
        invariant q1 + SumFrom(c1, a) == Sum(c1)
      {
        q0 := q0 + (0.5 * nuclei[a].delta0 + Dot(dm[a][0], nuclei[a].deltaP0));
        q1 := q1 + (0.5 * nuclei[a].delta0 + Dot(dm[a][1], nuclei[a].deltaP0));
        a := a + 1;
      }
      q0, q1 := SqrtFourPi * q0, SqrtFourPi * q1;
    }

    /** The charge matching of `initialize` (`tolerant` false) and
        `initialize2` (`tolerant` true) applied to densities `nt` and
        matrices `d`. */
    function Matched(nt: seq<seq<real>>, d: seq<seq<seq<real>>>, tolerant: bool): Result<Charged, DensityError>
      requires (nspins == 1 || nspins == 2) && SpinArrays(nt, nG) && |d| == |nuclei|
    {
      if nspins == 1 then MatchedSingleSpin(nt, d) else MatchedTwoSpins(nt, d, SpinFactors(nt, d, tolerant), tolerant)
    }

    /** The single-spin branch: scale the matrices or the density. */
    function MatchedSingleSpin(nt: seq<seq<real>>, d: seq<seq<seq<real>>>): Result<Charged, DensityError>
      requires nspins == 1 && SpinArrays(nt, nG) && |d| == |nuclei|
    {
      match SingleSpinRescale(Integrate(nt[0], dv), CompensationCharge(d), SqrtFourPi * Sum(Delta0s(nuclei)), charge)
      case Err(e) => Err(e)
      case Ok(ScaleMatricesBy(x)) => Ok(Charged(nt, ScaleMatrices(d, x)))
      case Ok(ScaleDensityBy(x)) => Ok(Charged([Scale(nt[0], x)], d))
    }

    /** Q_s = sqrt(4 pi) sum over nuclei of 0.5 Delta0 + dot(D_sp[s], Delta_pL[:, 0]). */
    function SpinMoment(d: seq<seq<seq<real>>>, s: nat): real
      requires |d| == |nuclei|
    {
      SqrtFourPi * Sum(SpinCharges(nuclei, d, s))
    }

    /** The two-spin factors (x, y) for densities `nt` and matrices `d`. */
    function SpinFactors(nt: seq<seq<real>>, d: seq<seq<seq<real>>>, tolerant: bool): (real, real)
      requires nspins == 2 && SpinArrays(nt, nG) && |d| == |nuclei|
    {
      TwoSpinFactors(Integrate(nt[0], dv), Integrate(nt[1], dv), SpinMoment(d, 0), SpinMoment(d, 1), charge, Sum(magmoms), tolerant)
    }

    /** The two-spin branch with factors f: scale spin 0 by x and spin 1 by
        y once they pass the plausibility assertion. */
    function MatchedTwoSpins(nt: seq<seq<real>>, d: seq<seq<seq<real>>>, f: (real, real), tolerant: bool)
      : Result<Charged, DensityError>
      requires nspins == 2 && SpinArrays(nt, nG)
    {
      match PlausibleFactors(f, charge, tolerant)
      case Err(e) => Err(e)
      case Ok(g) => Ok(Charged([Scale(nt[0], g.0), Scale(nt[1], g.1)], d))
    }

    /** The state after a charge match from `before` with result `r`. */
    ghost predicate MatchedFrom(before: Charged, tolerant: bool, r: Result<(), DensityError>)
      reads this
      requires (nspins == 1 || nspins == 2) && SpinArrays(before.nt, nG) && |before.dm| == |nuclei|
    {
      match Matched(before.nt, before.dm, tolerant)
      case Err(e) => r == Err(e) && ntSG == before.nt && dm == before.dm
      case Ok(c) => r == Ok(()) && ntSG == c.nt && dm == c.dm
    }

    /** After a successful single-spin match the pseudo electrons and the
        compensation charges add up to minus the total charge. */
    lemma SingleSpinNeutral(nt: seq<seq<real>>, d: seq<seq<seq<real>>>)
      requires nspins == 1 && SpinArrays(nt, nG) && |d| == |nuclei|
      ensures match MatchedSingleSpin(nt, d)
              case Err(e) => e == ZeroDivision && Integrate(nt[0], dv) == 0.0
              case Ok(c) => |c.nt| == 1 && |c.dm| == |nuclei|
                            && Integrate(c.nt[0], dv) + CompensationCharge(c.dm) == -charge
    {
      var q, q0 := CompensationCharge(d), SqrtFourPi * Sum(Delta0s(nuclei));
      SingleSpinRescaleBalances(Integrate(nt[0], dv), q, q0, charge);
      match SingleSpinRescale(Integrate(nt[0], dv), q, q0, charge)
      case Err(_) =>
      case Ok(ScaleMatricesBy(x)) =>
        MatricesChargeScale(nuclei, d, x);
        var p := MatricesCharge(nuclei, d);
        assert q0 - q == -(SqrtFourPi * p);
        assert CompensationCharge(ScaleMatrices(d, x)) == q0 + SqrtFourPi * (x * p);
        assert SqrtFourPi * (x * p) == -(x * (q0 - q));
      case Ok(ScaleDensityBy(x)) =>
        IntegrateScale(nt[0], dv, x);
    }

    /** Scaling the two spins by plausible factors scales their integrals. */
    lemma ScaledSpins(nt: seq<seq<real>>, d: seq<seq<seq<real>>>, f: (real, real), tolerant: bool)
      requires nspins == 2 && SpinArrays(nt, nG)
      ensures match MatchedTwoSpins(nt, d, f, tolerant)
              case Err(e) => e == RescaleOutOfRange && charge == 0.0
              case Ok(c) =>
                && |c.nt| == 2 && c.dm == d
                && Integrate(c.nt[0], dv) == f.0 * Integrate(nt[0], dv)
                && Integrate(c.nt[1], dv) == f.1 * Integrate(nt[1], dv)
    {
      IntegrateScale(nt[0], dv, f.0);
      IntegrateScale(nt[1], dv, f.1);
    }

    /** After a successful two-spin match with exact zero tests and not both
        spins empty, the electrons and compensation charges of both spins add
        up to minus the total charge; with both spins nonempty (under either
        test) so they do, and the spin difference equals the total magnetic
        moment.  A failed match is the plausibility assertion of a neutral
        system. */
    lemma TwoSpinNeutral(nt: seq<seq<real>>, d: seq<seq<seq<real>>>, tolerant: bool)
      requires nspins == 2 && SpinArrays(nt, nG) && |d| == |nuclei|
      ensures var n0, n1 := Integrate(nt[0], dv), Integrate(nt[1], dv);
              var q0, q1 := SpinMoment(d, 0), SpinMoment(d, 1);
              match Matched(nt, d, tolerant)
              case Err(e) => e == RescaleOutOfRange && charge == 0.0
              case Ok(c) =>
                && |c.nt| == 2 && c.dm == d
                && (!tolerant && (n0 != 0.0 || n1 != 0.0) ==> Integrate(c.nt[0], dv) + Integrate(c.nt[1], dv) + q0 + q1 == -charge)
                && (!Vanishes(n0, tolerant) && !Vanishes(n1, tolerant) ==>
                      && Integrate(c.nt[0], dv) + Integrate(c.nt[1], dv) + q0 + q1 == -charge
                      && (Integrate(c.nt[0], dv) + q0) - (Integrate(c.nt[1], dv) + q1) == Sum(magmoms))
    {
      var n0, n1, q0, q1 := Integrate(nt[0], dv), Integrate(nt[1], dv), SpinMoment(d, 0), SpinMoment(d, 1);
      TwoSpinFactorsBalance(n0, n1, q0, q1, charge, Sum(magmoms), tolerant);
      BalancedSpins(nt, d, SpinFactors(nt, d, tolerant), tolerant);
    }

    /** Factors f that balance the spin integrals carry that balance over to
        the rescaled densities. */
    lemma BalancedSpins(nt: seq<seq<real>>, d: seq<seq<seq<real>>>, f: (real, real), tolerant: bool)
      requires nspins == 2 && SpinArrays(nt, nG) && |d| == |nuclei|
      requires var n0, n1, q0, q1 := Integrate(nt[0], dv), Integrate(nt[1], dv), SpinMoment(d, 0), SpinMoment(d, 1);
               && (!tolerant && (n0 != 0.0 || n1 != 0.0) ==> f.0 * n0 + f.1 * n1 + q0 + q1 == -charge)
               && (!Vanishes(n0, tolerant) && !Vanishes(n1, tolerant) ==>
                     && f.0 * n0 + f.1 * n1 + q0 + q1 == -charge
                     && (f.0 * n0 + q0) - (f.1 * n1 + q1) == Sum(magmoms))
      ensures var n0, n1 := Integrate(nt[0], dv), Integrate(nt[1], dv);
              var q0, q1 := SpinMoment(d, 0), SpinMoment(d, 1);
              match MatchedTwoSpins(nt, d, f, tolerant)
              case Err(e) => e == RescaleOutOfRange && charge == 0.0
              case Ok(c) =>
                && |c.nt| == 2 && c.dm == d
                && (!tolerant && (n0 != 0.0 || n1 != 0.0) ==> Integrate(c.nt[0], dv) + Integrate(c.nt[1], dv) + q0 + q1 == -charge)
                && (!Vanishes(n0, tolerant) && !Vanishes(n1, tolerant) ==>
                      && Integrate(c.nt[0], dv) + Integrate(c.nt[1], dv) + q0 + q1 == -charge
                      && (Integrate(c.nt[0], dv) + q0) - (Integrate(c.nt[1], dv) + q1) == Sum(magmoms))
    {
      ScaledSpins(nt, d, f, tolerant);
    }

    /** The single-spin rescaling of `nt_sG` or the density matrices. */
    method RescaleSingleSpin(tolerant: bool) returns (r: Result<(), DensityError>)
      requires Valid() && nspins == 1
      modifies this
      ensures Valid()
      ensures MatchedFrom(Charged(old(ntSG), old(dm)), tolerant, r)
      ensures nctG == old(nctG) && ntSg == old(ntSg) && ntg == old(ntg) && rhotg == old(rhotg)
    {
      var q, q0 := SingleSpinMoments();
      var nt := dv * Sum(ntSG[0]);
      // Nt + Q must equal minus the total charge.
      if q0 - q != 0.0 {
        var x := (nt + q0 + charge) / (q0 - q);
        ScaleMatricesShaped(nuclei, dm, nspins, x);
        dm := ScaleMatrices(dm, x);
      } else if nt == 0.0 {
        return Err(ZeroDivision);
      } else {
        var x := -(charge + q) / nt;
        ntSG := [Scale(ntSG[0], x)];
      }
      r := Ok(());
    }

    /** The two-spin rescaling of the spin densities by (x, y). */
    method RescaleTwoSpins(tolerant: bool) returns (r: Result<(), DensityError>)
      requires Valid() && nspins == 2
      modifies this
      ensures Valid()
      ensures MatchedFrom(Charged(old(ntSG), old(dm)), tolerant, r)
      ensures nctG == old(nctG) && ntSg == old(ntSg) && ntg == old(ntg) && rhotg == old(rhotg)
    {
      var q0, q1 := SpinMoments();
      var n0, n1 := dv * Sum(ntSG[0]), dv * Sum(ntSG[1]);
      var m := Sum(magmoms);
      var x, y := 1.0, 1.0;
      if Vanishes(n0, tolerant) {
        if Significant(n1, tolerant) {
          y := -(charge + q0 + q1) / n1;
        }
      } else if Vanishes(n1, tolerant) {
        x := -(charge + q0 + q1) / n0;
      } else {
        var solution := SolvedPair(n0, n1, -q0 - q1 - charge, -q0 + q1 + m);
        x, y := solution.0, solution.1;
      }
      assert (x, y) == TwoSpinFactors(n0, n1, q0, q1, charge, m, tolerant);
      if charge == 0.0 {
        if !(0.83 < x < 1.17) {
          return Err(RescaleOutOfRange);
        }
        if !tolerant && !(0.83 < y < 1.17) {
          return Err(RescaleOutOfRange);
        }
      }
      ntSG := [Scale(ntSG[0], x), Scale(ntSG[1], y)];
      r := Ok(());
    }

    /** The rescaling shared by `initialize` (`tolerant` false) and
        `initialize2` (`tolerant` true: the 1e-9 zero tests and the single
        assertion), followed by the mixer (the identity here) and the
        interpolation to the fine grid. */
    method MatchCharge(tolerant: bool) returns (r: Result<(), DensityError>)
      requires Valid()
      modifies this
      ensures Valid()
      ensures MatchedFrom(Charged(old(ntSG), old(dm)), tolerant, r)
      ensures nctG == old(nctG) && ntg == old(ntg) && rhotg == old(rhotg)
      ensures r.Ok? ==> ntSg == FineDensity(ntSG)
      ensures r.Err? ==> ntSg == old(ntSg)
    {
      if nspins == 1 {
        r := RescaleSingleSpin(tolerant);
      } else {
        r := RescaleTwoSpins(tolerant);
      }
      if r.Ok? {
        InterpolatePseudoDensity();
      }
    }

    /** `nt_sG[:] = nct_G` followed by the atomic densities of every spin. */
    function Starting(core: seq<real>, atomic: seq<seq<real>>): (r: seq<seq<real>>)
      requires |core| == nG && SpinArrays(atomic, nG)
      ensures SpinArrays(r, nG)
      ensures forall s :: 0 <= s < nspins ==> r[s] == Add(core, atomic[s])
    {
      seq(nspins, s requires 0 <= s < nspins => Add(core, atomic[s]))
    }

    /** Each spin's starting density holds the core's electrons plus its
        atomic density's. */
    lemma StartingElectrons(core: seq<real>, atomic: seq<seq<real>>, s: nat)
      requires |core| == nG && SpinArrays(atomic, nG) && s < nspins
      ensures Integrate(Starting(core, atomic)[s], dv) == Integrate(core, dv) + Integrate(atomic[s], dv)
    {
      IntegrateAdd(core, atomic[s], dv);
    }

    /** The starting point of `initialize`: the smooth core density plus the
        atomic densities, and the atomic density matrices, both scaled by
        nvalence / nvalence0 when the two differ. */
    function InitialGuess(core: seq<real>, atomic: seq<seq<real>>, atomicDm: seq<seq<seq<real>>>): (r: Result<Charged, DensityError>)
      requires |core| == nG && SpinArrays(atomic, nG) && MatricesShaped(nuclei, atomicDm, nspins)
      ensures r.Err? <==> nvalence != nvalence0 && nvalence0 == 0.0
      ensures r.Err? ==> r.error == ZeroDivision
      ensures r.Ok? ==> SpinArrays(r.value.nt, nG) && MatricesShaped(nuclei, r.value.dm, nspins)
    {
      var start := Starting(core, atomic);
      if nvalence == nvalence0 then Ok(Charged(start, atomicDm))
      else if nvalence0 == 0.0 then Err(ZeroDivision)
      else
        var x := nvalence / nvalence0;
        ScaleMatricesShaped(nuclei, atomicDm, nspins, x);
        Ok(Charged(seq(nspins, s requires 0 <= s < nspins => Scale(start[s], x)), ScaleMatrices(atomicDm, x)))
    }

    /** The valence correction scales every spin's electrons and the
        density-matrix part of the moments by nvalence / nvalence0. */
    lemma InitialGuessScaled(core: seq<real>, atomic: seq<seq<real>>, atomicDm: seq<seq<seq<real>>>, s: nat)
      requires |core| == nG && SpinArrays(atomic, nG) && MatricesShaped(nuclei, atomicDm, nspins) && s < nspins
      ensures match InitialGuess(core, atomic, atomicDm)
              case Err(_) => true
              case Ok(g) =>
                var x := if nvalence == nvalence0 then 1.0 else nvalence / nvalence0;
                && Integrate(g.nt[s], dv) == x * Integrate(Add(core, atomic[s]), dv)
                && MatricesCharge(nuclei, g.dm) == x * MatricesCharge(nuclei, atomicDm)
    {
      if nvalence != nvalence0 && nvalence0 != 0.0 {
        var x := nvalence / nvalence0;
        IntegrateScale(Add(core, atomic[s]), dv, x);
        MatricesChargeScale(nuclei, atomicDm, x);
      }
    }

    /** `initialize`: the core density plus the atomic densities (and the
        atomic density matrices) as a starting point, the valence
        correction, then the exact charge matching. */
    method Initialize(atomic: seq<seq<real>>, atomicDm: seq<seq<seq<real>>>) returns (r: Result<(), DensityError>)
      requires Valid() && SpinArrays(atomic, nG) && MatricesShaped(nuclei, atomicDm, nspins)
      modifies this
      ensures Valid()
      ensures match InitialGuess(old(nctG), atomic, atomicDm)
              case Err(e) => r == Err(e) && ntSG == Starting(old(nctG), atomic) && dm == atomicDm && ntSg == old(ntSg)
              case Ok(g) => MatchedFrom(g, false, r)
                            && (r.Ok? ==> ntSg == FineDensity(ntSG)) && (r.Err? ==> ntSg == old(ntSg))
      ensures nctG == old(nctG) && ntg == old(ntg) && rhotg == old(rhotg)
    {
      ntSG := Starting(nctG, atomic);
      dm := atomicDm;
      if nvalence != nvalence0 {
        if nvalence0 == 0.0 {
          return Err(ZeroDivision);
        }
        var x := nvalence / nvalence0;
        ScaleMatricesShaped(nuclei, dm, nspins, x);
        dm := ScaleMatrices(dm, x);
        var start := ntSG;
        ntSG := seq(nspins, s requires 0 <= s < nspins => Scale(start[s], x));
      }
      assert InitialGuess(old(nctG), atomic, atomicDm) == Ok(Charged(ntSG, dm));
      r := MatchCharge(false);
    }

    // ---------------------------------------------------------------
    // update_pseudo_charge, update, move

    /** `update_pseudo_charge` with the compensation charges `ghat` of the
        nuclei: the spin-summed fine density, plus `ghat`, must integrate to
        minus the total charge within 1e-7. */
    method UpdatePseudoCharge(ghat: seq<real>) returns (r: Result<(), DensityError>)
      requires Valid() && |ghat| == ng
      modifies this
      ensures Valid()
      ensures nspins == 2 ==> ntg == Add(ntSg[0], ntSg[1])
      ensures nspins == 1 ==> ntg == old(ntg)
      ensures rhotg == Add(FineTotal(), ghat)
      ensures r == ChargeCheck(Integrate(rhotg, fineDv) + charge)
      ensures nctG == old(nctG) && ntSG == old(ntSG) && ntSg == old(ntSg) && dm == old(dm)
    {
      if nspins == 2 {
        ntg := Add(ntSg[0], ntSg[1]);
      }
      rhotg := Add(FineTotal(), ghat);
      var excess := Integrate(rhotg, fineDv) + charge;
      if Abs(excess) > ChargeTolerance {
        return Err(ChargeNotConserved(excess));
      }
      r := Ok(());
    }

    /** The coarse densities `update` builds: each spin's k-point
        contributions plus the smooth core density. */
    function UpdatedDensity(cs: seq<KptContribution>, core: seq<real>): (r: seq<seq<real>>)
      ensures SpinArrays(r, nG)
      ensures forall s :: 0 <= s < nspins ==> r[s] == Add(SpinDensity(cs, s, nG, |cs|), core)
    {
      seq(nspins, s requires 0 <= s < nspins => Add(SpinDensity(cs, s, nG, |cs|), core))
    }

    /** Each spin of the updated density holds the electrons of its
        contributions plus those of the core density. */
    lemma UpdatedElectrons(cs: seq<KptContribution>, core: seq<real>, s: nat)
      requires s < nspins && |core| == nG && forall j :: 0 <= j < |cs| ==> |cs[j].density| == nG
      ensures Sum(UpdatedDensity(cs, core)[s]) == SpinElectrons(cs, s, |cs|) + Sum(core)
    {
      SpinDensityElectrons(cs, s, nG, |cs|);
      SumAdd(SpinDensity(cs, s, nG, |cs|), core);
    }

    /** `update` with k-point contributions `cs` and the density matrices
        `dNew` computed from the projections: nothing changes with a fixed
        density; otherwise the coarse density is rebuilt from zero, the
        matrices replaced and the fine density interpolated. */
    method Update(cs: seq<KptContribution>, dNew: seq<seq<seq<real>>>)
      requires Valid() && MatricesShaped(nuclei, dNew, nspins)
      requires forall j :: 0 <= j < |cs| ==> cs[j].s < nspins && |cs[j].density| == nG
      modifies this
      ensures Valid()
      ensures fixdensity ==> ntSG == old(ntSG) && ntSg == old(ntSg) && dm == old(dm)
      ensures !fixdensity ==> ntSG == UpdatedDensity(cs, nctG) && dm == dNew && ntSg == FineDensity(ntSG)
      ensures nctG == old(nctG) && ntg == old(ntg) && rhotg == old(rhotg)
    {
      if fixdensity {
        return;
      }
      ntSG := seq(nspins, _ => Zeros(nG));
      var k := 0;
      while k < |cs|
        invariant k <= |cs| && SpinArrays(ntSG, nG)
        invariant forall s :: 0 <= s < nspins ==> ntSG[s] == SpinDensity(cs, s, nG, k)
        invariant nctG == old(nctG) && ntSg == old(ntSg) && ntg == old(ntg) && rhotg == old(rhotg) && dm == old(dm)
      {
        ntSG := ntSG[cs[k].s := Add(ntSG[cs[k].s], cs[k].density)];
        k := k + 1;
      }
      var acc, core := ntSG, nctG;
      ntSG := seq(nspins, s requires 0 <= s < nspins => Add(acc[s], core));
      assert ntSG == UpdatedDensity(cs, nctG);
      dm := dNew;
      InterpolatePseudoDensity();
    }

    /** `move` with the smooth core density `core[a]` of each nucleus: the
        core density is rebuilt from zero as their sum. */
    method Move(core: seq<seq<real>>)
      requires Valid() && forall a :: 0 <= a < |core| ==> |core[a]| == nG
      modifies this
      ensures Valid()
      ensures nctG == ArraySum(core, nG, |core|)
      ensures ntSG == old(ntSG) && ntSg == old(ntSg) && ntg == old(ntg) && rhotg == old(rhotg) && dm == old(dm)
    {
      nctG := Zeros(nG);
      var a := 0;
      while a < |core|
        invariant a <= |core| && nctG == ArraySum(core, nG, a)
        invariant ntSG == old(ntSG) && ntSg == old(ntSg) && ntg == old(ntg) && rhotg == old(rhotg) && dm == old(dm)
      {
        nctG := Add(nctG, core[a]);
        a := a + 1;
      }
    }
  }
}
