/** The band bookkeeping of one k-point (`gpaw/kpoint.py`, class
    `KPoint`): the root rank, the band arrays, changing the number of
    bands, the band contribution to the pseudo density and filling the
    wave functions from atomic orbitals.

    A wave function is its values on the points of the grid; complex
    values carry their real and imaginary parts (a real wave function has
    imaginary parts zero). What the grid descriptor, the random wave
    functions and the nuclei compute are inputs. */
module Kpoint {
  import opened Common

  datatype Complex = Complex(re: real, im: real)

  type Wave = seq<Complex>

  /** |z|^2. */
  function Abs2(z: Complex): (r: real)
    ensures r >= 0.0
    ensures z.im == 0.0 ==> r == z.re * z.re
  {
    z.re * z.re + z.im * z.im
  }

  /** The real part of conj(a) * t * b. */
  function Cross(a: Complex, t: Complex, b: Complex): real
  {
    var at := Complex(a.re * t.re + a.im * t.im, a.re * t.im - a.im * t.re);
    at.re * b.re - at.im * b.im
  }

  /** |t| > 1e-12, stated on |t|^2 so that no square root is needed. */
  predicate Significant(t: Complex)
  {
    Abs2(t) > 0.000000000000000000000001
  }

  predicate WavesOn(psit: seq<Wave>, size: nat)
  {
    forall n :: 0 <= n < |psit| ==> |psit[n]| == size
  }

  function MinNat(a: nat, b: nat): nat { if a < b then a else b }

  // ---------------------------------------------------------------------
  // The density of the bands at grid point g
  // ---------------------------------------------------------------------

  /** sum over the first n bands of f_n |psit_n(g)|^2 (the zip of the
      wave functions with the occupations). */
  function BandDensity(psit: seq<Wave>, f: seq<real>, n: nat, g: nat): real
    requires n <= |psit| && n <= |f|
  {
    if n == 0 then 0.0
    else BandDensity(psit, f, n - 1, g) + (if g < |psit[n - 1]| then f[n - 1] * Abs2(psit[n - 1][g]) else 0.0)
  }

  /** The delta-SCF terms of one row ft_n and band m, over the first n
      entries: only entries with |ft| > 1e-12 contribute. */
  function DeltaRow(ftN: seq<Complex>, psit: seq<Wave>, psiM: Wave, n: nat, g: nat): real
    requires n <= |ftN| && n <= |psit|
  {
    if n == 0 then 0.0
    else
      DeltaRow(ftN, psit, psiM, n - 1, g)
      + (if Significant(ftN[n - 1]) && g < |psiM| && g < |psit[n - 1]| then Cross(psiM[g], ftN[n - 1], psit[n - 1][g]) else 0.0)
  }

  /** The terms of one matrix ft_mn over its first m rows. */
  function DeltaMatrix(ftMN: seq<seq<Complex>>, psit: seq<Wave>, m: nat, g: nat): real
    requires m <= |ftMN| && m <= |psit|
  {
    if m == 0 then 0.0
    else
      var row := ftMN[m - 1];
      DeltaMatrix(ftMN, psit, m - 1, g) + DeltaRow(row, psit, psit[m - 1], MinNat(|row|, |psit|), g)
  }

  /** The terms of the first o matrices of ft_omn. */
  function DeltaDensity(ftOMN: seq<seq<seq<Complex>>>, psit: seq<Wave>, o: nat, g: nat): real
    requires o <= |ftOMN|
  {
    if o == 0 then 0.0
    else
      var mat := ftOMN[o - 1];
      DeltaDensity(ftOMN, psit, o - 1, g) + DeltaMatrix(mat, psit, MinNat(|mat|, |psit|), g)
  }

  /** With non-negative occupations the bands only add density. */
  lemma {:induction false} BandDensityNonNegative(psit: seq<Wave>, f: seq<real>, n: nat, g: nat)
    requires n <= |psit| && n <= |f| && forall b :: 0 <= b < n ==> f[b] >= 0.0
    ensures BandDensity(psit, f, n, g) >= 0.0
  {
    if n > 0 {
      BandDensityNonNegative(psit, f, n - 1, g);
      if g < |psit[n - 1]| {
        NonNegativeProduct(f[n - 1], Abs2(psit[n - 1][g]));
      }
    }
  }

  lemma NonNegativeProduct(a: real, b: real)
    requires a >= 0.0 && b >= 0.0
    ensures a * b >= 0.0
  {
  }

  /** Delta-SCF coefficients with |ft| <= 1e-12 add nothing. */
  lemma {:induction false} DeltaRowInsignificant(ftN: seq<Complex>, psit: seq<Wave>, psiM: Wave, n: nat, g: nat)
    requires n <= |ftN| && n <= |psit| && forall i :: 0 <= i < n ==> !Significant(ftN[i])
    ensures DeltaRow(ftN, psit, psiM, n, g) == 0.0
  {
    if n > 0 {
      DeltaRowInsignificant(ftN, psit, psiM, n - 1, g);
    }
  }

  predicate Insignificant(ftOMN: seq<seq<seq<Complex>>>)
  {
    forall o, m, n :: 0 <= o < |ftOMN| && 0 <= m < |ftOMN[o]| && 0 <= n < |ftOMN[o][m]| ==> !Significant(ftOMN[o][m][n])
  }

  lemma {:induction false} DeltaDensityInsignificant(ftOMN: seq<seq<seq<Complex>>>, psit: seq<Wave>, o: nat, g: nat)
    requires o <= |ftOMN| && Insignificant(ftOMN)
    ensures DeltaDensity(ftOMN, psit, o, g) == 0.0
  {
    if o > 0 {
      DeltaDensityInsignificant(ftOMN, psit, o - 1, g);
      var mat := ftOMN[o - 1];
      DeltaMatrixInsignificant(mat, psit, MinNat(|mat|, |psit|), g, o - 1, ftOMN);
    }
  }

  lemma {:induction false} DeltaMatrixInsignificant(ftMN: seq<seq<Complex>>, psit: seq<Wave>, m: nat, g: nat,
                                                    o: nat, ftOMN: seq<seq<seq<Complex>>>)
    requires o < |ftOMN| && ftMN == ftOMN[o] && Insignificant(ftOMN)
    requires m <= |ftMN| && m <= |psit|
    ensures DeltaMatrix(ftMN, psit, m, g) == 0.0
  {
    if m > 0 {
      DeltaMatrixInsignificant(ftMN, psit, m - 1, g, o, ftOMN);
      var row := ftMN[m - 1];
      assert forall i :: 0 <= i < |row| ==> !Significant(row[i]) by {
        assert row == ftOMN[o][m - 1];
      }
      DeltaRowInsignificant(row, psit, psit[m - 1], MinNat(|row|, |psit|), g);
    }
  }

  // ---------------------------------------------------------------------
  // Changing the number of bands
  // ---------------------------------------------------------------------

  /** The eigenvalues after `adjust_number_of_bands(nbands)` from `eps`:
      the first min(nao, nbands) are kept and the extra bands get
      eps[nao - 1] + 0.5. Freshly allocated entries read as 0.0, which is
      what an extra band gets from index -1 when nao is 0. */
  function AdjustedEigenvalues(eps: seq<real>, nbands: nat): (r: seq<real>)
    ensures |r| == nbands
    ensures r[..MinNat(|eps|, nbands)] == eps[..MinNat(|eps|, nbands)]
    ensures |eps| > 0 ==> forall i :: |eps| <= i < nbands ==> r[i] == eps[|eps| - 1] + 0.5
  {
    var nao := |eps|;
    var last := if nao > 0 then eps[nao - 1] else 0.0;
    seq(nbands, i requires 0 <= i < nbands => if i < nao then eps[i] else last + 0.5)
  }

  /** Shrinking to m bands and growing back to |eps| keeps the first m
      eigenvalues and gives the others eps[m - 1] + 0.5. */
  lemma ShrinkThenGrow(eps: seq<real>, m: nat)
    requires 0 < m <= |eps|
    ensures var r := AdjustedEigenvalues(AdjustedEigenvalues(eps, m), |eps|);
            r[..m] == eps[..m] && forall i :: m <= i < |eps| ==> r[i] == eps[m - 1] + 0.5
  {
    var s := AdjustedEigenvalues(eps, m);
    assert s[m - 1] == eps[m - 1] by {
      assert s[..m][m - 1] == eps[..m][m - 1];
    }
  }

  /** Growing and shrinking back restores the eigenvalues. */
  lemma GrowThenShrink(eps: seq<real>, m: nat)
    requires |eps| <= m
    ensures AdjustedEigenvalues(AdjustedEigenvalues(eps, m), |eps|) == eps
  {
    var s := AdjustedEigenvalues(eps, m);
    assert s[..|eps|] == eps;
  }

  // ---------------------------------------------------------------------
  // Atomic orbitals
  // ---------------------------------------------------------------------

  /** A nucleus with the wave functions of its atomic orbitals at this
      k-point (what `nucleus.create_atomic_orbitals` writes). */
  datatype Nucleus = Nucleus(orbitals: seq<Wave>)

  /** The number of orbitals of the first n nuclei. */
  function Offset(nuclei: seq<Nucleus>, n: nat): nat
    requires n <= |nuclei|
  {
    if n == 0 then 0 else Offset(nuclei, n - 1) + |nuclei[n - 1].orbitals|
  }

  /** The orbitals of the first n nuclei, one contiguous slice per nucleus. */
  function Orbitals(nuclei: seq<Nucleus>, n: nat): (r: seq<Wave>)
    requires n <= |nuclei|
    ensures |r| == Offset(nuclei, n)
  {
    if n == 0 then [] else Orbitals(nuclei, n - 1) + nuclei[n - 1].orbitals
  }

  /** Orbital i of nucleus b sits at Offset(b) + i. */
  lemma {:induction false} OrbitalSlices(nuclei: seq<Nucleus>, n: nat, b: nat, i: nat)
    requires b < n <= |nuclei| && i < |nuclei[b].orbitals|
    ensures Offset(nuclei, b) + i < Offset(nuclei, n)
    ensures Orbitals(nuclei, n)[Offset(nuclei, b) + i] == nuclei[b].orbitals[i]
  {
    if b < n - 1 {
      OrbitalSlices(nuclei, n - 1, b, i);
    }
  }

  // ---------------------------------------------------------------------
  // In-place accumulation into the density array
  // ---------------------------------------------------------------------

  /** `nt_G += v`. */
  method AddInPlace(nt: array<real>, v: seq<real>)
    requires |v| == nt.Length
    modifies nt
    ensures forall g :: 0 <= g < nt.Length ==> nt[g] == old(nt[g]) + v[g]
  {
    var g := 0;
    while g < nt.Length
      invariant 0 <= g <= nt.Length
      invariant forall g' :: 0 <= g' < g ==> nt[g'] == old(nt[g']) + v[g']
      invariant forall g' :: g <= g' < nt.Length ==> nt[g'] == old(nt[g'])
    {
      nt[g] := nt[g] + v[g];
      g := g + 1;
    }
  }

  /** The loop over the bands of `add_to_density`. */
  method AddBands(nt: array<real>, psit: seq<Wave>, f: seq<real>)
    requires WavesOn(psit, nt.Length)
    modifies nt
    ensures forall g :: 0 <= g < nt.Length ==> nt[g] == old(nt[g]) + BandDensity(psit, f, MinNat(|psit|, |f|), g)
  {
    var n := 0;
    while n < MinNat(|psit|, |f|)
      invariant 0 <= n <= MinNat(|psit|, |f|)
      invariant forall g :: 0 <= g < nt.Length ==> nt[g] == old(nt[g]) + BandDensity(psit, f, n, g)
    {
      var psi, fn := psit[n], f[n];
      AddInPlace(nt, seq(nt.Length, g requires 0 <= g < nt.Length => fn * Abs2(psi[g])));
      n := n + 1;
    }
  }

  /** The innermost delta-SCF loop, over (ft, psi_n). */
  method AddDeltaRow(nt: array<real>, ftN: seq<Complex>, psit: seq<Wave>, psiM: Wave)
    requires WavesOn(psit, nt.Length) && |psiM| == nt.Length
    modifies nt
    ensures forall g :: 0 <= g < nt.Length ==> nt[g] == old(nt[g]) + DeltaRow(ftN, psit, psiM, MinNat(|ftN|, |psit|), g)
  {
    var n := 0;
    while n < MinNat(|ftN|, |psit|)
      invariant 0 <= n <= MinNat(|ftN|, |psit|)
      invariant forall g :: 0 <= g < nt.Length ==> nt[g] == old(nt[g]) + DeltaRow(ftN, psit, psiM, n, g)
    {
      var ft, psiN := ftN[n], psit[n];
      if Significant(ft) {
        AddInPlace(nt, seq(nt.Length, g requires 0 <= g < nt.Length => Cross(psiM[g], ft, psiN[g])));
      }
      n := n + 1;
    }
  }

  /** The loop over (ft_n, psi_m) of one matrix. */
  method AddDeltaMatrix(nt: array<real>, ftMN: seq<seq<Complex>>, psit: seq<Wave>)
    requires WavesOn(psit, nt.Length)
    modifies nt
    ensures forall g :: 0 <= g < nt.Length ==> nt[g] == old(nt[g]) + DeltaMatrix(ftMN, psit, MinNat(|ftMN|, |psit|), g)
  {
    var m := 0;
    while m < MinNat(|ftMN|, |psit|)
      invariant 0 <= m <= MinNat(|ftMN|, |psit|)
      invariant forall g :: 0 <= g < nt.Length ==> nt[g] == old(nt[g]) + DeltaMatrix(ftMN, psit, m, g)
    {
      AddDeltaRow(nt, ftMN[m], psit, psit[m]);
      m := m + 1;
    }
  }

  /** The loop over the matrices ft_mn of ft_omn. */
  method AddDelta(nt: array<real>, ftOMN: seq<seq<seq<Complex>>>, psit: seq<Wave>)
    requires WavesOn(psit, nt.Length)
    modifies nt
    ensures forall g :: 0 <= g < nt.Length ==> nt[g] == old(nt[g]) + DeltaDensity(ftOMN, psit, |ftOMN|, g)
  {
    var o := 0;
    while o < |ftOMN|
      invariant 0 <= o <= |ftOMN|
      invariant forall g :: 0 <= g < nt.Length ==> nt[g] == old(nt[g]) + DeltaDensity(ftOMN, psit, o, g)
    {
      AddDeltaMatrix(nt, ftOMN[o], psit);
      o := o + 1;
    }
  }

  /** The wave functions of the atomic orbitals written into `nao` zeroed
      bands, one slice per nucleus; a slice past the end of the bands is
      cut off, as a numpy slice is. */
  method FillOrbitals(nao: nat, size: nat, nuclei: seq<Nucleus>) returns (psit: seq<Wave>, total: nat)
    ensures |psit| == nao && total == Offset(nuclei, |nuclei|)
    ensures total == nao ==> psit == Orbitals(nuclei, |nuclei|)
  {
    psit := seq(nao, _ => seq(size, _ => Complex(0.0, 0.0)));
    var nao0 := 0;
    var b := 0;
    while b < |nuclei|
      invariant 0 <= b <= |nuclei| && nao0 == Offset(nuclei, b) && |psit| == nao
      invariant nao0 <= nao ==> psit[..nao0] == Orbitals(nuclei, b)
    {
      var nao1 := nao0 + |nuclei[b].orbitals|;
      if nao0 < nao {
        var stop := MinNat(nao1, nao);
        psit := psit[..nao0] + nuclei[b].orbitals[..stop - nao0] + psit[stop..];
      }
      nao0 := nao1;
      b := b + 1;
    }
    total := nao0;
  }

  /** One spin and k-point: its indices, weight and band arrays. */
  class KPoint {
    var weight: real
    var s: nat
    var k: nat
    var u: nat
    /** The grid of the wave functions: its number of points and the size
        of its domain communicator. */
    var gridSize: nat
    var commSize: nat
    var root: nat
    var nbands: nat
    var epsN: seq<real>
    var fN: seq<real>
    /** `psit_nG`: None until the wave functions are created. */
    var psit: Option<seq<Wave>>
    /** `ft_omn` of a delta-SCF calculation, when the attribute is set. */
    var ftOMN: Option<seq<seq<seq<Complex>>>>

    predicate Valid()
      reads this
    {
      commSize > 0 && root == u % commSize && root < commSize && |epsN| == nbands && |fN| == nbands
    }

    /** `KPoint(gd, weight, s, k, u, ...)`. The band arrays are empty until
        `allocate`. */
    constructor (gridSize: nat, commSize: nat, weight: real, s: nat, k: nat, u: nat)
      requires commSize > 0
      ensures Valid()
      ensures this.gridSize == gridSize && this.commSize == commSize && this.weight == weight
      ensures this.s == s && this.k == k && this.u == u && root == u % commSize
      ensures nbands == 0 && psit == None && ftOMN == None
    {
      this.weight, this.s, this.k, this.u := weight, s, k, u;
      this.gridSize, this.commSize := gridSize, commSize;
      root := u % commSize;
      nbands, epsN, fN := 0, [], [];
      psit, ftOMN := None, None;
    }

    /** `set_grid_descriptor`: the root is u modulo the communicator size. */
    method SetGridDescriptor(gridSize: nat, commSize: nat)
      requires Valid() && commSize > 0
      modifies this
      ensures Valid() && this.gridSize == gridSize && this.commSize == commSize
      ensures root == u % commSize && root < commSize
      ensures weight == old(weight) && s == old(s) && k == old(k) && u == old(u)
      ensures nbands == old(nbands) && epsN == old(epsN) && fN == old(fN) && psit == old(psit) && ftOMN == old(ftOMN)
    {
      this.gridSize, this.commSize := gridSize, commSize;
      root := u % commSize;
    }

    /** `allocate(nbands)`: eigenvalue and occupation arrays of length
        nbands (their contents unspecified by numpy; 0.0 here). */
    method Allocate(nbands: nat)
      requires Valid()
      modifies this
      ensures Valid() && this.nbands == nbands && epsN == Zeros(nbands) && fN == Zeros(nbands)
      ensures weight == old(weight) && s == old(s) && k == old(k) && u == old(u)
      ensures gridSize == old(gridSize) && commSize == old(commSize) && root == old(root)
      ensures psit == old(psit) && ftOMN == old(ftOMN)
    {
      this.nbands := nbands;
      epsN, fN := Zeros(nbands), Zeros(nbands);
    }

    /** `adjust_number_of_bands(nbands)`: a no-op when the count is
        unchanged; otherwise the first min(nao, nbands) wave functions and
        eigenvalues are kept, `extra` supplies the random wave functions
        of the bands beyond nao and the occupations are reallocated. */
    method AdjustNumberOfBands(nbands: nat, extra: seq<Wave>)
      requires Valid() && (nbands != this.nbands ==> psit.Some? && |psit.value| == this.nbands)
      requires |extra| == (if nbands > this.nbands then nbands - this.nbands else 0) && WavesOn(extra, gridSize)
      modifies this
      ensures Valid()
      ensures nbands == old(this.nbands) ==>
                this.nbands == old(this.nbands) && epsN == old(epsN) && fN == old(fN) && psit == old(psit)
      ensures nbands != old(this.nbands) ==>
                && this.nbands == nbands
                && psit == Some(old(psit.value)[..MinNat(old(this.nbands), nbands)] + extra)
                && epsN == AdjustedEigenvalues(old(epsN), nbands)
                && fN == Zeros(nbands)
      ensures weight == old(weight) && s == old(s) && k == old(k) && u == old(u)
      ensures gridSize == old(gridSize) && commSize == old(commSize) && root == old(root) && ftOMN == old(ftOMN)
    {
      if nbands == this.nbands {
        return;
      }
      var nao := this.nbands;
      var nmin := MinNat(nao, nbands);
      var tmpN := psit.value;
      var tmpEps := epsN;
      Allocate(nbands);
      psit := Some(tmpN[..nmin] + extra);
      epsN := tmpEps[..nmin] + epsN[nmin..];
      if nbands > nao {
        var last := epsN[if nao > 0 then nao - 1 else nbands - 1];
        epsN := epsN[..nao] + seq(nbands - nao, _ => last + 0.5);
      }
      assert epsN == AdjustedEigenvalues(tmpEps, nbands);
    }

    /** `add_to_density(nt_G)`: adds f_n |psit_n|^2 of every band, and
        the delta-SCF terms when `ft_omn` is set, to `nt_G` and changes
        nothing else. */
    method AddToDensity(nt: array<real>)
      requires Valid() && psit.Some? && WavesOn(psit.value, nt.Length)
      modifies nt
      ensures forall g :: 0 <= g < nt.Length ==>
                nt[g] == old(nt[g]) + BandDensity(psit.value, fN, MinNat(|psit.value|, |fN|), g)
                         + (if ftOMN.Some? then DeltaDensity(ftOMN.value, psit.value, |ftOMN.value|, g) else 0.0)
    {
      AddBands(nt, psit.value, fN);
      if ftOMN.Some? {
        AddDelta(nt, ftOMN.value, psit.value);
      }
    }

    /** `create_atomic_orbitals(nao, nuclei)`: nao bands filled with the
        nuclei's orbitals, one contiguous slice each; `ok` is the final
        assertion that the slices total nao. */
    method CreateAtomicOrbitals(nao: nat, nuclei: seq<Nucleus>) returns (ok: bool)
      requires Valid()
      modifies this
      ensures Valid() && nbands == nao && epsN == Zeros(nao) && fN == Zeros(nao)
      ensures ok <==> Offset(nuclei, |nuclei|) == nao
      ensures psit.Some? && |psit.value| == nao
      ensures ok ==> psit == Some(Orbitals(nuclei, |nuclei|))
      ensures weight == old(weight) && s == old(s) && k == old(k) && u == old(u)
      ensures gridSize == old(gridSize) && commSize == old(commSize) && root == old(root) && ftOMN == old(ftOMN)
    {
      Allocate(nao);
      var filled, total := FillOrbitals(nao, gridSize, nuclei);
      psit := Some(filled);
      ok := total == nao;
    }
  }
}
