/** Kohn-Sham single-particle excitations (`gridpaw/excitation.py`): the
    list of transitions i -> j between the bands of a ground state whose
    occupation drops by more than `eps`, for every physical spin, and the
    oscillator strength of an excitation.

    The ground state is a value: its spin count and, per k-point, the
    occupations `f_n` and eigenvalues `eps_n` as reals. The dipole matrix
    element of a pair density (`gd.calculate_dipole_moment`) is a
    parameter, a function of (vspin, i, j). */
module Excitation {
  import opened Common

  datatype Vec3 = Vec3(x: real, y: real, z: real)

  function Component(v: Vec3, c: nat): real
    requires c < 3
  {
    if c == 0 then v.x else if c == 1 then v.y else v.z
  }

  /** `wf.kpt_u[u]`: occupations and eigenvalues of the bands. */
  datatype Kpt = Kpt(f: seq<real>, e: seq<real>)

  /** What the excitations read of a ground-state calculation. */
  datatype Calculator = Calculator(nspins: int, kpts: seq<Kpt>)

  datatype Error = NoCalculator | IndexError

  /** `KSSingle(i, j, pspin, vspin, paw)`. */
  datatype KSSingle = KSSingle(i: int, j: int, pspin: int, vspin: int, fij: real, energy: real, me: Vec3)

  datatype ExcitationList = ExcitationList(calculator: Calculator, transitions: seq<KSSingle>)

  /** A `KSSingles` object: its attributes and its transitions. */
  datatype KSSingles = KSSingles(calculator: Calculator, istart: int, jend: Option<int>,
                                 nvspins: int, npspins: int, transitions: seq<KSSingle>)

  /** `ExcitationList(calculator)`: an empty list, or a RuntimeError without
      a calculator. */
  function NewExcitationList(calculator: Option<Calculator>): (r: Result<ExcitationList, Error>)
    ensures r.Err? <==> calculator.None?
    ensures r.Err? ==> r.error == NoCalculator
    ensures r.Ok? ==> r.value.calculator == calculator.value && r.value.transitions == []
  {
    if calculator.None? then Err(NoCalculator) else Ok(ExcitationList(calculator.value, []))
  }

  // ---------------------------------------------------------------------
  // Spins and band bounds
  // ---------------------------------------------------------------------

  /** `npspins`: the spin count of the ground state, unless it is below 2
      and more spins are asked for (`None > n` is false in Python 2). */
  function PhysicalSpins(nvspins: int, nspins: Option<int>): (r: int)
    ensures r >= nvspins
    ensures r != nvspins <==> nvspins < 2 && nspins.Some? && nspins.value > nvspins
    ensures r != nvspins ==> r == nspins.value
  {
    if nvspins < 2 && nspins.Some? && nspins.value > nvspins then nspins.value else nvspins
  }

  /** `vspin`: the spin of the ground-state wave functions used for the
      physical spin `ispin`. */
  function VirtualSpin(nvspins: int, ispin: nat): nat
  {
    if nvspins < 2 then 0 else ispin
  }

  /** The upper band bound: `len(f)`, or `min(jend + 1, len(f))`. */
  function Bound(jend: Option<int>, n: nat): (r: int)
    ensures r <= n && (jend.Some? ==> r <= jend.value + 1)
    ensures jend.None? ==> r == n
    ensures jend.Some? ==> r == n || r == jend.value + 1
  {
    if jend.None? then n else Min(jend.value + 1, n)
  }

  function Min(a: int, b: int): int
  {
    if a < b then a else b
  }

  /** `s[i]` with Python's negative indices. */
  function At(s: seq<real>, i: int): real
    requires -|s| <= i < |s|
  {
    if i < 0 then s[i + |s|] else s[i]
  }

  predicate Accepted(f: seq<real>, eps: real, i: int, j: int)
    requires -|f| <= i < |f| && -|f| <= j < |f|
  {
    At(f, i) - At(f, j) > eps
  }

  predicate Bands(k: Kpt)
  {
    |k.e| == |k.f|
  }

  /** The transition i -> j of k-point k. */
  function MakeSingle(k: Kpt, i: int, j: int, pspin: int, vspin: int, moment: (int, int, int) -> Vec3): KSSingle
    requires Bands(k) && -|k.f| <= i < |k.f| && -|k.f| <= j < |k.f|
  {
    KSSingle(i, j, pspin, vspin, At(k.f, i) - At(k.f, j), At(k.e, j) - At(k.e, i), moment(vspin, i, j))
  }

  // ---------------------------------------------------------------------
  // The transitions, as specification functions
  // ---------------------------------------------------------------------

  /** The transitions from band i to the bands lo .. j-1. */
  function Row(k: Kpt, eps: real, lo: int, i: int, j: int, pspin: int, vspin: int, moment: (int, int, int) -> Vec3): seq<KSSingle>
    requires Bands(k) && -|k.f| <= lo && -|k.f| <= i < |k.f| && j <= |k.f|
    decreases j - lo
  {
    if j <= lo then []
    else
      Row(k, eps, lo, i, j - 1, pspin, vspin, moment)
      + (if Accepted(k.f, eps, i, j - 1) then [MakeSingle(k, i, j - 1, pspin, vspin, moment)] else [])
  }

  /** The transitions from the bands lo .. i-1 to the bands lo .. hi-1. */
  function Rows(k: Kpt, eps: real, lo: int, hi: int, i: int, pspin: int, vspin: int, moment: (int, int, int) -> Vec3): seq<KSSingle>
    requires Bands(k) && -|k.f| <= lo && hi <= |k.f| && i <= hi
    decreases i - lo
  {
    if i <= lo then []
    else Rows(k, eps, lo, hi, i - 1, pspin, vspin, moment) + Row(k, eps, lo, i - 1, hi, pspin, vspin, moment)
  }

  /** Band indices lo .. hi-1 exist (Python raises IndexError otherwise;
      an empty range reads nothing). */
  predicate Indexable(k: Kpt, lo: int, hi: int)
  {
    Bands(k) && hi <= |k.f| && (lo >= hi || -|k.f| <= lo)
  }

  /** The transitions of one physical spin. */
  function SpinSingles(k: Kpt, eps: real, lo: int, hi: int, pspin: int, vspin: int, moment: (int, int, int) -> Vec3): seq<KSSingle>
    requires Indexable(k, lo, hi)
  {
    if lo >= hi then [] else Rows(k, eps, lo, hi, hi, pspin, vspin, moment)
  }

  /** The k-point read for physical spin s, and whether reading it and its
      bands istart .. bound-1 raises no IndexError. */
  predicate SpinOk(gs: Calculator, s: nat, istart: int, jend: Option<int>)
  {
    var v := VirtualSpin(gs.nspins, s);
    v < |gs.kpts| && Indexable(gs.kpts[v], istart, Bound(jend, |gs.kpts[v].f|))
  }

  predicate AllSpinsOk(gs: Calculator, istart: int, jend: Option<int>, n: int)
  {
    forall s: nat :: s < n ==> SpinOk(gs, s, istart, jend)
  }

  function SpinTransitions(gs: Calculator, eps: real, istart: int, jend: Option<int>, s: nat,
                           moment: (int, int, int) -> Vec3): seq<KSSingle>
    requires SpinOk(gs, s, istart, jend)
  {
    var v := VirtualSpin(gs.nspins, s);
    var k := gs.kpts[v];
    SpinSingles(k, eps, istart, Bound(jend, |k.f|), s, v, moment)
  }

  /** The transitions of the physical spins 0 .. n-1, spin by spin. */
  function Transitions(gs: Calculator, eps: real, istart: int, jend: Option<int>, n: int,
                       moment: (int, int, int) -> Vec3): seq<KSSingle>
    requires AllSpinsOk(gs, istart, jend, n)
  {
    if n <= 0 then []
    else Transitions(gs, eps, istart, jend, n - 1, moment) + SpinTransitions(gs, eps, istart, jend, n - 1, moment)
  }

  // ---------------------------------------------------------------------
  // `KSSingles.__init__`
  // ---------------------------------------------------------------------

  /** `KSSingles(calculator, nspins, eps, istart, jend)`: a RuntimeError
      without a calculator, an IndexError when a spin's k-point or one of
      its bands does not exist, and otherwise the transitions of every
      physical spin. */
  method NewKSSingles(calculator: Option<Calculator>, nspins: Option<int>, eps: real, istart: int, jend: Option<int>,
                      moment: (int, int, int) -> Vec3)
    returns (r: Result<KSSingles, Error>)
    requires calculator.Some? ==> forall u :: 0 <= u < |calculator.value.kpts| ==> Bands(calculator.value.kpts[u])
    ensures calculator.None? ==> r == Err(NoCalculator)
    ensures calculator.Some? ==>
              var gs := calculator.value;
              var np := PhysicalSpins(gs.nspins, nspins);
              && (r.Err? <==> !AllSpinsOk(gs, istart, jend, np))
              && (r.Err? ==> r.error == IndexError)
              && (r.Ok? ==> r.value == KSSingles(gs, istart, jend, gs.nspins, np,
                                                 Transitions(gs, eps, istart, jend, np, moment)))
  {
    var list := NewExcitationList(calculator);
    if list.Err? {
      return Err(list.error);
    }
    var gs := calculator.value;
    var nvspins := gs.nspins;
    var npspins := PhysicalSpins(nvspins, nspins);
    var out: seq<KSSingle> := [];
    var ispin := 0;
    while ispin < npspins
      invariant 0 <= ispin && (npspins >= 0 ==> ispin <= npspins) && (npspins < 0 ==> ispin == 0)
      invariant AllSpinsOk(gs, istart, jend, ispin)
      invariant out == Transitions(gs, eps, istart, jend, ispin, moment)
    {
      var vspin := VirtualSpin(nvspins, ispin);
      if vspin >= |gs.kpts| {
        assert !SpinOk(gs, ispin, istart, jend);
        return Err(IndexError);
      }
      var k := gs.kpts[vspin];
      var hi := Bound(jend, |k.f|);
      if istart < hi && istart < -|k.f| {
        assert !SpinOk(gs, ispin, istart, jend);
        return Err(IndexError);
      }
      var spin := SpinPairs(k, eps, istart, hi, ispin, vspin, moment);
      out := out + spin;
      ispin := ispin + 1;
    }
    r := Ok(KSSingles(gs, istart, jend, nvspins, npspins, out));
  }

  /** The two loops over i and j for one spin. */
  method SpinPairs(k: Kpt, eps: real, lo: int, hi: int, pspin: int, vspin: int, moment: (int, int, int) -> Vec3)
    returns (out: seq<KSSingle>)
    requires Indexable(k, lo, hi)
    ensures out == SpinSingles(k, eps, lo, hi, pspin, vspin, moment)
  {
    out := [];
    if lo >= hi {
      return;
    }
    var i := lo;
    while i < hi
      invariant lo <= i <= hi
      invariant out == Rows(k, eps, lo, hi, i, pspin, vspin, moment)
    {
      var j := lo;
      var row: seq<KSSingle> := [];
      while j < hi
        invariant lo <= j <= hi
        invariant row == Row(k, eps, lo, i, j, pspin, vspin, moment)
      {
        if At(k.f, i) - At(k.f, j) > eps {
          row := row + [MakeSingle(k, i, j, pspin, vspin, moment)];
        }
        j := j + 1;
      }
      out := out + row;
      i := i + 1;
    }
  }

  // ---------------------------------------------------------------------
  // What the transitions are
  // ---------------------------------------------------------------------

  /** Every transition of a row starts at band i, ends at one of the
      bands lo .. j-1 and has an occupation drop above eps. */
  lemma {:induction false} RowMembers(k: Kpt, eps: real, lo: int, i: int, j: int, pspin: int, vspin: int,
                                      moment: (int, int, int) -> Vec3, t: KSSingle)
    requires Bands(k) && -|k.f| <= lo && -|k.f| <= i < |k.f| && j <= |k.f|
    requires t in Row(k, eps, lo, i, j, pspin, vspin, moment)
    ensures t.i == i && lo <= t.j < j && Accepted(k.f, eps, t.i, t.j)
    ensures t == MakeSingle(k, t.i, t.j, pspin, vspin, moment)
    decreases j - lo
  {
    if t in Row(k, eps, lo, i, j - 1, pspin, vspin, moment) {
      RowMembers(k, eps, lo, i, j - 1, pspin, vspin, moment, t);
    }
  }

  /** Every accepted transition from band i to lo .. j-1 is in the row. */
  lemma {:induction false} RowComplete(k: Kpt, eps: real, lo: int, i: int, j: int, pspin: int, vspin: int,
                                       moment: (int, int, int) -> Vec3, jj: int)
    requires Bands(k) && -|k.f| <= lo && -|k.f| <= i < |k.f| && j <= |k.f|
    requires lo <= jj < j && Accepted(k.f, eps, i, jj)
    ensures MakeSingle(k, i, jj, pspin, vspin, moment) in Row(k, eps, lo, i, j, pspin, vspin, moment)
    decreases j - lo
  {
    if jj < j - 1 {
      RowComplete(k, eps, lo, i, j - 1, pspin, vspin, moment, jj);
    }
  }

  /** t comes strictly before u in the order of (pspin, i, j). */
  predicate Before(t: KSSingle, u: KSSingle)
  {
    t.pspin < u.pspin || (t.pspin == u.pspin && (t.i < u.i || (t.i == u.i && t.j < u.j)))
  }

  predicate Ordered(s: seq<KSSingle>)
  {
    forall a, b :: 0 <= a < b < |s| ==> Before(s[a], s[b])
  }

  /** The concatenation of two ordered lists, all of the first before all
      of the second, is ordered. */
  lemma OrderedAppend(s: seq<KSSingle>, s': seq<KSSingle>)
    requires Ordered(s) && Ordered(s')
    requires forall a, b :: 0 <= a < |s| && 0 <= b < |s'| ==> Before(s[a], s'[b])
    ensures Ordered(s + s')
  {
    forall a, b | 0 <= a < b < |s + s'|
      ensures Before((s + s')[a], (s + s')[b])
    {
      if b < |s| {
        assert (s + s')[a] == s[a] && (s + s')[b] == s[b];
      } else if a < |s| {
        assert (s + s')[a] == s[a] && (s + s')[b] == s'[b - |s|];
      } else {
        assert (s + s')[a] == s'[a - |s|] && (s + s')[b] == s'[b - |s|];
      }
    }
  }

  lemma {:induction false} RowOrdered(k: Kpt, eps: real, lo: int, i: int, j: int, pspin: int, vspin: int,
                                      moment: (int, int, int) -> Vec3)
    requires Bands(k) && -|k.f| <= lo && -|k.f| <= i < |k.f| && j <= |k.f|
    ensures Ordered(Row(k, eps, lo, i, j, pspin, vspin, moment))
    decreases j - lo
  {
    if j > lo {
      var init := Row(k, eps, lo, i, j - 1, pspin, vspin, moment);
      RowOrdered(k, eps, lo, i, j - 1, pspin, vspin, moment);
      var last := if Accepted(k.f, eps, i, j - 1) then [MakeSingle(k, i, j - 1, pspin, vspin, moment)] else [];
      forall a, b | 0 <= a < |init| && 0 <= b < |last|
        ensures Before(init[a], last[b])
      {
        RowMembers(k, eps, lo, i, j - 1, pspin, vspin, moment, init[a]);
      }
      OrderedAppend(init, last);
    }
  }

  /** Every transition of the rows lo .. i-1 starts at one of those bands,
      ends at one of the bands lo .. hi-1, and is accepted. */
  lemma {:induction false} RowsMembers(k: Kpt, eps: real, lo: int, hi: int, i: int, pspin: int, vspin: int,
                                       moment: (int, int, int) -> Vec3, t: KSSingle)
    requires Bands(k) && -|k.f| <= lo && hi <= |k.f| && i <= hi
    requires t in Rows(k, eps, lo, hi, i, pspin, vspin, moment)
    ensures lo <= t.i < i && lo <= t.j < hi && Accepted(k.f, eps, t.i, t.j)
    ensures t == MakeSingle(k, t.i, t.j, pspin, vspin, moment)
    decreases i - lo
  {
    if t in Rows(k, eps, lo, hi, i - 1, pspin, vspin, moment) {
      RowsMembers(k, eps, lo, hi, i - 1, pspin, vspin, moment, t);
    } else {
      RowMembers(k, eps, lo, i - 1, hi, pspin, vspin, moment, t);
    }
  }

  lemma {:induction false} RowsComplete(k: Kpt, eps: real, lo: int, hi: int, i: int, pspin: int, vspin: int,
                                        moment: (int, int, int) -> Vec3, ii: int, jj: int)
    requires Bands(k) && -|k.f| <= lo && hi <= |k.f| && i <= hi
    requires lo <= ii < i && lo <= jj < hi && Accepted(k.f, eps, ii, jj)
    ensures MakeSingle(k, ii, jj, pspin, vspin, moment) in Rows(k, eps, lo, hi, i, pspin, vspin, moment)
    decreases i - lo
  {
    if ii < i - 1 {
      RowsComplete(k, eps, lo, hi, i - 1, pspin, vspin, moment, ii, jj);
    } else {
      RowComplete(k, eps, lo, ii, hi, pspin, vspin, moment, jj);
    }
  }

  lemma {:induction false} RowsOrdered(k: Kpt, eps: real, lo: int, hi: int, i: int, pspin: int, vspin: int,
                                       moment: (int, int, int) -> Vec3)
    requires Bands(k) && -|k.f| <= lo && hi <= |k.f| && i <= hi
    ensures Ordered(Rows(k, eps, lo, hi, i, pspin, vspin, moment))
    decreases i - lo
  {
    if i > lo {
      var init := Rows(k, eps, lo, hi, i - 1, pspin, vspin, moment);
      var last := Row(k, eps, lo, i - 1, hi, pspin, vspin, moment);
      RowsOrdered(k, eps, lo, hi, i - 1, pspin, vspin, moment);
      RowOrdered(k, eps, lo, i - 1, hi, pspin, vspin, moment);
      forall a, b | 0 <= a < |init| && 0 <= b < |last|
        ensures Before(init[a], last[b])
      {
        RowsMembers(k, eps, lo, hi, i - 1, pspin, vspin, moment, init[a]);
        RowMembers(k, eps, lo, i - 1, hi, pspin, vspin, moment, last[b]);
      }
      OrderedAppend(init, last);
    }
  }

  /** The transitions of one spin are exactly the accepted pairs (i, j)
      with istart <= i, j < bound, in the loops' order; with eps >= 0 none
      stays on its band and no pair is taken in both directions. */
  lemma SpinSinglesExactly(k: Kpt, eps: real, lo: int, hi: int, pspin: int, vspin: int, moment: (int, int, int) -> Vec3)
    requires Indexable(k, lo, hi)
    ensures forall t :: t in SpinSingles(k, eps, lo, hi, pspin, vspin, moment) ==>
              && lo <= t.i < hi && lo <= t.j < hi && Accepted(k.f, eps, t.i, t.j)
              && t == MakeSingle(k, t.i, t.j, pspin, vspin, moment)
    ensures forall i, j :: lo <= i < hi && lo <= j < hi && Accepted(k.f, eps, i, j) ==>
              MakeSingle(k, i, j, pspin, vspin, moment) in SpinSingles(k, eps, lo, hi, pspin, vspin, moment)
    ensures Ordered(SpinSingles(k, eps, lo, hi, pspin, vspin, moment))
  {
    if lo < hi {
      forall t | t in SpinSingles(k, eps, lo, hi, pspin, vspin, moment)
        ensures lo <= t.i < hi && lo <= t.j < hi && Accepted(k.f, eps, t.i, t.j)
        ensures t == MakeSingle(k, t.i, t.j, pspin, vspin, moment)
      {
        RowsMembers(k, eps, lo, hi, hi, pspin, vspin, moment, t);
      }
      forall i, j | lo <= i < hi && lo <= j < hi && Accepted(k.f, eps, i, j)
        ensures MakeSingle(k, i, j, pspin, vspin, moment) in SpinSingles(k, eps, lo, hi, pspin, vspin, moment)
      {
        RowsComplete(k, eps, lo, hi, hi, pspin, vspin, moment, i, j);
      }
      RowsOrdered(k, eps, lo, hi, hi, pspin, vspin, moment);
    }
  }

  /** With eps >= 0 a transition never stays on its band and (i, j) and
      (j, i) are never both taken. */
  lemma NoSymmetricPairs(k: Kpt, eps: real, lo: int, hi: int, pspin: int, vspin: int, moment: (int, int, int) -> Vec3)
    requires Indexable(k, lo, hi) && eps >= 0.0
    ensures forall t :: t in SpinSingles(k, eps, lo, hi, pspin, vspin, moment) ==> t.i != t.j
    ensures forall t, u :: t in SpinSingles(k, eps, lo, hi, pspin, vspin, moment) && u in SpinSingles(k, eps, lo, hi, pspin, vspin, moment)
              ==> !(t.i == u.j && t.j == u.i)
  {
    SpinSinglesExactly(k, eps, lo, hi, pspin, vspin, moment);
  }

  /** A transition's weight is the occupation drop f[i] - f[j] and its
      energy the eigenvalue rise e[j] - e[i]. */
  lemma WeightAndEnergy(k: Kpt, eps: real, lo: int, hi: int, pspin: int, vspin: int, moment: (int, int, int) -> Vec3, t: KSSingle)
    requires Indexable(k, lo, hi) && t in SpinSingles(k, eps, lo, hi, pspin, vspin, moment)
    ensures -|k.f| <= t.i < |k.f| && -|k.f| <= t.j < |k.f|
    ensures t.fij == At(k.f, t.i) - At(k.f, t.j) && t.fij > eps
    ensures t.energy == At(k.e, t.j) - At(k.e, t.i)
    ensures t.pspin == pspin && t.vspin == vspin && t.me == moment(vspin, t.i, t.j)
  {
    SpinSinglesExactly(k, eps, lo, hi, pspin, vspin, moment);
  }

  /** Every transition of physical spin s carries s and the spin it reads. */
  lemma SpinOf(gs: Calculator, eps: real, istart: int, jend: Option<int>, s: nat,
               moment: (int, int, int) -> Vec3, t: KSSingle)
    requires SpinOk(gs, s, istart, jend) && t in SpinTransitions(gs, eps, istart, jend, s, moment)
    ensures t.pspin == s && t.vspin == VirtualSpin(gs.nspins, s)
  {
    var v := VirtualSpin(gs.nspins, s);
    var k := gs.kpts[v];
    WeightAndEnergy(k, eps, istart, Bound(jend, |k.f|), s, v, moment, t);
  }

  /** Every transition of the spins 0 .. n-1 has one of those spins. */
  lemma {:induction false} TransitionSpinRange(gs: Calculator, eps: real, istart: int, jend: Option<int>, n: int,
                                               moment: (int, int, int) -> Vec3, t: KSSingle)
    requires AllSpinsOk(gs, istart, jend, n) && t in Transitions(gs, eps, istart, jend, n, moment)
    ensures 0 <= t.pspin < n
    decreases n
  {
    if n > 0 {
      if t in Transitions(gs, eps, istart, jend, n - 1, moment) {
        TransitionSpinRange(gs, eps, istart, jend, n - 1, moment, t);
      } else {
        SpinOf(gs, eps, istart, jend, n - 1, moment, t);
      }
    }
  }

  lemma {:induction false} TransitionMember(gs: Calculator, eps: real, istart: int, jend: Option<int>, n: int,
                                            moment: (int, int, int) -> Vec3, t: KSSingle)
    requires AllSpinsOk(gs, istart, jend, n) && t in Transitions(gs, eps, istart, jend, n, moment)
    ensures 0 <= t.pspin < n
    ensures SpinOk(gs, t.pspin, istart, jend) && t in SpinTransitions(gs, eps, istart, jend, t.pspin, moment)
    decreases n
  {
    if n > 0 {
      if t in Transitions(gs, eps, istart, jend, n - 1, moment) {
        TransitionMember(gs, eps, istart, jend, n - 1, moment, t);
      } else {
        SpinOf(gs, eps, istart, jend, n - 1, moment, t);
      }
    }
  }

  /** Every transition of a spin below n is among those of the spins 0 .. n-1. */
  lemma {:induction false} TransitionComplete(gs: Calculator, eps: real, istart: int, jend: Option<int>, n: int, s: nat,
                                              moment: (int, int, int) -> Vec3, t: KSSingle)
    requires AllSpinsOk(gs, istart, jend, n) && s < n && t in SpinTransitions(gs, eps, istart, jend, s, moment)
    ensures t in Transitions(gs, eps, istart, jend, n, moment)
    decreases n
  {
    if s < n - 1 {
      TransitionComplete(gs, eps, istart, jend, n - 1, s, moment, t);
    }
  }

  lemma SpinTransitionsOrdered(gs: Calculator, eps: real, istart: int, jend: Option<int>, s: nat,
                               moment: (int, int, int) -> Vec3)
    requires SpinOk(gs, s, istart, jend)
    ensures Ordered(SpinTransitions(gs, eps, istart, jend, s, moment))
  {
    var v := VirtualSpin(gs.nspins, s);
    var k := gs.kpts[v];
    var hi := Bound(jend, |k.f|);
    if istart < hi {
      RowsOrdered(k, eps, istart, hi, hi, s, v, moment);
    }
  }

  /** The transitions come in the loops' order: by physical spin, then i, then j. */
  lemma {:induction false} TransitionsOrdered(gs: Calculator, eps: real, istart: int, jend: Option<int>, n: int,
                                              moment: (int, int, int) -> Vec3)
    requires AllSpinsOk(gs, istart, jend, n)
    ensures Ordered(Transitions(gs, eps, istart, jend, n, moment))
    decreases n
  {
    if n > 0 {
      var init := Transitions(gs, eps, istart, jend, n - 1, moment);
      var last := SpinTransitions(gs, eps, istart, jend, n - 1, moment);
      TransitionsOrdered(gs, eps, istart, jend, n - 1, moment);
      SpinTransitionsOrdered(gs, eps, istart, jend, n - 1, moment);
      forall a, b | 0 <= a < |init| && 0 <= b < |last|
        ensures Before(init[a], last[b])
      {
        TransitionSpinRange(gs, eps, istart, jend, n - 1, moment, init[a]);
        SpinOf(gs, eps, istart, jend, n - 1, moment, last[b]);
      }
      OrderedAppend(init, last);
    }
  }

  /** A transition of `KSSingles` is an accepted pair of bands of the
      k-point its physical spin reads: its own spin, or spin 0 for an
      unpolarised ground state. */
  lemma TransitionIsAccepted(gs: Calculator, eps: real, istart: int, jend: Option<int>, n: int,
                             moment: (int, int, int) -> Vec3, t: KSSingle)
    requires AllSpinsOk(gs, istart, jend, n) && t in Transitions(gs, eps, istart, jend, n, moment)
    ensures 0 <= t.pspin < n
    ensures t.vspin == if gs.nspins < 2 then 0 else t.pspin
    ensures 0 <= t.vspin < |gs.kpts|
    ensures var k := gs.kpts[t.vspin];
            && istart <= t.i < Bound(jend, |k.f|) && istart <= t.j < Bound(jend, |k.f|)
            && Bands(k) && -|k.f| <= t.i && -|k.f| <= t.j
            && Accepted(k.f, eps, t.i, t.j) && t == MakeSingle(k, t.i, t.j, t.pspin, t.vspin, moment)
  {
    TransitionMember(gs, eps, istart, jend, n, moment, t);
    SpinOf(gs, eps, istart, jend, t.pspin, moment, t);
    var k := gs.kpts[t.vspin];
    SpinSinglesExactly(k, eps, istart, Bound(jend, |k.f|), t.pspin, t.vspin, moment);
  }

  /** Conversely every accepted pair of bands istart .. bound-1 of the
      k-point read by a physical spin below n is a transition. */
  lemma AcceptedIsTransition(gs: Calculator, eps: real, istart: int, jend: Option<int>, n: int, s: nat,
                             moment: (int, int, int) -> Vec3, i: int, j: int)
    requires AllSpinsOk(gs, istart, jend, n) && s < n && SpinOk(gs, s, istart, jend)
    requires var k := gs.kpts[VirtualSpin(gs.nspins, s)];
             istart <= i < Bound(jend, |k.f|) && istart <= j < Bound(jend, |k.f|) && Accepted(k.f, eps, i, j)
    ensures var v := VirtualSpin(gs.nspins, s);
            MakeSingle(gs.kpts[v], i, j, s, v, moment) in Transitions(gs, eps, istart, jend, n, moment)
  {
    var v := VirtualSpin(gs.nspins, s);
    var k := gs.kpts[v];
    SpinSinglesExactly(k, eps, istart, Bound(jend, |k.f|), s, v, moment);
    TransitionComplete(gs, eps, istart, jend, n, s, moment, MakeSingle(k, i, j, s, v, moment));
  }

  // ---------------------------------------------------------------------
  // `Excitation.GetOszillatorStrength`
  // ---------------------------------------------------------------------

  /** `[s/3, 2 me_x^2, 2 me_y^2, 2 me_z^2]` with s the sum of the last three. */
  method OscillatorStrength(me: Vec3) returns (osz: seq<real>)
    ensures |osz| == 4
    ensures forall c :: 0 <= c < 3 ==> osz[c + 1] == Strength(me, c)
    ensures osz[0] == (osz[1] + osz[2] + osz[3]) / 3.0
    ensures forall c :: 0 <= c < 4 ==> osz[c] >= 0.0
  {
    osz := [0.0];
    var c := 0;
    while c < 3
      invariant 0 <= c <= 3 && |osz| == c + 1
      invariant forall d :: 0 <= d < c ==> osz[d + 1] == Strength(me, d)
      invariant osz[0] == Strengths(osz, 1, c + 1) / 3.0
    {
      var val := Strength(me, c);
      var grown := osz + [val];
      StrengthsAppend(osz, val, 1, c + 1);
      StrengthsUpdate(grown, 0, grown[0] + val / 3.0, 1, c + 2);
      osz := grown[0 := grown[0] + val / 3.0];
      c := c + 1;
    }
    assert Strengths(osz, 3, 4) == osz[3];
    assert Strengths(osz, 2, 4) == osz[2] + osz[3];
    assert osz[1] == Strength(me, 0) && osz[2] == Strength(me, 1) && osz[3] == Strength(me, 2);
    StrengthNonNegative(me, 0);
    StrengthNonNegative(me, 1);
    StrengthNonNegative(me, 2);
  }

  /** s[a] + ... + s[b-1]. */
  function Strengths(s: seq<real>, a: nat, b: nat): real
    requires a <= b <= |s|
    decreases b - a
  {
    if a == b then 0.0 else s[a] + Strengths(s, a + 1, b)
  }

  lemma {:induction false} StrengthsAppend(s: seq<real>, x: real, a: nat, b: nat)
    requires a <= b == |s|
    ensures Strengths(s + [x], a, b + 1) == Strengths(s, a, b) + x
    decreases b - a
  {
    if a < b {
      StrengthsAppend(s, x, a + 1, b);
      assert (s + [x])[a] == s[a];
    }
  }

  lemma {:induction false} StrengthsUpdate(s: seq<real>, k: nat, x: real, a: nat, b: nat)
    requires k < a <= b <= |s|
    ensures Strengths(s[k := x], a, b) == Strengths(s, a, b)
    decreases b - a
  {
    if a < b {
      StrengthsUpdate(s, k, x, a + 1, b);
    }
  }

  /** `2 * me[c]**2`, the strength along axis c. */
  function Strength(me: Vec3, c: nat): real
    requires c < 3
  {
    2.0 * Component(me, c) * Component(me, c)
  }

  lemma StrengthNonNegative(me: Vec3, c: nat)
    requires c < 3
    ensures Strength(me, c) >= 0.0
  {
    var x := Component(me, c);
    if x < 0.0 {
      assert x * x == (-x) * (-x);
    }
  }
}
