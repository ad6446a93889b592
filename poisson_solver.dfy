/** The geometric multigrid Poisson solver.

    The solver owns an indexed hierarchy of grid levels (level 0 is the
    caller's grid, each further level a coarsening of the one before) with a
    potential, a density and a residual array per level.  The numerical
    kernels -- stencil application and relaxation, restriction,
    interpolation, the Mehrstellen right-hand-side operator and the
    normalised gaussian charge/potential pair -- are opaque, so every array
    is modelled as a `Grid` term: the expression over those kernels that
    produced its contents.  Two arrays are equal in the model exactly when
    they were produced by the same computation.  What is modelled exactly is
    the level construction, the smoothing schedules, the order of operations
    in one V-cycle (also recorded as a sequence of `Op`s over integer level
    indices), the per-level array updates, the iteration cap of `solve` and
    the monopole neutralisation. */
module PoissonSolver {
  import opened Common

  /** The stencil selector `nn`: 'M' (Mehrstellen pair LaplaceA/LaplaceB) or a
      number of neighbours. */
  datatype StencilChoice = Mehrstellen | Neighbours(nn: int)

  /** The operator object built for a level. */
  datatype Operator = LaplaceA | Laplace(nn: int)

  /** The contents of a grid array, as the kernel expression that produced them. */
  datatype Grid =
    | Input(id: nat)                                  // an array handed in by the caller
    | Unset                                           // the `None` placeholder of phis[0]
    | Uninitialised(level: nat)                       // gd.empty() of a level's grid
    | Zero(level: nat)                                // a level's array set to 0.0 in place
    | Relaxed(level: nat, kind: int, phi: Grid, rho: Grid, sweeps: nat, weight: real)
    | Applied(level: nat, phi: Grid)                  // operators[level].apply(phi)
    | Restricted(level: nat, fine: Grid)              // restrictors[level].apply: level -> level + 1
    | Interpolated(level: nat, coarse: Grid)          // interpolators[level].apply: level + 1 -> level
    | MehrstellenB(rho: Grid)                         // B.apply(rho)
    | Difference(a: Grid, b: Grid)
    | Sum(a: Grid, b: Grid)
    | Scaled(a: Grid, c: real)
    | Negated(a: Grid)
    | RhoGauss                                        // the normalised gaussian density
    | PhiGauss                                        // its potential

  /** The two reductions of arrays to numbers the solver uses: the sum of
      squared entries (`dot(r, r)`) and `gd.integrate`. */
  datatype Reductions = Reductions(sumSq: Grid -> real, integral: Grid -> real)

  /** The geometry of the level-0 grid: whether coarsening the level-k grid
      succeeds (`gd.coarsen()` raises ValueError otherwise), the level-0
      volume element and the diagonal element of the level-0 stencil. */
  datatype Geometry = Geometry(canCoarsen: nat -> bool, dv: real, diagonal: real)

  datatype ConfigError = UnknownRelaxation(name: string)
  datatype SolveError = ConvergenceError

  /** Largest number of extra levels and the iteration cap. */
  const MaxExtraLevels: nat := 4
  const MaxIterations: nat := 200
  /** Default `maxcharge` of `solve`, used by the neutralised inner call. */
  const DefaultMaxCharge: real := 0.000001
  /** 2 * sqrt(pi) as a double. */
  const TwoSqrtPi: real := 3.5449077018110318

  /** The relaxation-method selector: 'GS' is Gauss-Seidel (1), 'J' is Jacobi (2). */
  function RelaxMethod(name: string): (r: Result<int, ConfigError>)
    ensures r == Ok(1) <==> name == "GS"
    ensures r == Ok(2) <==> name == "J"
    ensures r.Err? <==> name != "GS" && name != "J"
    ensures r.Ok? ==> r.value == 1 || r.value == 2
  {
    if name == "GS" then Ok(1)
    else if name == "J" then Ok(2)
    else Err(UnknownRelaxation(name))
  }

  /** The number of extra levels: coarsen while it succeeds, at most 4 times. */
  function CountLevels(canCoarsen: nat -> bool, k: nat): nat
    requires k <= MaxExtraLevels
    decreases MaxExtraLevels - k
  {
    if k < MaxExtraLevels && canCoarsen(k) then CountLevels(canCoarsen, k + 1) else k
  }

  /** `levels` counts the successful coarsenings before the first failure,
      capped at 4. */
  lemma {:induction false} CountLevelsIsFirstFailure(canCoarsen: nat -> bool, k: nat)
    requires k <= MaxExtraLevels
    ensures k <= CountLevels(canCoarsen, k) <= MaxExtraLevels
    ensures forall m :: k <= m < CountLevels(canCoarsen, k) ==> canCoarsen(m)
    ensures CountLevels(canCoarsen, k) < MaxExtraLevels ==> !canCoarsen(CountLevels(canCoarsen, k))
    decreases MaxExtraLevels - k
  {
    if k < MaxExtraLevels && canCoarsen(k) {
      CountLevelsIsFirstFailure(canCoarsen, k + 1);
    }
  }

  function Pow4(n: nat): (r: real)
    ensures r >= 1.0
  {
    if n == 0 then 1.0 else 4.0 * Pow4(n - 1)
  }

  /** The step a call `n` levels further down is entered with: each level
      passes 4 * step to the next. */
  function StepAt(step: real, n: nat): real
    decreases n
  {
    if n == 0 then step else StepAt(4.0 * step, n - 1)
  }

  /** The step `n` levels down is step * 4^n. */
  lemma {:induction false} StepAtIsPow4(step: real, n: nat)
    ensures StepAt(step, n) == step * Pow4(n)
    decreases n
  {
    if n > 0 {
      StepAtIsPow4(4.0 * step, n - 1);
      var p := Pow4(n - 1);
      assert (4.0 * step) * p == step * (4.0 * p);
    }
  }


  /** The outcome of a solve whose loop stopped at count `n`: ConvergenceError
      when the count reached 200. */
  function NeutralOutcome(n: nat): Result<nat, SolveError>
  {
    if n == MaxIterations then Err(ConvergenceError) else Ok(n)
  }

  /** The smoothing parameters of one level: presmoothing and postsmoothing
      sweep counts and the relaxation weight. */
  datatype LevelSmoothing = LevelSmoothing(presmooth: nat, postsmooth: nat, weight: real)

  /** Which smoothing of a level a relaxation belongs to. */
  datatype Smoothing = Pre | Post

  /** One step of a multigrid cycle, tagged with the level whose call performs it. */
  datatype Op =
    | Enter(level: nat, step: real)                   // a call iterate2(step, level) begins
    | Relax(level: nat, when: Smoothing, sweeps: nat, weight: real)
    | Residual(level: nat)                            // residual := A phi - rho
    | Norm(level: nat)                                // error := dv * sum of residual squares
    | Restrict(level: nat)                            // rhos[level+1] := restrict(residual)
    | ZeroCoarse(level: nat)                          // phis[level+1] := 0
    | Interpolate(level: nat)                         // residual := interpolate(phis[level+1])
    | Correct(level: nat)                             // phis[level] -= residual

  /** The per-level arrays owned by the solver. */
  datatype LevelArrays = LevelArrays(phis: seq<Grid>, rhos: seq<Grid>, residuals: seq<Grid>)

  /** The ops of `ops` performed by level `l`, in order. */
  function OpsAt(ops: seq<Op>, l: nat): seq<Op>
  {
    if |ops| == 0 then []
    else OpsAt(ops[..|ops| - 1], l) + (if ops[|ops| - 1].level == l then [ops[|ops| - 1]] else [])
  }

  lemma {:induction false} OpsAtConcat(a: seq<Op>, b: seq<Op>, l: nat)
    ensures OpsAt(a + b, l) == OpsAt(a, l) + OpsAt(b, l)
  {
    if |b| == 0 {
      assert a + b == a;
    } else {
      assert (a + b)[..|a + b| - 1] == a + b[..|b| - 1];
      OpsAtConcat(a, b[..|b| - 1], l);
    }
  }

  lemma {:induction false} OpsAtNone(ops: seq<Op>, l: nat)
    requires forall i :: 0 <= i < |ops| ==> ops[i].level != l
    ensures OpsAt(ops, l) == []
  {
    if |ops| > 0 {
      OpsAtNone(ops[..|ops| - 1], l);
    }
  }

  lemma {:induction false} OpsAtAll(ops: seq<Op>, l: nat)
    requires forall i :: 0 <= i < |ops| ==> ops[i].level == l
    ensures OpsAt(ops, l) == ops
  {
    if |ops| > 0 {
      OpsAtAll(ops[..|ops| - 1], l);
    }
  }

  class PoissonSolver {
    const levels: nat
    const relaxMethod: int
    /** The entries of the parallel lists presmooths, postsmooths and weights, per level. */
    const smoothing: seq<LevelSmoothing>
    const operators: seq<Operator>
    /** Transformer(gd_k, gd_{k+1}) as the pair (k, k+1), and the reverse. */
    const restrictors: seq<(nat, nat)>
    const interpolators: seq<(nat, nat)>
    /** True when the Mehrstellen B operator prepares the right-hand side. */
    const usesB: bool
    const step: real
    const dv: real
    const reductions: Reductions

    var arrays: LevelArrays

    /** The schedules fixed at construction. */
    predicate Schedules()
    {
      |smoothing| == levels + 1
    }

    /** The level arrays have one entry per level. */
    predicate Shaped(s: LevelArrays)
    {
      |s.phis| == |s.rhos| == |s.residuals| == levels + 1
    }

    ghost predicate Valid()
      reads this
    {
      && Schedules() && |operators| == levels + 1
      && |restrictors| == levels && |interpolators| == levels
      && Shaped(arrays)
    }

    constructor (nn: StencilChoice, relaxMethod: int, geometry: Geometry, reductions: Reductions)
      requires relaxMethod == 1 || relaxMethod == 2
      requires geometry.diagonal != 0.0
      ensures Valid()
      ensures levels == CountLevels(geometry.canCoarsen, 0)
      ensures this.relaxMethod == relaxMethod && this.reductions == reductions && dv == geometry.dv
      ensures usesB == nn.Mehrstellen?
      ensures operators[0] == (if nn.Mehrstellen? then LaplaceA else Laplace(nn.nn))
      ensures forall k :: 1 <= k <= levels ==> operators[k] == Laplace(1)
      ensures forall k :: 0 <= k < levels ==> restrictors[k] == (k, k + 1) && interpolators[k] == (k + 1, k)
      ensures smoothing == seq(levels + 1, k => LevelSmoothing(if k == levels then 8 else if k == 0 then 2 else 4,
                                                               if k == levels then 8 else if k == 0 then 1 else 4,
                                                               if k == 0 then 2.0 / 3.0 else 1.0))
      ensures step == 0.66666666 / geometry.diagonal
      ensures arrays.phis == seq(levels + 1, (k: nat) => if k == 0 then Unset else Uninitialised(k))
      ensures arrays.rhos == seq(levels + 1, (k: nat) => Uninitialised(k))
      ensures arrays.residuals == seq(levels + 1, (k: nat) => Uninitialised(k))
    {
      var ops: seq<Operator> := [if nn.Mehrstellen? then LaplaceA else Laplace(nn.nn)];
      var phis: seq<Grid> := [Unset];
      var rhos := [Uninitialised(0)];
      var residuals := [Uninitialised(0)];
      var restr: seq<(nat, nat)> := [];
      var interp: seq<(nat, nat)> := [];
      var pre: seq<nat> := [2];
      var post: seq<nat> := [1];
      var ws: seq<real> := [2.0 / 3.0];
      var level: nat := 0;
      while level < MaxExtraLevels
        invariant level <= MaxExtraLevels
        invariant CountLevels(geometry.canCoarsen, level) == CountLevels(geometry.canCoarsen, 0)
        invariant |ops| == level + 1 && |restr| == |interp| == level
        invariant ops[0] == (if nn.Mehrstellen? then LaplaceA else Laplace(nn.nn))
        invariant forall k :: 1 <= k <= level ==> ops[k] == Laplace(1)
        invariant forall k :: 0 <= k < level ==> restr[k] == (k, k + 1) && interp[k] == (k + 1, k)
        invariant pre == seq(level + 1, k => if k == 0 then 2 else 4)
        invariant post == seq(level + 1, k => if k == 0 then 1 else 4)
        invariant ws == seq(level + 1, k => if k == 0 then 2.0 / 3.0 else 1.0)
        invariant phis == seq(level + 1, (k: nat) => if k == 0 then Unset else Uninitialised(k))
        invariant rhos == seq(level + 1, (k: nat) => Uninitialised(k))
        invariant residuals == seq(level + 1, (k: nat) => Uninitialised(k))
      {
        if !geometry.canCoarsen(level) {
          break;
        }
        ops := ops + [Laplace(1)];
        phis := phis + [Uninitialised(level + 1)];
        rhos := rhos + [Uninitialised(level + 1)];
        residuals := residuals + [Uninitialised(level + 1)];
        interp := interp + [(level + 1, level)];
        restr := restr + [(level, level + 1)];
        pre := pre + [4];
        post := post + [4];
        ws := ws + [1.0];
        level := level + 1;
      }
      this.levels := level;
      this.relaxMethod := relaxMethod;
      this.step := 0.66666666 / geometry.diagonal;
      pre, post := pre[level := 8], post[level := 8];
      this.smoothing := seq(level + 1, k requires 0 <= k <= level => LevelSmoothing(pre[k], post[k], ws[k]));
      this.operators := ops;
      this.restrictors := restr;
      this.interpolators := interp;
      this.usesB := nn.Mehrstellen?;
      this.dv := geometry.dv;
      this.reductions := reductions;
      this.arrays := LevelArrays(phis, rhos, residuals);
    }

    // ---------------------------------------------------------------
    // One V-cycle: iterate2

    /** Ops of the descent at `level` (below `levels`): presmooth, residual,
        restrict, zero the coarse potential. */
    function DescendOps(level: nat): seq<Op>
      requires Schedules() && level < levels
    {
      [Relax(level, Pre, smoothing[level].presmooth, smoothing[level].weight), Residual(level), Restrict(level), ZeroCoarse(level)]
    }

    /** Ops of the ascent at `level`: prolong the coarse potential, subtract it. */
    function AscendOps(level: nat): seq<Op>
    {
      [Interpolate(level), Correct(level)]
    }

    /** Postsmoothing, followed at level 0 by the final residual and its norm. */
    function PostOps(level: nat): seq<Op>
      requires Schedules() && level <= levels
    {
      [Relax(level, Post, smoothing[level].postsmooth, smoothing[level].weight)] + (if level == 0 then [Residual(0), Norm(0)] else [])
    }

    /** The operations of one call `iterate2(step, level)`, nested calls included. */
    function VCycleOps(level: nat, step: real): seq<Op>
      requires Schedules() && level <= levels
      decreases levels - level
    {
      [Enter(level, step)]
      + (if level < levels then DescendOps(level) + VCycleOps(level + 1, 4.0 * step) + AscendOps(level) else [])
      + PostOps(level)
    }

    /** What each level does in a V-cycle, in order, with the step it is entered with. */
    function LevelSchedule(l: nat, stepAtLevel: real): seq<Op>
      requires Schedules() && l <= levels
    {
      [Enter(l, stepAtLevel)] + (if l < levels then DescendOps(l) + AscendOps(l) else []) + PostOps(l)
    }

    /** Presmoothing and restriction of `iterate2` at a level below `levels`. */
    function Descend(s: LevelArrays, level: nat): (r: LevelArrays)
      requires Schedules() && level < levels && Shaped(s)
      ensures Shaped(r)
    {
      var phi := Relaxed(level, relaxMethod, s.phis[level], s.rhos[level], smoothing[level].presmooth, smoothing[level].weight);
      var res := Difference(Applied(level, phi), s.rhos[level]);
      LevelArrays(s.phis[level := phi][level + 1 := Zero(level + 1)],
                  s.rhos[level + 1 := Restricted(level, res)],
                  s.residuals[level := res])
    }

    /** Prolongation of the coarse potential into the residual, and the correction. */
    function Ascend(s: LevelArrays, level: nat): (r: LevelArrays)
      requires Schedules() && level < levels && Shaped(s)
      ensures Shaped(r)
    {
      var fine := Interpolated(level, s.phis[level + 1]);
      LevelArrays(s.phis[level := Difference(s.phis[level], fine)], s.rhos, s.residuals[level := fine])
    }

    /** Postsmoothing; at level 0 the residual is recomputed afterwards. */
    function Postsmooth(s: LevelArrays, level: nat): (r: LevelArrays)
      requires Schedules() && level <= levels && Shaped(s)
      ensures Shaped(r)
    {
      var phi := Relaxed(level, relaxMethod, s.phis[level], s.rhos[level], smoothing[level].postsmooth, smoothing[level].weight);
      var smoothed := s.(phis := s.phis[level := phi]);
      if level == 0 then smoothed.(residuals := s.residuals[0 := Difference(Applied(0, phi), s.rhos[0])])
      else smoothed
    }

    /** The effect of `iterate2(step, level)` on the level arrays. */
    function VCycleState(s: LevelArrays, level: nat): (r: LevelArrays)
      requires Schedules() && level <= levels && Shaped(s)
      ensures Shaped(r)
      decreases levels - level
    {
      Postsmooth(if level < levels then Ascend(VCycleState(Descend(s, level), level + 1), level) else s, level)
    }

    /** The value `iterate2` returns at level 0: dv times the squared residual norm. */
    function ErrorOf(s: LevelArrays): real
      requires |s.residuals| > 0
    {
      reductions.sumSq(s.residuals[0]) * dv
    }

    /** One V-cycle, as `iterate2`: presmooth, residual, restrict, zero the coarse
        potential, recurse with 4 * step, prolong, correct, postsmooth; level 0
        returns dv times the squared norm of its final residual. */
    method Iterate2(step: real, level: nat) returns (error: Option<real>, ghost ops: seq<Op>)
      requires Valid() && level <= levels
      modifies this
      ensures Valid()
      ensures arrays == VCycleState(old(arrays), level)
      ensures ops == VCycleOps(level, step)
      ensures error == if level == 0 then Some(ErrorOf(arrays)) else None
      decreases levels - level
    {
      var a := arrays;
      ops := [Enter(level, step)];
      if level < levels {
        var phi := Relaxed(level, relaxMethod, a.phis[level], a.rhos[level], smoothing[level].presmooth, smoothing[level].weight);
        var res := Difference(Applied(level, phi), a.rhos[level]);
        a := LevelArrays(a.phis[level := phi][level + 1 := Zero(level + 1)],
                         a.rhos[level + 1 := Restricted(level, res)],
                         a.residuals[level := res]);
        arrays := a;
        var _, inner := Iterate2(4.0 * step, level + 1);
        a := arrays;
        var fine := Interpolated(level, a.phis[level + 1]);
        a := LevelArrays(a.phis[level := Difference(a.phis[level], fine)], a.rhos, a.residuals[level := fine]);
        ops := ops + (DescendOps(level) + inner + AscendOps(level));
      } else {
        ops := ops + [];
      }
      var phi := Relaxed(level, relaxMethod, a.phis[level], a.rhos[level], smoothing[level].postsmooth, smoothing[level].weight);
      if level == 0 {
        a := LevelArrays(a.phis[0 := phi], a.rhos, a.residuals[0 := Difference(Applied(0, phi), a.rhos[0])]);
        error := Some(ErrorOf(a));
      } else {
        a := a.(phis := a.phis[level := phi]);
        error := None;
      }
      arrays := a;
      ops := ops + PostOps(level);
    }

    /** Every op of a V-cycle entered at `level` belongs to `level` or a coarser level. */
    lemma {:induction false} VCycleOpsLevels(level: nat, step: real)
      requires Schedules() && level <= levels
      ensures forall i :: 0 <= i < |VCycleOps(level, step)| ==> level <= VCycleOps(level, step)[i].level <= levels
      decreases levels - level
    {
      if level < levels {
        VCycleOpsLevels(level + 1, 4.0 * step);
      }
    }

    /** Restricted to its own level, a V-cycle performs that level's schedule. */
    lemma VCycleOwnLevel(level: nat, step: real)
      requires Schedules() && level <= levels
      ensures OpsAt(VCycleOps(level, step), level) == LevelSchedule(level, step)
    {
      var enter, post := [Enter(level, step)], PostOps(level);
      OpsAtAll(enter, level);
      OpsAtAll(post, level);
      if level < levels {
        var down, inner, up := DescendOps(level), VCycleOps(level + 1, 4.0 * step), AscendOps(level);
        assert VCycleOps(level, step) == enter + (down + inner + up) + post;
        OpsAtConcat(enter + (down + inner + up), post, level);
        OpsAtConcat(enter, down + inner + up, level);
        OpsAtConcat(down + inner, up, level);
        OpsAtConcat(down, inner, level);
        VCycleOpsLevels(level + 1, 4.0 * step);
        OpsAtNone(inner, level);
        OpsAtAll(down, level);
        OpsAtAll(up, level);
        assert OpsAt(down + inner + up, level) == down + up;
      } else {
        assert VCycleOps(level, step) == enter + [] + post;
        OpsAtConcat(enter + [], post, level);
        assert enter + [] == enter;
      }
    }

    /** Restricted to a coarser level, a V-cycle performs what its nested call does. */
    lemma VCycleCoarserLevel(level: nat, step: real, l: nat)
      requires Schedules() && level < l <= levels
      ensures OpsAt(VCycleOps(level, step), l) == OpsAt(VCycleOps(level + 1, 4.0 * step), l)
    {
      var enter, post := [Enter(level, step)], PostOps(level);
      var down, inner, up := DescendOps(level), VCycleOps(level + 1, 4.0 * step), AscendOps(level);
      assert VCycleOps(level, step) == enter + (down + inner + up) + post;
      OpsAtConcat(enter + (down + inner + up), post, l);
      OpsAtConcat(enter, down + inner + up, l);
      OpsAtConcat(down + inner, up, l);
      OpsAtConcat(down, inner, l);
      OpsAtNone(enter, l);
      OpsAtNone(down, l);
      OpsAtNone(up, l);
      OpsAtNone(post, l);
    }

    /** Restricted to one level, a V-cycle performs exactly that level's schedule:
        below `levels` presmooth, residual, restrict, zero the coarse potential,
        prolong, subtract, postsmooth; at the coarsest level only the
        postsmoothing.  Level `l` is entered once, with the step passed down l - level times. */
    lemma {:induction false} VCycleSchedule(level: nat, step: real, l: nat)
      requires Schedules() && level <= l <= levels
      ensures OpsAt(VCycleOps(level, step), l) == LevelSchedule(l, StepAt(step, l - level))
      decreases l - level
    {
      if l == level {
        VCycleOwnLevel(level, step);
      } else {
        VCycleCoarserLevel(level, step, l);
        VCycleSchedule(level + 1, 4.0 * step, l);
      }
    }

    /** The number of relaxations among `ops`. */
    function RelaxCount(ops: seq<Op>): nat
    {
      if |ops| == 0 then 0 else RelaxCount(ops[..|ops| - 1]) + (if ops[|ops| - 1].Relax? then 1 else 0)
    }

    lemma {:induction false} RelaxCountConcat(a: seq<Op>, b: seq<Op>)
      ensures RelaxCount(a + b) == RelaxCount(a) + RelaxCount(b)
    {
      if |b| == 0 {
        assert a + b == a;
      } else {
        assert (a + b)[..|a + b| - 1] == a + b[..|b| - 1];
        RelaxCountConcat(a, b[..|b| - 1]);
      }
    }

    lemma {:induction false} RelaxCountNone(ops: seq<Op>)
      requires forall i :: 0 <= i < |ops| ==> !ops[i].Relax?
      ensures RelaxCount(ops) == 0
    {
      if |ops| > 0 {
        RelaxCountNone(ops[..|ops| - 1]);
      }
    }

    /** A V-cycle entered at `level` relaxes twice on every level below
        `levels` and once on the coarsest: 2 * (levels - level) + 1 times. */
    lemma {:induction false} VCycleRelaxCount(level: nat, step: real)
      requires Schedules() && level <= levels
      ensures RelaxCount(VCycleOps(level, step)) == 2 * (levels - level) + 1
      decreases levels - level
    {
      var enter, post := [Enter(level, step)], PostOps(level);
      assert RelaxCount(enter) == 0;
      assert RelaxCount(post) == 1 by {
        assert post == [post[0]] + post[1..];
        RelaxCountConcat([post[0]], post[1..]);
        RelaxCountNone(post[1..]);
      }
      if level < levels {
        var down, inner, up := DescendOps(level), VCycleOps(level + 1, 4.0 * step), AscendOps(level);
        assert VCycleOps(level, step) == enter + (down + inner + up) + post;
        VCycleRelaxCount(level + 1, 4.0 * step);
        RelaxCountConcat(enter + (down + inner + up), post);
        RelaxCountConcat(enter, down + inner + up);
        RelaxCountConcat(down + inner, up);
        RelaxCountConcat(down, inner);
        assert down == [down[0]] + down[1..];
        RelaxCountConcat([down[0]], down[1..]);
        RelaxCountNone(down[1..]);
        RelaxCountNone(up);
      } else {
        assert VCycleOps(level, step) == enter + post;
        RelaxCountConcat(enter, post);
      }
    }

    /** Every relaxation in a V-cycle uses its level's weight and that level's
        pre- or postsmoothing count, and presmoothing never happens at the
        coarsest level (its presmoothing count is never used). */
    lemma {:induction false} RelaxOpsFollowSchedule(level: nat, step: real)
      requires Schedules() && level <= levels
      ensures forall i :: 0 <= i < |VCycleOps(level, step)| && VCycleOps(level, step)[i].Relax? ==>
                var op := VCycleOps(level, step)[i];
                && op.level <= levels
                && (op.when == Pre ==> op.level < levels && op.sweeps == smoothing[op.level].presmooth)
                && (op.when == Post ==> op.sweeps == smoothing[op.level].postsmooth)
                && op.weight == smoothing[op.level].weight
      decreases levels - level
    {
      if level < levels {
        RelaxOpsFollowSchedule(level + 1, 4.0 * step);
      }
    }

    // ---------------------------------------------------------------
    // What a V-cycle means for level 0

    /** The potential a V-cycle entered at `level` leaves at that level, as a
        function of that level's potential and density alone. */
    function VCyclePhi(level: nat, phi: Grid, rho: Grid): Grid
      requires Schedules() && level <= levels
      decreases levels - level
    {
      var smoothed :=
        if level < levels then
          var pre := Relaxed(level, relaxMethod, phi, rho, smoothing[level].presmooth, smoothing[level].weight);
          var coarse := VCyclePhi(level + 1, Zero(level + 1), Restricted(level, Difference(Applied(level, pre), rho)));
          Difference(pre, Interpolated(level, coarse))
        else phi;
      Relaxed(level, relaxMethod, smoothed, rho, smoothing[level].postsmooth, smoothing[level].weight)
    }

    /** The error `iterate2` reports for a level-0 potential `phi` and density `rho`. */
    function CycleError(phi: Grid, rho: Grid): real
    {
      reductions.sumSq(Difference(Applied(0, phi), rho)) * dv
    }

    /** A V-cycle entered at `level` changes nothing below `level` and no density
        at `level`. */
    lemma {:induction false} VCycleFrame(s: LevelArrays, level: nat)
      requires Schedules() && level <= levels && Shaped(s)
      ensures var r := VCycleState(s, level);
              && r.rhos[level] == s.rhos[level]
              && forall j :: 0 <= j < level ==>
                   r.phis[j] == s.phis[j] && r.rhos[j] == s.rhos[j] && r.residuals[j] == s.residuals[j]
      decreases levels - level
    {
      if level < levels {
        VCycleFrame(Descend(s, level), level + 1);
      }
    }

    /** What a V-cycle leaves at its own level depends only on that level's
        potential and density: the coarse arrays are scratch space whose
        earlier contents never matter. */
    lemma {:induction false} VCycleObservable(s: LevelArrays, level: nat)
      requires Schedules() && level <= levels && Shaped(s)
      ensures VCycleState(s, level).phis[level] == VCyclePhi(level, s.phis[level], s.rhos[level])
      decreases levels - level
    {
      if level < levels {
        var d := Descend(s, level);
        DescendArrays(s, level);
        VCycleFrame(d, level + 1);
        VCycleObservable(d, level + 1);
        var t := VCycleState(d, level + 1);
        var pre := d.phis[level];
        var coarse := VCyclePhi(level + 1, Zero(level + 1), d.rhos[level + 1]);
        assert t.phis[level] == pre && t.rhos[level] == s.rhos[level] && t.phis[level + 1] == coarse;
        AscendPostsmoothPhi(t, level);
        assert VCycleState(s, level) == Postsmooth(Ascend(t, level), level);
        assert VCyclePhi(level, s.phis[level], s.rhos[level])
            == Relaxed(level, relaxMethod, Difference(pre, Interpolated(level, coarse)), s.rhos[level],
                       smoothing[level].postsmooth, smoothing[level].weight);
      }
    }

    /** What the descent at `level` leaves at `level` and `level + 1`. */
    lemma DescendArrays(s: LevelArrays, level: nat)
      requires Schedules() && level < levels && Shaped(s)
      ensures var d := Descend(s, level);
              var pre := Relaxed(level, relaxMethod, s.phis[level], s.rhos[level], smoothing[level].presmooth, smoothing[level].weight);
              && d.phis[level] == pre && d.rhos[level] == s.rhos[level]
              && d.phis[level + 1] == Zero(level + 1)
              && d.rhos[level + 1] == Restricted(level, Difference(Applied(level, pre), s.rhos[level]))
    {
    }

    /** Prolongation, correction and postsmoothing leave at `level` the
        postsmoothed difference of its potential and the prolonged coarse one. */
    lemma AscendPostsmoothPhi(t: LevelArrays, level: nat)
      requires Schedules() && level < levels && Shaped(t)
      ensures Postsmooth(Ascend(t, level), level).phis[level]
              == Relaxed(level, relaxMethod, Difference(t.phis[level], Interpolated(level, t.phis[level + 1])),
                         t.rhos[level], smoothing[level].postsmooth, smoothing[level].weight)
    {
    }

    /** The level-0 residual a V-cycle leaves behind is the one of its final
        potential against the unchanged density. */
    lemma VCycleResidual(s: LevelArrays)
      requires Schedules() && Shaped(s)
      ensures VCycleState(s, 0).residuals[0] == Difference(Applied(0, VCycleState(s, 0).phis[0]), s.rhos[0])
    {
      if 0 < levels {
        VCycleFrame(Descend(s, 0), 1);
      }
    }

    /** Two states that agree on the level-0 potential and density produce the
        same potential after a V-cycle, whatever their coarse arrays hold. */
    lemma CycleIgnoresCoarseArrays(s: LevelArrays, t: LevelArrays)
      requires Schedules() && Shaped(s) && Shaped(t)
      requires s.phis[0] == t.phis[0] && s.rhos[0] == t.rhos[0]
      ensures VCycleState(s, 0).phis[0] == VCycleState(t, 0).phis[0]
    {
      VCycleObservable(s, 0);
      VCycleObservable(t, 0);
    }

    /** `iterate2(self.step)` as `solve` calls it, seen from level 0. */
    method Cycle() returns (error: real, ghost ops: seq<Op>)
      requires Valid()
      modifies this
      ensures Valid()
      ensures arrays.phis[0] == VCyclePhi(0, old(arrays).phis[0], old(arrays).rhos[0])
      ensures arrays.rhos[0] == old(arrays).rhos[0]
      ensures error == CycleError(arrays.phis[0], arrays.rhos[0])
      ensures ops == VCycleOps(0, step)
    {
      var e;
      e, ops := Iterate2(step, 0);
      VCycleFrame(old(arrays), 0);
      VCycleObservable(old(arrays), 0);
      VCycleResidual(old(arrays));
      error := e.value;
    }

    // ---------------------------------------------------------------
    // The older cycle: iterate

    /** The first residual of `iterate`: -rho on a coarse level, A phi - rho on level 0. */
    function FirstResidual(s: LevelArrays, level: nat): Grid
      requires Schedules() && level <= levels && Shaped(s)
    {
      if level > 0 then Negated(s.rhos[level]) else Difference(Applied(level, s.phis[level]), s.rhos[level])
    }

    /** Restriction of the level residual and zeroing of the coarse potential. */
    function CoarseGridSetup(s: LevelArrays, level: nat): (r: LevelArrays)
      requires Schedules() && level < levels && Shaped(s)
      ensures Shaped(r)
    {
      LevelArrays(s.phis[level + 1 := Zero(level + 1)],
                  s.rhos[level + 1 := Restricted(level, s.residuals[level])],
                  s.residuals)
    }

    /** A damped step: residual *= step; phi -= residual. */
    function Stepped(s: LevelArrays, level: nat, res: Grid, step: real): (r: LevelArrays)
      requires Schedules() && level <= levels && Shaped(s)
      ensures Shaped(r)
    {
      LevelArrays(s.phis[level := Difference(s.phis[level], Scaled(res, step))], s.rhos,
                  s.residuals[level := Scaled(res, step)])
    }

    /** The first pass of `iterate` at `level`: a coarse-grid correction below
        `levels`, a damped step at the coarsest level. */
    function IterateFirstPass(s: LevelArrays, level: nat, step: real): (r: LevelArrays)
      requires Schedules() && level <= levels && Shaped(s)
      ensures Shaped(r)
      decreases levels - level, 0
    {
      var s1 := s.(residuals := s.residuals[level := FirstResidual(s, level)]);
      if level < levels then Ascend(IterateState(CoarseGridSetup(s1, level), level + 1, 4.0 * step), level)
      else Stepped(s1, level, s1.residuals[level], step)
    }

    /** The residual of the second pass of `iterate`. */
    function SecondResidual(s: LevelArrays, level: nat): Grid
      requires Schedules() && level <= levels && Shaped(s)
    {
      Difference(Applied(level, s.phis[level]), s.rhos[level])
    }

    /** The effect of `iterate(step, level)`: the first pass, then a damped step. */
    function IterateState(s: LevelArrays, level: nat, step: real): (r: LevelArrays)
      requires Schedules() && level <= levels && Shaped(s)
      ensures Shaped(r)
      decreases levels - level, 1
    {
      var s2 := IterateFirstPass(s, level, step);
      Stepped(s2, level, SecondResidual(s2, level), step)
    }

    /** `iterate(step, level)`: a loop of two passes whose second pass always
        ends it; the returned error is the squared residual norm of the second
        pass, without the volume factor. */
    method Iterate(step: real, level: nat) returns (error: real)
      requires Valid() && level <= levels
      modifies this
      ensures Valid()
      ensures arrays == IterateState(old(arrays), level, step)
      ensures arrays.phis[level] == IteratePhi(level, old(arrays).phis[level], old(arrays).rhos[level], step)
      ensures error == reductions.sumSq(SecondResidual(IterateFirstPass(old(arrays), level, step), level))
      decreases levels - level
    {
      ghost var s0 := arrays;
      IterateObservable(s0, level, step);
      var niter := 0;
      error := 0.0;
      while true
        invariant Valid() && 0 <= niter <= 1
        invariant niter == 0 ==> arrays == s0
        invariant niter == 1 ==> arrays == IterateFirstPass(s0, level, step)
        decreases 2 - niter
      {
        niter := niter + 1;
        var residual: Grid;
        if level > 0 && niter == 1 {
          residual := Negated(arrays.rhos[level]);
        } else {
          residual := Difference(Applied(level, arrays.phis[level]), arrays.rhos[level]);
        }
        arrays := arrays.(residuals := arrays.residuals[level := residual]);
        error := reductions.sumSq(residual);
        if niter == 1 && level < levels {
          arrays := arrays.(rhos := arrays.rhos[level + 1 := Restricted(level, residual)],
                            phis := arrays.phis[level + 1 := Zero(level + 1)]);
          var _ := Iterate(4.0 * step, level + 1);
          var fine := Interpolated(level, arrays.phis[level + 1]);
          arrays := arrays.(residuals := arrays.residuals[level := fine],
                            phis := arrays.phis[level := Difference(arrays.phis[level], fine)]);
          continue;
        }
        residual := Scaled(residual, step);
        arrays := arrays.(residuals := arrays.residuals[level := residual],
                          phis := arrays.phis[level := Difference(arrays.phis[level], residual)]);
        if niter == 2 {
          break;
        }
      }
    }

    /** `iterate` entered at `level` changes nothing below `level` and no
        density at `level`: the density it works on comes from the caller. */
    lemma {:induction false} IterateFrame(s: LevelArrays, level: nat, step: real)
      requires Schedules() && level <= levels && Shaped(s)
      ensures var r := IterateState(s, level, step);
              && r.rhos[level] == s.rhos[level]
              && forall j :: 0 <= j < level ==>
                   r.phis[j] == s.phis[j] && r.rhos[j] == s.rhos[j] && r.residuals[j] == s.residuals[j]
      decreases levels - level
    {
      if level < levels {
        var s1 := s.(residuals := s.residuals[level := FirstResidual(s, level)]);
        IterateFrame(CoarseGridSetup(s1, level), level + 1, 4.0 * step);
      }
    }

    /** The potential `iterate` entered at `level` leaves at that level, as a
        function of that level's potential and density alone: the first
        residual (-rho below level 0), the coarse correction from a zero
        coarse potential or a damped step at the coarsest level, and a
        damped step on the second residual. */
    function IteratePhi(level: nat, phi: Grid, rho: Grid, step: real): Grid
      requires Schedules() && level <= levels
      decreases levels - level
    {
      var first := if level > 0 then Negated(rho) else Difference(Applied(level, phi), rho);
      var corrected :=
        if level < levels then
          Difference(phi, Interpolated(level, IteratePhi(level + 1, Zero(level + 1), Restricted(level, first), 4.0 * step)))
        else Difference(phi, Scaled(first, step));
      Difference(corrected, Scaled(Difference(Applied(level, corrected), rho), step))
    }

    /** What `iterate` leaves at its own level depends only on the potential
        and density there; the coarse arrays and the residuals are scratch. */
    lemma {:induction false} IterateObservable(s: LevelArrays, level: nat, step: real)
      requires Schedules() && level <= levels && Shaped(s)
      ensures IterateState(s, level, step).phis[level] == IteratePhi(level, s.phis[level], s.rhos[level], step)
      decreases levels - level
    {
      if level < levels {
        var s1 := s.(residuals := s.residuals[level := FirstResidual(s, level)]);
        var c := CoarseGridSetup(s1, level);
        IterateFrame(c, level + 1, 4.0 * step);
        IterateObservable(c, level + 1, 4.0 * step);
        var t := IterateState(c, level + 1, 4.0 * step);
        assert t.phis[level] == s.phis[level] && t.rhos[level] == s.rhos[level];
        var a := Ascend(t, level);
        assert a.phis[level] == Difference(s.phis[level], Interpolated(level, t.phis[level + 1]));
        assert IterateFirstPass(s, level, step) == a;
      }
    }

    // ---------------------------------------------------------------
    // solve

    /** The level-0 potential after `n` V-cycles. */
    function Iterated(phi: Grid, rho: Grid, n: nat): Grid
      requires Schedules()
    {
      if n == 0 then phi else VCyclePhi(0, Iterated(phi, rho, n - 1), rho)
    }

    /** The count at which the convergence loop of `solve` stops once cycle
        `k` has produced potential `phi`: the first cycle whose error is at
        most eps, or cycle 200. */
    function Converge(phi: Grid, rho: Grid, eps: real, k: nat): nat
      requires Schedules() && 1 <= k <= MaxIterations
      decreases MaxIterations - k
    {
      if CycleError(phi, rho) > eps && k < MaxIterations then Converge(VCyclePhi(0, phi, rho), rho, eps, k + 1) else k
    }

    /** The number of V-cycles `solve` runs from potential `phi`. */
    function CycleCount(phi: Grid, rho: Grid, eps: real): nat
      requires Schedules()
    {
      Converge(VCyclePhi(0, phi, rho), rho, eps, 1)
    }

    /** `Converge` is the first cycle meeting eps, capped at 200. */
    lemma {:induction false} ConvergeIsFirst(phi: Grid, rho: Grid, eps: real, k: nat)
      requires Schedules() && 1 <= k <= MaxIterations
      ensures var n := Converge(Iterated(phi, rho, k), rho, eps, k);
              && k <= n <= MaxIterations
              && (forall m :: k <= m < n ==> CycleError(Iterated(phi, rho, m), rho) > eps)
              && (n < MaxIterations ==> CycleError(Iterated(phi, rho, n), rho) <= eps)
      decreases MaxIterations - k
    {
      if CycleError(Iterated(phi, rho, k), rho) > eps && k < MaxIterations {
        ConvergeIsFirst(phi, rho, eps, k + 1);
      }
    }

    /** A successful neutral solve returns a count in [1, 199] whose cycle met
        eps while every earlier one missed it; ConvergenceError is raised exactly
        when cycles 1..199 all miss eps, whatever the 200th cycle gives. */
    lemma SolveOutcome(phi: Grid, rho: Grid, eps: real)
      requires Schedules()
      ensures var r := NeutralOutcome(CycleCount(phi, rho, eps));
              && (r.Ok? ==> && 1 <= r.value < MaxIterations
                            && CycleError(Iterated(phi, rho, r.value), rho) <= eps
                            && forall m :: 1 <= m < r.value ==> CycleError(Iterated(phi, rho, m), rho) > eps)
              && (r.Err? <==> forall m :: 1 <= m < MaxIterations ==> CycleError(Iterated(phi, rho, m), rho) > eps)
    {
      assert Iterated(phi, rho, 1) == VCyclePhi(0, phi, rho);
      ConvergeIsFirst(phi, rho, eps, 1);
    }

    /** The convergence loop of `solve` on the arrays as they stand: V-cycles
        until the error is at most eps; ConvergenceError when the count
        reaches 200. */
    method SolveNeutral(eps: real) returns (r: Result<nat, SolveError>)
      requires Valid()
      modifies this
      ensures Valid()
      ensures var phi0, rho0 := old(arrays).phis[0], old(arrays).rhos[0];
              var n := CycleCount(phi0, rho0, eps);
              && r == NeutralOutcome(n)
              && arrays.phis[0] == Iterated(phi0, rho0, n) && arrays.rhos[0] == rho0
    {
      ghost var phi0, rho0 := arrays.phis[0], arrays.rhos[0];
      var e, _ := Cycle();
      var niter: nat := 1;
      while e > eps && niter < MaxIterations
        invariant Valid() && 1 <= niter <= MaxIterations
        invariant arrays.rhos[0] == rho0 && arrays.phis[0] == Iterated(phi0, rho0, niter)
        invariant e == CycleError(arrays.phis[0], rho0)
        invariant CycleCount(phi0, rho0, eps) == Converge(arrays.phis[0], rho0, eps, niter)
        decreases MaxIterations - niter
      {
        var next, _ := Cycle();
        e := next;
        niter := niter + 1;
      }
      if niter == MaxIterations {
        r := Err(ConvergenceError);
      } else {
        r := Ok(niter);
      }
    }

    /** The density `solve` puts on level 0: passed through B for the Mehrstellen stencil. */
    function RightHandSide(rho: Grid): Grid
    {
      if usesB then MehrstellenB(rho) else rho
    }

    /** The charge `solve` works with: the given one, or the integral of rho. */
    function EffectiveCharge(rho: Grid, charge: Option<real>): real
    {
      if charge.None? then reductions.integral(rho) else charge.value
    }

    /** `solve(phi, rho, eps, charge, maxcharge)`.  A density whose charge
        exceeds `maxcharge` in magnitude is neutralised with the gaussian, the
        potential is shifted down, the neutral problem is solved once (charge 0,
        default maxcharge), and on success the shift is added back; on
        ConvergenceError the potential stays shifted. */
    method Solve(phi: Grid, rho: Grid, eps: real, charge: Option<real>, maxcharge: real)
      returns (r: Result<nat, SolveError>)
      requires Valid()
      modifies this
      ensures Valid()
      ensures var q := EffectiveCharge(rho, charge);
              var neutralise := Abs(q) > maxcharge;
              var shift := Scaled(PhiGauss, q / TwoSqrtPi);
              var phiIn := if neutralise then Difference(phi, shift) else phi;
              var rhoIn := RightHandSide(if neutralise then Difference(rho, Scaled(RhoGauss, q)) else rho);
              var n := CycleCount(phiIn, rhoIn, eps);
              && r == NeutralOutcome(n)
              && arrays.rhos[0] == rhoIn
              && arrays.phis[0] == (if neutralise && r.Ok? then Sum(Iterated(phiIn, rhoIn, n), shift)
                                    else Iterated(phiIn, rhoIn, n))
      decreases if Abs(EffectiveCharge(rho, charge)) > maxcharge then 1 else 0
    {
      var q := if charge.None? then reductions.integral(rho) else charge.value;
      arrays := arrays.(phis := arrays.phis[0 := phi]);
      if Abs(q) > maxcharge {
        var neutral := Difference(rho, Scaled(RhoGauss, q));
        var shift := Scaled(PhiGauss, q / TwoSqrtPi);
        var shifted := Difference(arrays.phis[0], shift);
        arrays := arrays.(phis := arrays.phis[0 := shifted]);
        assert Abs(EffectiveCharge(neutral, Some(0.0))) <= DefaultMaxCharge;
        r := Solve(shifted, neutral, eps, Some(0.0), DefaultMaxCharge);
        if r.Ok? {
          arrays := arrays.(phis := arrays.phis[0 := Sum(arrays.phis[0], shift)]);
        }
      } else {
        arrays := arrays.(rhos := arrays.rhos[0 := if usesB then MehrstellenB(rho) else rho]);
        r := SolveNeutral(eps);
      }
    }
  }

  /** `PoissonSolver(gd, nn, relax)`: an unknown relaxation name raises
      NotImplementedError, otherwise the solver is built. */
  method Create(nn: StencilChoice, relax: string, geometry: Geometry, reductions: Reductions)
    returns (r: Result<PoissonSolver, ConfigError>)
    requires geometry.diagonal != 0.0
    ensures r.Err? <==> RelaxMethod(relax).Err?
    ensures r.Ok? ==> fresh(r.value) && r.value.Valid() && r.value.relaxMethod == RelaxMethod(relax).value
                      && r.value.levels == CountLevels(geometry.canCoarsen, 0)
  {
    var m := RelaxMethod(relax);
    if m.Err? {
      return Err(m.error);
    }
    var solver := new PoissonSolver(nn, m.value, geometry, reductions);
    r := Ok(solver);
  }
}
