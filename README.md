# GPAW control logic in Dafny

This project models the discrete control logic and bookkeeping around GPAW's
numerical kernels. GPAW is a real-space projector-augmented-wave (PAW) density
functional theory code. The project proves properties of that model. The
kernels themselves are left opaque: stencils, restriction and interpolation,
splines, FFTs and LAPACK. Charges, densities and occupations are Dafny `real`s.
Grid arrays are `seq<real>` (or symbolic grid terms in the multigrid solver).
Each foreign operator is a function-typed parameter or datatype field: the
Laplace apply/relax, the Transformer, the Gaussians, the nucleus methods, and
in the multigrid solver the grid reductions (squared norm and integral).
Elsewhere integration is the fixed `Common.Integrate`, dv times the sum of the
entries, and communicator sums are the identity (one rank). Of the density mixer only the choice of
mixer is kept; mixing itself is the identity (see "## Left out").

One module per source file:

| module | file | models |
|---|---|---|
| `Common` | common.dfy | `Option`/`Result`, sums over real sequences, pointwise array operations, `Integrate` (= dv times the sum; one rank) |
| `PoissonSolver` | poisson_solver.dfy | `gpaw/poisson_solver.py`. The class `PoissonSolver` covers the level construction, the smoothing schedules and the relaxation selector. `iterate2` is modelled both as an operation trace over level indices and as an update of per-level arrays. It also covers `iterate`, and `solve` with its 200-cycle cap and one-shot monopole neutralisation. |
| `Density` | density.dfy | `gpaw/density.py`. The class `Density` covers the charge bookkeeping and the rescaling of `initialize`/`initialize2`. It also covers `interpolate_pseudo_density`, `update_pseudo_charge`, `update`, `move` and the `get_all_electron_density` dispatch. |
| `Setup` | setup.dfy | The index bookkeeping of `gpaw/setup.py`. This covers the initial occupation numbers, the density-matrix diagonal, the rotation blocks, the packed pair indices of `calculate_T_Lqp`, `set_hubbard_u` and `lcut`. |
| `Setups` | setups.dfy | `types2atomtypes`, and the `Setups` constructor that deduplicates setups and sums their totals (`gpaw/setup.py`) |
| `Kpoint` | kpoint.dfy | `gpaw/kpoint.py`. The class `KPoint` covers the root rank, `allocate`, `adjust_number_of_bands`, `add_to_density` on an `array<real>`, and `create_atomic_orbitals`. |
| `LongJobs` | jobs.dfy | The dependency job scheduler `Jobs` of `test/long/long.py`. Jobs move waiting → running → done/failed, and `fail` disables every transitive dependent. The module also covers the node and walltime arithmetic of `start`. |
| `Excitation` | excitation.dfy | `gridpaw/excitation.py`: `ExcitationList`, the Kohn–Sham transition enumeration of `KSSingles` and the oscillator-strength vector |
| `SelfEnergy` | selfenergy.dfy | The k-point partitioning of `CellSelfEnergy` in `gpaw/transport/selfenergy.py`. This covers the direction check of `initialize`, `divide_kpts` and the `tp_index` table of `get_tp_index`. The class uses the corrected duplicate test for the parallel parts (see "## Findings"); the test as written is modelled beside it. |

Imperative code stays imperative:
- Classes hold the fields the source reassigns.
- Loops become `while` loops with invariants.
- Each method is proved against a specification function, and the properties
  the source promises are proved about that function as lemmas.

## Model

| member | source | states |
|---|---|---|
| `PoissonSolver.RelaxMethod` | gpaw/poisson_solver.py:28-35 | `'GS'` selects method 1 and `'J'` selects method 2 (both directions); every other name is an error (NotImplementedError) |
| `PoissonSolver.CountLevelsIsFirstFailure` | gpaw/poisson_solver.py:51-66 | the number of levels is the count of successful coarsenings. It is at most 4, every level below it coarsened, and below 4 the next coarsening is the first failure |
| `PoissonSolver.StepAtIsPow4` | gpaw/poisson_solver.py:163 | the step handed to the call n levels coarser is 4^n times the level-0 step |
| `PoissonSolver.PoissonSolver.constructor` | gpaw/poisson_solver.py:15-71 | levels as counted by coarsening. Level 0 gets the chosen stencil and coarser levels the 1-neighbour Laplacian; the restrictor/interpolator pairs connect k and k+1. The schedules are presmooths 2,4,…, postsmooths 1,4,… and weights 2/3,1,…, with entry `levels` of both smoothing lists set to 8. The step is 0.66666666 over the diagonal element |
| `PoissonSolver.Create` | gpaw/poisson_solver.py:15-35 | construction fails exactly when the relaxation name is neither `'GS'` nor `'J'`; otherwise the solver has the selected method and the counted levels |
| `PoissonSolver.PoissonSolver.Iterate2` | gpaw/poisson_solver.py:146-177 | the new per-level arrays are those of one V-cycle from `level`, and the operation trace is the V-cycle's. An error value is returned only at level 0 |
| `PoissonSolver.PoissonSolver.VCycleOpsLevels` | gpaw/poisson_solver.py:146-171 | a cycle started at `level` only touches levels `level`..`levels` |
| `PoissonSolver.PoissonSolver.VCycleOwnLevel` | gpaw/poisson_solver.py:151-171 | at its own level a cycle performs, in order: presmooth, residual, restrict, zero the coarse phi, interpolate and subtract, postsmooth; the coarsest level only postsmooths |
| `PoissonSolver.PoissonSolver.VCycleCoarserLevel` | gpaw/poisson_solver.py:163 | what happens on coarser levels is exactly the recursive call with four times the step |
| `PoissonSolver.PoissonSolver.VCycleSchedule` | gpaw/poisson_solver.py:146-171 | the operations a cycle performs on level l form that level's schedule with the step multiplied by 4^(l-level) |
| `PoissonSolver.PoissonSolver.VCycleRelaxCount` | gpaw/poisson_solver.py:152-171 | a cycle from `level` relaxes exactly 2(levels-level)+1 times |
| `PoissonSolver.PoissonSolver.RelaxOpsFollowSchedule` | gpaw/poisson_solver.py:152-171 | every presmooth is below the coarsest level and uses `presmooths[level]` sweeps, so `presmooths[levels]` is never used. Every postsmooth uses `postsmooths[level]`, and each relaxation uses its level's weight |
| `PoissonSolver.PoissonSolver.VCycleFrame` | gpaw/poisson_solver.py:146-171 | a cycle from `level` leaves rho at its own level and every array of finer levels unchanged |
| `PoissonSolver.PoissonSolver.VCycleObservable` | gpaw/poisson_solver.py:146-171 | the new phi at `level` depends only on the phi and rho at that level |
| `PoissonSolver.PoissonSolver.DescendArrays` | gpaw/poisson_solver.py:152-162 | after the descent, phi at `level` is presmoothed, the coarse phi is zero, and the coarse rho is the restricted residual |
| `PoissonSolver.PoissonSolver.AscendPostsmoothPhi` | gpaw/poisson_solver.py:164-171 | on the way up, phi is corrected by the interpolated coarse phi and then postsmoothed |
| `PoissonSolver.PoissonSolver.VCycleResidual` | gpaw/poisson_solver.py:172-174 | the level-0 residual after a cycle is A phi - rho for the new phi |
| `PoissonSolver.PoissonSolver.CycleIgnoresCoarseArrays` | gpaw/poisson_solver.py:158-162 | the coarse-level arrays before a cycle have no effect on the new level-0 phi |
| `PoissonSolver.PoissonSolver.Cycle` | gpaw/poisson_solver.py:172-177 | a level-0 call updates phi by one V-cycle, keeps rho, and returns the error sum(r^2)·dv of the final residual |
| `PoissonSolver.PoissonSolver.Iterate` | gpaw/poisson_solver.py:120-143 | `iterate` as the two-pass scheme: the new arrays and the returned sum of squared second residuals, with the coarse correction from the recursive call; the new potential at `level` is `IteratePhi` of the potential and density there |
| `PoissonSolver.PoissonSolver.IterateFrame` | gpaw/poisson_solver.py:120-143 | `iterate` entered at `level` leaves the density at `level` and every array of finer levels unchanged |
| `PoissonSolver.PoissonSolver.IterateObservable` | gpaw/poisson_solver.py:120-143 | the potential `iterate` leaves at its level depends only on that level's potential and density: first residual (-rho below level 0), coarse correction from a zero coarse potential (a damped step at the coarsest level), then a damped step on the second residual |
| `PoissonSolver.PoissonSolver.ConvergeIsFirst` | gpaw/poisson_solver.py:110-116 | the count is the first cycle whose error is at most eps, or 200 when there is none |
| `PoissonSolver.PoissonSolver.SolveOutcome` | gpaw/poisson_solver.py:110-118 | a successful return lies in [1, 199], its cycle converged, and no earlier one did. ConvergenceError holds exactly when none of cycles 1..199 converged, the 200th included in the failure |
| `PoissonSolver.PoissonSolver.SolveNeutral` | gpaw/poisson_solver.py:105-118 | the outcome is the convergence count (or ConvergenceError), phi is iterated that many cycles, and rho is kept |
| `PoissonSolver.PoissonSolver.Solve` | gpaw/poisson_solver.py:79-118 | A None charge becomes the integral of rho. Above `maxcharge` the solver recurses once on rho - rho_gauss·q with phi shifted down by phi_gauss·q/(2√π), and shifts it back only on success. The result and the new phi are stated in both branches |
| `Density.ChooseMixer` | gpaw/density.py:87-90 | MixerSum is chosen exactly when nspins == 2 and (not fixmom or kT != 0) |
| `Density.Density.constructor` | gpaw/density.py:42-90 | nvalence0 = nvalence + charge and charge = charge + sum of (Z - Nv - Nc). The mixer is chosen as above. The arrays have the grid sizes |
| `Density.MatricesChargeScale` | gpaw/density.py:131-134 | scaling every density matrix by x scales their contribution to Q by x |
| `Density.SingleSpinRescale` | gpaw/density.py:131-140 | when Q0 != Q the matrices are scaled, otherwise the density. Division by zero happens exactly when Q0 == Q and Nt == 0 |
| `Density.SingleSpinRescaleBalances` | gpaw/density.py:130-140 | the chosen factor makes the electron count match: x(Q0 - Q) = Nt + Q0 + charge for the matrices, and Nt·x + Q = -charge for the density |
| `Density.TwoSpinFactors` | gpaw/density.py:150-164 | a factor stays 1 whenever its spin's integral vanishes. Both stay 1 when both vanish, and only the nonzero spin's factor is set when exactly one vanishes |
| `Density.SolvedPairSolves` | gpaw/density.py:162-164 | the 2×2 solution satisfies both equations |
| `Density.OnlySpinOneRescaled` | gpaw/density.py:154-156 | with spin 0 empty, spin 1 alone carries minus the total charge |
| `Density.OnlySpinZeroRescaled` | gpaw/density.py:157-159 | with spin 1 empty, spin 0 alone carries minus the total charge |
| `Density.BothSpinsRescaled` | gpaw/density.py:160-164 | with both spins nonempty, Nt0·x + Nt1·y = -(Q0+Q1+charge) and Nt0·x - Nt1·y = -Q0+Q1+M |
| `Density.PlausibleFactors` | gpaw/density.py:166-168 | for a neutral system the factors must lie in (0.83, 1.17): both for `initialize`, only x for `initialize2`. The factors pass unchanged otherwise |
| `Density.TwoSpinFactorsBalance` | gpaw/density.py:150-164 | the scaled spin densities carry minus the total charge and, when both spins are nonempty, the requested moment M |
| `Density.AllElectronGrid` | gpaw/density.py:376-398 | refinements 1, 2 and 4 select the coarse, fine and extra-fine grid (each both directions); any other value raises NotImplementedError |
| `Density.AllElectronGridAsWrittenDiffers` | gpaw/density.py:386-388 | the dispatch as written agrees with the intended one on all refinements except 4, where the undefined `Interpolator` fails |
| `Density.SpinDensityElectrons` | gpaw/density.py:296-300 | accumulating the k-point contributions of a spin loses no electrons: the summed density holds the sum of their electron counts |
| `Density.ArraySumTotal` | gpaw/density.py:346-352 | the smooth core density summed over nuclei holds the sum of their totals |
| `Density.ChargeCheck` | gpaw/density.py:283-285 | RuntimeError exactly when the excess charge exceeds 1e-7 in absolute value, carrying that excess |
| `Density.PseudoChargeIntegral` | gpaw/density.py:270-281 | the integral of the spin-summed density plus compensation charges is the sum of the parts' integrals |
| `Density.Density.ConserveChargeIntegral` | gpaw/density.py:258-268 | with a non-periodic axis and Nt != 0, the rescaled fine density integrates to the coarse count Nt0; otherwise it is unchanged |
| `Density.Density.InterpolatePseudoDensity` | gpaw/density.py:254-268 | the fine spin densities become the charge-conserving interpolation of the coarse ones, and nothing else changes |
| `Density.Density.SingleSpinMoments` | gpaw/density.py:121-128 | Q is the compensation charge of the matrices and Q0 is sqrt(4π) times the sum of Delta0 |
| `Density.Density.SpinMoments` | gpaw/density.py:143-148 | Q_s is sqrt(4π) times the sum of 0.5·Delta0 + D_sp[s]·Delta_pL[:,0] |
| `Density.Density.SingleSpinNeutral` | gpaw/density.py:120-140 | after single-spin matching, density plus compensation charge equals minus the total charge; division by zero only when Nt == 0 |
| `Density.Density.ScaledSpins` | gpaw/density.py:170-172 | spin 0 is scaled by x and spin 1 by y, and the matrices are kept |
| `Density.Density.TwoSpinNeutral` | gpaw/density.py:142-172 | after two-spin matching the densities balance the total charge, and the moment when both spins are nonempty. Failure is a plausibility error of a neutral system |
| `Density.Density.RescaleSingleSpin` | gpaw/density.py:120-140 | the single-spin branch changes the state to the matched single-spin state and keeps the other arrays |
| `Density.Density.RescaleTwoSpins` | gpaw/density.py:142-172 | the two-spin branch changes the state to the matched two-spin state and keeps the other arrays |
| `Density.Density.MatchCharge` | gpaw/density.py:117-177 | charge matching, then interpolation to the fine grid on success |
| `Density.Density.StartingElectrons` | gpaw/density.py:101-103 | the starting density of each spin holds the electrons of the core density plus those of its atomic density |
| `Density.Density.InitialGuess` | gpaw/density.py:101-111 | the initial guess fails (division by zero) exactly when nvalence != nvalence0 = 0 |
| `Density.Density.InitialGuessScaled` | gpaw/density.py:107-111 | density and matrices are both scaled by nvalence/nvalence0 when those differ |
| `Density.Density.Initialize` | gpaw/density.py:92-177 | `initialize`: the state changes to the starting guess, then to the charge-matched state and the fine densities |
| `Density.Density.UpdatePseudoCharge` | gpaw/density.py:270-285 | nt_g is the spin sum for two spins. rhot is nt_g plus the compensation charges, and the result is the charge check of its integral |
| `Density.Density.UpdatedElectrons` | gpaw/density.py:296-303 | the updated density of a spin holds its k-points' electrons plus the core's |
| `Density.Density.Update` | gpaw/density.py:287-344 | with `fixdensity` nothing changes. Otherwise the coarse density is the k-point accumulation plus the core density, the matrices are replaced, and the fine densities are re-interpolated |
| `Density.Density.Move` | gpaw/density.py:346-352 | the smooth core density becomes the sum of the nuclei's contributions and no other modelled field changes (`mixer.reset` is not modelled) |
| `Setup.NextShellSkips` | gpaw/setup.py:115-116 | the skip loop stops at the first shell with the wanted l and passes only other shells |
| `Setup.AdjustedConserves` | gpaw/setup.py:93-107 | charge adjustment keeps occupations within [0, 2(2l+1)], changes the total by exactly the charge consumed, and consumes all of it exactly when there is enough to remove or room to add |
| `Setup.RemovedFrom` | gpaw/setup.py:94-99 | removal from the highest shell down takes min(charge, what is left) |
| `Setup.AddedFrom` | gpaw/setup.py:100-106 | addition from the lowest shell up fills each shell up to its capacity |
| `Setup.AdjustCharge` | gpaw/setup.py:93-107 | the adjusted occupations and leftover charge are those of the specification |
| `Setup.RemoveCharge` | gpaw/setup.py:94-99 | the downward loop computes the specified adjustment |
| `Setup.AddCharge` | gpaw/setup.py:100-106 | the upward loop computes the specified adjustment |
| `Setup.OccupationBlock` | gpaw/setup.py:121-144 | a block has 2l+1 spin-up entries, and 2l+1 spin-down entries unless it is single-spin without Hund's rules |
| `Setup.HundBlockCounts` | gpaw/setup.py:124-133 | with Hund's rules there are min(f,d) ones spin-up and max(f-d,0) spin-down, for int(f) electrons, and magmom drops by their difference |
| `Setup.SingleSpinBlockCounts` | gpaw/setup.py:135-136 | a single-spin block holds f electrons and no moment |
| `Setup.SpreadMomentBound` | gpaw/setup.py:138-141 | the clamped moment is at most min(f, 2d-f) and equals magmom when that is within the bound |
| `Setup.TwoSpinBlockCounts` | gpaw/setup.py:137-144 | a two-spin block holds f electrons with moment mag, |mag| <= min(f, capacity-f), mag = magmom when allowed |
| `Setup.FillStep` | gpaw/setup.py:111-147 | each basis function appends the block of its matched shell and lowers magmom by the block's moment |
| `Setup.FillLayout` | gpaw/setup.py:146 | the block offset after k basis functions is the sum of their degeneracies |
| `Setup.FillMoment` | gpaw/setup.py:124-144 | magmom decreases by exactly the spin-up minus spin-down occupation placed |
| `Setup.ProjectorIndexShell` | gpaw/setup.py:565-571 | the (j, l, L) index list has one entry per m of every shell, in shell order, with L = l² + m |
| `Setup.MaxL` | gpaw/setup.py:577 | the maximum angular momentum of the shells |
| `Setup.Lcut` | gpaw/setup.py:577-580 | lcut is at least every l and at least lmax/2: max(l_j), raised to (lmax+1)//2 when that is below lmax/2 |
| `Setup.PairsEnumerate` | gpaw/setup.py:827-832 | the pair list enumerates exactly the pairs a <= b < n, and `PairIndex` is its inverse |
| `Setup.PairsLength` | gpaw/setup.py:827-832 | the pair list has n(n+1)/2 entries |
| `Setup.PairQIsPairIndex` | gpaw/setup.py:788-791 | q(j1, j2) is symmetric and is the position of the ordered pair in the compensation-charge enumeration |
| `Setup.TColumnRows` | gpaw/setup.py:786-794 | column p of T_Lqp holds the Gaunt row exactly in row q(j1, j2) and zeros elsewhere |
| `Setup.PackDiagonalLayout` | gpaw/setup.py:182-183 | the packed diagonal matrix has ni(ni+1)/2 entries: the diagonal at (a, a) and zero elsewhere |
| `Setup.DiagonalCopies` | gpaw/setup.py:177-178 | the diagonal entry of a matched basis function's orbital is copied from its `f_si` column |
| `Setup.DiagonalZeroElsewhere` | gpaw/setup.py:162-175 | projector functions not in the basis keep zero diagonal entries |
| `Setup.RotationLayout` | gpaw/setup.py:193-201 | R_sii is block diagonal: block j is R_lmm[l_j] and off-block entries are zero |
| `Setup.HubbardIndex` | gpaw/setup.py:259-263 | Hubi is the first index of the first shell with l = Hubl, or ni when there is none |
| `Setup.Setup.constructor` | gpaw/setup.py:565-580 | the setup keeps l_j, f_j, the basis and lmax, has no Hubbard U and no rotations |
| `Setup.Setup.InitialOccupations` | gpaw/setup.py:77-156 | An assertion failure happens exactly when Hund's rules are combined with custom f_j, or charge is left over. An index error happens exactly for Hund's rules with a single spin. Otherwise the rows are the block filling of the adjusted occupations, nspins rows of niAO entries |
| `Setup.Setup.FillRows` | gpaw/setup.py:109-147 | the loop over basis functions produces the specified filling and ends at offset niAO |
| `Setup.Setup.NextBlock` | gpaw/setup.py:111-147 | one iteration appends the next block |
| `Setup.Setup.SkipShells` | gpaw/setup.py:115-116 | the skip loop stops at the next shell with the wanted l |
| `Setup.Setup.FillBlock` | gpaw/setup.py:121-144 | one block's occupations are the specified block |
| `Setup.Setup.InitializeDensityMatrix` | gpaw/setup.py:158-184 | index error exactly when a basis block overruns `f_si`; otherwise every spin row is the packed diagonal of the copied occupations |
| `Setup.Setup.DiagonalRows` | gpaw/setup.py:162-181 | the loop builds the specified diagonals or reports the overrun |
| `Setup.Setup.DiagonalBlock` | gpaw/setup.py:168-181 | one basis function: skip shells, stop at the end of the shells, or copy one block |
| `Setup.Setup.PackRows` | gpaw/setup.py:182-183 | every spin row is packed |
| `Setup.Setup.CalculateTLqp` | gpaw/setup.py:782-796 | T_Lqp is filled for every pair p of projector indices |
| `Setup.Setup.TRow` | gpaw/setup.py:785-795 | one i1 fills the columns of its pairs, and p advances to the next row offset |
| `Setup.Setup.CompensationPairs` | gpaw/setup.py:827-832 | the nested j1 <= j2 loop enumerates the pair list and ends with q = nj(nj+1)/2 |
| `Setup.Setup.CalculateRotations` | gpaw/setup.py:193-201 | each symmetry's matrix is the block-diagonal rotation, and the Hubbard fields are kept |
| `Setup.Setup.Rotations` | gpaw/setup.py:194-201 | the loop builds every symmetry's rotation |
| `Setup.Setup.PlaceBlocks` | gpaw/setup.py:197-200 | one shell's block is placed in every symmetry's matrix |
| `Setup.Setup.SetHubbardU` | gpaw/setup.py:244-263 | the Hubbard fields are set, HubOcc is emptied and Hubi is the offset of the first shell with l = Hubl |
| `Setups.TypesToAtomTypes` | gpaw/setup.py:1049-1079 | A string type is replicated for every atom. A dict fails exactly on an out-of-range atom index; otherwise every atom gets its resolved type |
| `Setups.Lookup` | gpaw/setup.py:1065 | `types.get(None, default)` looks up a key |
| `Setups.ApplySymbolKeys` | gpaw/setup.py:1067-1072 | the symbol pass gives every atom the type of its symbol key |
| `Setups.IndexKeyWins` | gpaw/setup.py:1074-1077 | an atom-index key decides the atom's type over any symbol key |
| `Setups.SymbolKeyWins` | gpaw/setup.py:1067-1072 | without an index key, the atom's symbol key decides its type |
| `Setups.DefaultWithoutKeys` | gpaw/setup.py:1065 | without keys for an atom, its type is the None entry if present, else `default` |
| `Setups.DedupCounts` | gpaw/setup.py:1004-1022 | the setup ids are the distinct atom ids, each counted by its number of atoms |
| `Setups.WeightedIsAtomTotals` | gpaw/setup.py:1025-1035 | count-weighted sums over distinct setups equal the per-atom sums |
| `Setups.Setups.constructor` | gpaw/setup.py:994-1035 | The id of atom a is (Z_a, its `types2atomtypes` setup type with default 'paw', its basis with default None). One setup per distinct id, created once and shared by its atoms; one entry per atom. nvalence, nao, Eref and core_charge are per-atom sums |
| `Setups.NewSetups` | gpaw/setup.py:994-1002 | IndexError exactly when an atom index key of the setup types or of the basis sets is outside the atoms; otherwise a new `Setups` whose ids and totals are those of the constructor |
| `Setups.Setups.Collect` | gpaw/setup.py:1004-1023 | the loop creates each new id's setup once and counts its atoms |
| `Setups.Setups.SumTotals` | gpaw/setup.py:1025-1035 | the sum loop computes the count-weighted totals |
| `Kpoint.Abs2` | gpaw/kpoint.py:203 | |z|² is non-negative and is z² for real z |
| `Kpoint.BandDensityNonNegative` | gpaw/kpoint.py:199-203 | the band density Σ f_n·|psit_n|² is non-negative for non-negative occupations |
| `Kpoint.DeltaDensityInsignificant` | gpaw/kpoint.py:205-212 | coefficients with |ft| <= 1e-12 add nothing |
| `Kpoint.AdjustedEigenvalues` | gpaw/kpoint.py:149-156 | the first min(nao, nbands) eigenvalues are kept and extra bands get eps[nao-1] + 0.5 |
| `Kpoint.GrowThenShrink` | gpaw/kpoint.py:139-156 | adding bands and removing them again restores the eigenvalues |
| `Kpoint.ShrinkThenGrow` | gpaw/kpoint.py:139-156 | removing bands and adding them again keeps the prefix and fills the rest from the last kept one |
| `Kpoint.OrbitalSlices` | gpaw/kpoint.py:238-242 | nucleus b's orbitals occupy the contiguous slice starting at the sum of the earlier sizes |
| `Kpoint.AddInPlace` | gpaw/kpoint.py:200 | pointwise `nt_G += v` |
| `Kpoint.AddBands` | gpaw/kpoint.py:198-203 | nt_G gains exactly the band density |
| `Kpoint.AddDeltaRow` | gpaw/kpoint.py:209-212 | nt_G gains exactly one row of delta-SCF terms |
| `Kpoint.AddDeltaMatrix` | gpaw/kpoint.py:208-212 | nt_G gains exactly one matrix of delta-SCF terms |
| `Kpoint.AddDelta` | gpaw/kpoint.py:205-212 | nt_G gains exactly the delta-SCF density |
| `Kpoint.FillOrbitals` | gpaw/kpoint.py:238-243 | the running offset totals the nuclei's orbital counts; when they total nao the wave functions are the concatenated slices |
| `Kpoint.KPoint.constructor` | gpaw/kpoint.py:50-111 | weight, spin and k indices kept, root = u mod comm size, no wave functions yet |
| `Kpoint.KPoint.SetGridDescriptor` | gpaw/kpoint.py:113-118 | root becomes u mod the new comm size; nothing else changes |
| `Kpoint.KPoint.Allocate` | gpaw/kpoint.py:120-124 | nbands is set and eps_n, f_n get length nbands |
| `Kpoint.KPoint.AdjustNumberOfBands` | gpaw/kpoint.py:126-166 | Equal counts change nothing. Otherwise the first min(nao, nbands) wave functions and eigenvalues are kept, extra bands get eps[nao-1]+0.5 and the extra wave functions |
| `Kpoint.KPoint.AddToDensity` | gpaw/kpoint.py:196-212 | nt_G gains the band density and, when set, the delta-SCF density |
| `Kpoint.KPoint.CreateAtomicOrbitals` | gpaw/kpoint.py:227-243 | allocates nao bands; the assertion holds exactly when the nuclei's orbital counts total nao, and then the wave functions are their slices |
| `LongJobs.TableKeys` | test/long/long.py:75-81 | the job table has exactly the registered names |
| `LongJobs.TableEntries` | test/long/long.py:78 | every registered job maps to its (p, t, dependency names), the last registration of a name winning |
| `LongJobs.TableWellFormed` | test/long/long.py:75-81 | with distinct names, the registered dependency graph is acyclic and every dependency is itself registered |
| `LongJobs.Register` | test/long/long.py:75-81 | `add` registers dependencies before their job (post-order), appends to `names` in that order, and returns only the top-level names |
| `LongJobs.DependentsClosed` | test/long/long.py:120-127 | the set disabled by `fail` is closed under "depends on" |
| `LongJobs.DependentsGrounded` | test/long/long.py:120-127 | every disabled job depends on the failed job or on another disabled one |
| `LongJobs.FailFrom` | test/long/long.py:120-127 | `fail` marks exactly the transitive dependents 'disabled' |
| `LongJobs.Schedule` | test/long/long.py:86-101 | the scheduling loop, with its inner dependency loop, computes the pass `PassUpTo` over all names |
| `LongJobs.PassMeaning` | test/long/long.py:86-101 | A scheduling pass starts every waiting job whose dependencies are all done. It reports done exactly when no job is waiting or running, and then changes and starts nothing; or it stops at the first ready job whose processor count is not a multiple of 4, where the assertion in `start` fails |
| `LongJobs.PassStart` | test/long/long.py:97-98 | before a failed start no visited job fails the assertion; a failed start is the first such job, with it and every earlier job scheduled |
| `LongJobs.PassScheduled` | test/long/long.py:88-98 | until a start fails, visited jobs have their scheduled status and the others keep theirs |
| `LongJobs.PassSameDone` | test/long/long.py:88-98 | a pass makes no job done and undoes none, so readiness is the same before and during the pass |
| `LongJobs.PassIdle` | test/long/long.py:86-103 | a whole pass reports done exactly when no job is waiting or running, and then leaves the status as it was |
| `LongJobs.RunIdle` | test/long/long.py:86-103 | from a status with no job waiting or running, `run` returns done at once with nothing changed or started |
| `LongJobs.RunEnds` | test/long/long.py:83-118 | `run` ends done only when no job is waiting or running, ends without done or failed start only when the polls run out, and uses at most the polls given |
| `LongJobs.ScheduledAll` | test/long/long.py:89-99 | scheduling job by job matches the specified new statuses |
| `LongJobs.IdleAll` | test/long/long.py:86-103 | no job waiting or running anywhere is the same as none among the listed names |
| `LongJobs.ReadyAt` | test/long/long.py:93-96 | a job is ready iff every dependency is 'done' |
| `LongJobs.Complete` | test/long/long.py:107-118 | the completion pass moves running jobs with exit code 0 to 'done' and others with a code to 'failed', disabling their dependents |
| `LongJobs.CompletedResults` | test/long/long.py:107-118 | after completion a job is done only if it was done or ran with code 0, and failed only if it was failed or ran with a nonzero code |
| `LongJobs.RequestOf` | test/long/long.py:176-178 | a request exists exactly when p % 4 == 0, for p/4 nodes and walltime t//60 hours t%60 minutes |
| `LongJobs.Jobs.constructor` | test/long/long.py:54-69 | the jobs and names are the registration of the specs, and every job starts 'waiting' |
| `LongJobs.Jobs.Fail` | test/long/long.py:120-127 | the transitive dependents of the failed job become 'disabled' |
| `LongJobs.Jobs.SchedulingPass` | test/long/long.py:86-101 | one pass of the scheduling loop over the job table, with the status, done flag and failed start of `PassMeaning` |
| `LongJobs.Jobs.CompletionPass` | test/long/long.py:107-118 | one pass over the finished jobs with their exit codes |
| `LongJobs.Jobs.Run` | test/long/long.py:83-118 | the final status, done flag, rounds, submitted jobs and failed start are those of `RunFrom`, alternating scheduling and completion passes; `run` returns done only when no job is waiting or running, or else exhausts its polls |
| `Excitation.NewExcitationList` | gridpaw/excitation.py:12-20 | RuntimeError exactly when the calculator is None; otherwise an empty list on the calculator |
| `Excitation.PhysicalSpins` | gridpaw/excitation.py:95-99 | the ground state's spin count is kept unless it is below 2 and a larger `nspins` is requested, which then wins |
| `Excitation.Bound` | gridpaw/excitation.py:108-109 | the upper band bound is len(f) without `jend` and min(jend+1, len(f)) with it |
| `Excitation.SpinPairs` | gridpaw/excitation.py:112-118 | the nested i/j loop appends the transitions of one spin |
| `Excitation.SpinSinglesExactly` | gridpaw/excitation.py:112-118 | a pair is in the list iff both indices lie in [istart, bound) and f[i]-f[j] > eps, in (i, j) order |
| `Excitation.NoSymmetricPairs` | gridpaw/excitation.py:114-115 | with eps >= 0 no transition has i == j, and (i, j) and (j, i) are never both accepted |
| `Excitation.WeightAndEnergy` | gridpaw/excitation.py:132-140 | a transition's weight is f[i]-f[j] > eps and its energy e[j]-e[i], with its spins and dipole element |
| `Excitation.TransitionsOrdered` | gridpaw/excitation.py:102-118 | the transitions are in (spin, i, j) lexicographic order |
| `Excitation.TransitionIsAccepted` | gridpaw/excitation.py:102-118 | every listed transition has vspin 0 for an unpolarised ground state (else pspin), indices in range and an accepted occupation difference |
| `Excitation.AcceptedIsTransition` | gridpaw/excitation.py:102-118 | every accepted pair of every physical spin is listed |
| `Excitation.NewKSSingles` | gridpaw/excitation.py:71-118 | without a calculator, the ExcitationList error. Otherwise IndexError exactly when some spin's k-point or band index is out of range, else the enumerated transitions |
| `Excitation.OscillatorStrength` | gridpaw/excitation.py:37-45 | the vector is [s/3, 2me_x², 2me_y², 2me_z²] with s the sum of the components, all non-negative |
| `Excitation.StrengthNonNegative` | gridpaw/excitation.py:42 | each component 2me_c² is non-negative |
| `SelfEnergy.ColumnSumZero` | gpaw/transport/selfenergy.py:276 | the column sum of |kpts| is non-negative, and zero exactly when the column is all zero |
| `SelfEnergy.FlagMeaning` | gpaw/transport/selfenergy.py:276-282 | dim_flag[i] is 0 or 1, and 0 exactly when column i of kpts is all zero |
| `SelfEnergy.WrongDirectionMeaning` | gpaw/transport/selfenergy.py:283-290 | dim_type is between 0 and 3. The RuntimeError is raised exactly for dim_type 2 with the transport column all zero |
| `SelfEnergy.DimFlags` | gpaw/transport/selfenergy.py:276-282 | the loop fills the three flags |
| `SelfEnergy.TRowsComponents` | gpaw/transport/selfenergy.py:208-209 | every t_kpts row has three components, zero except component td, and reading the td components back gives the t values |
| `SelfEnergy.TPartsCover` | gpaw/transport/selfenergy.py:195-199 | t_kpts holds every kpt[td] and nothing else |
| `SelfEnergy.TPartsDistinct` | gpaw/transport/selfenergy.py:195-199 | t_kpts has no repeated value |
| `SelfEnergy.TPartsOrder` | gpaw/transport/selfenergy.py:195-199 | t_kpts lists values in first-occurrence order |
| `SelfEnergy.DistanceZero` | gpaw/transport/selfenergy.py:232 | the L1 distance is non-negative and zero exactly for equal points |
| `SelfEnergy.NewPointMeaning` | gpaw/transport/selfenergy.py:200-207 | the corrected test appends a zeroed kpt exactly when it is not yet in p_kpts |
| `SelfEnergy.PPartsAsWrittenMerges` | gpaw/transport/selfenergy.py:200-207 | for kpts [[0.5,0,0],[0,0.5,0]] and td = 2 the signed-sum test drops the second parallel part; the corrected list keeps both |
| `SelfEnergy.PPartsHead` | gpaw/transport/selfenergy.py:193-194 | p_kpts starts with kpts[0] with component td zeroed |
| `SelfEnergy.PPartsCover` | gpaw/transport/selfenergy.py:200-207 | every zeroed kpt is in p_kpts |
| `SelfEnergy.PPartsOrigin` | gpaw/transport/selfenergy.py:193-207 | every entry of p_kpts is some zeroed kpt |
| `SelfEnergy.PPartsDistinct` | gpaw/transport/selfenergy.py:200-207 | p_kpts has no repeated entry |
| `SelfEnergy.UniformWeights` | gpaw/transport/selfenergy.py:213-214 | the uniform weights 1/n over n entries sum to 1 |
| `SelfEnergy.ArgMinUpToMinimal` | gpaw/transport/selfenergy.py:226 | the argmin has the smallest distance, and no earlier index ties it (numpy's first minimum) |
| `SelfEnergy.ArgMinExact` | gpaw/transport/selfenergy.py:226-233 | an argmin over a list containing the point finds it, and it is the only match when entries are distinct |
| `SelfEnergy.LastAtMeaning` | gpaw/transport/selfenergy.py:234-235 | the entry written last in a cell is the last kpt mapped there, none if no kpt is |
| `SelfEnergy.TpIndexParts` | gpaw/transport/selfenergy.py:220-233 | every kpt's row holds its zeroed point and its column holds its td component |
| `SelfEnergy.CellMeaning` | gpaw/transport/selfenergy.py:220-233 | kpt m maps to cell (r, c) exactly when p_kpts[r] is its zeroed point and t_kpts[c] its td row |
| `SelfEnergy.PartsNonEmpty` | gpaw/transport/selfenergy.py:193-199 | for at least one kpt both lists are nonempty |
| `SelfEnergy.Divide` | gpaw/transport/selfenergy.py:192-207 | the loop builds t_kpts and the corrected p_kpts |
| `SelfEnergy.TpIndex` | gpaw/transport/selfenergy.py:216-235 | over the corrected p_kpts, the npk×ntk table holds at each cell the counter of the last kpt mapped to it, zero elsewhere |
| `SelfEnergy.CellSelfEnergy.constructor` | gpaw/transport/selfenergy.py:78-83 | the k-points and transport direction are kept, lists empty |
| `SelfEnergy.CellSelfEnergy.Initialize` | gpaw/transport/selfenergy.py:275-292 | RuntimeError for the wrong transport direction, IndexError without kpts, otherwise the divided lists (with the corrected p_kpts) and the tp_index table |
| `SelfEnergy.CellSelfEnergy.DivideKpts` | gpaw/transport/selfenergy.py:189-214 | IndexError exactly without kpts; otherwise t_kpts, the corrected p_kpts, their lengths and uniform weights |
| `SelfEnergy.CellSelfEnergy.GetTpIndex` | gpaw/transport/selfenergy.py:216-235 | the table is rebuilt from the divided lists, with the corrected p_kpts |
| `SelfEnergy.NewCellSelfEnergy` | gpaw/transport/selfenergy.py:77-89 | constructing `CellSelfEnergy` fails exactly for the wrong direction or no kpts (RuntimeError before IndexError), otherwise yields the divided object (corrected p_kpts) with its table |

## Left out

- Numerical kernels are opaque parameters with no contract beyond shape: stencil apply/relax, Transformer restriction and interpolation, Gaussian charge and potential, the nucleus methods (multipole moments, compensation charges, atomic densities, orbitals), and `symmetry.symmetrize`.
- Communicator sums and broadcasts are the identity (one rank); parallel distribution over `kpt_comm` and domains is not modelled.
- Floating point is modelled by exact reals: the `1e-9`/`1e-12`/`1e-7` thresholds compare reals, and `0.66666666` is a real constant.
- `npy.empty`/`gd.empty()` arrays are modelled as zero-filled. Their values are never read before being written in the modelled paths, except by `adjust_number_of_bands` with nao == 0 (see Kpoint.AdjustedEigenvalues below).
- PoissonSolver.PoissonSolver.constructor: requires a nonzero diagonal stencil element; the source divides by it (gpaw/poisson_solver.py:69) and would raise ZeroDivisionError.
- PoissonSolver.Create: the same nonzero-diagonal requirement as the constructor.
- PoissonSolver.PoissonSolver.Solve: the diagnostic `print 'CHARGE:', charge` before ConvergenceError (gpaw/poisson_solver.py:114-115) is output and is not modelled.
- PoissonSolver: the Mehrstellen right-hand side B is an opaque grid operation; `load_gauss` builds the Gaussians as opaque grids.
- PoissonSolver.PoissonSolver.Iterate: models `iterate` with the recursive call on its own arrays; the numeric content of the residuals is symbolic.
- Density: `calculate_local_magnetic_moments` and `get_density_array` are left out (a diagnostic and an accessor); the all-electron corrections after the grid dispatch of `get_all_electron_density` are numerics.
- Density: density matrices D_sp are opaque packed rows; only their l = 0 moments enter the model, and `update`'s matrix computation from projections is an input (`dNew`).
- Density.Density.MatchCharge: the prints of `initialize2` (`Nt_s` at gpaw/density.py:229, `x, y` at 242) are output and are not modelled.
- Density.Density.Update: the k-point contributions are given as per-spin arrays; symmetrisation and mixing are identities.
- Density.Density.MatchCharge: `mixer.mix` (gpaw/density.py:173 in `initialize`, 250 in `initialize2`) is the identity; the mixer's history and damping are not modelled, only which mixer is chosen.
- Density.Density.Initialize: `mixer.mix` (gpaw/density.py:173) is the identity, as in MatchCharge.
- Density.Density.Move: `mixer.reset` (gpaw/density.py:347) is not modelled, since the mixer has no state in the model.
- Setup: D_sii is represented by its diagonal, since `initialize_density_matrix` writes only diagonal entries; R_slmm blocks are data (`rotation` is not modelled); G_LLL is a function parameter.
- Setup.Setup.constructor: requires a nonempty l_j (`max` of an empty list raises) and occupations within capacity.
- Setup.Setup.InitialOccupations: requires occupations within [0, 2(2l+1)]; numpy slice clipping for over-full shells is not modelled.
- Setup.Setup.CalculateTLqp: requires nq and np to match the index list (numpy would raise IndexError otherwise); T_Lqp is stored as t[q][p][L].
- Setup: splines, radial integrals, Coulomb and kinetic corrections, the xc correction and `symmetrize` are numerics.
- Setups.Setups.constructor: requires that no atom index key of either types dictionary is outside the atoms; Setups.NewSetups is the call that raises IndexError in that case. `chemical_symbols` and `create_setup` are function parameters; basis-set loading is part of `create_setup`; `set_symmetry`'s rotation matrices are not modelled.
- Setups: Python 2 dictionary iteration order is arbitrary; the model visits dict entries in the given entry order.
- Kpoint: `random_wave_functions` supplies the extra wave functions as a parameter; projections `P_uni` of `adjust_number_of_bands`, `add_to_kinetic_density` and the `phase_cd` complex exponentials are left out.
- Kpoint.AdjustedEigenvalues: with nao == 0 and more bands the source reads `eps_n[-1]` of an uninitialised `npy.empty` array (gpaw/kpoint.py:155); the model reads the zero its allocation holds, so the new eigenvalues are 0.5.
- Kpoint.KPoint.AdjustNumberOfBands: requires wave functions when the band count changes; the source assumes `create_atomic_orbitals` ran first and would raise TypeError on `tmp_nG[:nmin]` (gpaw/kpoint.py:145-146) without them.
- Kpoint.KPoint.AddToDensity: requires the wave functions to exist, as the source does implicitly.
- LongJobs: job names are assumed distinct for the acyclicity lemmas; duplicates overwrite table entries exactly as the dict does.
- LongJobs: the dict iteration order of `for name in self.jobs` is modelled as registration order.
- LongJobs.Jobs.Run: bounded by the number of polls supplied (`RunFrom` stops when they run out, where the source keeps waiting); `sleep`, `.done` file I/O, logging, qsub and shell commands are left out, as are `install`, `cleanup` and `print_results`.
- Excitation: the dipole moment of a pair density is a function parameter (`moment(vspin, i, j)`); the augmentation loop has no effect in the source and is omitted; the `print` statement is I/O.
- Excitation.NewKSSingles: requires that every k-point has as many eigenvalues as occupations.
- Excitation: `GetEnergies`, `GetEnergy`, `GetWeight`, `GetDipolME` are field reads of the model's datatypes; `__str__` formatting is left out.
- SelfEnergy.CellSelfEnergy.DivideKpts: uses the corrected duplicate test (## Findings), so for kpts whose signed differences cancel, such as [[0.5,0,0],[0,0.5,0]] with td = 2, it keeps two parallel parts where the source keeps one.
- SelfEnergy.Divide: the corrected duplicate test, as in DivideKpts.
- SelfEnergy.TpIndex: built on the corrected p_kpts, as in DivideKpts.
- SelfEnergy.CellSelfEnergy.GetTpIndex: built on the corrected p_kpts, as in DivideKpts.
- SelfEnergy.CellSelfEnergy.Initialize: divides with the corrected p_kpts, as in DivideKpts.
- SelfEnergy.NewCellSelfEnergy: divides with the corrected p_kpts, as in DivideKpts.
- SelfEnergy: the transport direction is restricted to 0..2 and kpts to N×3 rows; negative numpy indices are not modelled.
- SelfEnergy: `substract_p_hs`, `LeadSelfEnergy`, the Green-function calls and the `h_skmm`/`s_kmm` matrices are numerics and are left out.
- gpaw/response/chi.py, gridpaw/coulomb.py, gpaw/wavefunctions/fd.py and the C sources are not part of this model (FFT, BLAS and I/O numerics).

## Findings

| source | as written | input that shows it | evidently intended | confidence | as-written member | corrected member |
|---|---|---|---|---|---|---|
| gpaw/density.py:386-388 | refinement 4 calls `Interpolator`, a name that is neither defined nor imported in the module | `get_all_electron_density(gridrefinement=4)` raises NameError | refinement 4 interpolates to the extra-fine grid | not executed | `Density.AllElectronGridAsWritten` (`Density.AllElectronGridAsWrittenDiffers`) | `Density.AllElectronGrid` |
| gpaw/transport/selfenergy.py:202-207 | the duplicate test for parallel parts sums the signed coordinate differences, so distinct points whose differences cancel count as equal | kpts [[0.5,0,0],[0,0.5,0]] with td = 2 gives p_kpts [[0.5,0,0]]; `get_tp_index` then maps both kpts to row 0 | the L1 distance `np.sum(abs(...), axis=1)` as in `get_tp_index` | not executed | `SelfEnergy.PPartsAsWritten` (`SelfEnergy.PPartsAsWrittenMerges`) | `SelfEnergy.PParts` (`SelfEnergy.NewPointMeaning`, `SelfEnergy.PPartsDistinct`, `SelfEnergy.PPartsCover`) |
