/** The k-point bookkeeping of the transport cell self-energy
    (`CellSelfEnergy` in `gpaw/transport/selfenergy.py`): which axes the
    k-points span, the split of every k-point into its component along the
    transport direction and its parallel part, and the table that maps a
    (parallel, transport) pair back to a k-point.

    K-points are rows of three reals. The Green-function numerics
    (self-energies, Fourier sums, matrix inverses) are not modelled. */
module SelfEnergy {
  import opened Common

  datatype Error = RuntimeError | IndexError

  /** `kpts` is an N x 3 array. */
  predicate Shaped(kpts: seq<seq<real>>)
  {
    forall n :: 0 <= n < |kpts| ==> |kpts[n]| == 3
  }

  // ---------------------------------------------------------------------
  // `initialize`: the axes the k-points span
  // ---------------------------------------------------------------------

  /** `np.sum(abs(kpts), axis=0)[i]` over the first n k-points. */
  function ColumnSum(kpts: seq<seq<real>>, i: nat, n: nat): real
    requires Shaped(kpts) && i < 3 && n <= |kpts|
  {
    if n == 0 then 0.0 else ColumnSum(kpts, i, n - 1) + Abs(kpts[n - 1][i])
  }

  lemma {:induction false} ColumnSumZero(kpts: seq<seq<real>>, i: nat, n: nat)
    requires Shaped(kpts) && i < 3 && n <= |kpts|
    ensures ColumnSum(kpts, i, n) >= 0.0
    ensures ColumnSum(kpts, i, n) == 0.0 <==> forall m :: 0 <= m < n ==> kpts[m][i] == 0.0
  {
    if n > 0 {
      ColumnSumZero(kpts, i, n - 1);
    }
  }

  /** `dim_flag[i]`. */
  function Flag(kpts: seq<seq<real>>, i: nat): int
    requires Shaped(kpts) && i < 3
  {
    if ColumnSum(kpts, i, |kpts|) == 0.0 then 0 else 1
  }

  /** `dim_type`: the number of axes the k-points span. */
  function DimType(kpts: seq<seq<real>>): int
    requires Shaped(kpts)
  {
    Flag(kpts, 0) + Flag(kpts, 1) + Flag(kpts, 2)
  }

  /** The condition under which `initialize` raises
      'Wrong transport direction for env'. */
  predicate WrongDirection(kpts: seq<seq<real>>, td: nat)
    requires Shaped(kpts) && td < 3
  {
    DimType(kpts) == 2 && Flag(kpts, td) != 1
  }

  /** An axis is flagged 0 exactly when every k-point has a zero component
      along it. */
  lemma FlagMeaning(kpts: seq<seq<real>>, i: nat)
    requires Shaped(kpts) && i < 3
    ensures Flag(kpts, i) == 0 || Flag(kpts, i) == 1
    ensures Flag(kpts, i) == 0 <==> forall m :: 0 <= m < |kpts| ==> kpts[m][i] == 0.0
  {
    ColumnSumZero(kpts, i, |kpts|);
  }

  /** The direction check fails exactly when the k-points span two axes
      and the transport direction is not one of them. */
  lemma WrongDirectionMeaning(kpts: seq<seq<real>>, td: nat)
    requires Shaped(kpts) && td < 3
    ensures 0 <= DimType(kpts) <= 3
    ensures WrongDirection(kpts, td) <==> DimType(kpts) == 2 && forall m :: 0 <= m < |kpts| ==> kpts[m][td] == 0.0
  {
    FlagMeaning(kpts, 0);
    FlagMeaning(kpts, 1);
    FlagMeaning(kpts, 2);
  }

  /** The loop that fills `dim_flag`. */
  method DimFlags(kpts: seq<seq<real>>) returns (flag: array<int>)
    requires Shaped(kpts)
    ensures fresh(flag) && flag.Length == 3
    ensures forall i :: 0 <= i < 3 ==> flag[i] == Flag(kpts, i)
  {
    var dim := [ColumnSum(kpts, 0, |kpts|), ColumnSum(kpts, 1, |kpts|), ColumnSum(kpts, 2, |kpts|)];
    flag := new int[3];
    for i := 0 to 3
      invariant forall i' :: 0 <= i' < i ==> flag[i'] == Flag(kpts, i')
    {
      if dim[i] == 0.0 {
        flag[i] := 0;
      } else {
        flag[i] := 1;
      }
    }
  }

  // ---------------------------------------------------------------------
  // `divide_kpts`
  // ---------------------------------------------------------------------

  /** Component i of a row; rows here always have three. */
  function Coord(a: seq<real>, i: nat): real
  {
    if i < |a| then a[i] else 0.0
  }

  /** `kpt.copy()` with component td set to 0. */
  function Zeroed(k: seq<real>, td: nat): seq<real>
  {
    if td < |k| then k[td := 0.0] else k
  }

  /** A row of `self.t_kpts`: x at position td, zeros elsewhere. */
  function Axis(td: nat, x: real): seq<real>
    requires td < 3
  {
    Zeros(3)[td := x]
  }

  /** The rows of `self.t_kpts`. */
  function TRows(ts: seq<real>, td: nat): (r: seq<seq<real>>)
    requires td < 3
    ensures |r| == |ts|
    ensures forall q :: 0 <= q < |ts| ==> r[q] == Axis(td, ts[q])
  {
    seq(|ts|, q requires 0 <= q < |ts| => Axis(td, ts[q]))
  }

  /** Reading the rows back: component td of row q is ts[q] and the other
      two components are zero, so the td column of the rows is ts. */
  lemma TRowsComponents(ts: seq<real>, td: nat)
    requires td < 3
    ensures forall q :: 0 <= q < |ts| ==> |TRows(ts, td)[q]| == 3
    ensures forall q, c :: 0 <= q < |ts| && 0 <= c < 3 ==> TRows(ts, td)[q][c] == if c == td then ts[q] else 0.0
    ensures seq(|ts|, q requires 0 <= q < |ts| => TRows(ts, td)[q][td]) == ts
  {
    var r := TRows(ts, td);
    forall q | 0 <= q < |ts|
      ensures |r[q]| == 3 && r[q][td] == ts[q]
    {
      assert r[q] == Zeros(3)[td := ts[q]];
    }
  }

  /** The list `t_kpts` after the first n k-points: each new component
      along td is appended. */
  function TParts(kpts: seq<seq<real>>, td: nat, n: nat): seq<real>
    requires Shaped(kpts) && td < 3 && n <= |kpts|
  {
    if n == 0 then []
    else
      var t := TParts(kpts, td, n - 1);
      if kpts[n - 1][td] in t then t else t + [kpts[n - 1][td]]
  }

  /** The signed sum of the coordinate differences, `np.sum(a - b)`. */
  function Difference(a: seq<real>, b: seq<real>): real
  {
    (Coord(a, 0) - Coord(b, 0)) + (Coord(a, 1) - Coord(b, 1)) + (Coord(a, 2) - Coord(b, 2))
  }

  /** The L1 distance, `np.sum(abs(a - b))`. */
  function Distance(a: seq<real>, b: seq<real>): real
  {
    Abs(Coord(a, 0) - Coord(b, 0)) + Abs(Coord(a, 1) - Coord(b, 1)) + Abs(Coord(a, 2) - Coord(b, 2))
  }

  predicate Rows3(p: seq<seq<real>>)
  {
    forall r :: 0 <= r < |p| ==> |p[r]| == 3
  }

  /** Two rows of three are at distance 0 exactly when they are equal. */
  lemma DistanceZero(a: seq<real>, b: seq<real>)
    requires |a| == 3 && |b| == 3
    ensures Distance(a, b) >= 0.0
    ensures Distance(a, b) == 0.0 <==> a == b
  {
    if Distance(a, b) == 0.0 {
      assert a[0] == b[0] && a[1] == b[1] && a[2] == b[2];
      assert a == [a[0], a[1], a[2]] && b == [b[0], b[1], b[2]];
    }
  }

  /** The test in `divide_kpts` AS WRITTEN: x is appended when its signed
      coordinate-difference sum to every listed row is nonzero. */
  predicate NewAsWritten(p: seq<seq<real>>, x: seq<real>)
  {
    forall r :: 0 <= r < |p| ==> Difference(x, p[r]) != 0.0
  }

  /** The evidently intended test: x is at nonzero L1 distance from every
      listed row. */
  predicate NewPoint(p: seq<seq<real>>, x: seq<real>)
  {
    forall r :: 0 <= r < |p| ==> Distance(x, p[r]) != 0.0
  }

  /** The intended test appends exactly the rows not yet listed. */
  lemma NewPointMeaning(p: seq<seq<real>>, x: seq<real>)
    requires Rows3(p) && |x| == 3
    ensures NewPoint(p, x) <==> x !in p
  {
    forall r | 0 <= r < |p|
      ensures Distance(x, p[r]) == 0.0 <==> x == p[r]
    {
      DistanceZero(x, p[r]);
    }
  }

  /** `p_kpts` after the first n k-points, as written. */
  function PPartsAsWritten(kpts: seq<seq<real>>, td: nat, n: nat): seq<seq<real>>
    requires 0 < |kpts| && n <= |kpts|
  {
    if n == 0 then [Zeroed(kpts[0], td)]
    else
      var p := PPartsAsWritten(kpts, td, n - 1);
      var x := Zeroed(kpts[n - 1], td);
      if NewAsWritten(p, x) then p + [x] else p
  }

  /** `p_kpts` after the first n k-points, with the L1 test. */
  function PParts(kpts: seq<seq<real>>, td: nat, n: nat): seq<seq<real>>
    requires 0 < |kpts| && n <= |kpts|
  {
    if n == 0 then [Zeroed(kpts[0], td)]
    else
      var p := PParts(kpts, td, n - 1);
      var x := Zeroed(kpts[n - 1], td);
      if NewPoint(p, x) then p + [x] else p
  }

  /** As written, two different parallel parts whose coordinates have the
      same sum are merged: (0.5, 0, 0) and (0, 0.5, 0) along td = 2 leave a
      single entry, and the second k-point's parallel part is lost. */
  lemma PPartsAsWrittenMerges()
    ensures var kpts := [[0.5, 0.0, 0.0], [0.0, 0.5, 0.0]];
            && PPartsAsWritten(kpts, 2, 2) == [[0.5, 0.0, 0.0]]
            && Zeroed(kpts[1], 2) !in PPartsAsWritten(kpts, 2, 2)
            && PParts(kpts, 2, 2) == [[0.5, 0.0, 0.0], [0.0, 0.5, 0.0]]
  {
    var kpts := [[0.5, 0.0, 0.0], [0.0, 0.5, 0.0]];
    var a := [0.5, 0.0, 0.0];
    var b := [0.0, 0.5, 0.0];
    assert Zeroed(kpts[0], 2) == a;
    assert Zeroed(kpts[1], 2) == b;
    assert PPartsAsWritten(kpts, 2, 0) == [a];
    assert Difference(a, a) == 0.0;
    assert PPartsAsWritten(kpts, 2, 1) == [a];
    assert Difference(b, a) == 0.0;
    assert PPartsAsWritten(kpts, 2, 2) == [a];
    assert PParts(kpts, 2, 1) == [a];
    assert Distance(b, a) == 1.0;
    assert NewPoint([a], b);
    assert b != a by {
      assert b[0] != a[0];
    }
  }

  /** Every k-point's component along td is listed, and only those. */
  lemma {:induction false} TPartsCover(kpts: seq<seq<real>>, td: nat, n: nat)
    requires Shaped(kpts) && td < 3 && n <= |kpts|
    ensures forall m :: 0 <= m < n ==> kpts[m][td] in TParts(kpts, td, n)
    ensures forall r :: 0 <= r < |TParts(kpts, td, n)| ==>
              exists m :: 0 <= m < n && kpts[m][td] == TParts(kpts, td, n)[r]
  {
    if n > 0 {
      TPartsCover(kpts, td, n - 1);
      var t := TParts(kpts, td, n - 1);
      var t' := TParts(kpts, td, n);
      assert t' == t || t' == t + [kpts[n - 1][td]];
      forall m | 0 <= m < n
        ensures kpts[m][td] in t'
      {
        if m < n - 1 {
          assert kpts[m][td] in t;
        }
      }
      forall r | 0 <= r < |t'|
        ensures exists m :: 0 <= m < n && kpts[m][td] == t'[r]
      {
        if r < |t| {
          assert t'[r] == t[r];
          var m :| 0 <= m < n - 1 && kpts[m][td] == t[r];
          assert kpts[m][td] == t'[r];
        } else {
          assert kpts[n - 1][td] == t'[r];
        }
      }
    } else {
      assert TParts(kpts, td, n) == [];
    }
  }

  /** The listed components are distinct. */
  lemma {:induction false} TPartsDistinct(kpts: seq<seq<real>>, td: nat, n: nat)
    requires Shaped(kpts) && td < 3 && n <= |kpts|
    ensures forall r, r' :: 0 <= r < r' < |TParts(kpts, td, n)| ==> TParts(kpts, td, n)[r] != TParts(kpts, td, n)[r']
  {
    if n > 0 {
      TPartsDistinct(kpts, td, n - 1);
      var t := TParts(kpts, td, n - 1);
      var t' := TParts(kpts, td, n);
      forall r, r' | 0 <= r < r' < |t'|
        ensures t'[r] != t'[r']
      {
        assert t'[r] == t[r];
        if r' < |t| {
          assert t'[r'] == t[r'];
        } else {
          assert t'[r'] !in t;
        }
      }
    }
  }

  /** First-occurrence order: every k-point carrying a later-listed
      component is preceded by one carrying an earlier-listed component. */
  lemma {:induction false} TPartsOrder(kpts: seq<seq<real>>, td: nat, n: nat)
    requires Shaped(kpts) && td < 3 && n <= |kpts|
    ensures forall r, r', m :: 0 <= r < r' < |TParts(kpts, td, n)| && 0 <= m < n && kpts[m][td] == TParts(kpts, td, n)[r'] ==>
              exists m' :: 0 <= m' < m && kpts[m'][td] == TParts(kpts, td, n)[r]
  {
    if n > 0 {
      var t := TParts(kpts, td, n - 1);
      var t' := TParts(kpts, td, n);
      TPartsOrder(kpts, td, n - 1);
      TPartsCover(kpts, td, n - 1);
      assert t' == t || t' == t + [kpts[n - 1][td]];
      forall r, r', m | 0 <= r < r' < |t'| && 0 <= m < n && kpts[m][td] == t'[r']
        ensures exists m' :: 0 <= m' < m && kpts[m'][td] == t'[r]
      {
        assert r < |t| && t'[r] == t[r];
        if m < n - 1 {
          assert kpts[m][td] in t;
          assert r' < |t|;
          assert t'[r'] == t[r'];
        } else {
          var m' :| 0 <= m' < n - 1 && kpts[m'][td] == t[r];
          assert m' < m && kpts[m'][td] == t'[r];
        }
      }
    }
  }

  /** The first row is the first k-point's parallel part and all rows
      have three components. */
  lemma {:induction false} PPartsHead(kpts: seq<seq<real>>, td: nat, n: nat)
    requires Shaped(kpts) && td < 3 && 0 < |kpts| && n <= |kpts|
    ensures 0 < |PParts(kpts, td, n)| && PParts(kpts, td, n)[0] == Zeroed(kpts[0], td)
    ensures Rows3(PParts(kpts, td, n))
  {
    if n > 0 {
      PPartsHead(kpts, td, n - 1);
    }
  }

  /** Every k-point's parallel part is listed. */
  lemma {:induction false} PPartsCover(kpts: seq<seq<real>>, td: nat, n: nat)
    requires Shaped(kpts) && td < 3 && 0 < |kpts| && n <= |kpts|
    ensures forall m :: 0 <= m < n ==> Zeroed(kpts[m], td) in PParts(kpts, td, n)
  {
    if n > 0 {
      PPartsCover(kpts, td, n - 1);
      PPartsHead(kpts, td, n - 1);
      var p := PParts(kpts, td, n - 1);
      NewPointMeaning(p, Zeroed(kpts[n - 1], td));
    }
  }

  /** Each listed row is the parallel part of a k-point: the first one, or
      one of the first n. */
  lemma {:induction false} PPartsOrigin(kpts: seq<seq<real>>, td: nat, n: nat)
    requires Shaped(kpts) && td < 3 && 0 < |kpts| && n <= |kpts|
    ensures forall r :: 0 <= r < |PParts(kpts, td, n)| ==>
              exists m :: 0 <= m < |kpts| && (m < n || m == 0) && PParts(kpts, td, n)[r] == Zeroed(kpts[m], td)
  {
    if n == 0 {
      assert PParts(kpts, td, 0)[0] == Zeroed(kpts[0], td);
    } else {
      PPartsOrigin(kpts, td, n - 1);
      var p := PParts(kpts, td, n - 1);
      var p' := PParts(kpts, td, n);
      forall r | 0 <= r < |p'|
        ensures exists m :: 0 <= m < |kpts| && (m < n || m == 0) && p'[r] == Zeroed(kpts[m], td)
      {
        if r < |p| {
          assert p'[r] == p[r];
          var m :| 0 <= m < |kpts| && (m < n - 1 || m == 0) && p[r] == Zeroed(kpts[m], td);
          assert p'[r] == Zeroed(kpts[m], td);
        } else {
          assert p'[r] == Zeroed(kpts[n - 1], td);
        }
      }
    }
  }

  /** No row is listed twice. */
  lemma {:induction false} PPartsDistinct(kpts: seq<seq<real>>, td: nat, n: nat)
    requires Shaped(kpts) && td < 3 && 0 < |kpts| && n <= |kpts|
    ensures forall r, r' :: 0 <= r < r' < |PParts(kpts, td, n)| ==> PParts(kpts, td, n)[r] != PParts(kpts, td, n)[r']
  {
    if n > 0 {
      PPartsDistinct(kpts, td, n - 1);
      PPartsHead(kpts, td, n - 1);
      var p := PParts(kpts, td, n - 1);
      var p' := PParts(kpts, td, n);
      var x := Zeroed(kpts[n - 1], td);
      NewPointMeaning(p, x);
      forall r, r' | 0 <= r < r' < |p'|
        ensures p'[r] != p'[r']
      {
        assert p'[r] == p[r];
        if r' < |p| {
          assert p'[r'] == p[r'];
        } else {
          assert p'[r'] == x && x !in p;
        }
      }
    }
  }

  /** A list of `1/n` repeated n times sums to 1. */
  lemma UniformWeights(n: nat)
    requires n > 0
    ensures Sum(Constant(n, 1.0 / (n as real))) == 1.0
  {
    SumConstant(n, 1.0 / (n as real));
    DivideBack(n as real, 1.0);
  }

  // ---------------------------------------------------------------------
  // `get_tp_index`
  // ---------------------------------------------------------------------

  /** `np.argmin` of the L1 distances from x to rows[0 .. n-1]: the first
      index of the smallest distance. */
  function ArgMinUpTo(rows: seq<seq<real>>, x: seq<real>, n: nat): (b: nat)
    requires 0 < n <= |rows|
    ensures b < n
  {
    if n == 1 then 0
    else
      var b := ArgMinUpTo(rows, x, n - 1);
      if Distance(rows[n - 1], x) < Distance(rows[b], x) then n - 1 else b
  }

  /** The arg-min is a smallest distance, and every earlier index is
      strictly farther. */
  lemma {:induction false} ArgMinUpToMinimal(rows: seq<seq<real>>, x: seq<real>, n: nat)
    requires 0 < n <= |rows|
    ensures forall q :: 0 <= q < n ==> Distance(rows[ArgMinUpTo(rows, x, n)], x) <= Distance(rows[q], x)
    ensures forall q :: 0 <= q < ArgMinUpTo(rows, x, n) ==> Distance(rows[q], x) > Distance(rows[ArgMinUpTo(rows, x, n)], x)
  {
    if n > 1 {
      ArgMinUpToMinimal(rows, x, n - 1);
    }
  }

  function ArgMin(rows: seq<seq<real>>, x: seq<real>): nat
    requires 0 < |rows|
  {
    ArgMinUpTo(rows, x, |rows|)
  }

  /** When x itself is listed, the arg-min finds it, and among distinct
      rows it is the only index holding x. */
  lemma ArgMinExact(rows: seq<seq<real>>, x: seq<real>)
    requires 0 < |rows| && Rows3(rows) && |x| == 3 && x in rows
    ensures ArgMin(rows, x) < |rows| && rows[ArgMin(rows, x)] == x
    ensures (forall r, r' :: 0 <= r < r' < |rows| ==> rows[r] != rows[r']) ==>
              forall q :: 0 <= q < |rows| && rows[q] == x ==> q == ArgMin(rows, x)
  {
    var b := ArgMin(rows, x);
    ArgMinUpToMinimal(rows, x, |rows|);
    var q :| 0 <= q < |rows| && rows[q] == x;
    DistanceZero(rows[q], x);
    DistanceZero(rows[b], x);
  }

  /** The column `col_index` of k-point n. */
  function ColOf(kpts: seq<seq<real>>, td: nat, tk: seq<seq<real>>, n: nat): nat
    requires Shaped(kpts) && td < 3 && n < |kpts| && 0 < |tk|
  {
    ArgMin(tk, Axis(td, kpts[n][td]))
  }

  /** The row `row_index` of k-point n. */
  function RowOf(kpts: seq<seq<real>>, td: nat, pk: seq<seq<real>>, n: nat): nat
    requires n < |kpts| && 0 < |pk|
  {
    ArgMin(pk, Zeroed(kpts[n], td))
  }

  /** The cell (row_index, col_index) k-point n is written to. */
  function Cell(kpts: seq<seq<real>>, td: nat, tk: seq<seq<real>>, pk: seq<seq<real>>, n: nat): (nat, nat)
    requires Shaped(kpts) && td < 3 && n < |kpts| && 0 < |tk| && 0 < |pk|
  {
    (RowOf(kpts, td, pk, n), ColOf(kpts, td, tk, n))
  }

  /** The cells of all k-points, in order. */
  function Cells(kpts: seq<seq<real>>, td: nat, tk: seq<seq<real>>, pk: seq<seq<real>>): (cs: seq<(nat, nat)>)
    requires Shaped(kpts) && td < 3 && 0 < |tk| && 0 < |pk|
    ensures |cs| == |kpts|
  {
    seq(|kpts|, n requires 0 <= n < |kpts| => Cell(kpts, td, tk, pk, n))
  }

  /** The last of the first n writes that went to (r, c). */
  function LastAt(cells: seq<(nat, nat)>, r: int, c: int, n: nat): Option<nat>
    requires n <= |cells|
  {
    if n == 0 then None
    else if cells[n - 1] == (r, c) then Some(n - 1)
    else LastAt(cells, r, c, n - 1)
  }

  /** `tp_index[r, c]` after the first n writes (0 where none was written). */
  function Entry(cells: seq<(nat, nat)>, r: int, c: int, n: nat): nat
    requires n <= |cells|
  {
    match LastAt(cells, r, c, n)
    case None => 0
    case Some(m) => m
  }

  /** Later k-points overwrite earlier ones: an entry holds the last
      k-point written there, and none when no k-point maps there. */
  lemma {:induction false} LastAtMeaning(cells: seq<(nat, nat)>, r: int, c: int, n: nat)
    requires n <= |cells|
    ensures LastAt(cells, r, c, n).None? ==> forall m :: 0 <= m < n ==> cells[m] != (r, c)
    ensures LastAt(cells, r, c, n).Some? ==>
              var m := LastAt(cells, r, c, n).value;
              && m < n && cells[m] == (r, c)
              && forall m' :: m < m' < n ==> cells[m'] != (r, c)
  {
    if n > 0 && cells[n - 1] != (r, c) {
      LastAtMeaning(cells, r, c, n - 1);
    }
  }

  /** With the tables of `divide_kpts`, every k-point is written at the
      row of its parallel part and the column of its transport component. */
  lemma TpIndexParts(kpts: seq<seq<real>>, td: nat, m: nat)
    requires Shaped(kpts) && td < 3 && m < |kpts|
    ensures var tk := TRows(TParts(kpts, td, |kpts|), td);
            var pk := PParts(kpts, td, |kpts|);
            && 0 < |tk| && 0 < |pk|
            && RowOf(kpts, td, pk, m) < |pk| && pk[RowOf(kpts, td, pk, m)] == Zeroed(kpts[m], td)
            && ColOf(kpts, td, tk, m) < |tk| && tk[ColOf(kpts, td, tk, m)] == Axis(td, kpts[m][td])
  {
    var ts := TParts(kpts, td, |kpts|);
    var tk := TRows(ts, td);
    var pk := PParts(kpts, td, |kpts|);
    TPartsCover(kpts, td, |kpts|);
    PPartsCover(kpts, td, |kpts|);
    PPartsHead(kpts, td, |kpts|);
    var x := kpts[m][td];
    assert x in ts;
    var q :| 0 <= q < |ts| && ts[q] == x;
    assert tk[q] == Axis(td, x);
    ArgMinExact(tk, Axis(td, x));
    ArgMinExact(pk, Zeroed(kpts[m], td));
  }

  /** Both ways: k-point m is written at (r, c) exactly when row r of
      `p_kpts` is its parallel part and row c of `t_kpts` carries its
      transport component. With `LastAtMeaning`, `tp_index[r, c]` is the
      last k-point with that parallel part and that transport component. */
  lemma CellMeaning(kpts: seq<seq<real>>, td: nat, m: nat, r: nat, c: nat)
    requires Shaped(kpts) && td < 3 && m < |kpts|
    ensures var tk := TRows(TParts(kpts, td, |kpts|), td);
            var pk := PParts(kpts, td, |kpts|);
            && 0 < |tk| && 0 < |pk|
            && (r < |pk| && c < |tk| ==>
                  (Cells(kpts, td, tk, pk)[m] == (r, c) <==> pk[r] == Zeroed(kpts[m], td) && tk[c] == Axis(td, kpts[m][td])))
  {
    var ts := TParts(kpts, td, |kpts|);
    var tk := TRows(ts, td);
    var pk := PParts(kpts, td, |kpts|);
    TpIndexParts(kpts, td, m);
    if r < |pk| && c < |tk| {
      var row := RowOf(kpts, td, pk, m);
      var col := ColOf(kpts, td, tk, m);
      assert Cells(kpts, td, tk, pk)[m] == (row, col);
      PPartsDistinct(kpts, td, |kpts|);
      TPartsDistinct(kpts, td, |kpts|);
      forall q, q' | 0 <= q < q' < |tk|
        ensures tk[q] != tk[q']
      {
        assert tk[q][td] == ts[q] && tk[q'][td] == ts[q'];
      }
    }
  }

  /** Both lists are nonempty once there is a k-point. */
  lemma PartsNonEmpty(kpts: seq<seq<real>>, td: nat)
    requires Shaped(kpts) && td < 3 && 0 < |kpts|
    ensures 0 < |TParts(kpts, td, |kpts|)| && 0 < |PParts(kpts, td, |kpts|)|
  {
    TPartsCover(kpts, td, |kpts|);
    assert kpts[0][td] in TParts(kpts, td, |kpts|);
    PPartsHead(kpts, td, |kpts|);
  }

  /** The loop of `divide_kpts` over the k-points. */
  method Divide(kpts: seq<seq<real>>, td: nat) returns (t: seq<real>, p: seq<seq<real>>)
    requires Shaped(kpts) && td < 3 && 0 < |kpts|
    ensures t == TParts(kpts, td, |kpts|)
    ensures p == PParts(kpts, td, |kpts|)
  {
    t := [];
    p := [Zeroed(kpts[0], td)];
    for n := 0 to |kpts|
      invariant t == TParts(kpts, td, n)
      invariant p == PParts(kpts, td, n)
    {
      var kpt := kpts[n];
      if kpt[td] !in t {
        t := t + [kpt[td]];
      }
      var pkpt := Zeroed(kpt, td);
      if NewPoint(p, pkpt) {
        p := p + [pkpt];
      }
    }
  }

  // ---------------------------------------------------------------------
  // The object
  // ---------------------------------------------------------------------

  class CellSelfEnergy {
    const kpts: seq<seq<real>>
    /** `transport_direction`. */
    const td: nat
    var tKpts: seq<seq<real>>
    var pKpts: seq<seq<real>>
    var ntk: int
    var npk: int
    var tWeight: seq<real>
    var pWeight: seq<real>
    var tpIndex: array2<int>

    ghost predicate Valid()
      reads this
    {
      Shaped(kpts) && td < 3
    }

    /** The state `divide_kpts` leaves. */
    ghost predicate Divided()
      reads this
    {
      && Valid() && 0 < |kpts|
      && tKpts == TRows(TParts(kpts, td, |kpts|), td)
      && pKpts == PParts(kpts, td, |kpts|)
      && ntk == |tKpts| && npk == |pKpts| && 0 < ntk && 0 < npk
      && tWeight == Constant(ntk, 1.0 / (ntk as real))
      && pWeight == Constant(npk, 1.0 / (npk as real))
    }

    /** The attributes `__init__` sets before calling `initialize`. */
    constructor (kpts: seq<seq<real>>, td: nat)
      requires Shaped(kpts) && td < 3
      ensures Valid() && this.kpts == kpts && this.td == td
      ensures tKpts == [] && pKpts == [] && tWeight == [] && pWeight == []
    {
      this.kpts := kpts;
      this.td := td;
      tKpts, pKpts, ntk, npk := [], [], 0, 0;
      tWeight, pWeight := [], [];
      tpIndex := new int[0, 0];
    }

    /** `initialize`: the direction check, then `divide_kpts` and
        `get_tp_index`. */
    method Initialize() returns (err: Option<Error>)
      requires Valid()
      modifies this
      ensures WrongDirection(kpts, td) ==> err == Some(RuntimeError)
      ensures !WrongDirection(kpts, td) && |kpts| == 0 ==> err == Some(IndexError)
      ensures err.None? <==> !WrongDirection(kpts, td) && 0 < |kpts|
      ensures err.None? ==> Divided() && fresh(tpIndex) && TpTable()
    {
      var flag := DimFlags(kpts);
      var dimType := flag[0] + flag[1] + flag[2];
      if dimType == 1 {
      } else if dimType == 2 {
        if flag[td] != 1 {
          return Some(RuntimeError);
        }
      }
      err := DivideKpts();
      if err.Some? {
        return;
      }
      GetTpIndex();
    }

    /** `divide_kpts`: the distinct transport components and parallel
        parts, their counts and uniform weights; `kpts[0]` raises
        IndexError when there are no k-points. */
    method DivideKpts() returns (err: Option<Error>)
      requires Valid()
      modifies this
      ensures err.Some? <==> |kpts| == 0
      ensures err.Some? ==> err.value == IndexError
      ensures err.None? ==> Divided()
      ensures tpIndex == old(tpIndex)
    {
      if |kpts| == 0 {
        return Some(IndexError);
      }
      var t, p := Divide(kpts, td);
      PartsNonEmpty(kpts, td);
      tKpts := TRows(t, td);
      pKpts := p;
      ntk := |tKpts|;
      npk := |pKpts|;
      tWeight := Constant(ntk, 1.0 / (ntk as real));
      pWeight := Constant(npk, 1.0 / (npk as real));
      err := None;
    }

    /** `tp_index` holds, at (r, c), the last k-point written there. */
    ghost predicate TpTable()
      reads this, tpIndex
      requires Divided()
    {
      && tpIndex.Length0 == npk && tpIndex.Length1 == ntk
      && forall r, c :: 0 <= r < npk && 0 <= c < ntk ==> tpIndex[r, c] == Entry(Cells(kpts, td, tKpts, pKpts), r, c, |kpts|)
    }

    /** `get_tp_index`: a zero table written with a running counter, one
        k-point at a time. */
    method GetTpIndex()
      requires Divided()
      modifies this
      ensures Divided() && fresh(tpIndex) && TpTable()
      ensures tKpts == old(tKpts) && pKpts == old(pKpts)
    {
      var a := TpIndex(kpts, td, tKpts, pKpts);
      tpIndex := a;
    }
  }

  /** The loop of `get_tp_index`: a zero npk x ntk table, k-point `num`
      written at its cell. */
  method TpIndex(kpts: seq<seq<real>>, td: nat, tk: seq<seq<real>>, pk: seq<seq<real>>) returns (a: array2<int>)
    requires Shaped(kpts) && td < 3 && 0 < |tk| && 0 < |pk|
    ensures fresh(a) && a.Length0 == |pk| && a.Length1 == |tk|
    ensures forall r, c :: 0 <= r < |pk| && 0 <= c < |tk| ==> a[r, c] == Entry(Cells(kpts, td, tk, pk), r, c, |kpts|)
  {
    ghost var cells := Cells(kpts, td, tk, pk);
    a := new int[|pk|, |tk|]((_, _) => 0);
    var num := 0;
    while num < |kpts|
      invariant 0 <= num <= |kpts|
      invariant forall r, c :: 0 <= r < |pk| && 0 <= c < |tk| ==> a[r, c] == Entry(cells, r, c, num)
    {
      var col := ArgMin(tk, Axis(td, kpts[num][td]));
      var row := ArgMin(pk, Zeroed(kpts[num], td));
      assert cells[num] == (row, col);
      a[row, col] := num;
      num := num + 1;
    }
  }

  /** `CellSelfEnergy(h_skmm, s_kmm, kpts, td)`: the object after
      `initialize`, or the error `initialize` raises. */
  method NewCellSelfEnergy(kpts: seq<seq<real>>, td: nat) returns (r: Result<CellSelfEnergy, Error>)
    requires Shaped(kpts) && td < 3
    ensures r.Err? <==> WrongDirection(kpts, td) || |kpts| == 0
    ensures r.Err? ==> r.error == (if WrongDirection(kpts, td) then RuntimeError else IndexError)
    ensures r.Ok? ==> fresh(r.value) && r.value.kpts == kpts && r.value.td == td
    ensures r.Ok? ==> r.value.Divided() && r.value.TpTable()
  {
    var c := new CellSelfEnergy(kpts, td);
    var err := c.Initialize();
    if err.Some? {
      return Err(err.value);
    }
    return Ok(c);
  }
}
