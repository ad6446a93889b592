/** The collection of atomic setups of a calculation (`gpaw/setup.py`,
    class `Setups` and `types2atomtypes`): the setup type and basis set of
    every atom, one setup per distinct (Z, type, basis) id shared by all
    atoms with that id, and the per-atom totals of valence electrons,
    atomic orbitals, reference energy and core-hole charge.

    Creating a setup (reading its data file) is an input function; what
    is kept of a setup is the five numbers the totals use. */
module Setups {
  import opened Common

  /** A setup type or basis-set identifier: a name, setup data or a basis
      object passed in directly, or None. */
  datatype TypeId = Named(name: string) | Custom(data: nat) | NoType

  /** A key of a types dictionary: None, a chemical symbol, or an atom index. */
  datatype TypeKey = NoneKey | SymbolKey(symbol: string) | AtomKey(index: int)

  /** A types identifier: one name for every atom, or a dictionary (its
      entries in insertion order). */
  datatype Types = Single(name: string) | Table(entries: seq<(TypeKey, TypeId)>)

  datatype TypesError = IndexOutOfRange   // an atom index key outside the atoms

  /** The keys of a dictionary are distinct. */
  predicate DistinctKeys(entries: seq<(TypeKey, TypeId)>)
  {
    forall i, j :: 0 <= i < j < |entries| ==> entries[i].0 != entries[j].0
  }

  // ---------------------------------------------------------------------
  // types2atomtypes
  // ---------------------------------------------------------------------

  /** The value of the last of the first k entries with this key. */
  function LastValue(entries: seq<(TypeKey, TypeId)>, key: TypeKey, k: nat): Option<TypeId>
    requires k <= |entries|
  {
    if k == 0 then None
    else if entries[k - 1].0 == key then Some(entries[k - 1].1)
    else LastValue(entries, key, k - 1)
  }

  /** Atom index i of a list of n atoms, counting from the end when
      negative, as Python indexing does. */
  function Resolved(i: int, n: nat): int
  {
    if i < 0 then i + n else i
  }

  predicate InRange(i: int, n: nat)
  {
    -(n as int) <= i < n
  }

  /** The value of the last of the first k entries whose atom index key
      denotes atom a. */
  function LastAtomValue(entries: seq<(TypeKey, TypeId)>, n: nat, a: nat, k: nat): Option<TypeId>
    requires k <= |entries|
  {
    if k == 0 then None
    else if entries[k - 1].0.AtomKey? && Resolved(entries[k - 1].0.index, n) == a then Some(entries[k - 1].1)
    else LastAtomValue(entries, n, a, k - 1)
  }

  /** Some of the first k entries has an atom index key outside the atoms. */
  predicate BadIndexKey(entries: seq<(TypeKey, TypeId)>, n: nat, k: nat)
    requires k <= |entries|
  {
    exists i :: 0 <= i < k && entries[i].0.AtomKey? && !InRange(entries[i].0.index, n)
  }

  function OrElse(o: Option<TypeId>, t: TypeId): TypeId
  {
    if o.Some? then o.value else t
  }

  /** The default of a dictionary: its None entry, else `default`. */
  function TableDefault(entries: seq<(TypeKey, TypeId)>, default: TypeId): TypeId
  {
    OrElse(LastValue(entries, NoneKey, |entries|), default)
  }

  /** The type of atom a: the entry of an atom index key denoting it, else
      the entry of its chemical symbol, else the dictionary's default. */
  function AtomType(symbols: seq<string>, entries: seq<(TypeKey, TypeId)>, default: TypeId, a: nat): TypeId
    requires a < |symbols|
  {
    OrElse(LastAtomValue(entries, |symbols|, a, |entries|),
      OrElse(LastValue(entries, SymbolKey(symbols[a]), |entries|), TableDefault(entries, default)))
  }

  /** The type of atom a after the pass over the symbol keys of the first
      k entries. */
  function SymbolPass(symbols: seq<string>, entries: seq<(TypeKey, TypeId)>, default: TypeId, k: nat, a: nat): TypeId
    requires k <= |entries| && a < |symbols|
  {
    OrElse(LastValue(entries, SymbolKey(symbols[a]), k), TableDefault(entries, default))
  }

  /** The type `types2atomtypes` gives atom a: the single name, or the
      dictionary's choice. */
  function TypeOf(symbols: seq<string>, types: Types, default: TypeId, a: nat): TypeId
    requires a < |symbols|
  {
    match types
    case Single(name) => Named(name)
    case Table(entries) => AtomType(symbols, entries, default, a)
  }

  /** Some atom index key of a dictionary lies outside the n atoms. */
  predicate BadTypes(types: Types, n: nat)
  {
    types.Table? && BadIndexKey(types.entries, n, |types.entries|)
  }

  /** `types2atomtypes(symbols, types, default)`: one type per atom. A
      single name is used for every atom; a dictionary gives each atom the
      default, then the value of its symbol, then the value of its index.
      An index key outside the atoms raises IndexError. */
  method TypesToAtomTypes(symbols: seq<string>, types: Types, default: TypeId) returns (r: Result<seq<TypeId>, TypesError>)
    ensures types.Single? ==> r == Ok(seq(|symbols|, _ => Named(types.name)))
    ensures types.Table? ==>
              && (r.Err? <==> BadIndexKey(types.entries, |symbols|, |types.entries|))
              && (r.Ok? ==> r.value == seq(|symbols|, a requires 0 <= a < |symbols| => AtomType(symbols, types.entries, default, a)))
  {
    var n := |symbols|;
    if types.Single? {
      return Ok(seq(n, _ => Named(types.name)));
    }
    var entries := types.entries;
    var noneValue := Lookup(entries, NoneKey);
    var byDefault := OrElse(noneValue, default);
    var typeA := seq(n, _ => byDefault);
    typeA := ApplySymbolKeys(symbols, entries, default, typeA);
    var k := 0;
    while k < |entries|
      invariant 0 <= k <= |entries| && |typeA| == n && !BadIndexKey(entries, n, k)
      invariant forall a :: 0 <= a < n ==>
                  typeA[a] == OrElse(LastAtomValue(entries, n, a, k), SymbolPass(symbols, entries, default, |entries|, a))
    {
      var (key, t) := entries[k];
      if key.AtomKey? {
        if !(-n <= key.index < n) {
          assert BadIndexKey(entries, n, |entries|) by {
            assert entries[k].0.AtomKey? && !InRange(entries[k].0.index, n);
          }
          return Err(IndexOutOfRange);
        }
        typeA := typeA[Resolved(key.index, n) := t];
      }
      k := k + 1;
    }
    r := Ok(typeA);
    assert forall a :: 0 <= a < n ==> r.value[a] == AtomType(symbols, entries, default, a);
  }

  /** `types.get(key)`: the entry of the key, if any. */
  method Lookup(entries: seq<(TypeKey, TypeId)>, key: TypeKey) returns (r: Option<TypeId>)
    ensures r == LastValue(entries, key, |entries|)
  {
    r := None;
    var k := 0;
    while k < |entries|
      invariant 0 <= k <= |entries| && r == LastValue(entries, key, k)
    {
      if entries[k].0 == key {
        r := Some(entries[k].1);
      }
      k := k + 1;
    }
  }

  /** The loop over the symbol keys of `types2atomtypes`. */
  method ApplySymbolKeys(symbols: seq<string>, entries: seq<(TypeKey, TypeId)>, default: TypeId, typeA: seq<TypeId>)
    returns (typeA': seq<TypeId>)
    requires |typeA| == |symbols| && forall a :: 0 <= a < |symbols| ==> typeA[a] == TableDefault(entries, default)
    ensures |typeA'| == |symbols|
    ensures forall a :: 0 <= a < |symbols| ==> typeA'[a] == SymbolPass(symbols, entries, default, |entries|, a)
  {
    typeA' := typeA;
    var k := 0;
    while k < |entries|
      invariant 0 <= k <= |entries| && |typeA'| == |symbols|
      invariant forall a :: 0 <= a < |symbols| ==> typeA'[a] == SymbolPass(symbols, entries, default, k, a)
    {
      var (key, t) := entries[k];
      if key.SymbolKey? {
        var a := 0;
        while a < |symbols|
          invariant 0 <= a <= |symbols| && |typeA'| == |symbols|
          invariant forall a' :: 0 <= a' < a ==> typeA'[a'] == SymbolPass(symbols, entries, default, k + 1, a')
          invariant forall a' :: a <= a' < |symbols| ==> typeA'[a'] == SymbolPass(symbols, entries, default, k, a')
        {
          if key.symbol == symbols[a] {
            typeA' := typeA'[a := t];
          }
          a := a + 1;
        }
      }
      k := k + 1;
    }
  }

  /** In a dictionary the entry of a key is its value. */
  lemma {:induction false} LastValueIsEntry(entries: seq<(TypeKey, TypeId)>, key: TypeKey, i: nat, k: nat)
    requires DistinctKeys(entries) && i < k <= |entries| && entries[i].0 == key
    ensures LastValue(entries, key, k) == Some(entries[i].1)
  {
    if k - 1 > i {
      LastValueIsEntry(entries, key, i, k - 1);
    }
  }

  /** A key that is not in the dictionary has no value. */
  lemma {:induction false} LastValueAbsent(entries: seq<(TypeKey, TypeId)>, key: TypeKey, k: nat)
    requires k <= |entries| && forall i :: 0 <= i < k ==> entries[i].0 != key
    ensures LastValue(entries, key, k) == None
  {
    if k > 0 {
      LastValueAbsent(entries, key, k - 1);
    }
  }

  /** The atom index keys given are the only ones denoting atom a. */
  lemma {:induction false} LastAtomValueAbsent(entries: seq<(TypeKey, TypeId)>, n: nat, a: nat, k: nat)
    requires k <= |entries|
    requires forall i :: 0 <= i < k ==> entries[i].0 != AtomKey(a) && entries[i].0 != AtomKey(a - n)
    ensures LastAtomValue(entries, n, a, k) == None
  {
    if k > 0 {
      LastAtomValueAbsent(entries, n, a, k - 1);
    }
  }

  /** Precedence of `types2atomtypes`, for a dictionary whose keys are
      distinct and an atom a of n: an index key denoting only atom a
      decides its type; without one, the key of its symbol decides;
      without either, the None key, and without that, `default`. */
  lemma IndexKeyWins(symbols: seq<string>, entries: seq<(TypeKey, TypeId)>, default: TypeId, a: nat, i: nat)
    requires DistinctKeys(entries) && a < |symbols| && i < |entries| && entries[i].0 == AtomKey(a)
    requires forall i' :: 0 <= i' < |entries| ==> entries[i'].0 != AtomKey(a - |symbols|)
    ensures AtomType(symbols, entries, default, a) == entries[i].1
  {
    AtomValueIsEntry(entries, |symbols|, a, i, |entries|);
  }

  lemma {:induction false} AtomValueIsEntry(entries: seq<(TypeKey, TypeId)>, n: nat, a: nat, i: nat, k: nat)
    requires DistinctKeys(entries) && a < n && i < k <= |entries| && entries[i].0 == AtomKey(a)
    requires forall i' :: 0 <= i' < |entries| ==> entries[i'].0 != AtomKey(a - n)
    ensures LastAtomValue(entries, n, a, k) == Some(entries[i].1)
  {
    if k - 1 > i {
      AtomValueIsEntry(entries, n, a, i, k - 1);
    }
  }

  lemma SymbolKeyWins(symbols: seq<string>, entries: seq<(TypeKey, TypeId)>, default: TypeId, a: nat, i: nat)
    requires DistinctKeys(entries) && a < |symbols| && i < |entries| && entries[i].0 == SymbolKey(symbols[a])
    requires forall i' :: 0 <= i' < |entries| ==> entries[i'].0 != AtomKey(a) && entries[i'].0 != AtomKey(a - |symbols|)
    ensures AtomType(symbols, entries, default, a) == entries[i].1
  {
    LastAtomValueAbsent(entries, |symbols|, a, |entries|);
    LastValueIsEntry(entries, SymbolKey(symbols[a]), i, |entries|);
  }

  lemma DefaultWithoutKeys(symbols: seq<string>, entries: seq<(TypeKey, TypeId)>, default: TypeId, a: nat)
    requires DistinctKeys(entries) && a < |symbols|
    requires forall i' :: 0 <= i' < |entries| ==>
               entries[i'].0 != AtomKey(a) && entries[i'].0 != AtomKey(a - |symbols|) && entries[i'].0 != SymbolKey(symbols[a])
    ensures forall i :: 0 <= i < |entries| && entries[i].0 == NoneKey ==> AtomType(symbols, entries, default, a) == entries[i].1
    ensures (forall i :: 0 <= i < |entries| ==> entries[i].0 != NoneKey) ==> AtomType(symbols, entries, default, a) == default
  {
    LastAtomValueAbsent(entries, |symbols|, a, |entries|);
    LastValueAbsent(entries, SymbolKey(symbols[a]), |entries|);
    forall i | 0 <= i < |entries| && entries[i].0 == NoneKey
      ensures AtomType(symbols, entries, default, a) == entries[i].1
    {
      LastValueIsEntry(entries, NoneKey, i, |entries|);
    }
    if forall i :: 0 <= i < |entries| ==> entries[i].0 != NoneKey {
      LastValueAbsent(entries, NoneKey, |entries|);
    }
  }

  // ---------------------------------------------------------------------
  // Setups: one setup per distinct id, and the per-atom totals
  // ---------------------------------------------------------------------

  /** The id (Z, type, basis) of an atom. */
  datatype Id = Id(z: nat, setupType: TypeId, basis: TypeId)

  /** `[chemical_symbols[Z] for Z in Z_a]`. */
  function Symbols(za: seq<nat>, symbolOf: nat -> string): (r: seq<string>)
    ensures |r| == |za| && forall a :: 0 <= a < |za| ==> r[a] == symbolOf(za[a])
  {
    seq(|za|, a requires 0 <= a < |za| => symbolOf(za[a]))
  }

  /** `zip(Z_a, type_a, basis_a)`: the id of atom a of `za`. */
  function AtomId(za: seq<nat>, setupTypes: Types, basisSets: Types, symbolOf: nat -> string, a: nat): Id
    requires a < |za|
  {
    var symbols := Symbols(za, symbolOf);
    Id(za[a], TypeOf(symbols, setupTypes, Named("paw"), a), TypeOf(symbols, basisSets, NoType, a))
  }

  /** What the totals use of a setup: `E`, `Z`, `Nv`, `Nc` and `niAO`. */
  datatype SetupData = SetupData(e: real, z: int, nv: int, nc: real, niAO: nat)

  /** `nvalence`, `nao`, `Eref` and `core_charge`. */
  datatype Totals = Totals(nvalence: int, nao: int, eref: real, coreCharge: real)

  function Plus(t: Totals, u: Totals): Totals
  {
    Totals(t.nvalence + u.nvalence, t.nao + u.nao, t.eref + u.eref, t.coreCharge + u.coreCharge)
  }

  /** n atoms sharing a setup with contribution t. */
  function Times(n: nat, t: Totals): (r: Totals)
    ensures r == Totals(n * t.nvalence, n * t.nao, (n as real) * t.eref, (n as real) * t.coreCharge)
  {
    Totals(n * t.nvalence, n * t.nao, (n as real) * t.eref, (n as real) * t.coreCharge)
  }

  const NoTotals := Totals(0, 0, 0.0, 0.0)

  /** One atom's share: `Nv`, `niAO`, `E` and `Z - Nv - Nc`. */
  function Contribution(s: SetupData): Totals
  {
    Totals(s.nv, s.niAO, s.e, (s.z - s.nv) as real - s.nc)
  }

  /** The totals of the first n atoms, atom by atom. */
  function AtomTotals(ids: seq<Id>, create: Id -> SetupData, n: nat): Totals
    requires n <= |ids|
  {
    if n == 0 then NoTotals else Plus(AtomTotals(ids, create, n - 1), Contribution(create(ids[n - 1])))
  }

  /** The distinct ids among the first n atoms in order of first occurrence
      (the insertion order of the `setups` dictionary). */
  function Dedup(ids: seq<Id>, n: nat): seq<Id>
    requires n <= |ids|
  {
    if n == 0 then []
    else
      var d := Dedup(ids, n - 1);
      if ids[n - 1] in d then d else d + [ids[n - 1]]
  }

  /** `natoms`: how many of the first n atoms have each id. */
  function Counts(ids: seq<Id>, n: nat): map<Id, nat>
    requires n <= |ids|
  {
    if n == 0 then map[]
    else
      var c := Counts(ids, n - 1);
      c[ids[n - 1] := (if ids[n - 1] in c then c[ids[n - 1]] else 0) + 1]
  }

  /** The number of the first n atoms with id x. */
  function Count(ids: seq<Id>, n: nat, x: Id): nat
    requires n <= |ids|
  {
    if n == 0 then 0 else Count(ids, n - 1, x) + (if ids[n - 1] == x then 1 else 0)
  }

  predicate Distinct(d: seq<Id>)
  {
    forall i, j :: 0 <= i < j < |d| ==> d[i] != d[j]
  }

  /** The distinct ids are distinct, are exactly the ids of the atoms, and
      are the keys of `natoms`, which counts them. */
  lemma {:induction false} DedupCounts(ids: seq<Id>, n: nat)
    requires n <= |ids|
    ensures Distinct(Dedup(ids, n))
    ensures forall x :: x in Dedup(ids, n) <==> x in Counts(ids, n)
    ensures forall x :: x in Counts(ids, n) ==> Counts(ids, n)[x] == Count(ids, n, x) > 0
    ensures forall x :: x !in Counts(ids, n) ==> Count(ids, n, x) == 0
    ensures forall x :: x in Dedup(ids, n) <==> exists a :: 0 <= a < n && ids[a] == x
  {
    if n > 0 {
      DedupCounts(ids, n - 1);
      var d, c, x := Dedup(ids, n - 1), Counts(ids, n - 1), ids[n - 1];
      forall y
        ensures y in Dedup(ids, n) <==> exists a :: 0 <= a < n && ids[a] == y
      {
        if exists a :: 0 <= a < n && ids[a] == y {
          var a :| 0 <= a < n && ids[a] == y;
          if a < n - 1 {
            assert y in d;
          }
        }
        if y in d {
          var a :| 0 <= a < n - 1 && ids[a] == y;
          assert 0 <= a < n && ids[a] == y;
        }
      }
      forall y | y in Counts(ids, n)
        ensures Counts(ids, n)[y] == Count(ids, n, y)
      {
        if y != x {
          assert y in c;
        }
      }
    }
  }

  /** The totals summed over the first k distinct ids, each weighted with
      its count: the loop over `self.setups.items()`. */
  function Weighted(order: seq<Id>, counts: map<Id, nat>, create: Id -> SetupData, k: nat): Totals
    requires k <= |order|
  {
    if k == 0 then NoTotals
    else
      var x := order[k - 1];
      Plus(Weighted(order, counts, create, k - 1), Times(if x in counts then counts[x] else 0, Contribution(create(x))))
  }

  lemma TimesStep(c: nat, t: Totals)
    ensures Times(c + 1, t) == Plus(Times(c, t), t)
  {
    assert ((c + 1) as real) * t.eref == (c as real) * t.eref + t.eref;
    assert ((c + 1) as real) * t.coreCharge == (c as real) * t.coreCharge + t.coreCharge;
  }

  /** Counting one more atom with id order[i]. */
  lemma {:induction false} WeightedBump(order: seq<Id>, counts: map<Id, nat>, create: Id -> SetupData, i: nat, k: nat)
    requires Distinct(order) && i < |order| && order[i] in counts && k <= |order|
    ensures var x := order[i];
            Weighted(order, counts[x := counts[x] + 1], create, k)
            == if i < k then Plus(Weighted(order, counts, create, k), Contribution(create(x))) else Weighted(order, counts, create, k)
  {
    if k > 0 {
      WeightedBump(order, counts, create, i, k - 1);
      var x := order[i];
      if k - 1 == i {
        TimesStep(counts[x], Contribution(create(x)));
      }
    }
  }

  /** Weighted depends only on the first k ids and their counts. */
  lemma {:induction false} WeightedFrame(order: seq<Id>, order': seq<Id>, counts: map<Id, nat>, counts': map<Id, nat>,
                                         create: Id -> SetupData, k: nat)
    requires k <= |order| && k <= |order'|
    requires forall i :: 0 <= i < k ==> order[i] == order'[i] && order[i] in counts && order[i] in counts'
                                         && counts[order[i]] == counts'[order[i]]
    ensures Weighted(order, counts, create, k) == Weighted(order', counts', create, k)
  {
    if k > 0 {
      WeightedFrame(order, order', counts, counts', create, k - 1);
    }
  }

  /** Summing over the distinct setups, each weighted with its number of
      atoms, gives the atom-by-atom totals. */
  lemma {:induction false} WeightedIsAtomTotals(ids: seq<Id>, create: Id -> SetupData, n: nat)
    requires n <= |ids|
    ensures Weighted(Dedup(ids, n), Counts(ids, n), create, |Dedup(ids, n)|) == AtomTotals(ids, create, n)
  {
    if n > 0 {
      WeightedIsAtomTotals(ids, create, n - 1);
      DedupCounts(ids, n - 1);
      var d, c, x := Dedup(ids, n - 1), Counts(ids, n - 1), ids[n - 1];
      if x in d {
        var i :| 0 <= i < |d| && d[i] == x;
        WeightedBump(d, c, create, i, |d|);
      } else {
        WeightedNew(d, c, create, x);
      }
    }
  }

  /** Counting the first atom with a new id x. */
  lemma WeightedNew(order: seq<Id>, counts: map<Id, nat>, create: Id -> SetupData, x: Id)
    requires x !in order && forall y :: y in order ==> y in counts
    ensures Weighted(order + [x], counts[x := 1], create, |order| + 1)
            == Plus(Weighted(order, counts, create, |order|), Contribution(create(x)))
  {
    var order' := order + [x];
    WeightedFrame(order, order', counts, counts[x := 1], create, |order|);
    assert order'[|order|] == x;
  }

  /** `Setups(Z_a, setup_types, basis_sets, ...)`: the setup of every atom
      and the totals. */
  class Setups {
    /** `id_a`, the distinct ids in creation order, `setups`, `natoms`
        and the list of the atoms' setups. */
    var ids: seq<Id>
    var order: seq<Id>
    var setups: map<Id, SetupData>
    var natoms: map<Id, nat>
    var atoms: seq<SetupData>
    var totals: Totals

    /** Builds the setups of the atoms with atomic numbers `za`; `symbolOf`
        is `chemical_symbols` and `create` is `create_setup`. Requires that
        `types2atomtypes` succeeds on both types identifiers; `NewSetups`
        is the call that may fail. */
    constructor (za: seq<nat>, setupTypes: Types, basisSets: Types, symbolOf: nat -> string, create: Id -> SetupData)
      requires !BadTypes(setupTypes, |za|) && !BadTypes(basisSets, |za|)
      ensures |ids| == |atoms| == |za|
      ensures forall a :: 0 <= a < |za| ==> ids[a] == AtomId(za, setupTypes, basisSets, symbolOf, a)
      ensures order == Dedup(ids, |ids|) && natoms == Counts(ids, |ids|)
      ensures forall x :: x in setups <==> x in order
      ensures forall x :: x in setups ==> setups[x] == create(x)
      ensures forall a :: 0 <= a < |za| ==> ids[a] in setups && atoms[a] == setups[ids[a]]
      ensures totals == AtomTotals(ids, create, |ids|)
    {
      var symbols := Symbols(za, symbolOf);
      var typeA := TypesToAtomTypes(symbols, setupTypes, Named("paw"));
      var basisA := TypesToAtomTypes(symbols, basisSets, NoType);
      var ts, bs := typeA.value, basisA.value;
      var ids := seq(|za|, a requires 0 <= a < |za| => Id(za[a], ts[a], bs[a]));
      var order, setups, natoms, atoms := Collect(ids, create);
      var totals := SumTotals(order, natoms, setups, create);
      this.ids, this.order, this.setups, this.natoms, this.atoms, this.totals := ids, order, setups, natoms, atoms, totals;
      WeightedIsAtomTotals(ids, create, |ids|);
      assert forall a :: 0 <= a < |za| ==> ids[a] == AtomId(za, setupTypes, basisSets, symbolOf, a);
    }

    /** The loop over the atoms' ids: a setup is created the first time
        its id occurs and shared by every later atom with that id. */
    static method Collect(ids: seq<Id>, create: Id -> SetupData)
      returns (order: seq<Id>, setups: map<Id, SetupData>, natoms: map<Id, nat>, atoms: seq<SetupData>)
      ensures |atoms| == |ids|
      ensures order == Dedup(ids, |ids|) && natoms == Counts(ids, |ids|)
      ensures forall x :: x in setups <==> x in order
      ensures forall x :: x in setups ==> setups[x] == create(x)
      ensures forall a :: 0 <= a < |ids| ==> ids[a] in setups && atoms[a] == setups[ids[a]]
      ensures forall x :: x in order ==> x in setups && x in natoms
    {
      order, setups, natoms, atoms := [], map[], map[], [];
      var a := 0;
      while a < |ids|
        invariant 0 <= a <= |ids| && |atoms| == a
        invariant order == Dedup(ids, a) && natoms == Counts(ids, a)
        invariant forall x :: x in setups <==> x in order
        invariant natoms.Keys == setups.Keys
        invariant forall x :: x in setups ==> setups[x] == create(x)
        invariant forall a' :: 0 <= a' < a ==> ids[a'] in setups && atoms[a'] == setups[ids[a']]
      {
        var id := ids[a];
        if id !in setups {
          setups := setups[id := create(id)];
          natoms := natoms[id := 0];
          order := order + [id];
        }
        natoms := natoms[id := natoms[id] + 1];
        atoms := atoms + [setups[id]];
        a := a + 1;
      }
      DedupCounts(ids, |ids|);
    }

    /** The loop over `self.setups.items()`: per distinct setup, its
        contribution times its number of atoms. */
    static method SumTotals(order: seq<Id>, natoms: map<Id, nat>, setups: map<Id, SetupData>, create: Id -> SetupData)
      returns (t: Totals)
      requires forall x :: x in order ==> x in setups && setups[x] == create(x) && x in natoms
      ensures t == Weighted(order, natoms, create, |order|)
    {
      t := NoTotals;
      var k := 0;
      while k < |order|
        invariant 0 <= k <= |order| && t == Weighted(order, natoms, create, k)
      {
        var id := order[k];
        var n, s := natoms[id], setups[id];
        t := Plus(t, Times(n, Contribution(s)));
        k := k + 1;
      }
    }
  }

  /** `Setups(Z_a, setup_types, basis_sets, ...)` as called: IndexError
      exactly when an atom index key of either types dictionary lies
      outside the atoms, otherwise the setups of the atoms. */
  method NewSetups(za: seq<nat>, setupTypes: Types, basisSets: Types, symbolOf: nat -> string, create: Id -> SetupData)
    returns (r: Result<Setups, TypesError>)
    ensures r.Err? <==> BadTypes(setupTypes, |za|) || BadTypes(basisSets, |za|)
    ensures r.Ok? ==> fresh(r.value) && |r.value.ids| == |za|
                      && (forall a :: 0 <= a < |za| ==> r.value.ids[a] == AtomId(za, setupTypes, basisSets, symbolOf, a))
                      && r.value.totals == AtomTotals(r.value.ids, create, |za|)
  {
    var symbols := Symbols(za, symbolOf);
    var typeA := TypesToAtomTypes(symbols, setupTypes, Named("paw"));
    if typeA.Err? {
      return Err(typeA.error);
    }
    var basisA := TypesToAtomTypes(symbols, basisSets, NoType);
    if basisA.Err? {
      return Err(basisA.error);
    }
    var s := new Setups(za, setupTypes, basisSets, symbolOf, create);
    r := Ok(s);
  }
}
