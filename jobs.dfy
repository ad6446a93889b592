/** The dependency scheduler of the long test jobs (`test/long/long.py`,
    class `Jobs`): a job waits until all its dependencies are done, runs,
    and ends done or failed; a failed job disables every job that depends
    on it, directly or through other jobs.

    Job names are distinct across the job tree, so the keys of `jobs` in
    insertion order are `names`. The `.done` files a completion pass finds
    (job name to exit code) are inputs, and starting a job yields the qsub
    options it would be submitted with. */
module LongJobs {
  import opened Common

  /** `(name, #cpus, minutes, dependencies)`. */
  datatype JobSpec<N> = JobSpec(name: N, p: int, t: int, deps: seq<JobSpec<N>>)

  /** `self.jobs[name] == (p, t, deps)`. */
  datatype Entry<N> = Entry(p: int, t: int, deps: seq<N>)

  datatype Status = Waiting | Running | Done | Failed | Disabled

  /** A job handed to qsub, with its options. */
  datatype Submission<N> = Submission(name: N, options: string)

  /** The job specifications of a job list with all their dependencies,
      dependencies first (the order in which `add` registers them). */
  function Nodes<N(==)>(specs: seq<JobSpec<N>>): seq<JobSpec<N>>
    decreases specs
  {
    if |specs| == 0 then []
    else
      var last := specs[|specs| - 1];
      Nodes(specs[..|specs| - 1]) + Nodes(last.deps) + [last]
  }

  function Names<N(==)>(specs: seq<JobSpec<N>>): seq<N>
  {
    seq(|specs|, i requires 0 <= i < |specs| => specs[i].name)
  }

  function EntryOf<N(==)>(s: JobSpec<N>): Entry
  {
    Entry(s.p, s.t, Names(s.deps))
  }

  predicate Distinct<N(==)>(names: seq<N>)
  {
    forall i, j :: 0 <= i < j < |names| ==> names[i] != names[j]
  }

  lemma {:induction false} NodesAppend<N>(a: seq<JobSpec<N>>, b: seq<JobSpec<N>>)
    ensures Nodes(a + b) == Nodes(a) + Nodes(b)
    decreases |b|
  {
    if |b| > 0 {
      var c := a + b;
      assert c[..|c| - 1] == a + b[..|b| - 1];
      NodesAppend(a, b[..|b| - 1]);
      assert b[|b| - 1] == c[|c| - 1];
    } else {
      assert a + b == a;
    }
  }

  /** The registration order around the i-th job of a list. */
  lemma {:induction false} NodesSplit<N>(specs: seq<JobSpec<N>>, i: nat)
    requires i < |specs|
    ensures Nodes(specs) == Nodes(specs[..i]) + Nodes(specs[i].deps) + [specs[i]] + Nodes(specs[i + 1..])
  {
    assert specs == specs[..i + 1] + specs[i + 1..];
    NodesAppend(specs[..i + 1], specs[i + 1..]);
    assert specs[..i + 1][..i] == specs[..i];
  }

  lemma {:induction false} NamesAppend<N>(a: seq<JobSpec<N>>, b: seq<JobSpec<N>>)
    ensures Names(a + b) == Names(a) + Names(b)
  {
  }

  /** Every dependency of a job is a job deeper than it: dependencies
      form no cycle. */
  predicate Edges<N(==)>(jobs: map<N, Entry<N>>, depth: map<N, nat>)
  {
    forall n {:trigger jobs[n]} :: n in jobs ==> n in depth && forall d :: d in jobs[n].deps ==> d in jobs && d in depth && depth[n] < depth[d]
  }

  /** Every name is a job. */
  predicate Listed<N(==)>(jobs: map<N, Entry<N>>, names: seq<N>)
  {
    forall i :: 0 <= i < |names| ==> names[i] in jobs
  }

  /** The job table of distinct names, in `names` order, without cycles. */
  predicate WellFormed<N(==)>(jobs: map<N, Entry<N>>, depth: map<N, nat>, names: seq<N>)
  {
    && Edges(jobs, depth) && Distinct(names)
    && (forall n :: n in jobs ==> n in names)
    && Listed(jobs, names)
  }

  // ---------------------------------------------------------------------
  // Dependents of a failed job
  // ---------------------------------------------------------------------

  /** The jobs `fail(x)` disables when it has visited the first k names. */
  function DependentsIn<N(==)>(jobs: map<N, Entry<N>>, depth: map<N, nat>, names: seq<N>, x: N, k: nat): set<N>
    requires Edges(jobs, depth) && x in depth && k <= |names|
    decreases depth[x], k
  {
    if k == 0 then {}
    else
      var n := names[k - 1];
      DependentsIn(jobs, depth, names, x, k - 1)
      + (if n in jobs && x in jobs[n].deps then {n} + DependentsIn(jobs, depth, names, n, |names|) else {})
  }

  function Dependents<N(==)>(jobs: map<N, Entry<N>>, depth: map<N, nat>, names: seq<N>, x: N): set<N>
    requires Edges(jobs, depth) && x in depth
  {
    DependentsIn(jobs, depth, names, x, |names|)
  }

  /** A job among `names` that depends on x is a dependent of x. */
  lemma {:induction false} DirectDependent<N>(jobs: map<N, Entry<N>>, depth: map<N, nat>, names: seq<N>, x: N, k: nat, i: nat)
    requires Edges(jobs, depth) && x in depth && i < k <= |names|
    requires names[i] in jobs && x in jobs[names[i]].deps
    ensures names[i] in DependentsIn(jobs, depth, names, x, k)
  {
    if i < k - 1 {
      DirectDependent(jobs, depth, names, x, k - 1, i);
    }
  }

  /** A dependent of a dependent of x is a dependent of x. */
  lemma {:induction false} DependentsTransitive<N>(jobs: map<N, Entry<N>>, depth: map<N, nat>, names: seq<N>,
                                                x: N, m: N, y: N, k: nat)
    requires Edges(jobs, depth) && x in depth && k <= |names|
    requires m in DependentsIn(jobs, depth, names, x, k) && m in depth && y in Dependents(jobs, depth, names, m)
    ensures y in DependentsIn(jobs, depth, names, x, k)
    decreases depth[x], k
  {
    var n := names[k - 1];
    if m in DependentsIn(jobs, depth, names, x, k - 1) {
      DependentsTransitive(jobs, depth, names, x, m, y, k - 1);
    } else {
      assert n in jobs && x in jobs[n].deps;
      if m != n {
        DependentsTransitive(jobs, depth, names, n, m, y, |names|);
      }
    }
  }

  /** A job among `names` that depends on a dependent of x is one too. */
  lemma {:induction false} DependentsClosed<N>(jobs: map<N, Entry<N>>, depth: map<N, nat>, names: seq<N>, x: N, m: N, i: nat)
    requires Edges(jobs, depth) && x in depth && i < |names|
    requires m in Dependents(jobs, depth, names, x) && m in depth
    requires names[i] in jobs && m in jobs[names[i]].deps
    ensures names[i] in Dependents(jobs, depth, names, x)
  {
    DirectDependent(jobs, depth, names, m, |names|, i);
    DependentsTransitive(jobs, depth, names, x, m, names[i], |names|);
  }

  /** Every dependent of x depends on x or on another dependent of x. */
  lemma {:induction false} DependentsGrounded<N>(jobs: map<N, Entry<N>>, depth: map<N, nat>, names: seq<N>,
                                              x: N, y: N, k: nat)
    requires Edges(jobs, depth) && x in depth && k <= |names|
    requires y in DependentsIn(jobs, depth, names, x, k)
    ensures y in jobs && exists d :: d in jobs[y].deps && (d == x || d in Dependents(jobs, depth, names, x))
    decreases depth[x], k
  {
    var n := names[k - 1];
    if y in DependentsIn(jobs, depth, names, x, k - 1) {
      DependentsGrounded(jobs, depth, names, x, y, k - 1);
    } else if y == n {
      assert x in jobs[y].deps;
    } else {
      DependentsGrounded(jobs, depth, names, n, y, |names|);
      var d :| d in jobs[y].deps && (d == n || d in Dependents(jobs, depth, names, n));
      assert n in DependentsIn(jobs, depth, names, x, k);
      if d != n {
        DependentsTransitive(jobs, depth, names, x, n, d, k);
        LaterDependents(jobs, depth, names, x, d, k);
      } else {
        LaterDependents(jobs, depth, names, x, n, k);
      }
    }
  }

  lemma {:induction false} LaterDependents<N>(jobs: map<N, Entry<N>>, depth: map<N, nat>, names: seq<N>,
                                           x: N, y: N, k: nat)
    requires Edges(jobs, depth) && x in depth && k <= |names|
    requires y in DependentsIn(jobs, depth, names, x, k)
    ensures y in Dependents(jobs, depth, names, x)
    decreases |names| - k
  {
    if k < |names| {
      LaterDependents(jobs, depth, names, x, y, k + 1);
    }
  }

  /** The status after every dependent of x is disabled. */
  function Disable<N(==)>(status: map<N, Status>, gone: set<N>): (r: map<N, Status>)
    ensures r.Keys == status.Keys
  {
    map n | n in status :: if n in gone then Disabled else status[n]
  }

  // ---------------------------------------------------------------------
  // Scheduling and completion passes
  // ---------------------------------------------------------------------

  predicate Ready<N(==)>(status: map<N, Status>, deps: seq<N>)
  {
    forall d :: d in deps ==> d in status && status[d] == Done
  }

  /** No job is waiting or running. */
  predicate Idle<N(==)>(status: map<N, Status>)
  {
    forall n :: n in status ==> status[n] != Waiting && status[n] != Running
  }

  /** The status of job n after a scheduling pass has visited it: a
      waiting job whose dependencies are all done is running. */
  function Scheduled<N(==)>(status: map<N, Status>, jobs: map<N, Entry<N>>, n: N): Status
    requires n in status && n in jobs
  {
    if status[n] == Waiting && Ready(status, jobs[n].deps) then Running else status[n]
  }

  /** The status after a completion pass has visited the first k names,
      with `finished` the exit codes of the `.done` files. */
  function Completed<N(==)>(jobs: map<N, Entry<N>>, depth: map<N, nat>, names: seq<N>, status: map<N, Status>,
                     finished: map<N, int>, k: nat): map<N, Status>
    requires Edges(jobs, depth) && k <= |names|
  {
    if k == 0 then status
    else
      var s := Completed(jobs, depth, names, status, finished, k - 1);
      var n := names[k - 1];
      if n in s && s[n] == Running && n in finished then
        if finished[n] == 0 then s[n := Done]
        else if n in depth then Disable(s[n := Failed], Dependents(jobs, depth, names, n))
        else s[n := Failed]
      else s
  }

  /** A completion pass never makes a job waiting or running, and a job is
      done, or failed, afterwards only if it was before or it was running
      and exited with code 0, or with another code. */
  lemma {:induction false} CompletedResults<N>(jobs: map<N, Entry<N>>, depth: map<N, nat>, names: seq<N>,
                                            status: map<N, Status>, finished: map<N, int>, k: nat, n: N)
    requires Edges(jobs, depth) && k <= |names| && n in status
    ensures var s := Completed(jobs, depth, names, status, finished, k);
            && s.Keys == status.Keys
            && (s[n] == Waiting ==> status[n] == Waiting)
            && (s[n] == Running ==> status[n] == Running)
            && (s[n] == Done ==> status[n] == Done || (status[n] == Running && n in finished && finished[n] == 0))
            && (s[n] == Failed ==> status[n] == Failed || (status[n] == Running && n in finished && finished[n] != 0))
  {
    if k > 0 {
      CompletedResults(jobs, depth, names, status, finished, k - 1, n);
      forall m | m in status
        ensures m in Completed(jobs, depth, names, status, finished, k)
      {
        CompletedResults(jobs, depth, names, status, finished, k - 1, m);
      }
    }
  }

  /** The qsub resources of a job on p cpus for t minutes: nodes of 4 cpus
      and a walltime in hours and minutes. */
  datatype Request = Request(nodes: int, hours: int, minutes: int)

  /** `p // 4`, `t // 60` and `t % 60` (for a positive divisor Python's
      floor division agrees with Dafny's). */
  function RequestOf(p: int, t: int): (r: Option<Request>)
    ensures r.Some? <==> p % 4 == 0
    ensures r.Some? ==> 4 * r.value.nodes == p && 60 * r.value.hours + r.value.minutes == t && 0 <= r.value.minutes < 60
  {
    if p % 4 == 0 then Some(Request(p / 4, t / 60, t % 60)) else None
  }

  function Digit(d: int): char
    requires 0 <= d < 10
  {
    "0123456789"[d]
  }

  /** `%d`. */
  function Decimal(n: int): string
  {
    if n < 0 then "-" + Digits(-n) else Digits(n)
  }

  function Digits(n: nat): (r: string)
    ensures |r| > 0
  {
    if n < 10 then [Digit(n)] else Digits(n / 10) + [Digit(n % 10)]
  }

  /** `'-l nodes=%d:ppn=4:ethernet -l walltime=%d:%02d:00'`. */
  function Options(r: Request): string
    requires 0 <= r.minutes < 60
  {
    "-l nodes=" + Decimal(r.nodes) + ":ppn=4:ethernet -l walltime=" + Decimal(r.hours) + ":"
    + [Digit(r.minutes / 10), Digit(r.minutes % 10)] + ":00"
  }

  // ---------------------------------------------------------------------
  // The operations, on the values of the fields
  // ---------------------------------------------------------------------

  /** `self.jobs` after `add` has assigned the entries of `nodes` in turn:
      a later job of the same name overwrites an earlier one. */
  function Table<N(==)>(nodes: seq<JobSpec<N>>): map<N, Entry<N>>
  {
    if |nodes| == 0 then map[]
    else
      var last := nodes[|nodes| - 1];
      Table(nodes[..|nodes| - 1])[last.name := EntryOf(last)]
  }

  /** The jobs of the table are the names of the nodes. */
  lemma {:induction false} TableKeys<N>(nodes: seq<JobSpec<N>>)
    ensures forall n :: n in Table(nodes) <==> n in Names(nodes)
  {
    if |nodes| > 0 {
      assert Names(nodes) == Names(nodes[..|nodes| - 1]) + [nodes[|nodes| - 1].name];
      TableKeys(nodes[..|nodes| - 1]);
    }
  }

  /** Of a list of jobs and all their dependencies: where each sits in the
      job tree, the jobs of `specs` at depth d. */
  ghost function Depths<N>(specs: seq<JobSpec<N>>, d: nat): (r: map<N, nat>)
    decreases specs
  {
    if |specs| == 0 then map[]
    else
      var last := specs[|specs| - 1];
      (Depths(specs[..|specs| - 1], d) + Depths(last.deps, d + 1))[last.name := d]
  }

  lemma {:induction false} TableAppend<N>(a: seq<JobSpec<N>>, b: seq<JobSpec<N>>)
    ensures Table(a + b) == Table(a) + Table(b)
    decreases |b|
  {
    if |b| == 0 {
      assert a + b == a;
    } else {
      var c := a + b;
      assert c[..|c| - 1] == a + b[..|b| - 1];
      assert c[|c| - 1] == b[|b| - 1];
      TableAppend(a, b[..|b| - 1]);
    }
  }

  /** With distinct names every job of `nodes` keeps its own entry. */
  lemma {:induction false} TableEntries<N>(nodes: seq<JobSpec<N>>)
    requires Distinct(Names(nodes))
    ensures forall i :: 0 <= i < |nodes| ==> nodes[i].name in Table(nodes) && Table(nodes)[nodes[i].name] == EntryOf(nodes[i])
  {
    if |nodes| > 0 {
      var init := nodes[..|nodes| - 1];
      assert Names(init) == Names(nodes)[..|nodes| - 1];
      TableEntries(init);
      forall i | 0 <= i < |nodes| - 1
        ensures nodes[i].name != nodes[|nodes| - 1].name && init[i] == nodes[i]
      {
        assert Names(nodes)[i] == nodes[i].name && Names(nodes)[|nodes| - 1] == nodes[|nodes| - 1].name;
      }
    }
  }

  /** A distinct list of names split around x. */
  lemma {:induction false} DistinctSplit<N>(a: seq<N>, b: seq<N>, x: N)
    requires Distinct(a + b + [x])
    ensures Distinct(a) && Distinct(b) && x !in a && x !in b
    ensures forall n :: n in a ==> n !in b
  {
    var all := a + b + [x];
    forall j, j' | 0 <= j < |b| && 0 <= j' < |a|
      ensures a[j'] != b[j]
    {
      assert all[j'] == a[j'] && all[|a| + j] == b[j];
    }
    forall j' | 0 <= j' < |a|
      ensures a[j'] != x
    {
      assert all[j'] == a[j'] && all[|a| + |b|] == x;
    }
    forall j, j' | 0 <= j < j' < |a|
      ensures a[j] != a[j']
    {
      assert all[j] == a[j] && all[j'] == a[j'];
    }
    forall j, j' | 0 <= j < j' < |b|
      ensures b[j] != b[j']
    {
      assert all[|a| + j] == b[j] && all[|a| + j'] == b[j'];
    }
    forall j | 0 <= j < |b|
      ensures b[j] != x
    {
      assert all[|a| + j] == b[j] && all[|a| + |b|] == x;
    }
  }

  /** Two tables with disjoint names, each without cycles, together have none. */
  lemma EdgesUnion<N>(t: map<N, Entry<N>>, d: map<N, nat>, t': map<N, Entry<N>>, d': map<N, nat>)
    requires Edges(t, d) && Edges(t', d')
    requires d.Keys == t.Keys && d'.Keys == t'.Keys && forall n :: n in t ==> n !in t'
    ensures Edges(t + t', d + d')
  {
  }

  /** A new job whose dependencies are deeper jobs adds no cycle. */
  lemma EdgesAdd<N>(t: map<N, Entry<N>>, d: map<N, nat>, n: N, e: Entry<N>, k: nat)
    requires Edges(t, d) && n !in t && d.Keys == t.Keys
    requires forall i :: 0 <= i < |e.deps| ==> e.deps[i] in t && d[e.deps[i]] > k
    ensures Edges(t[n := e], d[n := k])
  {
  }

  /** The table of a job after those of its predecessors and of its
      dependencies, which are deeper. */
  lemma {:induction false} EdgesJoin<N>(ta: map<N, Entry<N>>, da: map<N, nat>, tb: map<N, Entry<N>>, db: map<N, nat>,
                                        n: N, e: Entry<N>, k: nat)
    requires Edges(ta, da) && Edges(tb, db) && da.Keys == ta.Keys && db.Keys == tb.Keys
    requires (forall x :: x in ta ==> x !in tb) && n !in ta && n !in tb
    requires forall i :: 0 <= i < |e.deps| ==> e.deps[i] in tb && db[e.deps[i]] > k
    ensures Edges((ta + tb)[n := e], (da + db)[n := k]) && (da + db)[n := k].Keys == (ta + tb)[n := e].Keys
  {
    EdgesUnion(ta, da, tb, db);
    EdgesAdd(ta + tb, da + db, n, e, k);
  }

  lemma {:induction false} TableStep<N>(a: seq<JobSpec<N>>, b: seq<JobSpec<N>>, s: JobSpec<N>)
    ensures Table(a + b + [s]) == (Table(a) + Table(b))[s.name := EntryOf(s)]
  {
    var c := a + b + [s];
    assert c[..|c| - 1] == a + b;
    TableAppend(a, b);
  }

  lemma {:induction false} NamesStep<N>(a: seq<JobSpec<N>>, b: seq<JobSpec<N>>, s: JobSpec<N>)
    ensures Names(a + b + [s]) == Names(a) + Names(b) + [s.name]
  {
    NamesAppend(a + b, [s]);
    NamesAppend(a, b);
  }

  /** The jobs of the depth map are the names of the nodes. */
  lemma {:induction false} DepthsKeys<N>(specs: seq<JobSpec<N>>, k: nat)
    ensures forall n :: n in Depths(specs, k) <==> n in Names(Nodes(specs))
    decreases specs
  {
    if |specs| > 0 {
      var init, s := specs[..|specs| - 1], specs[|specs| - 1];
      var a, b := Nodes(init), Nodes(s.deps);
      assert Nodes(specs) == a + b + [s];
      NamesStep(a, b, s);
      DepthsKeys(init, k);
      DepthsKeys(s.deps, k + 1);
    }
  }

  /** With distinct names the jobs of the list itself sit at depth k. */
  lemma {:induction false} DepthsTop<N>(specs: seq<JobSpec<N>>, k: nat)
    requires Distinct(Names(Nodes(specs)))
    ensures forall i :: 0 <= i < |specs| ==> specs[i].name in Depths(specs, k) && Depths(specs, k)[specs[i].name] == k
    decreases specs
  {
    if |specs| > 0 {
      var init, s := specs[..|specs| - 1], specs[|specs| - 1];
      var a, b := Nodes(init), Nodes(s.deps);
      assert Nodes(specs) == a + b + [s];
      NamesStep(a, b, s);
      DistinctSplit(Names(a), Names(b), s.name);
      DepthsTop(init, k);
      DepthsKeys(s.deps, k + 1);
      forall i | 0 <= i < |init|
        ensures specs[i].name != s.name && specs[i].name !in Depths(s.deps, k + 1)
      {
        InitNamed(init, i);
        assert init[i] == specs[i];
      }
    }
  }

  lemma SameKeys<N, U, V>(t: map<N, U>, d: map<N, V>, names: seq<N>)
    requires (forall n :: n in t <==> n in names) && (forall n :: n in d <==> n in names)
    ensures t.Keys == d.Keys
  {
  }

  lemma DisjointKeys<N, V>(t: map<N, V>, t': map<N, V>, names: seq<N>, names': seq<N>, x: N)
    requires (forall n :: n in t <==> n in names) && (forall n :: n in t' <==> n in names')
    requires (forall n :: n in names ==> n !in names') && x !in names && x !in names'
    ensures (forall n :: n in t ==> n !in t') && x !in t && x !in t'
  {
  }

  /** A list of jobs of distinct names has no cycle: every dependency sits
      one level deeper in the job tree than its job. */
  lemma {:induction false} TableEdges<N>(specs: seq<JobSpec<N>>, k: nat)
    requires Distinct(Names(Nodes(specs)))
    ensures Edges(Table(Nodes(specs)), Depths(specs, k))
    decreases specs
  {
    if |specs| > 0 {
      var init, s := specs[..|specs| - 1], specs[|specs| - 1];
      var a, b := Nodes(init), Nodes(s.deps);
      assert Nodes(specs) == a + b + [s];
      NamesStep(a, b, s);
      DistinctSplit(Names(a), Names(b), s.name);
      TableEdges(init, k);
      TableEdges(s.deps, k + 1);
      TableKeys(a);
      TableKeys(b);
      DepthsKeys(init, k);
      DepthsKeys(s.deps, k + 1);
      DepthsTop(s.deps, k + 1);
      TableStep(a, b, s);
      ghost var ta, tb := Table(a), Table(b);
      ghost var da: map<N, nat>, db: map<N, nat> := Depths(init, k), Depths(s.deps, k + 1);
      SameKeys(ta, da, Names(a));
      SameKeys(tb, db, Names(b));
      assert Depths(specs, k) == (da + db)[s.name := k];
      forall i | 0 <= i < |s.deps|
        ensures EntryOf(s).deps[i] in tb && db[EntryOf(s).deps[i]] > k
      {
        assert EntryOf(s).deps[i] == s.deps[i].name;
      }
      DisjointKeys(ta, tb, Names(a), Names(b), s.name);
      EdgesJoin(ta, da, tb, db, s.name, EntryOf(s), k);
    }
  }

  /** The table `add` builds from a list of jobs of distinct names. */
  lemma TableWellFormed<N>(specs: seq<JobSpec<N>>)
    requires Distinct(Names(Nodes(specs)))
    ensures WellFormed(Table(Nodes(specs)), Depths(specs, 0), Names(Nodes(specs)))
  {
    TableEdges(specs, 0);
    TableKeys(Nodes(specs));
    DepthsKeys(specs, 0);
    ListedKeys(Table(Nodes(specs)), Names(Nodes(specs)));
  }

  lemma ListedKeys<N>(t: map<N, Entry<N>>, names: seq<N>)
    requires forall n :: n in t <==> n in names
    ensures Listed(t, names) && forall n :: n in t ==> n in names
  {
  }

  /** The names of a list of jobs are among the names of all its nodes. */
  lemma {:induction false} InitNamed<N>(specs: seq<JobSpec<N>>, i: nat)
    requires i < |specs|
    ensures specs[i].name in Names(Nodes(specs))
  {
    NodesSplit(specs, i);
    NamesAppend(Nodes(specs[..i]) + Nodes(specs[i].deps), [specs[i]]);
    NamesAppend(Nodes(specs[..i]) + Nodes(specs[i].deps) + [specs[i]], Nodes(specs[i + 1..]));
    assert Names(Nodes(specs))[|Nodes(specs[..i]) + Nodes(specs[i].deps)|] == specs[i].name;
  }

  /** `add(jobs)` on the job table: registers the dependencies of each job
      before the job itself and returns the names of the jobs of the list. */
  method Register<N(==)>(jobs: map<N, Entry<N>>, names: seq<N>, specs: seq<JobSpec<N>>)
    returns (jobs': map<N, Entry<N>>, names': seq<N>, top: seq<N>)
    decreases specs
    ensures jobs' == jobs + Table(Nodes(specs))
    ensures names' == names + Names(Nodes(specs))
    ensures top == Names(specs)
  {
    jobs', names', top := jobs, names, [];
    var i := 0;
    while i < |specs|
      invariant 0 <= i <= |specs| && top == Names(specs[..i])
      invariant jobs' == jobs + Table(Nodes(specs[..i]))
      invariant names' == names + Names(Nodes(specs[..i]))
    {
      var s := specs[i];
      var childNames;
      RegisterTable(jobs, specs, i);
      RegisterNames(names, specs, i);
      RegisterTop(specs, i);
      jobs', names', childNames := Register(jobs', names', s.deps);
      jobs' := jobs'[s.name := Entry(s.p, s.t, childNames)];
      names' := names' + [s.name];
      top := top + [s.name];
      i := i + 1;
    }
    assert specs[..i] == specs;
  }

  /** One iteration of the loop of `add` extends the table by the nodes
      of the (i+1)-th job of the list. */
  lemma {:induction false} RegisterTable<N>(jobs: map<N, Entry<N>>, specs: seq<JobSpec<N>>, i: nat)
    requires i < |specs|
    ensures ((jobs + Table(Nodes(specs[..i]))) + Table(Nodes(specs[i].deps)))[specs[i].name := EntryOf(specs[i])]
            == jobs + Table(Nodes(specs[..i + 1]))
  {
    var a, b, s := Nodes(specs[..i]), Nodes(specs[i].deps), specs[i];
    assert specs[..i + 1][..i] == specs[..i];
    assert Nodes(specs[..i + 1]) == a + b + [s];
    TableStep(a, b, s);
    MapStep(jobs, Table(a), Table(b), s.name, EntryOf(s));
  }

  lemma MapStep<K, V>(m: map<K, V>, a: map<K, V>, b: map<K, V>, k: K, v: V)
    ensures ((m + a) + b)[k := v] == m + ((a + b)[k := v])
  {
  }

  /** ... and the names by them. */
  lemma {:induction false} RegisterNames<N>(names: seq<N>, specs: seq<JobSpec<N>>, i: nat)
    requires i < |specs|
    ensures (names + Names(Nodes(specs[..i]))) + Names(Nodes(specs[i].deps)) + [specs[i].name]
            == names + Names(Nodes(specs[..i + 1]))
  {
    var a, b, s := Nodes(specs[..i]), Nodes(specs[i].deps), specs[i];
    assert specs[..i + 1][..i] == specs[..i];
    assert Nodes(specs[..i + 1]) == a + b + [s];
    NamesStep(a, b, s);
  }

  /** ... and the result by its name. */
  lemma {:induction false} RegisterTop<N>(specs: seq<JobSpec<N>>, i: nat)
    requires i < |specs|
    ensures Names(specs[..i]) + [specs[i].name] == Names(specs[..i + 1])
  {
    assert specs[..i + 1] == specs[..i] + [specs[i]];
    NamesAppend(specs[..i], [specs[i]]);
  }

  /** Disabling n and then the dependents of n. */
  lemma DisableStep<N>(s: map<N, Status>, a: set<N>, n: N, b: set<N>)
    requires n in s
    ensures Disable(Disable(s, a)[n := Disabled], b) == Disable(s, a + ({n} + b))
  {
  }

  /** `fail(failed_name)` on the status: every job that depends on the
      failed one is disabled, and `fail` recurses on it. */
  method FailFrom<N(==)>(jobs: map<N, Entry<N>>, ghost depth: map<N, nat>, names: seq<N>, status: map<N, Status>, failed: N)
    returns (status': map<N, Status>)
    requires Edges(jobs, depth) && Listed(jobs, names) && failed in depth && status.Keys == jobs.Keys
    decreases depth[failed], 1
    ensures status' == Disable(status, Dependents(jobs, depth, names, failed))
  {
    status' := status;
    var k := 0;
    while k < |names|
      invariant 0 <= k <= |names|
      invariant status' == Disable(status, DependentsIn(jobs, depth, names, failed, k))
    {
      status' := FailVisit(jobs, depth, names, status, failed, k, status');
      k := k + 1;
    }
  }

  /** The k-th iteration of the loop of `fail`. */
  method FailVisit<N(==)>(jobs: map<N, Entry<N>>, ghost depth: map<N, nat>, names: seq<N>, ghost status0: map<N, Status>,
                          failed: N, k: nat, status: map<N, Status>)
    returns (status': map<N, Status>)
    requires Edges(jobs, depth) && Listed(jobs, names) && failed in depth && status0.Keys == jobs.Keys && k < |names|
    requires status == Disable(status0, DependentsIn(jobs, depth, names, failed, k))
    decreases depth[failed], 0
    ensures status' == Disable(status0, DependentsIn(jobs, depth, names, failed, k + 1))
  {
    var n := names[k];
    status' := status;
    if failed in jobs[n].deps {
      DisableStep(status0, DependentsIn(jobs, depth, names, failed, k), n, Dependents(jobs, depth, names, n));
      status' := status'[n := Disabled];
      status' := FailFrom(jobs, depth, names, status', n);
    }
  }

  /** Job n would be started but its cpu count is not a multiple of 4. */
  predicate BadStart<N(==)>(jobs: map<N, Entry<N>>, status: map<N, Status>, n: N)
    requires n in jobs && n in status
  {
    status[n] == Waiting && Ready(status, jobs[n].deps) && jobs[n].p % 4 != 0
  }

  /** The status after a scheduling pass has visited the first k names. */
  predicate ScheduledUpTo<N(==)>(jobs: map<N, Entry<N>>, names: seq<N>, status: map<N, Status>, status': map<N, Status>, k: nat)
    requires Listed(jobs, names) && status.Keys == jobs.Keys && k <= |names|
  {
    && status'.Keys == status.Keys
    && forall j :: 0 <= j < |names| ==> status'[names[j]] == if j < k then Scheduled(status, jobs, names[j]) else status[names[j]]
  }

  /** A scheduling pass makes no job done and undoes none. */
  predicate SameDone<N(==)>(status: map<N, Status>, status': map<N, Status>)
  {
    forall n :: n in status' ==> n in status && (status'[n] == Done <==> status[n] == Done)
  }

  /** None of the first k jobs would fail the assertion of `start`. */
  predicate GoodUpTo<N(==)>(jobs: map<N, Entry<N>>, status: map<N, Status>, names: seq<N>, k: nat)
    requires Listed(jobs, names) && status.Keys == jobs.Keys && k <= |names|
  {
    forall j :: 0 <= j < k ==> !BadStart(jobs, status, names[j])
  }

  /** None of the first k jobs is waiting or running. */
  predicate IdleUpTo<N(==)>(names: seq<N>, status: map<N, Status>, k: nat)
    requires k <= |names| && forall j :: 0 <= j < k ==> names[j] in status
  {
    forall j :: 0 <= j < k ==> status[names[j]] != Waiting && status[names[j]] != Running
  }

  /** What a scheduling pass has produced: the status, `done`, the
      submitted jobs and the job whose start failed its assertion. */
  datatype Pass<N> = Pass(status: map<N, Status>, done: bool, started: seq<Submission<N>>, bad: Option<N>)

  /** The pass visiting job n, with the pass so far in p and status0 the
      status the pass started from. */
  function Visit<N(==)>(jobs: map<N, Entry<N>>, status0: map<N, Status>, n: N, p: Pass<N>): Pass<N>
    requires n in jobs && n in status0
  {
    if status0[n] == Waiting then
      if Ready(status0, jobs[n].deps) then
        var request := RequestOf(jobs[n].p, jobs[n].t);
        if request.None? then Pass(p.status[n := Running], false, p.started, Some(n))
        else Pass(p.status[n := Running], false, p.started + [Submission(n, Options(request.value))], None)
      else p.(done := false)
    else if status0[n] == Running then p.(done := false)
    else p
  }

  /** The scheduling pass from status0 after the first k names; it stops
      at the first failed start. */
  function PassUpTo<N(==)>(jobs: map<N, Entry<N>>, names: seq<N>, status0: map<N, Status>, k: nat): Pass<N>
    requires Listed(jobs, names) && status0.Keys == jobs.Keys && k <= |names|
  {
    if k == 0 then Pass(status0, true, [], None)
    else
      var p := PassUpTo(jobs, names, status0, k - 1);
      if p.bad.Some? then p else Visit(jobs, status0, names[k - 1], p)
  }

  lemma {:induction false} PassKeys<N>(jobs: map<N, Entry<N>>, names: seq<N>, status0: map<N, Status>, k: nat)
    requires Listed(jobs, names) && status0.Keys == jobs.Keys && k <= |names|
    ensures PassUpTo(jobs, names, status0, k).status.Keys == status0.Keys
  {
    if k > 0 {
      PassKeys(jobs, names, status0, k - 1);
    }
  }

  /** Once a start has failed, the pass is over. */
  lemma {:induction false} PassStops<N>(jobs: map<N, Entry<N>>, names: seq<N>, status0: map<N, Status>, k: nat, k': nat)
    requires Listed(jobs, names) && status0.Keys == jobs.Keys && k <= k' <= |names|
    requires PassUpTo(jobs, names, status0, k).bad.Some?
    ensures PassUpTo(jobs, names, status0, k') == PassUpTo(jobs, names, status0, k)
    decreases k' - k
  {
    if k < k' {
      PassStops(jobs, names, status0, k, k' - 1);
      var p := PassUpTo(jobs, names, status0, k' - 1);
      assert p.bad.Some?;
      assert PassUpTo(jobs, names, status0, k') == p;
    }
  }

  /** One more visit, while no start has failed. */
  lemma PassStep<N>(jobs: map<N, Entry<N>>, names: seq<N>, status0: map<N, Status>, k: nat)
    requires Listed(jobs, names) && status0.Keys == jobs.Keys && k < |names|
    requires PassUpTo(jobs, names, status0, k).bad.None?
    ensures PassUpTo(jobs, names, status0, k + 1) == Visit(jobs, status0, names[k], PassUpTo(jobs, names, status0, k))
  {
  }

  /** A pass over idle jobs changes nothing, starts nothing and reports
      `done`; conversely a pass reporting `done` found every job idle. */
  lemma {:induction false} PassDone<N>(jobs: map<N, Entry<N>>, names: seq<N>, status0: map<N, Status>, k: nat)
    requires Listed(jobs, names) && status0.Keys == jobs.Keys && k <= |names|
    ensures IdleUpTo(names, status0, k) ==> PassUpTo(jobs, names, status0, k) == Pass(status0, true, [], None)
    ensures PassUpTo(jobs, names, status0, k).done ==> IdleUpTo(names, status0, k)
    ensures PassUpTo(jobs, names, status0, k).bad.Some? ==> !PassUpTo(jobs, names, status0, k).done
  {
    if k > 0 {
      PassDone(jobs, names, status0, k - 1);
    }
  }

  /** Visiting job names[k] keeps the pass's status that of `Scheduled`
      on the visited jobs and the original status on the others. */
  lemma VisitScheduled<N>(jobs: map<N, Entry<N>>, names: seq<N>, status0: map<N, Status>, k: nat, p: Pass<N>)
    requires Listed(jobs, names) && Distinct(names) && status0.Keys == jobs.Keys && k < |names|
    requires ScheduledUpTo(jobs, names, status0, p.status, k)
    ensures ScheduledUpTo(jobs, names, status0, Visit(jobs, status0, names[k], p).status, k + 1)
  {
    var s' := Visit(jobs, status0, names[k], p).status;
    forall j | 0 <= j < |names|
      ensures s'[names[j]] == if j < k + 1 then Scheduled(status0, jobs, names[j]) else status0[names[j]]
    {
      if j != k {
        assert names[j] != names[k];
      }
    }
  }

  /** Before a failed start the pass's status is `Scheduled` on the jobs
      visited and unchanged on the others. */
  lemma {:induction false} PassScheduled<N>(jobs: map<N, Entry<N>>, names: seq<N>, status0: map<N, Status>, k: nat)
    requires Listed(jobs, names) && Distinct(names) && status0.Keys == jobs.Keys && k <= |names|
    ensures PassUpTo(jobs, names, status0, k).bad.None? ==> ScheduledUpTo(jobs, names, status0, PassUpTo(jobs, names, status0, k).status, k)
  {
    if k > 0 {
      PassScheduled(jobs, names, status0, k - 1);
      var p := PassUpTo(jobs, names, status0, k - 1);
      if p.bad.None? {
        VisitScheduled(jobs, names, status0, k - 1, p);
      }
    }
  }

  /** A pass makes no job done and undoes none. */
  lemma {:induction false} PassSameDone<N>(jobs: map<N, Entry<N>>, names: seq<N>, status0: map<N, Status>, k: nat)
    requires Listed(jobs, names) && status0.Keys == jobs.Keys && k <= |names|
    ensures SameDone(status0, PassUpTo(jobs, names, status0, k).status)
  {
    if k > 0 {
      PassSameDone(jobs, names, status0, k - 1);
    }
  }

  /** A pass stops at the first job whose start fails the assertion of
      `start`, having scheduled it and the jobs before it. */
  lemma {:induction false} PassStart<N>(jobs: map<N, Entry<N>>, names: seq<N>, status0: map<N, Status>, k: nat)
    requires Listed(jobs, names) && Distinct(names) && status0.Keys == jobs.Keys && k <= |names|
    ensures var p := PassUpTo(jobs, names, status0, k);
            && (p.bad.None? ==> GoodUpTo(jobs, status0, names, k))
            && (p.bad.Some? ==> exists j :: 0 <= j < k && names[j] == p.bad.value && BadStart(jobs, status0, names[j])
                                             && GoodUpTo(jobs, status0, names, j)
                                             && ScheduledUpTo(jobs, names, status0, p.status, j + 1))
  {
    if k > 0 {
      PassStart(jobs, names, status0, k - 1);
      var p := PassUpTo(jobs, names, status0, k - 1);
      if p.bad.None? {
        PassScheduled(jobs, names, status0, k - 1);
        VisitScheduled(jobs, names, status0, k - 1, p);
        var q := PassUpTo(jobs, names, status0, k);
        if q.bad.Some? {
          assert names[k - 1] == q.bad.value && BadStart(jobs, status0, names[k - 1]);
        }
      }
    }
  }

  /** The first loop of `run` on the status: every waiting job whose
      dependencies are all done is started, in the order of `names`;
      `done` says that no job was waiting or running. Starting a job whose
      cpu count is not a multiple of 4 fails the assertion of `start`,
      after that job is marked running; `bad` is then its name. */
  method Schedule<N(==)>(jobs: map<N, Entry<N>>, ghost depth: map<N, nat>, names: seq<N>, status: map<N, Status>)
    returns (status': map<N, Status>, done: bool, started: seq<Submission<N>>, bad: Option<N>)
    requires WellFormed(jobs, depth, names) && status.Keys == jobs.Keys
    ensures Pass(status', done, started, bad) == PassUpTo(jobs, names, status, |names|)
  {
    status', done, started, bad := status, true, [], None;
    var k := 0;
    while k < |names| && bad.None?
      invariant 0 <= k <= |names| && Pass(status', done, started, bad) == PassUpTo(jobs, names, status, k)
    {
      PassKeys(jobs, names, status, k);
      PassScheduled(jobs, names, status, k);
      PassSameDone(jobs, names, status, k);
      PassStep(jobs, names, status, k);
      status', done, started, bad := ScheduleVisit(jobs, depth, names, status, k, status', done, started);
      k := k + 1;
    }
    if bad.Some? {
      PassStops(jobs, names, status, k, |names|);
    }
  }

  /** What a whole scheduling pass does: the status is `Scheduled` on
      every job and `done` says that all were idle, unless a start fails,
      at the first job whose start fails. */
  lemma PassMeaning<N>(jobs: map<N, Entry<N>>, depth: map<N, nat>, names: seq<N>, status: map<N, Status>)
    requires WellFormed(jobs, depth, names) && status.Keys == jobs.Keys
    ensures var p := PassUpTo(jobs, names, status, |names|);
            && p.status.Keys == status.Keys
            && (p.bad.None? ==> p.done == Idle(status) && forall n :: n in p.status ==> p.status[n] == Scheduled(status, jobs, n))
            && (p.bad.Some? ==> exists k :: 0 <= k < |names| && names[k] == p.bad.value && BadStart(jobs, status, names[k])
                                            && GoodUpTo(jobs, status, names, k)
                                            && ScheduledUpTo(jobs, names, status, p.status, k + 1))
            && (p.done ==> p.started == [] && p.status == status)
  {
    var p := PassUpTo(jobs, names, status, |names|);
    PassKeys(jobs, names, status, |names|);
    PassStart(jobs, names, status, |names|);
    PassIdle(jobs, depth, names, status);
    if p.bad.None? {
      PassScheduled(jobs, names, status, |names|);
      ScheduledAll(jobs, depth, names, status, p.status);
    }
  }

  /** The k-th iteration of the scheduling loop of `run`. */
  method ScheduleVisit<N(==)>(jobs: map<N, Entry<N>>, ghost depth: map<N, nat>, names: seq<N>, ghost status0: map<N, Status>,
                              k: nat, status: map<N, Status>, done: bool, started: seq<Submission<N>>)
    returns (status': map<N, Status>, done': bool, started': seq<Submission<N>>, bad: Option<N>)
    requires Edges(jobs, depth) && Listed(jobs, names) && status0.Keys == jobs.Keys && status.Keys == jobs.Keys && k < |names|
    requires status[names[k]] == status0[names[k]] && SameDone(status0, status)
    ensures Pass(status', done', started', bad) == Visit(jobs, status0, names[k], Pass(status, done, started, None))
  {
    var name := names[k];
    status', done', started', bad := status, done, started, None;
    if status[name] == Waiting {
      done' := false;
      var ready := ReadyAt(status, jobs[name].deps, status0);
      if ready {
        status' := status[name := Running];
        var request := RequestOf(jobs[name].p, jobs[name].t);
        if request.None? {
          bad := Some(name);
          return;
        }
        started' := started + [Submission(name, Options(request.value))];
      }
    } else if status[name] == Running {
      done' := false;
    }
  }

  /** After the whole pass every job has been visited. */
  lemma ScheduledAll<N>(jobs: map<N, Entry<N>>, depth: map<N, nat>, names: seq<N>, status: map<N, Status>, status': map<N, Status>)
    requires WellFormed(jobs, depth, names) && status.Keys == jobs.Keys
    requires ScheduledUpTo(jobs, names, status, status', |names|)
    ensures forall n :: n in status' ==> status'[n] == Scheduled(status, jobs, n)
  {
    forall n | n in status'
      ensures status'[n] == Scheduled(status, jobs, n)
    {
      var j :| 0 <= j < |names| && names[j] == n;
    }
  }

  lemma IdleAll<N>(jobs: map<N, Entry<N>>, depth: map<N, nat>, names: seq<N>, status: map<N, Status>)
    requires WellFormed(jobs, depth, names) && status.Keys == jobs.Keys
    ensures Idle(status) <==> IdleUpTo(names, status, |names|)
  {
    if IdleUpTo(names, status, |names|) {
      forall n | n in status
        ensures status[n] != Waiting && status[n] != Running
      {
        var j :| 0 <= j < |names| && names[j] == n;
      }
    }
  }

  /** The inner loop over the dependencies; the pass has not changed
      whether any job is done. */
  method ReadyAt<N(==)>(status: map<N, Status>, deps: seq<N>, ghost status0: map<N, Status>) returns (ready: bool)
    requires forall d :: d in deps ==> d in status && d in status0 && (status[d] == Done <==> status0[d] == Done)
    ensures ready == Ready(status0, deps)
  {
    ready := true;
    var i := 0;
    while i < |deps|
      invariant 0 <= i <= |deps| && ready == forall j :: 0 <= j < i ==> status0[deps[j]] == Done
    {
      if status[deps[i]] != Done {
        ready := false;
        break;
      }
      i := i + 1;
    }
  }

  /** The second loop of `run` on the status: a running job with a
      `.done` file ends done on exit code 0 and failed otherwise, and a
      failed job disables its dependents. */
  method Complete<N(==)>(jobs: map<N, Entry<N>>, ghost depth: map<N, nat>, names: seq<N>, status: map<N, Status>,
                         finished: map<N, int>)
    returns (status': map<N, Status>)
    requires WellFormed(jobs, depth, names) && status.Keys == jobs.Keys
    ensures status'.Keys == status.Keys
    ensures status' == Completed(jobs, depth, names, status, finished, |names|)
  {
    status' := status;
    var k := 0;
    while k < |names|
      invariant 0 <= k <= |names| && status'.Keys == jobs.Keys
      invariant status' == Completed(jobs, depth, names, status, finished, k)
    {
      status' := CompleteVisit(jobs, depth, names, status, finished, k, status');
      k := k + 1;
    }
  }

  /** The k-th iteration of the completion loop of `run`. */
  method CompleteVisit<N(==)>(jobs: map<N, Entry<N>>, ghost depth: map<N, nat>, names: seq<N>, ghost status0: map<N, Status>,
                              finished: map<N, int>, k: nat, status: map<N, Status>)
    returns (status': map<N, Status>)
    requires Edges(jobs, depth) && Listed(jobs, names) && status.Keys == jobs.Keys && k < |names|
    requires status == Completed(jobs, depth, names, status0, finished, k)
    ensures status'.Keys == jobs.Keys
    ensures status' == Completed(jobs, depth, names, status0, finished, k + 1)
  {
    var name := names[k];
    status' := status;
    if status[name] == Running && name in finished {
      if finished[name] == 0 {
        status' := status[name := Done];
      } else {
        status' := FailFrom(jobs, depth, names, status[name := Failed], name);
      }
    }
  }

  /** How `run` ends: the status, `done`, the number of completion passes,
      the submitted jobs and the job whose start failed its assertion. */
  datatype Outcome<N> = Outcome(status: map<N, Status>, done: bool, rounds: nat, started: seq<Submission<N>>, bad: Option<N>)

  lemma {:induction false} CompletedKeys<N>(jobs: map<N, Entry<N>>, depth: map<N, nat>, names: seq<N>,
                                         status: map<N, Status>, finished: map<N, int>, k: nat)
    requires Edges(jobs, depth) && k <= |names|
    ensures Completed(jobs, depth, names, status, finished, k).Keys == status.Keys
  {
    if k > 0 {
      CompletedKeys(jobs, depth, names, status, finished, k - 1);
    }
  }

  /** The loop of `run` from status after r completion passes, with the
      submissions so far in `started`: a scheduling pass, then the return,
      or the completion pass on `polls[r]` and the next round. */
  function RunFrom<N(==)>(jobs: map<N, Entry<N>>, depth: map<N, nat>, names: seq<N>, status: map<N, Status>,
                          polls: seq<map<N, int>>, r: nat, started: seq<Submission<N>>): Outcome<N>
    requires WellFormed(jobs, depth, names) && status.Keys == jobs.Keys && r <= |polls|
    decreases |polls| - r
  {
    var p := PassUpTo(jobs, names, status, |names|);
    PassKeys(jobs, names, status, |names|);
    if p.bad.Some? then Outcome(p.status, false, r, started + p.started, p.bad)
    else if p.done || r == |polls| then Outcome(p.status, p.done, r, started + p.started, None)
    else
      CompletedKeys(jobs, depth, names, p.status, polls[r], |names|);
      RunFrom(jobs, depth, names, Completed(jobs, depth, names, p.status, polls[r], |names|), polls, r + 1, started + p.started)
  }

  /** A whole pass reports `done` exactly when no job is waiting or
      running, and then changes nothing. */
  lemma PassIdle<N>(jobs: map<N, Entry<N>>, depth: map<N, nat>, names: seq<N>, status: map<N, Status>)
    requires WellFormed(jobs, depth, names) && status.Keys == jobs.Keys
    ensures PassUpTo(jobs, names, status, |names|).done <==> Idle(status)
    ensures Idle(status) ==> PassUpTo(jobs, names, status, |names|) == Pass(status, true, [], None)
  {
    IdleAll(jobs, depth, names, status);
    PassDone(jobs, names, status, |names|);
  }

  /** `run` returns `done` right away, changing and starting nothing, when
      no job is waiting or running. */
  lemma RunIdle<N>(jobs: map<N, Entry<N>>, depth: map<N, nat>, names: seq<N>, status: map<N, Status>,
                   polls: seq<map<N, int>>, r: nat, started: seq<Submission<N>>)
    requires WellFormed(jobs, depth, names) && status.Keys == jobs.Keys && r <= |polls| && Idle(status)
    ensures RunFrom(jobs, depth, names, status, polls, r, started) == Outcome(status, true, r, started, None)
  {
    PassIdle(jobs, depth, names, status);
  }

  /** How `run` ends: with `done` exactly when its last scheduling pass
      found no job waiting or running, the status then unchanged by that
      pass; with a failed start; or when the polls run out. */
  lemma {:induction false} RunEnds<N>(jobs: map<N, Entry<N>>, depth: map<N, nat>, names: seq<N>, status: map<N, Status>,
                                    polls: seq<map<N, int>>, r: nat, started: seq<Submission<N>>)
    requires WellFormed(jobs, depth, names) && status.Keys == jobs.Keys && r <= |polls|
    ensures var o := RunFrom(jobs, depth, names, status, polls, r, started);
            && r <= o.rounds <= |polls|
            && (o.done ==> Idle(o.status) && o.bad.None?)
            && (!o.done && o.bad.None? ==> o.rounds == |polls|)
    decreases |polls| - r
  {
    var p := PassUpTo(jobs, names, status, |names|);
    if p.bad.None? && !p.done && r < |polls| {
      PassKeys(jobs, names, status, |names|);
      var s := Completed(jobs, depth, names, p.status, polls[r], |names|);
      CompletedKeys(jobs, depth, names, p.status, polls[r], |names|);
      RunEnds(jobs, depth, names, s, polls, r + 1, started + p.started);
      assert RunFrom(jobs, depth, names, status, polls, r, started) == RunFrom(jobs, depth, names, s, polls, r + 1, started + p.started);
    } else if p.done {
      PassIdle(jobs, depth, names, status);
    }
  }

  /** The job list of a test run. */
  class Jobs<N(==)> {
    var jobs: map<N, Entry<N>>
    var names: seq<N>
    var status: map<N, Status>
    /** How deep each job sits in the job tree: the bound on the recursion
        of `fail`. */
    ghost var depth: map<N, nat>

    ghost predicate Valid()
      reads this
    {
      WellFormed(jobs, depth, names) && status.Keys == jobs.Keys
    }

    /** `Jobs(jobs)`: every job and dependency registered, each waiting. */
    constructor (specs: seq<JobSpec<N>>)
      requires Distinct(Names(Nodes(specs)))
      ensures Valid()
      ensures names == Names(Nodes(specs))
      ensures jobs == Table(Nodes(specs))
      ensures forall i :: 0 <= i < |Nodes(specs)| ==> Nodes(specs)[i].name in jobs && jobs[Nodes(specs)[i].name] == EntryOf(Nodes(specs)[i])
      ensures status.Keys == jobs.Keys && forall n :: n in status ==> status[n] == Waiting
    {
      var j, ns, top := Register(map[], [], specs);
      var st := map n | n in j :: Waiting;
      assert st.Keys == j.Keys && forall n :: n in st ==> st[n] == Waiting;
      assert j == Table(Nodes(specs)) && ns == Names(Nodes(specs));
      TableEntries(Nodes(specs));
      TableWellFormed(specs);
      jobs, names, depth, status := j, ns, Depths(specs, 0), st;
    }

    /** `fail(failed_name)`. */
    method Fail(failed: N)
      requires Valid() && failed in jobs
      modifies this
      ensures Valid() && jobs == old(jobs) && names == old(names) && depth == old(depth)
      ensures status == Disable(old(status), Dependents(jobs, depth, names, failed))
    {
      status := FailFrom(jobs, depth, names, status, failed);
    }

    /** The scheduling pass of `run`. */
    method SchedulingPass() returns (done: bool, started: seq<Submission<N>>, bad: Option<N>)
      requires Valid()
      modifies this
      ensures Valid() && jobs == old(jobs) && names == old(names) && depth == old(depth)
      ensures bad.None? ==> done == Idle(old(status)) && forall n :: n in status ==> status[n] == Scheduled(old(status), jobs, n)
      ensures bad.Some? ==> exists k :: 0 <= k < |names| && names[k] == bad.value && BadStart(jobs, old(status), names[k])
                                        && (forall j :: 0 <= j < k ==> !BadStart(jobs, old(status), names[j]))
                                        && ScheduledUpTo(jobs, names, old(status), status, k + 1)
      ensures done ==> started == [] && status == old(status)
      ensures Pass(status, done, started, bad) == PassUpTo(jobs, names, old(status), |names|)
    {
      PassMeaning(jobs, depth, names, status);
      status, done, started, bad := Schedule(jobs, depth, names, status);
    }

    /** The completion pass of `run`, with `finished` the exit codes in
        the `.done` files. */
    method CompletionPass(finished: map<N, int>)
      requires Valid()
      modifies this
      ensures Valid() && jobs == old(jobs) && names == old(names) && depth == old(depth)
      ensures status == Completed(jobs, depth, names, old(status), finished, |names|)
    {
      status := Complete(jobs, depth, names, status, finished);
    }

    /** `run()`, with `polls[r]` the `.done` files found after the r-th
        wait. It returns with `done` exactly when a scheduling pass finds
        no job waiting or running; it stops with `bad` when `start` fails
        its assertion, and without either when the polls run out. */
    method Run(polls: seq<map<N, int>>) returns (done: bool, rounds: nat, started: seq<Submission<N>>, bad: Option<N>)
      requires Valid()
      modifies this
      ensures Valid() && jobs == old(jobs) && names == old(names) && depth == old(depth)
      ensures Outcome(status, done, rounds, started, bad) == RunFrom(jobs, depth, names, old(status), polls, 0, [])
      ensures done ==> Idle(status) && bad.None?
      ensures !done && bad.None? ==> rounds == |polls|
      ensures rounds <= |polls|
    {
      rounds := 0;
      started := [];
      while true
        invariant Valid() && jobs == old(jobs) && names == old(names) && depth == old(depth) && rounds <= |polls|
        invariant RunFrom(jobs, depth, names, status, polls, rounds, started) == RunFrom(jobs, depth, names, old(status), polls, 0, [])
        decreases |polls| - rounds
      {
        var passStarted;
        done, passStarted, bad := SchedulingPass();
        started := started + passStarted;
        if bad.Some? {
          done := false;
          return;
        }
        if done {
          return;
        }
        if rounds == |polls| {
          return;
        }
        CompletionPass(polls[rounds]);
        rounds := rounds + 1;
      }
    }
  }

}
