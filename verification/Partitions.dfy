/** Partition infos and the tasks of a plan, each with the rows it stands for. */
module Partitions {

  /** `PartitionInfo`; dimension names are represented by their rank, the toplevel dimension is 0. */
  datatype Info = Info(dim: nat, index: nat, count: nat) {
    /** What equality and hashing look at. */
    function Key(): (nat, nat) { (dim, index) }
  }

  const TOPLEVEL := Info(0, 0, 1)

  /** A planned task: its id, its partition infos, and the rows of its output. */
  datatype PTask<R> = PTask(id: nat, infos: seq<Info>, rows: multiset<R>)

  /** A plan, or an assertion of the planner or of the task constructor that failed. */
  datatype Planned<T> = Planned(value: T) | Refused

  function Keys(infos: seq<Info>): seq<(nat, nat)> { seq(|infos|, i requires 0 <= i < |infos| => infos[i].Key()) }

  function Dims(infos: seq<Info>): seq<nat> { seq(|infos|, i requires 0 <= i < |infos| => infos[i].dim) }

  predicate Before(a: Info, b: Info) { a.dim < b.dim || (a.dim == b.dim && a.index < b.index) }

  function Insert(x: Info, s: seq<Info>): seq<Info> {
    if s == [] then [x] else if Before(x, s[|s| - 1]) then Insert(x, s[..|s| - 1]) + [s[|s| - 1]] else s + [x]
  }

  /** `sorted(partition_infos)`. */
  function Sort(s: seq<Info>): seq<Info> { if s == [] then [] else Insert(s[|s| - 1], Sort(s[..|s| - 1])) }

  predicate DistinctDims(s: seq<Info>) { forall i, j :: 0 <= i < j < |s| ==> s[i].dim != s[j].dim }

  predicate HasToplevel(s: seq<Info>) { exists i :: 0 <= i < |s| && s[i].dim == 0 }

  /** The task constructor: sorted infos, which must contain the toplevel dimension and no dimension twice. */
  function Create<R>(id: nat, infos: seq<Info>, rows: multiset<R>): Planned<PTask<R>> {
    if HasToplevel(infos) && DistinctDims(Sort(infos)) then Planned(PTask(id, Sort(infos), rows)) else Refused
  }

  function Union<R>(ms: seq<multiset<R>>): multiset<R> { if ms == [] then multiset{} else ms[0] + Union(ms[1..]) }

  function RowsOf<R>(ts: seq<PTask<R>>): seq<multiset<R>> { seq(|ts|, i requires 0 <= i < |ts| => ts[i].rows) }

  lemma {:induction false} UnionSplit<R>(a: seq<multiset<R>>, b: seq<multiset<R>>)
    ensures Union(a + b) == Union(a) + Union(b)
  {
    if a == [] {
      assert a + b == b;
    } else {
      UnionSplit(a[1..], b);
      assert (a + b)[1..] == a[1..] + b;
    }
  }

  lemma UnionAppend<R>(a: seq<multiset<R>>, m: multiset<R>)
    ensures Union(a + [m]) == Union(a) + m
  {
    UnionSplit(a, [m]);
    assert [m][1..] == [];
  }

  // ---------------------------------------------------------------- the inputs of a task

  predicate Lists<R>(ts: seq<PTask<R>>, id: nat) { exists i :: 0 <= i < |ts| && ts[i].id == id }

  /** The dictionary of inputs in the task constructor: a task that is listed again is no further input. */
  function Inputs<R>(ts: seq<PTask<R>>): seq<PTask<R>> {
    if ts == [] then [] else
      var ins, t := Inputs(ts[..|ts| - 1]), ts[|ts| - 1];
      if Lists(ins, t.id) then ins else ins + [t]
  }

  /** The rows of a task that merges its inputs. */
  function Merge<R>(ts: seq<PTask<R>>): multiset<R> { Union(RowsOf(Inputs(ts))) }

  lemma {:induction false} InputsList<R>(ts: seq<PTask<R>>)
    ensures forall id: nat :: Lists(Inputs(ts), id) <==> Lists(ts, id)
    ensures ts != [] ==> Inputs(ts) != []
  {
    if ts != [] {
      var init, t := ts[..|ts| - 1], ts[|ts| - 1];
      InputsList(init);
      forall id: nat ensures Lists(Inputs(ts), id) <==> Lists(ts, id) {
        ListsAppend(init, t, id);
        ListsAppend(Inputs(init), t, id);
        assert ts == init + [t];
      }
      ListsAppend(init, t, t.id);
      assert ts == init + [t] && Lists(Inputs(ts), t.id);
    }
  }

  lemma ListsAppend<R>(ts: seq<PTask<R>>, t: PTask<R>, id: nat)
    ensures Lists(ts + [t], id) <==> Lists(ts, id) || t.id == id
  {
    var r := ts + [t];
    if Lists(ts, id) {
      var i :| 0 <= i < |ts| && ts[i].id == id;
      assert r[i].id == id;
    }
    assert r[|ts|] == t;
  }

  lemma MergeNext<R>(ts: seq<PTask<R>>, t: PTask<R>)
    ensures Merge(ts + [t]) == if Lists(ts, t.id) then Merge(ts) else Merge(ts) + t.rows
  {
    assert (ts + [t])[..|ts|] == ts;
    InputsList(ts);
    assert RowsOf(Inputs(ts) + [t]) == RowsOf(Inputs(ts)) + [t.rows];
    UnionAppend(RowsOf(Inputs(ts)), t.rows);
  }

  /** No task that has rows is listed twice. */
  predicate NoneTwice<R>(ts: seq<PTask<R>>) {
    forall i, j :: 0 <= i < j < |ts| && ts[i].id == ts[j].id ==> ts[j].rows == multiset{}
  }

  lemma NoneTwiceNext<R>(ts: seq<PTask<R>>, t: PTask<R>)
    ensures NoneTwice(ts + [t]) <==> NoneTwice(ts) && (Lists(ts, t.id) ==> t.rows == multiset{})
  {
    var r := ts + [t];
    assert r[|ts|] == t && forall i :: 0 <= i < |ts| ==> r[i] == ts[i];
    if NoneTwice(r) {
      if Lists(ts, t.id) {
        var i :| 0 <= i < |ts| && ts[i].id == t.id;
        assert r[i].id == r[|ts|].id;
      }
      forall i, j | 0 <= i < j < |ts| && ts[i].id == ts[j].id ensures ts[j].rows == multiset{} {
        assert r[i].id == r[j].id;
      }
    }
  }

  /** A merge has the rows of all listed tasks exactly when no task that has rows is listed twice; else it has fewer. */
  lemma {:induction false} MergeIff<R>(ts: seq<PTask<R>>)
    ensures Merge(ts) <= Union(RowsOf(ts)) && (Merge(ts) == Union(RowsOf(ts)) <==> NoneTwice(ts))
  {
    if ts != [] {
      var init, t := ts[..|ts| - 1], ts[|ts| - 1];
      assert ts == init + [t] && RowsOf(ts) == RowsOf(init) + [t.rows];
      MergeIff(init);
      MergeNext(init, t);
      NoneTwiceNext(init, t);
      UnionAppend(RowsOf(init), t.rows);
      if Lists(init, t.id) {
        Absorbs(Merge(init), Union(RowsOf(init)), t.rows);
      } else {
        SumsEqual(Merge(init), Union(RowsOf(init)), t.rows, t.rows);
      }
    }
  }

  lemma MergeTwice<R>(t: PTask<R>)
    ensures Merge([t]) == t.rows && Merge([t, t]) == t.rows && Union(RowsOf([t, t])) == t.rows + t.rows
  {
    assert [] + [t] == [t] && [t] + [t] == [t, t];
    MergeNext([], t);
    MergeNext([t], t);
    assert [t][0].id == t.id && RowsOf([t, t]) == [t.rows, t.rows] == [t.rows] + [t.rows];
    UnionAppend([t.rows], t.rows);
    assert [t.rows] == [] + [t.rows];
    UnionAppend([], t.rows);
  }

  lemma Absorbs<R>(a: multiset<R>, b: multiset<R>, c: multiset<R>)
    requires a <= b
    ensures a == b + c <==> a == b && c == multiset{}
  {
    if a == b + c {
      forall x ensures c[x] == 0 { assert a[x] == b[x] + c[x]; }
      assert c == multiset{};
    }
  }

  lemma SumsEqual<R>(a: multiset<R>, b: multiset<R>, c: multiset<R>, d: multiset<R>)
    requires a <= b && c <= d
    ensures a + c <= b + d && (a + c == b + d <==> a == b && c == d)
  {
    if a + c == b + d {
      forall x ensures a[x] == b[x] && c[x] == d[x] { assert (a + c)[x] == (b + d)[x]; }
    }
  }

  predicate DistinctIds<R>(ts: seq<PTask<R>>) { forall i, j :: 0 <= i < j < |ts| ==> ts[i].id != ts[j].id }

  // ---------------------------------------------------------------- filtering by dimension

  function Filter(infos: seq<Info>, dims: set<nat>): seq<Info> {
    if infos == [] then [] else
      Filter(infos[..|infos| - 1], dims) + if infos[|infos| - 1].dim in dims then [infos[|infos| - 1]] else []
  }

  predicate Sorted(s: seq<Info>) { forall i, j :: 0 <= i < j < |s| ==> !Before(s[j], s[i]) }

  lemma {:induction false} SortedSort(s: seq<Info>)
    requires Sorted(s)
    ensures Sort(s) == s
  {
    if s != [] {
      SortedSort(s[..|s| - 1]);
      assert s == s[..|s| - 1] + [s[|s| - 1]];
    }
  }

  lemma {:induction false} InsertSorted(x: Info, s: seq<Info>)
    requires Sorted(s)
    ensures Sorted(Insert(x, s)) && forall y :: y in Insert(x, s) <==> y == x || y in s
  {
    if s != [] {
      assert s == s[..|s| - 1] + [s[|s| - 1]];
      if Before(x, s[|s| - 1]) {
        InsertSorted(x, s[..|s| - 1]);
        var r := Insert(x, s[..|s| - 1]);
        forall i | 0 <= i < |r| ensures !Before(s[|s| - 1], r[i]) { assert r[i] in r; }
      }
    }
  }

  lemma {:induction false} SortSorts(s: seq<Info>)
    ensures Sorted(Sort(s)) && forall y :: y in Sort(s) <==> y in s
  {
    if s != [] {
      assert s == s[..|s| - 1] + [s[|s| - 1]];
      SortSorts(s[..|s| - 1]);
      InsertSorted(s[|s| - 1], Sort(s[..|s| - 1]));
    }
  }

  /** A new dimension does not disturb the old ones. */
  lemma {:induction false} FilterInsert(x: Info, s: seq<Info>, dims: set<nat>)
    requires x.dim !in dims
    ensures Filter(Insert(x, s), dims) == Filter(s, dims)
  {
    if s == [] {
      assert [x][..0] == [];
    } else if Before(x, s[|s| - 1]) {
      FilterInsert(x, s[..|s| - 1], dims);
      assert (Insert(x, s[..|s| - 1]) + [s[|s| - 1]])[..|Insert(x, s[..|s| - 1])|] == Insert(x, s[..|s| - 1]);
    } else {
      assert (s + [x])[..|s|] == s;
    }
  }

  lemma {:induction false} FilterAll(s: seq<Info>, dims: set<nat>)
    requires forall i :: 0 <= i < |s| ==> s[i].dim in dims
    ensures Filter(s, dims) == s
  {
    if s != [] {
      FilterAll(s[..|s| - 1], dims);
      assert s == s[..|s| - 1] + [s[|s| - 1]];
    }
  }
}
