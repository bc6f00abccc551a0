/** Plan translation: partitions, consolidation and limits as task groups. */
module Planner {
  import opened Partitions

  // ---------------------------------------------------------------- consolidation

  /** One entry of the grouping dictionary, in insertion order: the key it was created with, and its tasks. */
  datatype Group<R> = Group(infos: seq<Info>, tasks: seq<PTask<R>>)

  /** `groups[key].append(task)`; keys are equal when dimension and index agree. */
  function AddTo<R>(groups: seq<Group<R>>, infos: seq<Info>, t: PTask<R>): seq<Group<R>> {
    if groups == [] then [Group(infos, [t])]
    else if Keys(groups[0].infos) == Keys(infos) then [Group(groups[0].infos, groups[0].tasks + [t])] + groups[1..]
    else [groups[0]] + AddTo(groups[1..], infos, t)
  }

  function GroupAll<R>(ts: seq<PTask<R>>, dims: set<nat>): seq<Group<R>> {
    if ts == [] then [] else
      var t := ts[|ts| - 1];
      AddTo(GroupAll(ts[..|ts| - 1], dims), Filter(t.infos, dims), t)
  }

  method FillGroups<R>(ts: seq<PTask<R>>, dims: set<nat>) returns (groups: seq<Group<R>>)
    ensures groups == GroupAll(ts, dims)
  {
    groups := [];
    var i := 0;
    while i < |ts|
      invariant i <= |ts| && groups == GroupAll(ts[..i], dims)
    {
      groups := AddTo(groups, Filter(ts[i].infos, dims), ts[i]);
      assert ts[..i + 1][..i] == ts[..i];
      i := i + 1;
    }
    assert ts[..i] == ts;
  }

  /** One merge task per group, with ids from `next` on. */
  function CreateAll<R>(groups: seq<Group<R>>, next: nat): Planned<seq<PTask<R>>> {
    if groups == [] then Planned([]) else
      match (Create(next, groups[0].infos, Merge(groups[0].tasks)), CreateAll(groups[1..], next + 1))
      case (Planned(t), Planned(rest)) => Planned([t] + rest)
      case _ => Refused
  }

  predicate SameDims<R>(ts: seq<PTask<R>>) {
    ts != [] && forall i :: 0 <= i < |ts| ==> Dims(ts[i].infos) == Dims(ts[0].infos)
  }

  function Consolidate<R>(ts: seq<PTask<R>>, dims: set<nat>, next: nat): Planned<seq<PTask<R>>> {
    if !SameDims(ts) || exists d :: d in dims && d !in Dims(ts[0].infos) then Refused
    else CreateAll(GroupAll(ts, dims), next)
  }

  /** The tasks whose infos, restricted to the dimensions, have this key. */
  function At<R>(ts: seq<PTask<R>>, dims: set<nat>, key: seq<(nat, nat)>): seq<PTask<R>> {
    if ts == [] then [] else
      var t := ts[|ts| - 1];
      At(ts[..|ts| - 1], dims, key) + if Keys(Filter(t.infos, dims)) == key then [t] else []
  }

  /** Their rows. */
  function RowsAt<R>(ts: seq<PTask<R>>, dims: set<nat>, key: seq<(nat, nat)>): multiset<R> {
    if ts == [] then multiset{} else
      RowsAt(ts[..|ts| - 1], dims, key) + if Keys(Filter(ts[|ts| - 1].infos, dims)) == key then ts[|ts| - 1].rows
          else multiset{}
  }

  lemma {:induction false} RowsAtIs<R>(ts: seq<PTask<R>>, dims: set<nat>, key: seq<(nat, nat)>)
    ensures RowsAt(ts, dims, key) == Union(RowsOf(At(ts, dims, key)))
  {
    if ts != [] {
      var init, t := ts[..|ts| - 1], ts[|ts| - 1];
      RowsAtIs(init, dims, key);
      assert RowsOf(At(init, dims, key) + [t]) == RowsOf(At(init, dims, key)) + [t.rows];
      UnionAppend(RowsOf(At(init, dims, key)), t.rows);
      assert At(init, dims, key) + [] == At(init, dims, key);
    }
  }

  /** The tasks of the group with this key. */
  function TasksOf<R>(groups: seq<Group<R>>, key: seq<(nat, nat)>): seq<PTask<R>> {
    if groups == [] then [] else if Keys(groups[0].infos) == key then groups[0].tasks else TasksOf(groups[1..], key)
  }

  lemma {:induction false} AddToTasks<R>(groups: seq<Group<R>>, infos: seq<Info>, t: PTask<R>, key: seq<(nat, nat)>)
    ensures TasksOf(AddTo(groups, infos, t), key) == TasksOf(groups, key) + if Keys(infos) == key then [t] else []
  {
    if groups == [] {
      assert AddTo(groups, infos, t)[1..] == [];
    } else if Keys(groups[0].infos) != Keys(infos) {
      AddToTasks(groups[1..], infos, t, key);
    }
  }

  /** Grouping collects the tasks of every key, in order. */
  lemma {:induction false} GroupAllTasks<R>(ts: seq<PTask<R>>, dims: set<nat>, key: seq<(nat, nat)>)
    ensures TasksOf(GroupAll(ts, dims), key) == At(ts, dims, key)
  {
    if ts != [] {
      GroupAllTasks(ts[..|ts| - 1], dims, key);
      var t := ts[|ts| - 1];
      AddToTasks(GroupAll(ts[..|ts| - 1], dims), Filter(t.infos, dims), t, key);
    }
  }

  predicate DistinctKeys<R>(groups: seq<Group<R>>) {
    forall i, j :: 0 <= i < j < |groups| ==> Keys(groups[i].infos) != Keys(groups[j].infos)
  }

  /** Groups have different keys, each the key of some task. */
  ghost predicate Grouped<R>(groups: seq<Group<R>>, ts: seq<PTask<R>>, dims: set<nat>) {
    && DistinctKeys(groups)
    && (forall i :: 0 <= i < |groups| ==> KeyOfSome(ts, dims, groups[i].infos))
  }

  ghost predicate KeyOfSome<R>(ts: seq<PTask<R>>, dims: set<nat>, infos: seq<Info>) {
    exists k :: 0 <= k < |ts| && Filter(ts[k].infos, dims) == infos
  }

  lemma {:induction false} AddToKeys<R>(groups: seq<Group<R>>, infos: seq<Info>, t: PTask<R>, g: Group<R>)
    requires g in AddTo(groups, infos, t)
    ensures g.infos == infos || exists h :: h in groups && h.infos == g.infos
    ensures Keys(g.infos) == Keys(infos) || g in groups
  {
    if groups != [] {
      if Keys(groups[0].infos) == Keys(infos) {
        assert groups[0] in groups && (g in groups[1..] ==> g in groups);
      } else if g == groups[0] {
        assert groups[0] in groups;
      } else {
        AddToKeys(groups[1..], infos, t, g);
        assert forall h :: h in groups[1..] ==> h in groups;
      }
    }
  }

  lemma {:induction false} AddToDistinct<R>(groups: seq<Group<R>>, infos: seq<Info>, t: PTask<R>)
    requires DistinctKeys(groups)
    ensures DistinctKeys(AddTo(groups, infos, t))
  {
    if groups != [] && Keys(groups[0].infos) != Keys(infos) {
      AddToDistinct(groups[1..], infos, t);
      var r := AddTo(groups[1..], infos, t);
      forall j | 0 <= j < |r| ensures Keys(groups[0].infos) != Keys(r[j].infos) {
        AddToKeys(groups[1..], infos, t, r[j]);
      }
    }
  }

  lemma {:induction false} GroupAllGrouped<R>(ts: seq<PTask<R>>, dims: set<nat>)
    ensures Grouped(GroupAll(ts, dims), ts, dims)
  {
    if ts != [] {
      var init, t := ts[..|ts| - 1], ts[|ts| - 1];
      var groups := GroupAll(init, dims);
      var r := AddTo(groups, Filter(t.infos, dims), t);
      GroupAllGrouped(init, dims);
      AddToDistinct(groups, Filter(t.infos, dims), t);
      forall i | 0 <= i < |r| ensures KeyOfSome(ts, dims, r[i].infos) {
        AddToKeys(groups, Filter(t.infos, dims), t, r[i]);
        if r[i].infos != Filter(t.infos, dims) {
          var h :| h in groups && h.infos == r[i].infos;
          var k :| 0 <= k < |init| && Filter(init[k].infos, dims) == h.infos;
          assert ts[k] == init[k];
        } else {
          assert Filter(ts[|ts| - 1].infos, dims) == r[i].infos;
        }
      }
    }
  }

  /** The rows of the tasks with exactly this key. */
  function TaskRows<R>(ts: seq<PTask<R>>, key: seq<(nat, nat)>): multiset<R> {
    if ts == [] then multiset{}
    else (if Keys(ts[0].infos) == key then ts[0].rows else multiset{}) + TaskRows(ts[1..], key)
  }

  lemma {:induction false} CreateAllAre<R>(groups: seq<Group<R>>, next: nat)
    requires CreateAll(groups, next).Planned? && forall i :: 0 <= i < |groups| ==> Sorted(groups[i].infos)
    ensures var out := CreateAll(groups, next).value;
      |out| == |groups| && forall i :: 0 <= i < |out| ==>
        out[i] == PTask(next + i, groups[i].infos, Merge(groups[i].tasks))
  {
    if groups != [] {
      assert Sorted(groups[0].infos) && forall i :: 0 <= i < |groups[1..]| ==> groups[1..][i] == groups[i + 1];
      SortedSort(groups[0].infos);
      CreateAllAre(groups[1..], next + 1);
    }
  }

  /** The tasks created for groups with different keys have the merged rows of the group with their key. */
  lemma {:induction false} GroupsRows<R>(out: seq<PTask<R>>, groups: seq<Group<R>>, key: seq<(nat, nat)>)
    requires |out| == |groups| && DistinctKeys(groups)
    requires forall i :: 0 <= i < |out| ==> out[i].infos == groups[i].infos && out[i].rows == Merge(groups[i].tasks)
    ensures TaskRows(out, key) == Merge(TasksOf(groups, key))
    ensures (forall i :: 0 <= i < |groups| ==> Keys(groups[i].infos) != key) ==> TasksOf(groups, key) == []
  {
    if groups != [] {
      assert forall i :: 0 <= i < |groups[1..]| ==> groups[1..][i] == groups[i + 1] && out[1..][i] == out[i + 1];
      GroupsRows(out[1..], groups[1..], key);
      if Keys(groups[0].infos) == key {
        assert forall i :: 0 <= i < |groups[1..]| ==> Keys(groups[1..][i].infos) != key;
      }
    }
  }

  lemma {:induction false} FilterSorted(infos: seq<Info>, dims: set<nat>)
    requires Sorted(infos)
    ensures Sorted(Filter(infos, dims)) && forall x :: x in Filter(infos, dims) ==> x in infos
  {
    if infos != [] {
      var init, last := infos[..|infos| - 1], infos[|infos| - 1];
      FilterSorted(init, dims);
      forall x | x in Filter(init, dims) ensures !Before(last, x) {
        assert x in init;
        var i :| 0 <= i < |init| && init[i] == x;
        assert !Before(infos[|infos| - 1], infos[i]);
      }
    }
  }

  predicate AllSorted<R>(ts: seq<PTask<R>>) { forall i :: 0 <= i < |ts| ==> Sorted(ts[i].infos) }

  /** Consolidation makes one task for each restricted key that occurs. It merges the tasks that have the key, and so
      has the rows of all of them exactly when none that has rows is listed twice. */
  lemma ConsolidateConserves<R>(ts: seq<PTask<R>>, dims: set<nat>, next: nat, key: seq<(nat, nat)>)
    requires AllSorted(ts) && Consolidate(ts, dims, next).Planned?
    ensures var out := Consolidate(ts, dims, next).value;
      && TaskRows(out, key) == Merge(At(ts, dims, key))
      && (TaskRows(out, key) == RowsAt(ts, dims, key) <==> NoneTwice(At(ts, dims, key)))
      && (forall i, j :: 0 <= i < j < |out| ==> Keys(out[i].infos) != Keys(out[j].infos))
      && (forall i :: 0 <= i < |out| ==> out[i].id == next + i && KeyOfSome(ts, dims, out[i].infos))
  {
    var groups := GroupAll(ts, dims);
    GroupAllGrouped(ts, dims);
    GroupAllTasks(ts, dims, key);
    RowsAtIs(ts, dims, key);
    MergeIff(At(ts, dims, key));
    forall i | 0 <= i < |groups| ensures Sorted(groups[i].infos) {
      var k :| 0 <= k < |ts| && Filter(ts[k].infos, dims) == groups[i].infos;
      FilterSorted(ts[k].infos, dims);
    }
    CreateAllAre(groups, next);
    GroupsRows(Consolidate(ts, dims, next).value, groups, key);
  }

  /** A task listed twice: consolidation always loses its second half. */
  lemma ConsolidateTwice<R>(t: PTask<R>, dims: set<nat>, next: nat)
    requires Sorted(t.infos) && Consolidate([t, t], dims, next).Planned?
    ensures var key := Keys(Filter(t.infos, dims));
      TaskRows(Consolidate([t, t], dims, next).value, key) == t.rows && RowsAt([t, t], dims, key) == t.rows + t.rows
  {
    var key := Keys(Filter(t.infos, dims));
    assert AllSorted([t, t]);
    ConsolidateConserves([t, t], dims, next, key);
    RowsAtIs([t, t], dims, key);
    AtTwice(t, dims);
    MergeTwice(t);
  }

  lemma AtTwice<R>(t: PTask<R>, dims: set<nat>)
    ensures At([t, t], dims, Keys(Filter(t.infos, dims))) == [t, t]
  {
    var key := Keys(Filter(t.infos, dims));
    assert [t, t][..1] == [t] && [t][..0] == [];
    assert At([t], dims, key) == At([], dims, key) + [t];
    assert At([t, t], dims, key) == At([t], dims, key) + [t];
  }

  // ---------------------------------------------------------------- nested partitioning

  /** How a producer distributes the rows of its input: some split into as many parts as asked for. */
  ghost predicate Splits<R(!new)>(split: (nat, multiset<R>, nat) -> seq<multiset<R>>) {
    forall id: nat, rows: multiset<R>, n: nat {:trigger split(id, rows, n)} ::
      n > 0 ==> |split(id, rows, n)| == n && Union(split(id, rows, n)) == rows
  }

  function Part<R>(split: (nat, multiset<R>, nat) -> seq<multiset<R>>, id: nat, rows: multiset<R>, n: nat,
          index: nat): multiset<R> {
    var parts := split(id, rows, n);
    if index < |parts| then parts[index] else multiset{}
  }

  /** The consumers of producer `id`, from partition `index` on; partition 0 is task `next`. */
  function NestedConsumers<R>(t: PTask<R>, id: nat, next: nat, n: nat, dim: nat, index: nat,
          split: (nat, multiset<R>, nat) -> seq<multiset<R>>)
      : Planned<seq<PTask<R>>>
    decreases n - index
  {
    if index >= n then Planned([]) else
      match (Create(next + index, t.infos + [Info(dim, index, n)], Part(split, id, t.rows, n, index)),
          NestedConsumers(t, id, next, n, dim, index + 1, split))
      case (Planned(c), Planned(rest)) => Planned([c] + rest)
      case _ => Refused
  }

  function NestedAll<R>(ts: seq<PTask<R>>, id: nat, next: nat, n: nat, dim: nat,
          split: (nat, multiset<R>, nat) -> seq<multiset<R>>): Planned<seq<PTask<R>>>
    decreases |ts|
  {
    if ts == [] then Planned([]) else
      match (NestedConsumers(ts[0], id, next, n, dim, 0, split), NestedAll(ts[1..], id + 1, next + n, n, dim, split))
      case (Planned(cs), Planned(rest)) => Planned(cs + rest)
      case _ => Refused
  }

  /** What the planner's check for a duplicate dimension compares: the name of the dimension, and tuples of names. */
  datatype Value = Name(dim: nat) | Tuple(dims: seq<nat>)

  function UniqueDims<R>(ts: seq<PTask<R>>): set<Value> { set t | t in ts :: Tuple(Dims(t.infos)) }

  /** The planner's own check. */
  predicate FoundDuplicate<R>(ts: seq<PTask<R>>, dim: nat) { Name(dim) in UniqueDims(ts) }

  /** `visit_partition_node` with `nested`. The producers take the first ids, the consumers those after them. */
  function PartitionNested<R>(ts: seq<PTask<R>>, next: nat, n: nat, dim: nat, maxCard: nat,
          split: (nat, multiset<R>, nat) -> seq<multiset<R>>)
      : Planned<seq<PTask<R>>> {
    if !SameDims(ts) || FoundDuplicate(ts, dim) || |ts| * n > maxCard then Refused
    else NestedAll(ts, 0, next + |ts|, n, dim, split)
  }

  /** A task as the constructor leaves it. */
  predicate Proper<R>(t: PTask<R>) { Sorted(t.infos) && DistinctDims(t.infos) && HasToplevel(t.infos) }

  predicate HasDim<R>(t: PTask<R>, dim: nat) { exists i :: 0 <= i < |t.infos| && t.infos[i].dim == dim }

  lemma SortAppend(infos: seq<Info>, x: Info)
    requires Sorted(infos)
    ensures Sort(infos + [x]) == Insert(x, infos)
  {
    assert (infos + [x])[..|infos|] == infos;
    SortedSort(infos);
  }

  predicate Absent(s: seq<Info>, dim: nat) { forall i :: 0 <= i < |s| ==> s[i].dim != dim }

  lemma DistinctAppend(r: seq<Info>, last: Info)
    ensures DistinctDims(r + [last]) <==> DistinctDims(r) && Absent(r, last.dim)
  {
    var s := r + [last];
    if DistinctDims(s) {
      forall i, j | 0 <= i < j < |r| ensures r[i].dim != r[j].dim { assert s[i].dim != s[j].dim; }
      forall i | 0 <= i < |r| ensures r[i].dim != last.dim { assert s[i].dim != s[|r|].dim; }
    }
  }

  lemma {:induction false} InsertAbsent(x: Info, s: seq<Info>, dim: nat)
    ensures Absent(Insert(x, s), dim) <==> x.dim != dim && Absent(s, dim)
  {
    if s != [] && Before(x, s[|s| - 1]) {
      InsertAbsent(x, s[..|s| - 1], dim);
      AbsentAppend(Insert(x, s[..|s| - 1]), s[|s| - 1], dim);
      AbsentAppend(s[..|s| - 1], s[|s| - 1], dim);
      assert s == s[..|s| - 1] + [s[|s| - 1]];
    } else {
      AbsentAppend(s, x, dim);
    }
  }

  lemma AbsentAppend(r: seq<Info>, last: Info, dim: nat)
    ensures Absent(r + [last], dim) <==> last.dim != dim && Absent(r, dim)
  {
    var s := r + [last];
    if Absent(s, dim) {
      assert s[|r|].dim != dim;
      forall i | 0 <= i < |r| ensures r[i].dim != dim { assert s[i].dim != dim; }
    }
  }

  lemma {:induction false} InsertDistinct(x: Info, s: seq<Info>)
    requires DistinctDims(s)
    ensures DistinctDims(Insert(x, s)) <==> Absent(s, x.dim)
  {
    if s != [] && Before(x, s[|s| - 1]) {
      var init, last := s[..|s| - 1], s[|s| - 1];
      assert s == init + [last];
      DistinctAppend(init, last);
      DistinctAppend(Insert(x, init), last);
      InsertAbsent(x, init, last.dim);
      InsertDistinct(x, init);
      AbsentAppend(init, last, x.dim);
    } else {
      DistinctAppend(s, x);
    }
  }

  /** The constructor accepts a consumer exactly when its producer does not have the dimension yet. */
  lemma ConsumerCreated<R>(id: nat, t: PTask<R>, n: nat, dim: nat, index: nat, rows: multiset<R>)
    requires Proper(t)
    ensures var c := Create(id, t.infos + [Info(dim, index, n)], rows);
      (c.Planned? <==> !HasDim(t, dim))
      && (c.Planned? ==> c.value == PTask(id, Insert(Info(dim, index, n), t.infos), rows))
  {
    SortAppend(t.infos, Info(dim, index, n));
    InsertDistinct(Info(dim, index, n), t.infos);
    var k :| 0 <= k < |t.infos| && t.infos[k].dim == 0;
    assert (t.infos + [Info(dim, index, n)])[k].dim == 0;
  }

  /** What the consumers of one producer look like. */
  ghost predicate ConsumersOf<R>(cs: seq<PTask<R>>, t: PTask<R>, id: nat, next: nat, n: nat, dim: nat, index: nat,
          split: (nat, multiset<R>, nat) -> seq<multiset<R>>) {
    && index <= n && |cs| == n - index
    && forall i :: 0 <= i < |cs| ==> cs[i] == PTask(next + index + i, Insert(Info(dim, index + i, n), t.infos),
        Part(split, id, t.rows, n, index + i))
  }

  lemma {:induction false} NestedConsumersAre<R>(t: PTask<R>, id: nat, next: nat, n: nat, dim: nat, index: nat,
          split: (nat, multiset<R>, nat) -> seq<multiset<R>>)
    requires Proper(t) && index <= n
    ensures var r := NestedConsumers(t, id, next, n, dim, index, split);
      && (r.Planned? <==> index == n || !HasDim(t, dim))
      && (r.Planned? ==> ConsumersOf(r.value, t, id, next, n, dim, index, split))
    decreases n - index
  {
    if index < n {
      ConsumerCreated(next + index, t, n, dim, index, Part(split, id, t.rows, n, index));
      NestedConsumersAre(t, id, next, n, dim, index + 1, split);
    }
  }

  lemma {:induction false} NestedAllAre<R>(ts: seq<PTask<R>>, id: nat, next: nat, n: nat, dim: nat,
          split: (nat, multiset<R>, nat) -> seq<multiset<R>>)
    requires forall i :: 0 <= i < |ts| ==> Proper(ts[i])
    ensures var r := NestedAll(ts, id, next, n, dim, split);
      r.Planned? <==> n == 0 || forall i :: 0 <= i < |ts| ==> !HasDim(ts[i], dim)
    decreases |ts|
  {
    if ts != [] {
      assert Proper(ts[0]) && forall i :: 0 <= i < |ts[1..]| ==> ts[1..][i] == ts[i + 1];
      NestedConsumersAre(ts[0], id, next, n, dim, 0, split);
      NestedAllAre(ts[1..], id + 1, next + n, n, dim, split);
      assert forall i :: 0 < i < |ts| ==> ts[i] == ts[1..][i - 1];
    }
  }

  lemma {:induction false} RowsAtSplit<R>(a: seq<PTask<R>>, b: seq<PTask<R>>, dims: set<nat>, key: seq<(nat, nat)>)
    ensures RowsAt(a + b, dims, key) == RowsAt(a, dims, key) + RowsAt(b, dims, key)
  {
    if b == [] {
      assert a + b == a;
    } else {
      RowsAtSplit(a, b[..|b| - 1], dims, key);
      assert (a + b)[..|a + b| - 1] == a + b[..|b| - 1];
    }
  }

  lemma UnionTake<R>(parts: seq<multiset<R>>, i: nat)
    requires i < |parts|
    ensures Union(parts[..i + 1]) == Union(parts[..i]) + parts[i]
  {
    assert parts[..i + 1] == parts[..i] + [parts[i]];
    UnionAppend(parts[..i], parts[i]);
  }

  /** Restricted to the old dimensions, all consumers of a producer have its key, and together its rows. */
  lemma {:induction false} ConsumersRows<R(!new)>(cs: seq<PTask<R>>, t: PTask<R>, id: nat, next: nat, n: nat, dim: nat,
          dims: set<nat>, key: seq<(nat, nat)>, split: (nat, multiset<R>, nat) -> seq<multiset<R>>, m: nat)
    requires Splits(split) && n > 0 && ConsumersOf(cs, t, id, next, n, dim, 0, split) && m <= n
    requires dim !in dims && forall i :: 0 <= i < |t.infos| ==> t.infos[i].dim in dims
    ensures RowsAt(cs[..m], dims, key) == if Keys(t.infos) == key then Union(split(id, t.rows, n)[..m]) else multiset{}
    decreases m
  {
    if m > 0 {
      var c := cs[m - 1];
      ConsumersRows(cs, t, id, next, n, dim, dims, key, split, m - 1);
      FilterInsert(Info(dim, m - 1, n), t.infos, dims);
      FilterAll(t.infos, dims);
      assert cs[..m][..m - 1] == cs[..m - 1] && cs[..m][m - 1] == c;
      UnionTake(split(id, t.rows, n), m - 1);
    }
  }

  /** All consumers of one producer. */
  lemma AllConsumersRows<R(!new)>(t: PTask<R>, id: nat, next: nat, n: nat, dim: nat, dims: set<nat>,
                                  key: seq<(nat, nat)>, split: (nat, multiset<R>, nat) -> seq<multiset<R>>)
    requires Splits(split) && n > 0 && dim !in dims && Proper(t) && WithinDims(t, dims)
        && NestedConsumers(t, id, next, n, dim, 0, split).Planned?
    ensures RowsAt(NestedConsumers(t, id, next, n, dim, 0, split).value, dims, key)
        == if Keys(t.infos) == key then t.rows else multiset{}
  {
    var cs := NestedConsumers(t, id, next, n, dim, 0, split).value;
    NestedConsumersAre(t, id, next, n, dim, 0, split);
    ConsumersRows(cs, t, id, next, n, dim, dims, key, split, n);
    assert cs[..n] == cs && split(id, t.rows, n)[..n] == split(id, t.rows, n);
  }

  ghost predicate AllProper<R>(ts: seq<PTask<R>>, dims: set<nat>) {
    forall i :: 0 <= i < |ts| ==> Proper(ts[i]) && WithinDims(ts[i], dims)
  }

  lemma {:induction false} NestedRows<R(!new)>(ts: seq<PTask<R>>, id: nat, next: nat, n: nat, dim: nat, dims: set<nat>,
                                         key: seq<(nat, nat)>, split: (nat, multiset<R>, nat) -> seq<multiset<R>>)
    requires Splits(split) && n > 0 && dim !in dims && AllProper(ts, dims)
    requires NestedAll(ts, id, next, n, dim, split).Planned?
    ensures RowsAt(NestedAll(ts, id, next, n, dim, split).value, dims, key) == TaskRows(ts, key)
    decreases |ts|
  {
    if ts != [] {
      assert Proper(ts[0]) && AllProper(ts[1..], dims) by {
        assert forall i :: 0 <= i < |ts[1..]| ==> ts[1..][i] == ts[i + 1];
      }
      AllConsumersRows(ts[0], id, next, n, dim, dims, key, split);
      NestedRows(ts[1..], id + 1, next + n, n, dim, dims, key, split);
      RowsAtSplit(NestedConsumers(ts[0], id, next, n, dim, 0, split).value,
          NestedAll(ts[1..], id + 1, next + n, n, dim, split).value, dims, key);
    }
  }

  predicate WithinDims<R>(t: PTask<R>, dims: set<nat>) { forall i :: 0 <= i < |t.infos| ==> t.infos[i].dim in dims }

  // ---------------------------------------------------------------- nested partitioning, then consolidation

  /** c is a consumer of some task of ts. */
  ghost predicate ConsumerOfSome<R>(c: PTask<R>, ts: seq<PTask<R>>, n: nat, dim: nat) {
    exists k, index: nat :: 0 <= k < |ts| && c.infos == Insert(Info(dim, index, n), ts[k].infos)
  }

  lemma {:induction false} NestedInfos<R>(ts: seq<PTask<R>>, id: nat, next: nat, n: nat, dim: nat, dims: set<nat>,
          split: (nat, multiset<R>, nat) -> seq<multiset<R>>)
    requires n > 0 && AllProper(ts, dims) && NestedAll(ts, id, next, n, dim, split).Planned?
    ensures var cs := NestedAll(ts, id, next, n, dim, split).value;
      && (forall i :: 0 <= i < |cs| ==> ConsumerOfSome(cs[i], ts, n, dim))
      && (forall k :: 0 <= k < |ts| ==> HasInfos(cs, Insert(Info(dim, 0, n), ts[k].infos)))
    decreases |ts|
  {
    if ts != [] {
      var tail := ts[1..];
      assert forall i :: 0 <= i < |tail| ==> tail[i] == ts[i + 1];
      assert Proper(ts[0]) && AllProper(tail, dims);
      NestedConsumersAre(ts[0], id, next, n, dim, 0, split);
      NestedInfos(tail, id + 1, next + n, n, dim, dims, split);
      var first, rest := NestedConsumers(ts[0], id, next, n, dim, 0, split).value,
          NestedAll(tail, id + 1, next + n, n, dim, split).value;
      NestedJoin(first, rest, ts, id, next, n, dim, split);
    }
  }

  ghost predicate HasInfos<R>(cs: seq<PTask<R>>, infos: seq<Info>) { exists i :: 0 <= i < |cs| && cs[i].infos == infos }

  lemma NestedJoin<R>(first: seq<PTask<R>>, rest: seq<PTask<R>>, ts: seq<PTask<R>>, id: nat, next: nat, n: nat,
          dim: nat, split: (nat, multiset<R>, nat) -> seq<multiset<R>>)
    requires n > 0 && ts != [] && ConsumersOf(first, ts[0], id, next, n, dim, 0, split)
    requires forall i :: 0 <= i < |rest| ==> ConsumerOfSome(rest[i], ts[1..], n, dim)
    requires forall k :: 0 <= k < |ts[1..]| ==> HasInfos(rest, Insert(Info(dim, 0, n), ts[1..][k].infos))
    ensures forall i :: 0 <= i < |first + rest| ==> ConsumerOfSome((first + rest)[i], ts, n, dim)
    ensures forall k :: 0 <= k < |ts| ==> HasInfos(first + rest, Insert(Info(dim, 0, n), ts[k].infos))
  {
    var cs := first + rest;
    forall i | 0 <= i < |cs| ensures ConsumerOfSome(cs[i], ts, n, dim) {
      if i < |first| {
        assert cs[i].infos == Insert(Info(dim, i, n), ts[0].infos);
      } else {
        assert cs[i] == rest[i - |first|];
        var k, index: nat :| 0 <= k < |ts[1..]| && cs[i].infos == Insert(Info(dim, index, n), ts[1..][k].infos);
        assert ts[k + 1] == ts[1..][k];
      }
    }
    forall k | 0 <= k < |ts| ensures HasInfos(cs, Insert(Info(dim, 0, n), ts[k].infos)) {
      if k == 0 {
        assert cs[0].infos == Insert(Info(dim, 0, n), ts[0].infos);
      } else {
        assert ts[k] == ts[1..][k - 1];
        var i :| 0 <= i < |rest| && rest[i].infos == Insert(Info(dim, 0, n), ts[k].infos);
        assert cs[|first| + i] == rest[i];
      }
    }
  }

  /** Where a new dimension is inserted depends on the dimensions only. */
  lemma {:induction false} InsertDims(x: Info, y: Info, s: seq<Info>, t: seq<Info>)
    requires x.dim == y.dim && Dims(s) == Dims(t) && Absent(s, x.dim)
    ensures Dims(Insert(x, s)) == Dims(Insert(y, t))
    decreases |s|
  {
    assert |s| == |Dims(s)| == |Dims(t)| == |t|;
    if s != [] {
      var n := |s| - 1;
      assert Dims(s)[n] == s[n].dim && Dims(t)[n] == t[n].dim && s[n].dim != x.dim;
      if Before(x, s[n]) {
        assert Dims(s[..n]) == Dims(s)[..n] == Dims(t[..n]);
        InsertDims(x, y, s[..n], t[..n]);
        assert Dims(Insert(x, s)) == Dims(Insert(x, s[..n])) + [s[n].dim];
        assert Dims(Insert(y, t)) == Dims(Insert(y, t[..n])) + [t[n].dim];
      } else {
        assert Dims(s + [x]) == Dims(s) + [x.dim] && Dims(t + [y]) == Dims(t) + [y.dim];
      }
    }
  }

  lemma {:induction false} AddToCovers<R>(groups: seq<Group<R>>, infos: seq<Info>, t: PTask<R>, key: seq<(nat, nat)>)
    requires Keys(infos) == key || HasGroup(groups, key)
    ensures HasGroup(AddTo(groups, infos, t), key)
  {
    var r := AddTo(groups, infos, t);
    if groups == [] {
      assert Keys(r[0].infos) == key;
    } else if Keys(groups[0].infos) == Keys(infos) {
      if Keys(infos) == key { assert Keys(r[0].infos) == key; } else {
        var i :| 0 <= i < |groups| && Keys(groups[i].infos) == key;
        assert r[i] == groups[i];
      }
    } else if Keys(groups[0].infos) == key {
      assert Keys(r[0].infos) == key;
    } else {
      if HasGroup(groups, key) {
        var i :| 0 <= i < |groups| && Keys(groups[i].infos) == key;
        assert groups[1..][i - 1] == groups[i];
      }
      AddToCovers(groups[1..], infos, t, key);
      var i :| 0 <= i < |r[1..]| && Keys(r[1..][i].infos) == key;
      assert r[i + 1] == r[1..][i];
    }
  }

  predicate HasGroup<R>(groups: seq<Group<R>>, key: seq<(nat, nat)>) {
    exists i :: 0 <= i < |groups| && Keys(groups[i].infos) == key
  }

  lemma {:induction false} GroupAllCovers<R>(ts: seq<PTask<R>>, dims: set<nat>, k: nat)
    requires k < |ts|
    ensures HasGroup(GroupAll(ts, dims), Keys(Filter(ts[k].infos, dims)))
  {
    var init, t := ts[..|ts| - 1], ts[|ts| - 1];
    if k < |init| {
      GroupAllCovers(init, dims, k);
      assert init[k] == ts[k];
    }
    AddToCovers(GroupAll(init, dims), Filter(t.infos, dims), t, Keys(Filter(ts[k].infos, dims)));
  }

  lemma {:induction false} CreateAllPlanned<R>(groups: seq<Group<R>>, next: nat)
    requires forall i :: 0 <= i < |groups| ==>
      Sorted(groups[i].infos) && DistinctDims(groups[i].infos) && HasToplevel(groups[i].infos)
    ensures CreateAll(groups, next).Planned?
  {
    if groups != [] {
      assert Sorted(groups[0].infos) && forall i :: 0 <= i < |groups[1..]| ==> groups[1..][i] == groups[i + 1];
      SortedSort(groups[0].infos);
      CreateAllPlanned(groups[1..], next + 1);
    }
  }

  ghost predicate DimsAre<R>(ts: seq<PTask<R>>, dims: set<nat>) {
    SameDims(ts) && dims == (set d | d in Dims(ts[0].infos))
  }

  lemma DimsAbsent<R>(ts: seq<PTask<R>>, dims: set<nat>, dim: nat)
    requires DimsAre(ts, dims) && forall i :: 0 <= i < |ts| ==> !HasDim(ts[i], dim)
    ensures dim !in dims && forall i :: 0 <= i < |ts| ==> Absent(ts[i].infos, dim) && WithinDims(ts[i], dims)
  {
    forall i | 0 <= i < |ts| ensures Absent(ts[i].infos, dim) && WithinDims(ts[i], dims) {
      forall j | 0 <= j < |ts[i].infos| ensures ts[i].infos[j].dim in dims {
        assert Dims(ts[i].infos)[j] == ts[i].infos[j].dim;
        assert ts[i].infos[j].dim in Dims(ts[0].infos);
      }
    }
    DimsHas(ts[0], dim);
  }

  lemma DimsHas<R>(t: PTask<R>, dim: nat)
    ensures dim in Dims(t.infos) ==> HasDim(t, dim)
  {
    if dim in Dims(t.infos) {
      var j :| 0 <= j < |Dims(t.infos)| && Dims(t.infos)[j] == dim;
      assert t.infos[j].dim == dim;
    }
  }

  /** The consumers can be consolidated on the old dimensions. */
  lemma ConsumersConsolidate<R>(cs: seq<PTask<R>>, ts: seq<PTask<R>>, n: nat, dim: nat, dims: set<nat>)
    requires DimsAre(ts, dims) && AllProper(ts, dims) && dim !in dims && n > 0
    requires forall i :: 0 <= i < |ts| ==> Absent(ts[i].infos, dim)
    requires forall i :: 0 <= i < |cs| ==> ConsumerOfSome(cs[i], ts, n, dim)
    requires cs != []
    ensures SameDims(cs) && AllSorted(cs) && (forall d :: d in dims ==> d in Dims(cs[0].infos))
    ensures forall i :: 0 <= i < |cs| ==> InfosOfSome(ts, Filter(cs[i].infos, dims))
  {
    forall i | 0 <= i < |cs|
      ensures Dims(cs[i].infos) == Dims(Insert(Info(dim, 0, n), ts[0].infos)) && Sorted(cs[i].infos)
      ensures InfosOfSome(ts, Filter(cs[i].infos, dims))
    {
      var k, index: nat :| 0 <= k < |ts| && cs[i].infos == Insert(Info(dim, index, n), ts[k].infos);
      assert Proper(ts[k]) && WithinDims(ts[k], dims) && Absent(ts[k].infos, dim);
      InsertDims(Info(dim, index, n), Info(dim, 0, n), ts[k].infos, ts[0].infos);
      InsertSorted(Info(dim, index, n), ts[k].infos);
      FilterInsert(Info(dim, index, n), ts[k].infos, dims);
      FilterAll(ts[k].infos, dims);
      assert Filter(cs[i].infos, dims) == ts[k].infos;
    }
    DimsKept(ts[0].infos, Info(dim, 0, n));
  }

  ghost predicate InfosOfSome<R>(ts: seq<PTask<R>>, infos: seq<Info>) {
    exists k :: 0 <= k < |ts| && ts[k].infos == infos
  }

  lemma {:induction false} DimsKept(s: seq<Info>, x: Info)
    ensures forall d :: d in Dims(s) ==> d in Dims(Insert(x, s))
  {
    forall d | d in Dims(s) ensures d in Dims(Insert(x, s)) {
      var i :| 0 <= i < |s| && Dims(s)[i] == d;
      InsertHas(x, s, s[i]);
      var j :| 0 <= j < |Insert(x, s)| && Insert(x, s)[j] == s[i];
      assert Dims(Insert(x, s))[j] == d;
    }
  }

  lemma {:induction false} InsertHas(x: Info, s: seq<Info>, y: Info)
    requires y in s
    ensures y in Insert(x, s)
  {
    if Before(x, s[|s| - 1]) {
      assert s == s[..|s| - 1] + [s[|s| - 1]];
      if y in s[..|s| - 1] { InsertHas(x, s[..|s| - 1], y); }
    }
  }

  /** Partitioning every task further and consolidating on the old dimensions gives back the original partitions:
      the same keys, each once, with the same rows. */
  lemma NestedThenConsolidate<R(!new)>(ts: seq<PTask<R>>, next: nat, n: nat, dim: nat, maxCard: nat,
          split: (nat, multiset<R>, nat) -> seq<multiset<R>>, dims: set<nat>, later: nat, key: seq<(nat, nat)>)
    requires Splits(split) && n > 0 && DimsAre(ts, dims) && (forall i :: 0 <= i < |ts| ==> Proper(ts[i]))
    requires PartitionNested(ts, next, n, dim, maxCard, split).Planned?
    ensures var cs := PartitionNested(ts, next, n, dim, maxCard, split).value;
      Consolidate(cs, dims, later).Planned? && Restores(Consolidate(cs, dims, later).value, ts, key)
  {
    var cs := PartitionNested(ts, next, n, dim, maxCard, split).value;
    NestedFits(ts, next, n, dim, maxCard, split, dims);
    NestedRowsKept(ts, next, n, dim, maxCard, split, dims, key);
    GroupsPlanned(cs, ts, dims, later);
    ConsolidateConserves(cs, dims, later, key);
    var out := Consolidate(cs, dims, later).value;
    forall i | 0 <= i < |out| ensures InfosOfSome(ts, out[i].infos) {
      var j :| 0 <= j < |cs| && Filter(cs[j].infos, dims) == out[i].infos;
      assert InfosOfSome(ts, Filter(cs[j].infos, dims));
    }
    forall k | 0 <= k < |ts| ensures KeyOccurs(out, Keys(ts[k].infos)) { KeyReturns(cs, ts, n, dim, dims, later, k); }
  }

  /** The consumers can be consolidated on the old dimensions, where they have the infos of the old tasks. */
  ghost predicate FitsOld<R>(cs: seq<PTask<R>>, ts: seq<PTask<R>>, n: nat, dim: nat, dims: set<nat>) {
    && SameDims(cs) && AllSorted(cs) && (forall d :: d in dims ==> d in Dims(cs[0].infos))
    && AllProper(ts, dims) && dim !in dims
    && (forall i :: 0 <= i < |cs| ==> InfosOfSome(ts, Filter(cs[i].infos, dims)))
    && (forall k :: 0 <= k < |ts| ==> HasInfos(cs, Insert(Info(dim, 0, n), ts[k].infos)))
  }

  lemma NestedFits<R>(ts: seq<PTask<R>>, next: nat, n: nat, dim: nat, maxCard: nat,
          split: (nat, multiset<R>, nat) -> seq<multiset<R>>, dims: set<nat>)
    requires n > 0 && DimsAre(ts, dims) && (forall i :: 0 <= i < |ts| ==> Proper(ts[i]))
    requires PartitionNested(ts, next, n, dim, maxCard, split).Planned?
    ensures FitsOld(PartitionNested(ts, next, n, dim, maxCard, split).value, ts, n, dim, dims)
  {
    var cs := PartitionNested(ts, next, n, dim, maxCard, split).value;
    NestedAllAre(ts, 0, next + |ts|, n, dim, split);
    DimsAbsent(ts, dims, dim);
    assert AllProper(ts, dims);
    NestedInfos(ts, 0, next + |ts|, n, dim, dims, split);
    assert HasInfos(cs, Insert(Info(dim, 0, n), ts[0].infos));
    ConsumersConsolidate(cs, ts, n, dim, dims);
  }

  /** No consumer is listed twice, and under the old infos they have the old rows. */
  lemma NestedRowsKept<R(!new)>(ts: seq<PTask<R>>, next: nat, n: nat, dim: nat, maxCard: nat,
          split: (nat, multiset<R>, nat) -> seq<multiset<R>>, dims: set<nat>, key: seq<(nat, nat)>)
    requires Splits(split) && n > 0 && AllProper(ts, dims) && dim !in dims
    requires PartitionNested(ts, next, n, dim, maxCard, split).Planned?
    ensures var cs := PartitionNested(ts, next, n, dim, maxCard, split).value;
      NoneTwice(At(cs, dims, key)) && RowsAt(cs, dims, key) == TaskRows(ts, key)
  {
    NestedIds(ts, 0, next + |ts|, n, dim, split);
    AtDistinct(PartitionNested(ts, next, n, dim, maxCard, split).value, dims, key);
    NestedRows(ts, 0, next + |ts|, n, dim, dims, key, split);
  }

  /** The consumers are numbered from `next` on. */
  lemma {:induction false} ConsumersIds<R>(t: PTask<R>, id: nat, next: nat, n: nat, dim: nat, index: nat,
          split: (nat, multiset<R>, nat) -> seq<multiset<R>>)
    requires index <= n && NestedConsumers(t, id, next, n, dim, index, split).Planned?
    ensures var cs := NestedConsumers(t, id, next, n, dim, index, split).value;
      |cs| == n - index && forall i :: 0 <= i < |cs| ==> cs[i].id == next + index + i
    decreases n - index
  {
    if index < n { ConsumersIds(t, id, next, n, dim, index + 1, split); }
  }

  lemma {:induction false} NestedIds<R>(ts: seq<PTask<R>>, id: nat, next: nat, n: nat, dim: nat,
          split: (nat, multiset<R>, nat) -> seq<multiset<R>>)
    requires NestedAll(ts, id, next, n, dim, split).Planned?
    ensures var cs := NestedAll(ts, id, next, n, dim, split).value;
      forall i :: 0 <= i < |cs| ==> cs[i].id == next + i
    decreases |ts|
  {
    if ts != [] {
      ConsumersIds(ts[0], id, next, n, dim, 0, split);
      NestedIds(ts[1..], id + 1, next + n, n, dim, split);
    }
  }

  lemma {:induction false} AtIn<R>(ts: seq<PTask<R>>, dims: set<nat>, key: seq<(nat, nat)>)
    ensures forall t :: t in At(ts, dims, key) ==> t in ts
  {
    if ts != [] { AtIn(ts[..|ts| - 1], dims, key); }
  }

  /** Different tasks: none is listed twice anywhere. */
  lemma {:induction false} AtDistinct<R>(ts: seq<PTask<R>>, dims: set<nat>, key: seq<(nat, nat)>)
    requires DistinctIds(ts)
    ensures DistinctIds(At(ts, dims, key)) && NoneTwice(At(ts, dims, key))
  {
    if ts != [] {
      var init, t := ts[..|ts| - 1], ts[|ts| - 1];
      var at := At(init, dims, key);
      AtDistinct(init, dims, key);
      AtIn(init, dims, key);
      forall i | 0 <= i < |at| ensures at[i].id != t.id {
        assert at[i] in init;
        var k :| 0 <= k < |init| && init[k] == at[i];
        assert ts[k].id != ts[|ts| - 1].id;
      }
    }
  }

  /** The tasks of out have distinct keys, which are the keys of ts, and per key the rows of ts. */
  ghost predicate Restores<R>(out: seq<PTask<R>>, ts: seq<PTask<R>>, key: seq<(nat, nat)>) {
    && TaskRows(out, key) == TaskRows(ts, key)
    && (forall i, j :: 0 <= i < j < |out| ==> Keys(out[i].infos) != Keys(out[j].infos))
    && (forall i :: 0 <= i < |out| ==> InfosOfSome(ts, out[i].infos))
    && (forall k :: 0 <= k < |ts| ==> KeyOccurs(out, Keys(ts[k].infos)))
  }

  ghost predicate KeyOccurs<R>(out: seq<PTask<R>>, key: seq<(nat, nat)>) {
    exists i :: 0 <= i < |out| && Keys(out[i].infos) == key
  }

  lemma GroupsPlanned<R>(cs: seq<PTask<R>>, ts: seq<PTask<R>>, dims: set<nat>, later: nat)
    requires SameDims(cs) && AllSorted(cs) && (forall d :: d in dims ==> d in Dims(cs[0].infos)) && AllProper(ts, dims)
    requires forall i :: 0 <= i < |cs| ==> InfosOfSome(ts, Filter(cs[i].infos, dims))
    ensures Consolidate(cs, dims, later).Planned?
  {
    var groups := GroupAll(cs, dims);
    GroupAllGrouped(cs, dims);
    forall i | 0 <= i < |groups| ensures Sorted(groups[i].infos) && DistinctDims(groups[i].infos)
        && HasToplevel(groups[i].infos) {
      var j :| 0 <= j < |cs| && Filter(cs[j].infos, dims) == groups[i].infos;
      var k :| 0 <= k < |ts| && ts[k].infos == Filter(cs[j].infos, dims);
      assert Proper(ts[k]);
    }
    CreateAllPlanned(groups, later);
  }

  /** The key of every original task occurs after the consolidation. */
  lemma KeyReturns<R>(cs: seq<PTask<R>>, ts: seq<PTask<R>>, n: nat, dim: nat, dims: set<nat>, later: nat, k: nat)
    requires k < |ts| && dim !in dims && WithinDims(ts[k], dims) && AllSorted(cs)
    requires Consolidate(cs, dims, later).Planned?
    requires HasInfos(cs, Insert(Info(dim, 0, n), ts[k].infos))
    ensures KeyOccurs(Consolidate(cs, dims, later).value, Keys(ts[k].infos))
  {
    var i :| 0 <= i < |cs| && cs[i].infos == Insert(Info(dim, 0, n), ts[k].infos);
    var groups, out := GroupAll(cs, dims), Consolidate(cs, dims, later).value;
    FilterInsert(Info(dim, 0, n), ts[k].infos, dims);
    FilterAll(ts[k].infos, dims);
    GroupAllCovers(cs, dims, i);
    var g :| 0 <= g < |groups| && Keys(groups[g].infos) == Keys(ts[k].infos);
    GroupsSorted(cs, dims);
    CreateAllAre(groups, later);
    assert out[g].infos == groups[g].infos;
  }

  lemma GroupsSorted<R>(cs: seq<PTask<R>>, dims: set<nat>)
    requires AllSorted(cs)
    ensures forall i :: 0 <= i < |GroupAll(cs, dims)| ==> Sorted(GroupAll(cs, dims)[i].infos)
  {
    var groups := GroupAll(cs, dims);
    GroupAllGrouped(cs, dims);
    forall i | 0 <= i < |groups| ensures Sorted(groups[i].infos) {
      var k :| 0 <= k < |cs| && Filter(cs[k].infos, dims) == groups[i].infos;
      FilterSorted(cs[k].infos, dims);
    }
  }

  /** A nested partition is refused exactly when the tasks differ in their dimensions, when there are too many
      consumers, or when some task has the dimension already: that is found by the task constructor, the planner's own
      check never finds the duplicate. */
  lemma NestedRefusedIff<R>(ts: seq<PTask<R>>, next: nat, n: nat, dim: nat, maxCard: nat,
          split: (nat, multiset<R>, nat) -> seq<multiset<R>>)
    requires forall i :: 0 <= i < |ts| ==> Proper(ts[i])
    ensures var r := PartitionNested(ts, next, n, dim, maxCard, split);
      && (r.Refused? <==> !SameDims(ts) || |ts| * n > maxCard || (n > 0 && exists i ::
                                                                  0 <= i < |ts| && HasDim(ts[i], dim)))
      && !FoundDuplicate(ts, dim)
  {
    NestedAllAre(ts, 0, next + |ts|, n, dim, split);
  }
}
