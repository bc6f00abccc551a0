/** Repartitioning without nesting, and the two-phase limit. */
module FlatPartitions {
  import opened Sequences
  import opened Splitting
  import opened Partitions
  import opened Planner

  function Ceil(x: nat, d: nat): (q: nat)
    requires d > 0
    ensures x <= d * q && (q > 0 ==> d * (q - 1) < x)
  {
    var q := (x + d - 1) / d;
    assert x + d - 1 == d * q + (x + d - 1) % d;
    assert d * (q - 1) == d * q - d;
    q
  }

  /** Dividing up is below c exactly when c - 1 whole portions are less than x. */
  lemma CeilBelow(x: nat, d: nat, c: nat)
    requires d > 0 && c >= 1
    ensures c <= Ceil(x, d) <==> d * (c - 1) < x
  {
    var q := Ceil(x, d);
    if c <= q { Times(d, c - 1, q - 1); } else { Times(d, q, c - 1); }
  }

  lemma Times(d: nat, a: nat, b: nat)
    requires a <= b
    ensures d * a <= d * b
  {
  }

  /** So many producers respect the configured number, the limit on producers times consumers, and twice the number of
      tasks that run at a time. */
  predicate Allowed(m: nat, n: nat, maxProducers: nat, maxCard: nat, parallel: nat) {
    m <= maxProducers && n * (m - 1) < maxCard && m <= 2 * parallel
  }

  /** `num_producer_tasks`: the largest number within the limits, but at least one. */
  function ProducerCount(n: nat, maxProducers: nat, maxCard: nat, executors: nat, cpus: nat,
          cpuLimit: nat): (count: nat)
    requires n > 0 && cpuLimit > 0
    ensures count >= 1
    ensures forall m: nat :: Allowed(m, n, maxProducers, maxCard, executors * Ceil(cpus, cpuLimit)) ==> m <= count
    ensures count == 1 || Allowed(count, n, maxProducers, maxCard, executors * Ceil(cpus, cpuLimit))
  {
    var most := if maxProducers < Ceil(maxCard, n) then maxProducers else Ceil(maxCard, n);
    var parallel := 2 * executors * Ceil(cpus, cpuLimit);
    var both := if most < parallel then most else parallel;
    var count := if both < 1 then 1 else both;
    AllowedBelow(n, maxProducers, maxCard, executors * Ceil(cpus, cpuLimit), both);
    count
  }

  lemma AllowedBelow(n: nat, maxProducers: nat, maxCard: nat, parallel: nat, both: nat)
    requires n > 0 && both <= maxProducers && both <= Ceil(maxCard, n) && both <= 2 * parallel
    requires both == maxProducers || both == Ceil(maxCard, n) || both == 2 * parallel
    ensures forall m: nat :: m > 0 && Allowed(m, n, maxProducers, maxCard, parallel) ==> m <= both
    ensures both > 0 ==> Allowed(both, n, maxProducers, maxCard, parallel)
  {
    if both > 0 { CeilBelow(maxCard, n, both); }
    forall m: nat | m > 0 && Allowed(m, n, maxProducers, maxCard, parallel) ensures m <= both {
      CeilBelow(maxCard, n, m);
    }
  }

  /** The inputs of the merge tasks: all inputs together when there are fewer of them than producers, else as many
      even slices as producers. */
  function MergeInputs<R>(ts: seq<PTask<R>>, producers: nat): seq<seq<PTask<R>>>
    requires producers > 0
  {
    if |ts| < producers then [ts] else SplitIntoRows(ts, producers)
  }

  function MergedRows<R>(groups: seq<seq<PTask<R>>>): seq<multiset<R>> {
    seq(|groups|, i requires 0 <= i < |groups| => Merge(groups[i]))
  }

  /** The rows of the producers: merged inputs, split by files when there is only one merge. */
  function ProducerRows<R>(ts: seq<PTask<R>>, producers: nat,
          files: (nat, multiset<R>, nat) -> seq<multiset<R>>): seq<multiset<R>>
    requires producers > 0
  {
    var merged := MergedRows(MergeInputs(ts, producers));
    if |ts| < producers then seq(producers, i requires 0 <= i => Part(files, 0, merged[0], producers, i)) else merged
  }

  /** Column `index` of the producers' partitions. */
  function Column<R>(rows: seq<multiset<R>>, n: nat, index: nat,
          split: (nat, multiset<R>, nat) -> seq<multiset<R>>): seq<multiset<R>> {
    seq(|rows|, p requires 0 <= p < |rows| => Part(split, p, rows[p], n, index))
  }

  /** The consumers from `index` on; the first of all is task `next`. */
  function FlatConsumers<R>(rows: seq<multiset<R>>, next: nat, n: nat, dim: nat, index: nat,
          split: (nat, multiset<R>, nat) -> seq<multiset<R>>)
      : Planned<seq<PTask<R>>>
    decreases n - index
  {
    if index >= n then Planned([]) else
      match (Create(next + index, [TOPLEVEL, Info(dim, index, n)], Union(Column(rows, n, index, split))),
          FlatConsumers(rows, next, n, dim, index + 1, split))
      case (Planned(c), Planned(rest)) => Planned([c] + rest)
      case _ => Refused
  }

  /** `visit_partition_node` without `nested`. */
  function PartitionFlat<R>(ts: seq<PTask<R>>, next: nat, n: nat, dim: nat, producers: nat,
          files: (nat, multiset<R>, nat) -> seq<multiset<R>>,
          split: (nat, multiset<R>, nat) -> seq<multiset<R>>): Planned<seq<PTask<R>>>
    requires producers > 0
  {
    if !SameDims(ts) then Refused else FlatConsumers(ProducerRows(ts, producers, files), next, n, dim, 0, split)
  }

  // ---------------------------------------------------------------- no merge task without inputs

  /** The planner never builds a merge task with no inputs, and every listed input goes to exactly one merge. */
  lemma MergesNonEmpty<R>(ts: seq<PTask<R>>, producers: nat)
    requires producers > 0 && ts != []
    ensures var groups := MergeInputs(ts, producers);
      && Concat(groups) == ts
      && (forall i :: 0 <= i < |groups| ==> Inputs(groups[i]) != [])
      && (|ts| >= producers ==> |groups| == producers)
  {
    if |ts| < producers {
      assert [ts][1..] == [];
      InputsList(ts);
    } else {
      SplitIntoRowsIsGetNth(ts, producers);
      forall i | 0 <= i < producers ensures Inputs(SplitIntoRows(ts, producers)[i]) != [] {
        StartIs(|ts|, i, producers);
        StartWithin(|ts|, i, producers);
        AtLeastOne(|ts|, producers);
        InputsList(SplitIntoRows(ts, producers)[i]);
      }
    }
  }

  lemma AtLeastOne(x: nat, d: nat)
    requires 0 < d <= x
    ensures x / d >= 1
  {
    assert x == d * (x / d) + x % d;
    assert d * 0 == 0;
  }

  // ---------------------------------------------------------------- conservation of rows

  /** No merge task is given a task that has rows twice. */
  predicate NoneMergedTwice<R>(groups: seq<seq<PTask<R>>>) {
    forall i :: 0 <= i < |groups| ==> NoneTwice(groups[i])
  }

  /** Merging keeps the rows exactly when no merge task is given a task that has rows twice; else it loses rows. */
  lemma {:induction false} MergedIff<R>(groups: seq<seq<PTask<R>>>)
    ensures Union(MergedRows(groups)) <= Union(RowsOf(Concat(groups)))
    ensures Union(MergedRows(groups)) == Union(RowsOf(Concat(groups))) <==> NoneMergedTwice(groups)
  {
    if groups != [] {
      var rest := groups[1..];
      MergedIff(rest);
      MergeIff(groups[0]);
      MergedNext(groups);
      ConcatNext(groups);
      TwiceNext(groups);
      SumsEqual(Merge(groups[0]), Union(RowsOf(groups[0])), Union(MergedRows(rest)), Union(RowsOf(Concat(rest))));
    }
  }

  lemma MergedNext<R>(groups: seq<seq<PTask<R>>>)
    requires groups != []
    ensures Union(MergedRows(groups)) == Merge(groups[0]) + Union(MergedRows(groups[1..]))
  {
    assert MergedRows(groups)[1..] == MergedRows(groups[1..]);
  }

  lemma ConcatNext<R>(groups: seq<seq<PTask<R>>>)
    requires groups != []
    ensures Union(RowsOf(Concat(groups))) == Union(RowsOf(groups[0])) + Union(RowsOf(Concat(groups[1..])))
  {
    assert RowsOf(Concat(groups)) == RowsOf(groups[0]) + RowsOf(Concat(groups[1..]));
    UnionSplit(RowsOf(groups[0]), RowsOf(Concat(groups[1..])));
  }

  lemma TwiceNext<R>(groups: seq<seq<PTask<R>>>)
    requires groups != []
    ensures NoneMergedTwice(groups) <==> NoneTwice(groups[0]) && NoneMergedTwice(groups[1..])
  {
    assert forall i :: 0 < i < |groups| ==> groups[i] == groups[1..][i - 1];
  }

  lemma ProducersConserve<R(!new)>(ts: seq<PTask<R>>, producers: nat,
          files: (nat, multiset<R>, nat) -> seq<multiset<R>>)
    requires producers > 0 && ts != [] && Splits(files)
    ensures Union(ProducerRows(ts, producers, files)) == Union(MergedRows(MergeInputs(ts, producers)))
  {
    if |ts| < producers {
      var merged := MergedRows(MergeInputs(ts, producers));
      assert |merged| == 1 && merged == [merged[0]] && merged[1..] == [];
      assert |files(0, merged[0], producers)| == producers;
      assert ProducerRows(ts, producers, files) == files(0, merged[0], producers);
    }
  }

  /** The rows the producers have sent to the first m partitions. */
  function SentTo<R>(rows: seq<multiset<R>>, n: nat, m: nat,
          split: (nat, multiset<R>, nat) -> seq<multiset<R>>): seq<multiset<R>>
    requires forall p :: 0 <= p < |rows| ==> m <= |split(p, rows[p], n)|
  {
    seq(|rows|, p requires 0 <= p < |rows| => Union(split(p, rows[p], n)[..m]))
  }

  lemma {:induction false} UnionPairs<R>(a: seq<multiset<R>>, b: seq<multiset<R>>, c: seq<multiset<R>>)
    requires |a| == |b| == |c| && forall p :: 0 <= p < |a| ==> c[p] == a[p] + b[p]
    ensures Union(c) == Union(a) + Union(b)
  {
    if a != [] {
      assert forall p :: 0 <= p < |a[1..]| ==> a[1..][p] == a[p + 1] && b[1..][p] == b[p + 1] && c[1..][p] == c[p + 1];
      UnionPairs(a[1..], b[1..], c[1..]);
    }
  }

  lemma {:induction false} UnionEmpty<R>(a: seq<multiset<R>>)
    requires forall p :: 0 <= p < |a| ==> a[p] == multiset{}
    ensures Union(a) == multiset{}
  {
    if a != [] {
      assert a[0] == multiset{} && forall p :: 0 <= p < |a[1..]| ==> a[1..][p] == a[p + 1];
      UnionEmpty(a[1..]);
    }
  }

  /** Column `index` is what the producers send to that partition. */
  lemma ColumnAdds<R(!new)>(rows: seq<multiset<R>>, n: nat, index: nat,
          split: (nat, multiset<R>, nat) -> seq<multiset<R>>)
    requires Splits(split) && index < n
    ensures forall p :: 0 <= p < |rows| ==> |split(p, rows[p], n)| == n
    ensures Union(SentTo(rows, n, index + 1, split)) == Union(SentTo(rows, n, index, split))
        + Union(Column(rows, n, index, split))
  {
    forall p | 0 <= p < |rows|
      ensures |split(p, rows[p], n)| == n
      ensures Union(split(p, rows[p], n)[..index + 1]) == Union(split(p, rows[p], n)[..index])
          + Part(split, p, rows[p], n, index)
    {
      UnionTake(split(p, rows[p], n), index);
    }
    UnionPairs(SentTo(rows, n, index, split), Column(rows, n, index, split), SentTo(rows, n, index + 1, split));
  }

  /** The rows of the consumers from `index` on. */
  function ColumnsFrom<R>(rows: seq<multiset<R>>, n: nat, index: nat,
          split: (nat, multiset<R>, nat) -> seq<multiset<R>>): seq<multiset<R>>
    decreases n - index
  {
    if index >= n then [] else [Union(Column(rows, n, index, split))] + ColumnsFrom(rows, n, index + 1, split)
  }

  lemma {:induction false} ColumnsUnion<R(!new)>(rows: seq<multiset<R>>, n: nat, index: nat,
          split: (nat, multiset<R>, nat) -> seq<multiset<R>>)
    requires Splits(split) && index <= n && n > 0
    requires forall p :: 0 <= p < |rows| ==> |split(p, rows[p], n)| == n
    ensures Union(SentTo(rows, n, index, split)) + Union(ColumnsFrom(rows, n, index, split))
        == Union(SentTo(rows, n, n, split))
    decreases n - index
  {
    if index < n {
      ColumnsUnion(rows, n, index + 1, split);
      ColumnAdds(rows, n, index, split);
    }
  }

  /** The consumers from `index` on, under infos that differ in the index. */
  lemma {:induction false} FlatConsumersAre<R>(rows: seq<multiset<R>>, next: nat, n: nat, dim: nat, index: nat,
          split: (nat, multiset<R>, nat) -> seq<multiset<R>>)
    requires index <= n && dim > 0
    ensures var cs := FlatConsumers(rows, next, n, dim, index, split);
      && cs.Planned? && |cs.value| == n - index
      && (forall i :: 0 <= i < n - index ==>
            cs.value[i].id == next + index + i && cs.value[i].infos == [TOPLEVEL, Info(dim, index + i, n)])
      && RowsOf(cs.value) == ColumnsFrom(rows, n, index, split)
    decreases n - index
  {
    if index < n {
      FlatConsumersAre(rows, next, n, dim, index + 1, split);
      FlatStep(rows, next, n, dim, index, split);
    }
  }

  lemma FlatStep<R>(rows: seq<multiset<R>>, next: nat, n: nat, dim: nat, index: nat,
          split: (nat, multiset<R>, nat) -> seq<multiset<R>>)
    requires index < n && dim > 0 && FlatConsumers(rows, next, n, dim, index + 1, split).Planned?
    ensures var t := PTask(next + index, [TOPLEVEL, Info(dim, index, n)], Union(Column(rows, n, index, split)));
      FlatConsumers(rows, next, n, dim, index, split)
          == Planned([t] + FlatConsumers(rows, next, n, dim, index + 1, split).value)
  {
    ToplevelCreated(next + index, dim, index, n, Union(Column(rows, n, index, split)));
  }

  lemma ToplevelCreated<R>(id: nat, dim: nat, index: nat, n: nat, rows: multiset<R>)
    requires dim > 0
    ensures var infos := [TOPLEVEL, Info(dim, index, n)]; Create(id, infos, rows) == Planned(PTask(id, infos, rows))
  {
    var infos := [TOPLEVEL, Info(dim, index, n)];
    assert infos[0].dim == 0;
    SortedSort(infos);
  }

  lemma ColumnsConserve<R(!new)>(rows: seq<multiset<R>>, n: nat, split: (nat, multiset<R>, nat) -> seq<multiset<R>>)
    requires n > 0 && Splits(split)
    ensures Union(ColumnsFrom(rows, n, 0, split)) == Union(rows)
  {
    ColumnAdds(rows, n, 0, split);
    ColumnsUnion(rows, n, 0, split);
    SentNoneAndAll(rows, n, split);
  }

  /** Repartitioning gives the consumers different partition infos and ids of their own. They have exactly the merged
      rows, and so all rows exactly when no merge task is given a task that has rows twice. */
  lemma FlatConserves<R(!new)>(ts: seq<PTask<R>>, next: nat, n: nat, dim: nat, producers: nat,
          files: (nat, multiset<R>, nat) -> seq<multiset<R>>, split: (nat, multiset<R>, nat) -> seq<multiset<R>>)
    requires producers > 0 && SameDims(ts) && n > 0 && dim > 0 && Splits(files) && Splits(split)
    ensures var cs := PartitionFlat(ts, next, n, dim, producers, files, split);
      && cs.Planned? && |cs.value| == n
      && Union(RowsOf(cs.value)) == Union(MergedRows(MergeInputs(ts, producers))) <= Union(RowsOf(ts))
      && (Union(RowsOf(cs.value)) == Union(RowsOf(ts)) <==> NoneMergedTwice(MergeInputs(ts, producers)))
      && (forall i :: 0 <= i < n ==> cs.value[i].id == next + i)
      && forall i, j :: 0 <= i < j < n ==> Keys(cs.value[i].infos) != Keys(cs.value[j].infos)
  {
    var rows := ProducerRows(ts, producers, files);
    ProducersConserve(ts, producers, files);
    MergesNonEmpty(ts, producers);
    MergedIff(MergeInputs(ts, producers));
    FlatConsumersAre(rows, next, n, dim, 0, split);
    ColumnsConserve(rows, n, split);
    DistinctConsumers(FlatConsumers(rows, next, n, dim, 0, split).value, n, dim);
  }

  /** Different tasks: no rows are lost, however many producers there are. */
  lemma DistinctConserved<R(!new)>(ts: seq<PTask<R>>, next: nat, n: nat, dim: nat, producers: nat,
          files: (nat, multiset<R>, nat) -> seq<multiset<R>>, split: (nat, multiset<R>, nat) -> seq<multiset<R>>)
    requires producers > 0 && SameDims(ts) && n > 0 && dim > 0 && Splits(files) && Splits(split) && DistinctIds(ts)
    ensures var cs := PartitionFlat(ts, next, n, dim, producers, files, split);
      cs.Planned? && Union(RowsOf(cs.value)) == Union(RowsOf(ts))
  {
    FlatConserves(ts, next, n, dim, producers, files, split);
    DistinctInputs(ts, producers);
  }

  lemma DistinctInputs<R>(ts: seq<PTask<R>>, producers: nat)
    requires producers > 0 && ts != [] && DistinctIds(ts)
    ensures NoneMergedTwice(MergeInputs(ts, producers))
  {
    MergesNonEmpty(ts, producers);
    DistinctGroups(MergeInputs(ts, producers));
  }

  lemma {:induction false} DistinctGroups<R>(groups: seq<seq<PTask<R>>>)
    requires DistinctIds(Concat(groups))
    ensures NoneMergedTwice(groups)
  {
    if groups != [] {
      var all, rest := Concat(groups), groups[1..];
      assert forall i :: 0 <= i < |groups[0]| ==> all[i] == groups[0][i];
      assert forall i :: 0 <= i < |Concat(rest)| ==> all[|groups[0]| + i] == Concat(rest)[i];
      DistinctGroups(rest);
      assert forall i :: 0 < i < |groups| ==> groups[i] == rest[i - 1];
    }
  }

  /** A union of an input with itself lists its task twice: with two producers each merges the task, with any other
      number one merge is given both, and reads the task once. */
  lemma SelfUnion<R(!new)>(t: PTask<R>, next: nat, n: nat, dim: nat, producers: nat,
          files: (nat, multiset<R>, nat) -> seq<multiset<R>>, split: (nat, multiset<R>, nat) -> seq<multiset<R>>)
    requires producers > 0 && n > 0 && dim > 0 && Splits(files) && Splits(split)
    ensures Union(RowsOf([t, t])) == t.rows + t.rows
    ensures var cs := PartitionFlat([t, t], next, n, dim, producers, files, split);
      cs.Planned? && Union(RowsOf(cs.value)) == if producers == 2 then t.rows + t.rows else t.rows
  {
    assert SameDims([t, t]);
    FlatConserves([t, t], next, n, dim, producers, files, split);
    MergesNonEmpty([t, t], producers);
    MergeTwice(t);
    var groups := MergeInputs([t, t], producers);
    if producers == 2 {
      TwoGroups(groups, t);
    } else {
      OneGroup(groups, [t, t]);
      UnionOfOne(groups, t);
    }
  }

  lemma OneGroup<R>(groups: seq<seq<PTask<R>>>, ts: seq<PTask<R>>)
    requires |groups| == 1 && Concat(groups) == ts
    ensures groups == [ts]
  {
    assert groups[1..] == [] && Concat(groups) == groups[0] + [] == groups[0];
    assert groups == [groups[0]];
  }

  lemma UnionOfOne<R>(groups: seq<seq<PTask<R>>>, t: PTask<R>)
    requires groups == [[t, t]]
    ensures Union(MergedRows(groups)) == t.rows
  {
    MergeTwice(t);
    assert MergedRows(groups) == [t.rows] && [t.rows][1..] == [];
  }

  lemma TwoGroups<R>(groups: seq<seq<PTask<R>>>, t: PTask<R>)
    requires |groups| == 2 && Concat(groups) == [t, t] && forall i :: 0 <= i < 2 ==> Inputs(groups[i]) != []
    ensures NoneMergedTwice(groups)
  {
    assert groups[1..][0] == groups[1] && groups[1..][1..] == [];
    assert Concat(groups) == groups[0] + (groups[1] + []);
    assert |groups[0]| == 1 && |groups[1]| == 1;
  }

  lemma SentNoneAndAll<R(!new)>(rows: seq<multiset<R>>, n: nat, split: (nat, multiset<R>, nat) -> seq<multiset<R>>)
    requires Splits(split) && n > 0 && forall p :: 0 <= p < |rows| ==> |split(p, rows[p], n)| == n
    ensures Union(SentTo(rows, n, 0, split)) == multiset{} && SentTo(rows, n, n, split) == rows
  {
    UnionEmpty(SentTo(rows, n, 0, split));
    forall p | 0 <= p < |rows| ensures Union(split(p, rows[p], n)[..n]) == rows[p] {
      assert split(p, rows[p], n)[..n] == split(p, rows[p], n);
    }
  }

  lemma DistinctConsumers<R>(cs: seq<PTask<R>>, n: nat, dim: nat)
    requires |cs| == n && forall i :: 0 <= i < n ==> cs[i].infos == [TOPLEVEL, Info(dim, i, n)]
    ensures forall i, j :: 0 <= i < j < n ==> Keys(cs[i].infos) != Keys(cs[j].infos)
  {
    forall i, j | 0 <= i < j < n ensures Keys(cs[i].infos) != Keys(cs[j].infos) {
      assert Keys(cs[i].infos)[1] == (dim, i) && Keys(cs[j].infos)[1] == (dim, j);
    }
  }

  // ---------------------------------------------------------------- limit

  /** `out` is a possible result of `limit k` over these rows: any rows, as many as there are up to k. */
  ghost predicate IsLimit<R>(rows: multiset<R>, out: multiset<R>, k: nat) {
    out <= rows && |out| == if |rows| < k then |rows| else k
  }

  /** `visit_limit_node`: limit every partition by a task of its own, merge these, limit again by task `id`. `pick`
      makes the choices. */
  function LimitPlan<R>(ts: seq<PTask<R>>, id: nat, k: nat,
          pick: (nat, multiset<R>, nat) -> multiset<R>): Planned<seq<PTask<R>>> {
    var partial := seq(|ts|, i requires 0 <= i < |ts| => pick(i, ts[i].rows, k));
    match Create(id, [TOPLEVEL], pick(|ts|, Union(partial), k))
    case Planned(t) => Planned([t])
    case Refused => Refused
  }

  lemma {:induction false} PartialLimits<R>(rows: seq<multiset<R>>, partial: seq<multiset<R>>, k: nat)
    requires |rows| == |partial| && forall i :: 0 <= i < |rows| ==> IsLimit(rows[i], partial[i], k)
    ensures Union(partial) <= Union(rows)
    ensures |Union(partial)| == |Union(rows)| || |Union(partial)| >= k
  {
    if rows != [] {
      assert IsLimit(rows[0], partial[0], k);
      assert forall i :: 0 <= i < |rows[1..]| ==> rows[1..][i] == rows[i + 1] && partial[1..][i] == partial[i + 1];
      PartialLimits(rows[1..], partial[1..], k);
    }
  }

  lemma Smaller<R>(a: multiset<R>, b: multiset<R>)
    requires a <= b
    ensures |a| <= |b|
  {
    assert b == a + (b - a);
  }

  /** Two phases make one limit: whatever rows each limit picks, the result is a choice of min(k, all) rows from all
      rows. */
  lemma TwoPhaseLimit<R(!new)>(ts: seq<PTask<R>>, id: nat, k: nat, pick: (nat, multiset<R>, nat) -> multiset<R>)
    requires forall i: nat, rows: multiset<R> {:trigger pick(i, rows, k)} :: IsLimit(rows, pick(i, rows, k), k)
    ensures var out := LimitPlan(ts, id, k, pick);
      out.Planned? && |out.value| == 1 && out.value[0].infos == [TOPLEVEL]
          && IsLimit(Union(RowsOf(ts)), out.value[0].rows, k)
  {
    var partial := seq(|ts|, i requires 0 <= i < |ts| => pick(i, ts[i].rows, k));
    PartialLimits(RowsOf(ts), partial, k);
    assert [TOPLEVEL][0].dim == 0;
    SortedSort([TOPLEVEL]);
    assert IsLimit(Union(partial), pick(|ts|, Union(partial), k), k);
    Smaller(Union(partial), Union(RowsOf(ts)));
  }
}
