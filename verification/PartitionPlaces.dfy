/** Where the rows go: each consumer of a partition node gets exactly the rows of its own partition. */
module PartitionPlaces {
  import opened Sequences
  import opened Partitions
  import opened Planner
  import opened FlatPartitions

  /** The producers send each row to the partition that `part` gives, as a hash of its key does. */
  ghost predicate SplitsBy<R(!new)>(split: (nat, multiset<R>, nat) -> seq<multiset<R>>, part: (R, nat) -> nat) {
    forall id: nat, rows: multiset<R>, n: nat {:trigger split(id, rows, n)} ::
      n > 0 ==> |split(id, rows, n)| == n && forall index: nat, x: R {:trigger split(id, rows, n)[index][x]} ::
        index < n ==> split(id, rows, n)[index][x] == if part(x, n) == index then rows[x] else 0
  }

  lemma {:induction false} ColumnHolds<R(!new)>(rows: seq<multiset<R>>, n: nat, index: nat,
          split: (nat, multiset<R>, nat) -> seq<multiset<R>>, part: (R, nat) -> nat, m: nat, x: R)
    requires SplitsBy(split, part) && index < n && m <= |rows|
    ensures Union(Column(rows, n, index, split)[..m])[x] == if part(x, n) == index then Union(rows[..m])[x] else 0
    decreases m
  {
    if m > 0 {
      ColumnHolds(rows, n, index, split, part, m - 1, x);
      UnionTake(Column(rows, n, index, split), m - 1);
      UnionTake(rows, m - 1);
      assert split(m - 1, rows[m - 1], n)[index][x] == if part(x, n) == index then rows[m - 1][x] else 0;
    }
  }

  lemma {:induction false} ColumnsAt<R>(rows: seq<multiset<R>>, n: nat, index: nat, i: nat,
          split: (nat, multiset<R>, nat) -> seq<multiset<R>>)
    requires index <= i < n
    ensures |ColumnsFrom(rows, n, index, split)| == n - index
    ensures ColumnsFrom(rows, n, index, split)[i - index] == Union(Column(rows, n, i, split))
    decreases n - index
  {
    if index < i {
      ColumnsAt(rows, n, index + 1, i, split);
    } else if index + 1 < n {
      ColumnsAt(rows, n, index + 1, index + 1, split);
    } else {
      assert ColumnsFrom(rows, n, index + 1, split) == [];
    }
  }

  /** Rows with the same key meet: consumer i of a repartitioning has exactly the rows, of all merged ones, that belong
      to partition i, however many producers there are and however files are split among them. */
  lemma FlatByKey<R(!new)>(ts: seq<PTask<R>>, next: nat, n: nat, dim: nat, producers: nat,
          files: (nat, multiset<R>, nat) -> seq<multiset<R>>, split: (nat, multiset<R>, nat) -> seq<multiset<R>>,
          part: (R, nat) -> nat, i: nat, x: R)
    requires producers > 0 && SameDims(ts) && i < n && dim > 0 && Splits(files) && SplitsBy(split, part)
    ensures var cs := PartitionFlat(ts, next, n, dim, producers, files, split);
      && cs.Planned? && |cs.value| == n && cs.value[i].infos == [TOPLEVEL, Info(dim, i, n)]
      && cs.value[i].rows[x] == if part(x, n) == i then Union(MergedRows(MergeInputs(ts, producers)))[x] else 0
  {
    var rows := ProducerRows(ts, producers, files);
    ProducersConserve(ts, producers, files);
    ConsumerHolds(rows, next, n, dim, i, split);
    ColumnHolds(rows, n, i, split, part, |rows|, x);
    assert Column(rows, n, i, split)[..|rows|] == Column(rows, n, i, split) && rows[..|rows|] == rows;
  }

  lemma ConsumerHolds<R>(rows: seq<multiset<R>>, next: nat, n: nat, dim: nat, i: nat,
          split: (nat, multiset<R>, nat) -> seq<multiset<R>>)
    requires i < n && dim > 0
    ensures var cs := FlatConsumers(rows, next, n, dim, 0, split);
      && cs.Planned? && |cs.value| == n && cs.value[i].infos == [TOPLEVEL, Info(dim, i, n)]
      && cs.value[i].rows == Union(Column(rows, n, i, split))
  {
    FlatConsumersAre(rows, next, n, dim, 0, split);
    ColumnsAt(rows, n, 0, i, split);
    var cs := FlatConsumers(rows, next, n, dim, 0, split).value;
    assert RowsOf(cs)[i] == cs[i].rows;
  }

  /** A repartitioning is refused exactly when the tasks differ in their dimensions, or the dimension is the one that
      every task has. */
  lemma FlatRefusedIff<R>(ts: seq<PTask<R>>, next: nat, n: nat, dim: nat, producers: nat,
          files: (nat, multiset<R>, nat) -> seq<multiset<R>>, split: (nat, multiset<R>, nat) -> seq<multiset<R>>)
    requires producers > 0
    ensures PartitionFlat(ts, next, n, dim, producers, files, split).Refused? <==>
            !SameDims(ts) || (n > 0 && dim == 0)
  {
    if SameDims(ts) {
      var rows := ProducerRows(ts, producers, files);
      if dim > 0 {
        FlatConsumersAre(rows, next, n, dim, 0, split);
      } else if n > 0 {
        var infos := [TOPLEVEL, Info(0, 0, n)];
        assert Sort(infos)[0].dim == Sort(infos)[1].dim by { TwoToplevel(n); }
      }
    }
  }

  lemma TwoToplevel(n: nat)
    ensures var s := Sort([TOPLEVEL, Info(0, 0, n)]); |s| == 2 && s[0].dim == 0 && s[1].dim == 0
  {
    var infos := [TOPLEVEL, Info(0, 0, n)];
    assert infos[..1] == [TOPLEVEL] && [TOPLEVEL][..0] == [];
    assert Sort([TOPLEVEL]) == Insert(TOPLEVEL, []);
  }

  // ---------------------------------------------------------------- nested

  /** Consumer `index` of task i of a nested partition: numbered in order, with the infos of the task and the new one,
      and with that part of the task's rows. */
  ghost predicate Placed<R>(c: PTask<R>, t: PTask<R>, i: nat, next: nat, n: nat, dim: nat, index: nat,
          split: (nat, multiset<R>, nat) -> seq<multiset<R>>) {
    && c.id == next + i * n + index
    && Sorted(c.infos) && (forall y :: y in c.infos <==> y == Info(dim, index, n) || y in t.infos)
    && c.rows == Part(split, i, t.rows, n, index)
  }

  lemma {:induction false} NestedLength<R>(ts: seq<PTask<R>>, id: nat, next: nat, n: nat, dim: nat,
          split: (nat, multiset<R>, nat) -> seq<multiset<R>>)
    requires NestedAll(ts, id, next, n, dim, split).Planned?
    ensures |NestedAll(ts, id, next, n, dim, split).value| == |ts| * n
    decreases |ts|
  {
    if ts != [] {
      ConsumersIds(ts[0], id, next, n, dim, 0, split);
      NestedLength(ts[1..], id + 1, next + n, n, dim, split);
      assert |ts| * n == n + (|ts| - 1) * n;
    }
  }

  ghost predicate AreProper<R>(ts: seq<PTask<R>>) { forall k :: 0 <= k < |ts| ==> Proper(ts[k]) }

  /** The consumer at this place is that of task i. */
  ghost predicate ConsumerAt<R>(cs: seq<PTask<R>>, ts: seq<PTask<R>>, id: nat, next: nat, n: nat, dim: nat,
          split: (nat, multiset<R>, nat) -> seq<multiset<R>>, i: nat, index: nat, at: nat) {
    && i < |ts| && at < |cs|
    && cs[at].id == next + at && cs[at].infos == Insert(Info(dim, index, n), ts[i].infos)
    && cs[at].rows == Part(split, id + i, ts[i].rows, n, index)
  }

  lemma {:induction false} NestedAt<R>(cs: seq<PTask<R>>, ts: seq<PTask<R>>, id: nat, next: nat, n: nat, dim: nat,
          split: (nat, multiset<R>, nat) -> seq<multiset<R>>, i: nat, index: nat, at: nat)
    requires AreProper(ts) && i < |ts| && index < n && at == Place(i, n) + index
    requires NestedAll(ts, id, next, n, dim, split) == Planned(cs)
    ensures ConsumerAt(cs, ts, id, next, n, dim, split, i, index, at)
    decreases |ts|
  {
    if i == 0 {
      NestedFirst(cs, ts, id, next, n, dim, split, index);
    } else {
      TailProper(ts);
      var rest := NestedTail(ts, id, next, n, dim, split);
      var tail, j, to := ts[1..], i - 1, at - n;
      NestedAt(rest, tail, id + 1, next + n, n, dim, split, j, index, to);
      NestedLater(cs, rest, ts, tail, id, next, n, dim, split, j, index, to);
    }
  }

  lemma NestedFirst<R>(cs: seq<PTask<R>>, ts: seq<PTask<R>>, id: nat, next: nat, n: nat, dim: nat,
          split: (nat, multiset<R>, nat) -> seq<multiset<R>>, index: nat)
    requires ts != [] && AreProper(ts) && NestedAll(ts, id, next, n, dim, split) == Planned(cs) && index < n
    ensures ConsumerAt(cs, ts, id, next, n, dim, split, 0, index, index)
  {
    NestedStep(ts, id, next, n, dim, split, index);
  }

  lemma NestedTail<R>(ts: seq<PTask<R>>, id: nat, next: nat, n: nat, dim: nat,
          split: (nat, multiset<R>, nat) -> seq<multiset<R>>) returns (rest: seq<PTask<R>>)
    requires ts != [] && NestedAll(ts, id, next, n, dim, split).Planned?
    ensures NestedAll(ts[1..], id + 1, next + n, n, dim, split) == Planned(rest)
  {
    rest := NestedAll(ts[1..], id + 1, next + n, n, dim, split).value;
  }

  lemma NestedLater<R>(cs: seq<PTask<R>>, rest: seq<PTask<R>>, ts: seq<PTask<R>>, tail: seq<PTask<R>>, id: nat,
          next: nat, n: nat, dim: nat, split: (nat, multiset<R>, nat) -> seq<multiset<R>>, j: nat, index: nat, to: nat)
    requires ts != [] && tail == ts[1..] && AreProper(ts) && NestedAll(ts, id, next, n, dim, split) == Planned(cs)
    requires NestedAll(tail, id + 1, next + n, n, dim, split) == Planned(rest)
    requires ConsumerAt(rest, tail, id + 1, next + n, n, dim, split, j, index, to)
    ensures ConsumerAt(cs, ts, id, next, n, dim, split, j + 1, index, to + n)
  {
    NestedStep(ts, id, next, n, dim, split, to + n);
    SameConsumer(ts, id, next, n, dim, split, j + 1, index, to + n);
  }

  lemma TailProper<R>(ts: seq<PTask<R>>)
    requires ts != [] && AreProper(ts)
    ensures AreProper(ts[1..])
  {
    assert forall k :: 0 <= k < |ts[1..]| ==> ts[1..][k] == ts[k + 1];
  }

  /** The numbers of a consumer, counted from the second task on or from the first. */
  lemma SameConsumer<R>(ts: seq<PTask<R>>, id: nat, next: nat, n: nat, dim: nat,
          split: (nat, multiset<R>, nat) -> seq<multiset<R>>, i: nat, index: nat, at: nat)
    requires 0 < i < |ts| && n <= at
    ensures PTask(next + n + (at - n), Insert(Info(dim, index, n), ts[1..][i - 1].infos),
        Part(split, id + 1 + (i - 1), ts[1..][i - 1].rows, n, index))
      == PTask(next + at, Insert(Info(dim, index, n), ts[i].infos), Part(split, id + i, ts[i].rows, n, index))
  {
  }

  /** Where the consumers of task i begin. */
  function Place(i: nat, n: nat): nat { if i == 0 then 0 else n + Place(i - 1, n) }

  lemma {:induction false} PlaceIs(i: nat, n: nat)
    ensures Place(i, n) == i * n
  {
    if i > 0 {
      PlaceIs(i - 1, n);
      assert i * n == (i - 1) * n + n;
    }
  }

  lemma NestedStep<R>(ts: seq<PTask<R>>, id: nat, next: nat, n: nat, dim: nat,
          split: (nat, multiset<R>, nat) -> seq<multiset<R>>, at: nat)
    requires ts != [] && Proper(ts[0]) && NestedAll(ts, id, next, n, dim, split).Planned?
    ensures NestedAll(ts[1..], id + 1, next + n, n, dim, split).Planned?
    ensures var cs, rest := NestedAll(ts, id, next, n, dim, split).value,
                NestedAll(ts[1..], id + 1, next + n, n, dim, split).value;
      && |cs| == n + |rest|
      && (at < n ==> cs[at] == PTask(next + at, Insert(Info(dim, at, n), ts[0].infos),
        Part(split, id, ts[0].rows, n, at)))
      && (n <= at < |cs| ==> cs[at] == rest[at - n])
  {
    NestedConsumersAre(ts[0], id, next, n, dim, 0, split);
  }

  /** Every task of a nested partition is split on its own, and its consumers follow each other in the plan. */
  lemma NestedPlaces<R>(ts: seq<PTask<R>>, next: nat, n: nat, dim: nat, maxCard: nat,
          split: (nat, multiset<R>, nat) -> seq<multiset<R>>, i: nat, index: nat)
    requires (forall k :: 0 <= k < |ts| ==> Proper(ts[k])) && i < |ts| && index < n
    requires PartitionNested(ts, next, n, dim, maxCard, split).Planned?
    ensures var cs := PartitionNested(ts, next, n, dim, maxCard, split).value;
      |cs| == |ts| * n && 0 <= i * n + index < |cs|
      && Placed(cs[i * n + index], ts[i], i, next + |ts|, n, dim, index, split)
  {
    NestedLength(ts, 0, next + |ts|, n, dim, split);
    PlaceIs(i, n);
    var cs := PartitionNested(ts, next, n, dim, maxCard, split).value;
    NestedAt(cs, ts, 0, next + |ts|, n, dim, split, i, index, i * n + index);
    InsertSorted(Info(dim, index, n), ts[i].infos);
  }

  // ---------------------------------------------------------------- consolidation

  /** A consolidation is refused exactly when the tasks differ in their dimensions, lack one that is asked for, or the
      one that every task must have is not asked for. */
  lemma ConsolidateRefusedIff<R>(ts: seq<PTask<R>>, dims: set<nat>, next: nat)
    requires forall i :: 0 <= i < |ts| ==> Proper(ts[i])
    ensures Consolidate(ts, dims, next).Refused? <==>
            !SameDims(ts) || (exists d :: d in dims && d !in Dims(ts[0].infos)) || 0 !in dims
  {
    if SameDims(ts) && forall d :: d in dims ==> d in Dims(ts[0].infos) {
      var groups := GroupAll(ts, dims);
      GroupAllGrouped(ts, dims);
      GroupAllCovers(ts, dims, 0);
      if 0 in dims {
        forall g | 0 <= g < |groups|
          ensures Sorted(groups[g].infos) && DistinctDims(groups[g].infos) && HasToplevel(groups[g].infos)
        {
          var k :| 0 <= k < |ts| && Filter(ts[k].infos, dims) == groups[g].infos;
          FilterProper(ts[k].infos, dims);
          FilterSorted(ts[k].infos, dims);
        }
        CreateAllPlanned(groups, next);
      } else {
        var k :| 0 <= k < |ts| && Filter(ts[k].infos, dims) == groups[0].infos;
        FilterProper(ts[k].infos, dims);
      }
    }
  }

  lemma {:induction false} FilterProper(infos: seq<Info>, dims: set<nat>)
    ensures DistinctDims(infos) ==> DistinctDims(Filter(infos, dims))
    ensures HasToplevel(Filter(infos, dims)) <==> HasToplevel(infos) && 0 in dims
    ensures forall d :: Absent(infos, d) ==> Absent(Filter(infos, dims), d)
  {
    if infos != [] {
      var init, last := infos[..|infos| - 1], infos[|infos| - 1];
      assert infos == init + [last];
      FilterProper(init, dims);
      DistinctAppend(init, last);
      DistinctAppend(Filter(init, dims), last);
      ToplevelAppend(init, last);
      if last.dim in dims {
        ToplevelAppend(Filter(init, dims), last);
      } else {
        assert Filter(infos, dims) == Filter(init, dims);
      }
      forall d | Absent(infos, d) ensures Absent(Filter(infos, dims), d) {
        AbsentAppend(init, last, d);
        AbsentAppend(Filter(init, dims), last, d);
      }
    }
  }

  lemma ToplevelAppend(s: seq<Info>, last: Info)
    ensures HasToplevel(s + [last]) <==> HasToplevel(s) || last.dim == 0
  {
    assert (s + [last])[|s|] == last && forall i :: 0 <= i < |s| ==> (s + [last])[i] == s[i];
  }
}
