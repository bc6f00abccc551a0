/** Cutting ranges of rows, in place, instead of cutting rows. */
module RowRanges {
  import opened WorkItems
  import opened Sequences
  import opened Splitting

  datatype FilePath = FilePath(name: string)

  /** A row, named by its file and its index there. */
  datatype Row = Row(path: FilePath, index: int)

  function RowsFrom(path: FilePath, begin: int, end: int): seq<Row>
    requires begin <= end
  {
    seq(end - begin, i => Row(path, begin + i))
  }

  lemma RowsSplit(path: FilePath, begin: int, mid: int, end: int)
    requires begin <= mid <= end
    ensures RowsFrom(path, begin, mid) + RowsFrom(path, mid, end) == RowsFrom(path, begin, end)
  {
  }

  class RowRange {
    const path: FilePath
    const dataSize: nat
    const fileNumRows: nat
    var begin: int
    var end: int

    constructor (path: FilePath, dataSize: nat, fileNumRows: nat, begin: int, end: int)
      ensures this.path == path && this.dataSize == dataSize && this.fileNumRows == fileNumRows
      ensures this.begin == begin && this.end == end
    {
      this.path := path;
      this.dataSize := dataSize;
      this.fileNumRows := fileNumRows;
      this.begin := begin;
      this.end := end;
    }

    predicate Valid()
      reads this
    {
      begin <= end
    }

    function NumRows(): nat
      reads this
      requires Valid()
    {
      end - begin
    }

    function Rows(): seq<Row>
      reads this
      requires Valid()
    {
      RowsFrom(path, begin, end)
    }

    function EstimatedDataSize(): nat
      reads this
      requires Valid()
    {
      if fileNumRows > 0 then dataSize * NumRows() / fileNumRows else 0
    }

    /** `take`: the head of the range, which is cut off from this range. */
    method Take(numRows: nat) returns (head: RowRange)
      requires Valid()
      modifies `begin
      ensures Valid() && fresh(head) && head.Valid() && SameFile(head, this)
      ensures head.Rows() + Rows() == old(Rows())
      ensures end == old(end) && begin == old(begin) + head.NumRows()
      ensures head.NumRows() == if numRows < old(NumRows()) then numRows else old(NumRows())
    {
      var n := if numRows < NumRows() then numRows else NumRows();
      head := new RowRange(path, dataSize, fileNumRows, begin, begin + n);
      RowsSplit(path, begin, begin + n, end);
      begin := begin + n;
    }
  }

  /** Ranges of one file. */
  predicate SameFile(a: RowRange, b: RowRange) {
    a.path == b.path && a.dataSize == b.dataSize && a.fileNumRows == b.fileNumRows
  }

  /** Every range of the part is of the file of some range of the list. */
  ghost predicate FromFiles(part: seq<RowRange>, ranges: seq<RowRange>) {
    forall r :: r in part ==> exists o :: o in ranges && SameFile(r, o)
  }

  lemma FromFilesTwice(a: seq<RowRange>, b: seq<RowRange>, c: seq<RowRange>)
    requires FromFiles(a, b) && FromFiles(b, c)
    ensures FromFiles(a, c)
  {
    forall r | r in a ensures exists o :: o in c && SameFile(r, o) {
      var q :| q in b && SameFile(r, q);
      var o :| o in c && SameFile(q, o);
    }
  }

  // ---------------------------------------------------------------- lists of ranges

  predicate AllValid(ranges: seq<RowRange>)
    reads ranges
  {
    forall i :: 0 <= i < |ranges| ==> ranges[i].Valid()
  }

  function Expand(ranges: seq<RowRange>): seq<Row>
    reads ranges
    requires AllValid(ranges)
  {
    if ranges == [] then [] else
      assert ranges[0] in ranges && forall i :: 0 <= i < |ranges[1..]| ==> ranges[1..][i] == ranges[i + 1];
      ranges[0].Rows() + Expand(ranges[1..])
  }

  /** No range that has rows occurs twice in the list. */
  ghost predicate NoneRepeated(ranges: seq<RowRange>)
    reads ranges
    requires AllValid(ranges)
  {
    forall i, j :: 0 <= i < j < |ranges| && ranges[i] == ranges[j] ==> ranges[i].NumRows() == 0
  }

  /** Python's `copy.deepcopy` of the list: an object that occurs twice is copied once. */
  method DeepCopy(ranges: seq<RowRange>) returns (copies: seq<RowRange>)
    requires AllValid(ranges)
    ensures |copies| == |ranges| && forall i :: 0 <= i < |copies| ==> fresh(copies[i])
    ensures forall i :: 0 <= i < |copies| ==>
      SameFile(copies[i], ranges[i]) && copies[i].begin == ranges[i].begin && copies[i].end == ranges[i].end
    ensures forall i, j ::
      0 <= i < |copies| && 0 <= j < |copies| ==> (copies[i] == copies[j] <==> ranges[i] == ranges[j])
  {
    copies := [];
    var memo: map<RowRange, RowRange> := map[];
    var i := 0;
    while i < |ranges|
      invariant i <= |ranges| && |copies| == i
      invariant forall r :: r in memo <==> r in ranges[..i]
      invariant forall r :: r in memo ==>
        fresh(memo[r]) && SameFile(memo[r], r) && memo[r].begin == r.begin && memo[r].end == r.end
      invariant forall r, u :: r in memo && u in memo && memo[r] == memo[u] ==> r == u
      invariant forall k :: 0 <= k < i ==> ranges[k] in memo && copies[k] == memo[ranges[k]]
    {
      var r := ranges[i];
      if r !in memo {
        var c := new RowRange(r.path, r.dataSize, r.fileNumRows, r.begin, r.end);
        memo := memo[r := c];
      }
      copies := copies + [memo[r]];
      i := i + 1;
    }
  }

  /** How many rows each object has now. */
  ghost function Counts(ranges: seq<RowRange>): map<RowRange, nat>
    reads ranges
    requires AllValid(ranges)
  {
    map r | r in ranges :: r.NumRows()
  }

  /** Rows in distinct objects: what the list can really give. */
  ghost function Distinct(ranges: seq<RowRange>, counts: map<RowRange, nat>): nat
    requires forall r :: r in ranges ==> r in counts
  {
    if ranges == [] then 0 else
      assert ranges[0] in ranges && forall r :: r in ranges[1..] ==> r in ranges;
      (if ranges[0] in ranges[1..] then 0 else counts[ranges[0]]) + Distinct(ranges[1..], counts)
  }

  ghost function Available(ranges: seq<RowRange>): nat
    reads ranges
    requires AllValid(ranges)
  {
    Distinct(ranges, Counts(ranges))
  }

  lemma {:induction false} DistinctSame(ranges: seq<RowRange>, a: map<RowRange, nat>, b: map<RowRange, nat>)
    requires forall r :: r in ranges ==> r in a && r in b && a[r] == b[r]
    ensures Distinct(ranges, a) == Distinct(ranges, b)
  {
    if ranges != [] {
      assert ranges[0] in ranges && forall r :: r in ranges[1..] ==> r in ranges;
      DistinctSame(ranges[1..], a, b);
    }
  }

  /** Taking t rows from one object takes t rows from what the list can give. */
  lemma {:induction false} DistinctTakes(ranges: seq<RowRange>, counts: map<RowRange, nat>, o: RowRange, t: nat)
    requires (forall r :: r in ranges ==> r in counts) && o in ranges && t <= counts[o]
    ensures Distinct(ranges, counts[o := counts[o] - t]) == Distinct(ranges, counts) - t
  {
    assert ranges[0] in ranges && forall r :: r in ranges[1..] ==> r in ranges;
    if o in ranges[1..] {
      DistinctTakes(ranges[1..], counts, o, t);
    } else {
      DistinctSame(ranges[1..], counts, counts[o := counts[o] - t]);
    }
  }

  lemma {:induction false} AvailableBound(ranges: seq<RowRange>)
    requires AllValid(ranges)
    ensures Available(ranges) <= |Expand(ranges)|
    ensures NoneRepeated(ranges) <==> Available(ranges) == |Expand(ranges)|
  {
    if ranges != [] {
      var tail := ranges[1..];
      assert forall i :: 0 <= i < |tail| ==> tail[i] == ranges[i + 1];
      AvailableBound(tail);
      DistinctSame(tail, Counts(ranges), Counts(tail));
      RepeatedSplit(ranges);
    }
  }

  lemma RepeatedSplit(ranges: seq<RowRange>)
    requires AllValid(ranges) && ranges != [] && AllValid(ranges[1..])
    ensures NoneRepeated(ranges) <==>
      NoneRepeated(ranges[1..]) && (ranges[0] in ranges[1..] ==> ranges[0].NumRows() == 0)
  {
    var tail := ranges[1..];
    assert forall i :: 0 < i < |ranges| ==> ranges[i] == tail[i - 1];
    if NoneRepeated(ranges) {
      forall i, j | 0 <= i < j < |tail| && tail[i] == tail[j] ensures tail[i].NumRows() == 0 {
        assert ranges[i + 1] == ranges[j + 1];
      }
    }
  }

  lemma {:induction false} ExpandAppend(ranges: seq<RowRange>, r: RowRange)
    requires AllValid(ranges) && r.Valid()
    ensures AllValid(ranges + [r]) && Expand(ranges + [r]) == Expand(ranges) + r.Rows()
  {
    if ranges == [] {
      assert ranges + [r] == [r] && [r][1..] == [];
    } else {
      assert forall i :: 0 <= i < |ranges[1..]| ==> ranges[1..][i] == ranges[i + 1];
      assert (ranges + [r])[1..] == ranges[1..] + [r];
      ExpandAppend(ranges[1..], r);
      Associative(ranges[0].Rows(), Expand(ranges[1..]), r.Rows());
    }
  }

  // ---------------------------------------------------------------- partition_by_rows

  lemma SkipEmpty(queue: seq<RowRange>)
    requires AllValid(queue) && queue != [] && queue[0].NumRows() == 0
    ensures AllValid(queue[1..]) && Expand(queue[1..]) == Expand(queue)
        && (NoneRepeated(queue) ==> NoneRepeated(queue[1..]))
  {
    assert forall i :: 0 <= i < |queue[1..]| ==> queue[1..][i] == queue[i + 1];
    RepeatedSplit(queue);
  }

  /** Take from the first range of the queue. */
  method TakeFirst(queue: seq<RowRange>, rows: nat, ghost all: seq<RowRange>) returns (head: RowRange)
    requires AllValid(queue) && AllValid(all) && queue != [] && queue[0] in all && queue[0].NumRows() > 0
    modifies queue[0]
    ensures fresh(head) && head.Valid() && SameFile(head, queue[0]) && AllValid(queue) && AllValid(all)
    ensures head.NumRows() == if rows < old(queue[0].NumRows()) then rows else old(queue[0].NumRows())
    ensures Available(all) == old(Available(all)) - head.NumRows()
    ensures old(NoneRepeated(queue)) ==> NoneRepeated(queue) && head.Rows() + Expand(queue) == old(Expand(queue))
  {
    ghost var counts, tail := Counts(all), Expand(queue[1..]);
    RepeatedSplit(queue);
    head := queue[0].Take(rows);
    DistinctTakes(all, counts, queue[0], head.NumRows());
    assert Counts(all) == counts[queue[0] := counts[queue[0]] - head.NumRows()];
    if old(NoneRepeated(queue)) {
      assert forall i :: 0 <= i < |queue[1..]| ==> queue[1..][i] == queue[i + 1];
      assert Expand(queue[1..]) == tail;
      Associative(head.Rows(), queue[0].Rows(), tail);
    }
  }

  /** One pass of the inner loop. */
  method TakeNext(rest: seq<RowRange>, left: nat, taken: seq<RowRange>, ghost all: seq<RowRange>)
      returns (taken': seq<RowRange>, head: RowRange)
    requires AllValid(rest) && AllValid(all) && AllValid(taken) && rest != [] && rest[0] in all && rest[0].NumRows() > 0
        && rest[0] !in taken
    modifies rest[0]
    ensures AllValid(rest) && AllValid(all) && AllValid(taken') && taken' == taken + [head] && fresh(head)
    ensures head.Valid() && SameFile(head, rest[0])
    ensures head.NumRows() == if left < old(rest[0].NumRows()) then left else old(rest[0].NumRows())
    ensures Available(all) == old(Available(all)) - head.NumRows()
    ensures |Expand(taken')| == |old(Expand(taken))| + head.NumRows()
    ensures old(NoneRepeated(rest)) ==>
      NoneRepeated(rest) && Expand(taken') + Expand(rest) == old(Expand(taken) + Expand(rest))
  {
    ghost var before := Expand(taken);
    head := TakeFirst(rest, left, all);
    assert Expand(taken) == before;
    ExpandAppend(taken, head);
    Associative(before, head.Rows(), Expand(rest));
    taken' := taken + [head];
  }

  /** The inner loop: take `rows` rows from the front of the queue. None: the queue ran out, an IndexError. */
  method TakePart(queue: seq<RowRange>, rows: nat, ghost all: seq<RowRange>)
          returns (part: Option<seq<RowRange>>, rest: seq<RowRange>)
    requires AllValid(queue) && AllValid(all) && forall r :: r in queue ==> r in all
    modifies set r | r in queue
    ensures AllValid(rest) && AllValid(all) && forall r :: r in rest ==> r in queue
    ensures part.Some? ==>
      AllValid(part.value) && (forall r :: r in part.value ==> fresh(r)) && Available(all) == old(Available(all)) - rows
    ensures part.Some? ==> FromFiles(part.value, queue)
    ensures old(NoneRepeated(queue)) ==> NoneRepeated(rest) && (part.Some? <==> rows <= |old(Expand(queue))|)
    ensures old(NoneRepeated(queue)) && part.Some? ==>
              Expand(part.value) == old(Expand(queue))[..rows] && Expand(rest) == old(Expand(queue))[rows..]
  {
    var taken: seq<RowRange> := [];
    var left := rows;
    rest := queue;
    while left > 0
      invariant AllValid(rest) && AllValid(all) && (forall r :: r in rest ==> r in queue)
      invariant AllValid(taken) && FromFiles(taken, queue) && forall r :: r in taken ==> fresh(r)
      invariant 0 <= left <= rows && Available(all) == old(Available(all)) - (rows - left)
      invariant old(NoneRepeated(queue)) ==>
                  NoneRepeated(rest) && Expand(taken) + Expand(rest) == old(Expand(queue))
                      && |Expand(taken)| == rows - left
      decreases left, |rest|
    {
      if rest == [] { return None, rest; }
      if rest[0].NumRows() == 0 {
        SkipEmpty(rest);
        rest := rest[1..];
        continue;
      }
      assert rest[0] in queue && rest[0] !in taken;
      var head: RowRange;
      taken, head := TakeNext(rest, left, taken, all);
      left := left - head.NumRows();
    }
    part := Some(taken);
  }

  /** The sum of the row counts. */
  method CountRows(ranges: seq<RowRange>) returns (n: nat)
    requires AllValid(ranges)
    ensures n == |Expand(ranges)|
  {
    n := 0;
    var i := |ranges|;
    assert ranges[i..] == [];
    while i > 0
      invariant 0 <= i <= |ranges| && AllValid(ranges[i..]) && n == |Expand(ranges[i..])|
    {
      i := i - 1;
      assert ranges[i..][1..] == ranges[i + 1..];
      n := n + ranges[i].NumRows();
    }
    assert ranges[i..] == ranges;
  }

  /** What the copies expand to is what the originals expand to. */
  lemma {:induction false} CopiesExpand(a: seq<RowRange>, b: seq<RowRange>)
    requires |a| == |b| && AllValid(a) && AllValid(b)
    requires forall i :: 0 <= i < |a| ==> a[i].path == b[i].path && a[i].begin == b[i].begin && a[i].end == b[i].end
    ensures Expand(a) == Expand(b)
  {
    if a != [] {
      assert forall i :: 0 <= i < |a[1..]| ==> a[1..][i] == a[i + 1] && b[1..][i] == b[i + 1];
      CopiesExpand(a[1..], b[1..]);
    }
  }

  /** The n-th part as rows. */
  ghost predicate PartIs(part: seq<RowRange>, rows: seq<Row>)
    reads part
  {
    AllValid(part) && Expand(part) == rows
  }

  /** `partition_by_rows`. None: an IndexError, or the final assertion fails. */
  method PartitionByRows(ranges: seq<RowRange>, parts: nat) returns (result: Option<seq<seq<RowRange>>>)
    requires AllValid(ranges)
    ensures result.Some? <==> if parts == 0 then Expand(ranges) == [] else NoneRepeated(ranges)
    ensures result.Some? ==> |result.value| == parts
    ensures result.Some? ==> forall n :: 0 <= n < parts ==> PartIs(result.value[n], GetNth(Expand(ranges), n, parts))
    ensures result.Some? ==> forall n :: 0 <= n < parts ==> FromFiles(result.value[n], ranges)
  {
    var copies := DeepCopy(ranges);
    CopiesExpand(ranges, copies);
    assert NoneRepeated(copies) <==> NoneRepeated(ranges);
    result := PartitionCopies(copies, parts);
    if result.Some? {
      forall n | 0 <= n < parts ensures FromFiles(result.value[n], ranges) {
        assert FromFiles(copies, ranges);
        FromFilesTwice(result.value[n], copies, ranges);
      }
    }
  }

  /** The loops of `partition_by_rows`, which consume the list they work on. */
  method PartitionCopies(copies: seq<RowRange>, parts: nat) returns (result: Option<seq<seq<RowRange>>>)
    requires AllValid(copies)
    modifies set r | r in copies
    ensures result.Some? <==> if parts == 0 then old(Expand(copies)) == [] else old(NoneRepeated(copies))
    ensures result.Some? ==> |result.value| == parts
    ensures result.Some? && old(NoneRepeated(copies)) ==>
              forall k :: 0 <= k < parts ==> PartIs(result.value[k], GetNth(old(Expand(copies)), k, parts))
    ensures result.Some? ==> forall k :: 0 <= k < parts ==> FromFiles(result.value[k], copies)
  {
    ghost var rows, distinct := Expand(copies), NoneRepeated(copies);
    AvailableBound(copies);
    var left := CountRows(copies);
    var queue, n := copies, 0;
    var done: seq<seq<RowRange>> := [];
    if parts > 0 { StartZero(left, parts); }
    while n < parts
      invariant n <= parts && n == |done| && Waiting(queue, copies, left, n, parts, rows, distinct)
      invariant forall k :: 0 <= k < n ==> FromFiles(done[k], copies)
      invariant Apart(done, copies) && (distinct ==> forall k :: 0 <= k < n ==> PartIs(done[k], GetNth(rows, k, parts)))
    {
      var part;
      ghost var given := queue;
      label Given:
      left, part, queue := NextPart(queue, left, n, parts, copies, rows, distinct);
      if part.None? { return None; }
      FromFilesTwice(part.value, given, copies);
      forall k | 0 <= k < n && distinct ensures PartIs(done[k], GetNth(rows, k, parts)) {
        assert old@Given(PartIs(done[k], GetNth(rows, k, parts)));
      }
      AppendPart(done, part.value, copies, rows, parts, distinct);
      done := done + [part.value];
      n := n + 1;
    }
    if left != 0 { return None; }
    result := Some(done);
  }

  lemma AppendPart(done: seq<seq<RowRange>>, part: seq<RowRange>, all: seq<RowRange>, rows: seq<Row>, parts: nat,
          distinct: bool)
    requires |done| < parts && Apart(done, all) && forall r :: r in part ==> r !in all
    requires distinct ==> PartIs(part, GetNth(rows, |done|, parts)) && forall k ::
      0 <= k < |done| ==> PartIs(done[k], GetNth(rows, k, parts))
    ensures Apart(done + [part], all)
    ensures distinct ==> forall k :: 0 <= k < |done| + 1 ==> PartIs((done + [part])[k], GetNth(rows, k, parts))
  {
  }

  /** The parts share no object with the list that is being consumed. */
  ghost predicate Apart(done: seq<seq<RowRange>>, all: seq<RowRange>) {
    forall n, r :: 0 <= n < |done| && r in done[n] ==> r !in all
  }

  /** Before part n: `left` rows are to be handed out, and without repetition they are the rest of the rows. */
  ghost predicate Waiting(queue: seq<RowRange>, all: seq<RowRange>, left: nat, n: nat, parts: nat, rows: seq<Row>,
          distinct: bool)
    reads queue, all
  {
    && AllValid(queue) && AllValid(all) && (forall r :: r in queue ==> r in all)
    && left + Cut(|rows|, n, parts) == |rows|
    && (if distinct then NoneRepeated(queue) && Expand(queue) == Drop(rows, Cut(|rows|, n, parts))
        else Available(all) < left)
  }

  function Drop<T>(s: seq<T>, n: nat): seq<T> { if n <= |s| then s[n..] else [] }

  /** The sizes of the parts are those of `get_nth_partition`. */
  lemma CutStep(rows: seq<Row>, n: nat, parts: nat, left: nat)
    requires n < parts && left + Cut(|rows|, n, parts) == |rows|
    ensures var size := (left + (parts - n) - 1) / (parts - n);
      && size <= left && left - size + Cut(|rows|, n + 1, parts) == |rows|
      && GetNth(rows, n, parts) == Drop(rows, Cut(|rows|, n, parts))[..size]
      && Drop(rows, Cut(|rows|, n, parts))[size..] == Drop(rows, Cut(|rows|, n + 1, parts))
  {
    CeilOfRest(|rows|, n, parts);
    StartNext(|rows|, n, parts);
    StartWithin(|rows|, n, parts);
    SliceFacts(rows, StartOf(|rows|, n, parts), SizeOf(|rows|, n, parts));
  }

  /** The outer loop: an even share of what is left. */
  method NextPart(queue: seq<RowRange>, left: nat, n: nat, parts: nat, ghost all: seq<RowRange>, ghost rows: seq<Row>,
          ghost distinct: bool)
      returns (left': nat, part: Option<seq<RowRange>>, rest: seq<RowRange>)
    requires n < parts && Waiting(queue, all, left, n, parts, rows, distinct)
    modifies set r | r in queue
    ensures part.Some? ==> Waiting(rest, all, left', n + 1, parts, rows, distinct) && forall r ::
      r in part.value ==> fresh(r)
    ensures part.Some? ==> FromFiles(part.value, queue)
    ensures distinct ==> part.Some? && PartIs(part.value, GetNth(rows, n, parts))
    ensures forall r :: r in rest ==> r in queue
  {
    var size := (left + (parts - n) - 1) / (parts - n);
    CutStep(rows, n, parts, left);
    left' := left - size;
    part, rest := TakePart(queue, size, all);
  }

  /** Rows before partition n, or all of them. */
  function Cut(total: nat, n: nat, parts: nat): nat {
    if n < parts then StartOf(total, n, parts) else if parts == 0 then 0 else total
  }
}
