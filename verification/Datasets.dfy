/** Parquet datasets as sets of rows: the query that reads one, and merging. */
module Datasets {
  import opened Sequences
  import opened RowRanges

  /** Parts of the query: several whole files at once, or one file restricted by row number. */
  datatype Fragment = Whole(paths: seq<FilePath>) | Between(path: FilePath, low: int, high: int)

  function Max(a: int, b: int): int { if a < b then b else a }

  function Min(a: int, b: int): int { if a < b then a else b }

  /** The rows of whole files; `size` gives the number of rows of a file. */
  function WholeRows(paths: seq<FilePath>, size: FilePath -> nat): seq<Row> {
    if paths == [] then [] else RowsFrom(paths[0], 0, size(paths[0])) + WholeRows(paths[1..], size)
  }

  /** What a part of the query selects. */
  function FragmentRows(f: Fragment, size: FilePath -> nat): seq<Row> {
    match f
    case Whole(paths) => WholeRows(paths, size)
    case Between(path, low, high) =>
      var l, h := Max(low, 0), Min(high + 1, size(path));
      if l <= h then RowsFrom(path, l, h) else []
  }

  /** The rows of a `union all`. */
  function QueryRows(q: seq<Fragment>, size: FilePath -> nat): seq<Row> {
    if q == [] then [] else FragmentRows(q[0], size) + QueryRows(q[1..], size)
  }

  lemma {:induction false} WholeAppend(paths: seq<FilePath>, path: FilePath, size: FilePath -> nat)
    ensures WholeRows(paths + [path], size) == WholeRows(paths, size) + RowsFrom(path, 0, size(path))
  {
    if paths == [] {
      assert (paths + [path])[1..] == [];
    } else {
      WholeAppend(paths[1..], path, size);
      assert (paths + [path])[1..] == paths[1..] + [path];
      Associative(RowsFrom(paths[0], 0, size(paths[0])), WholeRows(paths[1..], size), RowsFrom(path, 0, size(path)));
    }
  }

  lemma {:induction false} QueryAppend(q: seq<Fragment>, f: Fragment, size: FilePath -> nat)
    ensures QueryRows(q + [f], size) == QueryRows(q, size) + FragmentRows(f, size)
  {
    if q == [] {
      assert (q + [f])[1..] == [];
    } else {
      QueryAppend(q[1..], f, size);
      assert (q + [f])[1..] == q[1..] + [f];
      Associative(FragmentRows(q[0], size), QueryRows(q[1..], size), FragmentRows(f, size));
    }
  }

  lemma {:induction false} WholeSplit(a: seq<FilePath>, b: seq<FilePath>, size: FilePath -> nat)
    ensures WholeRows(a + b, size) == WholeRows(a, size) + WholeRows(b, size)
    decreases |b|
  {
    if b == [] {
      assert a + b == a;
    } else {
      WholeSplit(a + [b[0]], b[1..], size);
      WholeAppend(a, b[0], size);
      assert a + b == (a + [b[0]]) + b[1..];
      Associative(WholeRows(a, size), RowsFrom(b[0], 0, size(b[0])), WholeRows(b[1..], size));
    }
  }

  /** Moving the largest file to the head keeps the rows. */
  lemma SwapKeeps(paths: seq<FilePath>, k: nat, size: FilePath -> nat)
    requires k < |paths|
    ensures multiset(WholeRows(paths[0 := paths[k]][k := paths[0]], size)) == multiset(WholeRows(paths, size))
  {
    if k > 0 {
      var middle, tail := paths[1..k], paths[k + 1..];
      assert paths == [paths[0]] + (middle + ([paths[k]] + tail));
      assert paths[0 := paths[k]][k := paths[0]] == [paths[k]] + (middle + ([paths[0]] + tail));
      FourParts(paths[0], middle, paths[k], tail, size);
      FourParts(paths[k], middle, paths[0], tail, size);
    } else {
      assert paths[0 := paths[0]][0 := paths[0]] == paths;
    }
  }

  lemma FourParts(a: FilePath, middle: seq<FilePath>, b: FilePath, tail: seq<FilePath>, size: FilePath -> nat)
    ensures multiset(WholeRows([a] + (middle + ([b] + tail)), size))
            == multiset(RowsFrom(a, 0, size(a))) + multiset(WholeRows(middle, size)) + multiset(RowsFrom(b, 0, size(b)))
                + multiset(WholeRows(tail, size))
  {
    WholeSplit([a], middle + ([b] + tail), size);
    WholeSplit(middle, [b] + tail, size);
    WholeSplit([b], tail, size);
    WholeAppend([], a, size);
    WholeAppend([], b, size);
    assert [] + [a] == [a] && [] + [b] == [b];
  }

  /** The range lies in its file. */
  predicate InFile(r: RowRange, size: FilePath -> nat)
    reads r
  {
    0 <= r.begin <= r.end <= r.fileNumRows == size(r.path)
  }

  ghost predicate InFiles(ranges: seq<RowRange>, size: FilePath -> nat)
    reads ranges
  {
    forall i {:trigger InFile(ranges[i], size)} :: 0 <= i < |ranges| ==> InFile(ranges[i], size)
  }

  /** Rows with their multiplicities. */
  ghost function Bag(rows: seq<Row>): multiset<Row> {
    if rows == [] then multiset{} else multiset{rows[0]} + Bag(rows[1..])
  }

  lemma {:induction false} BagIs(rows: seq<Row>)
    ensures Bag(rows) == multiset(rows)
  {
    if rows != [] {
      BagIs(rows[1..]);
      assert rows == [rows[0]] + rows[1..];
    }
  }

  lemma BagJoin(a: seq<Row>, b: seq<Row>)
    ensures Bag(a + b) == Bag(a) + Bag(b)
  {
    BagIs(a);
    BagIs(b);
    BagIs(a + b);
  }

  /** The parts of the query select these rows, each as often as it was seen. */
  ghost predicate Selects(full: seq<FilePath>, partial: seq<Fragment>, seen: multiset<Row>, size: FilePath -> nat) {
    Bag(WholeRows(full, size)) + Bag(QueryRows(partial, size)) == seen
  }

  lemma SelectAll(full: seq<FilePath>, largest: nat, partial: seq<Fragment>, q: seq<Fragment>, seen: multiset<Row>,
          size: FilePath -> nat)
    requires Selects(full, partial, seen, size) && largest < |full|
    requires q == [Whole(full[0 := full[largest]][largest := full[0]])] + partial
    ensures multiset(QueryRows(q, size)) == seen
  {
    SwapKeeps(full, largest, size);
    assert q[1..] == partial;
    BagIs(WholeRows(full, size));
    BagIs(QueryRows(partial, size));
  }

  /** What a range says: some rows of a file. */
  datatype Span = Span(path: FilePath, begin: int, end: int, fileNumRows: nat) {
    predicate Whole() { end - begin == fileNumRows }
  }

  function Spans(ranges: seq<RowRange>): seq<Span>
    reads ranges
  {
    seq(|ranges|, i requires 0 <= i < |ranges| reads ranges =>
      Span(ranges[i].path, ranges[i].begin, ranges[i].end, ranges[i].fileNumRows))
  }

  /** The files that are read whole, in order. */
  function WholePaths(spans: seq<Span>): seq<FilePath> {
    if spans == [] then [] else (if spans[0].Whole() then [spans[0].path] else []) + WholePaths(spans[1..])
  }

  /** The parts of files, in order. */
  function Pieces(spans: seq<Span>): seq<Fragment> {
    if spans == [] then [] else
      var s := spans[0];
      (if s.Whole() then [] else [Between(s.path, s.begin, s.end - 1)]) + Pieces(spans[1..])
  }

  predicate Fits(s: Span, size: FilePath -> nat) { 0 <= s.begin <= s.end <= s.fileNumRows == size(s.path) }

  ghost function SpanRows(spans: seq<Span>): multiset<Row> {
    if spans == [] then multiset{} else
      var s := spans[0];
      (if s.begin <= s.end then Bag(RowsFrom(s.path, s.begin, s.end)) else multiset{}) + SpanRows(spans[1..])
  }

  /** Sorting all spans into whole files and parts keeps their rows. */
  lemma {:induction false} SpansSelect(spans: seq<Span>, size: FilePath -> nat)
    requires forall i :: 0 <= i < |spans| ==> Fits(spans[i], size)
    ensures Selects(WholePaths(spans), Pieces(spans), SpanRows(spans), size)
  {
    if spans != [] {
      var s, rest := spans[0], spans[1..];
      assert Fits(s, size) && forall i :: 0 <= i < |rest| ==> rest[i] == spans[i + 1];
      SpansSelect(rest, size);
      SpansSelectNext(spans, size);
    }
  }

  lemma SpansSelectNext(spans: seq<Span>, size: FilePath -> nat)
    requires spans != [] && Fits(spans[0], size)
    requires Selects(WholePaths(spans[1..]), Pieces(spans[1..]), SpanRows(spans[1..]), size)
    ensures Selects(WholePaths(spans), Pieces(spans), SpanRows(spans), size)
  {
    var rest := spans[1..];
    FirstSpan(spans);
    FirstSelects(spans[0], WholePaths(rest), Pieces(rest), SpanRows(rest), size);
  }

  lemma FirstSpan(spans: seq<Span>)
    requires spans != [] && spans[0].begin <= spans[0].end
    ensures var s, rest := spans[0], spans[1..];
      && WholePaths(spans) == (if s.Whole() then [s.path] + WholePaths(rest) else WholePaths(rest))
      && Pieces(spans) == (if s.Whole() then Pieces(rest) else [Between(s.path, s.begin, s.end - 1)] + Pieces(rest))
      && SpanRows(spans) == Bag(RowsFrom(s.path, s.begin, s.end)) + SpanRows(rest)
  {
  }

  lemma FirstSelects(s: Span, full: seq<FilePath>, partial: seq<Fragment>, seen: multiset<Row>, size: FilePath -> nat)
    requires Fits(s, size) && Selects(full, partial, seen, size)
    ensures var rows := Bag(RowsFrom(s.path, s.begin, s.end));
      if s.Whole() then Selects([s.path] + full, partial, rows + seen, size)
      else Selects(full, [Between(s.path, s.begin, s.end - 1)] + partial, rows + seen, size)
  {
    var rows, whole, pieces := Bag(RowsFrom(s.path, s.begin, s.end)), Bag(WholeRows(full, size)),
        Bag(QueryRows(partial, size));
    if s.Whole() {
      WholeFirst(s.path, full, size);
      JoinWhole(Bag(WholeRows([s.path] + full, size)), rows, whole, pieces, seen);
    } else {
      var more := [Between(s.path, s.begin, s.end - 1)] + partial;
      PieceFirst(s, partial, size);
      JoinPiece(Bag(QueryRows(more, size)), rows, whole, pieces, seen);
    }
  }

  lemma JoinWhole(more: multiset<Row>, rows: multiset<Row>, whole: multiset<Row>, pieces: multiset<Row>,
          seen: multiset<Row>)
    requires more == rows + whole && whole + pieces == seen
    ensures more + pieces == rows + seen
  {
  }

  lemma JoinPiece(more: multiset<Row>, rows: multiset<Row>, whole: multiset<Row>, pieces: multiset<Row>,
          seen: multiset<Row>)
    requires more == rows + pieces && whole + pieces == seen
    ensures whole + more == rows + seen
  {
  }

  lemma WholeFirst(path: FilePath, paths: seq<FilePath>, size: FilePath -> nat)
    ensures Bag(WholeRows([path] + paths, size)) == Bag(RowsFrom(path, 0, size(path))) + Bag(WholeRows(paths, size))
  {
    assert ([path] + paths)[1..] == paths;
    BagJoin(RowsFrom(path, 0, size(path)), WholeRows(paths, size));
  }

  lemma PieceFirst(s: Span, q: seq<Fragment>, size: FilePath -> nat)
    requires Fits(s, size)
    ensures Bag(QueryRows([Between(s.path, s.begin, s.end - 1)] + q, size))
            == Bag(RowsFrom(s.path, s.begin, s.end)) + Bag(QueryRows(q, size))
  {
    var b := Between(s.path, s.begin, s.end - 1);
    assert ([b] + q)[1..] == q && FragmentRows(b, size) == RowsFrom(s.path, s.begin, s.end);
    BagJoin(FragmentRows(b, size), QueryRows(q, size));
  }

  lemma {:induction false} SpansExpand(ranges: seq<RowRange>)
    requires AllValid(ranges)
    ensures SpanRows(Spans(ranges)) == Bag(Expand(ranges))
  {
    if ranges != [] {
      assert forall i :: 0 <= i < |ranges[1..]| ==> ranges[1..][i] == ranges[i + 1];
      SpansExpand(ranges[1..]);
      assert Spans(ranges)[1..] == Spans(ranges[1..]);
      BagJoin(ranges[0].Rows(), Expand(ranges[1..]));
    }
  }

  /** Whole files in one part, the largest of them first; then the parts of files, in order. */
  ghost predicate Arranged(q: seq<Fragment>, whole: seq<FilePath>, pieces: seq<Fragment>, size: FilePath -> nat) {
    if whole == [] then q == pieces else
      && q != [] && q[1..] == pieces && q[0].Whole? && multiset(q[0].paths) == multiset(whole)
      && forall k :: 0 <= k < |q[0].paths| ==> size(q[0].paths[k]) <= size(q[0].paths[0])
  }

  /** The files so far, and the largest of them. */
  ghost predicate KnowsLargest(full: seq<FilePath>, largest: nat, most: nat, size: FilePath -> nat) {
    full != [] ==>
      largest < |full| && most == size(full[largest]) && forall k :: 0 <= k < |full| ==> size(full[k]) <= most
  }

  lemma ArrangedIs(full: seq<FilePath>, largest: nat, most: nat, pieces: seq<Fragment>, size: FilePath -> nat)
    requires full != [] && KnowsLargest(full, largest, most, size)
    ensures Arranged([Whole(full[0 := full[largest]][largest := full[0]])] + pieces, full, pieces, size)
  {
    var swapped := full[0 := full[largest]][largest := full[0]];
    assert multiset(swapped) == multiset(full);
    forall k | 0 <= k < |swapped| ensures size(swapped[k]) <= size(swapped[0]) {
      assert swapped[k] in multiset(full);
    }
  }

  /** `sql_query_fragment`: whole files are read together, the largest of them first; partial files one by one. The
      query selects the rows of the ranges, each as often as it occurs there. */
  method SqlQueryFragment(ranges: seq<RowRange>, ghost size: FilePath -> nat) returns (q: seq<Fragment>)
    requires InFiles(ranges, size) && AllValid(ranges)
    ensures multiset(QueryRows(q, size)) == multiset(Expand(ranges))
    ensures Arranged(q, WholePaths(Spans(ranges)), Pieces(Spans(ranges)), size)
  {
    ghost var spans := Spans(ranges);
    var full, partial, largest, most := Collect(ranges, spans, size);
    AllSelected(ranges, spans, size);
    BagIs(Expand(ranges));
    if full == [] {
      BagIs(QueryRows(partial, size));
      return partial;
    }
    ArrangedIs(full, largest, most, partial, size);
    q := [Whole(full[0 := full[largest]][largest := full[0]])] + partial;
    SelectAll(full, largest, partial, q, Bag(Expand(ranges)), size);
  }

  lemma AllSelected(ranges: seq<RowRange>, spans: seq<Span>, size: FilePath -> nat)
    requires InFiles(ranges, size) && AllValid(ranges) && spans == Spans(ranges)
    ensures Selects(WholePaths(spans), Pieces(spans), Bag(Expand(ranges)), size)
  {
    forall i | 0 <= i < |spans| ensures Fits(spans[i], size) { assert InFile(ranges[i], size); }
    SpansSelect(spans, size);
    SpansExpand(ranges);
  }

  /** The spans before the i-th have been sorted into whole files and parts. */
  ghost predicate Collected(full: seq<FilePath>, partial: seq<Fragment>, spans: seq<Span>, i: nat)
    requires i <= |spans|
  {
    full + WholePaths(spans[i..]) == WholePaths(spans) && partial + Pieces(spans[i..]) == Pieces(spans)
  }

  lemma CollectNext(full: seq<FilePath>, partial: seq<Fragment>, spans: seq<Span>, i: nat)
    requires i < |spans| && Collected(full, partial, spans, i)
    ensures var s := spans[i];
      if s.Whole() then Collected(full + [s.path], partial, spans, i + 1)
      else Collected(full, partial + [Between(s.path, s.begin, s.end - 1)], spans, i + 1)
  {
    var s, rest := spans[i], spans[i..];
    assert rest[0] == s && rest[1..] == spans[i + 1..];
    if s.Whole() {
      assert full + [s.path] + WholePaths(rest[1..]) == full + ([s.path] + WholePaths(rest[1..]));
    } else {
      var b := Between(s.path, s.begin, s.end - 1);
      assert partial + [b] + Pieces(rest[1..]) == partial + ([b] + Pieces(rest[1..]));
    }
  }

  /** The loop over the ranges. */
  method Collect(ranges: seq<RowRange>, ghost spans: seq<Span>, ghost size: FilePath -> nat)
      returns (full: seq<FilePath>, partial: seq<Fragment>, largest: nat, most: nat)
    requires spans == Spans(ranges) && AllValid(ranges) && InFiles(ranges, size)
    ensures full == WholePaths(spans) && partial == Pieces(spans) && KnowsLargest(full, largest, most, size)
  {
    full, partial, largest, most := [], [], 0, 0;
    var i := 0;
    while i < |ranges|
      invariant i <= |ranges| && KnowsLargest(full, largest, most, size)
      invariant Collected(full, partial, spans, i)
    {
      var r := ranges[i];
      assert InFile(r, size);
      CollectNext(full, partial, spans, i);
      if r.NumRows() != r.fileNumRows {
        partial := partial + [Between(r.path, r.begin, r.end - 1)];
      } else {
        if full == [] || r.fileNumRows > most { largest, most := |full|, r.fileNumRows; }
        full := full + [r.path];
      }
      i := i + 1;
    }
    assert spans[i..] == [];
  }

  // ---------------------------------------------------------------- merging

  /** `merge` of datasets whose row ranges are resolved: their lists of ranges, one after the other. */
  function MergeRanges(datasets: seq<seq<RowRange>>): seq<RowRange> { Concat(datasets) }

  lemma {:induction false} ExpandSplit(a: seq<RowRange>, b: seq<RowRange>)
    requires AllValid(a) && AllValid(b)
    ensures AllValid(a + b) && Expand(a + b) == Expand(a) + Expand(b)
  {
    if a == [] {
      assert a + b == b;
    } else {
      assert forall i :: 0 <= i < |a[1..]| ==> a[1..][i] == a[i + 1];
      assert (a + b)[1..] == a[1..] + b;
      ExpandSplit(a[1..], b);
      Associative(a[0].Rows(), Expand(a[1..]), Expand(b));
    }
  }

  /** A dataset merged with itself shares its range objects, so cutting the result by rows fails, exactly when the
      dataset has rows: `RowRanges.PartitionByRows` gives a result if and only if no range with rows is repeated. */
  lemma SelfMergeIff(ranges: seq<RowRange>)
    requires AllValid(ranges)
    ensures MergeRanges([ranges, ranges]) == ranges + ranges && AllValid(ranges + ranges)
    ensures NoneRepeated(ranges + ranges) <==> Expand(ranges) == []
  {
    assert [ranges, ranges][1..] == [ranges] && [ranges][1..] == [];
    assert Concat([ranges]) == ranges + Concat([]);
    ExpandSplit(ranges, ranges);
    var both := ranges + ranges;
    if NoneRepeated(both) {
      forall i | 0 <= i < |ranges| ensures ranges[i].NumRows() == 0 { assert both[i] == both[|ranges| + i]; }
      ExpandEmpty(ranges);
    } else {
      var i, j :| 0 <= i < j < |both| && both[i] == both[j] && both[i].NumRows() != 0;
      ExpandHas(ranges, if i < |ranges| then i else i - |ranges|);
    }
  }

  lemma {:induction false} ExpandEmpty(ranges: seq<RowRange>)
    requires AllValid(ranges) && forall i :: 0 <= i < |ranges| ==> ranges[i].NumRows() == 0
    ensures Expand(ranges) == []
  {
    if ranges != [] {
      assert forall i :: 0 <= i < |ranges[1..]| ==> ranges[1..][i] == ranges[i + 1];
      ExpandEmpty(ranges[1..]);
    }
  }

  lemma {:induction false} ExpandHas(ranges: seq<RowRange>, i: nat)
    requires AllValid(ranges) && i < |ranges|
    ensures |Expand(ranges)| >= ranges[i].NumRows()
  {
    assert forall k :: 0 <= k < |ranges[1..]| ==> ranges[1..][k] == ranges[k + 1];
    if i > 0 { ExpandHas(ranges[1..], i - 1); }
  }
}
