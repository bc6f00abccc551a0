/** Cutting a parquet dataset by rows: the parts of the ranges, each sorted by path. */
module DatasetParts {
  import opened WorkItems
  import opened Splitting
  import opened RowRanges

  // ---------------------------------------------------------------- order of paths

  /** Python's order of strings. */
  predicate StringLess(a: string, b: string) {
    b != [] && (a == [] || a[0] < b[0] || (a[0] == b[0] && StringLess(a[1..], b[1..])))
  }

  lemma {:induction false} NotLessTransitive(a: string, b: string, c: string)
    requires !StringLess(b, a) && !StringLess(c, b)
    ensures !StringLess(c, a)
  {
    if a != [] && b != [] && c != [] && a[0] == b[0] == c[0] { NotLessTransitive(a[1..], b[1..], c[1..]); }
  }

  lemma {:induction false} LessMeansNotLess(a: string, b: string)
    requires StringLess(a, b)
    ensures !StringLess(b, a)
  {
    if a != [] && a[0] == b[0] { LessMeansNotLess(a[1..], b[1..]); }
  }

  predicate PathLess(a: RowRange, b: RowRange) { StringLess(a.path.name, b.path.name) }

  predicate SortedByPath(ranges: seq<RowRange>) {
    forall i, j :: 0 <= i < j < |ranges| ==> !PathLess(ranges[j], ranges[i])
  }

  function InsertByPath(r: RowRange, ranges: seq<RowRange>): seq<RowRange> {
    if ranges == [] || !PathLess(ranges[0], r) then [r] + ranges else [ranges[0]] + InsertByPath(r, ranges[1..])
  }

  /** `sorted(row_ranges, key=path)`; ranges of one file keep their order. */
  function SortByPath(ranges: seq<RowRange>): seq<RowRange> {
    if ranges == [] then [] else InsertByPath(ranges[0], SortByPath(ranges[1..]))
  }

  /** No range of the list sorts before r. */
  predicate NoneBefore(ranges: seq<RowRange>, r: RowRange) { forall i :: 0 <= i < |ranges| ==> !PathLess(ranges[i], r) }

  lemma {:induction false} InsertNoneBefore(first: RowRange, r: RowRange, ranges: seq<RowRange>)
    requires NoneBefore(ranges, first) && !PathLess(r, first)
    ensures NoneBefore(InsertByPath(r, ranges), first)
  {
    if ranges != [] && PathLess(ranges[0], r) {
      assert NoneBefore(ranges[1..], first);
      InsertNoneBefore(first, r, ranges[1..]);
    }
  }

  lemma SortedRest(ranges: seq<RowRange>)
    requires SortedByPath(ranges) && ranges != []
    ensures SortedByPath(ranges[1..]) && NoneBefore(ranges[1..], ranges[0])
  {
    var rest := ranges[1..];
    assert forall i :: 0 <= i < |rest| ==> rest[i] == ranges[i + 1];
    forall i, j | 0 <= i < j < |rest| ensures !PathLess(rest[j], rest[i]) {
      assert !PathLess(ranges[j + 1], ranges[i + 1]);
    }
  }

  lemma SortedCons(r: RowRange, ranges: seq<RowRange>)
    requires SortedByPath(ranges) && NoneBefore(ranges, r)
    ensures SortedByPath([r] + ranges)
  {
    var q := [r] + ranges;
    forall i, j | 0 <= i < j < |q| ensures !PathLess(q[j], q[i]) {
      assert q[j] == ranges[j - 1];
      if i > 0 { assert q[i] == ranges[i - 1]; }
    }
  }

  lemma {:induction false} InsertSorts(r: RowRange, ranges: seq<RowRange>)
    requires SortedByPath(ranges)
    ensures SortedByPath(InsertByPath(r, ranges))
  {
    if ranges == [] {
      SortedCons(r, ranges);
    } else {
      var first, rest := ranges[0], ranges[1..];
      SortedRest(ranges);
      if PathLess(first, r) {
        LessMeansNotLess(first.path.name, r.path.name);
        InsertSorts(r, rest);
        InsertNoneBefore(first, r, rest);
        SortedCons(first, InsertByPath(r, rest));
      } else {
        forall i | 0 <= i < |ranges| ensures !PathLess(ranges[i], r) {
          if i > 0 { NotLessTransitive(r.path.name, first.path.name, rest[i - 1].path.name); }
        }
        SortedCons(r, ranges);
      }
    }
  }

  lemma InsertExpands(r: RowRange, ranges: seq<RowRange>)
    requires r.Valid() && AllValid(ranges)
    ensures AllValid(InsertByPath(r, ranges))
    ensures multiset(Expand(InsertByPath(r, ranges))) == multiset(r.Rows()) + multiset(Expand(ranges))
  {
    if ranges == [] || !PathLess(ranges[0], r) {
      ExpandCons(r, ranges);
    } else {
      assert forall i :: 0 <= i < |ranges[1..]| ==> ranges[1..][i] == ranges[i + 1];
      InsertExpands(r, ranges[1..]);
      ExpandCons(ranges[0], InsertByPath(r, ranges[1..]));
      ExpandCons(ranges[0], ranges[1..]);
      assert [ranges[0]] + ranges[1..] == ranges;
    }
  }

  lemma ExpandCons(r: RowRange, ranges: seq<RowRange>)
    requires r.Valid() && AllValid(ranges)
    ensures AllValid([r] + ranges) && Expand([r] + ranges) == r.Rows() + Expand(ranges)
  {
    assert ([r] + ranges)[1..] == ranges;
  }

  /** Sorting by path keeps the rows. */
  lemma {:induction false} SortKeepsRows(ranges: seq<RowRange>)
    requires AllValid(ranges)
    ensures SortedByPath(SortByPath(ranges)) && AllValid(SortByPath(ranges))
    ensures multiset(Expand(SortByPath(ranges))) == multiset(Expand(ranges))
  {
    if ranges != [] {
      assert forall i :: 0 <= i < |ranges[1..]| ==> ranges[1..][i] == ranges[i + 1];
      SortKeepsRows(ranges[1..]);
      InsertSorts(ranges[0], SortByPath(ranges[1..]));
      InsertExpands(ranges[0], SortByPath(ranges[1..]));
      ExpandCons(ranges[0], ranges[1..]);
      assert [ranges[0]] + ranges[1..] == ranges;
    }
  }

  // ---------------------------------------------------------------- the parts

  /** A dataset with these rows, its ranges sorted by path. */
  ghost predicate Holds(part: seq<RowRange>, rows: seq<Row>)
    reads part
  {
    AllValid(part) && SortedByPath(part) && multiset(Expand(part)) == multiset(rows)
  }

  lemma HoldsAsMany(part: seq<RowRange>, rows: seq<Row>)
    requires Holds(part, rows)
    ensures |Expand(part)| == |rows|
  {
    assert |multiset(Expand(part))| == |Expand(part)| && |multiset(rows)| == |rows|;
  }

  /** `ParquetDataSet.partition_by_rows`: each part has the rows of one even partition. */
  method PartitionDataset(ranges: seq<RowRange>, parts: nat) returns (result: Option<seq<seq<RowRange>>>)
    requires AllValid(ranges)
    ensures result.Some? <==> parts > 0 && NoneRepeated(ranges)
    ensures result.Some? ==> |result.value| == parts
    ensures result.Some? ==> forall n :: 0 <= n < parts ==> Holds(result.value[n], GetNth(Expand(ranges), n, parts))
    ensures result.Some? ==> forall n :: 0 <= n < parts ==> FromFiles(result.value[n], ranges)
  {
    if parts == 0 { return None; }
    result := PartitionByRows(ranges, parts);
    if result.Some? {
      SortAllHolds(result.value, Expand(ranges));
      SortAllFrom(result.value, ranges);
      result := Some(SortAll(result.value));
    }
  }

  function SortAll(cut: seq<seq<RowRange>>): seq<seq<RowRange>> {
    seq(|cut|, n requires 0 <= n < |cut| => SortByPath(cut[n]))
  }

  lemma SortAllFrom(cut: seq<seq<RowRange>>, ranges: seq<RowRange>)
    requires forall n :: 0 <= n < |cut| ==> FromFiles(cut[n], ranges)
    ensures forall n :: 0 <= n < |cut| ==> FromFiles(SortAll(cut)[n], ranges)
  {
    forall n | 0 <= n < |cut| ensures FromFiles(SortByPath(cut[n]), ranges) {
      SortMembers(cut[n]);
      SameMembers(cut[n], SortByPath(cut[n]), ranges);
    }
  }

  lemma SameMembers(a: seq<RowRange>, b: seq<RowRange>, ranges: seq<RowRange>)
    requires FromFiles(a, ranges) && multiset(b) == multiset(a)
    ensures FromFiles(b, ranges)
  {
    forall r | r in b ensures exists o :: o in ranges && SameFile(r, o) { assert r in multiset(b) && r in a; }
  }

  lemma {:induction false} SortMembers(ranges: seq<RowRange>)
    ensures multiset(SortByPath(ranges)) == multiset(ranges)
  {
    if ranges != [] {
      assert ranges == [ranges[0]] + ranges[1..];
      SortMembers(ranges[1..]);
      InsertMembers(ranges[0], SortByPath(ranges[1..]));
    }
  }

  lemma {:induction false} InsertMembers(x: RowRange, ranges: seq<RowRange>)
    ensures multiset(InsertByPath(x, ranges)) == multiset{x} + multiset(ranges)
  {
    if ranges != [] && PathLess(ranges[0], x) {
      InsertMembers(x, ranges[1..]);
      assert ranges == [ranges[0]] + ranges[1..];
    }
  }

  lemma SortAllHolds(cut: seq<seq<RowRange>>, rows: seq<Row>)
    requires forall n :: 0 <= n < |cut| ==> PartIs(cut[n], GetNth(rows, n, |cut|))
    ensures forall n :: 0 <= n < |cut| ==> Holds(SortAll(cut)[n], GetNth(rows, n, |cut|))
  {
    forall n | 0 <= n < |cut| ensures Holds(SortAll(cut)[n], GetNth(rows, n, |cut|)) {
      SortedHolds(cut[n], GetNth(rows, n, |cut|));
    }
  }

  lemma SortedHolds(part: seq<RowRange>, rows: seq<Row>)
    requires PartIs(part, rows)
    ensures Holds(SortByPath(part), rows)
  {
    SortKeepsRows(part);
  }
}
