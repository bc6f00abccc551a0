/** Splitting lists into partitions, without and with materialising them. */
module Splitting {
  import opened Sequences

  lemma SmallFits(items: nat, parts: nat)
    requires parts > 0
    ensures 0 <= items - items / parts * parts
  {
    assert items == parts * (items / parts) + items % parts;
  }

  lemma NonNegative(a: nat, b: nat)
    ensures a * b >= 0
  {
  }

  /** First item of partition n of `get_nth_partition`, and the number of its items. */
  function StartOf(items: nat, n: nat, parts: nat): nat
    requires n < parts
  {
    var large := (items + parts - 1) / parts;
    var small := items / parts;
    var numLarge := items - small * parts;
    SmallFits(items, parts);
    NonNegative(n, large);
    if n < numLarge then
      n * large
    else
      NonNegative(large, numLarge); NonNegative(n - numLarge, small);
      large * numLarge + (n - numLarge) * small
  }

  function SizeOf(items: nat, n: nat, parts: nat): nat
    requires n < parts
  {
    if n < items - items / parts * parts then (items + parts - 1) / parts else items / parts
  }

  /** A Python slice: bounds past the end are cut. */
  function Slice<T>(items: seq<T>, start: nat, size: nat): seq<T> {
    if start >= |items| then [] else if start + size >= |items| then items[start..] else items[start..start + size]
  }

  /** `get_nth_partition`. */
  function GetNth<T>(items: seq<T>, n: nat, parts: nat): seq<T>
    requires n < parts
  {
    Slice(items, StartOf(|items|, n, parts), SizeOf(|items|, n, parts))
  }

  // ---------------------------------------------------------------- arithmetic of the partition sizes

  lemma DivideBounds(items: nat, parts: nat)
    requires parts > 0
    ensures var q := items / parts; var r := items - q * parts;
      0 <= r < parts && (items + parts - 1) / parts == if r == 0 then q else q + 1
  {
    var q := items / parts;
    var r := items - q * parts;
    assert items == parts * q + r;
    if r == 0 {
      CeilIs(items + parts - 1, parts, q, parts - 1);
    } else {
      CeilIs(items + parts - 1, parts, q + 1, r - 1);
    }
  }

  lemma CeilIs(x: nat, d: nat, q: nat, r: nat)
    requires 0 <= r < d && x == d * q + r
    ensures x / d == q
  {
    var p := x / d;
    assert x == d * p + x % d;
    assert d * (p - q) == r - x % d;
    MultipleBounds(d, p - q);
  }

  lemma MultipleBounds(d: int, k: int)
    requires d > 0
    ensures k >= 1 ==> d * k >= d
    ensures k <= -1 ==> d * k <= -d
  {
    if k >= 1 { assert d * k == d + d * (k - 1); } else if k <= -1 { assert d * k == d * (k + 1) - d; }
  }

  /** Partition n starts after n small partitions and one more item for each large partition before it. */
  lemma StartIs(items: nat, n: nat, parts: nat)
    requires n < parts
    ensures var q := items / parts; var r := items - q * parts;
      && 0 <= r
      && StartOf(items, n, parts) == n * q + Smaller(n, r)
      && SizeOf(items, n, parts) == (if n < r then q + 1 else q)
  {
    var q := items / parts;
    var r := items - q * parts;
    DivideBounds(items, parts);
    if n < r {
      assert n * (q + 1) == n * q + n;
    } else if r > 0 {
      assert (q + 1) * r + (n - r) * q == n * q + r;
    } else {
      assert q * 0 + (n - 0) * q == n * q;
    }
  }

  function Smaller(a: int, b: int): int { if a < b then a else b }

  lemma NextArith(items: nat, n: nat, parts: nat, q: nat, r: nat)
    requires n < parts && items == q * parts + r && r < parts
    ensures n * q + Smaller(n, r) + (if n < r then q + 1 else q)
            == if n + 1 < parts then (n + 1) * q + Smaller(n + 1, r) else items
  {
    assert (n + 1) * q == n * q + q;
    if n + 1 == parts { assert parts * q == q * parts; }
  }

  /** The next partition starts where this one ends; the last one ends with the list. */
  lemma StartNext(items: nat, n: nat, parts: nat)
    requires n < parts
    ensures StartOf(items, n, parts) + SizeOf(items, n, parts) == if n + 1 < parts then StartOf(items, n + 1, parts)
        else items
  {
    var q := items / parts;
    var r := items - q * parts;
    DivideBounds(items, parts);
    StartIs(items, n, parts);
    NextArith(items, n, parts, q, r);
    if n + 1 < parts { StartIs(items, n + 1, parts); }
  }

  lemma StartZero(items: nat, parts: nat)
    requires parts > 0
    ensures StartOf(items, 0, parts) == 0
  {
    StartIs(items, 0, parts);
  }

  lemma {:induction false} StartWithin(items: nat, n: nat, parts: nat)
    requires n < parts
    ensures StartOf(items, n, parts) + SizeOf(items, n, parts) <= items
    decreases parts - n
  {
    StartNext(items, n, parts);
    if n + 1 < parts { StartWithin(items, n + 1, parts); }
  }

  lemma RestArith(items: nat, n: nat, parts: nat, q: nat, r: nat)
    requires n < parts && items == q * parts + r && r < parts
    ensures var left := parts - n; var rest := items - (n * q + Smaller(n, r));
      rest + left - 1 == left * (if n < r then q + 1 else q) + (if n < r then r - n - 1 else left - 1)
  {
    assert n * q + (parts - n) * q == q * parts;
    assert (parts - n) * (q + 1) == (parts - n) * q + (parts - n);
  }

  /** Dividing what is left evenly over the partitions that are left gives the next partition's size. */
  lemma CeilOfRest(items: nat, n: nat, parts: nat)
    requires n < parts
    ensures StartOf(items, n, parts) <= items
    ensures (items - StartOf(items, n, parts) + (parts - n) - 1) / (parts - n) == SizeOf(items, n, parts)
  {
    var q := items / parts;
    var r := items - q * parts;
    DivideBounds(items, parts);
    StartIs(items, n, parts);
    StartWithin(items, n, parts);
    RestArith(items, n, parts, q, r);
    var rest := items - StartOf(items, n, parts);
    CeilIs(rest + (parts - n) - 1, parts - n, if n < r then q + 1 else q, if n < r then r - n - 1 else parts - n - 1);
  }

  // ---------------------------------------------------------------- split_into_rows

  /** The sections of `numpy.array_split`: the first `extra` have one more element than the others. */
  function Sections<T>(items: seq<T>, parts: nat, small: nat, extra: nat): seq<seq<T>>
    decreases parts
  {
    if parts == 0 then [] else
      var size := if extra > 0 then small + 1 else small;
      var head := Slice(items, 0, size);
      [head] + Sections(items[|head|..], parts - 1, small, if extra > 0 then extra - 1 else 0)
  }

  function SplitIntoRows<T>(items: seq<T>, parts: nat): seq<seq<T>>
    requires parts > 0
  {
    Sections(items, parts, |items| / parts, |items| % parts)
  }

  lemma SliceFacts<T>(items: seq<T>, start: nat, size: nat)
    requires start + size <= |items|
    ensures Slice(items, start, size) == items[start..start + size] == Slice(items[start..], 0, size)
    ensures items[start..][size..] == items[start + size..]
    ensures items[start..] == items[start..start + size] + items[start + size..]
  {
  }

  lemma ExtraIs(items: nat, n: nat, parts: nat)
    requires n < parts
    ensures SizeOf(items, n, parts) == if Extra(items, n, parts) > 0 then items / parts + 1 else items / parts
    ensures n + 1 < parts ==> Extra(items, n + 1, parts) == if Extra(items, n, parts) > 0
        then Extra(items, n, parts) - 1 else 0
  {
    ModIs(items, parts);
    StartIs(items, n, parts);
  }

  /** Where the partition after the n-th starts. */
  function EndOf<T>(items: seq<T>, n: nat, parts: nat): (end: nat)
    requires n < parts
    ensures end <= |items|
  {
    if n + 1 < parts then StartOf0(items, n + 1, parts) else |items|
  }

  /** One section: it is the n-th partition, and the rest starts where the next one does. */
  lemma SectionIs<T>(items: seq<T>, parts: nat, n: nat)
    requires n < parts
    ensures var start := StartOf0(items, n, parts); var size := SizeOf(|items|, n, parts);
      && start + size == EndOf(items, n, parts)
      && Slice(items[start..], 0, size) == GetNth(items, n, parts) && size == |GetNth(items, n, parts)|
      && items[start..][size..] == items[EndOf(items, n, parts)..]
      && items[start..] == GetNth(items, n, parts) + items[EndOf(items, n, parts)..]
  {
    StartWithin(|items|, n, parts);
    StartNext(|items|, n, parts);
    SliceFacts(items, StartOf(|items|, n, parts), SizeOf(|items|, n, parts));
  }

  lemma SectionsUnfold<T>(items: seq<T>, parts: nat, small: nat, extra: nat, size: nat)
    requires parts > 0 && size == (if extra > 0 then small + 1 else small) && |Slice(items, 0, size)| == size
    ensures Sections(items, parts, small, extra)
            == [Slice(items, 0, size)] + Sections(items[size..], parts - 1, small, if extra > 0 then extra - 1 else 0)
  {
  }

  /** The partitions of `get_nth_partition` from the n-th on. */
  function PartitionsFrom<T>(items: seq<T>, n: nat, parts: nat): (r: seq<seq<T>>)
    ensures |r| == if n < parts then parts - n else 0
    ensures forall i :: 0 <= i < |r| ==> r[i] == GetNth(items, n + i, parts)
    decreases parts - n
  {
    if n >= parts then [] else [GetNth(items, n, parts)] + PartitionsFrom(items, n + 1, parts)
  }

  lemma {:induction false} SectionsAre<T>(items: seq<T>, parts: nat, n: nat)
    requires n < parts
    ensures Sections(items[StartOf0(items, n, parts)..], parts - n, |items| / parts, Extra(|items|, n, parts))
        == PartitionsFrom(items, n, parts)
    decreases parts - n
  {
    SectionIs(items, parts, n);
    ExtraIs(|items|, n, parts);
    SectionsUnfold(items[StartOf0(items, n, parts)..], parts - n, |items| / parts, Extra(|items|, n, parts),
        SizeOf(|items|, n, parts));
    if n + 1 < parts {
      SectionsAre(items, parts, n + 1);
    }
  }

  lemma {:induction false} PartitionsConcat<T>(items: seq<T>, n: nat, parts: nat)
    requires n < parts
    ensures Concat(PartitionsFrom(items, n, parts)) == items[StartOf0(items, n, parts)..]
    decreases parts - n
  {
    SectionIs(items, parts, n);
    if n + 1 < parts { PartitionsConcat(items, n + 1, parts); }
    assert PartitionsFrom(items, n, parts)[1..] == PartitionsFrom(items, n + 1, parts);
  }

  function StartOf0<T>(items: seq<T>, n: nat, parts: nat): (start: nat)
    requires n < parts
    ensures start <= |items|
  {
    StartWithin(|items|, n, parts);
    StartOf(|items|, n, parts)
  }

  /** Sections with one extra element that are left from the n-th on. */
  function Extra(items: nat, n: nat, parts: nat): nat
    requires n < parts
  {
    if n < items % parts then items % parts - n else 0
  }

  lemma ModIs(items: nat, parts: nat)
    requires parts > 0
    ensures items % parts == items - items / parts * parts
  {
    assert items == parts * (items / parts) + items % parts;
  }

  /** `split_into_rows` and `get_nth_partition` agree; the partitions are the list in order. */
  lemma SplitIntoRowsIsGetNth<T>(items: seq<T>, parts: nat)
    requires parts > 0
    ensures |SplitIntoRows(items, parts)| == parts
    ensures forall n :: 0 <= n < parts ==> SplitIntoRows(items, parts)[n] == GetNth(items, n, parts)
    ensures Concat(SplitIntoRows(items, parts)) == items
  {
    SectionsAre(items, parts, 0);
    PartitionsConcat(items, 0, parts);
    StartZero(|items|, parts);
    ModIs(|items|, parts);
    assert items[0..] == items;
  }

  /** Even split: sizes differ by at most one. */
  lemma EvenSplit<T>(items: seq<T>, parts: nat, i: nat, j: nat)
    requires i < parts && j < parts
    ensures |GetNth(items, i, parts)| <= |GetNth(items, j, parts)| + 1
  {
    StartIs(|items|, i, parts);
    StartIs(|items|, j, parts);
    StartWithin(|items|, i, parts);
    StartWithin(|items|, j, parts);
  }

  // ---------------------------------------------------------------- split_into_cols

  function ChunksOf<T>(items: seq<T>, size: nat): seq<seq<T>>
    requires size > 0
  {
    if items == [] then [] else if |items| <= size then [items] else [items[..size]] + ChunksOf(items[size..], size)
  }

  /** Column c of the chunks, short rows skipped. */
  function ColumnOf<T>(chunks: seq<seq<T>>, c: nat): seq<T> {
    if chunks == [] then [] else (if c < |chunks[0]| then [chunks[0][c]] else []) + ColumnOf(chunks[1..], c)
  }

  function SplitIntoCols<T>(items: seq<T>, parts: nat): seq<seq<T>>
    requires parts > 0
  {
    var chunks := ChunksOf(items, parts);
    seq(parts, c requires 0 <= c => ColumnOf(chunks, c))
  }

  lemma StepBack(j: nat, parts: nat)
    requires j > 0
    ensures j * parts == (j - 1) * parts + parts
  {
  }

  lemma BeyondOne(j: nat, parts: nat)
    requires j > 0
    ensures j * parts >= parts
  {
    StepBack(j, parts);
  }

  lemma {:induction false} ColumnAt<T>(items: seq<T>, parts: nat, c: nat, j: nat)
    requires c < parts
    ensures var col := ColumnOf(ChunksOf(items, parts), c);
      (j < |col| <==> j * parts + c < |items|) && (j < |col| ==> col[j] == items[j * parts + c])
    decreases |items|
  {
    if |items| > parts {
      ColumnUnfold(items, parts, c);
      if j > 0 {
        StepBack(j, parts);
        ColumnAt(items[parts..], parts, c, j - 1);
      }
    } else if j > 0 {
      BeyondOne(j, parts);
    }
  }

  lemma ColumnUnfold<T>(items: seq<T>, parts: nat, c: nat)
    requires c < parts < |items|
    ensures ColumnOf(ChunksOf(items, parts), c) == [items[c]] + ColumnOf(ChunksOf(items[parts..], parts), c)
  {
    assert ChunksOf(items, parts)[1..] == ChunksOf(items[parts..], parts);
  }

  /** Round robin: column c holds exactly the items at c, c + parts, c + 2 parts, ... in order. */
  lemma SplitIntoColsIsRoundRobin<T>(items: seq<T>, parts: nat, c: nat, j: nat)
    requires c < parts
    ensures |SplitIntoCols(items, parts)| == parts
    ensures var col := SplitIntoCols(items, parts)[c];
      (j < |col| <==> j * parts + c < |items|) && (j < |col| ==> col[j] == items[j * parts + c])
  {
    ColumnAt(items, parts, c, j);
  }
}
