/** `partition_by_size`: how large the parts can get. */
module PartitionSizes {
  import opened WorkItems
  import opened Splitting
  import opened RowRanges
  import opened DatasetParts

  /** Number of parts for `bytes` of data. */
  function PartCount(bytes: nat, maxSize: nat): nat
    requires maxSize > 0
  {
    bytes / maxSize + 1
  }

  /** Rows of the largest part. */
  function LargestPart(rows: nat, width: nat, maxSize: nat): nat
    requires maxSize > 0
  {
    (rows + PartCount(width * rows, maxSize) - 1) / PartCount(width * rows, maxSize)
  }

  lemma DivideIs(x: nat, d: nat)
    requires d > 0
    ensures d * (x / d) <= x < d * (x / d) + d
  {
    assert x == d * (x / d) + x % d;
  }

  lemma Cancel(a: int, b: int, c: nat)
    requires a * c < b * c
    ensures a < b
  {
    Monotone(b, a, c);
  }

  lemma Monotone(a: int, b: int, c: nat)
    ensures a <= b ==> a * c <= b * c
  {
    if a <= b { assert (b - a) * c >= 0; }
  }

  /** Rows of width w: no part reaches the limit plus one row. */
  lemma PartBelowLimitPlusRow(rows: nat, width: nat, maxSize: nat)
    requires rows > 0 && width > 0 && maxSize > 0
    ensures width * LargestPart(rows, width, maxSize) < maxSize + width
  {
    var np := PartCount(width * rows, maxSize);
    var c := LargestPart(rows, width, maxSize);
    DivideIs(width * rows, maxSize);
    DivideIs(rows + np - 1, np);
    assert maxSize * np > width * rows;
    BelowArith(rows, width, maxSize, np, c);
  }

  lemma BelowArith(rows: nat, width: nat, maxSize: nat, np: nat, c: int)
    requires np * c <= rows + np - 1 && width * rows < maxSize * np
    ensures width * c < maxSize + width
  {
    assert np * (c - 1) == np * c - np;
    Scale(np * (c - 1), rows, width);
    assert (width * (c - 1)) * np == width * (np * (c - 1));
    Cancel(width * (c - 1), maxSize, np);
    assert width * (c - 1) == width * c - width;
  }

  lemma Scale(a: int, b: int, c: nat)
    requires a <= b
    ensures c * a <= c * b
  {
  }

  /** The documented bound itself, at most the limit, holds for every number of rows exactly when the limit is a
      multiple of the row width. */
  lemma DocumentedBoundIff(width: nat, maxSize: nat)
    requires width > 0 && maxSize > 0
    ensures (forall rows: nat {:trigger LargestPart(rows, width, maxSize)} ::
      rows > 0 ==> width * LargestPart(rows, width, maxSize) <= maxSize)
            <==> maxSize % width == 0
  {
    if maxSize % width == 0 {
      forall rows: nat | rows > 0 ensures width * LargestPart(rows, width, maxSize) <= maxSize {
        PartBelowLimitPlusRow(rows, width, maxSize);
        WholeRows(LargestPart(rows, width, maxSize), width, maxSize);
      }
    } else {
      var f, g := maxSize / width, maxSize % width;
      assert maxSize == width * f + g;
      TooManyRows(width, maxSize, f, g, f * maxSize + 1);
    }
  }

  lemma WholeRows(c: nat, width: nat, maxSize: nat)
    requires width > 0 && maxSize % width == 0 && width * c < maxSize + width
    ensures width * c <= maxSize
  {
    var f := maxSize / width;
    assert maxSize == width * f;
    Cancel(c, f + 1, width) by { assert c * width == width * c && (f + 1) * width == width * f + width; }
    Scale(c, f, width);
  }

  /** A number of rows for which the limit is exceeded when it is not a multiple of the row width. */
  lemma TooManyRows(width: nat, maxSize: nat, f: nat, g: nat, rows: nat)
    requires maxSize == width * f + g && 0 < g < width && rows == f * maxSize + 1
    ensures rows > 0 && width * LargestPart(rows, width, maxSize) > maxSize
  {
    PartCountBelow(width * rows, maxSize);
    LargestCovers(rows, width, maxSize);
    TooManyArith(width, maxSize, f, g, PartCount(width * rows, maxSize), LargestPart(rows, width, maxSize));
  }

  lemma PartCountBelow(bytes: nat, maxSize: nat)
    requires maxSize > 0
    ensures maxSize * (PartCount(bytes, maxSize) - 1) <= bytes
  {
    DivideIs(bytes, maxSize);
  }

  /** Parts of the largest size hold all rows. */
  lemma LargestCovers(rows: nat, width: nat, maxSize: nat)
    requires maxSize > 0
    ensures rows <= PartCount(width * rows, maxSize) * LargestPart(rows, width, maxSize)
  {
    var np := PartCount(width * rows, maxSize);
    DivideIs(rows + np - 1, np);
  }

  /** f rows a part are not enough for all rows. */
  lemma TooManyArith(width: nat, maxSize: nat, f: nat, g: nat, np: nat, c: nat)
    requires maxSize == width * f + g && 0 < g < width && np > 0
    requires maxSize * (np - 1) <= width * (f * maxSize + 1)
    requires f * maxSize + 1 <= np * c
    ensures width * c > maxSize
  {
    TooFewParts(width, maxSize, f, g, np);
    Cancel(f, c, np) by { assert f * np == np * f && c * np == np * c; }
    Scale(f + 1, c, width);
    assert width * (f + 1) == width * f + width;
  }

  lemma TooFewParts(width: nat, maxSize: nat, f: nat, g: nat, np: nat)
    requires maxSize == width * f + g && 0 < g < width && np > 0
    requires maxSize * (np - 1) <= width * (f * maxSize + 1)
    ensures np * f < f * maxSize + 1
  {
    if f > 0 {
      // maxSize * (np - 1) <= (maxSize - g) * maxSize + width, so np - 1 < maxSize
      assert width * (f * maxSize + 1) == (width * f) * maxSize + width;
      assert (width * f) * maxSize == maxSize * maxSize - g * maxSize;
      assert g * maxSize >= maxSize by { Scale(1, g, maxSize); }
      assert maxSize > width by { Scale(1, f, width); }
      assert (np - 1) * maxSize == maxSize * (np - 1);
      Cancel(np - 1, maxSize, maxSize);
      Scale(np, maxSize, f);
      assert f * np == np * f;
    }
  }

  // ---------------------------------------------------------------- the method

  /** Every row of the files has the same width. */
  predicate Uniform(ranges: seq<RowRange>, width: nat) {
    forall i :: 0 <= i < |ranges| ==> ranges[i].fileNumRows > 0 && ranges[i].dataSize == width * ranges[i].fileNumRows
  }

  lemma EstimateIs(r: RowRange, width: nat)
    requires r.Valid() && r.fileNumRows > 0 && r.dataSize == width * r.fileNumRows
    ensures r.EstimatedDataSize() == width * r.NumRows()
  {
    var n := width * r.NumRows();
    assert r.dataSize * r.NumRows() == r.fileNumRows * n;
    CeilIs(r.dataSize * r.NumRows(), r.fileNumRows, n, 0);
  }

  /** The estimated sizes of the ranges, each its share of the size of its file, rounded down. */
  ghost function TotalSize(ranges: seq<RowRange>): nat
    reads ranges
    requires AllValid(ranges)
  {
    if ranges == [] then 0 else
      var r := ranges[0];
      assert forall i :: 0 <= i < |ranges[1..]| ==> ranges[1..][i] == ranges[i + 1];
      (if r.fileNumRows == 0 then 0 else r.dataSize * r.NumRows() / r.fileNumRows) + TotalSize(ranges[1..])
  }

  method EstimatedTotal(ranges: seq<RowRange>) returns (bytes: nat)
    requires AllValid(ranges)
    ensures bytes == TotalSize(ranges) && (Expand(ranges) == [] ==> bytes == 0)
  {
    bytes := 0;
    var i := |ranges|;
    assert ranges[i..] == [];
    while i > 0
      invariant 0 <= i <= |ranges| && AllValid(ranges[i..]) && bytes == TotalSize(ranges[i..])
      invariant Expand(ranges[i..]) == [] ==> bytes == 0
    {
      i := i - 1;
      assert ranges[i..][1..] == ranges[i + 1..];
      assert ranges[i].NumRows() == 0 ==> ranges[i].EstimatedDataSize() == 0;
      bytes := bytes + ranges[i].EstimatedDataSize();
    }
    assert ranges[i..] == ranges;
  }

  lemma NthBelow(rows: seq<Row>, width: nat, maxSize: nat, n: nat)
    requires width > 0 && maxSize > 0 && n < PartCount(width * |rows|, maxSize)
    ensures width * |GetNth(rows, n, PartCount(width * |rows|, maxSize))| < maxSize + width
  {
    if rows == [] { return; }
    var np := PartCount(width * |rows|, maxSize);
    PartBelowLimitPlusRow(|rows|, width, maxSize);
    StartIs(|rows|, n, np);
    DivideBounds(|rows|, np);
    StartWithin(|rows|, n, np);
    Scale(|GetNth(rows, n, np)|, LargestPart(|rows|, width, maxSize), width);
  }

  /** `empty`: whether there are rows, when that is known already; else whether there are files. */
  predicate Empty(ranges: seq<RowRange>, resolved: bool)
    requires AllValid(ranges)
    reads ranges
  {
    if resolved then Expand(ranges) == [] else ranges == []
  }

  ghost function Objects(parts: seq<seq<RowRange>>): (all: set<RowRange>)
    ensures forall n, r :: 0 <= n < |parts| && r in parts[n] ==> r in all
  {
    set n, r | 0 <= n < |parts| && r in parts[n] :: r
  }

  /** The parts are the even split of the rows. */
  ghost predicate HoldAll(parts: seq<seq<RowRange>>, rows: seq<Row>)
    reads Objects(parts)
  {
    forall n :: 0 <= n < |parts| ==> Holds(parts[n], GetNth(rows, n, |parts|))
  }

  /** Every part is below the limit plus one row. */
  ghost predicate AllBelow(parts: seq<seq<RowRange>>, width: nat, maxSize: nat)
    reads Objects(parts)
  {
    forall n :: 0 <= n < |parts| ==> AllValid(parts[n]) && width * |Expand(parts[n])| < maxSize + width
  }

  /** One part more than the limit goes into the bytes, rounded down. */
  ghost predicate CountFits(parts: nat, bytes: nat, maxSize: nat) {
    parts > 0 && (parts - 1) * maxSize <= bytes < parts * maxSize
  }

  lemma CountBounds(bytes: nat, maxSize: nat)
    requires maxSize > 0
    ensures CountFits(PartCount(bytes, maxSize), bytes, maxSize)
  {
    DivideIs(bytes, maxSize);
    assert (bytes / maxSize) * maxSize == maxSize * (bytes / maxSize);
  }

  /** The parts are the even split of the rows. With uniform rows every part stays below the limit plus one row.
      Files without rows whose metadata has not been read yet make one part without rows. */
  method PartitionBySize(ranges: seq<RowRange>, resolved: bool, maxSize: nat)
      returns (result: Option<seq<seq<RowRange>>>)
    requires AllValid(ranges)
    ensures if Empty(ranges, resolved) then result == Some([])
        else result.Some? <==> maxSize > 0 && NoneRepeated(ranges)
    ensures !Empty(ranges, resolved) && result.Some? ==>
      HoldAll(result.value, Expand(ranges)) && CountFits(|result.value|, TotalSize(ranges), maxSize)
    ensures !Empty(ranges, resolved) && Expand(ranges) == [] && result.Some? ==> |result.value| == 1
    ensures forall w: nat {:trigger Uniform(ranges, w)} ::
      w > 0 && Uniform(ranges, w) && result.Some? && !Empty(ranges, resolved) ==>
        AllBelow(result.value, w, maxSize) && TotalSize(ranges) == w * |Expand(ranges)|
  {
    if resolved {
      var rows := CountRows(ranges);
      if rows == 0 { return Some([]); }
    } else if ranges == [] {
      return Some([]);
    }
    if maxSize == 0 { return None; }
    result := CutBySize(ranges, maxSize);
  }

  method CutBySize(ranges: seq<RowRange>, maxSize: nat) returns (result: Option<seq<seq<RowRange>>>)
    requires AllValid(ranges) && maxSize > 0
    ensures result.Some? <==> NoneRepeated(ranges)
    ensures result.Some? ==>
      HoldAll(result.value, Expand(ranges)) && CountFits(|result.value|, TotalSize(ranges), maxSize)
    ensures Expand(ranges) == [] && result.Some? ==> |result.value| == 1
    ensures forall w: nat {:trigger Uniform(ranges, w)} ::
      w > 0 && Uniform(ranges, w) && result.Some? ==>
        AllBelow(result.value, w, maxSize) && TotalSize(ranges) == w * |Expand(ranges)|
  {
    var bytes := EstimatedTotal(ranges);
    CountBounds(bytes, maxSize);
    result := PartitionDataset(ranges, PartCount(bytes, maxSize));
    forall w: nat | w > 0 && Uniform(ranges, w) && result.Some?
      ensures AllBelow(result.value, w, maxSize) && TotalSize(ranges) == w * |Expand(ranges)|
    {
      TotalIs(ranges, w);
      PartsBelow(result.value, Expand(ranges), w, maxSize);
    }
  }

  /** With rows of one width, the estimated size is the real one. */
  lemma {:induction false} TotalIs(ranges: seq<RowRange>, width: nat)
    requires AllValid(ranges) && Uniform(ranges, width)
    ensures TotalSize(ranges) == width * |Expand(ranges)|
  {
    if ranges != [] {
      var rest := ranges[1..];
      assert forall i :: 0 <= i < |rest| ==> rest[i] == ranges[i + 1];
      TotalIs(rest, width);
      EstimateIs(ranges[0], width);
      assert width * (ranges[0].NumRows() + |Expand(rest)|) == width * ranges[0].NumRows() + width * |Expand(rest)|;
    }
  }

  lemma PartsBelow(parts: seq<seq<RowRange>>, rows: seq<Row>, width: nat, maxSize: nat)
    requires width > 0 && maxSize > 0 && |parts| == PartCount(width * |rows|, maxSize) && HoldAll(parts, rows)
    ensures AllBelow(parts, width, maxSize)
  {
    forall n | 0 <= n < |parts| ensures AllValid(parts[n]) && width * |Expand(parts[n])| < maxSize + width {
      HoldsAsMany(parts[n], GetNth(rows, n, |parts|));
      NthBelow(rows, width, maxSize, n);
    }
  }
}
