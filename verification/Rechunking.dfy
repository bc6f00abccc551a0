/** Reading row ranges of files as batches of a fixed size. */
module Rechunking {
  import opened WorkItems
  import opened Sequences
  import opened Splitting

  /** A file as its reader delivers it, and the rows asked for. */
  datatype Source<R> = Source(batches: seq<seq<R>>, begin: nat, end: nat)

  /** The range lies in the file, and the reader was opened with this batch size. */
  predicate SourceOK<R>(s: Source<R>, batchSize: nat) {
    s.begin <= s.end <= |Concat(s.batches)| && Bounded(s.batches, batchSize)
  }

  predicate Bounded<R>(batches: seq<seq<R>>, batchSize: nat) {
    forall i :: 0 <= i < |batches| ==> |batches[i]| <= batchSize
  }

  function RowsOf<R>(s: Source<R>): seq<R>
    requires s.begin <= s.end <= |Concat(s.batches)|
  {
    Concat(s.batches)[s.begin..s.end]
  }

  function AllRows<R>(sources: seq<Source<R>>, batchSize: nat): seq<R>
    requires forall i :: 0 <= i < |sources| ==> SourceOK(sources[i], batchSize)
  {
    if sources == [] then
      []
    else
      assert SourceOK(sources[0], batchSize);
      RowsOf(sources[0]) + AllRows(sources[1..], batchSize)
  }

  lemma ConcatAt<R>(a: seq<seq<R>>, i: nat)
    requires i < |a|
    ensures var n := |Concat(a[..i])|;
      |Concat(a[..i + 1])| == n + |a[i]| <= |Concat(a)| && a[i] == Concat(a)[n..n + |a[i]|]
  {
    ConcatTake(a, i);
  }

  // ---------------------------------------------------------------- one file

  /** The rows of the range among the first `current` rows. */
  function Trimmed<R>(all: seq<R>, current: nat, left: nat, right: nat): seq<R>
    requires left <= right <= |all| && current <= |all|
  {
    if current <= left then [] else all[left..Min(current, right)]
  }

  /** The part of a batch that starts at row `current` and lies in the range. */
  function Piece<R>(batch: seq<R>, current: nat, left: nat, right: nat): (piece: seq<R>)
    requires left <= right && left < current + |batch| && current < right
    ensures |piece| <= |batch|
  {
    batch[Max(left, current) - current..Min(right, current + |batch|) - current]
  }

  lemma TrimNext<R>(all: seq<R>, batch: seq<R>, current: nat, left: nat, right: nat)
    requires left <= right <= |all| && current + |batch| <= |all| && batch == all[current..current + |batch|]
    requires left < current + |batch| && current < right
    ensures Trimmed(all, current, left, right) + Piece(batch, current, left, right)
        == Trimmed(all, current + |batch|, left, right)
  {
    var l, r := Max(left, current), Min(right, current + |batch|);
    SliceOf(all, batch, current, l, r);
    if current <= left { assert [] + all[l..r] == all[l..r]; } else { SlicesJoin(all, left, current, r); }
  }

  lemma SlicesJoin<R>(all: seq<R>, a: nat, b: nat, c: nat)
    requires a <= b <= c <= |all|
    ensures all[a..b] + all[b..c] == all[a..c]
  {
  }

  lemma SliceOf<R>(all: seq<R>, batch: seq<R>, current: nat, l: nat, r: nat)
    requires current <= l <= r <= current + |batch| <= |all| && batch == all[current..current + |batch|]
    ensures batch[l - current..r - current] == all[l..r]
  {
    var a, b := batch[l - current..r - current], all[l..r];
    forall k | 0 <= k < r - l ensures a[k] == b[k] { assert a[k] == batch[l - current + k] && b[k] == all[l + k]; }
  }

  /** What one batch of the reader adds to the output. */
  lemma TrimStep<R>(out: seq<seq<R>>, all: seq<R>, batch: seq<R>, current: nat, left: nat, right: nat)
    requires left <= right <= |all| && current + |batch| <= |all| && batch == all[current..current + |batch|]
        && current < right
    requires Concat(out) == Trimmed(all, current, left, right)
    ensures Concat(if left < current + |batch| then out + [Piece(batch, current, left, right)] else out)
            == Trimmed(all, current + |batch|, left, right)
  {
    if left < current + |batch| {
      ConcatAppend(out, Piece(batch, current, left, right));
      TrimNext(all, batch, current, left, right);
    }
  }

  lemma TrimDone<R>(all: seq<R>, current: nat, left: nat, right: nat)
    requires left <= right <= |all| && right <= current <= |all|
    ensures Trimmed(all, current, left, right) == all[left..right]
  {
  }

  /** `_iter_record_batches`: trim the reader's batches to the range. */
  method IterRecordBatches<R>(batches: seq<seq<R>>, offset: nat, length: nat, batchSize: nat) returns (out: seq<seq<R>>)
    requires Bounded(batches, batchSize) && offset + length <= |Concat(batches)|
    ensures Concat(out) == Concat(batches)[offset..offset + length] && Bounded(out, batchSize)
  {
    out := [];
    var current, i := 0, 0;
    var left, right := offset, offset + length;
    ghost var all := Concat(batches);
    while i < |batches| && current < right
      invariant i <= |batches| && current == |Concat(batches[..i])| <= |all|
      invariant Bounded(out, batchSize) && Concat(out) == Trimmed(all, current, left, right)
    {
      var batch := batches[i];
      ConcatAt(batches, i);
      TrimStep(out, all, batch, current, left, right);
      if left < current + |batch| { out := out + [Piece(batch, current, left, right)]; }
      current := current + |batch|;
      i := i + 1;
    }
    if i == |batches| { assert batches[..i] == batches; }
    TrimDone(all, current, left, right);
  }

  function Max(a: int, b: int): int { if a < b then b else a }

  function Min(a: int, b: int): int { if a < b then a else b }

  // ---------------------------------------------------------------- canonical chunks

  lemma {:induction false} ChunksConcat<R>(rows: seq<R>, size: nat)
    requires size > 0
    ensures Concat(ChunksOf(rows, size)) == rows && Bounded(ChunksOf(rows, size), size)
    decreases |rows|
  {
    if |rows| > size { ChunksConcat(rows[size..], size); }
  }

  /** Full chunks with at most the last one shorter, and none empty. */
  predicate Full<R>(chunks: seq<seq<R>>, size: nat) {
    && (forall i :: 0 <= i < |chunks| ==> 0 < |chunks[i]| <= size)
    && (forall i :: 0 <= i < |chunks| - 1 ==> |chunks[i]| == size)
  }

  lemma {:induction false} ChunksFull<R>(rows: seq<R>, size: nat)
    requires size > 0
    ensures Full(ChunksOf(rows, size), size)
    decreases |rows|
  {
    if |rows| > size { ChunksFull(rows[size..], size); }
  }

  /** The chunks of a row sequence are the only ones of this shape: batch boundaries depend on rows and batch size
      alone. */
  lemma {:induction false} ChunksUnique<R>(chunks: seq<seq<R>>, rows: seq<R>, size: nat)
    requires size > 0 && Full(chunks, size) && Concat(chunks) == rows
    ensures chunks == ChunksOf(rows, size)
    decreases |chunks|
  {
    if |chunks| == 1 {
      assert chunks[1..] == [] && rows == chunks[0];
    } else if |chunks| > 1 {
      assert |chunks[1]| > 0 && chunks[1..][0] == chunks[1];
      assert Full(chunks[1..], size);
      ChunksUnique(chunks[1..], rows[size..], size) by { assert rows == chunks[0] + Concat(chunks[1..]); }
      assert rows[..size] == chunks[0] && |rows| > size;
    }
  }

  lemma SliceAgain<R>(rows: seq<R>, a: nat, b: nat)
    requires a + b <= |rows|
    ensures rows[a..][b..] == rows[a + b..]
  {
  }

  /** Skipping o batches is skipping o * size rows: what a resumed task reads. */
  lemma {:induction false} ChunksDrop<R>(rows: seq<R>, size: nat, o: nat)
    requires size > 0 && o <= |ChunksOf(rows, size)|
    ensures ChunksOf(rows, size)[o..] == if o * size <= |rows| then ChunksOf(rows[o * size..], size) else []
    decreases |rows|
  {
    if o > 0 {
      OneMore(o, size);
      if |rows| <= size {
        assert o == 1;
      } else {
        var rest, m := rows[size..], (o - 1) * size;
        FirstChunk(rows, size);
        ChunksDrop(rest, size, o - 1);
        assert ChunksOf(rows, size)[o..] == ChunksOf(rest, size)[o - 1..];
        if m + size <= |rows| { SliceAgain(rows, size, m); }
      }
    }
  }

  lemma OneMore(o: nat, size: nat)
    requires o > 0
    ensures o * size == (o - 1) * size + size && (o - 1) * size >= 0
  {
  }

  lemma FirstChunk<R>(rows: seq<R>, size: nat)
    requires 0 < size < |rows|
    ensures ChunksOf(rows, size) == [rows[..size]] + ChunksOf(rows[size..], size)
  {
  }

  // ---------------------------------------------------------------- many files

  /** `combine_buffered_batches`: one table, cut into batches of at most `batchSize` rows; an empty table gives none. */
  function Combine<R>(buffered: seq<seq<R>>, batchSize: nat): seq<seq<R>>
    requires batchSize > 0
  {
    ChunksOf(Concat(buffered), batchSize)
  }

  ghost function Size<R>(pieces: seq<seq<R>>, bytes: seq<R> -> nat): nat {
    if pieces == [] then 0 else Size(pieces[..|pieces| - 1], bytes) + bytes(pieces[|pieces| - 1])
  }

  /** Several pieces stay below the limit together. */
  ghost predicate Below<R>(pieces: seq<seq<R>>, bytes: seq<R> -> nat, maxBytes: Option<nat>) {
    maxBytes.Some? && |pieces| > 1 ==> Size(pieces, bytes) < maxBytes.value
  }

  /** The pieces of one table: below the limit, but for a last piece that fills the table up. */
  ghost predicate IsGroup<R>(g: seq<seq<R>>, batchSize: nat, bytes: seq<R> -> nat, maxBytes: Option<nat>) {
    && g != [] && |Concat(g)| <= batchSize
    && Below(if |Concat(g)| == batchSize then g[..|g| - 1] else g, bytes, maxBytes)
  }

  /** A table that is not full ends where the next piece would have reached the limit. */
  ghost predicate Ends<R>(g: seq<seq<R>>, next: seq<R>, batchSize: nat, bytes: seq<R> -> nat, maxBytes: Option<nat>) {
    |Concat(g)| == batchSize || (maxBytes.Some? && Size(g, bytes) + bytes(next) >= maxBytes.value)
  }

  ghost predicate AreGroups<R>(gs: seq<seq<seq<R>>>, batchSize: nat, bytes: seq<R> -> nat, maxBytes: Option<nat>) {
    && (forall i :: 0 <= i < |gs| ==> IsGroup(gs[i], batchSize, bytes, maxBytes))
    && (forall i, j :: 0 <= i < j < |gs| && j == i + 1 ==> EndsBefore(gs[i], gs[j], batchSize, bytes, maxBytes))
  }

  ghost predicate EndsBefore<R>(g: seq<seq<R>>, h: seq<seq<R>>, batchSize: nat, bytes: seq<R> -> nat,
          maxBytes: Option<nat>) {
    h != [] && Ends(g, h[0], batchSize, bytes, maxBytes)
  }


  /** One batch for each group that has rows. */
  ghost function Tables<R>(gs: seq<seq<seq<R>>>): seq<seq<R>> {
    if gs == [] then [] else
      Tables(gs[..|gs| - 1]) + Table(gs[|gs| - 1])
  }

  ghost function Table<R>(g: seq<seq<R>>): seq<seq<R>> { if Concat(g) == [] then [] else [Concat(g)] }

  /** The groups emitted, and the pieces that are buffered. */
  ghost predicate Grouped<R>(out: seq<seq<R>>, gs: seq<seq<seq<R>>>, buffered: seq<seq<R>>, size: nat, batchSize: nat,
          bytes: seq<R> -> nat, maxBytes: Option<nat>) {
    && out == Tables(gs) && AreGroups(gs, batchSize, bytes, maxBytes)
    && size == Size(buffered, bytes) && Below(buffered, bytes, maxBytes)
    && (gs != [] ==> buffered != [] && Ends(gs[|gs| - 1], buffered[0], batchSize, bytes, maxBytes))
  }

  /** `_iter_record_batches_from_files`. `bytes` gives the size of a batch, `maxBytes` the optional byte limit. */
  method IterFromFiles<R>(sources: seq<Source<R>>, batchSize: nat, maxBytes: Option<nat>, bytes: seq<R> -> nat)
      returns (out: seq<seq<R>>, ghost gs: seq<seq<seq<R>>>)
    requires batchSize > 0 && forall i :: 0 <= i < |sources| ==> SourceOK(sources[i], batchSize)
    ensures Concat(out) == AllRows(sources, batchSize) && Bounded(out, batchSize)
    ensures maxBytes.None? ==> out == ChunksOf(AllRows(sources, batchSize), batchSize)
    ensures out == Tables(gs) && AreGroups(gs, batchSize, bytes, maxBytes)
  {
    out := [];
    var buffered: seq<seq<R>>, rows, size := [], 0, 0;
    ghost var done: seq<R> := [];
    gs := [];
    var i := 0;
    while i < |sources|
      invariant i <= |sources| && Buffered(buffered, rows, batchSize) && Emitted(out, done, batchSize, maxBytes)
      invariant Grouped(out, gs, buffered, size, batchSize, bytes, maxBytes)
      invariant (done + Concat(buffered)) + AllRows(sources[i..], batchSize) == AllRows(sources, batchSize)
    {
      assert SourceOK(sources[i], batchSize);
      assert AllRows(sources[i..], batchSize) == RowsOf(sources[i]) + AllRows(sources[i + 1..], batchSize);
      Associative(done + Concat(buffered), RowsOf(sources[i]), AllRows(sources[i + 1..], batchSize));
      out, buffered, rows, size, done, gs := AddFile(out, buffered, rows, size, sources[i], batchSize, maxBytes, bytes,
          done, gs);
      i := i + 1;
    }
    assert done + Concat(buffered) == AllRows(sources, batchSize);
    out, gs := EmitBuffered(out, buffered, rows, size, batchSize, maxBytes, bytes, done, gs);
  }

  /** The batches of one file, trimmed to its range. */
  method AddFile<R>(out: seq<seq<R>>, buffered: seq<seq<R>>, rows: nat, size: nat, source: Source<R>,
          batchSize: nat, maxBytes: Option<nat>, bytes: seq<R> -> nat, ghost done: seq<R>, ghost gs: seq<seq<seq<R>>>)
      returns (out': seq<seq<R>>, buffered': seq<seq<R>>, rows': nat, size': nat, ghost done': seq<R>,
          ghost gs': seq<seq<seq<R>>>)
    requires batchSize > 0 && SourceOK(source, batchSize)
    requires Buffered(buffered, rows, batchSize) && Emitted(out, done, batchSize, maxBytes)
    requires Grouped(out, gs, buffered, size, batchSize, bytes, maxBytes)
    ensures Buffered(buffered', rows', batchSize) && Emitted(out', done', batchSize, maxBytes)
    ensures Grouped(out', gs', buffered', size', batchSize, bytes, maxBytes)
    ensures done' + Concat(buffered') == done + Concat(buffered) + RowsOf(source)
  {
    var batches := IterRecordBatches(source.batches, source.begin, source.end - source.begin, batchSize);
    out', buffered', rows', size', done', gs' := RebatchAll(out, buffered, rows, size, batches, batchSize, maxBytes,
        bytes, done, gs);
  }

  /** What is buffered at the end makes one more batch. */
  method EmitBuffered<R>(out: seq<seq<R>>, buffered: seq<seq<R>>, ghost rows: nat, ghost size: nat, batchSize: nat,
          ghost maxBytes: Option<nat>, ghost bytes: seq<R> -> nat, ghost done: seq<R>, ghost gs: seq<seq<seq<R>>>)
      returns (out': seq<seq<R>>, ghost gs': seq<seq<seq<R>>>)
    requires batchSize > 0
    requires Buffered(buffered, rows, batchSize) && Emitted(out, done, batchSize, maxBytes)
    requires Grouped(out, gs, buffered, size, batchSize, bytes, maxBytes)
    ensures Concat(out') == done + Concat(buffered) && Bounded(out', batchSize)
    ensures maxBytes.None? ==> out' == ChunksOf(done + Concat(buffered), batchSize)
    ensures out' == Tables(gs') && AreGroups(gs', batchSize, bytes, maxBytes)
  {
    EmitLast(out, done, Concat(buffered), batchSize, maxBytes);
    GroupLast(out, gs, buffered, rows, size, batchSize, bytes, maxBytes);
    if buffered != [] {
      out', gs' := out + Combine(buffered, batchSize), gs + [buffered];
    } else {
      assert out + ChunksOf([], batchSize) == out;
      out', gs' := out, gs;
    }
  }

  /** The inner loop: the batches of one file. */
  method RebatchAll<R>(out: seq<seq<R>>, buffered: seq<seq<R>>, rows: nat, size: nat, batches: seq<seq<R>>,
          batchSize: nat, maxBytes: Option<nat>, bytes: seq<R> -> nat, ghost done: seq<R>, ghost gs: seq<seq<seq<R>>>)
      returns (out': seq<seq<R>>, buffered': seq<seq<R>>, rows': nat, size': nat, ghost done': seq<R>,
          ghost gs': seq<seq<seq<R>>>)
    requires batchSize > 0 && Bounded(batches, batchSize)
    requires Buffered(buffered, rows, batchSize) && Emitted(out, done, batchSize, maxBytes)
    requires Grouped(out, gs, buffered, size, batchSize, bytes, maxBytes)
    ensures Grouped(out', gs', buffered', size', batchSize, bytes, maxBytes)
    ensures Buffered(buffered', rows', batchSize) && Emitted(out', done', batchSize, maxBytes)
    ensures done' + Concat(buffered') == done + Concat(buffered) + Concat(batches)
  {
    out', buffered', rows', size', done', gs' := out, buffered, rows, size, done, gs;
    ghost var before := done + Concat(buffered);
    var j := 0;
    while j < |batches|
      invariant j <= |batches| && Buffered(buffered', rows', batchSize) && Emitted(out', done', batchSize, maxBytes)
      invariant Grouped(out', gs', buffered', size', batchSize, bytes, maxBytes)
      invariant done' + Concat(buffered') == before + Concat(batches[..j])
    {
      ConcatTake(batches, j);
      Associative(before, Concat(batches[..j]), batches[j]);
      out', buffered', rows', size', done', gs' := RebatchNext(out', buffered', rows', size', batches[j], batchSize,
          maxBytes, bytes, done', gs');
      j := j + 1;
    }
    assert batches[..j] == batches;
  }

  /** One pass of it. */
  method RebatchNext<R>(out: seq<seq<R>>, buffered: seq<seq<R>>, rows: nat, size: nat, batch: seq<R>,
          batchSize: nat, maxBytes: Option<nat>, bytes: seq<R> -> nat, ghost done: seq<R>, ghost gs: seq<seq<seq<R>>>)
      returns (out': seq<seq<R>>, buffered': seq<seq<R>>, rows': nat, size': nat, ghost done': seq<R>,
          ghost gs': seq<seq<seq<R>>>)
    requires batchSize > 0 && |batch| <= batchSize
    requires Buffered(buffered, rows, batchSize) && Emitted(out, done, batchSize, maxBytes)
    requires Grouped(out, gs, buffered, size, batchSize, bytes, maxBytes)
    ensures Buffered(buffered', rows', batchSize) && Emitted(out', done', batchSize, maxBytes)
    ensures Grouped(out', gs', buffered', size', batchSize, bytes, maxBytes)
    ensures done' + Concat(buffered') == done + Concat(buffered) + batch
  {
    var emitted;
    ghost var group;
    emitted, buffered', rows', size', group := Rebatch(buffered, rows, size, batch, batchSize, maxBytes, bytes);
    GroupMore(out, gs, buffered, size, emitted, group, buffered', size', batchSize, bytes, maxBytes);
    EmitMore(out, done, emitted, batchSize, maxBytes);
    Associative(done, Concat(emitted), Concat(buffered'));
    Associative(done, Concat(buffered), batch);
    out', done', gs' := out + emitted, done + Concat(emitted), if group == [] then gs else gs + [group];
  }

  predicate Buffered<R>(buffered: seq<seq<R>>, rows: nat, batchSize: nat) { rows == |Concat(buffered)| < batchSize }

  /** What has been emitted so far: all rows `done`, and without a byte limit only full batches. */
  ghost predicate Emitted<R>(out: seq<seq<R>>, done: seq<R>, batchSize: nat, maxBytes: Option<nat>) {
    && Concat(out) == done && Bounded(out, batchSize)
    && (maxBytes.None? ==> forall k :: 0 <= k < |out| ==> |out[k]| == batchSize)
  }

  lemma EmitMore<R>(out: seq<seq<R>>, done: seq<R>, more: seq<seq<R>>, batchSize: nat, maxBytes: Option<nat>)
    requires Emitted(out, done, batchSize, maxBytes) && Emitted(more, Concat(more), batchSize, maxBytes)
    ensures Emitted(out + more, done + Concat(more), batchSize, maxBytes)
  {
    ConcatSplit(out, more);
  }

  lemma EmitLast<R>(out: seq<seq<R>>, done: seq<R>, rest: seq<R>, batchSize: nat, maxBytes: Option<nat>)
    requires batchSize > 0 && Emitted(out, done, batchSize, maxBytes) && |rest| < batchSize
    ensures Concat(out + ChunksOf(rest, batchSize)) == done + rest
        && Bounded(out + ChunksOf(rest, batchSize), batchSize)
    ensures maxBytes.None? ==> out + ChunksOf(rest, batchSize) == ChunksOf(done + rest, batchSize)
  {
    ConcatSplit(out, ChunksOf(rest, batchSize));
    ChunksConcat(rest, batchSize);
    if maxBytes.None? {
      var all := out + ChunksOf(rest, batchSize);
      assert Full(all, batchSize);
      ChunksUnique(all, done + rest, batchSize);
    }
  }

  /** One batch of the reader: buffer it, or emit the buffer, filled up to the batch size when it would overflow. */
  method Rebatch<R>(buffered: seq<seq<R>>, rows: nat, size: nat, batch: seq<R>, batchSize: nat, maxBytes: Option<nat>,
          bytes: seq<R> -> nat)
      returns (emitted: seq<seq<R>>, buffered': seq<seq<R>>, rows': nat, size': nat, ghost group: seq<seq<R>>)
    requires batchSize > 0 && Buffered(buffered, rows, batchSize) && |batch| <= batchSize
    requires size == Size(buffered, bytes) && Below(buffered, bytes, maxBytes)
    ensures Regrouped(buffered, emitted, group, buffered', size', batchSize, bytes, maxBytes)
    ensures Buffered(buffered', rows', batchSize) && Emitted(emitted, Concat(emitted), batchSize, maxBytes)
    ensures Concat(emitted) + Concat(buffered') == Concat(buffered) + batch
  {
    var rowsExceeded := |batch| + rows >= batchSize;
    var bytesExceeded := maxBytes.Some? && bytes(batch) + size >= maxBytes.value;
    if !rowsExceeded && !bytesExceeded {
      ConcatAppend(buffered, batch);
      KeptPiece(buffered, batch, bytes);
      return [], buffered + [batch], rows + |batch|, size + bytes(batch), [];
    }
    emitted, buffered', rows', size', group := EndGroup(buffered, rows, size, batch, batchSize, maxBytes, bytes);
  }

  /** The group of the buffered pieces ends, with as much of the batch as fills it up, if that much is there. */
  method EndGroup<R>(buffered: seq<seq<R>>, rows: nat, ghost size: nat, batch: seq<R>, batchSize: nat,
          ghost maxBytes: Option<nat>, bytes: seq<R> -> nat)
      returns (emitted: seq<seq<R>>, buffered': seq<seq<R>>, rows': nat, size': nat, ghost group: seq<seq<R>>)
    requires batchSize > 0 && Buffered(buffered, rows, batchSize) && |batch| <= batchSize
    requires size == Size(buffered, bytes) && Below(buffered, bytes, maxBytes)
    requires |batch| + rows >= batchSize || (maxBytes.Some? && bytes(batch) + size >= maxBytes.value)
    ensures Regrouped(buffered, emitted, group, buffered', size', batchSize, bytes, maxBytes)
    ensures Buffered(buffered', rows', batchSize) && Emitted(emitted, Concat(emitted), batchSize, maxBytes)
    ensures Concat(emitted) + Concat(buffered') == Concat(buffered) + batch
  {
    var rowsExceeded := |batch| + rows >= batchSize;
    var full, rest := buffered, batch;
    if rowsExceeded {
      var cut := batchSize - rows;
      ConcatAppend(buffered, batch[..cut]);
      full, rest := buffered + [batch[..cut]], batch[cut..];
    }
    emitted := if full != [] then Combine(full, batchSize) else [];
    OneTable(full, batchSize);
    OnePiece(rest, bytes);
    if rowsExceeded { FullGroup(buffered, full, rest, batchSize, bytes, maxBytes); }
    return emitted, [rest], |rest|, bytes(rest), full;
  }

  lemma KeptPiece<R>(buffered: seq<seq<R>>, batch: seq<R>, bytes: seq<R> -> nat)
    ensures Size(buffered + [batch], bytes) == Size(buffered, bytes) + bytes(batch)
    ensures buffered != [] ==> (buffered + [batch])[0] == buffered[0]
  {
    assert (buffered + [batch])[..|buffered|] == buffered;
  }

  /** A group that is full. */
  lemma FullGroup<R>(buffered: seq<seq<R>>, full: seq<seq<R>>, rest: seq<R>, batchSize: nat, bytes: seq<R> -> nat,
          maxBytes: Option<nat>)
    requires |full| == |buffered| + 1 && full[..|buffered|] == buffered && |Concat(full)| == batchSize
    requires Below(buffered, bytes, maxBytes)
    ensures IsGroup(full, batchSize, bytes, maxBytes) && Ends(full, rest, batchSize, bytes, maxBytes)
    ensures buffered != [] ==> full[0] == buffered[0]
  {
  }

  lemma OnePiece<R>(rest: seq<R>, bytes: seq<R> -> nat)
    ensures Size([rest], bytes) == bytes(rest) && Concat([rest]) == rest
  {
    assert [rest][1..] == [] && [rest][..0] == [];
  }

  lemma OneTable<R>(full: seq<seq<R>>, batchSize: nat)
    requires batchSize > 0 && |Concat(full)| <= batchSize
    ensures Combine(full, batchSize) == Table(full) && Concat(Table(full)) == Concat(full)
    ensures Table(full) == [] || Table(full) == [Concat(full)]
  {
    assert [Concat(full)][1..] == [];
  }

  /** What one batch of the reader does to the pieces: it joins them, or they end a group and it begins the next. */
  ghost predicate Regrouped<R>(buffered: seq<seq<R>>, emitted: seq<seq<R>>, group: seq<seq<R>>,
          buffered': seq<seq<R>>, size': nat, batchSize: nat, bytes: seq<R> -> nat, maxBytes: Option<nat>) {
    && size' == Size(buffered', bytes) && Below(buffered', bytes, maxBytes) && buffered' != []
    && emitted == Table(group)
    && (group == [] ==> buffered == [] || buffered'[0] == buffered[0])
    && (group != [] ==>
          && IsGroup(group, batchSize, bytes, maxBytes) && (buffered != [] ==> group[0] == buffered[0])
          && Ends(group, buffered'[0], batchSize, bytes, maxBytes))
  }

  lemma GroupMore<R>(out: seq<seq<R>>, gs: seq<seq<seq<R>>>, buffered: seq<seq<R>>, size: nat, emitted: seq<seq<R>>,
          group: seq<seq<R>>, buffered': seq<seq<R>>, size': nat, batchSize: nat, bytes: seq<R> -> nat,
          maxBytes: Option<nat>)
    requires Grouped(out, gs, buffered, size, batchSize, bytes, maxBytes)
    requires Regrouped(buffered, emitted, group, buffered', size', batchSize, bytes, maxBytes)
    ensures Grouped(out + emitted, if group == [] then gs else gs + [group], buffered', size', batchSize, bytes,
        maxBytes)
  {
    if group == [] {
      assert out + emitted == out;
    } else {
      AppendGroup(gs, group, batchSize, bytes, maxBytes);
    }
  }

  lemma AppendGroup<R>(gs: seq<seq<seq<R>>>, g: seq<seq<R>>, batchSize: nat, bytes: seq<R> -> nat,
          maxBytes: Option<nat>)
    requires AreGroups(gs, batchSize, bytes, maxBytes) && IsGroup(g, batchSize, bytes, maxBytes)
    requires gs != [] ==> EndsBefore(gs[|gs| - 1], g, batchSize, bytes, maxBytes)
    ensures AreGroups(gs + [g], batchSize, bytes, maxBytes) && Tables(gs + [g]) == Tables(gs) + Table(g)
  {
    AppendTable(gs, g);
    var all := gs + [g];
    forall i | 0 <= i < |all| ensures IsGroup(all[i], batchSize, bytes, maxBytes) {
      if i < |gs| { assert IsGroup(gs[i], batchSize, bytes, maxBytes); }
    }
    forall i, j | 0 <= i < j < |all| && j == i + 1 ensures EndsBefore(all[i], all[j], batchSize, bytes, maxBytes) {
      if j < |gs| { assert EndsBefore(gs[i], gs[j], batchSize, bytes, maxBytes); }
    }
  }

  lemma AppendTable<R>(gs: seq<seq<seq<R>>>, g: seq<seq<R>>)
    ensures Tables(gs + [g]) == Tables(gs) + Table(g)
  {
    assert (gs + [g])[..|gs|] == gs && (gs + [g])[|gs|] == g;
  }

  lemma GroupLast<R>(out: seq<seq<R>>, gs: seq<seq<seq<R>>>, buffered: seq<seq<R>>, rows: nat, size: nat,
          batchSize: nat, bytes: seq<R> -> nat, maxBytes: Option<nat>)
    requires Grouped(out, gs, buffered, size, batchSize, bytes, maxBytes) && Buffered(buffered, rows, batchSize)
    requires batchSize > 0
    ensures var all := if buffered == [] then gs else gs + [buffered];
      AreGroups(all, batchSize, bytes, maxBytes) && Tables(all) == out + ChunksOf(Concat(buffered), batchSize)
  {
    if buffered == [] {
      assert out + ChunksOf([], batchSize) == out;
    } else {
      assert IsGroup(buffered, batchSize, bytes, maxBytes) && ChunksOf(Concat(buffered), batchSize) == Table(buffered);
      AppendGroup(gs, buffered, batchSize, bytes, maxBytes);
    }
  }
}
