/** Streaming tasks: checkpoints, crashes and restores lose no batch and repeat none. */
module Streaming {
  import opened Sequences
  import opened WorkItems
  import opened Splitting
  import opened Rechunking

  /** An output file, named after the attempt that writes it. */
  datatype Path = Path(attempt: nat, idx: nat)

  /** Rows per batch, as a fresh attempt chooses it and a resumed attempt finds it in its checkpoint. */
  type BatchSize = n: nat | n > 0 witness 1

  /** A checkpoint as it travels through the completion queue: batch size, batch offsets and output files. */
  datatype Saved = Saved(size: BatchSize, offsets: Option<seq<int>>, paths: seq<Path>)

  // ---------------------------------------------------------------- the meaning

  /** Number of rounds of `zip_longest` over the inputs. */
  function MaxLength<T>(inputs: seq<seq<T>>): (n: nat)
    ensures forall i :: 0 <= i < |inputs| ==> |inputs[i]| <= n
  {
    if inputs == [] then 0 else
      var m := MaxLength(inputs[1..]);
      assert forall i :: 0 < i < |inputs| ==> inputs[i] == inputs[1..][i - 1];
      if m < |inputs[0]| then |inputs[0]| else m
  }

  /** Round j: one table per input, empty for the inputs that have ended. */
  function Tables<R>(inputs: seq<seq<seq<R>>>, j: nat): seq<seq<R>> {
    seq(|inputs|, i requires 0 <= i < |inputs| => if j < |inputs[i]| then inputs[i][j] else [])
  }

  /** The outputs of an uninterrupted run. */
  function Outputs<R>(inputs: seq<seq<seq<R>>>, process: seq<seq<R>> -> seq<R>): seq<seq<R>> {
    seq(MaxLength(inputs), j requires 0 <= j => process(Tables(inputs, j)))
  }

  function DropBatches<T>(inputs: seq<seq<T>>, o: nat): seq<seq<T>> {
    seq(|inputs|, i requires 0 <= i < |inputs| => if o <= |inputs[i]| then inputs[i][o..] else [])
  }

  lemma {:induction false} DropLength<T>(inputs: seq<seq<T>>, o: nat)
    ensures MaxLength(DropBatches(inputs, o)) == if o <= MaxLength(inputs) then MaxLength(inputs) - o else 0
  {
    if inputs != [] {
      DropLength(inputs[1..], o);
      assert DropBatches(inputs, o)[1..] == DropBatches(inputs[1..], o);
    }
  }

  /** Resuming after o rounds gives the outputs from round o on, also when the inputs have different numbers of
      batches. */
  lemma DropOutputs<R>(inputs: seq<seq<seq<R>>>, process: seq<seq<R>> -> seq<R>, o: nat)
    requires o <= MaxLength(inputs)
    ensures Outputs(DropBatches(inputs, o), process) == Outputs(inputs, process)[o..]
  {
    DropLength(inputs, o);
    var rest := DropBatches(inputs, o);
    forall j | 0 <= j < MaxLength(rest) ensures Tables(rest, j) == Tables(inputs, o + j) {}
  }

  // ---------------------------------------------------------------- batches of rows

  /** The batches of every input at one batch size. */
  function Readers<R>(rows: seq<seq<R>>, size: BatchSize): seq<seq<seq<R>>> {
    seq(|rows|, i requires 0 <= i < |rows| => ChunksOf(rows[i], size))
  }

  /** The outputs of an uninterrupted run with this batch size. */
  function RunAt<R>(rows: seq<seq<R>>, process: seq<seq<R>> -> seq<R>, size: BatchSize): seq<seq<R>> {
    Outputs(Readers(rows, size), process)
  }

  function Lesser(a: nat, b: nat): nat { if a < b then a else b }

  lemma {:induction false} ChunksCover<R>(rows: seq<R>, size: nat)
    requires size > 0
    ensures |rows| <= |ChunksOf(rows, size)| * size
    ensures rows == [] <==> ChunksOf(rows, size) == []
    decreases |rows|
  {
    if |rows| > size {
      ChunksCover(rows[size..], size);
      var n := |ChunksOf(rows[size..], size)|;
      assert ChunksOf(rows, size)[1..] == ChunksOf(rows[size..], size);
      assert (n + 1) * size == n * size + size;
    }
  }

  /** The first o batches are the first o * size rows, as far as there are rows. */
  lemma ChunksTake<R>(rows: seq<R>, size: nat, o: nat)
    requires size > 0 && o <= |ChunksOf(rows, size)|
    ensures Concat(ChunksOf(rows, size)[..o]) == rows[..Lesser(o * size, |rows|)]
    ensures Concat(ChunksOf(rows, size)[o..]) == rows[Lesser(o * size, |rows|)..]
  {
    var chunks := ChunksOf(rows, size);
    var rest: seq<R> := if o * size <= |rows| then rows[o * size..] else [];
    ChunksDrop(rows, size, o);
    ChunksConcat(rest, size);
    ChunksConcat(rows, size);
    assert chunks == chunks[..o] + chunks[o..];
    ConcatSplit(chunks[..o], chunks[o..]);
    assert Concat(chunks[o..]) == rest;
    assert rows == Concat(chunks[..o]) + rest;
    assert |Concat(chunks[..o])| == |rows| - |rest|;
  }

  /** Why the batch size travels with the checkpoint: after o batches of one size, going on after o batches of another
      size reads every row once exactly when both have come equally far. */
  lemma MixedSizes<R>(rows: seq<R>, size: nat, other: nat, o: nat)
    requires size > 0 && other > 0 && o <= |ChunksOf(rows, size)| && o <= |ChunksOf(rows, other)|
    ensures Concat(ChunksOf(rows, size)[..o]) + Concat(ChunksOf(rows, other)[o..]) == rows
            <==> Lesser(o * size, |rows|) == Lesser(o * other, |rows|)
  {
    ChunksTake(rows, size, o);
    ChunksTake(rows, other, o);
    var a, b := Lesser(o * size, |rows|), Lesser(o * other, |rows|);
    assert |rows[..a] + rows[b..]| == a + |rows| - b;
  }

  // ---------------------------------------------------------------- saved states

  /** The rows of the listed files, in order. */
  ghost function Rows<R>(files: map<Path, seq<R>>, paths: seq<Path>): seq<R>
    requires forall q :: q in paths ==> q in files
  {
    if paths == [] then [] else
      assert forall q :: q in paths[1..] ==> q in paths;
      files[paths[0]] + Rows(files, paths[1..])
  }

  /** Offsets that say: o rounds of n inputs are done. */
  ghost predicate OffsetsAre(offsets: Option<seq<int>>, n: nat, o: nat) {
    (offsets.None? && o == 0) || (offsets.Some? && offsets.value == seq(n, _ => o as int))
  }

  /** The rounds below n in which a checkpoint is due, in order. */
  function DueRounds(due: nat -> bool, n: nat): seq<nat> {
    if n == 0 then [] else DueRounds(due, n - 1) + if due(n - 1) then [n - 1] else []
  }

  /** The saved state counts this many rounds of every input. */
  ghost predicate Counts(s: Saved, inputs: nat, rounds: nat) { s.offsets == Some(seq(inputs, _ => rounds)) }

  ghost predicate SentFor(before: seq<Saved>, saved: seq<Saved>, inputs: nat, rounds: seq<nat>, o: nat) {
    && |saved| == |before| + |rounds| && before <= saved
    && forall k :: 0 <= k < |rounds| ==> Counts(saved[|before| + k], inputs, o + rounds[k] + 1)
  }

  /** In n rounds after o earlier ones exactly one checkpoint was sent for each round in which one was due, in order,
      and each counts the rounds up to its own. A task without inputs has none to count. */
  ghost predicate Sends(before: seq<Saved>, saved: seq<Saved>, inputs: nat, due: nat -> bool, o: nat, n: nat) {
    SentFor(before, saved, inputs, if inputs > 0 then DueRounds(due, n) else [], o)
  }

  /** No checkpoint is due in the rounds from m to n. */
  lemma {:induction false} NoneDue(due: nat -> bool, m: nat, n: nat)
    requires m <= n && forall i :: m <= i < n ==> !due(i)
    ensures DueRounds(due, n) == DueRounds(due, m)
  {
    if m < n { NoneDue(due, m, n - 1); }
  }

  lemma SendsNone(before: seq<Saved>, saved: seq<Saved>, inputs: nat, due: nat -> bool, o: nat, m: nat, n: nat)
    requires inputs > 0 && Sends(before, saved, inputs, due, o, m) && m <= n && forall i :: m <= i < n ==> !due(i)
    ensures Sends(before, saved, inputs, due, o, n)
  {
    NoneDue(due, m, n);
  }

  lemma SentOneMore(before: seq<Saved>, saved: seq<Saved>, s: Saved, inputs: nat, rounds: seq<nat>, r: nat, o: nat)
    requires SentFor(before, saved, inputs, rounds, o) && Counts(s, inputs, o + r + 1)
    ensures SentFor(before, saved + [s], inputs, rounds + [r], o)
  {
    var more, all := rounds + [r], saved + [s];
    forall k | 0 <= k < |more| ensures Counts(all[|before| + k], inputs, o + more[k] + 1) {
      if k < |rounds| { assert Counts(saved[|before| + k], inputs, o + rounds[k] + 1); }
    }
  }

  lemma SendsOne(before: seq<Saved>, saved: seq<Saved>, s: Saved, inputs: nat, due: nat -> bool, o: nat, n: nat)
    requires inputs > 0 && Sends(before, saved, inputs, due, o, n) && due(n) && Counts(s, inputs, o + n + 1)
    ensures Sends(before, saved + [s], inputs, due, o, n + 1)
  {
    assert DueRounds(due, n + 1) == DueRounds(due, n) + [n];
    SentOneMore(before, saved, s, inputs, DueRounds(due, n), n, o);
  }

  /** The first crash at one of the points up to n; -1 when there is none. */
  function FirstCrash(crash: nat -> bool, n: nat): (c: int)
    ensures c == -1 ==> forall i :: 0 <= i <= n ==> !crash(i)
    ensures c != -1 ==> 0 <= c <= n && crash(c) && forall i :: 0 <= i < c ==> !crash(i)
  {
    if n == 0 then (if crash(0) then 0 else -1) else
      var c := FirstCrash(crash, n - 1);
      if c >= 0 then c else if crash(n) then n else -1
  }

  /** How many of n outputs an attempt takes: point 0 is before the first one is asked for, point i + 1 before output i
      is taken, and the point after the last output is the end. */
  function Taken(crash: nat -> bool, n: nat): (taken: nat)
    ensures taken <= n
  {
    var c := FirstCrash(crash, LastPoint(n));
    if c == -1 then n else if c == 0 then 0 else c - 1
  }

  function LastPoint(n: nat): nat { if n == 0 then 0 else n + 1 }

  ghost predicate Distinct(paths: seq<Path>) { forall i, j :: 0 <= i < j < |paths| ==> paths[i] != paths[j] }

  /** Files and offsets agree: the files hold the outputs of the first o rounds and nothing else. */
  ghost predicate Exact<R>(files: map<Path, seq<R>>, s: Saved, n: nat, outs: seq<seq<R>>, o: nat) {
    && o <= |outs| && OffsetsAre(s.offsets, n, o)
    && Distinct(s.paths) && (forall q :: q in s.paths ==> q in files)
    && Rows(files, s.paths) == Concat(outs[..o])
  }

  ghost predicate Good<R>(files: map<Path, seq<R>>, s: Saved, n: nat, outs: seq<seq<R>>) {
    exists o :: Exact(files, s, n, outs, o)
  }

  lemma {:induction false} RowsAppend<R>(files: map<Path, seq<R>>, paths: seq<Path>, q: Path)
    requires (forall r :: r in paths ==> r in files) && q in files
    ensures Rows(files, paths + [q]) == Rows(files, paths) + files[q]
  {
    if paths == [] {
      assert paths + [q] == [q] && [q][1..] == [];
    } else {
      assert (paths + [q])[1..] == paths[1..] + [q] && forall r :: r in paths[1..] ==> r in paths;
      RowsAppend(files, paths[1..], q);
    }
  }

  lemma {:induction false} RowsFrame<R>(files: map<Path, seq<R>>, files': map<Path, seq<R>>, paths: seq<Path>)
    requires forall q :: q in paths ==> q in files && q in files' && files[q] == files'[q]
    ensures Rows(files, paths) == Rows(files', paths)
  {
    if paths != [] {
      assert forall q :: q in paths[1..] ==> q in paths;
      RowsFrame(files, files', paths[1..]);
    }
  }

  /** A saved state stays good while its files stay as they are. */
  lemma GoodKept<R>(files: map<Path, seq<R>>, files': map<Path, seq<R>>, s: Saved, n: nat, outs: seq<seq<R>>)
    requires Good(files, s, n, outs)
    requires forall q :: q in s.paths && q in files ==> q in files' && files'[q] == files[q]
    ensures Good(files', s, n, outs)
  {
    var o :| Exact(files, s, n, outs, o);
    RowsFrame(files, files', s.paths);
    assert Exact(files', s, n, outs, o);
  }

  /** Files of other attempts than a are untouched. */
  ghost predicate OthersKept<R>(files: map<Path, seq<R>>, files': map<Path, seq<R>>, a: nat) {
    forall q: Path {:trigger Untouched(files, files', q)} :: q.attempt != a ==> Untouched(files, files', q)
  }

  ghost predicate Untouched<R>(files: map<Path, seq<R>>, files': map<Path, seq<R>>, q: Path) {
    (q in files <==> q in files') && (q in files ==> files'[q] == files[q])
  }

  lemma TouchedKeeps<R>(files0: map<Path, seq<R>>, files: map<Path, seq<R>>, files': map<Path, seq<R>>, q: Path)
    requires OthersKept(files0, files, q.attempt) && Touched(files, files', q)
    ensures OthersKept(files0, files', q.attempt)
  {
    forall r: Path | r.attempt != q.attempt ensures Untouched(files0, files', r) { assert Untouched(files0, files, r); }
  }

  /** Only the file at q changed, or was created. */
  ghost predicate Touched<R>(files: map<Path, seq<R>>, files': map<Path, seq<R>>, q: Path) {
    q in files' && files' == files[q := files'[q]]
  }

  /** From position i on, the paths are of attempt a. */
  ghost predicate OwnFrom(paths: seq<Path>, i: nat, a: nat) {
    forall k :: i <= k < |paths| ==> paths[k].attempt == a
  }

  /** Every saved state is good, was taken with this batch size, and lists a prefix of `paths`. */
  ghost predicate SavedFrom<R>(files: map<Path, seq<R>>, saved: seq<Saved>, size: BatchSize, paths: seq<Path>, n: nat,
          outs: seq<seq<R>>) {
    forall s :: s in saved ==> Good(files, s, n, outs) && s.size == size && s.paths <= paths
  }

  lemma SavedKept<R>(files: map<Path, seq<R>>, files': map<Path, seq<R>>, saved: seq<Saved>, size: BatchSize,
          paths: seq<Path>, paths': seq<Path>, n: nat, outs: seq<seq<R>>)
    requires SavedFrom(files, saved, size, paths, n, outs) && paths <= paths'
    requires forall q :: q in paths && q in files ==> q in files' && files'[q] == files[q]
    ensures SavedFrom(files', saved, size, paths', n, outs)
  {
    forall s | s in saved ensures Good(files', s, n, outs) && s.size == size && s.paths <= paths' {
      GoodKept(files, files', s, n, outs);
    }
  }
}
