/** One attempt of a batch streaming task, and a job of many attempts. */
module StreamTask {
  import opened Sequences
  import opened WorkItems
  import opened Splitting
  import opened Streaming
  import opened Rechunking

  /** What the attempts share: the output files and the checkpoints that reached the scheduler. */
  class Store<R> {
    var files: map<Path, seq<R>>
    var saved: seq<Saved>

    constructor ()
      ensures files == map[] && saved == []
    {
      files := map[];
      saved := [];
    }

    method Write(q: Path, rows: seq<R>)
      requires q in files
      modifies `files
      ensures files == old(files)[q := old(files)[q] + rows]
    {
      files := files[q := files[q] + rows];
    }
  }

  class ArrowBatchTask<R> {
    const attempt: nat
    const store: Store<R>
    const inputCount: nat
    const rowGroupSize: nat
    const batchSize: BatchSize
    var lastBatchIndices: Option<seq<int>>
    var inputBatchOffsets: Option<seq<int>>
    var outputPaths: seq<Path>

    constructor (attempt: nat, store: Store<R>, inputCount: nat, rowGroupSize: nat, from: Saved)
      ensures this.attempt == attempt && this.store == store && this.inputCount == inputCount
          && this.rowGroupSize == rowGroupSize
      ensures batchSize == from.size && lastBatchIndices == None && inputBatchOffsets == from.offsets
          && outputPaths == from.paths
    {
      this.attempt := attempt;
      this.store := store;
      this.inputCount := inputCount;
      this.rowGroupSize := rowGroupSize;
      batchSize := from.size;
      lastBatchIndices := None;
      inputBatchOffsets := from.offsets;
      outputPaths := from.paths;
    }

    function State(): Saved
      reads this
    {
      Saved(batchSize, inputBatchOffsets, outputPaths)
    }

    /** `update_batch_offsets`. */
    method UpdateBatchOffsets(indices: seq<int>)
      requires lastBatchIndices.Some? ==> |lastBatchIndices.value| == |indices|
      requires inputBatchOffsets.Some? ==> |inputBatchOffsets.value| == |indices|
      modifies this`lastBatchIndices, this`inputBatchOffsets
      ensures lastBatchIndices == Some(indices)
      ensures inputBatchOffsets.Some? && |inputBatchOffsets.value| == |indices|
      ensures forall i :: 0 <= i < |indices| ==>
                var before := if old(inputBatchOffsets).Some? then old(inputBatchOffsets).value[i] else 0;
                var last := if old(lastBatchIndices).Some? then old(lastBatchIndices).value[i] else -1;
                inputBatchOffsets.value[i] == before + indices[i] - last
    {
      if lastBatchIndices.None? { lastBatchIndices := Some(seq(|indices|, _ => -1)); }
      if inputBatchOffsets.None? { inputBatchOffsets := Some(seq(|indices|, _ => 0)); }
      var offsets, last := inputBatchOffsets.value, lastBatchIndices.value;
      inputBatchOffsets := Some(seq(|indices|, i requires 0 <= i < |indices| => offsets[i] + indices[i] - last[i]));
      lastBatchIndices := Some(indices);
    }

    /** `restore_input_state`: skip the batches that are done. The loop variable of the source is unbound until some
        reader yields a batch; reading it then is an error, and so is the final assertion. */
    method RestoreInputState(readers: seq<seq<seq<R>>>) returns (ok: bool, rest: seq<seq<seq<R>>>)
      requires inputBatchOffsets.Some? && |inputBatchOffsets.value| == |readers|
      ensures ok ==> |rest| == |readers|
      ensures forall o: nat :: OffsetsAre(inputBatchOffsets, |readers|, o) ==>
        (ok <==> o == 0 || readers == [] || readers[0] != []) && (ok ==> rest == DropBatches(readers, o))
    {
      var batchIndex: Option<nat> := None;
      var offsets := inputBatchOffsets.value;
      var i := 0;
      ok, rest := true, [];
      while i < |readers|
        invariant i <= |readers| && |rest| == i
        invariant forall o: nat {:trigger OffsetsAre(inputBatchOffsets, |readers|, o)} :: OffsetsAre(inputBatchOffsets,
            |readers|, o) ==>
          && (forall k :: 0 <= k < i ==> rest[k] == if o <= |readers[k]| then readers[k][o..] else [])
          && (batchIndex.Some? ==> 0 <= batchIndex.value < o)
          && (batchIndex.Some? <==> 0 < i && 0 < o)
          && (0 < i && 0 < o ==> readers[0] != [])
      {
        var skip: nat := 0;
        ghost var before := batchIndex;
        if offsets[i] > 0 {
          while skip < |readers[i]| && skip != offsets[i]
            invariant skip <= |readers[i]| && skip <= offsets[i]
            invariant if skip == 0 then batchIndex == before else batchIndex == Some(skip - 1)
          {
            batchIndex := Some(skip);
            skip := skip + 1;
          }
          if batchIndex.None? || batchIndex.value + 1 > offsets[i] {
            ok := false;
            return;
          }
        }
        rest := rest + [readers[i][skip..]];
        i := i + 1;
      }
    }

    /** Offsets after `done` rounds of this attempt, which resumed after o rounds; `done` counts up to the last
        checkpoint. */
    ghost predicate Aligned(o: nat, done: nat)
      reads this
    {
      || (lastBatchIndices.None? && done == 0 && OffsetsAre(inputBatchOffsets, inputCount, o))
      || (lastBatchIndices == Some(seq(inputCount, _ => done as int - 1))
          && inputBatchOffsets == Some(seq(inputCount, _ => o + done as int)))
    }

    /** The first `count` files of this attempt exist, and the listed paths have no repetition. */
    ghost predicate Listed(count: nat)
      reads this, store
    {
      && (forall q :: q in store.files && q.attempt == attempt ==> q.idx < count)
      && (forall q :: q in outputPaths && q.attempt == attempt ==> q.idx < count)
      && (forall q :: q in store.files && q.attempt == attempt ==> q in outputPaths)
      && (forall q :: q in outputPaths ==> q in store.files)
      && Distinct(outputPaths)
    }

    method AdvanceOffsets(ghost o: nat, ghost done: nat, next: nat)
      requires Aligned(o, done) && done <= next
      modifies this`lastBatchIndices, this`inputBatchOffsets
      ensures Aligned(o, next + 1)
    {
      UpdateBatchOffsets(seq(inputCount, _ => next as int));
      assert lastBatchIndices.value == seq(inputCount, _ => next as int);
      assert inputBatchOffsets.value == seq(inputCount, _ => o + next + 1 as int);
    }

    /** The state after `done` rounds of this attempt, between two files: files and offsets agree. */
    ghost predicate Between(outs: seq<seq<R>>, o: nat, done: nat, idx: nat)
      reads this, store
    {
      Listed(idx) && o + done <= |outs| && Rows(store.files, outputPaths) == Concat(outs[..o + done])
    }

    /** `dump_output`: write the outputs to files, closing a file and pushing a checkpoint whenever one is due.
        `due` and `crash` are the choices of the environment, by number of outputs taken so far. */
    method DumpOutput(outputs: seq<seq<R>>, due: nat -> bool, crash: nat -> bool, ghost outs: seq<seq<R>>, ghost o: nat)
        returns (finished: bool)
      requires Exact(store.files, State(), inputCount, outs, o) && outputs == outs[o..]
      requires lastBatchIndices == None && Listed(0)
      modifies this`lastBatchIndices, this`inputBatchOffsets, this`outputPaths, store
      ensures Since(old(store.files), old(store.saved), old(outputPaths), outs)
      ensures finished ==> (exists count :: Listed(count)) && Rows(store.files, outputPaths) == Concat(outs)
      ensures finished <==> FirstCrash(crash, LastPoint(|outputs|)) == -1
      ensures Sends(old(store.saved), store.saved, inputCount, due, o, Taken(crash, |outputs|))
    {
      assert outs[..|outs|] == outs;
      assert forall q :: Untouched(store.files, store.files, q);
      assert store.saved[|store.saved|..] == [];
      if crash(0) { return false; }
      if outputs == [] { return true; }
      finished := DumpFiles(outputs, due, crash, outs, o);
    }

    method DumpFiles(outputs: seq<seq<R>>, due: nat -> bool, crash: nat -> bool, ghost outs: seq<seq<R>>, ghost o: nat)
        returns (finished: bool)
      requires Exact(store.files, State(), inputCount, outs, o) && outputs == outs[o..] && outputs != [] && !crash(0)
      requires lastBatchIndices == None && Listed(0)
      requires Since(store.files, store.saved, outputPaths, outs)
      modifies this`lastBatchIndices, this`inputBatchOffsets, this`outputPaths, store
      ensures Since(old(store.files), old(store.saved), old(outputPaths), outs)
      ensures finished ==> (exists count :: Listed(count)) && Rows(store.files, outputPaths) == Concat(outs)
      ensures finished <==> FirstCrash(crash, LastPoint(|outputs|)) == -1
      ensures Sends(old(store.saved), store.saved, inputCount, due, o, Taken(crash, |outputs|))
    {
      ghost var saved0 := store.saved;
      var next, exhausted, crashed, idx := DumpAll(outputs, due, crash, outs, o);
      finished := !crashed;
      if finished { AllWritten(outs, o, next, idx, exhausted); }
      Ended(saved0, store.saved, due, crash, o, next, exhausted, crashed, |outputs|);
    }

    /** The loop over the files. */
    method DumpAll(outputs: seq<seq<R>>, due: nat -> bool, crash: nat -> bool, ghost outs: seq<seq<R>>, ghost o: nat)
        returns (next: nat, exhausted: bool, crashed: bool, ghost idx: nat)
      requires Ready(outs, o, 0, 0, false) && outputs == outs[o..] && !crash(0)
      requires Since(store.files, store.saved, outputPaths, outs)
      modifies this`lastBatchIndices, this`inputBatchOffsets, this`outputPaths, store
      ensures Since(old(store.files), old(store.saved), old(outputPaths), outs)
      ensures Sent(old(store.saved), store.saved, due, crash, o, next, exhausted, crashed)
      ensures next <= |outputs| && (exhausted || crashed) && (exhausted ==> next == |outputs|)
      ensures crashed || Ready(outs, o, next, idx, exhausted)
    {
      ghost var files0, saved0, paths0 := store.files, store.saved, outputPaths;
      var file := 0;
      next, exhausted, crashed, idx := 0, false, false, 0;
      while !exhausted && !crashed
        invariant next <= |outputs| && Since(files0, saved0, paths0, outs)
        invariant Sent(saved0, store.saved, due, crash, o, next, exhausted, crashed)
        invariant file == idx && (crashed || Ready(outs, o, next, idx, exhausted))
        invariant exhausted ==> next == |outputs|
        decreases |outputs| - next, if exhausted || crashed then 0 else 1
      {
        next, exhausted, crashed := DumpOne(outputs, next, file, due, crash, outs, o, files0, saved0, paths0);
        file, idx := file + 1, idx + 1;
      }
    }

    /** Every output is in the listed files. */
    lemma AllWritten(outs: seq<seq<R>>, o: nat, next: nat, idx: nat, exhausted: bool)
      requires Ready(outs, o, next, idx, exhausted) && o + next == |outs|
      ensures (exists count :: Listed(count)) && Rows(store.files, outputPaths) == Concat(outs)
    {
      assert outs[..|outs|] == outs;
    }

    /** Between two files, or after the last. */
    ghost predicate Ready(outs: seq<seq<R>>, o: nat, next: nat, idx: nat, exhausted: bool)
      reads this, store
    {
      Between(outs, o, next, idx) && (exhausted || Aligned(o, next))
    }

    method DumpOne(outputs: seq<seq<R>>, start: nat, idx: nat, due: nat -> bool, crash: nat -> bool,
            ghost outs: seq<seq<R>>, ghost o: nat,
            ghost files0: map<Path, seq<R>>, ghost saved0: seq<Saved>, ghost paths0: seq<Path>)
        returns (next: nat, exhausted: bool, crashed: bool)
      requires start <= |outputs| && Ready(outs, o, start, idx, false) && outputs == outs[o..]
      requires Since(files0, saved0, paths0, outs) && Sent(saved0, store.saved, due, crash, o, start, false, false)
      modifies this`lastBatchIndices, this`inputBatchOffsets, this`outputPaths, store
      ensures start <= next <= |outputs| && (exhausted ==> next == |outputs|)
          && (!exhausted && !crashed ==> start < next)
      ensures Since(files0, saved0, paths0, outs)
      ensures Sent(saved0, store.saved, due, crash, o, next, exhausted, crashed)
      ensures crashed || Ready(outs, o, next, idx + 1, exhausted)
    {
      ghost var saved := store.saved;
      next, exhausted, crashed := DumpFile(outputs, start, idx, due, crash, outs, o, files0, saved0, paths0);
      SentMore(saved0, saved, store.saved, due, crash, o, start, next, exhausted, crashed);
    }

    /** Where the loop over the files ends. */
    lemma Ended(saved0: seq<Saved>, saved: seq<Saved>, due: nat -> bool, crash: nat -> bool, o: nat, next: nat,
            exhausted: bool, crashed: bool, n: nat)
      requires Sent(saved0, saved, due, crash, o, next, exhausted, crashed) && next <= n && n > 0
      requires (exhausted || crashed) && (exhausted ==> next == n)
      ensures Taken(crash, n) == next && (!crashed <==> FirstCrash(crash, LastPoint(n)) == -1)
    {
    }

    /** All checkpoints that are due have been sent, and no crash has been passed over. */
    ghost predicate Sent(saved0: seq<Saved>, saved: seq<Saved>, due: nat -> bool, crash: nat -> bool, o: nat, next: nat,
            exhausted: bool, crashed: bool) {
      && Sends(saved0, saved, inputCount, due, o, next)
      && (forall i :: 0 <= i <= next ==> !crash(i))
      && (if crashed then crash(next + 1) && !exhausted else exhausted ==> !crash(next + 1))
    }

    /** One more file: a checkpoint is sent exactly when the file ends because one is due. */
    lemma SentMore(saved0: seq<Saved>, saved: seq<Saved>, saved': seq<Saved>, due: nat -> bool, crash: nat -> bool,
            o: nat, start: nat, next: nat, exhausted: bool, crashed: bool)
      requires Sent(saved0, saved, due, crash, o, start, false, false) && start <= next
      requires Took(start, next, exhausted, crashed, due, crash)
      requires saved' == if exhausted || crashed then saved else saved + [State()]
      requires !exhausted && !crashed ==> Counts(State(), inputCount, o + (next - 1) + 1)
      ensures Sent(saved0, saved', due, crash, o, next, exhausted, crashed)
    {
      SendsMore(saved0, saved, due, o, start, next, exhausted || crashed);
    }

    lemma SendsMore(saved0: seq<Saved>, saved: seq<Saved>, due: nat -> bool, o: nat, start: nat, next: nat, last: bool)
      requires Sends(saved0, saved, inputCount, due, o, start) && start <= next
      requires forall i :: start <= i < next && (i < next - 1 || last) ==> !IsDue(due, i)
      requires !last ==> start < next && IsDue(due, next - 1) && Counts(State(), inputCount, o + (next - 1) + 1)
      ensures Sends(saved0, if last then saved else saved + [State()], inputCount, due, o, next)
    {
      if last {
        QuietIsKept(saved0, saved, due, o, start, next);
      } else {
        QuietIsKept(saved0, saved, due, o, start, next - 1);
        LastIsSent(saved0, saved, due, o, next - 1);
      }
    }

    lemma QuietIsKept(saved0: seq<Saved>, saved: seq<Saved>, due: nat -> bool, o: nat, m: nat, n: nat)
      requires Sends(saved0, saved, inputCount, due, o, m) && m <= n && forall i :: m <= i < n ==> !IsDue(due, i)
      ensures Sends(saved0, saved, inputCount, due, o, n)
    {
      if inputCount > 0 {
        forall i | m <= i < n ensures !due(i) { assert !IsDue(due, i); }
        SendsNone(saved0, saved, inputCount, due, o, m, n);
      }
    }

    lemma LastIsSent(saved0: seq<Saved>, saved: seq<Saved>, due: nat -> bool, o: nat, n: nat)
      requires inputCount > 0 && Sends(saved0, saved, inputCount, due, o, n) && IsDue(due, n)
      requires Counts(State(), inputCount, o + n + 1)
      ensures Sends(saved0, saved + [State()], inputCount, due, o, n + 1)
    {
      SendsOne(saved0, saved, State(), inputCount, due, o, n);
    }

    /** What has happened since this attempt began: only its own files were written, its paths were appended,
        and every checkpoint it pushed is good. */
    ghost predicate Since(files0: map<Path, seq<R>>, saved0: seq<Saved>, paths0: seq<Path>, outs: seq<seq<R>>)
      reads this, store
    {
      && OthersKept(files0, store.files, attempt)
      && paths0 <= outputPaths && OwnFrom(outputPaths, |paths0|, attempt)
      && saved0 <= store.saved && SavedFrom(store.files, store.saved[|saved0|..], batchSize, outputPaths, inputCount,
          outs)
    }

    /** One pass of the file loop: write a file and push a checkpoint unless the outputs have ended. */
    method DumpFile(outputs: seq<seq<R>>, start: nat, idx: nat, due: nat -> bool, crash: nat -> bool,
            ghost outs: seq<seq<R>>, ghost o: nat,
                    ghost files0: map<Path, seq<R>>, ghost saved0: seq<Saved>, ghost paths0: seq<Path>)
        returns (next: nat, exhausted: bool, crashed: bool)
      requires start <= |outputs| && Between(outs, o, start, idx) && Aligned(o, start) && outputs == outs[o..]
      requires Since(files0, saved0, paths0, outs)
      modifies this`lastBatchIndices, this`inputBatchOffsets, this`outputPaths, store
      ensures start <= next <= |outputs| && (exhausted ==> next == |outputs|)
          && (!exhausted && !crashed ==> start < next)
      ensures Since(files0, saved0, paths0, outs)
      ensures !crashed ==> Between(outs, o, next, idx + 1) && (!exhausted ==> Aligned(o, next))
      ensures Took(start, next, exhausted, crashed, due, crash)
      ensures !exhausted && !crashed ==> Counts(State(), inputCount, o + next)
      ensures store.saved == if exhausted || crashed then old(store.saved) else old(store.saved) + [State()]
    {
      ghost var files, paths, saved := store.files, outputPaths, store.saved;
      next, exhausted, crashed := WriteFile(outputs, start, idx, due, crash, outs, o);
      TouchedKeeps(files0, files, store.files, Path(attempt, idx));
      SavedKept(files, store.files, saved[|saved0|..], batchSize, paths, outputPaths, inputCount, outs);
      if !exhausted && !crashed {
        assert Exact(store.files, State(), inputCount, outs, o + next);
        store.saved := store.saved + [State()];
        assert store.saved[|saved0|..] == saved[|saved0|..] + [State()];
      }
    }

    /** One output file: take outputs until a checkpoint is due or no output is left, then flush the buffer. */
    method WriteFile(outputs: seq<seq<R>>, start: nat, idx: nat, due: nat -> bool, crash: nat -> bool,
                     ghost outs: seq<seq<R>>, ghost o: nat) returns (next: nat, exhausted: bool, crashed: bool)
      requires start <= |outputs| && Between(outs, o, start, idx) && Aligned(o, start) && outputs == outs[o..]
      modifies this`lastBatchIndices, this`inputBatchOffsets, this`outputPaths, store`files
      ensures start <= next <= |outputs| && (exhausted ==> next == |outputs|)
          && (!exhausted && !crashed ==> start < next)
      ensures Touched(old(store.files), store.files, Path(attempt, idx))
      ensures outputPaths == if crashed then old(outputPaths) else old(outputPaths) + [Path(attempt, idx)]
      ensures !crashed ==> Between(outs, o, next, idx + 1) && (!exhausted ==> Aligned(o, next))
      ensures Took(start, next, exhausted, crashed, due, crash)
    {
      var path := Path(attempt, idx);
      ghost var files := store.files;
      store.files := store.files[path := []];
      var buffered;
      next, exhausted, crashed, buffered := TakeOutputs(outputs, start, path, due, crash, outs, o);
      if !crashed { CloseFile(path, buffered, files, Concat(outs[..o + start])); }
    }

    method CloseFile(path: Path, buffered: seq<R>, ghost files: map<Path, seq<R>>, ghost done: seq<R>)
      requires path.attempt == attempt && Touched(files, store.files, path)
      requires path !in files && path !in outputPaths && (forall q :: q in outputPaths ==> q in files)
          && Rows(files, outputPaths) == done
      modifies this`outputPaths, store`files
      ensures Touched(files, store.files, path) && outputPaths == old(outputPaths) + [path]
      ensures forall q :: q in outputPaths ==> q in store.files
      ensures Rows(store.files, outputPaths) == done + old(store.files[path]) + buffered
    {
      store.Write(path, buffered);
      RowsFrame(files, store.files, outputPaths);
      RowsAppend(store.files, outputPaths, path);
      outputPaths := outputPaths + [path];
    }

    /** Periodic checkpoints need inputs whose batches can be counted. */
    predicate IsDue(due: nat -> bool, i: nat) { inputCount > 0 && due(i) }

    /** Where a file ends: after the first output in which a checkpoint is due, after the last output, or in the first
        crash. */
    ghost predicate Took(start: nat, next: nat, exhausted: bool, crashed: bool, due: nat -> bool, crash: nat -> bool) {
      && (forall i :: start <= i < next && (i < next - 1 || exhausted || crashed) ==> !IsDue(due, i))
      && (!exhausted && !crashed ==> start < next && IsDue(due, next - 1))
      && (forall i :: start < i <= next ==> !crash(i))
      && (if crashed then crash(next + 1) && !exhausted else exhausted ==> !crash(next + 1))
    }

    ghost predicate Taking(start: nat, next: nat, create: bool, exhausted: bool, due: nat -> bool, crash: nat -> bool) {
      && (forall i :: start <= i < (if create then next - 1 else next) ==> !IsDue(due, i))
      && (create ==> start < next && !exhausted && IsDue(due, next - 1))
      && (forall i :: start < i <= (if exhausted then next + 1 else next) ==> !crash(i))
    }

    /** Buffer the outputs and write full row groups. */
    method TakeOutputs(outputs: seq<seq<R>>, start: nat, path: Path, due: nat -> bool, crash: nat -> bool,
                       ghost outs: seq<seq<R>>, ghost o: nat)
        returns (next: nat, exhausted: bool, crashed: bool, buffered: seq<R>)
      requires start <= |outputs| && o <= |outs| && outputs == outs[o..] && Aligned(o, start)
      requires path in store.files && store.files[path] == []
      modifies this`lastBatchIndices, this`inputBatchOffsets, store`files
      ensures start <= next <= |outputs| && (exhausted ==> next == |outputs|)
          && (!exhausted && !crashed ==> start < next)
      ensures Touched(old(store.files), store.files, path)
      ensures !crashed ==> Concat(outs[..o + next]) == Concat(outs[..o + start]) + store.files[path] + buffered
      ensures !crashed && !exhausted ==> Aligned(o, next)
      ensures Took(start, next, exhausted, crashed, due, crash)
    {
      buffered := [];
      var create := false;
      next, exhausted := start, false;
      while !create && !exhausted
        invariant start <= next <= |outputs| && (exhausted ==> next == |outputs|)
        invariant Taking(start, next, create, exhausted, due, crash)
        invariant Aligned(o, if create then next else start)
        invariant Touched(old(store.files), store.files, path)
        invariant Holding(outs, o, start, next, path, buffered)
        decreases |outputs| - next, if exhausted then 0 else 1
      {
        if crash(next + 1) { return next, false, true, []; }
        if next == |outputs| {
          exhausted := true;
        } else {
          buffered, create := TakeOne(outputs, start, next, path, buffered, due, outs, o);
          next := next + 1;
        }
      }
      crashed := false;
    }

    /** The file and the buffer hold the outputs from `start` to `next`. */
    ghost predicate Holding(outs: seq<seq<R>>, o: nat, start: nat, next: nat, path: Path, buffered: seq<R>)
      reads this, store
    {
      && start <= next && o + next <= |outs| && path in store.files
      && Concat(outs[..o + next]) == Concat(outs[..o + start]) + store.files[path] + buffered
    }

    method TakeOne(outputs: seq<seq<R>>, start: nat, next: nat, path: Path, buffered: seq<R>, due: nat -> bool,
            ghost outs: seq<seq<R>>, ghost o: nat) returns (buffered': seq<R>, create: bool)
      requires next < |outputs| && o <= |outs| && outputs == outs[o..] && Aligned(o, start)
      requires Holding(outs, o, start, next, path, buffered)
      modifies this`lastBatchIndices, this`inputBatchOffsets, store`files
      ensures Touched(old(store.files), store.files, path) && Holding(outs, o, start, next + 1, path, buffered')
      ensures create == IsDue(due, next) && Aligned(o, if create then next + 1 else start)
    {
      buffered' := BufferNext(outputs, start, next, path, buffered, outs, o);
      create := inputCount > 0 && due(next);
      if create { AdvanceOffsets(o, start, next); }
    }

    method BufferNext(outputs: seq<seq<R>>, ghost start: nat, next: nat, path: Path, buffered: seq<R>,
            ghost outs: seq<seq<R>>, ghost o: nat) returns (buffered': seq<R>)
      requires next < |outputs| && o <= |outs| && outputs == outs[o..]
      requires Holding(outs, o, start, next, path, buffered)
      modifies store`files
      ensures Touched(old(store.files), store.files, path) && Holding(outs, o, start, next + 1, path, buffered')
    {
      ConcatTake(outs, o + next);
      Appended(Concat(outs[..o + start]), store.files[path], buffered, outputs[next]);
      buffered' := BufferOutput(path, buffered, outputs[next]);
    }

    lemma Appended(done: seq<R>, file: seq<R>, buffered: seq<R>, output: seq<R>)
      ensures done + file + buffered + output == done + file + (buffered + output)
      ensures done + file + buffered + output == done + (file + buffered) + output
    {
    }

    /** The output joins the buffer, unless that would fill a row group: then the buffer is written first. */
    method BufferOutput(path: Path, buffered: seq<R>, output: seq<R>) returns (buffered': seq<R>)
      requires path in store.files
      modifies store`files
      ensures path in store.files && store.files == old(store.files)[path := store.files[path]]
      ensures if |buffered| + |output| < rowGroupSize
        then buffered' == buffered + output && store.files[path] == old(store.files)[path]
        else buffered' == output && store.files[path] == old(store.files)[path] + buffered
    {
      if |buffered| + |output| < rowGroupSize {
        buffered' := buffered + output;
      } else {
        store.Write(path, buffered);
        buffered' := output;
      }
    }

    /** `finalize`: link the files of earlier attempts into the output directory of this one. */
    method Finalize() returns (dir: map<Path, seq<R>>)
      requires exists count :: Listed(count)
      ensures dir.Keys == (set q | q in outputPaths) && forall q :: q in outputPaths ==>
        q in store.files && dir[q] == store.files[q]
    {
      dir := map q | q in store.files && q.attempt == attempt :: store.files[q];
      var i := 0;
      while i < |outputPaths|
        invariant i <= |outputPaths|
        invariant forall q :: q in dir <==> q in outputPaths && (q.attempt == attempt || q in outputPaths[..i])
        invariant forall q :: q in dir ==> q in store.files && dir[q] == store.files[q]
      {
        if outputPaths[i].attempt != attempt { dir := dir[outputPaths[i] := store.files[outputPaths[i]]]; }
        i := i + 1;
      }
      assert outputPaths[..|outputPaths|] == outputPaths;
    }
  }

  // ---------------------------------------------------------------- a job of many attempts

  /** The environment's choices for one attempt: the checkpoint it resumes from (0: none), how many rows fit into a
      batch in its memory, how the readers deliver the files at a batch size, when checkpoints are due, where it
      crashes. */
  datatype Choice<!R> = Choice(from: nat, maxRows: nat, open: BatchSize -> seq<seq<Source<R>>>, due: nat -> bool,
      crash: nat -> bool)

  /** The output directory of the attempt that finished, and the order of its files. */
  datatype Output<R> = Output(dir: map<Path, seq<R>>, paths: seq<Path>)

  /** `restore_input_state` raises exactly when something is to be skipped and the first input has no rows. */
  predicate Restorable<T>(s: Saved, rows: seq<seq<T>>) {
    s.offsets.None? || (forall i :: 0 <= i < |s.offsets.value| ==> s.offsets.value[i] == 0) || rows == []
        || rows[0] != []
  }

  /** The files opened with this batch size hold these rows, input by input. */
  ghost predicate HoldRows<R>(sources: seq<seq<Source<R>>>, size: BatchSize, rows: seq<seq<R>>) {
    |sources| == |rows| && forall i :: 0 <= i < |rows| ==> HasRows(sources[i], size, rows[i])
  }

  ghost predicate HasRows<R>(sources: seq<Source<R>>, size: BatchSize, rows: seq<R>) {
    (forall k :: 0 <= k < |sources| ==> SourceOK(sources[k], size)) && AllRows(sources, size) == rows
  }

  /** Files attempt a may find at any batch size. */
  ghost predicate Opens<R>(open: BatchSize -> seq<seq<Source<R>>>, rows: seq<seq<R>>) {
    forall size: BatchSize {:trigger open(size)} :: HoldRows(open(size), size, rows)
  }

  /** One reader for each input; whatever the files look like, the batches depend on rows and batch size alone. */
  method OpenReaders<R>(sources: seq<seq<Source<R>>>, size: BatchSize, ghost rows: seq<seq<R>>)
          returns (readers: seq<seq<seq<R>>>)
    requires HoldRows(sources, size, rows)
    ensures readers == Readers(rows, size)
  {
    readers := [];
    while |readers| < |sources|
      invariant |readers| <= |sources| && readers == Readers(rows, size)[..|readers|]
    {
      var i := |readers|;
      assert HasRows(sources[i], size, rows[i]);
      var reader := OpenReader(sources[i], size, rows[i]);
      readers := readers + [reader];
    }
  }

  method OpenReader<R>(sources: seq<Source<R>>, size: BatchSize, ghost rows: seq<R>) returns (reader: seq<seq<R>>)
    requires HasRows(sources, size, rows)
    ensures reader == ChunksOf(rows, size)
  {
    var batches, _ := IterFromFiles(sources, size, None, _ => 0);
    reader := batches;
  }

  /** Attempts below a wrote the files and the checkpoints; each checkpoint is good for its own batch size. */
  ghost predicate Earlier<R>(store: Store<R>, a: nat, rows: seq<seq<R>>, process: seq<seq<R>> -> seq<R>)
    reads store
  {
    && (forall q :: q in store.files ==> q.attempt < a)
    && (forall s :: s in store.saved ==> GoodBefore(store.files, s, a, rows, process))
  }

  ghost predicate GoodBefore<R>(files: map<Path, seq<R>>, s: Saved, a: nat, rows: seq<seq<R>>,
          process: seq<seq<R>> -> seq<R>) {
    Good(files, s, |rows|, RunAt(rows, process, s.size)) && forall q :: q in s.paths ==> q.attempt < a
  }

  /** The rounds a saved state has done. */
  function Rounds(s: Saved): nat {
    if s.offsets.Some? && s.offsets.value != [] && s.offsets.value[0] > 0 then s.offsets.value[0] else 0
  }

  /** The checkpoints of an attempt that goes on from this state: one for each round it takes in which one is due. */
  ghost predicate Reports<R>(before: seq<Saved>, saved: seq<Saved>, from: Saved, rows: seq<seq<R>>,
          process: seq<seq<R>> -> seq<R>, c: Choice<R>) {
    var all := |RunAt(rows, process, from.size)|;
    Rounds(from) <= all && Sends(before, saved, |rows|, c.due, Rounds(from), Taken(c.crash, all - Rounds(from)))
  }

  /** An attempt that goes on from this state crashes nowhere up to its last output. */
  ghost predicate Completes<R>(from: Saved, rows: seq<seq<R>>, process: seq<seq<R>> -> seq<R>, c: Choice<R>) {
    var all := |RunAt(rows, process, from.size)|;
    Rounds(from) <= all && FirstCrash(c.crash, LastPoint(all - Rounds(from))) == -1
  }

  /** Where an attempt starts. */
  function Start(resume: Option<Saved>, size: BatchSize): Saved {
    if resume.Some? then resume.value else Saved(size, None, [])
  }

  /** `run`: a fresh attempt reads batches of the configured size, or of as many rows as fit into its memory; a resumed
      attempt goes on with the batch size of its checkpoint. No row in memory: a division by zero. */
  method RunAttempt<R>(store: Store<R>, a: nat, rows: seq<seq<R>>, process: seq<seq<R>> -> seq<R>, rowGroupSize: nat,
                       configured: BatchSize, resume: Option<Saved>, c: Choice<R>)
                           returns (out: Option<Output<R>>, size: BatchSize)
    requires Earlier(store, a, rows, process) && Opens(c.open, rows) && (resume.Some? ==> resume.value in store.saved)
    modifies store
    ensures Earlier(store, a + 1, rows, process) && old(store.saved) <= store.saved
    ensures forall i :: |old(store.saved)| <= i < |store.saved| ==> store.saved[i].size == size
    ensures resume.Some? ==> size == resume.value.size
    ensures resume.None? && c.maxRows > 0 ==> size == Lesser(configured, c.maxRows)
    ensures resume.None? && c.maxRows == 0 ==> out.None? && store.saved == old(store.saved)
    ensures out.Some? ==> IsExact(out.value, RunAt(rows, process, size))
    ensures (resume.Some? || c.maxRows > 0) ==> (if Restorable(Start(resume, size), rows)
        then Reports(old(store.saved), store.saved, Start(resume, size), rows, process, c)
          && (out.Some? <==> Completes(Start(resume, size), rows, process, c))
        else out.None? && store.saved == old(store.saved))
  {
    size := configured;
    if resume.Some? {
      size := resume.value.size;
    } else if c.maxRows < size {
      if c.maxRows == 0 { return None, size; }
      size := c.maxRows;
    }
    var from := Start(resume, size);
    assert Exact(store.files, Saved(size, None, []), |rows|, RunAt(rows, process, size), 0);
    var readers := OpenReaders(c.open(size), size, rows);
    out := RunReaders(store, a, rows, readers, process, rowGroupSize, from, c);
  }

  /** The attempt once its readers are open. */
  method RunReaders<R>(store: Store<R>, a: nat, ghost rows: seq<seq<R>>, readers: seq<seq<seq<R>>>,
          process: seq<seq<R>> -> seq<R>, rowGroupSize: nat, from: Saved, c: Choice<R>)
                           returns (out: Option<Output<R>>)
    requires Earlier(store, a, rows, process) && readers == Readers(rows, from.size)
        && GoodBefore(store.files, from, a, rows, process)
    modifies store
    ensures Earlier(store, a + 1, rows, process) && old(store.saved) <= store.saved
    ensures forall i :: |old(store.saved)| <= i < |store.saved| ==> store.saved[i].size == from.size
    ensures out.Some? ==> IsExact(out.value, RunAt(rows, process, from.size))
    ensures if Restorable(from, rows)
      then Reports(old(store.saved), store.saved, from, rows, process, c) && (out.Some? <==> Completes(from, rows,
          process, c))
      else out.None? && store.saved == old(store.saved)
  {
    var task := new ArrowBatchTask(a, store, |readers|, rowGroupSize, from);
    ghost var o := RoundsAre(store.files, from, rows, process);
    var ok, rest := SkipDone(task, readers, rows, from, o);
    if !ok { return None; }
    DropOutputs(readers, process, o);
    out := RunTask(task, store, a, Outputs(rest, process), rows, process, from, o, c);
  }

  /** Write the outputs that are left, and link all files. */
  method RunTask<R>(task: ArrowBatchTask<R>, store: Store<R>, a: nat, outputs: seq<seq<R>>, ghost rows: seq<seq<R>>,
          ghost process: seq<seq<R>> -> seq<R>, ghost from: Saved, ghost o: nat, c: Choice<R>)
      returns (out: Option<Output<R>>)
    requires task.store == store && task.attempt == a && task.inputCount == |rows| && task.batchSize == from.size
        && task.State() == from && task.lastBatchIndices == None
    requires Earlier(store, a, rows, process) && forall q :: q in from.paths ==> q.attempt < a
    requires Exact(store.files, from, |rows|, RunAt(rows, process, from.size), o) && o == Rounds(from)
        && outputs == RunAt(rows, process, from.size)[o..]
    modifies task, store
    ensures Earlier(store, a + 1, rows, process) && old(store.saved) <= store.saved
    ensures forall i :: |old(store.saved)| <= i < |store.saved| ==> store.saved[i].size == from.size
    ensures Reports(old(store.saved), store.saved, from, rows, process, c)
    ensures out.Some? <==> Completes(from, rows, process, c)
    ensures out.Some? ==> IsExact(out.value, RunAt(rows, process, from.size))
  {
    ghost var files, saved := store.files, store.saved;
    var finished := task.DumpOutput(outputs, c.due, c.crash, RunAt(rows, process, from.size), o);
    StillEarlier(store, task, files, saved, a, rows, process, from.paths);
    if !finished { return None; }
    out := LinkOutput(task, RunAt(rows, process, from.size));
  }

  /** The rounds a good state has done are the ones its offsets count. */
  lemma RoundsAre<R>(files: map<Path, seq<R>>, from: Saved, rows: seq<seq<R>>, process: seq<seq<R>> -> seq<R>)
          returns (o: nat)
    requires Good(files, from, |rows|, RunAt(rows, process, from.size))
    ensures o == Rounds(from) && Exact(files, from, |rows|, RunAt(rows, process, from.size), o)
  {
    o :| Exact(files, from, |rows|, RunAt(rows, process, from.size), o);
    if rows == [] { assert Readers(rows, from.size) == []; }
  }

  /** Skip the batches that are done, when any are. */
  method SkipDone<R>(task: ArrowBatchTask<R>, readers: seq<seq<seq<R>>>, ghost rows: seq<seq<R>>, from: Saved,
          ghost o: nat) returns (ok: bool, rest: seq<seq<seq<R>>>)
    requires task.State() == from && OffsetsAre(from.offsets, |rows|, o) && readers == Readers(rows, from.size)
    ensures (ok <==> Restorable(from, rows)) && (ok ==> rest == DropBatches(readers, o))
  {
    if from.offsets.None? {
      assert DropBatches(readers, 0) == readers;
      return true, readers;
    }
    ok, rest := task.RestoreInputState(readers);
    if readers != [] {
      assert from.offsets.value[0] == o;
      ChunksCover(rows[0], from.size);
    }
  }

  method LinkOutput<R>(task: ArrowBatchTask<R>, ghost outs: seq<seq<R>>) returns (out: Option<Output<R>>)
    requires (exists count :: task.Listed(count)) && Rows(task.store.files, task.outputPaths) == Concat(outs)
    ensures out.Some? && IsExact(out.value, outs)
  {
    var dir := task.Finalize();
    RowsFrame(task.store.files, dir, task.outputPaths);
    return Some(Output(dir, task.outputPaths));
  }

  /** Exactly once: the files of the directory are the listed ones, without repetition, and in order they hold the
      output of every batch. */
  ghost predicate IsExact<R>(out: Output<R>, outs: seq<seq<R>>) {
    out.dir.Keys == (set q | q in out.paths) && Distinct(out.paths) && Rows(out.dir, out.paths) == Concat(outs)
  }

  lemma StillEarlier<R>(store: Store<R>, task: ArrowBatchTask<R>, files: map<Path, seq<R>>, saved: seq<Saved>, a: nat,
                        rows: seq<seq<R>>, process: seq<seq<R>> -> seq<R>, paths0: seq<Path>)
    requires task.store == store && task.attempt == a && task.inputCount == |rows|
    requires task.Since(files, saved, paths0, RunAt(rows, process, task.batchSize))
    requires forall q :: q in files ==> q.attempt < a
    requires forall s :: s in saved ==> GoodBefore(files, s, a, rows, process)
    requires forall q :: q in paths0 ==> q.attempt < a
    ensures Earlier(store, a + 1, rows, process)
    ensures forall i :: |saved| <= i < |store.saved| ==> store.saved[i].size == task.batchSize
  {
    forall q | q in store.files ensures q.attempt < a + 1 {
      if q.attempt != a { assert Untouched(files, store.files, q); }
    }
    var added := store.saved[|saved|..];
    assert store.saved == saved + added;
    forall s | s in store.saved ensures GoodBefore(store.files, s, a + 1, rows, process) {
      if s in saved {
        assert forall q :: q in s.paths ==> Untouched(files, store.files, q);
        GoodKept(files, store.files, s, |rows|, RunAt(rows, process, s.size));
      } else {
        assert s in added;
        assert forall q :: q in task.outputPaths ==> q in paths0 || q.attempt == a;
      }
    }
    forall i | |saved| <= i < |store.saved| ensures store.saved[i].size == task.batchSize {
      assert store.saved[i] == added[i - |saved|] && added[i - |saved|] in added;
    }
  }

  /** Some fresh attempt chose this batch size. */
  predicate Chosen<R>(choices: seq<Choice<R>>, configured: BatchSize, size: BatchSize) {
    exists i :: 0 <= i < |choices| && choices[i].maxRows > 0 && size == Lesser(configured, choices[i].maxRows)
  }

  /** Any number of attempts, each fresh or resuming from any checkpoint that any earlier attempt pushed, each with its
      own memory. The attempt that finishes has the batch size its chain of checkpoints began with, and its output is
      exact for it. */
  method RunJob<R>(rows: seq<seq<R>>, process: seq<seq<R>> -> seq<R>, rowGroupSize: nat, configured: BatchSize,
          choices: seq<Choice<R>>)
      returns (out: Option<Output<R>>, size: BatchSize)
    requires forall c :: c in choices ==> Opens(c.open, rows)
    ensures out.Some? ==> Chosen(choices, configured, size) && IsExact(out.value, RunAt(rows, process, size))
  {
    var store := new Store<R>();
    var a := 0;
    out, size := None, configured;
    while a < |choices| && out.None?
      invariant a <= |choices| && fresh(store) && Earlier(store, a, rows, process)
      invariant forall s :: s in store.saved ==> Chosen(choices, configured, s.size)
      invariant out.Some? ==> Chosen(choices, configured, size) && IsExact(out.value, RunAt(rows, process, size))
    {
      var c := choices[a];
      var resume := if 0 < c.from <= |store.saved| then Some(store.saved[c.from - 1]) else None;
      ghost var saved := store.saved;
      out, size := RunAttempt(store, a, rows, process, rowGroupSize, configured, resume, c);
      forall s | s in store.saved ensures Chosen(choices, configured, s.size) {
        var i :| 0 <= i < |store.saved| && store.saved[i] == s;
        if i < |saved| { assert saved[i] in saved; }
      }
      a := a + 1;
    }
  }
}
