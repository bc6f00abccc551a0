/** What holds in every reachable state of the scheduler. */
module SchedTheorems {
  import opened WorkItems
  import opened Executors
  import opened Plans
  import opened Sched
  import opened SchedInvariants
  import opened SchedLoop
  import opened SchedSteps
  import opened SchedRuns
  import opened SchedSafety
  import opened LocalTasks

  /** Reachable states: the first start, then any number of iterations with fair replies. */
  ghost predicate Reachable(p: Plan, s: State, limits: map<nat, Limits>, local: Executor, ks: seq<nat>,
          inputs: seq<Input>) {
    && FreshLocal(local) && (forall k :: k in p.tasks ==> k in ks)
    && FairRun(p, Start(p, limits, local, ks), inputs)
    && s == Run(p, Start(p, limits, local, ks), inputs)
  }

  /** No work is ever lost: in every reachable state each unsucceeded task whose inputs have succeeded is queued or runs
      on the local executor or an alive one. None of the assertions fails, and no dictionary lookup misses but that of a
      consumer, which has missed exactly when a task that succeeded names a consumer outside the plan. */
  lemma NothingLost(p: Plan, s: State, limits: map<nat, Limits>, local: Executor, ks: seq<nat>, inputs: seq<Input>,
          k: nat)
    requires Reachable(p, s, limits, local, ks, inputs)
    ensures s.error == None || s.error == Some(UnknownConsumer)
    ensures s.error == None <==> forall c :: c in s.succeeded ==> Contained(p, c)
    ensures k in p.tasks && k !in s.succeeded && Ready(p, s, k) ==> Queued(s, k) || Runs(s.execs, k)
  {
    StartKeeps(p, limits, local, ks);
    RunKeeps(p, Start(p, limits, local, ks), inputs);
  }

  /** Consequences for a plan: no lookup ever misses when all its tasks name consumers of the plan only; and when some
      task does not, its success is the end of the run, so the root never succeeds without an error. */
  lemma LookupsFound(p: Plan, s: State, limits: map<nat, Limits>, local: Executor, ks: seq<nat>, inputs: seq<Input>)
    requires Reachable(p, s, limits, local, ks, inputs)
    ensures (forall k :: k in p.tasks ==> Contained(p, k)) ==> s.error == None
    ensures p.root in s.succeeded ==> (s.error == None <==> forall k :: k in p.tasks ==> Contained(p, k))
  {
    NothingLost(p, s, limits, local, ks, inputs, 0);
    if p.root in s.succeeded { RootSuccessMeansAll(p, s, limits, local, ks, inputs); }
    StartKeeps(p, limits, local, ks);
    RunKeeps(p, Start(p, limits, local, ks), inputs);
    forall c | c in s.succeeded ensures c in p.tasks { assert Ready(p, s, c); }
  }

  /** Once the root has succeeded every task has, so what is then dropped from the queue is redundant. */
  lemma RootSuccessMeansAll(p: Plan, s: State, limits: map<nat, Limits>, local: Executor, ks: seq<nat>,
          inputs: seq<Input>)
    requires Reachable(p, s, limits, local, ks, inputs) && p.root in s.succeeded
    ensures p.tasks <= s.succeeded.Keys
  {
    StartKeeps(p, limits, local, ks);
    RunKeeps(p, Start(p, limits, local, ks), inputs);
    RootMeansAll(p, s);
  }

  /** `abandoned_tasks`: attempts that were scheduled or reported, but are not the one their task succeeded with. */
  ghost predicate Abandoned(s: State, a: RuntimeId) {
    (a in s.scheduled || a in s.finished) && a !in s.succeeded.Values
  }

  /** Consistent inputs: every attempt of task k, whenever it was scheduled, reads exactly the attempts its inputs are
      recorded with at any later time, and those are never abandoned; two attempts of one task read the same. */
  lemma ConsistentInputs(p: Plan, s: State, inputs: seq<Input>, a: RuntimeId, b: RuntimeId, i: nat)
    requires Safe(p, s) && FairRun(p, s, inputs)
    requires a in s.scheduled && b in Run(p, s, inputs).scheduled && a.id == b.id && i < |s.scheduled[a].inputs|
    ensures var r := Run(p, s, inputs);
      && a.id in p.inputs && i < |p.inputs[a.id]| && p.inputs[a.id][i] in r.succeeded
      && s.scheduled[a].inputs[i] == r.succeeded[p.inputs[a.id][i]]
      && !Abandoned(r, s.scheduled[a].inputs[i])
      && r.scheduled[b].inputs == s.scheduled[a].inputs
  {
    var r := Run(p, s, inputs);
    RunKeeps(p, s, inputs);
    assert ReadsSucceeded(p, s, a.id, s.scheduled[a].inputs);
    assert ReadsSucceeded(p, r, a.id, r.scheduled[a].inputs);
    assert ReadsSucceeded(p, r, b.id, r.scheduled[b].inputs);
  }

  lemma RetryIsFresh(p: Plan, s: State, k: nat)
    requires Base(p, s) && Ready(p, s, k) && k !in s.succeeded
    ensures var r := Retry(p, s, k); var a := RuntimeId(k, s.epoch, s.master[k].retry + 1);
      r.error == s.error && a !in s.scheduled && a in r.scheduled && k in r.master && r.master[k].retry == a.retry
          && Records(s, r)
  {
    RetryIsEnqueue(p, s, k);
  }

  /** Retry identity: while a task is unsucceeded, its scheduled attempts of this epoch are numbered up to its retry
      count, so that a retry passes the assertion of `get_retry_task` and gets a runtime id never scheduled before. */
  lemma RetryIdentity(p: Plan, s: State, limits: map<nat, Limits>, local: Executor, ks: seq<nat>, inputs: seq<Input>,
          k: nat)
    requires Reachable(p, s, limits, local, ks, inputs) && Ready(p, s, k) && k !in s.succeeded
    ensures k in s.master && forall a ::
      a in s.scheduled && a.id == k && a.epoch == s.epoch ==> a.retry <= s.master[k].retry
    ensures var r := Retry(p, s, k); var a := RuntimeId(k, s.epoch, s.master[k].retry + 1);
      r.error == s.error && a !in s.scheduled && a in r.scheduled && k in r.master && r.master[k].retry == a.retry
          && Records(s, r)
  {
    StartKeeps(p, limits, local, ks);
    RunKeeps(p, Start(p, limits, local, ks), inputs);
    RetryIsFresh(p, s, k);
  }

  // ---------------------------------------------------------------- why the loop ends

  predicate TooManyFailures(p: Plan, s: State) { exists k :: k in s.master && s.master[k].fails > p.cfg.maxFail }

  /** The loop only ends when every task has succeeded or one has failed too often. */
  ghost predicate EndsWell(p: Plan, s: State) { s.running || p.tasks <= s.succeeded.Keys || TooManyFailures(p, s) }

  lemma FailEnds(p: Plan, s: State, i: nat, d: Done)
    requires d.rid.id in s.master && i < |s.execs| && (s.running || TooManyFailures(p, s))
    ensures FailTask(p, s, i, d).running || TooManyFailures(p, FailTask(p, s, i, d))
  {
    var k := d.rid.id;
    var r := FailTask(p, s, i, d);
    assert r.master[k].fails == s.master[k].fails + 1;
    if TooManyFailures(p, s) {
      var c :| c in s.master && s.master[c].fails > p.cfg.maxFail;
      assert c in r.master && r.master[c].fails >= s.master[c].fails;
    }
  }

  lemma SucceedEnds(p: Plan, s: State, d: Done)
    requires d.rid.id in p.tasks && d.rid.id in s.master && (s.running || TooManyFailures(p, s))
    ensures SucceedTask(p, s, d).running || TooManyFailures(p, SucceedTask(p, s, d))
  {
    var r := SucceedTask(p, s, d);
    if TooManyFailures(p, s) {
      var c :| c in s.master && s.master[c].fails > p.cfg.maxFail;
      assert c in r.master && r.master[c].fails == s.master[c].fails;
    }
  }

  lemma {:induction false} ProcessAllEnds(p: Plan, s: State, pend: seq<Popped>)
    requires s.running || TooManyFailures(p, s)
    ensures ProcessAll(p, s, pend).running || TooManyFailures(p, ProcessAll(p, s, pend))
    decreases |pend|
  {
    if pend != [] && pend[0].exec < |s.execs| {
      var d := pend[0].done;
      var s1 := s.(finished := s.finished + {d.rid});
      var s2 := if d.status == Succeed then s1 else s1.Fail(UnexpectedStatus);
      if d.rid.id in p.tasks && d.rid.id in s.master {
        FailEnds(p, s1, pend[0].exec, d);
        SucceedEnds(p, s2, d);
      }
      ProcessAllEnds(p, ProcessOne(p, s, pend[0].exec, d), pend[1..]);
    }
  }

  lemma SettleEnds(p: Plan, s: State, replies: seq<seq<Reply>>)
    requires Inv(p, s) && s.running
    ensures EndsWell(p, Settle(p, s, replies))
  {
    if Idle(s) { NeverStuck(p, s); } else {
      ProcessAllEnds(p, s.(execs := PopExecs(s.execs, replies)), PopTasks(|s.execs|, replies, 0));
    }
  }

  lemma IterateEnds(p: Plan, s: State, inp: Input)
    requires Safe(p, s) && s.running
    ensures EndsWell(p, Iterate(p, s, inp))
  {
    AssignedKeeps(p, s, inp);
    SettleEnds(p, Assigned(p, s, inp), inp.replies);
  }

  lemma {:induction false} RunEnds(p: Plan, s: State, inputs: seq<Input>)
    requires Safe(p, s) && Looping(s) && FairRun(p, s, inputs)
    ensures EndsWell(p, Run(p, s, inputs))
    decreases |inputs|
  {
    if inputs != [] {
      var r := Iterate(p, s, inputs[0]);
      IterateEnds(p, s, inputs[0]);
      IterateKeeps(p, s, inputs[0]);
      if Looping(r) { RunEnds(p, r, inputs[1..]); } else { assert Run(p, r, inputs[1..]) == r; }
    }
  }

  /** When the loop has ended, every task has succeeded or one has failed more often than allowed. */
  lemma EndMeansDoneOrFailed(p: Plan, s: State, limits: map<nat, Limits>, local: Executor, ks: seq<nat>,
          inputs: seq<Input>)
    requires Reachable(p, s, limits, local, ks, inputs) && !s.running
    ensures p.tasks <= s.succeeded.Keys || TooManyFailures(p, s)
  {
    StartKeeps(p, limits, local, ks);
    RunEnds(p, Start(p, limits, local, ks), inputs);
  }

  // ---------------------------------------------------------------- duplicate completions

  /** Executor i delivers the terminal completion d. */
  function Deliver(s: State, i: nat, d: Done): State
    requires i < |s.execs|
  {
    s.(execs := s.execs[i := s.execs[i].Receive(TaskDone(d))])
  }

  lemma DeliverRemoves(s: State, i: nat, d: Done)
    requires i < |s.execs| && d.Terminal() && Accounted(s.execs[i])
    requires forall j :: 0 <= j < |s.execs| && j != i ==> !s.execs[j].Has(TaskKey(d.rid.id))
    ensures !Runs(Deliver(s, i, d).execs, d.rid.id)
  {
    PopAccounted(s.execs[i], TaskKey(d.rid.id));
  }

  lemma DeliverKeeps(p: Plan, s: State, i: nat, d: Done)
    requires Inv(p, s) && i < |s.execs|
    ensures Base(p, Deliver(s, i, d)) && Covered(p, Deliver(s, i, d), [], {d.rid.id})
  {
    var e := s.execs[i];
    var r := Deliver(s, i, d);
    assert ExecOK(s, e);
    ReceiveKeeps(s, e, [TaskDone(d)]);
    assert ReceiveAll(e, [TaskDone(d)]) == ReceiveAll(e.Receive(TaskDone(d)), []);
    ReplaceOne(p, s, i, e.Receive(TaskDone(d)));
    forall k | k != d.rid.id && Runs(s.execs, k) ensures Runs(r.execs, k) {
      var j :| 0 <= j < |s.execs| && s.execs[j].Tracked() && s.execs[j].Has(TaskKey(k));
      if j == i && d.Terminal() { PopHas(e, TaskKey(d.rid.id), TaskKey(k)); }
      RunsAt(r.execs, j, k);
    }
    ExecsCover(p, s, r.execs, [], [], {}, {d.rid.id});
  }

  /** Why the assumption of one terminal completion per attempt is needed. A failed completion of task k arrives from
      the only executor that runs k. The task survives exactly when this attempt had not been reported before:
      a repeated report takes the later attempt out of `running_works` and is then skipped. */
  lemma DuplicateCompletionLosesTask(p: Plan, s: State, i: nat, d: Done)
    requires Inv(p, s) && i < |s.execs| && Accounted(s.execs[i]) && d.status == Failed
    requires Ready(p, s, d.rid.id) && d.rid.id !in s.succeeded && !Queued(s, d.rid.id)
    requires s.execs[i].Has(TaskKey(d.rid.id))
    requires forall j :: 0 <= j < |s.execs| && j != i ==> !s.execs[j].Has(TaskKey(d.rid.id))
    ensures var r := ProcessOne(p, Deliver(s, i, d), i, d);
      Queued(r, d.rid.id) || Runs(r.execs, d.rid.id) <==> d.rid !in s.finished
  {
    var k := d.rid.id;
    var s1 := Deliver(s, i, d);
    DeliverRemoves(s, i, d);
    DeliverKeeps(p, s, i, d);
    assert Ready(p, s1, k);
    if d.rid !in s.finished {
      SetFinished(p, s1, d.rid, [], {k});
      var s2 := s1.(finished := s1.finished + {d.rid});
      assert Ready(p, s2, k);
      FailKeeps(p, s2, i, d, []);
      FailGrows(p, s2, i, d);
      assert Ready(p, FailTask(p, s2, i, d), k);
    } else {
      assert !Queued(s1, k);
    }
  }

  // ---------------------------------------------------------------- reports on local tasks from elsewhere

  lemma RetryQueues(p: Plan, s: State, k: nat)
    requires Base(p, s) && Ready(p, s, k) && Open(p, s, k)
    ensures InQueue(Retry(p, s, k).localQueue, k) && Retry(p, s, k).execs == s.execs
  {
    RetryIsEnqueue(p, s, k);
    assert Retry(p, s, k).localQueue[|s.localQueue|].rid.id == k;
  }

  lemma FailQueues(p: Plan, s: State, i: nat, d: Done)
    requires Base(p, s) && Covered(p, s, [], {d.rid.id}) && i < |s.execs| && Ready(p, s, d.rid.id)
        && Open(p, s, d.rid.id)
    ensures var r := FailTask(p, s, i, d);
      InQueue(r.localQueue, d.rid.id) && |r.execs| > 0 && r.execs[0].running == s.execs[0].running
  {
    NoteKeeps(p, s, i, d, []);
    RetryQueues(p, NoteFailure(p, s, i, d), d.rid.id);
  }

  /** Why reports on the scheduler's own tasks are assumed to come from the local executor: while it runs such a task, a
      failure reported by another executor puts a second attempt beside the running one, exactly when that runtime id is
      new. */
  lemma ForeignReportForksTask(p: Plan, s: State, i: nat, d: Done)
    requires Safe(p, s) && 0 < i < |s.execs| && d.status == Failed
    requires Ready(p, s, d.rid.id) && Open(p, s, d.rid.id) && s.execs[0].Has(TaskKey(d.rid.id))
    ensures var r := ProcessOne(p, Deliver(s, i, d), i, d);
      |r.execs| > 0 && (InQueue(r.localQueue, d.rid.id) && r.execs[0].Has(TaskKey(d.rid.id)) <==> d.rid !in s.finished)
  {
    assert Ready(p, Deliver(s, i, d), d.rid.id) && Lone(s, [], d.rid.id);
    if d.rid !in s.finished { NewReportForks(p, s, i, d); }
  }

  lemma NewReportForks(p: Plan, s: State, i: nat, d: Done)
    requires Inv(p, s) && 0 < i < |s.execs| && d.status == Failed && d.rid !in s.finished
    requires Ready(p, s, d.rid.id) && Open(p, s, d.rid.id)
    ensures var r := ProcessOne(p, Deliver(s, i, d), i, d);
      InQueue(r.localQueue, d.rid.id) && |r.execs| > 0 && r.execs[0].running == s.execs[0].running
  {
    var s1 := Deliver(s, i, d);
    DeliverKeeps(p, s, i, d);
    SetFinished(p, s1, d.rid, [], {d.rid.id});
    var s2 := s1.(finished := s1.finished + {d.rid});
    assert Ready(p, s1, d.rid.id) && Ready(p, s2, d.rid.id);
    FailQueues(p, s2, i, d);
  }
}
