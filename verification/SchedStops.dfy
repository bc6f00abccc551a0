/** When the loop ends: a task that fails too often stops the scheduler and all executors, at once and for good. */
module SchedStops {
  import opened WorkItems
  import opened Executors
  import opened Plans
  import opened Sched
  import opened Dispatch
  import opened SchedInvariants
  import opened SchedLoop
  import opened SchedRetries
  import opened SchedRuns
  import opened SchedSafety
  import opened SchedTheorems
  import opened ExecutorRuns
  import opened ExecutorTheorems

  // ---------------------------------------------------------------- failure counts

  /** Of the tasks at most the retry counts differ. */
  ghost predicate OnlyRetried(s: State, r: State) {
    && r.master.Keys == s.master.Keys
    && forall k :: k in s.master ==> r.master[k] == s.master[k].(retry := r.master[k].retry)
  }

  lemma RetryRetries(p: Plan, s: State, k: nat)
    ensures OnlyRetried(s, Retry(p, s, k)) && OnlyRetried(s, s)
  {
  }

  lemma RetriedTwice(s: State, u: State, r: State)
    requires OnlyRetried(s, u) && OnlyRetried(u, r)
    ensures OnlyRetried(s, r)
  {
  }

  lemma {:induction false} SpeculateAllRetries(p: Plan, s: State, works: seq<Running>, slow: set<RuntimeId>)
    ensures OnlyRetried(s, SpeculateAll(p, s, works, slow))
    decreases |works|
  {
    if works != [] {
      var s1 := SpeculateOne(p, s, works[0], slow);
      if works[0].TaskItem? { RetryRetries(p, s, works[0].task.rid.id); }
      SpeculateAllRetries(p, s1, works[1..], slow);
      RetriedTwice(s, s1, SpeculateAll(p, s1, works[1..], slow));
    }
  }

  lemma {:induction false} SpeculateRetries(p: Plan, s: State, i: nat, slow: set<RuntimeId>)
    ensures OnlyRetried(s, Speculate(p, s, i, slow))
    decreases |s.execs| - i
  {
    if i < |s.execs| {
      var e := s.execs[i];
      SpeculateAllRetries(p, s, e.running, slow);
      SpeculateRetries(p, if !e.local && e.Working() then SpeculateAll(p, s, e.running, slow) else s, i + 1, slow);
    }
  }

  lemma {:induction false} RescheduleRetries(p: Plan, s: State, works: seq<Running>)
    ensures OnlyRetried(s, RescheduleAll(p, s, works))
    decreases |works|
  {
    if works != [] {
      var s1 := RescheduleOne(p, s, works[0]);
      if works[0].TaskItem? { RetryRetries(p, s, works[0].task.rid.id); }
      RescheduleRetries(p, s1, works[1..]);
      RetriedTwice(s, s1, RescheduleAll(p, s1, works[1..]));
    }
  }

  lemma {:induction false} UpdateRetries(p: Plan, s: State, i: nat)
    ensures OnlyRetried(s, UpdateExecutors(p, s, i))
    decreases |s.execs| - i
  {
    if i < |s.execs| {
      var e := s.execs[i];
      RescheduleRetries(p, s.(execs := s.execs[i := e.UpdateState(s.probeEpoch, p.cfg.maxMissed)]), e.running);
      UpdateRetries(p, UpdateExecutor(p, s, i), i + 1);
    }
  }

  /** Before completions are processed tasks are at most retried. */
  lemma AssignedRetries(p: Plan, s: State, inp: Input)
    ensures OnlyRetried(s, Assigned(p, s, inp))
  {
    var s1 := if inp.probe then ProbeRound(p, s, inp.joined, inp.speculate, inp.slow) else s;
    if inp.probe { SpeculateRetries(p, ProbeRound(p, s, inp.joined, false, inp.slow), 0, inp.slow); }
    UpdateRetries(p, s1, 0);
    var r := Updated(p, s, inp);
    if r.execs != [] { DispatchSame(p, r); }
  }

  /** d is the first report of an attempt at an unsucceeded task, and says that it failed. */
  predicate NewFailure(p: Plan, s: State, d: Done) {
    && d.rid.id in p.tasks && d.rid.id !in s.succeeded && d.rid !in s.finished
    && (d.status == Failed || d.status == Crashed) && (d.rid in s.scheduled || Ready(p, s, d.rid.id))
  }

  lemma FailFails(p: Plan, s: State, i: nat, d: Done, k: nat)
    requires i < |s.execs| && k in s.master && d.rid.id in s.master
    ensures var r := FailTask(p, s, i, d);
      k in r.master && r.master[k].fails == s.master[k].fails + if k == d.rid.id then 1 else 0
  {
  }

  lemma SucceedFails(p: Plan, s: State, d: Done, k: nat)
    requires k in s.master && d.rid.id in p.tasks && d.rid.id in s.master
    ensures var r := SucceedTask(p, s, d); k in r.master && r.master[k].fails == s.master[k].fails
  {
    SucceedIs(p, s, d);
  }

  /** Failure counts count the failures that were reported. */
  lemma FailuresCounted(p: Plan, s: State, i: nat, d: Done, k: nat)
    requires i < |s.execs| && k in s.master && d.rid.id in s.master
    ensures var r := ProcessOne(p, s, i, d);
      k in r.master && r.master[k].fails == s.master[k].fails + if k == d.rid.id && NewFailure(p, s, d) then 1 else 0
  {
    if d.rid.id in p.tasks {
      var s1 := s.(finished := s.finished + {d.rid});
      FailFails(p, s1, i, d, k);
      SucceedFails(p, if d.status == Succeed then s1 else s1.Fail(UnexpectedStatus), d, k);
    }
  }

  // ---------------------------------------------------------------- the stop

  /** A remote executor that works has been asked to stop, a local one is no longer alive. */
  ghost predicate Dismissed(e: Executor) {
    if e.local then e.state == Stopped || e.state == Fail
    else e.state == Good || e.state == ResourceLow ==> e.stopSent
  }

  ghost predicate AllDismissed(execs: seq<Executor>) { forall i :: 0 <= i < |execs| ==> Dismissed(execs[i]) }

  ghost predicate NoLocalStopping(execs: seq<Executor>) {
    forall i :: 0 <= i < |execs| && execs[i].local ==> execs[i].state != Stopping
  }

  /** Too many failures end the loop and dismiss every executor. */
  ghost predicate StopsOnFailure(p: Plan, s: State) {
    && NoLocalStopping(s.execs)
    && (TooManyFailures(p, s) ==> !s.running && AllDismissed(s.execs))
  }

  lemma StopAllDismisses(execs: seq<Executor>)
    requires NoLocalStopping(execs)
    ensures AllDismissed(StopAll(execs)) && NoLocalStopping(StopAll(execs))
  {
    forall i | 0 <= i < |execs| ensures Dismissed(execs[i].Stop()) {}
  }

  lemma FailStops(p: Plan, s: State, i: nat, d: Done)
    requires StopsOnFailure(p, s) && d.rid.id in s.master && i < |s.execs|
    ensures StopsOnFailure(p, FailTask(p, s, i, d))
  {
    var r := FailTask(p, s, i, d);
    StopAllDismisses(s.execs);
    if TooManyFailures(p, r) {
      var k :| k in r.master && r.master[k].fails > p.cfg.maxFail;
      assert k in s.master;
      FailFails(p, s, i, d, k);
      if k != d.rid.id { assert TooManyFailures(p, s); }
    }
  }

  lemma SucceedStops(p: Plan, s: State, d: Done)
    requires StopsOnFailure(p, s) && d.rid.id in p.tasks && d.rid.id in s.master
    ensures StopsOnFailure(p, SucceedTask(p, s, d))
  {
    var r := SucceedTask(p, s, d);
    StopAllDismisses(StopRunning(s.execs, d.rid.id));
    if TooManyFailures(p, r) {
      var k :| k in r.master && r.master[k].fails > p.cfg.maxFail;
      assert k in s.master;
      SucceedFails(p, s, d, k);
      assert TooManyFailures(p, s);
    }
  }

  lemma ProcessStops(p: Plan, s: State, i: nat, d: Done)
    requires StopsOnFailure(p, s) && i < |s.execs|
    ensures StopsOnFailure(p, ProcessOne(p, s, i, d))
  {
    var s1 := s.(finished := s.finished + {d.rid});
    if d.rid.id in p.tasks && d.rid.id in s.master {
      FailStops(p, s1, i, d);
      SucceedStops(p, if d.status == Succeed then s1 else s1.Fail(UnexpectedStatus), d);
    }
  }

  lemma {:induction false} ProcessAllStops(p: Plan, s: State, pend: seq<Popped>)
    requires StopsOnFailure(p, s)
    ensures StopsOnFailure(p, ProcessAll(p, s, pend))
    decreases |pend|
  {
    if pend != [] && pend[0].exec < |s.execs| {
      ProcessStops(p, s, pend[0].exec, pend[0].done);
      ProcessAllStops(p, ProcessOne(p, s, pend[0].exec, pend[0].done), pend[1..]);
    }
  }

  lemma PopStops(p: Plan, s: State, replies: seq<seq<Reply>>)
    requires StopsOnFailure(p, s)
    ensures StopsOnFailure(p, s.(execs := PopExecs(s.execs, replies)))
  {
    forall i | 0 <= i < |s.execs|
      ensures var e := PopExecs(s.execs, replies)[i];
        e.local == s.execs[i].local && e.state == s.execs[i].state && e.stopSent == s.execs[i].stopSent
    {
      ReceiveShape(s.execs[i], RepliesOf(replies, i));
    }
  }

  lemma SettleStops(p: Plan, s: State, replies: seq<seq<Reply>>)
    requires StopsOnFailure(p, s)
    ensures StopsOnFailure(p, Settle(p, s, replies))
  {
    if !Idle(s) {
      PopStops(p, s, replies);
      ProcessAllStops(p, s.(execs := PopExecs(s.execs, replies)), PopTasks(|s.execs|, replies, 0));
    }
  }

  lemma AssignedStops(p: Plan, s: State, inp: Input)
    requires Safe(p, s) && s.running && StopsOnFailure(p, s)
    ensures StopsOnFailure(p, Assigned(p, s, inp)) && !TooManyFailures(p, Assigned(p, s, inp))
  {
    AssignedRetries(p, s, inp);
    FewFails(p, s, Assigned(p, s, inp));
    LocalGoesOn(p, s, inp);
  }

  lemma FewFails(p: Plan, s: State, r: State)
    requires OnlyRetried(s, r) && !TooManyFailures(p, s)
    ensures !TooManyFailures(p, r)
  {
  }

  lemma LocalGoesOn(p: Plan, s: State, inp: Input)
    requires Inv(p, s) && s.running && Safe(p, s) && NoLocalStopping(s.execs)
    ensures NoLocalStopping(Assigned(p, s, inp).execs)
  {
    var r := Assigned(p, s, inp);
    AssignedKeeps(p, s, inp);
    AssignedSound(Moves, p, s, inp);
    OnlyFirst(s.execs, r.execs);
  }

  lemma OnlyFirst(xs: seq<Executor>, ys: seq<Executor>)
    requires xs != [] && xs[0].local && LaterAll(Moves, xs, ys) && NoLocalStopping(xs)
    requires forall i :: 0 < i < |ys| ==> !ys[i].local
    ensures NoLocalStopping(ys)
  {
    assert Later(Moves, xs[0], ys[0]);
  }

  lemma IterateStops(p: Plan, s: State, inp: Input)
    requires Safe(p, s) && s.running && StopsOnFailure(p, s)
    ensures StopsOnFailure(p, Iterate(p, s, inp))
  {
    AssignedStops(p, s, inp);
    SettleStops(p, Assigned(p, s, inp), inp.replies);
  }

  lemma {:induction false} RunStops(p: Plan, s: State, inputs: seq<Input>)
    requires Safe(p, s) && FairRun(p, s, inputs) && StopsOnFailure(p, s)
    ensures StopsOnFailure(p, Run(p, s, inputs))
    decreases |inputs|
  {
    if inputs != [] && Looping(s) {
      IterateStops(p, s, inputs[0]);
      IterateKeeps(p, s, inputs[0]);
      RunStops(p, Iterate(p, s, inputs[0]), inputs[1..]);
    }
  }

  lemma StartStops(p: Plan, limits: map<nat, Limits>, local: Executor, ks: seq<nat>)
    requires FreshLocal(local)
    ensures StopsOnFailure(p, Start(p, limits, local, ks))
  {
  }

  /** In every reachable state: once a task has failed too often the loop has ended, every working remote executor has
      been asked to stop, and the local one is not alive. */
  lemma TooManyFailuresStop(p: Plan, s: State, limits: map<nat, Limits>, local: Executor, ks: seq<nat>,
          inputs: seq<Input>)
    requires Reachable(p, s, limits, local, ks, inputs)
    ensures TooManyFailures(p, s) ==> !s.running && AllDismissed(s.execs)
  {
    StartKeeps(p, limits, local, ks);
    StartStops(p, limits, local, ks);
    RunStops(p, Start(p, limits, local, ks), inputs);
  }

  /** An iteration is the last one exactly when nothing was left to run, or a task has failed too often in it. */
  lemma LastIterationIff(p: Plan, s: State, limits: map<nat, Limits>, local: Executor, ks: seq<nat>,
          inputs: seq<Input>, inp: Input)
    requires Reachable(p, s, limits, local, ks, inputs) && s.running
    ensures var a, r := Assigned(p, s, inp), Iterate(p, s, inp);
      !r.running <==> (a.schedQueue == [] && a.localQueue == [] && NumRunning(a.execs) == 0) || TooManyFailures(p, r)
  {
    var a := Assigned(p, s, inp);
    StartKeeps(p, limits, local, ks);
    RunKeeps(p, Start(p, limits, local, ks), inputs);
    StartStops(p, limits, local, ks);
    RunStops(p, Start(p, limits, local, ks), inputs);
    IterateStops(p, s, inp);
    AssignedKeeps(p, s, inp);
    if !Idle(a) { ProcessAllEnds(p, a.(execs := PopExecs(a.execs, inp.replies)), PopTasks(|a.execs|, inp.replies, 0)); }
  }

  // ---------------------------------------------------------------- a task succeeds

  /** d is the first report of an attempt at an unsucceeded task, and says that it succeeded. */
  predicate NewSuccess(p: Plan, s: State, d: Done) {
    && d.rid.id in p.tasks && d.rid.id in s.master && d.rid.id !in s.succeeded && d.rid !in s.finished
    && d.status == Succeed
  }

  /** What processing one completion does: nothing but note it, count a failure, or record a success. */
  lemma CompletionIs(p: Plan, s: State, i: nat, d: Done)
    requires i < |s.execs|
    ensures var r := ProcessOne(p, s, i, d); var s1 := s.(finished := s.finished + {d.rid});
      if NewFailure(p, s, d) && d.rid.id in s.master then r == FailTask(p, s1, i, d)
      else if NewSuccess(p, s, d) then r == SucceedTask(p, s1, d)
      else || (d.rid.id in p.tasks && d.rid.id in s.master && r == SucceedTask(p, s1.Fail(UnexpectedStatus), d))
           || r == s.(finished := r.finished, error := r.error)
  {
  }

  /** The attempt is of a known task, and terminal; a foreign attempt only counts when it succeeded, or its task is
      ready. */
  predicate Heard(p: Plan, s: State, d: Done) {
    && d.rid.id in p.tasks && d.rid.id in s.master && d.status != Incomplete
    && (d.rid in s.scheduled || d.status == Succeed || Ready(p, s, d.rid.id))
  }

  /** The first success of a task is recorded, later ones and all other completions change no success; every attempt
      that is heard of counts as finished. */
  lemma FirstSuccessCounts(p: Plan, s: State, i: nat, d: Done)
    requires i < |s.execs| && d.status != ExecFailed
    ensures var r := ProcessOne(p, s, i, d); var k := d.rid.id;
      && r.succeeded == (if NewSuccess(p, s, d) then s.succeeded[k := d.rid] else s.succeeded)
      && r.finished == s.finished + (if Heard(p, s, d) then {d.rid} else {})
      && (NewSuccess(p, s, d) ==> k in r.master && k in s.master && r.master[k] == s.master[k].(
        status := Succeed, retry := d.rid.retry, epoch := d.rid.epoch))
  {
    if NewSuccess(p, s, d) { SucceedIs(p, s.(finished := s.finished + {d.rid}), d); }
  }

  lemma SuccessExecs(p: Plan, s: State, i: nat, d: Done)
    requires NewSuccess(p, s, d) && i < |s.execs|
    ensures var asked := StopRunning(s.execs, d.rid.id);
      ProcessOne(p, s, i, d).execs == if d.rid.id == p.root then StopAll(asked) else asked
  {
    SucceedIs(p, s.(finished := s.finished + {d.rid}), d);
  }

  lemma AskedAt(e: Executor, k: nat)
    ensures var runs := exists n :: 0 <= n < |e.running| && e.running[n].Key() == TaskKey(k);
      StopWorkOn(e, k) == e.(wq := e.wq + if !e.local && runs then [StopWork(k)] else [])
    ensures StopWorkOn(e, k).wq <= StopWorkOn(e, k).Stop().wq
  {
  }

  /** Exactly the remote executors that still run the task are asked to stop that work. */
  lemma SuccessStopsOthers(p: Plan, s: State, i: nat, d: Done, j: nat)
    requires NewSuccess(p, s, d) && i < |s.execs| && j < |s.execs|
    ensures |ProcessOne(p, s, i, d).execs| == |s.execs|
    ensures var a, b := s.execs[j], ProcessOne(p, s, i, d).execs[j];
      var runs := exists n :: 0 <= n < |a.running| && a.running[n].Key() == TaskKey(d.rid.id);
      var wq := a.wq + if !a.local && runs then [StopWork(d.rid.id)] else [];
      && wq <= b.wq && (d.rid.id != p.root ==> b == a.(wq := wq))
  {
    SuccessExecs(p, s, i, d);
    AskedAt(s.execs[j], d.rid.id);
  }

  /** The success of the root empties the queue and dismisses every executor. */
  lemma RootSuccessStopsAll(p: Plan, s: State, i: nat, d: Done)
    requires NewSuccess(p, s, d) && i < |s.execs| && d.rid.id == p.root && NoLocalStopping(s.execs)
    ensures var r := ProcessOne(p, s, i, d); r.schedQueue == [] && AllDismissed(r.execs) && p.root in r.succeeded
  {
    SucceedIs(p, s.(finished := s.finished + {d.rid}), d);
    StopAllDismisses(StopRunning(s.execs, d.rid.id));
  }
}
