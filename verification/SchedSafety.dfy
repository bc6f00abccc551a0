/** Iterations and whole runs keep the invariants; no assertion of the loop fails. */
module SchedSafety {
  import opened WorkItems
  import opened Executors
  import opened Plans
  import opened Sched
  import opened Dispatch
  import opened SchedInvariants
  import opened SchedSteps
  import opened DispatchSteps
  import opened SchedLoop
  import opened SchedRuns
  import opened LocalTasks
  import opened LocalRuns

  /** The whole invariant between two iterations. */
  ghost predicate Safe(p: Plan, s: State) { Inv(p, s) && LocalInv(p, s, []) }

  // ---------------------------------------------------------------- one iteration

  /** After `update_executor_states` no good executor has been asked to stop: no task is dispatched after a stop
      request. */
  lemma {:induction false} UpdateFrees(p: Plan, s: State, i: nat)
    requires i <= |s.execs| && GoodFree(s.execs[..i])
    ensures GoodFree(UpdateExecutors(p, s, i).execs)
    decreases |s.execs| - i
  {
    if i < |s.execs| {
      var r := UpdateExecutor(p, s, i);
      assert r.execs[..i] == s.execs[..i];
      assert r.execs[..i + 1] == r.execs[..i] + [r.execs[i]];
      UpdateFrees(p, r, i + 1);
    } else {
      assert s.execs[..i] == s.execs;
    }
  }

  lemma UpdatedKeeps(p: Plan, s: State, inp: Input)
    requires Inv(p, s) && s.running
    ensures Ongoing(p, Updated(p, s, inp), {}) && Extends(s, Updated(p, s, inp))
  {
    var s1 := if inp.probe then ProbeRound(p, s, inp.joined, inp.speculate, inp.slow) else s;
    if inp.probe { ProbeRoundKeeps(p, s, inp.joined, inp.speculate, inp.slow); }
    UpdateExecutorsKeeps(p, s1, 0);
    UpdateFrees(p, s1, 0);
  }

  lemma UpdatedLocal(p: Plan, s: State, inp: Input)
    requires LocalInv(p, s, [])
    ensures LocalInv(p, Updated(p, s, inp), [])
  {
    var s1 := if inp.probe then ProbeRound(p, s, inp.joined, inp.speculate, inp.slow) else s;
    if inp.probe { ProbeRoundLocal(p, s, inp.joined, inp.speculate, inp.slow); }
    UpdateExecutorsLocal(p, s1, 0);
  }

  lemma AssignedLocal(p: Plan, s: State, inp: Input)
    requires LocalInv(p, s, [])
    ensures LocalInv(p, Assigned(p, s, inp), [])
  {
    var s1 := Updated(p, s, inp);
    UpdatedLocal(p, s, inp);
    PushLocalQueueLocal(p, s1);
    DispatchLocal(p, PushLocalQueue(s1));
    StopIdleLocal(p, DispatchTasks(p, PushLocalQueue(s1)));
  }

  /** The assertion at the head of the loop: the local executor is alive when a local task is queued. */
  lemma LocalStands(p: Plan, s: State)
    requires Base(p, s) && LocalInv(p, s, []) && s.running
    ensures s.localQueue == [] || s.execs[0].Alive()
  {
    if s.localQueue != [] {
      var t := s.localQueue[0];
      assert t in s.localQueue && IsWaiting(s, t);
      ScheduledReady(p, s, t.rid);
      if p.root in s.succeeded { RootMeansAll(p, s); }
    }
  }

  lemma DispatchedKeeps(p: Plan, s: State)
    requires Ongoing(p, s, {}) && (s.localQueue == [] || s.execs[0].Alive())
    ensures var r := DispatchTasks(p, PushLocalQueue(s)); Ongoing(p, r, {}) && Extends(s, r)
  {
    var r := PushLocalQueue(s);
    PushLocalQueueKeeps(p, s);
    DispatchKeeps(p, r);
    ExtendsTransitive(s, r, DispatchTasks(p, r));
  }

  lemma FedKeeps(p: Plan, s: State)
    requires Ongoing(p, s, {}) && (s.localQueue == [] || s.execs[0].Alive())
    ensures var r := StopIdle(p, DispatchTasks(p, PushLocalQueue(s))); Inv(p, r) && Extends(s, r) && r.running
  {
    var r := DispatchTasks(p, PushLocalQueue(s));
    DispatchedKeeps(p, s);
    StopIdleKeeps(p, r);
    StopIdleExtends(p, r);
    ExtendsTransitive(s, r, StopIdle(p, r));
  }

  lemma StopIdleExtends(p: Plan, s: State)
    ensures Extends(s, StopIdle(p, s)) && StopIdle(p, s).running == s.running
  {
  }

  lemma UpdatedStands(p: Plan, s: State, inp: Input)
    requires Safe(p, s) && s.running
    ensures var s1 := Updated(p, s, inp); s1.localQueue == [] || (|s1.execs| > 0 && s1.execs[0].Alive())
  {
    UpdatedKeeps(p, s, inp);
    UpdatedLocal(p, s, inp);
    LocalStands(p, Updated(p, s, inp));
  }

  lemma AssignedKeeps(p: Plan, s: State, inp: Input)
    requires Safe(p, s) && s.running
    ensures Inv(p, Assigned(p, s, inp)) && Extends(s, Assigned(p, s, inp)) && Assigned(p, s, inp).running
  {
    UpdatedKeeps(p, s, inp);
    UpdatedStands(p, s, inp);
    FedKeeps(p, Updated(p, s, inp));
    ExtendsTransitive(s, Updated(p, s, inp), Assigned(p, s, inp));
  }

  lemma RunsSplit(execs: seq<Executor>, k: nat)
    requires execs != []
    ensures Runs(execs, k) ==> (execs[0].Tracked() && execs[0].Has(TaskKey(k))) || Runs(execs[1..], k)
  {
    if Runs(execs, k) {
      var i :| 0 <= i < |execs| && execs[i].Tracked() && execs[i].Has(TaskKey(k));
      if i > 0 { RunsAt(execs[1..], i - 1, k); }
    }
  }

  lemma {:induction false} NothingRuns(execs: seq<Executor>, k: nat)
    requires NumRunning(execs) == 0
    ensures !Runs(execs, k)
  {
    if execs != [] {
      NothingRuns(execs[1..], k);
      RunsSplit(execs, k);
    }
  }

  /** The scheduler is never stuck: with empty queues and nothing running, every task has succeeded. */
  lemma NeverStuck(p: Plan, s: State)
    requires Inv(p, s) && Idle(s)
    ensures p.tasks <= s.succeeded.Keys
  {
    forall c | c in p.tasks && c in p.inputs && c !in s.succeeded.Keys ensures !AllIn(p.inputs[c], s.succeeded.Keys) {
      NothingRuns(s.execs, c);
      assert Ready(p, s, c) ==> Queued(s, c) || Runs(s.execs, c);
    }
    forall k | k in p.tasks ensures k in s.succeeded { NoReadyMeansNonePending(p, s.succeeded.Keys, k); }
  }

  /** One iteration keeps the invariant, and with it `error` stays empty: none of the assertions fails. */
  lemma IterateKeeps(p: Plan, s: State, inp: Input)
    requires Safe(p, s) && s.running && Delivered(p, Assigned(p, s, inp), inp.replies)
    ensures Safe(p, Iterate(p, s, inp)) && Extends(s, Iterate(p, s, inp))
  {
    AssignedKeeps(p, s, inp);
    AssignedLocal(p, s, inp);
    SettleKeeps(p, Assigned(p, s, inp), inp.replies);
    SettleLocal(p, Assigned(p, s, inp), inp.replies);
    ExtendsTransitive(s, Assigned(p, s, inp), Iterate(p, s, inp));
  }

  lemma SettleKeeps(p: Plan, s: State, replies: seq<seq<Reply>>)
    requires Inv(p, s) && Delivered(p, s, replies)
    ensures Inv(p, Settle(p, s, replies)) && Extends(s, Settle(p, s, replies))
  {
    if Idle(s) {
      NeverStuck(p, s);
      HaltKeeps(p, s, [], {});
    } else {
      ProcessFinishedKeeps(p, s, replies);
    }
  }

  lemma SettleLocal(p: Plan, s: State, replies: seq<seq<Reply>>)
    requires Safe(p, s) && Delivered(p, s, replies)
    ensures LocalInv(p, Settle(p, s, replies), [])
  {
    if Idle(s) { LocalFrame(p, s, Settle(p, s, replies), []); } else { ProcessFinishedLocal(p, s, replies); }
  }

  lemma {:induction false} RunKeeps(p: Plan, s: State, inputs: seq<Input>)
    requires Safe(p, s) && FairRun(p, s, inputs)
    ensures Safe(p, Run(p, s, inputs)) && Extends(s, Run(p, s, inputs))
    decreases |inputs|
  {
    if inputs != [] && Looping(s) {
      IterateKeeps(p, s, inputs[0]);
      RunKeeps(p, Iterate(p, s, inputs[0]), inputs[1..]);
      ExtendsTransitive(s, Iterate(p, s, inputs[0]), Run(p, s, inputs));
    }
  }

  // ---------------------------------------------------------------- the start

  /** The local executor once it is started, before the first task. */
  predicate FreshLocal(e: Executor) { e.local && e.state == Good && e.running == [] && e.wq == [] }

  lemma {:induction false} LeavesAre(p: Plan, ks: seq<nat>)
    ensures forall k :: k in Leaves(p, ks) <==> k in ks && k in p.tasks && k in p.inputs && p.inputs[k] == []
  {
    if ks != [] {
      LeavesAre(p, ks[1..]);
      assert forall k :: k in ks <==> k == ks[0] || k in ks[1..];
    }
  }

  lemma NothingInEmpty(ks: seq<nat>)
    ensures AllIn(ks, {}) ==> ks == []
  {
    if ks != [] { assert ks[0] in ks && ks[0] !in {}; }
  }

  lemma BlankIsBase(p: Plan, limits: map<nat, Limits>, local: Executor)
    requires FreshLocal(local)
    ensures Base(p, Blank(p, limits, local))
  {
    var s := Blank(p, limits, local);
    assert s.master.Keys == p.tasks;
    assert ExecOK(s, local);
  }

  /** Enqueuing the leaves establishes the invariant. */
  lemma StartKeeps(p: Plan, limits: map<nat, Limits>, local: Executor, ks: seq<nat>)
    requires FreshLocal(local) && forall k :: k in p.tasks ==> k in ks
    ensures Safe(p, Start(p, limits, local, ks)) && Start(p, limits, local, ks).running
  {
    var s := Blank(p, limits, local);
    var leaves := Leaves(p, ks);
    var r := Start(p, limits, local, ks);
    LeavesAre(p, ks);
    BlankIsBase(p, limits, local);
    EnqueueAllLocal(p, s, leaves, []);
    EnqueueAllKeeps(p, s, leaves);
    forall k | k in p.tasks && k !in r.succeeded && Ready(p, r, k) ensures Queued(r, k) {
      NothingInEmpty(p.inputs[k]);
      EnqueueAllQueues(p, s, leaves, k);
    }
  }
}
