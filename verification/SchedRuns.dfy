/** Finished tasks are processed without losing work; the theorems about whole runs. */
module SchedRuns {
  import opened WorkItems
  import opened Executors
  import opened Plans
  import opened Sched
  import opened SchedInvariants
  import opened SchedSteps
  import opened DispatchSteps
  import opened SchedLoop

  // ---------------------------------------------------------------- popping completions

  ghost predicate DoneWith(ds: seq<Done>, k: nat) { exists i :: 0 <= i < |ds| && ds[i].Terminal() && ds[i].rid.id == k }

  lemma ReceiveOneShape(e: Executor, r: Reply)
    ensures var e1 := e.Receive(r);
      e1.local == e.local && e1.state == e.state && e1.stopSent == e.stopSent && e1.wq == e.wq
    ensures forall w :: w in e.Receive(r).running ==> w in e.running
  {
  }

  lemma {:induction false} ReceiveShape(e: Executor, rs: seq<Reply>)
    ensures var r := ReceiveAll(e, rs);
      r.local == e.local && r.state == e.state && r.stopSent == e.stopSent && r.wq == e.wq
    ensures forall i :: 0 <= i < |ReceiveAll(e, rs).running| ==> ReceiveAll(e, rs).running[i] in e.running
    decreases |rs|
  {
    if rs != [] {
      var e1 := e.Receive(rs[0]);
      var r := ReceiveAll(e1, rs[1..]);
      ReceiveOneShape(e, rs[0]);
      ReceiveShape(e1, rs[1..]);
      forall i | 0 <= i < |r.running| ensures r.running[i] in e.running { assert r.running[i] in e1.running; }
    }
  }

  lemma PopHas(e: Executor, key: WorkKey, k: WorkKey)
    requires e.Has(k) && k != key
    ensures e.PopKey(key).Has(k)
  {
    if e.Has(key) {
      var i := IndexOf(e.running, key);
      var rest := e.running[..i] + e.running[i + 1..];
      var j :| 0 <= j < |e.running| && e.running[j].Key() == k;
      assert rest[if j < i then j else j - 1] == e.running[j];
    }
  }

  predicate Finishes(r: Reply, k: nat) { r.TaskDone? && r.done.Terminal() && r.done.rid.id == k }

  lemma ReceiveOneHas(e: Executor, r: Reply, k: nat)
    requires e.Has(TaskKey(k)) && r != WorkStopped(k) && !Finishes(r, k)
    ensures e.Receive(r).Has(TaskKey(k))
  {
    match r {
      case WorkStopped(t) => PopHas(e, TaskKey(t), TaskKey(k));
      case ExecutorStopped => PopHas(e.(stopAcked := e.stopAcked || e.state != Stopped), StopKey, TaskKey(k));
      case TaskDone(d) => if d.Terminal() { PopHas(e, TaskKey(d.rid.id), TaskKey(k)); }
      case Probed(a) =>
    }
  }

  lemma DoneWithTail(rs: seq<Reply>, k: nat)
    requires rs != [] && DoneWith(DoneTasks(rs[1..]), k)
    ensures DoneWith(DoneTasks(rs), k)
  {
    DoneWithLater(if rs[0].TaskDone? then [rs[0].done] else [], DoneTasks(rs[1..]), k);
  }

  lemma DoneWithLater(a: seq<Done>, b: seq<Done>, k: nat)
    requires DoneWith(b, k)
    ensures DoneWith(a + b, k)
  {
    var i :| 0 <= i < |b| && b[i].Terminal() && b[i].rid.id == k;
    assert (a + b)[|a| + i] == b[i];
  }

  /** A task leaves `running_works` only with its terminal completion or a confirmed stop request. */
  lemma {:induction false} ReceiveHas(e: Executor, rs: seq<Reply>, k: nat)
    requires e.Has(TaskKey(k)) && WorkStopped(k) !in rs
    ensures ReceiveAll(e, rs).Has(TaskKey(k)) || DoneWith(DoneTasks(rs), k)
    decreases |rs|
  {
    if rs != [] {
      assert rs[0] in rs;
      if Finishes(rs[0], k) {
        assert DoneTasks(rs)[0] == rs[0].done;
      } else {
        ReceiveOneHas(e, rs[0], k);
        ReceiveHas(e.Receive(rs[0]), rs[1..], k);
        if DoneWith(DoneTasks(rs[1..]), k) { DoneWithTail(rs, k); }
      }
    }
  }

  lemma ReceiveKeeps(s: State, e: Executor, rs: seq<Reply>)
    requires ExecOK(s, e)
    ensures CanReplace(s, e, ReceiveAll(e, rs))
  {
    ReceiveShape(e, rs);
    var r := ReceiveAll(e, rs);
    forall i | 0 <= i < |r.running| && r.running[i].TaskItem?
      ensures IsScheduled(s, r.running[i].task)
      ensures OnlySucceeded(s, e) ==> r.running[i].task.rid.id in s.succeeded
    {
      var j :| 0 <= j < |e.running| && e.running[j] == r.running[i];
    }
  }

  lemma {:induction false} PopTasksHas(n: nat, replies: seq<seq<Reply>>, i: nat, j: nat, k: nat)
    requires i <= j < n && DoneWith(DoneTasks(RepliesOf(replies, j)), k)
    ensures Pending(PopTasks(n, replies, i), k)
    decreases j - i
  {
    var pend := PopTasks(n, replies, i);
    var ds := DoneTasks(RepliesOf(replies, i));
    if i == j {
      var d :| 0 <= d < |ds| && ds[d].Terminal() && ds[d].rid.id == k;
      assert pend[d] == Popped(i, ds[d]);
    } else {
      PopTasksHas(n, replies, i + 1, j, k);
      var rest := PopTasks(n, replies, i + 1);
      var d :| 0 <= d < |rest| && rest[d].done.Terminal() && rest[d].done.rid.id == k;
      assert pend[|ds| + d] == rest[d];
    }
  }

  lemma ConfirmedStops(s: State, replies: seq<seq<Reply>>, i: nat, k: nat)
    requires i < |s.execs| && StopsOK(s.execs, replies) && StopOK(s, s.execs[i])
    ensures WorkStopped(k) in RepliesOf(replies, i) ==> k in s.succeeded
  {
    if WorkStopped(k) in RepliesOf(replies, i) { assert StopWork(k) in s.execs[i].wq; }
  }

  /** After the pop, a task that no executor runs any more has its completion pending. */
  lemma PopRuns(s: State, replies: seq<seq<Reply>>, k: nat)
    requires ExecsOK(s) && StopsOK(s.execs, replies) && k !in s.succeeded && Runs(s.execs, k)
    ensures Runs(PopExecs(s.execs, replies), k) || Pending(PopTasks(|s.execs|, replies, 0), k)
  {
    var i :| 0 <= i < |s.execs| && s.execs[i].Tracked() && s.execs[i].Has(TaskKey(k));
    var rs := RepliesOf(replies, i);
    assert ExecOK(s, s.execs[i]);
    ConfirmedStops(s, replies, i, k);
    ReceiveHas(s.execs[i], rs, k);
    ReceiveShape(s.execs[i], rs);
    if DoneWith(DoneTasks(rs), k) {
      PopTasksHas(|s.execs|, replies, 0, i, k);
    } else {
      RunsAt(PopExecs(s.execs, replies), i, k);
    }
  }

  lemma PopKeeps(p: Plan, s: State, replies: seq<seq<Reply>>)
    requires Inv(p, s) && Delivered(p, s, replies)
    ensures var r := s.(execs := PopExecs(s.execs, replies)); var pend := PopTasks(|s.execs|, replies, 0);
      Base(p, r) && Covered(p, r, pend, {}) && PendOK(p, r, pend)
  {
    var execs := PopExecs(s.execs, replies);
    var pend := PopTasks(|s.execs|, replies, 0);
    forall i | 0 <= i < |s.execs| ensures CanReplace(s, s.execs[i], execs[i]) {
      assert ExecOK(s, s.execs[i]);
      ReceiveKeeps(s, s.execs[i], RepliesOf(replies, i));
    }
    ReplaceExecs(p, s, execs);
    forall k | k !in s.succeeded && Runs(s.execs, k) ensures Runs(execs, k) || Pending(pend, k) {
      PopRuns(s, replies, k);
    }
    ExecsCover(p, s, execs, [], pend, {}, {});
    PendSame(p, s, s.(execs := execs), pend);
  }

  lemma PendSame(p: Plan, s: State, r: State, pend: seq<Popped>)
    requires PendOK(p, s, pend) && |r.execs| == |s.execs| && r.finished == s.finished
    requires s.scheduled.Keys <= r.scheduled.Keys && s.succeeded.Keys <= r.succeeded.Keys
    ensures PendOK(p, r, pend)
  {
    forall i | 0 <= i < |pend| ensures pend[i].exec < |r.execs| && DoneOK(p, r, pend[i].done) {
      assert DoneOK(p, s, pend[i].done);
    }
  }

  // ---------------------------------------------------------------- processing one completion

  lemma PendingTail(pend: seq<Popped>, k: nat)
    requires pend != [] && Pending(pend, k)
    ensures (pend[0].done.Terminal() && pend[0].done.rid.id == k) || Pending(pend[1..], k)
  {
    var i :| 0 <= i < |pend| && pend[i].done.Terminal() && pend[i].done.rid.id == k;
    if i > 0 { assert pend[1..][i - 1] == pend[i]; }
  }

  /** Dropping the head completion uncovers at most its own task. */
  lemma DropPending(p: Plan, s: State, pend: seq<Popped>)
    requires Covered(p, s, pend, {}) && pend != []
    ensures Covered(p, s, pend[1..], {pend[0].done.rid.id})
    ensures !pend[0].done.Terminal() ==> Covered(p, s, pend[1..], {})
  {
    forall k | Pending(pend, k) ensures (pend[0].done.Terminal() && pend[0].done.rid.id == k) || Pending(pend[1..], k) {
      PendingTail(pend, k);
    }
  }

  lemma SetFinished(p: Plan, s: State, a: RuntimeId, pend: seq<Popped>, except: set<nat>)
    requires Base(p, s) && Covered(p, s, pend, except)
    ensures Base(p, s.(finished := s.finished + {a})) && Covered(p, s.(finished := s.finished + {a}), pend, except)
  {
    var r := s.(finished := s.finished + {a});
    ScheduledFrame(p, s, r);
    ClosedFrame(p, s, r);
    QueuesSame(s, r);
    ExecsFrame(s, r);
    forall k | k in p.tasks && k !in r.succeeded && Ready(p, r, k) && k !in except
      ensures Queued(r, k) || Runs(r.execs, k) || Pending(pend, k)
    {
      assert Ready(p, s, k);
    }
  }

  /** Stopping every executor, as the loop does when it ends. */
  lemma StopAllKeeps(p: Plan, s: State, pend: seq<Popped>, except: set<nat>)
    requires Base(p, s) && Covered(p, s, pend, except) && (s.running ==> p.tasks <= s.succeeded.Keys)
    ensures Base(p, s.(execs := StopAll(s.execs))) && Covered(p, s.(execs := StopAll(s.execs)), pend, except)
  {
    var execs := StopAll(s.execs);
    forall i | 0 <= i < |s.execs| ensures CanReplace(s, s.execs[i], execs[i]) {
      assert ExecOK(s, s.execs[i]);
      if s.running { AllSucceeded(p, s, s.execs[i]); }
      StopKeeps(s, s.execs[i]);
    }
    ReplaceExecs(p, s, execs);
    forall k | Runs(s.execs, k) ensures Runs(execs, k) {
      var i :| 0 <= i < |s.execs| && s.execs[i].Tracked() && s.execs[i].Has(TaskKey(k));
      assert ExecOK(s, s.execs[i]);
      if s.running { AllSucceeded(p, s, s.execs[i]); }
      StopKeeps(s, s.execs[i]);
      RunsAt(execs, i, k);
    }
    ExecsCover(p, s, execs, pend, pend, except, except);
  }

  lemma AllSucceeded(p: Plan, s: State, e: Executor)
    requires ScheduledOK(p, s) && RunningOK(s, e) && p.tasks <= s.succeeded.Keys
    ensures OnlySucceeded(s, e)
  {
    forall i | 0 <= i < |e.running| && e.running[i].TaskItem? ensures e.running[i].task.rid.id in s.succeeded {
      var t := e.running[i].task;
      assert IsScheduled(s, t);
      assert ReadsSucceeded(p, s, t.rid.id, s.scheduled[t.rid].inputs);
    }
  }

  /** No longer running: the stop conditions are void. */
  lemma HaltKeeps(p: Plan, s: State, pend: seq<Popped>, except: set<nat>)
    requires Base(p, s) && Covered(p, s, pend, except)
    ensures Base(p, s.(running := false)) && Covered(p, s.(running := false), pend, except)
  {
    var r := s.(running := false);
    ScheduledFrame(p, s, r);
    ClosedFrame(p, s, r);
    QueuesSame(s, r);
    ExecsFrame(s, r);
    forall k | k in p.tasks && k !in r.succeeded && Ready(p, r, k) && k !in except
      ensures Queued(r, k) || Runs(r.execs, k) || Pending(pend, k)
    {
      assert Ready(p, s, k);
    }
  }

  lemma SetMaster(p: Plan, s: State, k: nat, m: Master, pend: seq<Popped>, except: set<nat>)
    requires Base(p, s) && k in s.master && k !in s.succeeded && Covered(p, s, pend, except)
    requires m.status == s.master[k].status && m.retry >= s.master[k].retry && SameBase(s.master[k].limits, m.limits)
    ensures Base(p, s.(master := s.master[k := m])) && Covered(p, s.(master := s.master[k := m]), pend, except)
  {
    var r := s.(master := s.master[k := m]);
    RetryMaster(p, s, k, m);
    forall c | c in p.tasks && c !in r.succeeded && Ready(p, r, c) && c !in except
      ensures Queued(r, c) || Runs(r.execs, c) || Pending(pend, c)
    {
      assert Ready(p, s, c);
    }
  }

  lemma HaltIfKeeps(p: Plan, s: State, halt: bool, pend: seq<Popped>, except: set<nat>)
    requires Base(p, s) && Covered(p, s, pend, except)
    ensures Base(p, Halt(s, halt)) && Covered(p, Halt(s, halt), pend, except)
  {
    if halt {
      HaltKeeps(p, s, pend, except);
      StopAllKeeps(p, s.(running := false), pend, except);
    }
  }

  lemma NoteKeeps(p: Plan, s: State, i: nat, d: Done, pend: seq<Popped>)
    requires Base(p, s) && i < |s.execs| && d.rid.id !in s.succeeded && Ready(p, s, d.rid.id)
        && Covered(p, s, pend, {d.rid.id})
    ensures var r := NoteFailure(p, s, i, d);
      && Base(p, r) && Ready(p, r, d.rid.id) && Covered(p, r, pend, {d.rid.id}) && |r.execs| == |s.execs|
      && r.scheduled == s.scheduled && r.succeeded == s.succeeded && r.finished == s.finished
  {
    var halt := s.master[d.rid.id].fails + 1 > p.cfg.maxFail;
    HaltIfKeeps(p, s, halt, pend, {d.rid.id});
    SetMaster(p, Halt(s, halt), d.rid.id, Noted(s, i, d), pend, {d.rid.id});
  }

  /** A failed attempt is retried: the task stays covered. */
  lemma FailKeeps(p: Plan, s: State, i: nat, d: Done, pend: seq<Popped>)
    requires Base(p, s) && i < |s.execs| && d.rid.id !in s.succeeded && Ready(p, s, d.rid.id)
    requires Covered(p, s, pend, {d.rid.id})
    ensures Base(p, FailTask(p, s, i, d)) && Covered(p, FailTask(p, s, i, d), pend, {})
    ensures Records(s, FailTask(p, s, i, d))
  {
    NoteKeeps(p, s, i, d, pend);
    RetryCovers(p, NoteFailure(p, s, i, d), d.rid.id, pend, {d.rid.id});
    assert {d.rid.id} - {d.rid.id} == {};
  }

  // ---------------------------------------------------------------- a task succeeds

  function Recorded(s: State, d: Done): State
    requires d.rid.id in s.master
  {
    var k := d.rid.id;
    s.(succeeded := s.succeeded[k := d.rid], execs := StopRunning(s.execs, k),
       master := s.master[k := s.master[k].(status := Succeed, retry := d.rid.retry, epoch := d.rid.epoch)])
  }

  /** The success is recorded, and the consumers have been looked up. */
  function Told(p: Plan, s: State, d: Done): State
    requires d.rid.id in s.master
  {
    LookUp(p, Recorded(s, d), d.rid.id)
  }

  lemma RecordedExecs(s: State, d: Done)
    requires ExecsOK(s) && d.rid.id in s.master
    ensures ExecsOK(Recorded(s, d))
  {
    var r := Recorded(s, d);
    forall i | 0 <= i < |r.execs| ensures ExecOK(r, r.execs[i]) {
      assert ExecOK(s, s.execs[i]);
      assert forall w :: w in r.execs[i].wq ==> w in s.execs[i].wq || w == StopWork(d.rid.id);
    }
  }

  lemma RecordedScheduled(p: Plan, s: State, d: Done)
    requires ScheduledOK(p, s) && d.rid.id in s.master && d.rid.id !in s.succeeded
    ensures ScheduledOK(p, Recorded(s, d))
  {
    var r := Recorded(s, d);
    forall a | a in r.scheduled
      ensures ReadsSucceeded(p, r, a.id, r.scheduled[a].inputs) && CopyOf(p, r, a, r.scheduled[a])
    {
      assert ReadsSucceeded(p, s, a.id, s.scheduled[a].inputs);
    }
  }

  lemma RecordedBase(p: Plan, s: State, d: Done)
    requires Base(p, s) && d.rid.id !in s.succeeded && Ready(p, s, d.rid.id)
    ensures Base(p, Told(p, s, d))
  {
    var r := Told(p, s, d);
    RecordedExecs(s, d);
    RecordedScheduled(p, s, d);
    ToldError(p, s, d);
    QueuesSame(s, r);
    ExecsFrame(Recorded(s, d), r);
    ScheduledFrame(p, Recorded(s, d), r);
    forall c | c in r.succeeded ensures Ready(p, r, c) { assert Ready(p, s, c); }
    assert r.master.Keys == s.master.Keys;
  }

  lemma ToldError(p: Plan, s: State, d: Done)
    requires ErrorIs(p, s) && d.rid.id in s.master
    ensures ErrorIs(p, Told(p, s, d))
  {
    var r := Told(p, s, d);
    assert forall k :: k in r.succeeded <==> k in s.succeeded || k == d.rid.id;
  }

  ghost function OutputsOf(p: Plan, k: nat): set<nat>
    requires k in p.tasks
  {
    assert Linked(p, k);
    set c | c in p.outputs[k]
  }

  lemma RecordedCovers(p: Plan, s: State, d: Done, pend: seq<Popped>)
    requires d.rid.id in s.master && Ready(p, s, d.rid.id) && Covered(p, s, pend, {d.rid.id})
    ensures Covered(p, Told(p, s, d), pend, OutputsOf(p, d.rid.id))
  {
    var r := Told(p, s, d);
    forall c | c in p.tasks && c !in r.succeeded && Ready(p, r, c) && c !in OutputsOf(p, d.rid.id)
      ensures Queued(r, c) || Runs(r.execs, c) || Pending(pend, c)
    {
      assert Linked(p, c) && Linked(p, d.rid.id);
      assert Ready(p, s, c);
      if Runs(s.execs, c) {
        var i :| 0 <= i < |s.execs| && s.execs[i].Tracked() && s.execs[i].Has(TaskKey(c));
        RunsAt(r.execs, i, c);
      }
    }
  }

  lemma ScheduledReady(p: Plan, s: State, a: RuntimeId)
    requires ScheduledOK(p, s) && a in s.scheduled
    ensures Ready(p, s, a.id)
  {
    assert ReadsSucceeded(p, s, a.id, s.scheduled[a].inputs);
  }

  /** A consumer cannot have been scheduled before its last input succeeded. */
  lemma ConsumerUnscheduled(p: Plan, s: State, k: nat, c: nat, a: RuntimeId)
    requires ScheduledOK(p, s) && k in p.tasks && k !in s.succeeded && c in OutputsOf(p, k) && a.id == c
    ensures a !in s.scheduled
  {
    assert Linked(p, k);
    if a in s.scheduled { ScheduledReady(p, s, a); }
  }

  lemma ConsumersEnqueued(p: Plan, s: State, d: Done, pend: seq<Popped>)
    requires Base(p, s) && d.rid.id !in s.succeeded && Ready(p, s, d.rid.id) && Covered(p, s, pend, {d.rid.id})
    ensures var s1 := Told(p, s, d); var s2 := EnqueueAll(p, s1, Consumers(p, Recorded(s, d), d.rid.id));
      Base(p, s2) && Covered(p, s2, pend, {}) && s2.succeeded == s1.succeeded && Grows(s1, s2)
  {
    var k := d.rid.id;
    var s1 := Told(p, s, d);
    var ks := Consumers(p, Recorded(s, d), k);
    var s2 := EnqueueAll(p, s1, ks);
    RecordedBase(p, s, d);
    RecordedCovers(p, s, d, pend);
    EnqueueAllKeeps(p, s1, ks);
    GrowsCovers(p, s1, s2, pend, OutputsOf(p, k));
    forall c | c in OutputsOf(p, k) && c !in s2.succeeded && Ready(p, s2, c) ensures Queued(s2, c) {
      assert Ready(p, s1, c);
      ConsumerUnscheduled(p, s, k, c, RuntimeId(c, s1.epoch, s1.master[c].retry));
      EnqueueAllQueues(p, s1, ks, c);
    }
  }

  lemma RootMeansAll(p: Plan, s: State)
    requires Closed(p, s) && p.root in s.succeeded
    ensures p.tasks <= s.succeeded.Keys
  {
    forall k | k in p.tasks ensures k in s.succeeded {
      assert forall c :: c in s.succeeded.Keys ==> Ready(p, s, c);
      RootClosureIsEverything(p, s.succeeded.Keys, k);
    }
  }

  lemma SucceedIs(p: Plan, s: State, d: Done)
    requires d.rid.id in p.tasks && d.rid.id in s.master
    ensures var s2 := EnqueueAll(p, Told(p, s, d), Consumers(p, Recorded(s, d), d.rid.id));
      SucceedTask(p, s, d) == if d.rid.id == p.root then s2.(schedQueue := [], execs := StopAll(s2.execs)) else s2
  {
  }

  /** A success enqueues every consumer that became ready; the success of the root ends the run. */
  lemma SucceedKeeps(p: Plan, s: State, d: Done, pend: seq<Popped>)
    requires Base(p, s) && d.rid.id !in s.succeeded && Ready(p, s, d.rid.id) && Covered(p, s, pend, {d.rid.id})
    ensures Base(p, SucceedTask(p, s, d)) && Covered(p, SucceedTask(p, s, d), pend, {})
    ensures Extends(s, SucceedTask(p, s, d)) && d.rid.id in SucceedTask(p, s, d).succeeded
  {
    var s2 := EnqueueAll(p, Told(p, s, d), Consumers(p, Recorded(s, d), d.rid.id));
    ConsumersEnqueued(p, s, d, pend);
    SucceedIs(p, s, d);
    if d.rid.id == p.root { FinishKeeps(p, s2, pend); }
    ToldExtends(p, s, d);
  }

  /** Nothing is left to do once the root has succeeded. */
  lemma FinishKeeps(p: Plan, s: State, pend: seq<Popped>)
    requires Base(p, s) && p.root in s.succeeded
    ensures var r := s.(schedQueue := [], execs := StopAll(s.execs)); Base(p, r) && Covered(p, r, pend, {})
  {
    RootMeansAll(p, s);
    SetQueue(p, s, []);
    var r := s.(schedQueue := []);
    assert Covered(p, r, pend, {});
    StopAllKeeps(p, r, pend, {});
  }

  lemma ToldExtends(p: Plan, s: State, d: Done)
    requires d.rid.id in s.master && d.rid.id !in s.succeeded
    ensures Extends(s, Told(p, s, d))
  {
  }

  // ---------------------------------------------------------------- one batch of completions

  ghost predicate Ahead(p: Plan, s: State, pend: seq<Popped>) {
    Base(p, s) && Covered(p, s, pend, {}) && PendOK(p, s, pend)
  }

  lemma FailGrows(p: Plan, s: State, i: nat, d: Done)
    requires d.rid.id in s.master && i < |s.execs|
    ensures var r := FailTask(p, s, i, d);
      |r.execs| == |s.execs| && r.finished == s.finished && r.succeeded == s.succeeded
  {
    assert NoteFailure(p, s, i, d).finished == s.finished;
  }

  /** The branch that processes a terminal completion of an unsucceeded task. */
  function Decide(p: Plan, s: State, i: nat, d: Done): State
    requires d.rid.id in p.tasks && d.rid.id in s.master && i < |s.execs|
  {
    if s.Done(d.rid.id) then s
    else if d.status == Failed || d.status == Crashed then FailTask(p, s, i, d)
    else SucceedTask(p, s, d)
  }

  lemma DecideKeeps(p: Plan, s: State, i: nat, d: Done, pend: seq<Popped>)
    requires Base(p, s) && Covered(p, s, pend, {d.rid.id}) && i < |s.execs| && d.rid.id in p.tasks
    requires Ready(p, s, d.rid.id) && (d.status == Failed || d.status == Crashed || d.status == Succeed)
    ensures var r := Decide(p, s, i, d);
      && Base(p, r) && Covered(p, r, pend, {}) && Extends(s, r) && |r.execs| == |s.execs| && r.finished == s.finished
      && (d.status == Succeed ==> d.rid.id in r.succeeded)
  {
    if !s.Done(d.rid.id) {
      if d.status == Succeed {
        SucceedKeeps(p, s, d, pend);
      } else {
        FailKeeps(p, s, i, d, pend);
        FailGrows(p, s, i, d);
      }
    }
  }

  /** Completions that change nothing are told from those that are decided. */
  predicate Decides(p: Plan, s: State, d: Done) {
    (d.rid in s.scheduled || d.status == Succeed || Ready(p, s, d.rid.id)) && d.Terminal() && d.rid !in s.finished
  }

  lemma ProcessIs(p: Plan, s: State, i: nat, d: Done)
    requires d.rid.id in p.tasks && d.rid.id in s.master && i < |s.execs|
    requires d.status == ExecFailed ==> d.rid.id in s.succeeded
    ensures ProcessOne(p, s, i, d) ==
      if Decides(p, s, d) then Decide(p, s.(finished := s.finished + {d.rid}), i, d) else s
  {
  }

  lemma DecidedKeeps(p: Plan, s: State, i: nat, d: Done, pend: seq<Popped>)
    requires Base(p, s) && Covered(p, s, pend, {d.rid.id}) && i < |s.execs| && d.rid.id in p.tasks
    requires Ready(p, s, d.rid.id) && Decides(p, s, d)
        && (d.status == Failed || d.status == Crashed || d.status == Succeed || d.rid.id in s.succeeded)
    ensures var r := Decide(p, s.(finished := s.finished + {d.rid}), i, d);
      && Base(p, r) && Covered(p, r, pend, {}) && Extends(s, r) && |r.execs| == |s.execs|
      && r.finished == s.finished + {d.rid} && (d.status == Succeed ==> d.rid.id in r.succeeded)
  {
    var s1 := s.(finished := s.finished + {d.rid});
    SetFinished(p, s, d.rid, pend, {d.rid.id});
    assert Ready(p, s1, d.rid.id);
    if s1.Done(d.rid.id) { NothingToDecide(p, s1, d, pend); } else { DecideKeeps(p, s1, i, d, pend); }
  }

  lemma ProcessBase(p: Plan, s: State, pend: seq<Popped>)
    requires Ahead(p, s, pend) && pend != []
    ensures var r := ProcessOne(p, s, pend[0].exec, pend[0].done);
      && Base(p, r) && Covered(p, r, pend[1..], {}) && Extends(s, r) && |r.execs| == |s.execs|
      && (pend[0].done.status == Succeed ==> pend[0].done.rid.id in r.succeeded)
      && r.finished <= s.finished + (if pend[0].done.Terminal() then {pend[0].done.rid} else {})
  {
    var i, d := pend[0].exec, pend[0].done;
    DropPending(p, s, pend);
    assert DoneOK(p, s, d);
    ProcessIs(p, s, i, d);
    if d.rid in s.scheduled { ScheduledReady(p, s, d.rid); }
    if Decides(p, s, d) {
      DecidedKeeps(p, s, i, d, pend[1..]);
    } else if d.Terminal() && Ready(p, s, d.rid.id) {
      NothingToDecide(p, s, d, pend[1..]);
    }
  }

  lemma NothingToDecide(p: Plan, s: State, d: Done, pend: seq<Popped>)
    requires Covered(p, s, pend, {d.rid.id}) && d.rid.id in s.succeeded
    ensures Covered(p, s, pend, {})
  {
  }

  lemma PendTail(p: Plan, s: State, r: State, pend: seq<Popped>)
    requires PendOK(p, s, pend) && pend != [] && |r.execs| == |s.execs|
    requires r.finished <= s.finished + (if pend[0].done.Terminal() then {pend[0].done.rid} else {})
    requires s.scheduled.Keys <= r.scheduled.Keys && s.succeeded.Keys <= r.succeeded.Keys
    requires pend[0].done.status == Succeed ==> pend[0].done.rid.id in r.succeeded
    ensures PendOK(p, r, pend[1..])
  {
    forall i | 0 <= i < |pend[1..]| ensures pend[1..][i].exec < |r.execs| && DoneOK(p, r, pend[1..][i].done) {
      assert DoneOK(p, s, pend[i + 1].done);
    }
  }

  lemma ExtendsTransitive(s: State, r: State, u: State)
    requires Extends(s, r) && Extends(r, u)
    ensures Extends(s, u)
  {
  }

  lemma {:induction false} ProcessAllKeeps(p: Plan, s: State, pend: seq<Popped>)
    requires Ahead(p, s, pend)
    ensures Inv(p, ProcessAll(p, s, pend)) && Extends(s, ProcessAll(p, s, pend))
    decreases |pend|
  {
    if pend != [] {
      var r := ProcessOne(p, s, pend[0].exec, pend[0].done);
      ProcessBase(p, s, pend);
      PendTail(p, s, r, pend);
      ProcessAllKeeps(p, r, pend[1..]);
      ExtendsTransitive(s, r, ProcessAll(p, r, pend[1..]));
    }
  }

  lemma ProcessFinishedKeeps(p: Plan, s: State, replies: seq<seq<Reply>>)
    requires Inv(p, s) && Delivered(p, s, replies)
    ensures Inv(p, ProcessFinished(p, s, replies)) && Extends(s, ProcessFinished(p, s, replies))
  {
    PopKeeps(p, s, replies);
    ProcessAllKeeps(p, s.(execs := PopExecs(s.execs, replies)), PopTasks(|s.execs|, replies, 0));
  }
}
