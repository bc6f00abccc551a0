/** What every step of the scheduler keeps, and that no work is ever lost. */
module SchedInvariants {
  import opened WorkItems
  import opened Executors
  import opened Plans
  import opened Sched

  /** A completion popped from an executor and not processed yet. */
  datatype Popped = Popped(exec: nat, done: Done)

  // ---------------------------------------------------------------- the invariant

  /** The only lookup that can miss is that of a consumer, and it has missed exactly when some task that succeeded names
      a consumer outside the plan. */
  ghost predicate ErrorIs(p: Plan, s: State) {
    && (s.error == None || s.error == Some(UnknownConsumer))
    && (s.error == None <==> forall k :: k in s.succeeded ==> Contained(p, k))
  }

  ghost predicate Shape(p: Plan, s: State) {
    && ErrorIs(p, s)
    && s.master.Keys == p.tasks
    && |s.execs| > 0 && s.execs[0].local
    && forall i :: 0 < i < |s.execs| ==> !s.execs[i].local
  }

  /** The producer attempts a copy of task k reads. */
  ghost predicate ReadsSucceeded(p: Plan, s: State, k: nat, inputs: seq<RuntimeId>) {
    && Ready(p, s, k) && |inputs| == |p.inputs[k]|
    && forall i :: 0 <= i < |inputs| ==> p.inputs[k][i] in s.succeeded && inputs[i] == s.succeeded[p.inputs[k][i]]
  }

  /** An attempt is only scheduled once its inputs succeeded, and reads their succeeded attempts. */
  ghost predicate ScheduledOK(p: Plan, s: State) {
    forall r {:trigger ReadsSucceeded(p, s, r.id, s.scheduled[r].inputs)} ::
      r in s.scheduled ==> ReadsSucceeded(p, s, r.id, s.scheduled[r].inputs) && CopyOf(p, s, r, s.scheduled[r])
  }

  /** An attempt belongs to the node of its task and has the limits of its task. */
  ghost predicate CopyOf(p: Plan, s: State, r: RuntimeId, t: Task) {
    && t.rid == r && r.id in s.master && r.id in p.nodes && t.node == p.nodes[r.id]
    && SameBase(t.limits, s.master[r.id].limits)
  }

  /** The same CPU and GPU limits before boosting, and the same memory limit once there is one. */
  ghost predicate SameBase(a: Limits, b: Limits) {
    a.baseCpu == b.baseCpu && a.gpu == b.gpu && (a.baseMem.Some? ==> b.baseMem == a.baseMem)
  }

  /** Succeeded tasks are closed under inputs. */
  ghost predicate Closed(p: Plan, s: State) {
    forall k :: k in s.succeeded ==> Ready(p, s, k)
  }

  ghost predicate StatusOK(p: Plan, s: State) {
    forall k :: k in s.master ==> (s.master[k].status == Succeed <==> k in s.succeeded)
  }

  /** Retry identity: scheduled attempts of an unsucceeded task are numbered up to its retry count. */
  ghost predicate RetryOK(p: Plan, s: State) {
    forall r :: r in s.scheduled ==>
      && r.epoch == s.epoch
      && (r.id in s.master && r.id !in s.succeeded ==> r.retry <= s.master[r.id].retry)
  }

  ghost predicate IsScheduled(s: State, t: Task) {
    && t.rid in s.scheduled && s.scheduled[t.rid].inputs == t.inputs && s.scheduled[t.rid].node == t.node
    && SameBase(s.scheduled[t.rid].limits, t.limits)
  }

  /** A queued copy is the scheduled attempt, but dispatch may have set its memory limit. */
  ghost predicate IsWaiting(s: State, t: Task) {
    IsScheduled(s, t) && t.limits == s.scheduled[t.rid].limits.(baseMem := t.limits.baseMem)
  }

  ghost predicate QueuesOK(s: State) {
    && (forall t {:trigger IsWaiting(s, t)} :: t in s.localQueue ==> IsWaiting(s, t))
    && (forall t {:trigger IsWaiting(s, t)} :: t in s.schedQueue ==> IsWaiting(s, t))
  }

  ghost predicate RunningOK(s: State, e: Executor) {
    forall i :: 0 <= i < |e.running| && e.running[i].TaskItem? ==> IsScheduled(s, e.running[i].task)
  }

  ghost predicate OnlySucceeded(s: State, e: Executor) {
    forall i :: 0 <= i < |e.running| && e.running[i].TaskItem? ==> e.running[i].task.rid.id in s.succeeded
  }

  /** While the scheduler runs, an executor asked to stop runs no unsucceeded task; stop requests are
      for succeeded tasks only. */
  ghost predicate StopOK(s: State, e: Executor) {
    && (!e.local && (e.state == Stopping || e.state == Stopped) ==> e.stopSent)
    && (!e.local && s.running && e.stopSent ==> OnlySucceeded(s, e))
    && (forall w :: w in e.wq && w.StopWork? ==> w.target in s.succeeded)
  }

  ghost predicate ExecOK(s: State, e: Executor) { RunningOK(s, e) && StopOK(s, e) }

  ghost predicate ExecsOK(s: State) {
    forall i {:trigger ExecOK(s, s.execs[i])} :: 0 <= i < |s.execs| ==> ExecOK(s, s.execs[i])
  }

  ghost predicate Base(p: Plan, s: State) {
    && Shape(p, s) && ScheduledOK(p, s) && Closed(p, s) && StatusOK(p, s) && RetryOK(p, s) && QueuesOK(s) && ExecsOK(s)
  }

  predicate InQueue(q: seq<Task>, k: nat) { exists i :: 0 <= i < |q| && q[i].rid.id == k }

  predicate Queued(s: State, k: nat) { InQueue(s.localQueue, k) || InQueue(s.schedQueue, k) }

  predicate Runs(execs: seq<Executor>, k: nat) {
    exists i :: 0 <= i < |execs| && execs[i].Tracked() && execs[i].Has(TaskKey(k))
  }

  predicate Pending(pend: seq<Popped>, k: nat) {
    exists i :: 0 <= i < |pend| && pend[i].done.Terminal() && pend[i].done.rid.id == k
  }

  /** Nothing is lost: every unsucceeded task whose inputs succeeded is queued, runs on an executor that
      counts, or has a completion waiting to be processed; `except` are the tasks still to be treated. */
  ghost predicate Covered(p: Plan, s: State, pend: seq<Popped>, except: set<nat>) {
    forall k :: k in p.tasks && k !in s.succeeded && Ready(p, s, k) && k !in except
                ==> Queued(s, k) || Runs(s.execs, k) || Pending(pend, k)
  }

  ghost predicate Inv(p: Plan, s: State) { Base(p, s) && Covered(p, s, [], {}) }

  // ---------------------------------------------------------------- enqueue

  /** What is scheduled stays as it was. */
  ghost predicate Records(s: State, r: State) {
    forall a :: a in s.scheduled ==> a in r.scheduled && r.scheduled[a] == s.scheduled[a]
  }

  /** What a step may not take back: scheduled attempts, finished attempts, the attempt a task succeeded with. */
  ghost predicate Extends(s: State, r: State) {
    && Records(s, r) && s.finished <= r.finished && |s.execs| <= |r.execs|
    && forall k :: k in s.succeeded ==> k in r.succeeded && r.succeeded[k] == s.succeeded[k]
  }

  /** r is s after some enqueues: queues and scheduled attempts grow, new attempts are queued. */
  ghost predicate Grows(s: State, r: State) {
    && s.localQueue <= r.localQueue && s.schedQueue <= r.schedQueue
    && Records(s, r)
    && forall a :: a in r.scheduled && a !in s.scheduled ==> Queued(r, a.id)
  }

  lemma QueuePrefix(q: seq<Task>, r: seq<Task>, k: nat)
    requires q <= r && InQueue(q, k)
    ensures InQueue(r, k)
  {
    var i :| 0 <= i < |q| && q[i].rid.id == k;
    assert r[i] == q[i];
  }

  lemma GrowsKeeps(s: State, r: State, k: nat)
    requires s.localQueue <= r.localQueue && s.schedQueue <= r.schedQueue
    ensures Queued(s, k) ==> Queued(r, k)
  {
    if InQueue(s.localQueue, k) { QueuePrefix(s.localQueue, r.localQueue, k); }
    if InQueue(s.schedQueue, k) { QueuePrefix(s.schedQueue, r.schedQueue, k); }
  }

  lemma GrowsTransitive(s: State, r: State, u: State)
    requires Grows(s, r) && Grows(r, u)
    ensures Grows(s, u)
  {
    forall a | a in u.scheduled && a !in s.scheduled ensures Queued(u, a.id) {
      GrowsKeeps(r, u, a.id);
    }
  }

  lemma FreshEnqueue(p: Plan, s: State, t: Task)
    requires t.rid !in s.scheduled
    ensures Grows(s, Enqueue(p, s, t)) && Queued(Enqueue(p, s, t), t.rid.id)
  {
    var r := Enqueue(p, s, t);
    if t.rid.id in p.onScheduler {
      assert r.localQueue[|s.localQueue|] == t;
    } else {
      assert r.schedQueue[|s.schedQueue|] == t;
    }
  }

  lemma ExecsFrame(s: State, r: State)
    requires ExecsOK(s) && r.execs == s.execs && Records(s, r)
    requires s.succeeded.Keys <= r.succeeded.Keys && (r.running ==> s.running)
    ensures ExecsOK(r)
  {
    forall i | 0 <= i < |r.execs| ensures ExecOK(r, r.execs[i]) { assert ExecOK(s, s.execs[i]); }
  }

  lemma ClosedFrame(p: Plan, s: State, r: State)
    requires Closed(p, s) && r.succeeded == s.succeeded
    ensures Closed(p, r)
  {
    forall c | c in r.succeeded ensures Ready(p, r, c) { assert Ready(p, s, c); }
  }

  /** No task is forgotten, and the limits of a task only change in memory, where one that is given stays. */
  ghost predicate LimitsKept(s: State, r: State) {
    s.master.Keys <= r.master.Keys && forall k :: k in s.master ==> SameBase(s.master[k].limits, r.master[k].limits)
  }

  lemma ScheduledFrame(p: Plan, s: State, r: State)
    requires ScheduledOK(p, s) && r.succeeded == s.succeeded && r.scheduled == s.scheduled && LimitsKept(s, r)
    ensures ScheduledOK(p, r)
  {
    forall a | a in r.scheduled
      ensures ReadsSucceeded(p, r, a.id, r.scheduled[a].inputs) && CopyOf(p, r, a, r.scheduled[a])
    {
      assert ReadsSucceeded(p, s, a.id, s.scheduled[a].inputs);
    }
  }

  lemma QueuesSame(s: State, r: State)
    requires QueuesOK(s) && Records(s, r) && r.localQueue == s.localQueue && r.schedQueue == s.schedQueue
    ensures QueuesOK(r)
  {
    forall u | u in r.localQueue || u in r.schedQueue ensures IsWaiting(r, u) { assert IsWaiting(s, u); }
  }

  /** Queues that hold only tasks of s and t are fine when s was and t is scheduled. */
  lemma QueuesFrame(s: State, r: State, t: Task)
    requires QueuesOK(s) && Records(s, r)
    requires forall u :: u in r.localQueue ==> u in s.localQueue || u == t
    requires forall u :: u in r.schedQueue ==> u in s.schedQueue || u == t
    requires t in r.localQueue || t in r.schedQueue ==> IsWaiting(r, t)
    ensures QueuesOK(r)
  {
    forall u | u in r.localQueue ensures IsWaiting(r, u) { if u != t { assert IsWaiting(s, u); } }
    forall u | u in r.schedQueue ensures IsWaiting(r, u) { if u != t { assert IsWaiting(s, u); } }
  }

  /** t is a proper attempt: it reads the succeeded inputs and its number is within the retry count. */
  ghost predicate Proper(p: Plan, s: State, t: Task) {
    && t.rid.id in s.master && ReadsSucceeded(p, s, t.rid.id, t.inputs)
    && t.rid.epoch == s.epoch && t.rid.retry <= s.master[t.rid.id].retry && CopyOf(p, s, t.rid, t)
  }

  lemma CopyIsProper(p: Plan, s: State, k: nat)
    requires Ready(p, s, k) && k in s.master
    ensures Proper(p, s, CopyTask(p, s, k))
  {
    assert Linked(p, k);
    assert forall i :: 0 <= i < |p.inputs[k]| ==> p.inputs[k][i] in p.inputs[k];
  }

  lemma EnqueueScheduled(p: Plan, s: State, t: Task)
    requires ScheduledOK(p, s) && Proper(p, s, t)
    ensures ScheduledOK(p, Enqueue(p, s, t))
  {
    var r := Enqueue(p, s, t);
    forall a | a in r.scheduled
      ensures ReadsSucceeded(p, r, a.id, r.scheduled[a].inputs) && CopyOf(p, r, a, r.scheduled[a])
    {
      if a != t.rid {
        assert ReadsSucceeded(p, s, a.id, s.scheduled[a].inputs);
      }
    }
  }

  lemma EnqueueRetryOK(p: Plan, s: State, t: Task)
    requires RetryOK(p, s) && Proper(p, s, t)
    ensures RetryOK(p, Enqueue(p, s, t))
  {
    assert forall a :: a in Enqueue(p, s, t).scheduled ==> a == t.rid || a in s.scheduled;
  }

  lemma ErrorFrame(p: Plan, s: State, r: State)
    requires ErrorIs(p, s) && r.error == s.error && r.succeeded == s.succeeded
    ensures ErrorIs(p, r)
  {
  }

  lemma EnqueueShape(p: Plan, s: State, t: Task)
    requires Shape(p, s) && StatusOK(p, s)
    ensures Shape(p, Enqueue(p, s, t)) && StatusOK(p, Enqueue(p, s, t))
  {
    ErrorFrame(p, s, Enqueue(p, s, t));
  }

  lemma EnqueueQueues(p: Plan, s: State, t: Task)
    requires QueuesOK(s) && t.rid !in s.scheduled
    ensures QueuesOK(Enqueue(p, s, t))
  {
    QueuesFrame(s, Enqueue(p, s, t), t);
  }

  lemma EnqueueBase(p: Plan, s: State, t: Task)
    requires Base(p, s) && Proper(p, s, t) && t.rid !in s.scheduled
    ensures Base(p, Enqueue(p, s, t))
  {
    var r := Enqueue(p, s, t);
    EnqueueShape(p, s, t);
    EnqueueScheduled(p, s, t);
    EnqueueRetryOK(p, s, t);
    ExecsFrame(s, r);
    ClosedFrame(p, s, r);
    EnqueueQueues(p, s, t);
  }

  lemma {:induction false} EnqueueOneKeeps(p: Plan, s: State, k: nat)
    requires Base(p, s) && Ready(p, s, k)
    ensures Base(p, EnqueueOne(p, s, k)) && Grows(s, EnqueueOne(p, s, k))
    decreases Height(p, k) + 1, 0
  {
    if s.Done(k) {
      assert LookUp(p, s, k) == s;
      EnqueueAllKeeps(p, s, Consumers(p, s, k));
    } else {
      var t := CopyTask(p, s, k);
      if t.rid !in s.scheduled {
        CopyIsProper(p, s, k);
        EnqueueBase(p, s, t);
        FreshEnqueue(p, s, t);
      }
    }
  }

  lemma {:induction false} EnqueueAllKeeps(p: Plan, s: State, ks: seq<nat>)
    requires Base(p, s) && forall k :: k in ks ==> Ready(p, s, k)
    ensures Base(p, EnqueueAll(p, s, ks)) && Grows(s, EnqueueAll(p, s, ks))
    decreases Heights(p, ks), 1 + |ks|
  {
    if ks != [] {
      assert ks[0] in ks && forall k :: k in ks[1..] ==> k in ks;
      HeightsBound(p, ks[1..], Heights(p, ks));
      EnqueueOneKeeps(p, s, ks[0]);
      var s1 := EnqueueOne(p, s, ks[0]);
      assert forall k :: k in ks ==> Ready(p, s1, k);
      EnqueueAllKeeps(p, s1, ks[1..]);
      GrowsTransitive(s, s1, EnqueueAll(p, s, ks));
    }
  }

  /** A listed task that is unsucceeded, and queued already or not scheduled yet, is queued afterwards. */
  lemma {:induction false} EnqueueAllQueues(p: Plan, s: State, ks: seq<nat>, k: nat)
    requires Base(p, s) && k in ks && k !in s.succeeded && forall c :: c in ks ==> Ready(p, s, c)
    requires Queued(s, k) || (k in s.master && RuntimeId(k, s.epoch, s.master[k].retry) !in s.scheduled)
    ensures Queued(EnqueueAll(p, s, ks), k)
    decreases |ks|
  {
    assert ks[0] in ks && forall c :: c in ks[1..] ==> c in ks;
    var s1 := EnqueueOne(p, s, ks[0]);
    EnqueueOneKeeps(p, s, ks[0]);
    GrowsKeeps(s, s1, k);
    assert forall c :: c in ks ==> Ready(p, s1, c);
    if k == ks[0] {
      var t := CopyTask(p, s, k);
      if t.rid !in s.scheduled { FreshEnqueue(p, s, t); }
      EnqueueAllKeeps(p, s1, ks[1..]);
      GrowsKeeps(s1, EnqueueAll(p, s1, ks[1..]), k);
    } else {
      EnqueueAllQueues(p, s1, ks[1..], k);
    }
  }

  /** Enqueuing keeps what was covered. */
  lemma GrowsCovers(p: Plan, s: State, r: State, pend: seq<Popped>, except: set<nat>)
    requires Covered(p, s, pend, except) && Grows(s, r) && r.execs == s.execs && r.succeeded == s.succeeded
    ensures Covered(p, r, pend, except)
  {
    forall k | k in p.tasks && k !in r.succeeded && Ready(p, r, k) && k !in except
      ensures Queued(r, k) || Runs(r.execs, k) || Pending(pend, k)
    {
      assert Ready(p, s, k);
      GrowsKeeps(s, r, k);
    }
  }

  // ---------------------------------------------------------------- retry

  lemma RetryMaster(p: Plan, s: State, k: nat, m: Master)
    requires Base(p, s) && k in s.master && k !in s.succeeded
    requires m.status == s.master[k].status && m.retry >= s.master[k].retry
    requires SameBase(s.master[k].limits, m.limits)
    ensures Base(p, s.(master := s.master[k := m]))
  {
    var r := s.(master := s.master[k := m]);
    assert r.master.Keys == s.master.Keys;
    ExecsFrame(s, r);
    ScheduledFrame(p, s, r);
    ClosedFrame(p, s, r);
    QueuesSame(s, r);
  }

  function Bump(s: State, k: nat): State
    requires k in s.master
  {
    s.(master := s.master[k := s.master[k].(retry := s.master[k].retry + 1)])
  }

  lemma RetryIsEnqueue(p: Plan, s: State, k: nat)
    requires Base(p, s) && Ready(p, s, k) && k !in s.succeeded
    ensures Ready(p, Bump(s, k), k)
    ensures Retry(p, s, k) == Enqueue(p, Bump(s, k), CopyTask(p, Bump(s, k), k))
    ensures CopyTask(p, Bump(s, k), k).rid !in s.scheduled
  {
    assert s.master[k].status != Succeed;
  }

  /** A retry of an unsucceeded task whose inputs succeeded passes the assertion of `get_retry_task`,
      gets a runtime id that was never scheduled, and is queued. */
  lemma RetryKeeps(p: Plan, s: State, k: nat)
    requires Base(p, s) && Ready(p, s, k) && k !in s.succeeded
    ensures Base(p, Retry(p, s, k))
    ensures Grows(s, Retry(p, s, k)) && Queued(Retry(p, s, k), k)
    ensures RuntimeId(k, s.epoch, s.master[k].retry + 1) !in s.scheduled
  {
    RetryIsEnqueue(p, s, k);
    RetryMaster(p, s, k, s.master[k].(retry := s.master[k].retry + 1));
    CopyIsProper(p, Bump(s, k), k);
    EnqueueBase(p, Bump(s, k), CopyTask(p, Bump(s, k), k));
    FreshEnqueue(p, Bump(s, k), CopyTask(p, Bump(s, k), k));
  }

  lemma RetryCovers(p: Plan, s: State, k: nat, pend: seq<Popped>, except: set<nat>)
    requires Base(p, s) && Ready(p, s, k) && k !in s.succeeded && Covered(p, s, pend, except)
    ensures Base(p, Retry(p, s, k)) && Covered(p, Retry(p, s, k), pend, except - {k})
    ensures Grows(s, Retry(p, s, k))
  {
    var r := Retry(p, s, k);
    RetryKeeps(p, s, k);
    GrowsCovers(p, s, r, pend, except);
  }
}
