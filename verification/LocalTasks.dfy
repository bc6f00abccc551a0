/** Tasks that run on the scheduler itself: while one has not succeeded it has a single live attempt, and no success is
    reported for a task that is still in the local queue. Hence the local executor is alive whenever that queue is not
    empty. */
module LocalTasks {
  import opened WorkItems
  import opened Executors
  import opened Plans
  import opened Sched
  import opened SchedInvariants
  import opened SchedLoop

  /** The attempt that the task's retry count names, once it is scheduled. */
  predicate Current(s: State, a: RuntimeId) {
    a in s.scheduled && a.id in s.master && a == RuntimeId(a.id, s.epoch, s.master[a.id].retry)
  }

  /** A task of the scheduler that has not succeeded. */
  predicate Open(p: Plan, s: State, k: nat) { k in p.onScheduler && k !in s.succeeded }

  predicate NoLocal(p: Plan, e: Executor) {
    forall i :: 0 <= i < |e.running| && e.running[i].TaskItem? ==> e.running[i].task.rid.id !in p.onScheduler
  }

  predicate AllRemote(p: Plan, q: seq<Task>) { forall i :: 0 <= i < |q| ==> q[i].rid.id !in p.onScheduler }

  /** Local tasks are neither in the queue for remote executors nor on one of them. */
  predicate Apart(p: Plan, s: State) {
    && AllRemote(p, s.schedQueue) && |s.execs| > 0 && s.execs[0].local
    && forall i :: 0 < i < |s.execs| ==> !s.execs[i].local && NoLocal(p, s.execs[i])
  }

  /** Queued local tasks are unsucceeded, each once, in its current attempt. */
  predicate QueueIs(p: Plan, s: State) {
    && (forall i :: 0 <= i < |s.localQueue| ==> Open(p, s, s.localQueue[i].rid.id) && Current(s, s.localQueue[i].rid))
    && (forall i, j :: 0 <= i < j < |s.localQueue| ==> s.localQueue[i].rid.id != s.localQueue[j].rid.id)
  }

  predicate Keyed(works: seq<Running>) { forall i, j :: 0 <= i < j < |works| ==> works[i].Key() != works[j].Key() }

  /** The local executor runs local tasks, in their current attempts unless they have succeeded. */
  predicate RunningIs(p: Plan, s: State, works: seq<Running>) {
    && Keyed(works)
    && forall i :: 0 <= i < |works| && works[i].TaskItem? ==>
         works[i].task.rid.id in p.onScheduler && (works[i].task.rid.id !in s.succeeded
             ==> Current(s, works[i].task.rid))
  }

  /** Completions still to be processed are of current attempts, and only a success can be followed by another one. */
  predicate PendIs(p: Plan, s: State, pend: seq<Popped>) {
    && (forall i ::
        0 <= i < |pend| && pend[i].done.Terminal() && Open(p, s, pend[i].done.rid.id) ==> Current(s, pend[i].done.rid))
    && (forall i, j :: 0 <= i < j < |pend| && pend[i].done.Terminal() && pend[j].done.Terminal()
                       && pend[i].done.rid.id == pend[j].done.rid.id && Open(p, s, pend[i].done.rid.id)
                       ==> pend[i].done.status == Succeed)
  }

  /** At most one of: queued, running, reported. */
  predicate Lone(s: State, pend: seq<Popped>, k: nat)
    requires |s.execs| > 0
  {
    && (InQueue(s.localQueue, k) ==> !s.execs[0].Has(TaskKey(k)) && !Pending(pend, k))
    && (s.execs[0].Has(TaskKey(k)) ==> !Pending(pend, k))
  }

  predicate RunsAttempt(e: Executor, a: RuntimeId) {
    exists i :: 0 <= i < |e.running| && e.running[i].TaskItem? && e.running[i].task.rid == a
  }

  predicate Reported(pend: seq<Popped>, a: RuntimeId) {
    exists i :: 0 <= i < |pend| && pend[i].done.Terminal() && pend[i].done.rid == a
  }

  /** What became of a pushed attempt. */
  predicate Traced(s: State, pend: seq<Popped>, a: RuntimeId)
    requires |s.execs| > 0
  {
    a in s.finished || RunsAttempt(s.execs[0], a) || Reported(pend, a)
  }

  ghost predicate PushedIs(p: Plan, s: State, pend: seq<Popped>)
    requires |s.execs| > 0
  {
    forall a: RuntimeId :: Pushed(s.execs[0], a) && Open(p, s, a.id) ==> Traced(s, pend, a)
  }

  /** The local executor is only stopped when the root has succeeded, or together with the loop. */
  predicate Standing(p: Plan, s: State)
    requires |s.execs| > 0
  {
    s.running && p.root !in s.succeeded ==> s.execs[0].Alive()
  }

  ghost predicate LocalInv(p: Plan, s: State, pend: seq<Popped>) {
    && Apart(p, s) && QueueIs(p, s) && RunningIs(p, s, s.execs[0].running) && PendIs(p, s, pend)
    && (forall k :: Open(p, s, k) ==> Lone(s, pend, k)) && PushedIs(p, s, pend) && Standing(p, s)
  }

  // ---------------------------------------------------------------- changes elsewhere

  /** The retry counts of the local tasks stay. */
  predicate SameRetries(p: Plan, s: State, r: State) {
    forall k :: k in p.onScheduler && k in s.master ==> k in r.master && r.master[k].retry == s.master[k].retry
  }

  predicate SameLocal(p: Plan, s: State, r: State) {
    && |s.execs| > 0 && |r.execs| > 0 && r.execs[0] == s.execs[0] && r.localQueue == s.localQueue
    && r.succeeded == s.succeeded && s.finished <= r.finished && r.epoch == s.epoch && (r.running ==> s.running)
    && s.scheduled.Keys <= r.scheduled.Keys && SameRetries(p, s, r)
  }

  lemma LocalFrame(p: Plan, s: State, r: State, pend: seq<Popped>)
    requires LocalInv(p, s, pend) && SameLocal(p, s, r) && Apart(p, r)
    ensures LocalInv(p, r, pend)
  {
    assert forall a: RuntimeId :: a.id in p.onScheduler && Current(s, a) ==> Current(r, a);
    forall k | Open(p, r, k) ensures Lone(r, pend, k) { assert Open(p, s, k) && Lone(s, pend, k); }
    forall a: RuntimeId | Pushed(r.execs[0], a) && Open(p, r, a.id) ensures Traced(r, pend, a) {
      assert Traced(s, pend, a);
    }
  }

  // ---------------------------------------------------------------- enqueue

  /** An attempt that is not scheduled belongs to a task that is not live. */
  lemma NotLive(p: Plan, s: State, pend: seq<Popped>, k: nat)
    requires LocalInv(p, s, pend) && Open(p, s, k) && k in s.master
        && RuntimeId(k, s.epoch, s.master[k].retry) !in s.scheduled
    ensures !InQueue(s.localQueue, k) && !s.execs[0].Has(TaskKey(k)) && !Pending(pend, k)
  {
  }

  lemma AppendLocal(p: Plan, s: State, pend: seq<Popped>, t: Task)
    requires LocalInv(p, s, pend) && Open(p, s, t.rid.id) && t.rid !in s.scheduled
    requires t.rid.id in s.master && t.rid == RuntimeId(t.rid.id, s.epoch, s.master[t.rid.id].retry)
    ensures LocalInv(p, s.(scheduled := s.scheduled[t.rid := t], localQueue := s.localQueue + [t]), pend)
  {
    var r := s.(scheduled := s.scheduled[t.rid := t], localQueue := s.localQueue + [t]);
    NotLive(p, s, pend, t.rid.id);
    assert forall a: RuntimeId :: Current(s, a) ==> Current(r, a);
    forall i | 0 <= i < |s.localQueue| ensures s.localQueue[i].rid.id != t.rid.id {
      assert r.localQueue[i] == s.localQueue[i];
    }
    forall k | Open(p, r, k) ensures Lone(r, pend, k) {
      assert Open(p, s, k) && Lone(s, pend, k);
      if k != t.rid.id && InQueue(r.localQueue, k) {
        var i :| 0 <= i < |r.localQueue| && r.localQueue[i].rid.id == k;
        assert s.localQueue[i].rid.id == k;
      }
    }
    forall a: RuntimeId | Pushed(r.execs[0], a) && Open(p, r, a.id) ensures Traced(r, pend, a) {
      assert Traced(s, pend, a);
    }
  }

  lemma EnqueueLocal(p: Plan, s: State, pend: seq<Popped>, t: Task)
    requires LocalInv(p, s, pend) && t.rid.id !in s.succeeded && t.rid !in s.scheduled
    requires t.rid.id in s.master && t.rid == RuntimeId(t.rid.id, s.epoch, s.master[t.rid.id].retry)
    ensures LocalInv(p, Enqueue(p, s, t), pend)
  {
    if t.rid.id in p.onScheduler {
      AppendLocal(p, s, pend, t);
    } else {
      LocalFrame(p, s, Enqueue(p, s, t), pend);
    }
  }

  lemma RaiseLocal(p: Plan, s: State, e: Error, pend: seq<Popped>)
    requires LocalInv(p, s, pend)
    ensures LocalInv(p, s.Fail(e), pend)
  {
    LocalFrame(p, s, s.Fail(e), pend);
  }

  lemma {:induction false} EnqueueOneLocal(p: Plan, s: State, k: nat, pend: seq<Popped>)
    requires LocalInv(p, s, pend)
    ensures LocalInv(p, EnqueueOne(p, s, k), pend)
    decreases Height(p, k) + 1, 0
  {
    if k !in p.tasks || k !in s.master {
      RaiseLocal(p, s, UnknownTask, pend);
    } else if !Ready(p, s, k) {
      RaiseLocal(p, s, MissingInput, pend);
    } else if s.Done(k) {
      RaiseLocal(p, s, UnknownConsumer, pend);
      EnqueueAllLocal(p, LookUp(p, s, k), Consumers(p, s, k), pend);
    } else {
      var t := CopyTask(p, s, k);
      if t.rid !in s.scheduled { EnqueueLocal(p, s, pend, t); }
    }
  }

  lemma {:induction false} EnqueueAllLocal(p: Plan, s: State, ks: seq<nat>, pend: seq<Popped>)
    requires LocalInv(p, s, pend)
    ensures LocalInv(p, EnqueueAll(p, s, ks), pend)
    decreases Heights(p, ks), 1 + |ks|
  {
    if ks != [] {
      assert ks[0] in ks && forall k :: k in ks[1..] ==> k in ks;
      HeightsBound(p, ks[1..], Heights(p, ks));
      EnqueueOneLocal(p, s, ks[0], pend);
      EnqueueAllLocal(p, EnqueueOne(p, s, ks[0]), ks[1..], pend);
    }
  }

  // ---------------------------------------------------------------- retry

  /** No attempt of k is queued, running or reported. */
  predicate Gone(s: State, pend: seq<Popped>, k: nat)
    requires |s.execs| > 0
  {
    !InQueue(s.localQueue, k) && !s.execs[0].Has(TaskKey(k)) && !Pending(pend, k)
  }

  lemma SetMasterLocal(p: Plan, s: State, k: nat, m: Master, pend: seq<Popped>)
    requires LocalInv(p, s, pend) && (Open(p, s, k) ==>
      Gone(s, pend, k) || (k in s.master && m.retry == s.master[k].retry))
    ensures LocalInv(p, s.(master := s.master[k := m]), pend)
  {
    var r := s.(master := s.master[k := m]);
    forall a: RuntimeId | Current(s, a) && (a.id != k || (k in s.master && m.retry == s.master[k].retry))
        ensures Current(r, a) {}
    forall c | Open(p, r, c) ensures Lone(r, pend, c) { assert Open(p, s, c) && Lone(s, pend, c); }
    forall a: RuntimeId | Pushed(r.execs[0], a) && Open(p, r, a.id) ensures Traced(r, pend, a) {
      assert Traced(s, pend, a);
    }
    if Open(p, s, k) && Gone(s, pend, k) {
      forall i | 0 <= i < |s.localQueue| ensures s.localQueue[i].rid.id != k {}
      forall i | 0 <= i < |s.execs[0].running| && s.execs[0].running[i].TaskItem?
          ensures s.execs[0].running[i].task.rid.id != k {
        assert s.execs[0].running[i].Key() == TaskKey(s.execs[0].running[i].task.rid.id);
      }
      forall i | 0 <= i < |pend| && pend[i].done.Terminal() ensures pend[i].done.rid.id != k {}
    }
  }

  /** What a retry does before it enqueues. */
  function Renumbered(s: State, k: nat): State
    requires k in s.master
  {
    var m := s.master[k];
    if m.status == Succeed && m.epoch == s.epoch then Bump(s, k).Fail(RetriedSucceeded) else Bump(s, k)
  }

  lemma BumpLocal(p: Plan, s: State, k: nat, pend: seq<Popped>)
    requires LocalInv(p, s, pend) && k in s.master && (Open(p, s, k) ==> Gone(s, pend, k))
    ensures LocalInv(p, Bump(s, k), pend)
  {
    SetMasterLocal(p, s, k, s.master[k].(retry := s.master[k].retry + 1), pend);
  }

  lemma RenumberedLocal(p: Plan, s: State, k: nat, pend: seq<Popped>)
    requires LocalInv(p, s, pend) && k in s.master && (Open(p, s, k) ==> Gone(s, pend, k))
    ensures LocalInv(p, Renumbered(s, k), pend)
  {
    BumpLocal(p, s, k, pend);
    RaiseLocal(p, Bump(s, k), RetriedSucceeded, pend);
  }

  lemma RetryIs(p: Plan, s: State, k: nat)
    requires k in s.master
    ensures Retry(p, s, k) == EnqueueOne(p, Renumbered(s, k), k)
  {
  }

  /** A retry gives the task a new attempt; a local one must have no other. */
  lemma RetryLocal(p: Plan, s: State, k: nat, pend: seq<Popped>)
    requires LocalInv(p, s, pend) && (Open(p, s, k) ==> Gone(s, pend, k))
    ensures LocalInv(p, Retry(p, s, k), pend)
  {
    if k in s.master {
      RetryIs(p, s, k);
      RenumberedLocal(p, s, k, pend);
      EnqueueOneLocal(p, Renumbered(s, k), k, pend);
    } else {
      RaiseLocal(p, s, UnknownTask, pend);
    }
  }

  predicate RemoteWorks(p: Plan, works: seq<Running>) {
    forall i :: 0 <= i < |works| && works[i].TaskItem? ==> works[i].task.rid.id !in p.onScheduler
  }

  lemma {:induction false} SpeculateAllLocal(p: Plan, s: State, works: seq<Running>, slow: set<RuntimeId>)
    requires LocalInv(p, s, []) && RemoteWorks(p, works)
    ensures LocalInv(p, SpeculateAll(p, s, works, slow), [])
    decreases |works|
  {
    if works != [] {
      if Speculates(p, s, works[0], slow) { RetryLocal(p, s, works[0].task.rid.id, []); }
      SpeculateAllLocal(p, SpeculateOne(p, s, works[0], slow), works[1..], slow);
    }
  }

  lemma {:induction false} SpeculateLocal(p: Plan, s: State, i: nat, slow: set<RuntimeId>)
    requires LocalInv(p, s, [])
    ensures LocalInv(p, Speculate(p, s, i, slow), [])
    decreases |s.execs| - i
  {
    if i < |s.execs| {
      var e := s.execs[i];
      if !e.local && e.Working() {
        assert NoLocal(p, e) && RemoteWorks(p, e.running);
        SpeculateAllLocal(p, s, e.running, slow);
        SpeculateLocal(p, SpeculateAll(p, s, e.running, slow), i + 1, slow);
      } else {
        SpeculateLocal(p, s, i + 1, slow);
      }
    }
  }

  lemma {:induction false} RescheduleAllLocal(p: Plan, s: State, works: seq<Running>)
    requires LocalInv(p, s, []) && RemoteWorks(p, works)
    ensures LocalInv(p, RescheduleAll(p, s, works), [])
    decreases |works|
  {
    if works != [] {
      var w := works[0];
      if w.TaskItem? && !s.Done(w.task.rid.id) { RetryLocal(p, s, w.task.rid.id, []); }
      RescheduleAllLocal(p, RescheduleOne(p, s, w), works[1..]);
    }
  }

  // ---------------------------------------------------------------- probes and executor states

  lemma ProbeRoundLocal(p: Plan, s: State, joined: nat, speculate: bool, slow: set<RuntimeId>)
    requires LocalInv(p, s, [])
    ensures LocalInv(p, ProbeRound(p, s, joined, speculate, slow), [])
  {
    var epoch := s.probeEpoch + 1;
    var all := s.execs + seq(joined, i => NewExecutor(s.probeEpoch));
    var execs := SendProbes(all, epoch);
    var s1 := s.(execs := execs, probeEpoch := epoch);
    forall i | 0 < i < |execs| ensures !execs[i].local && NoLocal(p, execs[i]) {
      assert execs[i].running == all[i].running;
      if i < |s.execs| { assert NoLocal(p, s.execs[i]); }
    }
    LocalFrame(p, s, s1, []);
    SpeculateLocal(p, s1, 0, slow);
  }

  lemma UpdateExecutorLocal(p: Plan, s: State, i: nat)
    requires LocalInv(p, s, []) && i < |s.execs|
    ensures LocalInv(p, UpdateExecutor(p, s, i), [])
  {
    var e := s.execs[i];
    if !e.local && e.Alive() {
      var e' := e.UpdateState(s.probeEpoch, p.cfg.maxMissed);
      var s1 := s.(execs := s.execs[i := e']);
      assert NoLocal(p, e) && e'.running == e.running;
      forall j | 0 < j < |s1.execs| ensures !s1.execs[j].local && NoLocal(p, s1.execs[j]) {
        if j != i { assert s1.execs[j] == s.execs[j]; }
      }
      LocalFrame(p, s, s1, []);
      RescheduleAllLocal(p, s1, e.running);
    }
  }

  lemma {:induction false} UpdateExecutorsLocal(p: Plan, s: State, i: nat)
    requires LocalInv(p, s, [])
    ensures LocalInv(p, UpdateExecutors(p, s, i), [])
    decreases |s.execs| - i
  {
    if i < |s.execs| {
      UpdateExecutorLocal(p, s, i);
      UpdateExecutorsLocal(p, UpdateExecutor(p, s, i), i + 1);
    }
  }
}
