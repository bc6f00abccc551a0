/** The single live attempt of every local task, through dispatch and the processing of completions. */
module LocalRuns {
  import opened WorkItems
  import opened Executors
  import opened Plans
  import opened Sched
  import opened Dispatch
  import opened DispatchProofs
  import opened DispatchSteps
  import opened SchedInvariants
  import opened SchedLoop
  import opened SchedRuns
  import opened LocalTasks

  // ---------------------------------------------------------------- the local queue

  function Items(queue: seq<Task>): seq<WorkItem> { seq(|queue|, i requires 0 <= i < |queue| => TaskItem(queue[i])) }

  predicate DistinctIds(queue: seq<Task>) { forall i, j :: 0 <= i < j < |queue| ==> queue[i].rid.id != queue[j].rid.id }

  lemma PushOne(e: Executor, t: Task)
    requires !e.Has(TaskKey(t.rid.id))
    ensures var e' := e.Push(TaskItem(t));
      && e'.running == e.running + [TaskItem(t)] && e'.wq == e.wq + [TaskItem(t)] && e'.local == e.local
          && e'.state == e.state
      && forall k: nat :: e'.Has(TaskKey(k)) ==> e.Has(TaskKey(k)) || k == t.rid.id
  {
  }

  /** Tasks with different ids, none of which runs, are all taken. */
  lemma {:induction false} PushAll(e: Executor, queue: seq<Task>)
    requires DistinctIds(queue) && forall i :: 0 <= i < |queue| ==> !e.Has(TaskKey(queue[i].rid.id))
    ensures var (e', kept) := PushLocal(e, queue);
      kept == [] && e'.running == e.running + Items(queue) && e'.wq == e.wq + Items(queue) && e'.local == e.local
          && e'.state == e.state
    decreases |queue|
  {
    if queue == [] {
      assert Items(queue) == [];
      assert e.running + [] == e.running && e.wq + [] == e.wq;
    } else {
      var t, rest := queue[0], queue[1..];
      PushOne(e, t);
      assert forall i :: 0 <= i < |rest| ==> rest[i] == queue[i + 1];
      PushAll(e.Push(TaskItem(t)), rest);
      assert Items(queue) == [TaskItem(t)] + Items(rest);
      Associate(e.running, TaskItem(t), Items(rest), e.wq);
    }
  }

  lemma Associate(a: seq<Running>, w: WorkItem, b: seq<WorkItem>, q: seq<WorkItem>)
    ensures (a + [w]) + b == a + ([w] + b) && (q + [w]) + b == q + ([w] + b)
  {
  }

  lemma KeyedAppend(works: seq<Running>, more: seq<Running>, all: seq<Running>)
    requires Keyed(works) && Keyed(more) && all == works + more
    requires forall i, j :: 0 <= i < |works| && 0 <= j < |more| ==> works[i].Key() != more[j].Key()
    ensures Keyed(all)
  {
    forall i, j | 0 <= i < j < |all| ensures all[i].Key() != all[j].Key() {
      if i < |works| <= j { assert works[i].Key() != more[j - |works|].Key(); }
    }
  }

  lemma PushedRuns(p: Plan, s: State, e: Executor)
    requires LocalInv(p, s, []) && e.running == s.execs[0].running + Items(s.localQueue)
    ensures RunningIs(p, s, e.running)
  {
    var works, q := s.execs[0].running, s.localQueue;
    forall i, j | 0 <= i < |works| && 0 <= j < |q| ensures works[i].Key() != TaskKey(q[j].rid.id) {
      assert InQueue(q, q[j].rid.id) && Lone(s, [], q[j].rid.id);
    }
    KeyedAppend(works, Items(q), e.running);
    forall i | 0 <= i < |e.running| && e.running[i].TaskItem?
      ensures e.running[i].task.rid.id in p.onScheduler
      ensures e.running[i].task.rid.id !in s.succeeded ==> Current(s, e.running[i].task.rid)
    {
      if i < |works| { assert e.running[i] == works[i]; } else { assert e.running[i] == TaskItem(q[i - |works|]); }
    }
  }

  /** Every queued local task starts to run on the local executor. */
  lemma PushLocalQueueLocal(p: Plan, s: State)
    requires LocalInv(p, s, [])
    ensures LocalInv(p, PushLocalQueue(s), [])
  {
    var e, q := s.execs[0], s.localQueue;
    forall i | 0 <= i < |q| ensures !e.Has(TaskKey(q[i].rid.id)) {
      assert InQueue(q, q[i].rid.id) && Lone(s, [], q[i].rid.id);
    }
    PushAll(e, q);
    var e' := PushLocal(e, q).0;
    PushedRuns(p, s, e');
    var r := s.(execs := s.execs[0 := e'], localQueue := []);
    EmptyQueueLocal(p, s, r);
    if q != [] && !e.Alive() { RaiseLocal(p, r, LocalStopped, []); }
  }

  lemma EmptyQueueLocal(p: Plan, s: State, r: State)
    requires LocalInv(p, s, []) && |r.execs| == |s.execs|
        && r == s.(execs := s.execs[0 := r.execs[0]], localQueue := [])
    requires r.execs[0].running == s.execs[0].running + Items(s.localQueue)
        && r.execs[0].wq == s.execs[0].wq + Items(s.localQueue)
    requires r.execs[0].local && r.execs[0].state == s.execs[0].state && RunningIs(p, s, r.execs[0].running)
    ensures LocalInv(p, r, [])
  {
    forall a: RuntimeId | Pushed(r.execs[0], a) && Open(p, r, a.id) ensures Traced(r, [], a) {
      var e, e', items := s.execs[0], r.execs[0], Items(s.localQueue);
      var i :| 0 <= i < |e'.wq| && e'.wq[i].TaskItem? && e'.wq[i].task.rid == a;
      if i < |e.wq| {
        assert e.wq[i] == e'.wq[i];
        assert Pushed(e, a) && Traced(s, [], a);
        if RunsAttempt(e, a) {
          var j :| 0 <= j < |e.running| && e.running[j].TaskItem? && e.running[j].task.rid == a;
          assert e'.running[j] == e.running[j];
        }
      } else {
        assert e'.running[|e.running| + i - |e.wq|] == items[i - |e.wq|] == e'.wq[i];
      }
    }
    forall a: RuntimeId | Current(s, a) ensures Current(r, a) {}
  }

  // ---------------------------------------------------------------- dispatch

  lemma QueueLocal(p: Plan, s: State, q: seq<Task>)
    requires LocalInv(p, s, []) && AllRemote(p, q)
    ensures LocalInv(p, s.(schedQueue := q), [])
  {
    LocalFrame(p, s, s.(schedQueue := q), []);
  }

  lemma AdmitLocal(p: Plan, s: State, i: nat, t: Task)
    requires LocalInv(p, s, []) && 0 < i < |s.execs| && t.rid.id !in p.onScheduler
    ensures LocalInv(p, s.(execs := s.execs[i := s.execs[i].Push(TaskItem(t))]), [])
  {
    var r := s.(execs := s.execs[i := s.execs[i].Push(TaskItem(t))]);
    assert NoLocal(p, s.execs[i]);
    forall j | 0 < j < |r.execs| ensures !r.execs[j].local && NoLocal(p, r.execs[j]) { assert NoLocal(p, s.execs[j]); }
    LocalFrame(p, s, r, []);
  }

  lemma OfferLocal(p: Plan, s: State, i: nat, final: bool)
    requires LocalInv(p, s, []) && i < |s.execs| && IsGood(s.execs[i]) && s.schedQueue != []
    ensures LocalInv(p, Offer(p, s, i, final).0, [])
  {
    var e := s.execs[i];
    var t := WithMemory(e, s.schedQueue[0]);
    assert t.rid == s.schedQueue[0].rid && AllRemote(p, s.schedQueue[1..]);
    QueueLocal(p, s, s.schedQueue[1..]);
    var rest := s.(schedQueue := s.schedQueue[1..]);
    if s.Done(t.rid.id) {
      if t.rid.id in p.tasks {
        RaiseLocal(p, rest, UnknownConsumer, []);
        EnqueueAllLocal(p, LookUp(p, rest, t.rid.id), Consumers(p, rest, t.rid.id), []);
      } else {
        RaiseLocal(p, rest, UnknownTask, []);
      }
    } else if e.Admits(t) {
      AdmitLocal(p, rest, i, if final then Boost(p, e, t) else t);
    } else {
      QueueLocal(p, s, [t] + s.schedQueue[1..]);
    }
  }

  lemma {:induction false} RoundLocal(p: Plan, s: State, order: seq<nat>, final: bool)
    requires LocalInv(p, s, []) && forall j :: j in order ==> j < |s.execs| && IsGood(s.execs[j])
    ensures LocalInv(p, Round(p, s, order, final).0, [])
    decreases |order|
  {
    if order != [] && s.schedQueue != [] {
      assert order[0] in order && forall j :: j in order[1..] ==> j in order;
      OfferLocal(p, s, order[0], final);
      OfferGood(p, s, order[0], final);
      RoundLocal(p, Offer(p, s, order[0], final).0, order[1..], final);
    }
  }

  lemma OfferGood(p: Plan, s: State, i: nat, final: bool)
    requires i < |s.execs| && s.schedQueue != []
    ensures var r := Offer(p, s, i, final).0;
      |r.execs| == |s.execs| && forall j :: 0 <= j < |s.execs| ==> (IsGood(r.execs[j]) <==> IsGood(s.execs[j]))
  {
  }

  lemma PassLocal(p: Plan, s: State, aside: seq<Task>, final: bool)
    requires LocalInv(p, s, []) && AllRemote(p, aside)
    ensures LocalInv(p, Pass(p, s, aside, final).0, []) && AllRemote(p, Pass(p, s, aside, final).1)
  {
    var order := UsableExecs(s.execs);
    var (s1, popped) := Round(p, s, order, final);
    RoundLocal(p, s, order, final);
    if s1.schedQueue != [] && !popped { QueueLocal(p, s1, s1.schedQueue[1..]); }
  }

  lemma {:induction false} AssignLocal(p: Plan, s: State, aside: seq<Task>, final: bool)
    requires LocalInv(p, s, []) && AllRemote(p, aside)
    ensures LocalInv(p, Assign(p, s, aside, final), [])
    decreases |Unscheduled(p, s)|, |s.schedQueue|
  {
    if s.schedQueue == [] || GoodCount(s.execs) == 0 {
      QueueLocal(p, s, s.schedQueue + aside);
    } else {
      var (r, more) := Pass(p, s, aside, final);
      PassProgress(p, s, aside, final);
      PassLocal(p, s, aside, final);
      AssignLocal(p, r, more, final);
    }
  }

  lemma DispatchLocal(p: Plan, s: State)
    requires LocalInv(p, s, [])
    ensures LocalInv(p, DispatchTasks(p, s), [])
  {
    var q := Reorder(p.cfg, s.schedQueue);
    ReorderPermutes(p.cfg, s.schedQueue);
    forall i | 0 <= i < |q| ensures q[i].rid.id !in p.onScheduler {
      assert q[i] in multiset(q); assert q[i] in s.schedQueue;
    }
    QueueLocal(p, s, q);
    AssignLocal(p, s.(schedQueue := q), [], FinalPhase(p, s.(schedQueue := q)));
  }

  lemma StopNoLocal(p: Plan, e: Executor)
    requires NoLocal(p, e)
    ensures NoLocal(p, e.Stop()) && e.Stop().local == e.local
  {
  }

  lemma StopIdleLocal(p: Plan, s: State)
    requires LocalInv(p, s, [])
    ensures LocalInv(p, StopIdle(p, s), [])
  {
    var execs := StopFirstIdle(s.execs);
    StopFirstIdleAt(s.execs, 0);
    forall i | 0 < i < |execs| ensures !execs[i].local && NoLocal(p, execs[i]) {
      StopFirstIdleAt(s.execs, i);
      StopNoLocal(p, s.execs[i]);
    }
    LocalFrame(p, s, s.(execs := execs), []);
  }

  // ---------------------------------------------------------------- popping completions

  lemma PopKeyed(e: Executor, key: WorkKey)
    requires Keyed(e.running)
    ensures Keyed(e.PopKey(key).running) && !e.PopKey(key).Has(key)
    ensures forall k :: e.PopKey(key).Has(k) ==> e.Has(k)
  {
    if e.Has(key) {
      var i := IndexOf(e.running, key);
      var rest := e.running[..i] + e.running[i + 1..];
      forall j | 0 <= j < |rest| ensures rest[j] == e.running[if j < i then j else j + 1] {}
    }
  }

  /** A finished task does not run any more. */
  lemma {:induction false} ReceiveKeyed(e: Executor, rs: seq<Reply>, k: nat)
    requires Keyed(e.running)
    ensures Keyed(ReceiveAll(e, rs).running)
    ensures DoneWith(DoneTasks(rs), k) || !e.Has(TaskKey(k)) ==> !ReceiveAll(e, rs).Has(TaskKey(k))
    decreases |rs|
  {
    if rs != [] {
      var r := rs[0];
      ReceiveOneKeyed(e, r, k);
      ReceiveKeyed(e.Receive(r), rs[1..], k);
      if DoneWith(DoneTasks(rs), k) && !Finishes(r, k) { DoneWithRest(rs, k); }
    }
  }

  lemma ReceiveOneKeyed(e: Executor, r: Reply, k: nat)
    requires Keyed(e.running)
    ensures Keyed(e.Receive(r).running) && (Finishes(r, k) || !e.Has(TaskKey(k)) ==> !e.Receive(r).Has(TaskKey(k)))
  {
    match r {
      case WorkStopped(t) => PopKeyed(e, TaskKey(t));
      case ExecutorStopped => PopKeyed(e.(stopAcked := e.stopAcked || e.state != Stopped), StopKey);
      case TaskDone(d) => if d.Terminal() { PopKeyed(e, TaskKey(d.rid.id)); }
      case Probed(a) =>
    }
  }

  lemma DoneWithRest(rs: seq<Reply>, k: nat)
    requires rs != [] && DoneWith(DoneTasks(rs), k) && !Finishes(rs[0], k)
    ensures DoneWith(DoneTasks(rs[1..]), k)
  {
    var ds := DoneTasks(rs[1..]);
    var first: seq<Done> := if rs[0].TaskDone? then [rs[0].done] else [];
    assert DoneTasks(rs) == first + ds;
    var i :| 0 <= i < |first + ds| && (first + ds)[i].Terminal() && (first + ds)[i].rid.id == k;
    assert i >= |first| && (first + ds)[i] == ds[i - |first|];
  }

  /** Where a popped completion comes from. */
  lemma {:induction false} PoppedFrom(n: nat, replies: seq<seq<Reply>>, i: nat, j: nat)
    requires j < |PopTasks(n, replies, i)|
    ensures var x := PopTasks(n, replies, i)[j]; i <= x.exec < n && x.done in DoneTasks(RepliesOf(replies, x.exec))
    decreases n - i
  {
    if i < n {
      var ds := DoneTasks(RepliesOf(replies, i));
      if j >= |ds| { PoppedFrom(n, replies, i + 1, j - |ds|); }
    }
  }

  lemma ReportedHere(p: Plan, s: State, replies: seq<seq<Reply>>, k: nat)
    requires |s.execs| > 0 && LocalReportsOK(p, s, PopTasks(|s.execs|, replies, 0)) && Open(p, s, k)
    requires Pending(PopTasks(|s.execs|, replies, 0), k)
    ensures DoneWith(DoneTasks(RepliesOf(replies, 0)), k)
  {
    var pend := PopTasks(|s.execs|, replies, 0);
    var i :| 0 <= i < |pend| && pend[i].done.Terminal() && pend[i].done.rid.id == k;
    PoppedFrom(|s.execs|, replies, 0, i);
    var ds := DoneTasks(RepliesOf(replies, 0));
    var j :| 0 <= j < |ds| && ds[j] == pend[i].done;
  }

  /** An attempt the local executor may report now is the one it runs. */
  lemma ReportIsRunning(p: Plan, s: State, pend: seq<Popped>, i: nat)
    requires LocalInv(p, s, []) && PendOK(p, s, pend) && LocalReportsOK(p, s, pend) && i < |pend|
    requires pend[i].done.Terminal() && Open(p, s, pend[i].done.rid.id)
    ensures RunsAttempt(s.execs[0], pend[i].done.rid) && Current(s, pend[i].done.rid)
  {
    var a := pend[i].done.rid;
    assert DoneOK(p, s, pend[i].done);
    assert Pushed(s.execs[0], a) && Traced(s, [], a);
  }

  lemma PopPendIs(p: Plan, s: State, pend: seq<Popped>)
    requires LocalInv(p, s, []) && PendOK(p, s, pend) && LocalReportsOK(p, s, pend)
    ensures PendIs(p, s, pend)
  {
    forall i | 0 <= i < |pend| && pend[i].done.Terminal() && Open(p, s, pend[i].done.rid.id)
        ensures Current(s, pend[i].done.rid) {
      ReportIsRunning(p, s, pend, i);
    }
  }

  /** After the pop, a pushed attempt that does not run any more has been reported. */
  lemma PopTraces(p: Plan, s: State, replies: seq<seq<Reply>>, a: RuntimeId)
    requires LocalInv(p, s, []) && ExecsOK(s) && Delivered(p, s, replies)
    requires Pushed(s.execs[0], a) && Open(p, s, a.id) && a !in s.finished
    ensures RunsAttempt(PopExecs(s.execs, replies)[0], a) || Reported(PopTasks(|s.execs|, replies, 0), a)
  {
    var e, rs, pend := s.execs[0], RepliesOf(replies, 0), PopTasks(|s.execs|, replies, 0);
    var e' := ReceiveAll(e, rs);
    assert Traced(s, [], a);
    var i :| 0 <= i < |e.running| && e.running[i].TaskItem? && e.running[i].task.rid == a;
    assert e.running[i].Key() == TaskKey(a.id);
    assert ExecOK(s, e);
    ConfirmedStops(s, replies, 0, a.id);
    ReceiveHas(e, rs, a.id);
    if DoneWith(DoneTasks(rs), a.id) {
      PopTasksHas(|s.execs|, replies, 0, 0, a.id);
      var j :| 0 <= j < |pend| && pend[j].done.Terminal() && pend[j].done.rid.id == a.id;
      ReportIsRunning(p, s, pend, j);
      assert Current(s, a);
    } else {
      ReceiveShape(e, rs);
      var j :| 0 <= j < |e'.running| && e'.running[j].Key() == TaskKey(a.id);
      var l :| 0 <= l < |e.running| && e.running[l] == e'.running[j];
      assert l == i;
    }
  }

  lemma PopRunningIs(p: Plan, s: State, rs: seq<Reply>)
    requires LocalInv(p, s, [])
    ensures RunningIs(p, s, ReceiveAll(s.execs[0], rs).running)
  {
    var e := s.execs[0];
    ReceiveShape(e, rs);
    ReceiveKeyed(e, rs, 0);
  }

  lemma PopApart(p: Plan, s: State, replies: seq<seq<Reply>>)
    requires Apart(p, s)
    ensures Apart(p, s.(execs := PopExecs(s.execs, replies)))
  {
    var execs := PopExecs(s.execs, replies);
    ReceiveShape(s.execs[0], RepliesOf(replies, 0));
    forall i | 0 < i < |execs| ensures !execs[i].local && NoLocal(p, execs[i]) {
      ReceiveShape(s.execs[i], RepliesOf(replies, i));
      assert NoLocal(p, s.execs[i]);
    }
  }

  lemma PopLone(p: Plan, s: State, replies: seq<seq<Reply>>, k: nat)
    requires LocalInv(p, s, []) && Delivered(p, s, replies) && Open(p, s, k)
    ensures Lone(s.(execs := PopExecs(s.execs, replies)), PopTasks(|s.execs|, replies, 0), k)
  {
    var pend := PopTasks(|s.execs|, replies, 0);
    assert Lone(s, [], k);
    ReceiveKeyed(s.execs[0], RepliesOf(replies, 0), k);
    if Pending(pend, k) {
      ReportedHere(p, s, replies, k);
      var i :| 0 <= i < |pend| && pend[i].done.Terminal() && pend[i].done.rid.id == k;
      ReportIsRunning(p, s, pend, i);
      RunsHas(s.execs[0], pend[i].done.rid);
    }
  }

  lemma RunsHas(e: Executor, a: RuntimeId)
    requires RunsAttempt(e, a)
    ensures e.Has(TaskKey(a.id))
  {
    var i :| 0 <= i < |e.running| && e.running[i].TaskItem? && e.running[i].task.rid == a;
    assert e.running[i].Key() == TaskKey(a.id);
  }

  lemma PopLocal(p: Plan, s: State, replies: seq<seq<Reply>>)
    requires LocalInv(p, s, []) && ExecsOK(s) && Delivered(p, s, replies)
    ensures LocalInv(p, s.(execs := PopExecs(s.execs, replies)), PopTasks(|s.execs|, replies, 0))
  {
    var r, pend := s.(execs := PopExecs(s.execs, replies)), PopTasks(|s.execs|, replies, 0);
    ReceiveShape(s.execs[0], RepliesOf(replies, 0));
    PopApart(p, s, replies);
    PopRunningIs(p, s, RepliesOf(replies, 0));
    PopPendIs(p, s, pend);
    forall k | Open(p, r, k) ensures Lone(r, pend, k) { PopLone(p, s, replies, k); }
    forall a: RuntimeId | Pushed(r.execs[0], a) && Open(p, r, a.id) ensures Traced(r, pend, a) {
      if a !in s.finished { PopTraces(p, s, replies, a); }
    }
    PopAssembles(p, s, r, pend);
  }

  lemma PopAssembles(p: Plan, s: State, r: State, pend: seq<Popped>)
    requires LocalInv(p, s, []) && r == s.(execs := r.execs) && Apart(p, r) && r.execs[0].state == s.execs[0].state
    requires RunningIs(p, s, r.execs[0].running) && PendIs(p, s, pend) && PushedIs(p, r, pend)
    requires forall k :: Open(p, r, k) ==> Lone(r, pend, k)
    ensures LocalInv(p, r, pend)
  {
    forall a: RuntimeId | Current(s, a) ensures Current(r, a) {}
  }

  // ---------------------------------------------------------------- processing completions

  lemma PendingRest(pend: seq<Popped>, k: nat)
    requires pend != [] && Pending(pend[1..], k)
    ensures Pending(pend, k)
  {
    var i :| 0 <= i < |pend[1..]| && pend[1..][i].done.Terminal() && pend[1..][i].done.rid.id == k;
    assert pend[i + 1] == pend[1..][i];
  }

  /** A completion that needs no treatment leaves the list. */
  lemma TailLocal(p: Plan, s: State, pend: seq<Popped>)
    requires LocalInv(p, s, pend) && pend != []
    requires pend[0].done.Terminal() && Open(p, s, pend[0].done.rid.id) ==> pend[0].done.rid in s.finished
    ensures LocalInv(p, s, pend[1..])
  {
    var rest := pend[1..];
    assert forall i :: 0 <= i < |rest| ==> rest[i] == pend[i + 1];
    forall k | Open(p, s, k) ensures Lone(s, rest, k) {
      assert Lone(s, pend, k);
      if Pending(rest, k) { PendingRest(pend, k); }
    }
    forall a: RuntimeId | Pushed(s.execs[0], a) && Open(p, s, a.id) ensures Traced(s, rest, a) {
      assert Traced(s, pend, a);
      if Reported(pend, a) && a !in s.finished {
        var i :| 0 <= i < |pend| && pend[i].done.Terminal() && pend[i].done.rid == a;
        assert rest[i - 1] == pend[i];
      }
    }
  }

  lemma FinishedLocal(p: Plan, s: State, pend: seq<Popped>)
    requires LocalInv(p, s, pend) && pend != []
    ensures LocalInv(p, s.(finished := s.finished + {pend[0].done.rid}), pend[1..])
  {
    var r := s.(finished := s.finished + {pend[0].done.rid});
    LocalFrame(p, s, r, pend);
    TailLocal(p, r, pend);
  }

  /** The first completion of a local task that has not succeeded: no other attempt of it is live. */
  lemma ReportedAlone(p: Plan, s: State, pend: seq<Popped>)
    requires LocalInv(p, s, pend) && pend != [] && pend[0].done.Terminal() && Open(p, s, pend[0].done.rid.id)
    ensures !InQueue(s.localQueue, pend[0].done.rid.id) && !s.execs[0].Has(TaskKey(pend[0].done.rid.id))
    ensures pend[0].done.status != Succeed ==> !Pending(pend[1..], pend[0].done.rid.id)
  {
    var k := pend[0].done.rid.id;
    assert Pending(pend, k) && Lone(s, pend, k);
    assert forall i :: 0 <= i < |pend[1..]| ==> pend[1..][i] == pend[i + 1];
  }

  lemma StopAllLocal(p: Plan, s: State, pend: seq<Popped>)
    requires LocalInv(p, s, pend) && (s.running ==> p.root in s.succeeded)
    ensures LocalInv(p, s.(execs := StopAll(s.execs)), pend)
  {
    var r := s.(execs := StopAll(s.execs));
    forall i | 0 < i < |r.execs| ensures !r.execs[i].local && NoLocal(p, r.execs[i]) { StopNoLocal(p, s.execs[i]); }
    forall a: RuntimeId | Current(s, a) ensures Current(r, a) {}
    forall k | Open(p, r, k) ensures Lone(r, pend, k) { assert Lone(s, pend, k); }
    forall a: RuntimeId | Pushed(r.execs[0], a) && Open(p, r, a.id) ensures Traced(r, pend, a) {
      assert Traced(s, pend, a);
    }
  }

  lemma HaltLocal(p: Plan, s: State, halt: bool, pend: seq<Popped>)
    requires LocalInv(p, s, pend)
    ensures LocalInv(p, Halt(s, halt), pend)
    ensures Halt(s, halt).execs[0].running == s.execs[0].running && Halt(s, halt).localQueue == s.localQueue
  {
    if halt {
      LocalFrame(p, s, s.(running := false), pend);
      StopAllLocal(p, s.(running := false), pend);
    }
  }

  lemma FailLocal(p: Plan, s: State, i: nat, d: Done, pend: seq<Popped>)
    requires LocalInv(p, s, pend) && d.rid.id in s.master && i < |s.execs|
        && (Open(p, s, d.rid.id) ==> Gone(s, pend, d.rid.id))
    ensures LocalInv(p, FailTask(p, s, i, d), pend)
  {
    var halt := s.master[d.rid.id].fails + 1 > p.cfg.maxFail;
    HaltLocal(p, s, halt, pend);
    SetMasterLocal(p, Halt(s, halt), d.rid.id, Noted(s, i, d), pend);
    RetryLocal(p, NoteFailure(p, s, i, d), d.rid.id, pend);
  }

  lemma RecordedLocal(p: Plan, s: State, d: Done, pend: seq<Popped>)
    requires LocalInv(p, s, pend) && d.rid.id in s.master && d.rid.id !in s.succeeded
        && !InQueue(s.localQueue, d.rid.id)
    ensures LocalInv(p, Recorded(s, d), pend)
  {
    var r := Recorded(s, d);
    forall i | 0 < i < |r.execs| ensures !r.execs[i].local && NoLocal(p, r.execs[i]) { assert NoLocal(p, s.execs[i]); }
    forall a: RuntimeId | Current(s, a) && a.id != d.rid.id ensures Current(r, a) {}
    forall i | 0 <= i < |s.localQueue| ensures s.localQueue[i].rid.id != d.rid.id {}
    forall k | Open(p, r, k) ensures Lone(r, pend, k) { assert Open(p, s, k) && Lone(s, pend, k); }
    forall a: RuntimeId | Pushed(r.execs[0], a) && Open(p, r, a.id) ensures Traced(r, pend, a) {
      assert Traced(s, pend, a);
    }
  }

  lemma SucceedLocal(p: Plan, s: State, d: Done, pend: seq<Popped>)
    requires LocalInv(p, s, pend) && d.rid.id in p.tasks && d.rid.id in s.master && d.rid.id !in s.succeeded
        && !InQueue(s.localQueue, d.rid.id)
    ensures LocalInv(p, SucceedTask(p, s, d), pend)
  {
    var s1, ks := Told(p, s, d), Consumers(p, Recorded(s, d), d.rid.id);
    var s2 := EnqueueAll(p, s1, ks);
    RecordedLocal(p, s, d, pend);
    RaiseLocal(p, Recorded(s, d), UnknownConsumer, pend);
    EnqueueAllLocal(p, s1, ks, pend);
    SucceedIs(p, s, d);
    if d.rid.id == p.root {
      var s3 := s2.(schedQueue := []);
      LocalFrame(p, s2, s3, pend);
      StopAllLocal(p, s3, pend);
    }
  }

  /** The queue of local tasks holds no task of which a completion waits. */
  lemma NotQueued(p: Plan, s: State, pend: seq<Popped>)
    requires LocalInv(p, s, pend) && pend != [] && pend[0].done.Terminal() && pend[0].done.rid.id !in s.succeeded
    ensures !InQueue(s.localQueue, pend[0].done.rid.id)
  {
    var k := pend[0].done.rid.id;
    if k in p.onScheduler {
      ReportedAlone(p, s, pend);
    } else {
      assert forall i :: 0 <= i < |s.localQueue| ==> s.localQueue[i].rid.id in p.onScheduler;
    }
  }

  /** One completion, whatever becomes of it. */
  lemma ProcessOneLocal(p: Plan, s: State, pend: seq<Popped>)
    requires LocalInv(p, s, pend) && pend != [] && pend[0].exec < |s.execs| && s.master.Keys == p.tasks
        && pend[0].done.rid.id in p.tasks
    ensures LocalInv(p, ProcessOne(p, s, pend[0].exec, pend[0].done), pend[1..])
  {
    var d, rest := pend[0].done, pend[1..];
    if d.rid !in s.scheduled && d.status != Succeed && !Ready(p, s, d.rid.id) {
      TailLocal(p, s, pend);
    } else if d.status == Incomplete || d.rid in s.finished {
      TailLocal(p, s, pend);
    } else {
      FinishedLocal(p, s, pend);
      if d.rid.id !in s.succeeded { DecideLocal(p, s, pend); }
    }
  }

  lemma DecideLocal(p: Plan, s: State, pend: seq<Popped>)
    requires LocalInv(p, s, pend) && pend != [] && pend[0].exec < |s.execs| && pend[0].done.rid.id in s.master
        && pend[0].done.rid.id in p.tasks
    requires pend[0].done.Terminal() && pend[0].done.rid.id !in s.succeeded
    ensures var d := pend[0].done; var s1 := s.(finished := s.finished + {d.rid});
      LocalInv(p, if d.status == Failed || d.status == Crashed then FailTask(p, s1, pend[0].exec, d)
                  else SucceedTask(p, if d.status == Succeed then s1 else s1.Fail(UnexpectedStatus), d), pend[1..])
  {
    var d, rest := pend[0].done, pend[1..];
    var s1 := s.(finished := s.finished + {d.rid});
    FinishedLocal(p, s, pend);
    NotQueued(p, s, pend);
    if d.status == Failed || d.status == Crashed {
      if Open(p, s, d.rid.id) { ReportedAlone(p, s, pend); }
      FailLocal(p, s1, pend[0].exec, d, rest);
    } else if d.status == Succeed {
      SucceedLocal(p, s1, d, rest);
    } else {
      RaiseLocal(p, s1, UnexpectedStatus, rest);
      SucceedLocal(p, s1.Fail(UnexpectedStatus), d, rest);
    }
  }

  lemma {:induction false} ProcessAllLocal(p: Plan, s: State, pend: seq<Popped>)
    requires Ahead(p, s, pend) && LocalInv(p, s, pend)
    ensures LocalInv(p, ProcessAll(p, s, pend), [])
    decreases |pend|
  {
    if pend != [] {
      var r := ProcessOne(p, s, pend[0].exec, pend[0].done);
      assert DoneOK(p, s, pend[0].done);
      ProcessBase(p, s, pend);
      PendTail(p, s, r, pend);
      ProcessOneLocal(p, s, pend);
      ProcessAllLocal(p, r, pend[1..]);
    }
  }

  lemma ProcessFinishedLocal(p: Plan, s: State, replies: seq<seq<Reply>>)
    requires Inv(p, s) && LocalInv(p, s, []) && Delivered(p, s, replies)
    ensures LocalInv(p, ProcessFinished(p, s, replies), [])
  {
    PopKeeps(p, s, replies);
    PopLocal(p, s, replies);
    ProcessAllLocal(p, s.(execs := PopExecs(s.execs, replies)), PopTasks(|s.execs|, replies, 0));
  }
}
