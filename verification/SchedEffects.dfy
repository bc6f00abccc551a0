/** What the scheduler does with its own executor and with an idle one. */
module SchedEffects {
  import opened WorkItems
  import opened Executors
  import opened Plans
  import opened Sched
  import opened DispatchProofs
  import opened SchedInvariants
  import opened SchedLoop
  import opened SchedSafety
  import opened SchedTheorems
  import opened ExecutorRuns
  import opened ExecutorTheorems
  import opened Dispatch
  import opened DispatchFits
  import opened DispatchGrants
  import opened DispatchLine

  // ---------------------------------------------------------------- the local queue

  /** The executor runs an attempt at task k. */
  predicate RunsKey(e: Executor, k: nat) { exists i :: 0 <= i < |e.running| && e.running[i].Key() == TaskKey(k) }

  /** Queued tasks that neither run nor come earlier in the queue; `seen` are the tasks before. */
  function Fresh(e: Executor, queue: seq<Task>, seen: set<nat>): seq<Task> {
    if queue == [] then [] else
      var k := queue[0].rid.id;
      (if RunsKey(e, k) || k in seen then [] else [queue[0]]) + Fresh(e, queue[1..], seen + {k})
  }

  /** The others. */
  function Repeats(e: Executor, queue: seq<Task>, seen: set<nat>): seq<Task> {
    if queue == [] then [] else
      var k := queue[0].rid.id;
      (if RunsKey(e, k) || k in seen then [queue[0]] else []) + Repeats(e, queue[1..], seen + {k})
  }

  function Items(ts: seq<Task>): (r: seq<Running>)
    ensures |r| == |ts|
  {
    seq(|ts|, i requires 0 <= i < |ts| => TaskItem(ts[i]))
  }

  lemma PushedRuns(e: Executor, t: Task, k: nat)
    ensures RunsKey(e.Push(TaskItem(t)), k) <==> RunsKey(e, k) || k == t.rid.id
    ensures e.Has(TaskKey(k)) <==> RunsKey(e, k)
  {
    var b := e.Push(TaskItem(t));
    if RunsKey(e, k) {
      var i :| 0 <= i < |e.running| && e.running[i].Key() == TaskKey(k);
      assert b.running[i] == e.running[i];
    }
    if !e.Has(TaskKey(t.rid.id)) { assert b.running[|e.running|] == TaskItem(t); }
  }

  /** The executor as it is after some pushes: it runs what it ran and all tasks seen. */
  ghost predicate AfterSeen(e0: Executor, e: Executor, seen: set<nat>) {
    forall k :: RunsKey(e, k) <==> RunsKey(e0, k) || k in seen
  }

  /** The works were sent, and run now; nothing else has changed but the allocations. */
  ghost predicate Appended(e: Executor, works: seq<Running>, r: Executor) {
    && r.running == e.running + works && r.wq == e.wq + works
    && r == e.(running := r.running, wq := r.wq, cpus := r.cpus, gpus := r.gpus, memory := r.memory)
  }

  lemma AppendedTwice(e: Executor, a: seq<Running>, e1: Executor, b: seq<Running>, r: Executor)
    requires Appended(e, a, e1) && Appended(e1, b, r)
    ensures Appended(e, a + b, r)
  {
    assert (e.running + a) + b == e.running + (a + b);
    assert (e.wq + a) + b == e.wq + (a + b);
  }

  lemma ItemsOfFresh(e: Executor, queue: seq<Task>, seen: set<nat>)
    requires queue != []
    ensures var k := queue[0].rid.id; var more := Items(Fresh(e, queue[1..], seen + {k}));
      Items(Fresh(e, queue, seen)) == if RunsKey(e, k) || k in seen then more else [TaskItem(queue[0])] + more
  {
    var k := queue[0].rid.id;
    var more := Fresh(e, queue[1..], seen + {k});
    assert Items([queue[0]] + more) == [TaskItem(queue[0])] + Items(more);
  }

  lemma {:induction false} PushLocalIs(e0: Executor, e: Executor, queue: seq<Task>, seen: set<nat>)
    requires AfterSeen(e0, e, seen)
    ensures var (r, kept) := PushLocal(e, queue);
      kept == Repeats(e0, queue, seen) && Appended(e, Items(Fresh(e0, queue, seen)), r)
    decreases |queue|
  {
    if queue != [] {
      var t := queue[0];
      var e1 := e.Push(TaskItem(t));
      forall k ensures RunsKey(e1, k) <==> RunsKey(e0, k) || k in seen + {t.rid.id} { PushedRuns(e, t, k); }
      PushedRuns(e, t, t.rid.id);
      PushLocalIs(e0, e1, queue[1..], seen + {t.rid.id});
      var more := Items(Fresh(e0, queue[1..], seen + {t.rid.id}));
      ItemsOfFresh(e0, queue, seen);
      var first := if RunsKey(e, t.rid.id) then [] else [TaskItem(t)];
      assert Appended(e, first, e1) && Items(Fresh(e0, queue, seen)) == first + more;
      AppendedTwice(e, first, e1, more, PushLocal(e, queue).0);
    }
  }

  /** Every queued local task is sent to the local executor, once, unless an attempt at it runs there; the others stay
      queued. When there are any and the executor is not alive, an assertion fails. */
  ghost predicate LocalMoved(s: State, r: State)
    requires |s.execs| > 0
  {
    && |r.execs| == |s.execs|
    && var e := s.execs[0];
    && r.localQueue == Repeats(e, s.localQueue, {})
    && Appended(e, Items(Fresh(e, s.localQueue, {})), r.execs[0])
    && r == s.(execs := s.execs[0 := r.execs[0]], localQueue := r.localQueue, error := r.error)
    && r.error == if s.localQueue != [] && (e.state == Stopped || e.state == Fail) && s.error.None?
      then Some(LocalStopped) else s.error
  }

  lemma LocalQueueMoves(s: State)
    requires |s.execs| > 0
    ensures LocalMoved(s, PushLocalQueue(s))
  {
    PushLocalIs(s.execs[0], s.execs[0], s.localQueue, {});
  }

  // ---------------------------------------------------------------- an idle executor

  ghost predicate IdleAndGood(e: Executor) { !e.local && e.state == Good && e.running == [] }

  /** More good executors than tasks left, with one to spare, and nothing queued for them. */
  ghost predicate TooManyGood(p: Plan, s: State) {
    s.schedQueue == [] && |p.tasks - p.light| - |s.succeeded.Keys - p.light| + 1 < |GoodOnes(s.execs)|
  }

  lemma {:induction false} FirstIdleStops(execs: seq<Executor>, i: nat)
    requires i < |execs|
    ensures var first := IdleAndGood(execs[i]) && forall j :: 0 <= j < i ==> !IdleAndGood(execs[j]);
      StopFirstIdle(execs)[i] == if first then execs[i].Stop() else execs[i]
  {
    if i > 0 {
      assert forall j :: 0 < j < i ==> execs[j] == execs[1..][j - 1];
      FirstIdleStops(execs[1..], i - 1);
      assert forall j :: 0 <= j < i - 1 ==> execs[1..][j] == execs[j + 1];
    }
  }

  lemma StoppedIs(e: Executor)
    requires IdleAndGood(e)
    ensures e.Stop() == if e.stopSent then e
      else e.(running := [StopExecutor], wq := e.wq + [StopExecutor], stopSent := true)
  {
  }

  /** The first idle good executor, and no other, gets a stop request, exactly when there are too many good ones. */
  ghost predicate SpareStopped(p: Plan, s: State, r: State) {
    && r == s.(execs := r.execs) && |r.execs| == |s.execs|
    && forall i :: 0 <= i < |s.execs| ==>
      var e := s.execs[i];
      r.execs[i] ==
      if TooManyGood(p, s) && IdleAndGood(e) && !e.stopSent && forall j :: 0 <= j < i ==> !IdleAndGood(s.execs[j])
      then e.(running := [StopExecutor], wq := e.wq + [StopExecutor], stopSent := true) else e
  }

  lemma IdleIsStopped(p: Plan, s: State)
    ensures SpareStopped(p, s, StopIdle(p, s))
  {
    CountsAre(s.execs);
    forall i | 0 <= i < |s.execs|
      ensures StopFirstIdle(s.execs)[i] ==
              if IdleAndGood(s.execs[i]) && forall j :: 0 <= j < i ==> !IdleAndGood(s.execs[j])
              then s.execs[i].Stop() else s.execs[i]
    {
      FirstIdleStops(s.execs, i);
    }
    forall i | 0 <= i < |s.execs| && IdleAndGood(s.execs[i])
      ensures s.execs[i].Stop() == if s.execs[i].stopSent then s.execs[i]
              else s.execs[i].(running := [StopExecutor], wq := s.execs[i].wq + [StopExecutor], stopSent := true)
    {
      StoppedIs(s.execs[i]);
    }
  }

  // ---------------------------------------------------------------- one iteration

  /** Dispatch gives the works it assigns their limits, serves the queue in its fair order, and leaves no task that
      fits. */
  ghost predicate Dispatched(p: Plan, s: State, r: State) {
    && AllExtended(p, s, r, LastTasks(p, s)) && NoneTakesAny(r.execs, r.schedQueue)
    && exists line :: Joined(s, Rids(Reorder(p.cfg, s.schedQueue)), line) && Served(s, r, line)
  }

  ghost predicate Phases(p: Plan, s: State, q: State, d: State, r: State) {
    |s.execs| > 0 && LocalMoved(s, q) && Dispatched(p, q, d) && SpareStopped(p, d, r)
  }

  lemma PhasesOf(p: Plan, s: State, inp: Input)
    requires Safe(p, s) && s.running && LimitsInv(s) && AllAccounted(s.execs)
    ensures exists q, d :: Phases(p, Updated(p, s, inp), q, d, Assigned(p, s, inp))
  {
    var u := Updated(p, s, inp);
    UpdatedKeeps(p, s, inp);
    UpdatedSound(WithLimits, p, s, inp);
    var q := PushLocalQueue(u);
    PushLocalQueueSound(WithLimits, u);
    AccountedLater(s.execs, u.execs);
    AccountedLater(u.execs, q.execs);
    var d := DispatchTasks(p, q);
    LocalQueueMoves(u);
    DispatchComplete(p, q);
    DispatchGivesLimits(p, q);
    var line := DispatchInOrder(p, q);
    IdleIsStopped(p, d);
    assert Phases(p, u, q, d, Assigned(p, s, inp));
  }

  /** What every iteration of every run does between the update of the executors and the completions: it feeds the local
      executor, assigns queued tasks, and stops a spare executor. */
  lemma IterationAssigns(p: Plan, s: State, limits: map<nat, Limits>, local: Executor, ks: seq<nat>,
          inputs: seq<Input>, inp: Input)
    requires Reachable(p, s, limits, local, ks, inputs) && s.running && Accounted(local)
    requires forall k :: k in limits ==> LimitsOK(limits[k])
    ensures exists q, d :: Phases(p, Updated(p, s, inp), q, d, Assigned(p, s, inp))
  {
    ReachableFits(p, s, limits, local, ks, inputs);
    PhasesOf(p, s, inp);
  }

  // ---------------------------------------------------------------- completions

  /** The completions of executor i among those popped, in order. */
  function OfExec(pend: seq<Popped>, i: nat): seq<Done> {
    if pend == [] then [] else (if pend[0].exec == i then [pend[0].done] else []) + OfExec(pend[1..], i)
  }

  predicate ByExec(pend: seq<Popped>) { forall a, b :: 0 <= a < b < |pend| ==> pend[a].exec <= pend[b].exec }

  lemma {:induction false} OfExecJoin(a: seq<Popped>, b: seq<Popped>, i: nat)
    ensures OfExec(a + b, i) == OfExec(a, i) + OfExec(b, i)
  {
    if a == [] {
      assert a + b == b;
    } else {
      var first: seq<Done> := if a[0].exec == i then [a[0].done] else [];
      OfExecJoin(a[1..], b, i);
      assert (a + b)[0] == a[0] && (a + b)[1..] == a[1..] + b;
      assert first + (OfExec(a[1..], i) + OfExec(b, i)) == (first + OfExec(a[1..], i)) + OfExec(b, i);
    }
  }

  lemma {:induction false} OfExecTagged(pend: seq<Popped>, ds: seq<Done>, e: nat, i: nat)
    requires |pend| == |ds| && forall j :: 0 <= j < |ds| ==> pend[j] == Popped(e, ds[j])
    ensures OfExec(pend, i) == if i == e then ds else []
  {
    if ds != [] {
      assert forall j :: 0 <= j < |ds[1..]| ==> pend[1..][j] == pend[j + 1];
      OfExecTagged(pend[1..], ds[1..], e, i);
    }
  }

  lemma {:induction false} PopsOf(n: nat, replies: seq<seq<Reply>>, k: nat, i: nat)
    ensures OfExec(PopTasks(n, replies, k), i) == if k <= i < n then DoneTasks(RepliesOf(replies, i)) else []
    decreases n - k
  {
    if k < n {
      var ds := DoneTasks(RepliesOf(replies, k));
      var own: seq<Popped>, rest := TaggedDone(k, RepliesOf(replies, k)), PopTasks(n, replies, k + 1);
      PopsOf(n, replies, k + 1, i);
      OfExecTagged(own, ds, k, i);
      OfExecJoin(own, rest, i);
      assert PopTasks(n, replies, k) == own + rest && ds + [] == ds;
      assert OfExec(own, i) == if i == k then ds else [];
    }
  }

  lemma {:induction false} PopsByExec(n: nat, replies: seq<seq<Reply>>, k: nat)
    ensures var pend := PopTasks(n, replies, k);
      ByExec(pend) && forall a :: 0 <= a < |pend| ==> k <= pend[a].exec < n
    decreases n - k
  {
    if k < n {
      PopsByExec(n, replies, k + 1);
      ExecsJoin(TaggedDone(k, RepliesOf(replies, k)), PopTasks(n, replies, k + 1), k, n);
    }
  }

  lemma ExecsJoin(own: seq<Popped>, rest: seq<Popped>, k: nat, n: nat)
    requires k < n && (forall a :: 0 <= a < |own| ==> own[a].exec == k)
    requires ByExec(rest) && forall a :: 0 <= a < |rest| ==> k < rest[a].exec < n
    ensures ByExec(own + rest) && forall a :: 0 <= a < |own + rest| ==> k <= (own + rest)[a].exec < n
  {
    var all := own + rest;
    forall a, b | 0 <= a < b < |all| ensures all[a].exec <= all[b].exec {
      if a >= |own| { assert all[a] == rest[a - |own|] && all[b] == rest[b - |own|]; }
    }
  }

  /** Completions are processed executor by executor, and for each executor in the order in which it sent them. */
  lemma PoppedInOrder(n: nat, replies: seq<seq<Reply>>, i: nat)
    ensures ByExec(PopTasks(n, replies, 0))
    ensures OfExec(PopTasks(n, replies, 0), i) == if i < n then DoneTasks(RepliesOf(replies, i)) else []
  {
    PopsByExec(n, replies, 0);
    PopsOf(n, replies, 0, i);
  }
}
