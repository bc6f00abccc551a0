/** Dispatching, stopping an idle executor and feeding the local executor keep the invariant. */
module DispatchSteps {
  import opened WorkItems
  import opened Executors
  import opened Plans
  import opened Sched
  import opened Dispatch
  import opened SchedInvariants
  import opened SchedSteps
  import opened DispatchProofs

  /** No good executor has been asked to stop: what `update_executor_states` leaves for dispatch. */
  ghost predicate GoodFree(execs: seq<Executor>) {
    forall i :: 0 <= i < |execs| && IsGood(execs[i]) ==> !execs[i].stopSent
  }

  // ---------------------------------------------------------------- queue changes

  lemma SetQueue(p: Plan, s: State, q: seq<Task>)
    requires Base(p, s) && forall t {:trigger IsWaiting(s, t)} :: t in q ==> IsWaiting(s, t)
    ensures Base(p, s.(schedQueue := q))
  {
    var r := s.(schedQueue := q);
    ScheduledFrame(p, s, r);
    ClosedFrame(p, s, r);
    ExecsFrame(s, r);
    forall t | t in r.localQueue || t in r.schedQueue ensures IsWaiting(r, t) { assert IsWaiting(s, t); }
  }

  lemma SetQueueCover(p: Plan, s: State, q: seq<Task>, except: set<nat>, except': set<nat>)
    requires Covered(p, s, [], except)
    requires forall k :: k !in s.succeeded && k !in except' ==>
               k !in except && (InQueue(s.schedQueue, k) ==> InQueue(q, k))
    ensures Covered(p, s.(schedQueue := q), [], except')
  {
    var r := s.(schedQueue := q);
    forall k | k in p.tasks && k !in r.succeeded && Ready(p, r, k) && k !in except' ensures Queued(r, k)
        || Runs(r.execs, k) {
      assert Ready(p, s, k);
    }
  }

  lemma InTail(q: seq<Task>, t: Task, k: nat)
    requires q != [] && t.rid == q[0].rid && InQueue(q, k)
    ensures k == q[0].rid.id || InQueue(q[1..], k)
    ensures InQueue([t] + q[1..], k)
  {
    var i :| 0 <= i < |q| && q[i].rid.id == k;
    if i > 0 { assert q[1..][i - 1] == q[i]; }
    assert ([t] + q[1..])[i].rid.id == k;
  }

  lemma TailScheduled(s: State)
    requires QueuesOK(s) && s.schedQueue != []
    ensures forall t {:trigger IsWaiting(s, t)} :: t in s.schedQueue[1..] ==> IsWaiting(s, t)
    ensures IsWaiting(s, s.schedQueue[0])
  {
    assert forall t :: t in s.schedQueue[1..] ==> t in s.schedQueue;
    assert s.schedQueue[0] in s.schedQueue;
  }

  // ---------------------------------------------------------------- one offer

  ghost predicate Ongoing(p: Plan, s: State, except: set<nat>) {
    Base(p, s) && Covered(p, s, [], except) && GoodFree(s.execs) && s.running
  }

  /** The head belongs to a succeeded task: it leaves, and the consumers are tried. */
  lemma SkipKeeps(p: Plan, s: State, except: set<nat>)
    requires Ongoing(p, s, except) && s.schedQueue != [] && s.schedQueue[0].rid.id in s.succeeded
    ensures s.schedQueue[0].rid.id in p.tasks
    ensures var rest := s.(schedQueue := s.schedQueue[1..]);
      var r := Skip(p, rest, s.schedQueue[0].rid.id);
      Ongoing(p, r, except) && Records(s, r)
  {
    var k := s.schedQueue[0].rid.id;
    var rest := s.(schedQueue := s.schedQueue[1..]);
    assert Ready(p, s, k);
    TailScheduled(s);
    SetQueue(p, s, rest.schedQueue);
    forall c | c !in s.succeeded && InQueue(s.schedQueue, c) ensures InQueue(rest.schedQueue, c) {
      InTail(s.schedQueue, s.schedQueue[0], c);
    }
    SetQueueCover(p, s, rest.schedQueue, except, except);
    assert LookUp(p, rest, k) == rest;
    EnqueueAllKeeps(p, rest, Consumers(p, rest, k));
    GrowsCovers(p, rest, Skip(p, rest, k), [], except);
  }

  lemma PushExecOK(s: State, e: Executor, t: Task)
    requires ExecOK(s, e) && IsScheduled(s, t) && !e.Has(TaskKey(t.rid.id)) && (!e.local ==> !e.stopSent)
    ensures CanReplace(s, e, e.Push(TaskItem(t)))
  {
    var e' := e.Push(TaskItem(t));
    assert forall i :: 0 <= i < |e.running| ==> e'.running[i] == e.running[i];
    assert forall w :: w in e'.wq && w.StopWork? ==> w in e.wq;
  }

  lemma PushHas(e: Executor, t: Task, k: nat)
    ensures e.Push(TaskItem(t)).Has(TaskKey(t.rid.id))
    ensures e.Has(TaskKey(k)) ==> e.Push(TaskItem(t)).Has(TaskKey(k))
  {
    var e' := e.Push(TaskItem(t));
    if !e.Has(TaskKey(t.rid.id)) { assert e'.running[|e.running|] == TaskItem(t); }
    if e.Has(TaskKey(k)) {
      var i :| 0 <= i < |e.running| && e.running[i].Key() == TaskKey(k);
      assert e'.running[i] == e.running[i];
    }
  }

  lemma PushRuns(execs: seq<Executor>, i: nat, t: Task, k: nat)
    requires i < |execs| && execs[i].Tracked()
    ensures Runs(execs[i := execs[i].Push(TaskItem(t))], t.rid.id)
    ensures Runs(execs, k) ==> Runs(execs[i := execs[i].Push(TaskItem(t))], k)
  {
    var r := execs[i := execs[i].Push(TaskItem(t))];
    PushHas(execs[i], t, k);
    RunsAt(r, i, t.rid.id);
    if Runs(execs, k) {
      var j :| 0 <= j < |execs| && execs[j].Tracked() && execs[j].Has(TaskKey(k));
      RunsAt(r, j, k);
    }
  }

  /** The executor admits the head: it leaves the queue and runs there. */
  lemma AdmitKeeps(p: Plan, s: State, i: nat, t: Task, except: set<nat>)
    requires Ongoing(p, s, except) && s.schedQueue != [] && i < |s.execs| && IsGood(s.execs[i])
    requires IsScheduled(s, t) && t.rid == s.schedQueue[0].rid
    requires !s.execs[i].Has(TaskKey(t.rid.id))
    ensures var r := s.(schedQueue := s.schedQueue[1..], execs := s.execs[i := s.execs[i].Push(TaskItem(t))]);
      Base(p, r) && Covered(p, r, [], except) && GoodFree(r.execs)
  {
    var e' := s.execs[i].Push(TaskItem(t));
    var execs := s.execs[i := e'];
    assert ExecOK(s, s.execs[i]);
    TailScheduled(s);
    PushExecOK(s, s.execs[i], t);
    ReplaceOne(p, s, i, e');
    forall k | Runs(s.execs, k) ensures Runs(execs, k) { PushRuns(s.execs, i, t, k); }
    ExecsCover(p, s, execs, [], [], except, except);
    AdmitPops(p, s.(execs := execs), t, except) by { PushRuns(s.execs, i, t, 0); }
  }

  lemma AdmitPops(p: Plan, s: State, t: Task, except: set<nat>)
    requires Base(p, s) && Covered(p, s, [], except) && s.schedQueue != [] && Runs(s.execs, t.rid.id)
    requires t.rid == s.schedQueue[0].rid
    ensures Base(p, s.(schedQueue := s.schedQueue[1..]))
    ensures Covered(p, s.(schedQueue := s.schedQueue[1..]), [], except)
  {
    TailScheduled(s);
    SetQueue(p, s, s.schedQueue[1..]);
    forall c | c != t.rid.id && InQueue(s.schedQueue, c) ensures InQueue(s.schedQueue[1..], c) {
      InTail(s.schedQueue, t, c);
    }
    SetQueueCover(p, s, s.schedQueue[1..], except, except + {t.rid.id});
  }

  /** The executor declines the head: at most its memory limit has been set. */
  lemma DeclineKeeps(p: Plan, s: State, t: Task, except: set<nat>)
    requires Ongoing(p, s, except) && s.schedQueue != []
    requires IsWaiting(s, t) && t.rid == s.schedQueue[0].rid
    ensures Ongoing(p, s.(schedQueue := [t] + s.schedQueue[1..]), except)
  {
    TailScheduled(s);
    assert IsWaiting(s, t);
    SetQueue(p, s, [t] + s.schedQueue[1..]);
    forall c | InQueue(s.schedQueue, c) ensures InQueue([t] + s.schedQueue[1..], c) { InTail(s.schedQueue, t, c); }
    SetQueueCover(p, s, [t] + s.schedQueue[1..], except, except);
  }

  lemma OfferKeeps(p: Plan, s: State, i: nat, final: bool, except: set<nat>)
    requires Ongoing(p, s, except) && s.schedQueue != [] && i < |s.execs| && IsGood(s.execs[i])
    ensures Ongoing(p, Offer(p, s, i, final).0, except) && Steady(s, Offer(p, s, i, final).0)
  {
    var e := s.execs[i];
    var t := WithMemory(e, s.schedQueue[0]);
    TailScheduled(s);
    if s.Done(t.rid.id) {
      SkipKeeps(p, s, except);
    } else if e.Admits(t) {
      AdmitKeeps(p, s, i, if final then Boost(p, e, t) else t, except);
    } else {
      DeclineKeeps(p, s, t, except);
    }
  }

  /** Offers neither change which executors are good nor unschedule attempts. */
  ghost predicate Steady(s: State, r: State) {
    && |r.execs| == |s.execs| && Records(s, r) && r.succeeded == s.succeeded && r.finished == s.finished
    && forall i :: 0 <= i < |s.execs| ==> (IsGood(r.execs[i]) <==> IsGood(s.execs[i]))
  }

  lemma {:induction false} RoundKeeps(p: Plan, s: State, order: seq<nat>, final: bool, except: set<nat>)
    requires Ongoing(p, s, except) && forall j :: j in order ==> j < |s.execs| && IsGood(s.execs[j])
    ensures Ongoing(p, Round(p, s, order, final).0, except) && Steady(s, Round(p, s, order, final).0)
    decreases |order|
  {
    if order != [] && s.schedQueue != [] {
      assert order[0] in order;
      var r := Offer(p, s, order[0], final).0;
      OfferKeeps(p, s, order[0], final, except);
      StillGood(s, r, order);
      RoundKeeps(p, r, order[1..], final, except);
      SteadyTransitive(s, r, Round(p, r, order[1..], final).0);
    }
  }

  lemma StillGood(s: State, r: State, order: seq<nat>)
    requires Steady(s, r) && order != [] && forall j :: j in order ==> j < |s.execs| && IsGood(s.execs[j])
    ensures forall j :: j in order[1..] ==> j < |r.execs| && IsGood(r.execs[j])
  {
    assert forall j :: j in order[1..] ==> j in order;
  }

  lemma SteadyTransitive(s: State, r: State, u: State)
    requires Steady(s, r) && Steady(r, u)
    ensures Steady(s, u)
  {
  }

  // ---------------------------------------------------------------- the outer loop

  ghost function Ids(q: seq<Task>): set<nat> { set i | 0 <= i < |q| :: q[i].rid.id }

  ghost predicate AllScheduled(s: State, q: seq<Task>) {
    forall t {:trigger IsWaiting(s, t)} :: t in q ==> IsWaiting(s, t)
  }

  /** A task no executor took is set aside. */
  lemma SetAside(p: Plan, s: State, aside: seq<Task>)
    requires Ongoing(p, s, Ids(aside)) && AllScheduled(s, aside) && s.schedQueue != []
    ensures var r := s.(schedQueue := s.schedQueue[1..]);
      Ongoing(p, r, Ids(aside + [s.schedQueue[0]])) && AllScheduled(r, aside + [s.schedQueue[0]])
  {
    var t := s.schedQueue[0];
    var q := s.schedQueue[1..];
    TailScheduled(s);
    SetQueue(p, s, q);
    var more := aside + [t];
    assert forall i :: 0 <= i < |aside| ==> more[i] == aside[i];
    assert more[|aside|] == t;
    forall k | k !in Ids(more) && InQueue(s.schedQueue, k) ensures InQueue(q, k) { InTail(s.schedQueue, t, k); }
    SetQueueCover(p, s, q, Ids(aside), Ids(more));
    forall u | u in more ensures IsWaiting(s.(schedQueue := q), u) { assert IsWaiting(s, u); }
  }

  /** The tasks set aside come back at the end of the queue. */
  lemma PutBack(p: Plan, s: State, aside: seq<Task>)
    requires Ongoing(p, s, Ids(aside)) && AllScheduled(s, aside)
    ensures Base(p, s.(schedQueue := s.schedQueue + aside))
        && Covered(p, s.(schedQueue := s.schedQueue + aside), [], {})
  {
    var q := s.schedQueue + aside;
    SetQueue(p, s, q);
    var r := s.(schedQueue := q);
    assert forall i :: 0 <= i < |s.schedQueue| ==> q[i] == s.schedQueue[i];
    assert forall i :: 0 <= i < |aside| ==> q[|s.schedQueue| + i] == aside[i];
    SetQueueCover(p, s, q, Ids(aside), Ids(aside));
    forall k | k in Ids(aside) ensures Queued(r, k) {
      var i :| 0 <= i < |aside| && aside[i].rid.id == k;
      assert q[|s.schedQueue| + i].rid.id == k;
    }
  }

  lemma SteadyScheduled(s: State, r: State, q: seq<Task>)
    requires Steady(s, r) && AllScheduled(s, q)
    ensures AllScheduled(r, q)
  {
    forall t | t in q ensures IsWaiting(r, t) { assert IsWaiting(s, t); }
  }

  lemma PassKeeps(p: Plan, s: State, aside: seq<Task>, final: bool)
    requires Ongoing(p, s, Ids(aside)) && AllScheduled(s, aside)
    ensures var (r, more) := Pass(p, s, aside, final); Ongoing(p, r, Ids(more)) && AllScheduled(r, more) && Steady(s, r)
  {
    var order := UsableExecs(s.execs);
    var (s1, popped) := Round(p, s, order, final);
    RoundKeeps(p, s, order, final, Ids(aside));
    SteadyScheduled(s, s1, aside);
    if s1.schedQueue != [] && !popped { SetAside(p, s1, aside); }
  }

  lemma {:induction false} AssignKeeps(p: Plan, s: State, aside: seq<Task>, final: bool)
    requires Ongoing(p, s, Ids(aside)) && AllScheduled(s, aside)
    ensures Ongoing(p, Assign(p, s, aside, final), {}) && Steady(s, Assign(p, s, aside, final))
    decreases |Unscheduled(p, s)|, |s.schedQueue|
  {
    if s.schedQueue == [] || GoodCount(s.execs) == 0 {
      PutBack(p, s, aside);
    } else {
      var (r, more) := Pass(p, s, aside, final);
      PassProgress(p, s, aside, final);
      PassKeeps(p, s, aside, final);
      AssignKeeps(p, r, more, final);
      SteadyTransitive(s, r, Assign(p, r, more, final));
    }
  }

  lemma ReorderHolds(p: Plan, s: State)
    requires QueuesOK(s)
    ensures AllScheduled(s, Reorder(p.cfg, s.schedQueue))
    ensures forall k :: InQueue(s.schedQueue, k) ==> InQueue(Reorder(p.cfg, s.schedQueue), k)
  {
    var q := Reorder(p.cfg, s.schedQueue);
    ReorderPermutes(p.cfg, s.schedQueue);
    forall t | t in q ensures IsWaiting(s, t) { assert t in multiset(q); }
    forall k | InQueue(s.schedQueue, k) ensures InQueue(q, k) {
      var i :| 0 <= i < |s.schedQueue| && s.schedQueue[i].rid.id == k;
      assert s.schedQueue[i] in multiset(s.schedQueue);
      assert s.schedQueue[i] in q;
    }
  }

  /** Dispatch loses nothing. */
  lemma DispatchKeeps(p: Plan, s: State)
    requires Ongoing(p, s, {})
    ensures Ongoing(p, DispatchTasks(p, s), {}) && Steady(s, DispatchTasks(p, s))
  {
    var q := Reorder(p.cfg, s.schedQueue);
    ReorderHolds(p, s);
    SetQueue(p, s, q);
    SetQueueCover(p, s, q, {}, {});
    AssignKeeps(p, s.(schedQueue := q), [], FinalPhase(p, s.(schedQueue := q)));
  }

  // ---------------------------------------------------------------- the local queue

  lemma {:induction false} PushLocalKeeps(s: State, e: Executor, queue: seq<Task>)
    requires ExecOK(s, e) && e.local && AllScheduled(s, queue)
    ensures CanReplace(s, e, PushLocal(e, queue).0)
    ensures forall t :: t in PushLocal(e, queue).1 ==> t in queue
    ensures forall k :: e.Has(TaskKey(k)) || InQueue(queue, k) ==> PushLocal(e, queue).0.Has(TaskKey(k))
    decreases |queue|
  {
    if queue != [] {
      var t := queue[0];
      var e1 := e.Push(TaskItem(t));
      assert t in queue && forall u :: u in queue[1..] ==> u in queue;
      assert IsWaiting(s, t);
      if !e.Has(TaskKey(t.rid.id)) { PushExecOK(s, e, t); }
      PushLocalKeeps(s, e1, queue[1..]);
      forall k | e.Has(TaskKey(k)) || InQueue(queue, k) ensures e1.Has(TaskKey(k)) || InQueue(queue[1..], k) {
        PushHas(e, t, k);
        if InQueue(queue, k) { InTail(queue, t, k); }
      }
    }
  }

  lemma SetLocalQueue(p: Plan, s: State, q: seq<Task>)
    requires Inv(p, s) && forall t :: t in q ==> t in s.localQueue
    requires forall k :: InQueue(s.localQueue, k) ==> Runs(s.execs, k)
    ensures Inv(p, s.(localQueue := q))
  {
    var r := s.(localQueue := q);
    ScheduledFrame(p, s, r);
    ClosedFrame(p, s, r);
    ExecsFrame(s, r);
    forall t | t in r.localQueue || t in r.schedQueue ensures IsWaiting(r, t) { assert IsWaiting(s, t); }
    forall k | k in p.tasks && k !in r.succeeded && Ready(p, r, k) ensures Queued(r, k) || Runs(r.execs, k) {
      assert Ready(p, s, k);
    }
  }

  /** Feeding the local executor: afterwards every queued local task runs there. */
  lemma PushLocalQueueKeeps(p: Plan, s: State)
    requires Ongoing(p, s, {}) && (s.localQueue == [] || s.execs[0].Alive())
    ensures Ongoing(p, PushLocalQueue(s), {})
  {
    var e := s.execs[0];
    var (e', kept) := PushLocal(e, s.localQueue);
    var execs := s.execs[0 := e'];
    assert ExecOK(s, e);
    PushLocalKeeps(s, e, s.localQueue);
    ReplaceOne(p, s, 0, e');
    forall k | Runs(s.execs, k) || InQueue(s.localQueue, k) ensures Runs(execs, k) {
      if InQueue(s.localQueue, k) || e.Has(TaskKey(k)) {
        RunsAt(execs, 0, k);
      } else {
        var j :| 0 <= j < |s.execs| && s.execs[j].Tracked() && s.execs[j].Has(TaskKey(k));
        RunsAt(execs, j, k);
      }
    }
    ExecsCover(p, s, execs, [], [], {}, {});
    SetLocalQueue(p, s.(execs := execs), kept);
  }

  // ---------------------------------------------------------------- stopping an idle executor

  /** `stop` on an executor with no unsucceeded work. */
  lemma StopKeeps(s: State, e: Executor)
    requires ExecOK(s, e) && (s.running ==> e.local || OnlySucceeded(s, e))
    ensures CanReplace(s, e, e.Stop())
    ensures forall k :: e.Has(TaskKey(k)) ==> e.Stop().Has(TaskKey(k))
    ensures e.Tracked() ==> e.Stop().Tracked()
  {
    var e' := e.Stop();
    assert forall w :: w in e'.wq && w.StopWork? ==> w in e.wq;
    assert e.running <= e'.running;
    assert forall i :: 0 <= i < |e.running| ==> e'.running[i] == e.running[i];
    forall k | e.Has(TaskKey(k)) ensures e'.Has(TaskKey(k)) {
      var i :| 0 <= i < |e.running| && e.running[i].Key() == TaskKey(k);
      assert e'.running[i].Key() == TaskKey(k);
    }
  }

  /** Only an idle good executor is stopped. */
  lemma {:induction false} StopFirstIdleAt(execs: seq<Executor>, i: nat)
    requires i < |execs|
    ensures StopFirstIdle(execs)[i] == execs[i]
      || (IsGood(execs[i]) && execs[i].running == [] && StopFirstIdle(execs)[i] == execs[i].Stop())
  {
    if i > 0 && !(IsGood(execs[0]) && execs[0].running == []) { StopFirstIdleAt(execs[1..], i - 1); }
  }

  lemma StopIdleKeeps(p: Plan, s: State)
    requires Inv(p, s)
    ensures Inv(p, StopIdle(p, s))
  {
    var execs := StopFirstIdle(s.execs);
    forall i | 0 <= i < |s.execs|
      ensures CanReplace(s, s.execs[i], execs[i]) && (s.execs[i].Tracked() ==> execs[i].Tracked())
      ensures forall k :: s.execs[i].Has(TaskKey(k)) ==> execs[i].Has(TaskKey(k))
    {
      assert ExecOK(s, s.execs[i]);
      StopFirstIdleAt(s.execs, i);
      if s.execs[i].running == [] { StopKeeps(s, s.execs[i]); }
    }
    ReplaceExecs(p, s, execs);
    forall k | Runs(s.execs, k) ensures Runs(execs, k) {
      var j :| 0 <= j < |s.execs| && s.execs[j].Tracked() && s.execs[j].Has(TaskKey(k));
      RunsAt(execs, j, k);
    }
    ExecsCover(p, s, execs, [], [], {}, {});
  }
}
