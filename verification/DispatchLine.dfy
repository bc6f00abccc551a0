/** Dispatch serves the queue in its order, and tries the least loaded executor first. */
module DispatchLine {
  import opened WorkItems
  import opened Executors
  import opened Plans
  import opened Sched
  import opened Dispatch
  import opened DispatchProofs
  import opened DispatchOrder
  import opened SchedInvariants
  import opened DispatchFits

  // ---------------------------------------------------------------- the order of the queue

  function Rids(ts: seq<Task>): seq<RuntimeId> { seq(|ts|, i requires 0 <= i < |ts| => ts[i].rid) }

  /** Positions in a list of n, in ascending order. */
  predicate Ascends(f: seq<nat>, n: nat) {
    (forall i, j :: 0 <= i < j < |f| ==> f[i] < f[j]) && forall i :: 0 <= i < |f| ==> f[i] < n
  }

  predicate Picks(f: seq<nat>, ts: seq<Task>, line: seq<RuntimeId>) {
    |f| == |ts| && Ascends(f, |line|) && forall k :: 0 <= k < |ts| ==> ts[k].rid == line[f[k]]
  }

  /** The tasks occur in the line, in the same order. */
  ghost predicate TasksWithin(ts: seq<Task>, line: seq<RuntimeId>) { exists f: seq<nat> :: Picks(f, ts, line) }

  predicate PicksWorks(f: seq<nat>, works: seq<Running>, n: nat, line: seq<RuntimeId>) {
    && n <= |works| && |f| == |works| - n && Ascends(f, |line|)
    && forall k :: n <= k < |works| ==> works[k].TaskItem? && works[k].task.rid == line[f[k - n]]
  }

  /** The works from the n-th on occur in the line, in the same order. */
  ghost predicate WorksWithin(works: seq<Running>, n: nat, line: seq<RuntimeId>) {
    exists f: seq<nat> :: PicksWorks(f, works, n, line)
  }

  lemma TasksLonger(ts: seq<Task>, line: seq<RuntimeId>, more: seq<RuntimeId>)
    requires TasksWithin(ts, line)
    ensures TasksWithin(ts, line + more)
  {
    var f: seq<nat> :| Picks(f, ts, line);
    assert Picks(f, ts, line + more);
  }

  lemma TasksNext(ts: seq<Task>, line: seq<RuntimeId>, t: Task)
    requires TasksWithin(ts, line)
    ensures TasksWithin(ts + [t], line + [t.rid])
  {
    var f: seq<nat> :| Picks(f, ts, line);
    var g: seq<nat> := f + [|line|];
    assert Picks(g, ts + [t], line + [t.rid]);
  }

  lemma WorksLonger(works: seq<Running>, n: nat, line: seq<RuntimeId>, more: seq<RuntimeId>)
    requires WorksWithin(works, n, line)
    ensures WorksWithin(works, n, line + more)
  {
    var f: seq<nat> :| PicksWorks(f, works, n, line);
    assert PicksWorks(f, works, n, line + more);
  }

  lemma WorksNext(works: seq<Running>, n: nat, line: seq<RuntimeId>, t: Task)
    requires WorksWithin(works, n, line)
    ensures WorksWithin(works + [TaskItem(t)], n, line + [t.rid])
  {
    var f: seq<nat> :| PicksWorks(f, works, n, line);
    var g: seq<nat> := f + [|line|];
    assert PicksWorks(g, works + [TaskItem(t)], n, line + [t.rid]);
  }

  // ---------------------------------------------------------------- one offer

  /** Dispatch under way since s0: the first c tasks of the line have been served, the others are queued. */
  ghost predicate InLine(s0: State, s: State, aside: seq<Task>, line: seq<RuntimeId>, c: nat) {
    && Records(s0, s) && |s.execs| == |s0.execs| && c <= |line| && Rids(s.schedQueue) == line[c..]
    && TasksWithin(aside, line[..c])
    && forall i :: 0 <= i < |s.execs| ==> WorksWithin(s.execs[i].running, |s0.execs[i].running|, line[..c])
  }

  /** What has joined the line are attempts that had not been scheduled before. */
  ghost predicate Joined(s0: State, line: seq<RuntimeId>, line': seq<RuntimeId>) {
    line <= line' && forall k :: |line| <= k < |line'| ==> line'[k] !in s0.scheduled
  }

  ghost predicate Adds(s: State, r: State) {
    && Records(s, r) && s.schedQueue <= r.schedQueue
    && forall k :: |s.schedQueue| <= k < |r.schedQueue| ==> r.schedQueue[k].rid !in s.scheduled
  }

  lemma AddsTwice(s: State, u: State, r: State)
    requires Adds(s, u) && Adds(u, r)
    ensures Adds(s, r)
  {
    forall k | |s.schedQueue| <= k < |r.schedQueue| ensures r.schedQueue[k].rid !in s.scheduled {
      if k < |u.schedQueue| { assert r.schedQueue[k] == u.schedQueue[k]; }
    }
  }

  lemma {:induction false} EnqueueOneAdds(p: Plan, s: State, k: nat)
    ensures Adds(s, EnqueueOne(p, s, k))
    decreases Height(p, k) + 1, 0
  {
    if k in p.tasks && k in s.master && Ready(p, s, k) && s.Done(k) {
      EnqueueAllAdds(p, LookUp(p, s, k), Consumers(p, s, k));
    }
  }

  lemma {:induction false} EnqueueAllAdds(p: Plan, s: State, ks: seq<nat>)
    ensures Adds(s, EnqueueAll(p, s, ks))
    decreases Heights(p, ks), 1 + |ks|
  {
    if ks != [] {
      assert ks[0] in ks;
      HeightsBound(p, ks[1..], Heights(p, ks));
      EnqueueOneAdds(p, s, ks[0]);
      EnqueueAllAdds(p, EnqueueOne(p, s, ks[0]), ks[1..]);
      AddsTwice(s, EnqueueOne(p, s, ks[0]), EnqueueAll(p, s, ks));
    }
  }

  /** The line with what has been added at its end. */
  lemma Longer(s0: State, s: State, r: State, line: seq<RuntimeId>, c: nat) returns (line': seq<RuntimeId>)
    requires Records(s0, s) && c < |line| && s.schedQueue != [] && Rids(s.schedQueue) == line[c..]
    requires Adds(s.(schedQueue := s.schedQueue[1..]), r)
    ensures Joined(s0, line, line') && c + 1 <= |line'| && Rids(r.schedQueue) == line'[c + 1..]
    ensures line'[..c] == line[..c] && line'[c] == s.schedQueue[0].rid
  {
    var n := |s.schedQueue| - 1;
    var added := r.schedQueue[n..];
    line' := line + Rids(added);
    assert r.schedQueue == s.schedQueue[1..] + added;
    assert Rids(s.schedQueue)[1..] == line[c + 1..];
    assert line'[c + 1..] == line[c + 1..] + Rids(added);
    assert Rids(r.schedQueue) == Rids(s.schedQueue)[1..] + Rids(added);
    assert Rids(s.schedQueue)[0] == line[c];
  }

  /** The head has left the queue without joining any executor. */
  lemma HeadLeaves(p: Plan, s0: State, s: State, r: State, aside: seq<Task>, line: seq<RuntimeId>, c: nat)
      returns (line': seq<RuntimeId>)
    requires InLine(s0, s, aside, line, c) && s.schedQueue != [] && r.execs == s.execs
    requires Adds(s.(schedQueue := s.schedQueue[1..]), r)
    ensures Joined(s0, line, line') && InLine(s0, r, aside, line', c + 1)
    ensures |line'| > c && line'[c] == s.schedQueue[0].rid && line'[..c + 1] == line[..c] + [line'[c]]
  {
    assert |Rids(s.schedQueue)| == |line| - c;
    line' := Longer(s0, s, r, line, c);
    assert line'[..c + 1] == line[..c] + [line'[c]];
    TasksLonger(aside, line[..c], [line'[c]]);
    forall i | 0 <= i < |r.execs| ensures WorksWithin(r.execs[i].running, |s0.execs[i].running|, line'[..c + 1]) {
      WorksLonger(s.execs[i].running, |s0.execs[i].running|, line[..c], [line'[c]]);
    }
  }

  /** The head has joined executor i. */
  lemma HeadJoins(s0: State, s: State, i: nat, t: Task, aside: seq<Task>, line: seq<RuntimeId>, c: nat)
    requires InLine(s0, s, aside, line, c) && s.schedQueue != [] && i < |s.execs| && t.rid == s.schedQueue[0].rid
        && !s.execs[i].Has(TaskKey(t.rid.id))
    ensures var r := s.(schedQueue := s.schedQueue[1..], execs := s.execs[i := s.execs[i].Push(TaskItem(t))]);
      c < |line| && InLine(s0, r, aside, line, c + 1)
  {
    var r := s.(schedQueue := s.schedQueue[1..], execs := s.execs[i := s.execs[i].Push(TaskItem(t))]);
    assert |Rids(s.schedQueue)| == |line| - c && Rids(s.schedQueue)[0] == line[c];
    assert line[..c + 1] == line[..c] + [t.rid] && Rids(r.schedQueue) == Rids(s.schedQueue)[1..] == line[c + 1..];
    TasksLonger(aside, line[..c], [t.rid]);
    forall j | 0 <= j < |r.execs| ensures WorksWithin(r.execs[j].running, |s0.execs[j].running|, line[..c + 1]) {
      if j == i {
        WorksNext(s.execs[i].running, |s0.execs[i].running|, line[..c], t);
      } else {
        WorksLonger(s.execs[j].running, |s0.execs[j].running|, line[..c], [t.rid]);
      }
    }
  }

  lemma OfferLine(p: Plan, s0: State, s: State, i: nat, final: bool, aside: seq<Task>, line: seq<RuntimeId>, c: nat)
      returns (line': seq<RuntimeId>, c': nat)
    requires InLine(s0, s, aside, line, c) && s.schedQueue != [] && i < |s.execs|
    ensures Joined(s0, line, line') && InLine(s0, Offer(p, s, i, final).0, aside, line', c')
  {
    var e := s.execs[i];
    var t := WithMemory(e, s.schedQueue[0]);
    var r := Offer(p, s, i, final).0;
    if s.Done(t.rid.id) {
      var rest := s.(schedQueue := s.schedQueue[1..]);
      if t.rid.id in p.tasks { EnqueueAllAdds(p, LookUp(p, rest, t.rid.id), Consumers(p, rest, t.rid.id)); }
      line' := HeadLeaves(p, s0, s, r, aside, line, c);
      c' := c + 1;
    } else if e.Admits(t) {
      line', c' := line, c + 1;
      HeadJoins(s0, s, i, if final then Boost(p, e, t) else t, aside, line, c);
    } else {
      line', c' := line, c;
      assert Rids(r.schedQueue) == Rids(s.schedQueue);
    }
  }

  // ---------------------------------------------------------------- the whole dispatch

  lemma {:induction false} RoundLine(p: Plan, s0: State, s: State, order: seq<nat>, final: bool, aside: seq<Task>,
          line: seq<RuntimeId>, c: nat) returns (line': seq<RuntimeId>, c': nat)
    requires InLine(s0, s, aside, line, c) && forall j :: j in order ==> j < |s.execs|
    ensures Joined(s0, line, line') && InLine(s0, Round(p, s, order, final).0, aside, line', c')
    decreases |order|
  {
    line', c' := line, c;
    if order != [] && s.schedQueue != [] {
      assert order[0] in order && forall j :: j in order[1..] ==> j in order;
      OfferKeepsExecs(p, s, order[0], final);
      var u := Offer(p, s, order[0], final).0;
      var l, d := OfferLine(p, s0, s, order[0], final, aside, line, c);
      line', c' := RoundLine(p, s0, u, order[1..], final, aside, l, d);
    }
  }

  lemma PassLine(p: Plan, s0: State, s: State, aside: seq<Task>, final: bool, line: seq<RuntimeId>, c: nat)
      returns (line': seq<RuntimeId>, c': nat)
    requires InLine(s0, s, aside, line, c)
    ensures var (r, more) := Pass(p, s, aside, final); Joined(s0, line, line') && InLine(s0, r, more, line', c')
  {
    var (u, popped) := Round(p, s, UsableExecs(s.execs), final);
    line', c' := RoundLine(p, s0, s, UsableExecs(s.execs), final, aside, line, c);
    if u.schedQueue != [] && !popped {
      SetAside(p, s0, u, aside, line', c');
      c' := c' + 1;
    }
  }

  lemma SetAside(p: Plan, s0: State, s: State, aside: seq<Task>, line: seq<RuntimeId>, c: nat)
    requires InLine(s0, s, aside, line, c) && s.schedQueue != []
    ensures InLine(s0, s.(schedQueue := s.schedQueue[1..]), aside + [s.schedQueue[0]], line, c + 1)
  {
    var t, r := s.schedQueue[0], s.(schedQueue := s.schedQueue[1..]);
    assert |Rids(s.schedQueue)| == |line| - c && Rids(s.schedQueue)[0] == line[c];
    assert line[..c + 1] == line[..c] + [t.rid] && Rids(r.schedQueue) == Rids(s.schedQueue)[1..] == line[c + 1..];
    TasksNext(aside, line[..c], t);
    forall i | 0 <= i < |r.execs| ensures WorksWithin(r.execs[i].running, |s0.execs[i].running|, line[..c + 1]) {
      WorksLonger(s.execs[i].running, |s0.execs[i].running|, line[..c], [t.rid]);
    }
  }

  /** What dispatch has done to a line: the works each executor was given stand in it in their order, and so do the
      tasks that are still queued. */
  ghost predicate Served(s0: State, r: State, line: seq<RuntimeId>) {
    && |r.execs| == |s0.execs| && TasksWithin(r.schedQueue, line)
    && forall i :: 0 <= i < |r.execs| ==> WorksWithin(r.execs[i].running, |s0.execs[i].running|, line)
  }

  lemma {:induction false} GoodSame(xs: seq<Executor>, ys: seq<Executor>)
    requires |xs| == |ys| && forall i :: 0 <= i < |xs| ==> (IsGood(xs[i]) <==> IsGood(ys[i]))
    ensures GoodCount(xs) == GoodCount(ys)
  {
    if xs != [] {
      assert forall i :: 0 <= i < |xs[1..]| ==> xs[1..][i] == xs[i + 1] && ys[1..][i] == ys[i + 1];
      GoodSame(xs[1..], ys[1..]);
    }
  }

  lemma {:induction false} RoundGood(p: Plan, s: State, order: seq<nat>, final: bool)
    requires forall j :: j in order ==> j < |s.execs|
    ensures GoodCount(Round(p, s, order, final).0.execs) == GoodCount(s.execs)
    decreases |order|
  {
    if order != [] && s.schedQueue != [] {
      assert order[0] in order && forall j :: j in order[1..] ==> j in order;
      OfferGood(p, s, order[0], final);
      RoundGood(p, Offer(p, s, order[0], final).0, order[1..], final);
    }
  }

  lemma OfferGood(p: Plan, s: State, i: nat, final: bool)
    requires i < |s.execs| && s.schedQueue != []
    ensures var r := Offer(p, s, i, final).0;
      |r.execs| == |s.execs| && GoodCount(r.execs) == GoodCount(s.execs)
  {
    GoodSame(s.execs, Offer(p, s, i, final).0.execs);
  }

  lemma ServedHere(s0: State, s: State, aside: seq<Task>, line: seq<RuntimeId>, c: nat)
    requires InLine(s0, s, aside, line, c) && (s.schedQueue == [] || aside == [])
    ensures Served(s0, s.(schedQueue := s.schedQueue + aside), line)
  {
    assert line[..c] + line[c..] == line;
    if s.schedQueue == [] {
      TasksLonger(aside, line[..c], line[c..]);
      assert s.schedQueue + aside == aside;
    } else {
      TasksInLine(s.schedQueue, line, c);
      assert s.schedQueue + aside == s.schedQueue;
    }
    forall i | 0 <= i < |s.execs| ensures WorksWithin(s.execs[i].running, |s0.execs[i].running|, line) {
      WorksLonger(s.execs[i].running, |s0.execs[i].running|, line[..c], line[c..]);
    }
  }

  lemma TasksInLine(ts: seq<Task>, line: seq<RuntimeId>, c: nat)
    requires c <= |line| && Rids(ts) == line[c..]
    ensures TasksWithin(ts, line)
  {
    var f: seq<nat> := seq(|ts|, k => c + k);
    assert |Rids(ts)| == |line| - c && forall k :: 0 <= k < |ts| ==> Rids(ts)[k] == line[c + k];
    assert Picks(f, ts, line);
  }

  lemma {:induction false} AssignLine(p: Plan, s0: State, s: State, aside: seq<Task>, final: bool,
          line: seq<RuntimeId>, c: nat) returns (line': seq<RuntimeId>)
    requires InLine(s0, s, aside, line, c) && (aside != [] ==> GoodCount(s.execs) != 0)
    ensures Joined(s0, line, line') && Served(s0, Assign(p, s, aside, final), line')
    decreases |Unscheduled(p, s)|, |s.schedQueue|
  {
    if s.schedQueue == [] || GoodCount(s.execs) == 0 {
      AssignEnds(p, s, aside, final);
      ServedHere(s0, s, aside, line, c);
      line' := line;
    } else {
      var (r, more) := Pass(p, s, aside, final);
      AssignContinues(p, s, aside, final);
      RoundGood(p, s, UsableExecs(s.execs), final);
      var l, d := PassLine(p, s0, s, aside, final, line, c);
      line' := AssignLine(p, s0, r, more, final, l, d);
    }
  }

  /** Dispatch serves the tasks in the fair order of the queue, which attempts that it enqueues may join at the end:
      each executor is given its new works in that order, and what stays queued keeps that order. */
  lemma DispatchInOrder(p: Plan, s: State) returns (line: seq<RuntimeId>)
    ensures Joined(s, Rids(Reorder(p.cfg, s.schedQueue)), line) && Served(s, DispatchTasks(p, s), line)
  {
    var q := Reorder(p.cfg, s.schedQueue);
    var s1 := s.(schedQueue := q);
    assert Rids(q)[0..] == Rids(q) && Picks([], [], Rids(q)[..0]);
    forall i | 0 <= i < |s.execs| ensures WorksWithin(s1.execs[i].running, |s.execs[i].running|, Rids(q)[..0]) {
      assert PicksWorks([], s.execs[i].running, |s.execs[i].running|, Rids(q)[..0]);
    }
    line := AssignLine(p, s, s1, [], FinalPhase(p, s1), Rids(q), 0);
  }

  // ---------------------------------------------------------------- the least loaded executor

  /** The same task, at most with a memory limit where it had none. */
  predicate SameButMemory(t: Task, u: Task) {
    u == t || (t.limits.baseMem.None? && u == t.(limits := t.limits.(baseMem := u.limits.baseMem)))
  }

  ghost predicate Declined(e: Executor, t: Task) { exists u :: SameButMemory(t, u) && CannotTake(e, u) }

  /** The first new work of the executor is the task. */
  ghost predicate Given(e: Executor, e': Executor, t: Task) {
    e.running < e'.running && var w := e'.running[|e.running|]; w.TaskItem? && w.task.rid == t.rid
  }

  lemma OfferKeepsWorks(p: Plan, s: State, i: nat, final: bool, j: nat)
    requires i < |s.execs| && s.schedQueue != [] && j < |s.execs|
    ensures var r := Offer(p, s, i, final).0; |r.execs| == |s.execs| && s.execs[j].running <= r.execs[j].running
  {
  }

  lemma {:induction false} RoundKeepsWorks(p: Plan, s: State, order: seq<nat>, final: bool, j: nat)
    requires (forall k :: k in order ==> k < |s.execs|) && j < |s.execs|
    ensures var r := Round(p, s, order, final).0; |r.execs| == |s.execs| && s.execs[j].running <= r.execs[j].running
    decreases |order|
  {
    if order != [] && s.schedQueue != [] {
      assert order[0] in order && forall k :: k in order[1..] ==> k in order;
      OfferKeepsWorks(p, s, order[0], final, j);
      RoundKeepsWorks(p, Offer(p, s, order[0], final).0, order[1..], final, j);
    }
  }

  predicate InRange(order: seq<nat>, n: nat) { forall k :: 0 <= k < |order| ==> order[k] < n }

  /** Executors before the m-th of a round decline the head, the m-th takes it; m is past the end when none does. */
  ghost predicate TakenAt(s: State, r: State, order: seq<nat>, t: Task, m: nat)
    requires InRange(order, |s.execs|) && |r.execs| == |s.execs|
  {
    && m <= |order| && (forall k :: 0 <= k < m ==> Declined(s.execs[order[k]], t))
    && (m < |order| ==> Given(s.execs[order[m]], r.execs[order[m]], t))
  }

  lemma {:induction false} HeadTaken(p: Plan, s: State, order: seq<nat>, final: bool) returns (m: nat)
    requires s.schedQueue != [] && !s.Done(s.schedQueue[0].rid.id) && AllAccounted(s.execs)
    requires InRange(order, |s.execs|) && forall j :: j in order ==> j < |s.execs|
    ensures var (r, popped) := Round(p, s, order, final);
      |r.execs| == |s.execs| && TakenAt(s, r, order, s.schedQueue[0], m) && (m == |order| ==> !popped)
    decreases |order|
  {
    m := 0;
    if order != [] {
      assert order[0] in order && InRange(order[1..], |s.execs|) && forall j :: j in order[1..] ==> j in order;
      var e, t := s.execs[order[0]], WithMemory(s.execs[order[0]], s.schedQueue[0]);
      var u := Offer(p, s, order[0], final).0;
      if e.Admits(t) {
        TakenFirst(p, s, order, final);
      } else {
        DeclinedFor(e, t);
        var n := HeadTaken(p, u, order[1..], final);
        TakenLater(s, Round(p, u, order[1..], final).0, order, s.schedQueue[0], t, n);
        m := n + 1;
      }
    }
  }

  lemma TakenFirst(p: Plan, s: State, order: seq<nat>, final: bool)
    requires s.schedQueue != [] && !s.Done(s.schedQueue[0].rid.id) && order != []
    requires InRange(order, |s.execs|) && forall j :: j in order ==> j < |s.execs|
    requires s.execs[order[0]].Admits(WithMemory(s.execs[order[0]], s.schedQueue[0]))
    ensures var r := Round(p, s, order, final).0;
      |r.execs| == |s.execs| && TakenAt(s, r, order, s.schedQueue[0], 0)
  {
    assert forall j :: j in order[1..] ==> j in order;
    RoundKeepsWorks(p, Offer(p, s, order[0], final).0, order[1..], final, order[0]);
  }

  lemma TakenLater(s: State, r: State, order: seq<nat>, head: Task, t: Task, n: nat)
    requires order != [] && InRange(order, |s.execs|) && InRange(order[1..], |s.execs|) && |r.execs| == |s.execs|
    requires SameButMemory(head, t) && CannotTake(s.execs[order[0]], t) && TakenAt(s, r, order[1..], t, n)
    ensures TakenAt(s, r, order, head, n + 1)
  {
    forall k | 0 <= k < n + 1 ensures Declined(s.execs[order[k]], head) {
      if k > 0 {
        assert order[1..][k - 1] == order[k];
        DeclinedBefore(s.execs[order[k]], head, t);
      }
    }
    if n < |order[1..]| { assert order[1..][n] == order[n + 1]; }
  }

  lemma DeclinedBefore(e: Executor, t: Task, u: Task)
    requires SameButMemory(t, u) && Declined(e, u)
    ensures Declined(e, t)
  {
    var v :| SameButMemory(u, v) && CannotTake(e, v);
    assert SameButMemory(t, v);
  }

  /** In every pass the first task, unless it has succeeded or is set aside, goes to a good executor that may take more,
      and every such executor that runs fewer works could not take it. */
  lemma LightestTakes(p: Plan, s: State, aside: seq<Task>, final: bool) returns (j: nat)
    requires s.schedQueue != [] && !s.Done(s.schedQueue[0].rid.id) && AllAccounted(s.execs)
    requires Round(p, s, UsableExecs(s.execs), final).1
    ensures var r := Pass(p, s, aside, final).0;
      && j < |s.execs| == |r.execs| && MayTakeMore(s.execs[j]) && Given(s.execs[j], r.execs[j], s.schedQueue[0])
      && forall i :: 0 <= i < |s.execs| && MayTakeMore(s.execs[i]) && |s.execs[i].running| < |s.execs[j].running|
                     ==> Declined(s.execs[i], s.schedQueue[0])
  {
    var order := UsableExecs(s.execs);
    UsableExecsInOrder(s.execs);
    assert forall k :: 0 <= k < |order| ==> order[k] in order;
    var m := HeadTaken(p, s, order, final);
    j := order[m];
    assert forall k :: m < k < |order| ==> NotAfter(s.execs, order[m], order[k]);
    forall i | 0 <= i < |s.execs| && MayTakeMore(s.execs[i]) && |s.execs[i].running| < |s.execs[j].running|
      ensures Declined(s.execs[i], s.schedQueue[0])
    {
      var k :| 0 <= k < |order| && order[k] == i;
    }
  }
}
