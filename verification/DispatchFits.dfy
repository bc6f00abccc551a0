/** Dispatch leaves no task in the queue that a good executor could take. */
module DispatchFits {
  import opened WorkItems
  import opened Executors
  import opened Plans
  import opened Sched
  import opened Dispatch
  import opened DispatchProofs
  import opened DispatchSteps
  import opened SchedInvariants
  import opened SchedLoop
  import opened SchedRuns
  import opened SchedSafety
  import opened SchedTheorems
  import opened ExecutorRuns
  import opened ExecutorTheorems

  // ---------------------------------------------------------------- what an executor cannot take

  ghost predicate RunsTask(e: Executor, k: nat) { exists i :: 0 <= i < |e.running| && e.running[i].Key() == TaskKey(k) }

  /** It runs as many works as it may, or all of one resource is allocated. */
  ghost predicate Full(e: Executor) {
    || |e.running| >= e.probe.cpus - e.probe.cpus / 16
    || (e.probe.cpus > 0 && SumCpu(e.running) >= e.probe.cpus)
    || (e.probe.gpus > 0 && SumGpu(e.running) >= e.probe.gpus as real)
    || (e.probe.memory > 0 && SumMem(e.running) >= e.probe.memory)
  }

  /** The executor is full, runs an attempt at the task, or has too little left of some resource. */
  ghost predicate CannotTake(e: Executor, t: Task) {
    || Full(e) || RunsTask(e, t.rid.id)
    || SumCpu(e.running) + t.limits.Cpu() > e.probe.cpus
    || SumGpu(e.running) + t.limits.gpu > e.probe.gpus as real
    || SumMem(e.running) + t.limits.Mem() > e.probe.memory
  }

  ghost predicate NoneCanTake(execs: seq<Executor>, t: Task) {
    forall i :: 0 <= i < |execs| && !execs[i].local && execs[i].state == Good ==> CannotTake(execs[i], t)
  }

  ghost predicate NoneTakesAny(execs: seq<Executor>, q: seq<Task>) { forall t :: t in q ==> NoneCanTake(execs, t) }

  ghost predicate AllAccounted(execs: seq<Executor>) {
    forall i {:trigger Accounted(execs[i])} :: 0 <= i < |execs| ==> Accounted(execs[i])
  }

  // ---------------------------------------------------------------- load only grows

  /** b is executor a with more works, though not above the limit on their number. */
  ghost predicate Grown(a: Executor, b: Executor) {
    && (|b.running| == |a.running| || |b.running| <= b.probe.cpus - b.probe.cpus / 16)
    && b.local == a.local && b.state == a.state && b.probe == a.probe && |a.running| <= |b.running|
    && SumCpu(a.running) <= SumCpu(b.running) && SumGpu(a.running) <= SumGpu(b.running)
    && SumMem(a.running) <= SumMem(b.running) && forall k :: RunsTask(a, k) ==> RunsTask(b, k)
  }

  ghost predicate AllGrown(xs: seq<Executor>, ys: seq<Executor>) {
    |xs| == |ys| && forall i {:trigger Grown(xs[i], ys[i])} :: 0 <= i < |xs| ==> Grown(xs[i], ys[i])
  }

  lemma GrownTransitive(xs: seq<Executor>, ys: seq<Executor>, zs: seq<Executor>)
    requires AllGrown(xs, ys) && AllGrown(ys, zs)
    ensures AllGrown(xs, zs)
  {
    forall i | 0 <= i < |xs| ensures Grown(xs[i], zs[i]) { assert Grown(xs[i], ys[i]) && Grown(ys[i], zs[i]); }
  }

  lemma GrownStillCannot(xs: seq<Executor>, ys: seq<Executor>, t: Task)
    requires AllGrown(xs, ys) && NoneCanTake(xs, t)
    ensures NoneCanTake(ys, t)
  {
    forall i | 0 <= i < |ys| && !ys[i].local && ys[i].state == Good ensures CannotTake(ys[i], t) {
      assert Grown(xs[i], ys[i]) && CannotTake(xs[i], t);
    }
  }

  lemma PushGrows(e: Executor, t: Task)
    requires LimitsOK(t.limits) && |e.running| < e.MaxRunning()
    ensures Grown(e, e.Push(TaskItem(t)))
  {
    LimitsSane(t);
    SumSplit(e.running, [TaskItem(t)]);
    assert [TaskItem(t)][1..] == [];
    var b := e.Push(TaskItem(t));
    forall k | RunsTask(e, k) ensures RunsTask(b, k) {
      var i :| 0 <= i < |e.running| && e.running[i].Key() == TaskKey(k);
      assert b.running[i] == e.running[i];
    }
  }

  lemma OfferGrows(p: Plan, s: State, i: nat, final: bool)
    requires i < |s.execs| && s.schedQueue != [] && LimitsInv(s)
    ensures AllGrown(s.execs, Offer(p, s, i, final).0.execs)
  {
    var e := s.execs[i];
    var t := WithMemory(e, s.schedQueue[0]);
    assert s.schedQueue[0] in s.schedQueue;
    if !s.Done(t.rid.id) && e.Admits(t) {
      if final { BoostFits(p, e, t); }
      PushGrows(e, if final then Boost(p, e, t) else t);
    }
  }

  lemma {:induction false} RoundGrows(p: Plan, s: State, order: seq<nat>, final: bool)
    requires LimitsInv(s) && GoodFree(s.execs) && forall j :: j in order ==> j < |s.execs| && IsGood(s.execs[j])
    ensures AllGrown(s.execs, Round(p, s, order, final).0.execs)
    decreases |order|
  {
    if order != [] && s.schedQueue != [] {
      assert order[0] in order && forall j :: j in order[1..] ==> j in order;
      var r := Offer(p, s, order[0], final).0;
      OfferSound(WithLimits, p, s, order[0], final);
      OfferFree(p, s, order[0], final);
      OfferGrows(p, s, order[0], final);
      RoundGrows(p, r, order[1..], final);
      GrownTransitive(s.execs, r.execs, Round(p, s, order, final).0.execs);
    }
  }

  // ---------------------------------------------------------------- a task that is set aside

  lemma DeclinedFor(e: Executor, t: Task)
    requires Accounted(e) && !e.Admits(t)
    ensures CannotTake(e, t)
  {
    if e.Has(TaskKey(t.rid.id)) {
      var i :| 0 <= i < |e.running| && e.running[i].Key() == TaskKey(t.rid.id);
      assert RunsTask(e, t.rid.id);
    }
  }

  /** When nothing leaves the queue in a round, all executors of the round declined its head, in the form in which it
      stands there afterwards. */
  lemma {:induction false} RoundDeclines(p: Plan, s: State, order: seq<nat>, final: bool)
    requires s.schedQueue != [] && AllAccounted(s.execs) && forall j :: j in order ==> j < |s.execs|
    ensures var (r, popped) := Round(p, s, order, final);
      !popped ==>
        && r.execs == s.execs && r.schedQueue != []
        && (s.schedQueue[0].limits.baseMem.Some? ==> r.schedQueue[0] == s.schedQueue[0])
        && r.schedQueue[0].rid == s.schedQueue[0].rid
        && forall j :: j in order ==> CannotTake(s.execs[j], r.schedQueue[0])
    decreases |order|
  {
    if order != [] {
      assert order[0] in order && forall j :: j in order ==> j == order[0] || j in order[1..];
      var e := s.execs[order[0]];
      var (s1, popped) := Offer(p, s, order[0], final);
      if !popped {
        DeclinedFor(e, s1.schedQueue[0]);
        assert s1.execs == s.execs && forall j :: j in order[1..] ==> j in order;
        RoundDeclines(p, s1, order[1..], final);
      }
    }
  }

  lemma BusyIsFull(e: Executor)
    requires Accounted(e) && e.Busy()
    ensures Full(e)
  {
  }

  lemma PassDeclines(p: Plan, s: State, final: bool)
    requires s.schedQueue != [] && AllAccounted(s.execs)
    ensures var (r, popped) := Round(p, s, UsableExecs(s.execs), final);
      !popped ==> r.schedQueue != [] && NoneCanTake(r.execs, r.schedQueue[0])
  {
    var order := UsableExecs(s.execs);
    var (r, popped) := Round(p, s, order, final);
    RoundDeclines(p, s, order, final);
    if !popped {
      forall i | 0 <= i < |r.execs| && !r.execs[i].local && r.execs[i].state == Good
        ensures CannotTake(r.execs[i], r.schedQueue[0])
      {
        if i !in order { BusyIsFull(s.execs[i]); }
      }
    }
  }

  // ---------------------------------------------------------------- the whole dispatch

  lemma AccountedLater(xs: seq<Executor>, ys: seq<Executor>)
    requires AllAccounted(xs) && LaterAll(WithLimits, xs, ys)
    ensures AllAccounted(ys)
  {
    forall i | 0 <= i < |ys| ensures Accounted(ys[i]) {
      if i < |xs| {
        assert Later(WithLimits, xs[i], ys[i]) && Accounted(xs[i]);
      } else {
        assert Joins(WithLimits, ys[i]);
      }
    }
  }

  lemma {:induction false} NoneGood(execs: seq<Executor>)
    requires GoodCount(execs) == 0
    ensures forall i :: 0 <= i < |execs| ==> execs[i].local || execs[i].state != Good
  {
    if execs != [] {
      NoneGood(execs[1..]);
      assert forall i :: 0 < i < |execs| ==> execs[i] == execs[1..][i - 1];
    }
  }

  /** Tasks that were set aside stay impossible to take, and one more may join them. */
  lemma PassKeepsAside(p: Plan, s: State, aside: seq<Task>, final: bool)
    requires s.schedQueue != [] && GoodFree(s.execs) && LimitsInv(s) && AllAccounted(s.execs)
        && NoneTakesAny(s.execs, aside)
    ensures var (r, more) := Pass(p, s, aside, final);
      NoneTakesAny(r.execs, more) && AllAccounted(r.execs) && AllGrown(s.execs, r.execs)
  {
    var (r, popped) := Round(p, s, UsableExecs(s.execs), final);
    RoundGrows(p, s, UsableExecs(s.execs), final);
    RoundSound(WithLimits, p, s, UsableExecs(s.execs), final);
    AccountedLater(s.execs, r.execs);
    PassDeclines(p, s, final);
    forall t | t in aside ensures NoneCanTake(r.execs, t) { GrownStillCannot(s.execs, r.execs, t); }
  }

  lemma {:induction false} AssignComplete(p: Plan, s: State, aside: seq<Task>, final: bool)
    requires GoodFree(s.execs) && LimitsInv(s) && ProperLimits(aside) && AllAccounted(s.execs)
        && NoneTakesAny(s.execs, aside)
    ensures var r := Assign(p, s, aside, final); NoneTakesAny(r.execs, r.schedQueue) && AllGrown(s.execs, r.execs)
    decreases |Unscheduled(p, s)|, |s.schedQueue|
  {
    if s.schedQueue == [] || GoodCount(s.execs) == 0 {
      if GoodCount(s.execs) == 0 { NoneGood(s.execs); }
      AssignEnds(p, s, aside, final);
    } else {
      var (r, more) := Pass(p, s, aside, final);
      PassProgress(p, s, aside, final);
      PassSound(WithLimits, p, s, aside, final);
      PassKeepsAside(p, s, aside, final);
      AssignContinues(p, s, aside, final);
      AssignComplete(p, r, more, final);
      GrownTransitive(s.execs, r.execs, Assign(p, s, aside, final).execs);
    }
  }

  /** Dispatch only adds works, none beyond the limit on their number, and leaves no task that fits. */
  lemma DispatchComplete(p: Plan, s: State)
    requires GoodFree(s.execs) && LimitsInv(s) && AllAccounted(s.execs)
    ensures var r := DispatchTasks(p, s); NoneTakesAny(r.execs, r.schedQueue) && AllGrown(s.execs, r.execs)
  {
    var q := Reorder(p.cfg, s.schedQueue);
    ReorderPermutes(p.cfg, s.schedQueue);
    forall t | t in q ensures LimitsOK(t.limits) { assert t in multiset(q); assert t in s.schedQueue; }
    var s1 := s.(schedQueue := q);
    AssignComplete(p, s1, [], FinalPhase(p, s1));
  }

  /** Every reachable state is safe, with proper limits and exact allocations. */
  lemma ReachableFits(p: Plan, s: State, limits: map<nat, Limits>, local: Executor, ks: seq<nat>, inputs: seq<Input>)
    requires Reachable(p, s, limits, local, ks, inputs) && Accounted(local)
    requires forall k :: k in limits ==> LimitsOK(limits[k])
    ensures Safe(p, s) && LimitsInv(s) && AllAccounted(s.execs)
  {
    StartKeeps(p, limits, local, ks);
    RunKeeps(p, Start(p, limits, local, ks), inputs);
    ReachableLimits(p, s, limits, local, ks, inputs);
  }

  lemma ReachableLimits(p: Plan, s: State, limits: map<nat, Limits>, local: Executor, ks: seq<nat>, inputs: seq<Input>)
    requires Reachable(p, s, limits, local, ks, inputs) && Accounted(local)
    requires forall k :: k in limits ==> LimitsOK(limits[k])
    ensures LimitsInv(s) && AllAccounted(s.execs)
  {
    var s0 := Start(p, limits, local, ks);
    StartKeeps(p, limits, local, ks);
    StartFits(p, limits, local, ks);
    RunSound(WithLimits, p, s0, inputs);
    AccountedLater(s0.execs, s.execs);
  }

  /** After the dispatch of any iteration of any run, no good executor could take any task that is left in the queue:
      it is full, runs an attempt at that task, or has too little left of some resource. */
  lemma NothingWaitsInVain(p: Plan, s: State, limits: map<nat, Limits>, local: Executor, ks: seq<nat>,
          inputs: seq<Input>, inp: Input)
    requires Reachable(p, s, limits, local, ks, inputs) && s.running && Accounted(local)
    requires forall k :: k in limits ==> LimitsOK(limits[k])
    ensures var a := Assigned(p, s, inp); NoneTakesAny(a.execs, a.schedQueue)
  {
    ReachableFits(p, s, limits, local, ks, inputs);
    QueueComplete(p, s, inp);
  }

  lemma QueueComplete(p: Plan, s: State, inp: Input)
    requires Safe(p, s) && s.running && LimitsInv(s) && AllAccounted(s.execs)
    ensures var a := Assigned(p, s, inp); NoneTakesAny(a.execs, a.schedQueue)
  {
    var s1 := Updated(p, s, inp);
    UpdatedKeeps(p, s, inp);
    UpdatedSound(WithLimits, p, s, inp);
    var s2 := PushLocalQueue(s1);
    PushLocalQueueSound(WithLimits, s1);
    AccountedLater(s.execs, s1.execs);
    AccountedLater(s1.execs, s2.execs);
    DispatchComplete(p, s2);
    assert Assigned(p, s, inp) == StopIdle(p, DispatchTasks(p, s2));
  }
}
