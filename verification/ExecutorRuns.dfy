/** Executors over whole runs: the state machine, the resource accounting and the capacity. */
module ExecutorRuns {
  import opened WorkItems
  import opened Executors
  import opened Plans
  import opened Dispatch

  /** States reachable inside the scheduling loop: FAIL and STOPPED are absorbing, STOPPING only leads to them. */
  predicate Reaches(a: ExecutorState, b: ExecutorState) {
    match a
    case Stopped => b == Stopped
    case Fail => b == Fail
    case Stopping => b == Stopping || b == Stopped || b == Fail
    case _ => true
  }

  /** b runs no task that a does not run. */
  ghost predicate TasksWithin(a: Executor, b: Executor) {
    forall w :: w in b.running && w.TaskItem? ==> w in a.running
  }

  ghost predicate Machine(a: Executor, b: Executor) {
    && b.local == a.local && a.probe.epoch <= b.probe.epoch && (a.stopSent ==> b.stopSent)
    && (if a.local then a.state != Stopping ==> b.state != Stopping else Reaches(a.state, b.state))
    && (!a.local && a.stopSent ==> TasksWithin(a, b))
  }

  /** Accounting for every executor, capacity for the remote ones. */
  ghost predicate Fits(e: Executor) { Accounted(e) && (!e.local ==> WithinCapacity(e)) }

  /** What is followed: the moves of the state machine with the accounting, also the limits, also the capacity. */
  datatype Scope = Moves | WithLimits | WithCapacity

  /** b is executor a at a later moment; within the scope `WithCapacity` it keeps fitting. */
  ghost predicate Later(scope: Scope, a: Executor, b: Executor) {
    Machine(a, b) && (Accounted(a) ==> Accounted(b)) && (scope.WithCapacity? && Fits(a) ==> Fits(b))
  }

  lemma LaterTransitive(scope: Scope, a: Executor, b: Executor, c: Executor)
    requires Later(scope, a, b) && Later(scope, b, c)
    ensures Later(scope, a, c)
  {
  }

  // ---------------------------------------------------------------- single moves

  lemma SendLater(scope: Scope, e: Executor, item: WorkItem)
    ensures Later(scope, e, e.Send(item))
  {
  }

  lemma UpdateLater(scope: Scope, e: Executor, epoch: nat, maxMissed: nat)
    requires !e.local && e.Alive()
    ensures Later(scope, e, e.UpdateState(epoch, maxMissed))
  {
  }

  /** The work fits into what the executor has left. */
  predicate FitsInto(e: Executor, l: Limits) {
    e.cpus + l.Cpu() <= e.probe.cpus && e.gpus + l.gpu <= e.probe.gpus as real && e.memory + l.Mem() <= e.probe.memory
  }

  lemma AddWithin(e: Executor, item: Running)
    requires WithinCapacity(e) && Sane(item) && FitsInto(e, item.Limit())
    ensures WithinCapacity(e.Add(item))
  {
    assert forall i :: 0 <= i < |e.running| ==> Sane(e.running[i]);
  }

  lemma PushLater(scope: Scope, e: Executor, t: Task)
    requires e.local || (!e.stopSent && (scope.WithCapacity? ==> Sane(TaskItem(t)) && FitsInto(e, t.limits)))
    ensures Later(scope, e, e.Push(TaskItem(t)))
  {
    if !e.Has(TaskKey(t.rid.id)) {
      if Accounted(e) { AddAccounted(e, TaskItem(t)); }
      if scope.WithCapacity? && Fits(e) {
        if !e.local { AddWithin(e, TaskItem(t)); }
      }
      SameLoad(e.Add(TaskItem(t)), e.Push(TaskItem(t)));
    }
  }

  /** Accounting and capacity only look at the works, the allocations and the acknowledged probe. */
  lemma SameLoad(a: Executor, b: Executor)
    requires b.running == a.running && b.cpus == a.cpus && b.gpus == a.gpus && b.memory == a.memory
    requires b.local == a.local && b.probe == a.probe
    ensures (Accounted(a) ==> Accounted(b)) && (Fits(a) ==> Fits(b))
  {
  }

  lemma StopLater(scope: Scope, e: Executor)
    ensures Later(scope, e, e.Stop())
  {
    if !e.local && e.Working() && !e.stopSent && !e.Has(StopKey) {
      if Accounted(e) { AddAccounted(e, StopExecutor); }
      if Fits(e) { AddWithin(e, StopExecutor); }
      SameLoad(e.Add(StopExecutor), e.Stop());
    }
  }

  /** Probes of one executor never report less capacity than before. */
  ghost predicate CapacityOK(e: Executor, rs: seq<Reply>)
    decreases |rs|
  {
    rs != [] ==>
      && (rs[0].Probed? && e.probe.epoch < rs[0].ack.epoch ==>
            e.probe.cpus <= rs[0].ack.cpus && e.probe.gpus <= rs[0].ack.gpus && e.probe.memory <= rs[0].ack.memory)
      && CapacityOK(e.Receive(rs[0]), rs[1..])
  }

  lemma PopLater(scope: Scope, e: Executor, key: WorkKey)
    ensures Later(scope, e, e.PopKey(key))
  {
    if Accounted(e) { PopAccounted(e, key); }
  }

  lemma ReceiveOneLater(scope: Scope, e: Executor, r: Reply)
    requires scope.WithCapacity? ==> CapacityOK(e, [r])
    ensures Later(scope, e, e.Receive(r))
  {
    match r {
      case Probed(ack) =>
      case WorkStopped(target) => PopLater(scope, e, TaskKey(target));
      case ExecutorStopped =>
        var e1 := e.(stopAcked := e.stopAcked || e.state != Stopped);
        SameLoad(e, e1);
        PopLater(scope, e1, StopKey);
        LaterTransitive(scope, e, e1, e1.PopKey(StopKey));
      case TaskDone(d) => PopLater(scope, e, TaskKey(d.rid.id));
    }
  }

  lemma {:induction false} ReceiveLater(scope: Scope, e: Executor, rs: seq<Reply>)
    requires scope.WithCapacity? ==> CapacityOK(e, rs)
    ensures Later(scope, e, ReceiveAll(e, rs))
    decreases |rs|
  {
    if rs != [] {
      assert [rs[0]][1..] == [];
      ReceiveOneLater(scope, e, rs[0]);
      ReceiveLater(scope, e.Receive(rs[0]), rs[1..]);
      LaterTransitive(scope, e, e.Receive(rs[0]), ReceiveAll(e, rs));
    }
  }

  // ---------------------------------------------------------------- limits

  ghost predicate LimitsOK(l: Limits) { l.gpu >= 0.0 && l.cpuBoost >= 0.0 && l.memBoost >= 0.0 }

  lemma FloorProduct(a: real, n: nat)
    requires a >= 0.0
    ensures (a * n as real).Floor >= 0
  {
  }

  lemma LimitsSane(t: Task)
    requires LimitsOK(t.limits)
    ensures Sane(TaskItem(t))
  {
    FloorProduct(t.limits.cpuBoost, t.limits.baseCpu);
    if t.limits.baseMem.Some? { FloorProduct(t.limits.memBoost, t.limits.baseMem.value); }
  }

  /** A boost ratio times its base gives back the boosted value. */
  lemma RatioTimesBase(x: nat, base: nat)
    requires base == 0 ==> x == 0
    ensures Ratio(x, base) >= 0.0 && (Ratio(x, base) * base as real).Floor == x
  {
    if base != 0 {
      assert x as real / base as real * base as real == x as real;
    }
  }

  /** The boosted value of one resource. */
  function Boosted(base: nat, available: int, total: nat): int { Max(base, Min(base * 2, Min(available, total / 2))) }

  lemma BoostedFits(base: nat, available: int, total: nat)
    requires base <= available
    ensures base <= Boosted(base, available, total) <= available
    ensures base == 0 ==> Boosted(base, available, total) == 0
  {
  }

  lemma BoostIs(p: Plan, e: Executor, t: Task)
    requires t.limits.baseMem.Some?
    ensures var mem := t.limits.baseMem.value;
      var cpu' := Boosted(t.limits.baseCpu, e.probe.cpus - e.cpus, e.probe.cpus);
      var mem' := Boosted(mem, e.probe.memory - e.memory, e.probe.memory);
      Boost(p, e, t) == t || (t.limits.cpuBoost == 1.0 && t.limits.memBoost == 1.0 && Boost(p, e, t) ==
        t.(limits := t.limits.(cpuBoost := Ratio(cpu', t.limits.baseCpu), memBoost := Ratio(mem', mem))))
  {
  }

  /** Boosting after the admission test keeps the task within the capacity that was tested. */
  lemma BoostFits(p: Plan, e: Executor, t: Task)
    requires e.Admits(t) && LimitsOK(t.limits)
    ensures FitsInto(e, Boost(p, e, t).limits) && LimitsOK(Boost(p, e, t).limits)
    ensures Boost(p, e, t).rid == t.rid
  {
    var l := t.limits;
    if l.baseMem.Some? && Boost(p, e, t) != t {
      var mem := l.baseMem.value;
      var cpu' := Boosted(l.baseCpu, e.probe.cpus - e.cpus, e.probe.cpus);
      var mem' := Boosted(mem, e.probe.memory - e.memory, e.probe.memory);
      BoostIs(p, e, t);
      BoostUnfolds(l, cpu', mem', e);
    }
  }

  lemma BoostUnfolds(l: Limits, cpu: int, mem: int, e: Executor)
    requires l.baseMem.Some? && l.cpuBoost == 1.0 && l.memBoost == 1.0 && FitsInto(e, l) && l.gpu >= 0.0
    requires cpu == Boosted(l.baseCpu, e.probe.cpus - e.cpus, e.probe.cpus)
    requires mem == Boosted(l.baseMem.value, e.probe.memory - e.memory, e.probe.memory)
    ensures var l' := l.(cpuBoost := Ratio(cpu, l.baseCpu), memBoost := Ratio(mem, l.baseMem.value));
      FitsInto(e, l') && LimitsOK(l')
  {
    var m := l.baseMem.value;
    assert l.Cpu() == l.baseCpu && l.Mem() == m;
    BoostedFits(l.baseCpu, e.probe.cpus - e.cpus, e.probe.cpus);
    BoostedFits(m, e.probe.memory - e.memory, e.probe.memory);
    RatioLimits(l, cpu, mem);
  }

  lemma RatioLimits(l: Limits, cpu: nat, mem: nat)
    requires l.baseMem.Some? && (l.baseCpu == 0 ==> cpu == 0) && (l.baseMem.value == 0 ==> mem == 0)
    ensures var l' := l.(cpuBoost := Ratio(cpu, l.baseCpu), memBoost := Ratio(mem, l.baseMem.value));
      l'.Cpu() == cpu && l'.Mem() == mem && l'.cpuBoost >= 0.0 && l'.memBoost >= 0.0
  {
    RatioTimesBase(cpu, l.baseCpu);
    RatioTimesBase(mem, l.baseMem.value);
  }
}
