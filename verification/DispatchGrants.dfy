/** What dispatch gives to the works it assigns: the limits of the queued task, a default memory limit where it has
    none, and in the final phase a boost. */
module DispatchGrants {
  import opened WorkItems
  import opened Executors
  import opened Plans
  import opened Sched
  import opened Dispatch
  import opened DispatchProofs
  import opened SchedInvariants
  import opened ExecutorRuns
  import opened DispatchFits

  // ---------------------------------------------------------------- what is given

  /** At most twice the base, what is free, and half of all. */
  predicate Possible(base: nat, free: int, all: nat, x: int) { x <= 2 * base && x <= free && 2 * x <= all }

  /** The largest possible amount, but never less than the base. */
  ghost predicate MostOf(base: nat, free: int, all: nat, x: int) {
    && base <= x && (x == base || Possible(base, free, all, x))
    && forall y :: Possible(base, free, all, y) ==> y <= x
  }

  /** Work k of executor e is task u. In the final phase it is boosted, when its node allows it and nothing has changed
      its limits before: beside the works before it, its CPU and its memory are as much as possible. */
  ghost predicate Granted(p: Plan, e: Executor, k: nat, u: Task, final: bool)
    requires k < |e.running|
  {
    e.running[k].TaskItem? &&
    var l, m := u.limits, e.running[k].task.limits;
    && e.running[k].task == u.(limits := m) && m == l.(cpuBoost := m.cpuBoost, memBoost := m.memBoost)
    && l.baseMem.Some?
    && if final && u.rid.id in p.boostable && l.cpuBoost == 1.0 && l.memBoost == 1.0
       then MostOf(l.baseCpu, e.probe.cpus - SumCpu(e.running[..k]), e.probe.cpus, m.Cpu())
         && MostOf(l.baseMem.value, e.probe.memory - SumMem(e.running[..k]), e.probe.memory, m.Mem())
       else m == l
  }

  /** The task was queued before dispatch, or has been enqueued by it. */
  ghost predicate Origin(s0: State, s: State, t: Task) {
    t in s0.schedQueue || (t.rid !in s0.scheduled && t.rid in s.scheduled && s.scheduled[t.rid] == t)
  }

  /** The memory limit is a share of the executor's memory, by cores. */
  ghost predicate MemoryFrom(e: Executor, t: Task, u: Task) {
    && !e.local && e.state == Good && e.probe.cpus > 0
    && u == t.(limits := t.limits.(baseMem := Some(e.probe.memory * t.limits.baseCpu / e.probe.cpus)))
  }

  /** A task of the queue; when it had no memory limit it may have got one from a good executor. */
  ghost predicate Formed(s0: State, s: State, u: Task) {
    exists t :: Origin(s0, s, t) && (u == t || (t.limits.baseMem.None? && exists j ::
                                                  0 <= j < |s0.execs| && MemoryFrom(s0.execs[j], t, u)))
  }

  ghost predicate AllFormed(s0: State, s: State, q: seq<Task>) { forall u :: u in q ==> Formed(s0, s, u) }

  ghost predicate IsNew(p: Plan, s0: State, s: State, e: Executor, k: nat, final: bool)
    requires k < |e.running|
  {
    exists u :: Formed(s0, s, u) && Granted(p, e, k, u, final)
  }

  /** A good executor has its works and new ones, which have been sent to it; any other is as it was. */
  ghost predicate Extended(p: Plan, s0: State, s: State, e0: Executor, e: Executor, final: bool) {
    && e0.running <= e.running && e.wq == e0.wq + e.running[|e0.running|..]
    && e.probe == e0.probe && e.local == e0.local && e.state == e0.state
    && (forall k :: |e0.running| <= k < |e.running| ==> IsNew(p, s0, s, e, k, final))
    && (e != e0 ==> !e0.local && e0.state == Good)
  }

  ghost predicate AllExtended(p: Plan, s0: State, s: State, final: bool) {
    |s.execs| == |s0.execs| && forall i {:trigger s.execs[i]} ::
      0 <= i < |s.execs| ==> Extended(p, s0, s, s0.execs[i], s.execs[i], final)
  }

  // ---------------------------------------------------------------- enqueuing

  lemma FormedStays(s0: State, s: State, r: State, u: Task)
    requires Formed(s0, s, u) && Records(s, r)
    ensures Formed(s0, r, u)
  {
    var t :| Origin(s0, s, t) && (u == t || (t.limits.baseMem.None? && exists j ::
                                               0 <= j < |s0.execs| && MemoryFrom(s0.execs[j], t, u)));
    assert Origin(s0, r, t);
  }

  lemma {:induction false} EnqueueOneFormed(p: Plan, s0: State, s: State, k: nat)
    requires Records(s0, s) && AllFormed(s0, s, s.schedQueue)
    ensures var r := EnqueueOne(p, s, k); Records(s, r) && AllFormed(s0, r, r.schedQueue)
    decreases Height(p, k) + 1, 0
  {
    if k in p.tasks && k in s.master && Ready(p, s, k) {
      var t := CopyTask(p, s, k);
      if s.Done(k) {
        EnqueueAllFormed(p, s0, LookUp(p, s, k), Consumers(p, s, k));
      } else if t.rid !in s.scheduled {
        var r := Enqueue(p, s, t);
        assert Origin(s0, r, t) && Formed(s0, r, t);
        forall u | u in s.schedQueue ensures Formed(s0, r, u) { FormedStays(s0, s, r, u); }
      }
    }
  }

  lemma {:induction false} EnqueueAllFormed(p: Plan, s0: State, s: State, ks: seq<nat>)
    requires Records(s0, s) && AllFormed(s0, s, s.schedQueue)
    ensures var r := EnqueueAll(p, s, ks); Records(s, r) && AllFormed(s0, r, r.schedQueue)
    decreases Heights(p, ks), 1 + |ks|
  {
    if ks != [] {
      assert ks[0] in ks;
      HeightsBound(p, ks[1..], Heights(p, ks));
      EnqueueOneFormed(p, s0, s, ks[0]);
      EnqueueAllFormed(p, s0, EnqueueOne(p, s, ks[0]), ks[1..]);
    }
  }

  // ---------------------------------------------------------------- one offer

  /** Dispatch under way since s0; `aside` are the tasks set aside. */
  ghost predicate Going(p: Plan, s0: State, s: State, aside: seq<Task>, final: bool) {
    && Records(s0, s) && AllAccounted(s.execs) && AllExtended(p, s0, s, final)
    && AllFormed(s0, s, s.schedQueue) && AllFormed(s0, s, aside)
  }

  lemma ExtendedStays(p: Plan, s0: State, s: State, r: State, final: bool)
    requires AllExtended(p, s0, s, final) && Records(s, r) && r.execs == s.execs
    ensures AllExtended(p, s0, r, final)
  {
    forall i | 0 <= i < |r.execs| ensures Extended(p, s0, r, s0.execs[i], r.execs[i], final) {
      var e := r.execs[i];
      assert Extended(p, s0, s, s0.execs[i], s.execs[i], final);
      forall k | |s0.execs[i].running| <= k < |e.running| ensures IsNew(p, s0, r, e, k, final) {
        NewStays(p, s0, s, r, e, k, final);
      }
    }
  }

  lemma NewStays(p: Plan, s0: State, s: State, r: State, e: Executor, k: nat, final: bool)
    requires k < |e.running| && IsNew(p, s0, s, e, k, final) && Records(s, r)
    ensures IsNew(p, s0, r, e, k, final)
  {
    var u :| Formed(s0, s, u) && Granted(p, e, k, u, final);
    FormedStays(s0, s, r, u);
  }

  lemma AllFormedStays(s0: State, s: State, r: State, q: seq<Task>)
    requires AllFormed(s0, s, q) && Records(s, r)
    ensures AllFormed(s0, r, q)
  {
    forall u | u in q ensures Formed(s0, r, u) { FormedStays(s0, s, r, u); }
  }

  lemma MostIs(base: nat, free: int, all: nat)
    requires base <= free
    ensures MostOf(base, free, all, Boosted(base, free, all))
  {
  }

  predicate Unboosted(p: Plan, u: Task) {
    u.limits.baseMem.Some? && u.rid.id in p.boostable && u.limits.cpuBoost == 1.0 && u.limits.memBoost == 1.0
  }

  lemma BoostAmounts(p: Plan, e: Executor, u: Task, cpu: nat, mem: nat)
    requires Unboosted(p, u)
    requires cpu == Boosted(u.limits.baseCpu, e.probe.cpus - e.cpus, e.probe.cpus)
    requires mem == Boosted(u.limits.baseMem.value, e.probe.memory - e.memory, e.probe.memory)
    requires (u.limits.baseCpu == 0 ==> cpu == 0) && (u.limits.baseMem.value == 0 ==> mem == 0)
    ensures var l, m := u.limits, Boost(p, e, u).limits;
      && Boost(p, e, u) == u.(limits := m) && m == l.(cpuBoost := m.cpuBoost, memBoost := m.memBoost)
      && m.Cpu() == cpu && m.Mem() == mem
  {
    var l := u.limits;
    RatioLimits(l, cpu, mem);
    assert l.Cpu() == l.baseCpu && l.Mem() == l.baseMem.value;
  }

  lemma BoostGrants(p: Plan, e: Executor, u: Task)
    requires e.Admits(u) && Unboosted(p, u) && Accounted(e)
    ensures var l, m := u.limits, Boost(p, e, u).limits;
      && Boost(p, e, u) == u.(limits := m) && m == l.(cpuBoost := m.cpuBoost, memBoost := m.memBoost)
      && MostOf(l.baseCpu, e.probe.cpus - SumCpu(e.running), e.probe.cpus, m.Cpu())
      && MostOf(l.baseMem.value, e.probe.memory - SumMem(e.running), e.probe.memory, m.Mem())
  {
    var l := u.limits;
    var cpus, memory := e.probe.cpus - e.cpus, e.probe.memory - e.memory;
    assert l.Cpu() == l.baseCpu && l.Mem() == l.baseMem.value;
    MostIs(l.baseCpu, cpus, e.probe.cpus);
    MostIs(l.baseMem.value, memory, e.probe.memory);
    BoostAmounts(p, e, u, Boosted(l.baseCpu, cpus, e.probe.cpus), Boosted(l.baseMem.value, memory, e.probe.memory));
  }

  lemma PushGrants(p: Plan, e: Executor, u: Task, final: bool)
    requires e.Admits(u) && Accounted(e) && u.limits.baseMem.Some?
    ensures var b := e.Push(TaskItem(if final then Boost(p, e, u) else u));
      Accounted(b) && b.running == e.running + [TaskItem(if final then Boost(p, e, u) else u)]
      && b.wq == e.wq + [b.running[|e.running|]] && b.probe == e.probe && b.local == e.local && b.state == e.state
      && Granted(p, b, |e.running|, u, final)
  {
    var w := TaskItem(if final then Boost(p, e, u) else u);
    var b := e.Push(w);
    AddAccounted(e, w);
    assert b.running[..|e.running|] == e.running;
    if final && u.rid.id in p.boostable && u.limits.cpuBoost == 1.0 && u.limits.memBoost == 1.0 {
      BoostGrants(p, e, u);
    }
  }

  lemma OneExtended(p: Plan, s0: State, s: State, i: nat, u: Task, final: bool)
    requires AllExtended(p, s0, s, final) && AllAccounted(s.execs) && i < |s.execs| && Formed(s0, s, u)
    requires IsGood(s.execs[i])
    requires s.execs[i].Admits(u) && u.limits.baseMem.Some?
    ensures var w := TaskItem(if final then Boost(p, s.execs[i], u) else u);
      var r := s.(execs := s.execs[i := s.execs[i].Push(w)]);
      AllExtended(p, s0, r, final) && AllAccounted(r.execs)
  {
    var e := s.execs[i];
    var b := e.Push(TaskItem(if final then Boost(p, e, u) else u));
    var r := s.(execs := s.execs[i := b]);
    assert Accounted(e) && Extended(p, s0, s, s0.execs[i], e, final);
    PushGrants(p, e, u, final);
    PushedExtended(p, s0, s, r, s0.execs[i], e, b, u, final);
    forall j | 0 <= j < |r.execs| ensures Extended(p, s0, r, s0.execs[j], r.execs[j], final) && Accounted(r.execs[j]) {
      assert Extended(p, s0, s, s0.execs[j], s.execs[j], final) && Accounted(s.execs[j]);
      if j != i { OtherExtended(p, s0, s, r, s0.execs[j], s.execs[j], final); }
    }
  }

  lemma OtherExtended(p: Plan, s0: State, s: State, r: State, e0: Executor, e: Executor, final: bool)
    requires Extended(p, s0, s, e0, e, final) && Records(s, r)
    ensures Extended(p, s0, r, e0, e, final)
  {
    forall k | |e0.running| <= k < |e.running| ensures IsNew(p, s0, r, e, k, final) {
      NewStays(p, s0, s, r, e, k, final);
    }
  }

  lemma PushedExtended(p: Plan, s0: State, s: State, r: State, e0: Executor, e: Executor, b: Executor, u: Task,
          final: bool)
    requires Extended(p, s0, s, e0, e, final) && Records(s, r) && Formed(s0, s, u) && IsGood(e)
    requires |b.running| == |e.running| + 1 && b.running[..|e.running|] == e.running
        && b.wq == e.wq + [b.running[|e.running|]] && b.probe == e.probe && b.local == e.local && b.state == e.state
    requires Granted(p, b, |e.running|, u, final)
    ensures Extended(p, s0, r, e0, b, final)
  {
    FormedStays(s0, s, r, u);
    forall k | |e0.running| <= k < |b.running| ensures IsNew(p, s0, r, b, k, final) {
      if k < |e.running| { NewStill(p, s0, s, r, e, b, k, final); }
    }
    var n := |e0.running|;
    assert b.running[n..] == e.running[n..] + [b.running[|e.running|]];
  }

  lemma NewStill(p: Plan, s0: State, s: State, r: State, e: Executor, b: Executor, k: nat, final: bool)
    requires k < |e.running| && e.running <= b.running && b.probe == e.probe
    requires IsNew(p, s0, s, e, k, final) && Records(s, r)
    ensures IsNew(p, s0, r, b, k, final)
  {
    var u :| Formed(s0, s, u) && Granted(p, e, k, u, final);
    FormedStays(s0, s, r, u);
    assert b.running[..k] == e.running[..k];
    assert Granted(p, b, k, u, final);
  }

  lemma WithMemoryFormed(s0: State, s: State, i: nat, u: Task)
    requires |s.execs| == |s0.execs| && i < |s.execs| && IsGood(s.execs[i]) && Formed(s0, s, u)
    requires s0.execs[i].probe == s.execs[i].probe && IsGood(s0.execs[i])
    ensures Formed(s0, s, WithMemory(s.execs[i], u))
  {
    var t :| Origin(s0, s, t) && (u == t || (t.limits.baseMem.None? && exists j ::
                                               0 <= j < |s0.execs| && MemoryFrom(s0.execs[j], t, u)));
    var u' := WithMemory(s.execs[i], u);
    if u' != u { assert u == t && MemoryFrom(s0.execs[i], t, u'); }
  }

  lemma SkipGoes(p: Plan, s0: State, s: State, aside: seq<Task>, final: bool, k: nat)
    requires Going(p, s0, s, aside, final) && s.schedQueue != []
    ensures Going(p, s0, Skip(p, s.(schedQueue := s.schedQueue[1..]), k), aside, final)
  {
    var rest := s.(schedQueue := s.schedQueue[1..]);
    assert forall u :: u in rest.schedQueue ==> u in s.schedQueue;
    AllFormedStays(s0, s, rest, rest.schedQueue);
    if k in p.tasks {
      var looked := LookUp(p, rest, k);
      AllFormedStays(s0, rest, looked, rest.schedQueue);
      EnqueueAllFormed(p, s0, looked, Consumers(p, rest, k));
    }
    var r := Skip(p, rest, k);
    AllFormedStays(s0, s, r, aside);
    ExtendedStays(p, s0, s, r, final);
  }

  lemma AdmitGoes(p: Plan, s0: State, s: State, i: nat, u: Task, aside: seq<Task>, final: bool)
    requires Going(p, s0, s, aside, final) && s.schedQueue != [] && i < |s.execs| && Formed(s0, s, u)
    requires IsGood(s.execs[i]) && s.execs[i].Admits(u) && u.limits.baseMem.Some?
    ensures var w := TaskItem(if final then Boost(p, s.execs[i], u) else u);
      Going(p, s0, s.(schedQueue := s.schedQueue[1..], execs := s.execs[i := s.execs[i].Push(w)]), aside, final)
  {
    var w := TaskItem(if final then Boost(p, s.execs[i], u) else u);
    var s1 := s.(execs := s.execs[i := s.execs[i].Push(w)]);
    var r := s1.(schedQueue := s.schedQueue[1..]);
    OneExtended(p, s0, s, i, u, final);
    ExtendedStays(p, s0, s1, r, final);
    assert forall u :: u in r.schedQueue ==> u in s.schedQueue;
    AllFormedStays(s0, s, r, r.schedQueue);
    AllFormedStays(s0, s, r, aside);
  }

  lemma DeclineGoes(p: Plan, s0: State, s: State, u: Task, aside: seq<Task>, final: bool)
    requires Going(p, s0, s, aside, final) && s.schedQueue != [] && Formed(s0, s, u)
    ensures Going(p, s0, s.(schedQueue := [u] + s.schedQueue[1..]), aside, final)
  {
    var r := s.(schedQueue := [u] + s.schedQueue[1..]);
    forall v | v in r.schedQueue ensures Formed(s0, r, v) {
      assert v == u || v in s.schedQueue;
      FormedStays(s0, s, r, v);
    }
    AllFormedStays(s0, s, r, aside);
    ExtendedStays(p, s0, s, r, final);
  }

  lemma OfferGoes(p: Plan, s0: State, s: State, i: nat, aside: seq<Task>, final: bool)
    requires Going(p, s0, s, aside, final) && s.schedQueue != [] && i < |s.execs| && IsGood(s.execs[i])
    ensures Going(p, s0, Offer(p, s, i, final).0, aside, final)
  {
    var e := s.execs[i];
    var u := WithMemory(e, s.schedQueue[0]);
    assert Extended(p, s0, s, s0.execs[i], e, final) && s.schedQueue[0] in s.schedQueue;
    WithMemoryFormed(s0, s, i, s.schedQueue[0]);
    if s.Done(u.rid.id) {
      SkipGoes(p, s0, s, aside, final, u.rid.id);
    } else if e.Admits(u) {
      AdmitGoes(p, s0, s, i, u, aside, final);
    } else {
      DeclineGoes(p, s0, s, u, aside, final);
    }
  }

  // ---------------------------------------------------------------- the whole dispatch

  lemma {:induction false} RoundGoes(p: Plan, s0: State, s: State, order: seq<nat>, aside: seq<Task>, final: bool)
    requires Going(p, s0, s, aside, final) && forall j :: j in order ==> j < |s.execs| && IsGood(s.execs[j])
    ensures Going(p, s0, Round(p, s, order, final).0, aside, final)
    decreases |order|
  {
    if order != [] && s.schedQueue != [] {
      assert order[0] in order && forall j :: j in order[1..] ==> j in order;
      OfferGoes(p, s0, s, order[0], aside, final);
      OfferKeepsGood(p, s, order[0], final);
      RoundGoes(p, s0, Offer(p, s, order[0], final).0, order[1..], aside, final);
    }
  }

  lemma OfferKeepsGood(p: Plan, s: State, i: nat, final: bool)
    requires i < |s.execs| && s.schedQueue != []
    ensures var r := Offer(p, s, i, final).0;
      |r.execs| == |s.execs| && forall j :: 0 <= j < |s.execs| ==> (IsGood(r.execs[j]) <==> IsGood(s.execs[j]))
  {
  }

  lemma PassGoes(p: Plan, s0: State, s: State, aside: seq<Task>, final: bool)
    requires Going(p, s0, s, aside, final) && s.schedQueue != []
    ensures var (r, more) := Pass(p, s, aside, final); Going(p, s0, r, more, final)
  {
    var (s1, popped) := Round(p, s, UsableExecs(s.execs), final);
    RoundGoes(p, s0, s, UsableExecs(s.execs), aside, final);
    if s1.schedQueue != [] && !popped {
      var r := s1.(schedQueue := s1.schedQueue[1..]);
      assert s1.schedQueue[0] in s1.schedQueue && forall u :: u in r.schedQueue ==> u in s1.schedQueue;
      AllFormedStays(s0, s1, r, r.schedQueue);
      AllFormedStays(s0, s1, r, aside + [s1.schedQueue[0]]);
      ExtendedStays(p, s0, s1, r, final);
    }
  }

  lemma {:induction false} AssignGrants(p: Plan, s0: State, s: State, aside: seq<Task>, final: bool)
    requires Going(p, s0, s, aside, final)
    ensures AllExtended(p, s0, Assign(p, s, aside, final), final)
    decreases |Unscheduled(p, s)|, |s.schedQueue|
  {
    if s.schedQueue == [] || GoodCount(s.execs) == 0 {
      AssignEnds(p, s, aside, final);
      ExtendedStays(p, s0, s, s.(schedQueue := s.schedQueue + aside), final);
    } else {
      var (r, more) := Pass(p, s, aside, final);
      AssignContinues(p, s, aside, final);
      PassGoes(p, s0, s, aside, final);
      AssignGrants(p, s0, r, more, final);
    }
  }

  // ---------------------------------------------------------------- the final phase

  ghost function GoodOnes(execs: seq<Executor>): set<nat> {
    set i: nat | i < |execs| && !execs[i].local && execs[i].state == Good
  }

  /** The works that count as running: those of the local executor and of remote ones that are alive. */
  ghost function RunningWorks(execs: seq<Executor>): set<(nat, nat)> {
    set i: nat, k: nat |
        i < |execs| && k < |execs[i].running|
        && (execs[i].local || execs[i].state == Good || execs[i].state == ResourceLow || execs[i].state == Stopping)
      :: (i, k)
  }

  /** Few tasks are left that are neither trivial nor running. */
  ghost predicate LastTasks(p: Plan, s: State) {
    |p.tasks - p.light| - |s.succeeded.Keys - p.light| - |RunningWorks(s.execs)| <= 2 * |GoodOnes(s.execs)|
  }

  lemma {:induction false} GoodFrom(execs: seq<Executor>, i: nat)
    requires i <= |execs|
    ensures GoodCount(execs[i..]) == |set j: nat | i <= j < |execs| && !execs[j].local && execs[j].state == Good|
    decreases |execs| - i
  {
    var all := set j: nat | i <= j < |execs| && !execs[j].local && execs[j].state == Good;
    if i == |execs| {
      assert all == {};
    } else {
      GoodFrom(execs, i + 1);
      var rest := set j: nat | i + 1 <= j < |execs| && !execs[j].local && execs[j].state == Good;
      assert execs[i..][0] == execs[i] && execs[i..][1..] == execs[i + 1..];
      assert all == if IsGood(execs[i]) then {i} + rest else rest;
    }
  }

  predicate Counted(e: Executor) { e.local || e.state == Good || e.state == ResourceLow || e.state == Stopping }

  ghost function WorksFrom(execs: seq<Executor>, i: nat): set<(nat, nat)> {
    set j: nat, k: nat | j < |execs| && k < |execs[j].running| && i <= j && Counted(execs[j]) :: (j, k)
  }

  lemma {:induction false} WorksOf(i: nat, n: nat)
    ensures |set k: nat | k < n :: (i, k)| == n
  {
    var all := set k: nat | k < n :: (i, k);
    if n == 0 {
      assert all == {};
    } else {
      WorksOf(i, n - 1);
      assert all == {(i, n - 1)} + set k: nat | k < n - 1 :: (i, k);
    }
  }

  lemma {:induction false} RunningFrom(execs: seq<Executor>, i: nat)
    requires i <= |execs|
    ensures NumRunning(execs[i..]) == |WorksFrom(execs, i)|
    decreases |execs| - i
  {
    if i == |execs| {
      assert WorksFrom(execs, i) == {};
    } else {
      RunningFrom(execs, i + 1);
      assert execs[i..][0] == execs[i] && execs[i..][1..] == execs[i + 1..];
      var own := set k: nat | k < |execs[i].running| :: (i, k);
      WorksOf(i, |execs[i].running|);
      var rest := WorksFrom(execs, i + 1);
      assert WorksFrom(execs, i) == if Counted(execs[i]) then own + rest else rest;
      assert own !! rest;
    }
  }

  /** What is counted: the good executors, and the works that run. */
  lemma CountsAre(execs: seq<Executor>)
    ensures GoodCount(execs) == |GoodOnes(execs)| && NumRunning(execs) == |RunningWorks(execs)|
  {
    assert execs[0..] == execs;
    GoodFrom(execs, 0);
    RunningFrom(execs, 0);
    assert WorksFrom(execs, 0) == RunningWorks(execs);
    assert GoodOnes(execs) == set j: nat | 0 <= j < |execs| && !execs[j].local && execs[j].state == Good;
  }

  /** Each work that dispatch assigns is a task of the queue, or one that dispatch enqueued. It has the limits it was
      queued with and a memory limit, and exactly when few tasks are left it may be boosted, then as far as possible. */
  lemma DispatchGivesLimits(p: Plan, s: State)
    requires AllAccounted(s.execs)
    ensures AllExtended(p, s, DispatchTasks(p, s), LastTasks(p, s))
  {
    var q := Reorder(p.cfg, s.schedQueue);
    var s1 := s.(schedQueue := q);
    ReorderPermutes(p.cfg, s.schedQueue);
    CountsAre(s.execs);
    forall u | u in q ensures Formed(s, s1, u) { assert u in multiset(q); assert Origin(s, s1, u); }
    forall i | 0 <= i < |s.execs| ensures Extended(p, s, s1, s.execs[i], s.execs[i], FinalPhase(p, s1)) {}
    AssignGrants(p, s, s1, [], FinalPhase(p, s1));
  }
}
