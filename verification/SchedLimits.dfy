/** Resource limits over whole runs: what an attempt may use, and how running out of memory raises the limit. */
module SchedLimits {
  import opened WorkItems
  import opened Executors
  import opened Plans
  import opened Sched
  import opened Dispatch
  import opened SchedInvariants
  import opened SchedLoop
  import opened SchedRuns
  import opened SchedSafety
  import opened SchedTheorems
  import opened SchedStops

  // ---------------------------------------------------------------- memory

  function Smaller(a: int, b: int): int { if a < b then a else b }

  /** The limits after a failure on executor e. Running out of memory on a remote executor doubles the memory limit, up
      to the memory of that executor, where a task without limit takes over the one the attempt ran under. */
  ghost predicate Relaxed(l: Limits, l': Limits, e: Executor, d: Done) {
    if e.local || !d.oom then l' == l else
      var base := if l.baseMem.Some? then l.baseMem else d.memory;
      var before := l.(baseMem := base).Mem();
      && l' == l.(baseMem := base, memBoost := l'.memBoost)
      && l'.Mem() == if before >= e.probe.memory then before else Smaller(before * 2, e.probe.memory)
  }

  lemma MemIs(base: nat, wanted: int)
    requires base > 0
    ensures ((wanted as real / base as real) * base as real).Floor == wanted
  {
    assert (wanted as real / base as real) * base as real == wanted as real;
  }

  lemma LimitsAreRelaxed(l: Limits, e: Executor, d: Done)
    ensures Relaxed(l, LimitsAfter(l, e, d), e, d) && SameBase(l, LimitsAfter(l, e, d))
  {
    if !e.local && d.oom {
      var taken := TakeMemory(l, d.memory);
      if taken.baseMem.Some? && taken.baseMem.value > 0 {
        var m := taken.Mem();
        MemIs(taken.baseMem.value, if e.probe.memory < m * 2 then e.probe.memory else m * 2);
      }
    }
  }

  lemma FailLimits(p: Plan, s: State, i: nat, d: Done, k: nat)
    requires i < |s.execs| && k in s.master && d.rid.id in s.master
    ensures var r := FailTask(p, s, i, d);
      k in r.master && if k == d.rid.id then Relaxed(s.master[k].limits, r.master[k].limits, s.execs[i], d)
          && SameBase(s.master[k].limits, r.master[k].limits) else r.master[k].limits == s.master[k].limits
  {
    LimitsAreRelaxed(s.master[d.rid.id].limits, s.execs[i], d);
  }

  lemma SucceedLimits(p: Plan, s: State, d: Done, k: nat)
    requires k in s.master && d.rid.id in p.tasks && d.rid.id in s.master
    ensures var r := SucceedTask(p, s, d); k in r.master && r.master[k].limits == s.master[k].limits
  {
    SucceedIs(p, s, d);
  }

  /** A reported failure relaxes the limits of its task, and nothing else changes any. */
  lemma LimitsChange(p: Plan, s: State, i: nat, d: Done, k: nat)
    requires i < |s.execs| && k in s.master && d.rid.id in s.master
    ensures var r := ProcessOne(p, s, i, d);
      k in r.master
      && (if k == d.rid.id && NewFailure(p, s, d) then Relaxed(s.master[k].limits, r.master[k].limits, s.execs[i], d)
          else r.master[k].limits == s.master[k].limits)
      && SameBase(s.master[k].limits, r.master[k].limits)
  {
    var r, s1 := ProcessOne(p, s, i, d), s.(finished := s.finished + {d.rid});
    CompletionIs(p, s, i, d);
    if NewFailure(p, s, d) {
      FailLimits(p, s1, i, d, k);
    } else if r != s.(finished := r.finished, error := r.error) {
      SucceedLimits(p, if NewSuccess(p, s, d) then s1 else s1.Fail(UnexpectedStatus), d, k);
    }
  }

  /** The retry of a failed attempt: a new number, the node of the task, and the relaxed limits. */
  ghost predicate RetriedRelaxed(p: Plan, s: State, e: Executor, d: Done, r: State) {
    var k := d.rid.id;
    k in s.master && k in r.master && k in p.nodes &&
    var a := RuntimeId(k, s.epoch, s.master[k].retry + 1);
    && a !in s.scheduled && a in r.scheduled && r.master[k].retry == a.retry
    && Relaxed(s.master[k].limits, r.scheduled[a].limits, e, d)
    && r.scheduled[a].limits == r.master[k].limits
    && r.scheduled[a].rid == a && r.scheduled[a].node == p.nodes[k]
  }

  lemma FailedNow(p: Plan, s: State, i: nat, d: Done)
    requires Inv(p, s) && i < |s.execs| && NewFailure(p, s, d)
    ensures RetriedRelaxed(p, s, s.execs[i], d, ProcessOne(p, s, i, d))
  {
    var s1 := s.(finished := s.finished + {d.rid});
    SetFinished(p, s, d.rid, [], {});
    assert Ready(p, s, d.rid.id) by {
      if d.rid in s.scheduled { assert ReadsSucceeded(p, s, d.rid.id, s.scheduled[d.rid].inputs); }
    }
    FailIsEnqueue(p, s1, i, d);
    FailLimits(p, s1, i, d, d.rid.id);
    assert ProcessOne(p, s, i, d) == FailTask(p, s1, i, d);
  }

  /** In every reachable state a reported failure of an unsucceeded task is retried with relaxed limits. */
  lemma FailedIsRetried(p: Plan, s: State, i: nat, d: Done, limits: map<nat, Limits>, local: Executor, ks: seq<nat>,
          inputs: seq<Input>)
    requires Reachable(p, s, limits, local, ks, inputs) && i < |s.execs| && NewFailure(p, s, d)
    ensures RetriedRelaxed(p, s, s.execs[i], d, ProcessOne(p, s, i, d))
  {
    StartKeeps(p, limits, local, ks);
    RunKeeps(p, Start(p, limits, local, ks), inputs);
    FailedNow(p, s, i, d);
  }

  lemma FailIsEnqueue(p: Plan, s: State, i: nat, d: Done)
    requires Inv(p, s) && i < |s.execs| && Ready(p, s, d.rid.id) && d.rid.id !in s.succeeded
    ensures d.rid.id in s.master && var k := d.rid.id;
      var r, a := FailTask(p, s, i, d), RuntimeId(k, s.epoch, s.master[k].retry + 1);
      && a !in s.scheduled && a in r.scheduled && k in r.master && r.master[k].retry == a.retry
      && r.scheduled[a].limits == r.master[k].limits
      && r.scheduled[a].rid == a && k in p.nodes && r.scheduled[a].node == p.nodes[k]
  {
    var k := d.rid.id;
    assert Covered(p, s, [], {k}) && Linked(p, k);
    NoteKeeps(p, s, i, d, []);
    RetryIsEnqueue(p, NoteFailure(p, s, i, d), k);
  }

  // ---------------------------------------------------------------- over whole runs

  /** The limits a task starts with. */
  function GivenLimits(limits: map<nat, Limits>, k: nat): Limits { if k in limits then limits[k] else NO_LIMITS }

  ghost predicate AsGiven(limits: map<nat, Limits>, s: State) {
    && (forall k :: k in s.master ==> SameBase(GivenLimits(limits, k), s.master[k].limits))
    && (forall a :: a in s.scheduled ==> SameBase(GivenLimits(limits, a.id), s.scheduled[a].limits))
  }

  lemma {:induction false} EnqueueOneGiven(p: Plan, s: State, limits: map<nat, Limits>, k: nat)
    requires AsGiven(limits, s)
    ensures AsGiven(limits, EnqueueOne(p, s, k))
    decreases Height(p, k) + 1, 0
  {
    if k in p.tasks && k in s.master && Ready(p, s, k) && s.Done(k) {
      EnqueueAllGiven(p, LookUp(p, s, k), limits, Consumers(p, s, k));
    }
  }

  lemma {:induction false} EnqueueAllGiven(p: Plan, s: State, limits: map<nat, Limits>, ks: seq<nat>)
    requires AsGiven(limits, s)
    ensures AsGiven(limits, EnqueueAll(p, s, ks))
    decreases Heights(p, ks), 1 + |ks|
  {
    if ks != [] {
      assert ks[0] in ks;
      HeightsBound(p, ks[1..], Heights(p, ks));
      EnqueueOneGiven(p, s, limits, ks[0]);
      EnqueueAllGiven(p, EnqueueOne(p, s, ks[0]), limits, ks[1..]);
    }
  }

  lemma BumpedGiven(s: State, limits: map<nat, Limits>, k: nat)
    requires AsGiven(limits, s) && k in s.master
    ensures var s1 := s.(master := s.master[k := s.master[k].(retry := s.master[k].retry + 1)]);
      AsGiven(limits, s1) && AsGiven(limits, s1.Fail(RetriedSucceeded))
  {
  }

  lemma RetryGiven(p: Plan, s: State, limits: map<nat, Limits>, k: nat)
    requires AsGiven(limits, s)
    ensures AsGiven(limits, Retry(p, s, k))
  {
    if k in s.master {
      var m := s.master[k];
      var s1 := s.(master := s.master[k := m.(retry := m.retry + 1)]);
      BumpedGiven(s, limits, k);
      EnqueueOneGiven(p, if m.status == Succeed && m.epoch == s.epoch then s1.Fail(RetriedSucceeded) else s1, limits,
        k);
    }
  }

  lemma {:induction false} SpeculateAllGiven(p: Plan, s: State, limits: map<nat, Limits>, works: seq<Running>,
          slow: set<RuntimeId>)
    requires AsGiven(limits, s)
    ensures AsGiven(limits, SpeculateAll(p, s, works, slow))
    decreases |works|
  {
    if works != [] {
      if works[0].TaskItem? { RetryGiven(p, s, limits, works[0].task.rid.id); }
      SpeculateAllGiven(p, SpeculateOne(p, s, works[0], slow), limits, works[1..], slow);
    }
  }

  lemma {:induction false} SpeculateGiven(p: Plan, s: State, limits: map<nat, Limits>, i: nat, slow: set<RuntimeId>)
    requires AsGiven(limits, s)
    ensures AsGiven(limits, Speculate(p, s, i, slow))
    decreases |s.execs| - i
  {
    if i < |s.execs| {
      var e := s.execs[i];
      SpeculateAllGiven(p, s, limits, e.running, slow);
      SpeculateGiven(p, if !e.local && e.Working() then SpeculateAll(p, s, e.running, slow) else s, limits, i + 1,
        slow);
    }
  }

  lemma {:induction false} RescheduleAllGiven(p: Plan, s: State, limits: map<nat, Limits>, works: seq<Running>)
    requires AsGiven(limits, s)
    ensures AsGiven(limits, RescheduleAll(p, s, works))
    decreases |works|
  {
    if works != [] {
      if works[0].TaskItem? { RetryGiven(p, s, limits, works[0].task.rid.id); }
      RescheduleAllGiven(p, RescheduleOne(p, s, works[0]), limits, works[1..]);
    }
  }

  lemma {:induction false} UpdateGiven(p: Plan, s: State, limits: map<nat, Limits>, i: nat)
    requires AsGiven(limits, s)
    ensures AsGiven(limits, UpdateExecutors(p, s, i))
    decreases |s.execs| - i
  {
    if i < |s.execs| {
      var e := s.execs[i];
      RescheduleAllGiven(p, s.(execs := s.execs[i := e.UpdateState(s.probeEpoch, p.cfg.maxMissed)]), limits, e.running);
      UpdateGiven(p, UpdateExecutor(p, s, i), limits, i + 1);
    }
  }

  lemma UpdatedGiven(p: Plan, s: State, limits: map<nat, Limits>, inp: Input)
    requires AsGiven(limits, s)
    ensures AsGiven(limits, Updated(p, s, inp))
  {
    if inp.probe { SpeculateGiven(p, ProbeRound(p, s, inp.joined, false, inp.slow), limits, 0, inp.slow); }
    UpdateGiven(p, if inp.probe then ProbeRound(p, s, inp.joined, inp.speculate, inp.slow) else s, limits, 0);
  }

  lemma {:induction false} RoundGiven(p: Plan, s: State, limits: map<nat, Limits>, order: seq<nat>, final: bool)
    requires AsGiven(limits, s) && forall j :: j in order ==> j < |s.execs|
    ensures AsGiven(limits, Round(p, s, order, final).0)
    decreases |order|
  {
    if order != [] && s.schedQueue != [] {
      assert order[0] in order && forall j :: j in order[1..] ==> j in order;
      OfferGiven(p, s, limits, order[0], final);
      OfferKeepsExecs(p, s, order[0], final);
      RoundGiven(p, Offer(p, s, order[0], final).0, limits, order[1..], final);
    }
  }

  lemma OfferGiven(p: Plan, s: State, limits: map<nat, Limits>, i: nat, final: bool)
    requires AsGiven(limits, s) && i < |s.execs| && s.schedQueue != []
    ensures AsGiven(limits, Offer(p, s, i, final).0)
  {
    var k := s.schedQueue[0].rid.id;
    var rest := s.(schedQueue := s.schedQueue[1..]);
    if s.Done(k) && k in p.tasks { EnqueueAllGiven(p, LookUp(p, rest, k), limits, Consumers(p, rest, k)); }
  }

  lemma {:induction false} AssignGiven(p: Plan, s: State, limits: map<nat, Limits>, aside: seq<Task>, final: bool)
    requires AsGiven(limits, s)
    ensures AsGiven(limits, Assign(p, s, aside, final))
    decreases |Unscheduled(p, s)|, |s.schedQueue|
  {
    if s.schedQueue != [] && GoodCount(s.execs) != 0 {
      var (r, more) := Pass(p, s, aside, final);
      PassProgress(p, s, aside, final);
      RoundGiven(p, s, limits, UsableExecs(s.execs), final);
      AssignGiven(p, r, limits, more, final);
    }
  }

  lemma AssignedGiven(p: Plan, s: State, limits: map<nat, Limits>, inp: Input)
    requires AsGiven(limits, s)
    ensures AsGiven(limits, Assigned(p, s, inp))
  {
    UpdatedGiven(p, s, limits, inp);
    var s1 := Updated(p, s, inp);
    if s1.execs != [] {
      var s2 := PushLocalQueue(s1).(schedQueue := Reorder(p.cfg, s1.schedQueue));
      AssignGiven(p, s2, limits, [], FinalPhase(p, s2));
      assert DispatchTasks(p, PushLocalQueue(s1)) == Assign(p, s2, [], FinalPhase(p, s2));
    }
  }

  lemma FailGiven(p: Plan, s: State, limits: map<nat, Limits>, i: nat, d: Done)
    requires AsGiven(limits, s) && i < |s.execs| && d.rid.id in s.master
    ensures AsGiven(limits, FailTask(p, s, i, d))
  {
    LimitsAreRelaxed(s.master[d.rid.id].limits, s.execs[i], d);
    RetryGiven(p, NoteFailure(p, s, i, d), limits, d.rid.id);
  }

  lemma SucceedGiven(p: Plan, s: State, limits: map<nat, Limits>, d: Done)
    requires AsGiven(limits, s) && d.rid.id in p.tasks && d.rid.id in s.master
    ensures AsGiven(limits, SucceedTask(p, s, d))
  {
    SucceedIs(p, s, d);
    EnqueueAllGiven(p, Told(p, s, d), limits, Consumers(p, Recorded(s, d), d.rid.id));
  }

  lemma ProcessGiven(p: Plan, s: State, limits: map<nat, Limits>, i: nat, d: Done)
    requires AsGiven(limits, s) && i < |s.execs|
    ensures AsGiven(limits, ProcessOne(p, s, i, d))
  {
    var r, s1 := ProcessOne(p, s, i, d), s.(finished := s.finished + {d.rid});
    CompletionIs(p, s, i, d);
    if NewFailure(p, s, d) && d.rid.id in s.master {
      FailGiven(p, s1, limits, i, d);
    } else if r != s.(finished := r.finished, error := r.error) {
      SucceedGiven(p, if NewSuccess(p, s, d) then s1 else s1.Fail(UnexpectedStatus), limits, d);
    }
  }

  lemma {:induction false} ProcessAllGiven(p: Plan, s: State, limits: map<nat, Limits>, pend: seq<Popped>)
    requires AsGiven(limits, s)
    ensures AsGiven(limits, ProcessAll(p, s, pend))
    decreases |pend|
  {
    if pend != [] && pend[0].exec < |s.execs| {
      ProcessGiven(p, s, limits, pend[0].exec, pend[0].done);
      ProcessAllGiven(p, ProcessOne(p, s, pend[0].exec, pend[0].done), limits, pend[1..]);
    }
  }

  lemma SettleGiven(p: Plan, s: State, limits: map<nat, Limits>, replies: seq<seq<Reply>>)
    requires AsGiven(limits, s)
    ensures AsGiven(limits, Settle(p, s, replies))
  {
    if !Idle(s) {
      ProcessAllGiven(p, s.(execs := PopExecs(s.execs, replies)), limits, PopTasks(|s.execs|, replies, 0));
    }
  }

  lemma {:induction false} RunGiven(p: Plan, s: State, limits: map<nat, Limits>, inputs: seq<Input>)
    requires AsGiven(limits, s)
    ensures AsGiven(limits, Run(p, s, inputs))
    decreases |inputs|
  {
    if inputs != [] && Looping(s) {
      AssignedGiven(p, s, limits, inputs[0]);
      SettleGiven(p, Assigned(p, s, inputs[0]), limits, inputs[0].replies);
      RunGiven(p, Iterate(p, s, inputs[0]), limits, inputs[1..]);
    }
  }

  lemma StartGiven(p: Plan, limits: map<nat, Limits>, local: Executor, ks: seq<nat>)
    ensures AsGiven(limits, Start(p, limits, local, ks))
  {
    EnqueueAllGiven(p, Blank(p, limits, local), limits, Leaves(p, ks));
  }

  /** The attempt belongs to the node of its task, has the CPU and GPU limits the task was given, and its memory limit
      if it was given one. */
  ghost predicate Faithful(p: Plan, limits: map<nat, Limits>, t: Task) {
    && t.rid.id in p.nodes && t.node == p.nodes[t.rid.id]
    && t.limits.baseCpu == GivenLimits(limits, t.rid.id).baseCpu && t.limits.gpu == GivenLimits(limits, t.rid.id).gpu
    && (GivenLimits(limits, t.rid.id).baseMem.Some? ==> t.limits.baseMem == GivenLimits(limits, t.rid.id).baseMem)
  }

  /** The attempt is queued, or runs on some executor. */
  ghost predicate Held(s: State, t: Task) {
    || t in s.localQueue || t in s.schedQueue
    || exists i :: 0 <= i < |s.execs| && TaskItem(t) in s.execs[i].running
  }

  lemma HeldIsScheduled(p: Plan, s: State, t: Task)
    requires Base(p, s) && Held(s, t)
    ensures IsScheduled(s, t)
  {
    if t in s.localQueue || t in s.schedQueue {
      assert IsWaiting(s, t);
    } else {
      var i :| 0 <= i < |s.execs| && TaskItem(t) in s.execs[i].running;
      assert ExecOK(s, s.execs[i]);
    }
  }

  lemma ScheduledIsFaithful(p: Plan, s: State, limits: map<nat, Limits>, t: Task)
    requires Base(p, s) && AsGiven(limits, s) && IsScheduled(s, t)
    ensures Faithful(p, limits, t)
  {
    assert ReadsSucceeded(p, s, t.rid.id, s.scheduled[t.rid].inputs);
    assert CopyOf(p, s, t.rid, s.scheduled[t.rid]);
  }

  /** In every reachable state all queued and running attempts have what their tasks were given, before any boost. */
  lemma AttemptsAsGiven(p: Plan, s: State, limits: map<nat, Limits>, local: Executor, ks: seq<nat>, inputs: seq<Input>,
          t: Task)
    requires Reachable(p, s, limits, local, ks, inputs) && Held(s, t)
    ensures Faithful(p, limits, t)
  {
    StartKeeps(p, limits, local, ks);
    RunKeeps(p, Start(p, limits, local, ks), inputs);
    StartGiven(p, limits, local, ks);
    RunGiven(p, Start(p, limits, local, ks), limits, inputs);
    HeldIsScheduled(p, s, t);
    ScheduledIsFaithful(p, s, limits, t);
  }
}
