/** The executor properties through every phase of the loop, and over whole runs. */
module ExecutorTheorems {
  import opened WorkItems
  import opened Executors
  import opened Plans
  import opened Sched
  import opened Dispatch
  import opened SchedInvariants
  import opened SchedLoop
  import opened SchedRuns
  import opened SchedSafety
  import opened LocalTasks
  import opened DispatchProofs
  import opened DispatchSteps
  import opened ExecutorRuns

  ghost predicate Joins(scope: Scope, e: Executor) { Accounted(e) && (scope.WithCapacity? ==> Fits(e)) }

  /** Every executor of xs is later found at its place in ys; those that joined in between fit. */
  ghost predicate LaterAll(scope: Scope, xs: seq<Executor>, ys: seq<Executor>) {
    && |xs| <= |ys|
    && (forall i {:trigger Later(scope, xs[i], ys[i])} :: 0 <= i < |xs| ==> Later(scope, xs[i], ys[i]))
    && (forall i {:trigger Joins(scope, ys[i])} :: |xs| <= i < |ys| ==> Joins(scope, ys[i]))
  }

  /** Limits are never negative, wherever a task comes from. */
  ghost predicate ProperLimits(q: seq<Task>) { forall t :: t in q ==> LimitsOK(t.limits) }

  ghost predicate LimitsInv(s: State) {
    && ProperLimits(s.schedQueue)
    && (forall k :: k in s.master ==> LimitsOK(s.master[k].limits))
  }

  ghost predicate Sound(scope: Scope, s: State, r: State) {
    LaterAll(scope, s.execs, r.execs) && (!scope.Moves? && LimitsInv(s) ==> LimitsInv(r))
  }

  lemma LaterAllTransitive(scope: Scope, xs: seq<Executor>, ys: seq<Executor>, zs: seq<Executor>)
    requires LaterAll(scope, xs, ys) && LaterAll(scope, ys, zs)
    ensures LaterAll(scope, xs, zs)
  {
    forall i | 0 <= i < |xs| ensures Later(scope, xs[i], zs[i]) {
      assert Later(scope, xs[i], ys[i]) && Later(scope, ys[i], zs[i]);
      LaterTransitive(scope, xs[i], ys[i], zs[i]);
    }
    forall i | |xs| <= i < |zs| ensures Joins(scope, zs[i]) {
      if i < |ys| { assert Joins(scope, ys[i]) && Later(scope, ys[i], zs[i]); }
    }
  }

  lemma Then(scope: Scope, s: State, r: State, u: State)
    requires Sound(scope, s, r) && Sound(scope, r, u)
    ensures Sound(scope, s, u)
  {
    LaterAllTransitive(scope, s.execs, r.execs, u.execs);
  }

  lemma LaterSame(scope: Scope, xs: seq<Executor>)
    ensures LaterAll(scope, xs, xs)
  {
  }

  lemma LaterOne(scope: Scope, xs: seq<Executor>, i: nat, e: Executor)
    requires i < |xs| && Later(scope, xs[i], e)
    ensures LaterAll(scope, xs, xs[i := e])
  {
    forall j | 0 <= j < |xs| ensures Later(scope, xs[j], xs[i := e][j]) {}
  }

  // ---------------------------------------------------------------- enqueue and retry

  lemma {:induction false} EnqueueOneSound(p: Plan, s: State, k: nat)
    ensures LimitsInv(s) ==> LimitsInv(EnqueueOne(p, s, k))
    decreases Height(p, k) + 1, 0
  {
    if k in p.tasks && k in s.master && Ready(p, s, k) && s.Done(k) {
      EnqueueAllSound(p, LookUp(p, s, k), Consumers(p, s, k));
    }
  }

  lemma {:induction false} EnqueueAllSound(p: Plan, s: State, ks: seq<nat>)
    ensures LimitsInv(s) ==> LimitsInv(EnqueueAll(p, s, ks))
    decreases Heights(p, ks), 1 + |ks|
  {
    if ks != [] {
      assert ks[0] in ks;
      HeightsBound(p, ks[1..], Heights(p, ks));
      EnqueueOneSound(p, s, ks[0]);
      EnqueueAllSound(p, EnqueueOne(p, s, ks[0]), ks[1..]);
    }
  }

  lemma RetrySound(scope: Scope, p: Plan, s: State, k: nat)
    ensures Sound(scope, s, Retry(p, s, k))
  {
    LaterSame(scope, s.execs);
    if k in s.master {
      var r := Renumbered(s, k);
      RetryIs(p, s, k);
      EnqueueOneSound(p, r, k);
      RenumberedSound(scope, s, k);
      Then(scope, s, r, EnqueueOne(p, r, k));
    }
  }

  lemma RenumberedSound(scope: Scope, s: State, k: nat)
    requires k in s.master
    ensures Sound(scope, s, Renumbered(s, k))
  {
    LaterSame(scope, s.execs);
  }

  lemma {:induction false} SpeculateAllSound(scope: Scope, p: Plan, s: State, works: seq<Running>, slow: set<RuntimeId>)
    ensures Sound(scope, s, SpeculateAll(p, s, works, slow))
    decreases |works|
  {
    LaterSame(scope, s.execs);
    if works != [] {
      var s1 := SpeculateOne(p, s, works[0], slow);
      if Speculates(p, s, works[0], slow) { RetrySound(scope, p, s, works[0].task.rid.id); }
      SpeculateAllSound(scope, p, s1, works[1..], slow);
      Then(scope, s, s1, SpeculateAll(p, s1, works[1..], slow));
    }
  }

  lemma {:induction false} SpeculateSound(scope: Scope, p: Plan, s: State, i: nat, slow: set<RuntimeId>)
    ensures Sound(scope, s, Speculate(p, s, i, slow))
    decreases |s.execs| - i
  {
    LaterSame(scope, s.execs);
    if i < |s.execs| {
      var e := s.execs[i];
      var s1 := if !e.local && e.Working() then SpeculateAll(p, s, e.running, slow) else s;
      SpeculateAllSound(scope, p, s, e.running, slow);
      SpeculateSound(scope, p, s1, i + 1, slow);
      Then(scope, s, s1, Speculate(p, s1, i + 1, slow));
    }
  }

  lemma {:induction false} RescheduleAllSound(scope: Scope, p: Plan, s: State, works: seq<Running>)
    ensures Sound(scope, s, RescheduleAll(p, s, works))
    decreases |works|
  {
    LaterSame(scope, s.execs);
    if works != [] {
      var s1 := RescheduleOne(p, s, works[0]);
      if works[0].TaskItem? { RetrySound(scope, p, s, works[0].task.rid.id); }
      RescheduleAllSound(scope, p, s1, works[1..]);
      Then(scope, s, s1, RescheduleAll(p, s1, works[1..]));
    }
  }

  // ---------------------------------------------------------------- probes and state updates

  /** Every executor fits: the invariant that the runs keep. */
  ghost predicate AllFit(execs: seq<Executor>) {
    forall i {:trigger Fits(execs[i])} :: 0 <= i < |execs| ==> Fits(execs[i])
  }

  lemma LaterFit(xs: seq<Executor>, ys: seq<Executor>)
    requires LaterAll(WithCapacity, xs, ys) && AllFit(xs)
    ensures AllFit(ys)
  {
    forall i | 0 <= i < |ys| ensures Fits(ys[i]) {
      if i < |xs| {
        assert Later(WithCapacity, xs[i], ys[i]) && Fits(xs[i]);
      } else {
        assert Joins(WithCapacity, ys[i]);
      }
    }
  }

  lemma SendAllLater(scope: Scope, execs: seq<Executor>, epoch: nat)
    ensures LaterAll(scope, execs, SendProbes(execs, epoch))
  {
    forall i | 0 <= i < |execs| ensures Later(scope, execs[i], SendProbes(execs, epoch)[i]) {
      SendLater(scope, execs[i], ProbeRequest(epoch));
    }
  }

  /** Executors that join fit. */
  lemma JoinLater(scope: Scope, before: seq<Executor>, joined: nat, at: nat)
    ensures LaterAll(scope, before, before + seq(joined, i => NewExecutor(at)))
  {
    var all := before + seq(joined, i => NewExecutor(at));
    forall i | |before| <= i < |all| ensures Joins(scope, all[i]) { assert all[i] == NewExecutor(at); }
  }

  lemma ProbeSound(scope: Scope, p: Plan, s: State, joined: nat, speculate: bool, slow: set<RuntimeId>)
    ensures Sound(scope, s, ProbeRound(p, s, joined, speculate, slow))
  {
    var s1 := ProbeRound(p, s, joined, false, slow);
    ProbedSound(scope, p, s, joined, slow);
    SpeculateAfter(scope, p, s, s1, slow);
    assert speculate ==> ProbeRound(p, s, joined, true, slow) == Speculate(p, s1, 0, slow);
  }

  lemma ProbedSound(scope: Scope, p: Plan, s: State, joined: nat, slow: set<RuntimeId>)
    ensures Sound(scope, s, ProbeRound(p, s, joined, false, slow))
  {
    var all := s.execs + seq(joined, i => NewExecutor(s.probeEpoch));
    JoinLater(scope, s.execs, joined, s.probeEpoch);
    SendAllLater(scope, all, s.probeEpoch + 1);
    LaterAllTransitive(scope, s.execs, all, SendProbes(all, s.probeEpoch + 1));
  }

  lemma SpeculateAfter(scope: Scope, p: Plan, s: State, s0: State, slow: set<RuntimeId>)
    requires Sound(scope, s, s0)
    ensures Sound(scope, s, Speculate(p, s0, 0, slow))
  {
    SpeculateSound(scope, p, s0, 0, slow);
    Then(scope, s, s0, Speculate(p, s0, 0, slow));
  }

  lemma UpdateOneSound(scope: Scope, p: Plan, s: State, i: nat)
    requires i < |s.execs|
    ensures Sound(scope, s, UpdateExecutor(p, s, i))
  {
    var e := s.execs[i];
    LaterSame(scope, s.execs);
    if !e.local && e.Alive() {
      var e' := e.UpdateState(s.probeEpoch, p.cfg.maxMissed);
      var s1 := s.(execs := s.execs[i := e']);
      UpdateLater(scope, e, s.probeEpoch, p.cfg.maxMissed);
      LaterOne(scope, s.execs, i, e');
      RescheduleAllSound(scope, p, s1, e.running);
      Then(scope, s, s1, RescheduleAll(p, s1, e.running));
    }
  }

  lemma {:induction false} UpdateSound(scope: Scope, p: Plan, s: State, i: nat)
    ensures Sound(scope, s, UpdateExecutors(p, s, i)) && |UpdateExecutors(p, s, i).execs| == |s.execs|
    decreases |s.execs| - i
  {
    LaterSame(scope, s.execs);
    if i < |s.execs| {
      UpdateOneSound(scope, p, s, i);
      UpdateSound(scope, p, UpdateExecutor(p, s, i), i + 1);
      Then(scope, s, UpdateExecutor(p, s, i), UpdateExecutors(p, s, i));
    }
  }

  // ---------------------------------------------------------------- local queue and dispatch

  lemma {:induction false} PushLocalLater(scope: Scope, e: Executor, queue: seq<Task>)
    requires e.local
    ensures Later(scope, e, PushLocal(e, queue).0)
    decreases |queue|
  {
    if queue != [] {
      PushLater(scope, e, queue[0]);
      PushLocalLater(scope, e.Push(TaskItem(queue[0])), queue[1..]);
      LaterTransitive(scope, e, e.Push(TaskItem(queue[0])), PushLocal(e, queue).0);
    }
  }

  lemma PushLocalQueueSound(scope: Scope, s: State)
    requires |s.execs| > 0 && s.execs[0].local
    ensures Sound(scope, s, PushLocalQueue(s)) && |PushLocalQueue(s).execs| == |s.execs|
    ensures GoodFree(s.execs) ==> GoodFree(PushLocalQueue(s).execs)
  {
    PushLocalLater(scope, s.execs[0], s.localQueue);
    LaterOne(scope, s.execs, 0, PushLocal(s.execs[0], s.localQueue).0);
  }

  /** The executor takes the head after the admission test, boosted or not. */
  lemma AdmitSound(scope: Scope, p: Plan, e: Executor, t: Task, final: bool)
    requires e.Admits(t) && (!scope.Moves? ==> LimitsOK(t.limits)) && !e.local && !e.stopSent
    ensures Later(scope, e, e.Push(TaskItem(if final then Boost(p, e, t) else t)))
  {
    var u := if final then Boost(p, e, t) else t;
    if !scope.Moves? {
      BoostFits(p, e, t);
      LimitsSane(u);
    }
    PushLater(scope, e, u);
  }

  lemma OfferSound(scope: Scope, p: Plan, s: State, i: nat, final: bool)
    requires i < |s.execs| && s.schedQueue != [] && IsGood(s.execs[i]) && !s.execs[i].stopSent
    requires !scope.Moves? ==> LimitsInv(s)
    ensures Sound(scope, s, Offer(p, s, i, final).0)
  {
    var e := s.execs[i];
    var t := WithMemory(e, s.schedQueue[0]);
    var rest := s.(schedQueue := s.schedQueue[1..]);
    LaterSame(scope, s.execs);
    assert s.schedQueue[0] in s.schedQueue && forall u :: u in s.schedQueue[1..] ==> u in s.schedQueue;
    if s.Done(t.rid.id) {
      if t.rid.id in p.tasks { EnqueueAllSound(p, LookUp(p, rest, t.rid.id), Consumers(p, rest, t.rid.id)); }
    } else if e.Admits(t) {
      AdmitSound(scope, p, e, t, final);
      LaterOne(scope, s.execs, i, e.Push(TaskItem(if final then Boost(p, e, t) else t)));
    }
  }

  lemma OfferFree(p: Plan, s: State, i: nat, final: bool)
    requires i < |s.execs| && s.schedQueue != [] && GoodFree(s.execs)
    ensures GoodFree(Offer(p, s, i, final).0.execs) && |Offer(p, s, i, final).0.execs| == |s.execs|
    ensures var r := Offer(p, s, i, final).0;
      forall j :: 0 <= j < |s.execs| ==> (IsGood(r.execs[j]) <==> IsGood(s.execs[j]))
  {
  }

  lemma {:induction false} RoundSound(scope: Scope, p: Plan, s: State, order: seq<nat>, final: bool)
    requires (!scope.Moves? ==> LimitsInv(s)) && GoodFree(s.execs)
    requires forall j :: j in order ==> j < |s.execs| && IsGood(s.execs[j])
    ensures var r := Round(p, s, order, final).0; Sound(scope, s, r) && GoodFree(r.execs) && |r.execs| == |s.execs|
    decreases |order|
  {
    LaterSame(scope, s.execs);
    if order != [] && s.schedQueue != [] {
      assert order[0] in order && forall j :: j in order[1..] ==> j in order;
      var r := Offer(p, s, order[0], final).0;
      OfferSound(scope, p, s, order[0], final);
      OfferFree(p, s, order[0], final);
      RoundSound(scope, p, r, order[1..], final);
      Then(scope, s, r, Round(p, s, order, final).0);
    }
  }

  /** Taking a task off the queue, or putting back tasks with proper limits. */
  lemma QueueSound(scope: Scope, s: State, q: seq<Task>)
    requires !scope.Moves? ==> LimitsInv(s) && ProperLimits(q)
    ensures Sound(scope, s, s.(schedQueue := q)) && (!scope.Moves? ==> LimitsInv(s.(schedQueue := q)))
  {
    LaterSame(scope, s.execs);
  }

  lemma PassSound(scope: Scope, p: Plan, s: State, aside: seq<Task>, final: bool)
    requires GoodFree(s.execs) && (!scope.Moves? ==> LimitsInv(s) && ProperLimits(aside))
    ensures var (r, more) := Pass(p, s, aside, final);
      Sound(scope, s, r) && GoodFree(r.execs) && |r.execs| == |s.execs| && (!scope.Moves? ==> ProperLimits(more))
  {
    var order := UsableExecs(s.execs);
    var (s1, popped) := Round(p, s, order, final);
    RoundSound(scope, p, s, order, final);
    if s1.schedQueue != [] && !popped {
      assert s1.schedQueue[0] in s1.schedQueue && forall u :: u in s1.schedQueue[1..] ==> u in s1.schedQueue;
      QueueSound(scope, s1, s1.schedQueue[1..]);
      Then(scope, s, s1, s1.(schedQueue := s1.schedQueue[1..]));
    }
  }

  lemma {:induction false} AssignSound(scope: Scope, p: Plan, s: State, aside: seq<Task>, final: bool)
    requires GoodFree(s.execs) && (!scope.Moves? ==> LimitsInv(s) && ProperLimits(aside))
    ensures Sound(scope, s, Assign(p, s, aside, final)) && |Assign(p, s, aside, final).execs| == |s.execs|
    decreases |Unscheduled(p, s)|, |s.schedQueue|
  {
    if s.schedQueue == [] || GoodCount(s.execs) == 0 {
      QueueSound(scope, s, s.schedQueue + aside);
    } else {
      var (r, more) := Pass(p, s, aside, final);
      PassProgress(p, s, aside, final);
      PassSound(scope, p, s, aside, final);
      AssignSound(scope, p, r, more, final);
      Then(scope, s, r, Assign(p, r, more, final));
    }
  }

  lemma DispatchSound(scope: Scope, p: Plan, s: State)
    requires GoodFree(s.execs) && (!scope.Moves? ==> LimitsInv(s))
    ensures Sound(scope, s, DispatchTasks(p, s)) && |DispatchTasks(p, s).execs| == |s.execs|
  {
    var q := Reorder(p.cfg, s.schedQueue);
    ReorderPermutes(p.cfg, s.schedQueue);
    forall t | !scope.Moves? && t in q ensures LimitsOK(t.limits) { assert t in multiset(q); assert t in s.schedQueue; }
    QueueSound(scope, s, q);
    var s1 := s.(schedQueue := q);
    AssignSound(scope, p, s1, [], FinalPhase(p, s1));
    Then(scope, s, s1, DispatchTasks(p, s));
  }

  lemma StopIdleSound(scope: Scope, p: Plan, s: State)
    ensures Sound(scope, s, StopIdle(p, s)) && |StopIdle(p, s).execs| == |s.execs|
  {
    LaterSame(scope, s.execs);
    var execs := StopFirstIdle(s.execs);
    forall i | 0 <= i < |s.execs| ensures Later(scope, s.execs[i], execs[i]) {
      StopFirstIdleAt(s.execs, i);
      StopLater(scope, s.execs[i]);
    }
  }

  // ---------------------------------------------------------------- completions

  /** The completion queues hold only probes that report no less capacity than before. */
  ghost predicate CapacitiesOK(execs: seq<Executor>, replies: seq<seq<Reply>>) {
    forall i {:trigger RepliesOf(replies, i)} :: 0 <= i < |execs| ==> CapacityOK(execs[i], RepliesOf(replies, i))
  }

  lemma PopSound(scope: Scope, s: State, replies: seq<seq<Reply>>)
    requires scope.WithCapacity? ==> CapacitiesOK(s.execs, replies)
    ensures Sound(scope, s, s.(execs := PopExecs(s.execs, replies)))
  {
    forall i | 0 <= i < |s.execs| ensures Later(scope, s.execs[i], PopExecs(s.execs, replies)[i]) {
      ReceiveLater(scope, s.execs[i], RepliesOf(replies, i));
    }
  }

  lemma StopAllLater(scope: Scope, execs: seq<Executor>)
    ensures LaterAll(scope, execs, StopAll(execs)) && |StopAll(execs)| == |execs|
  {
    forall i | 0 <= i < |execs| ensures Later(scope, execs[i], StopAll(execs)[i]) { StopLater(scope, execs[i]); }
  }

  lemma StopRunningLater(scope: Scope, execs: seq<Executor>, k: nat)
    ensures LaterAll(scope, execs, StopRunning(execs, k)) && |StopRunning(execs, k)| == |execs|
  {
    forall i | 0 <= i < |execs| ensures Later(scope, execs[i], StopRunning(execs, k)[i]) {
      SendLater(scope, execs[i], StopWork(k));
    }
  }

  lemma RelaxOK(l: Limits, e: Executor, d: Done)
    requires LimitsOK(l)
    ensures LimitsOK(LimitsAfter(l, e, d))
  {
    var l := TakeMemory(l, d.memory);
    if l.baseMem.Some? { FloorProduct(l.memBoost, l.baseMem.value); }
  }

  lemma NoteSound(scope: Scope, p: Plan, s: State, i: nat, d: Done)
    requires d.rid.id in s.master && i < |s.execs|
    ensures Sound(scope, s, NoteFailure(p, s, i, d))
  {
    if LimitsInv(s) { RelaxOK(s.master[d.rid.id].limits, s.execs[i], d); }
    LaterSame(scope, s.execs);
    StopAllLater(scope, s.execs);
  }

  lemma FailSound(scope: Scope, p: Plan, s: State, i: nat, d: Done)
    requires d.rid.id in s.master && i < |s.execs|
    ensures Sound(scope, s, FailTask(p, s, i, d))
  {
    var r := NoteFailure(p, s, i, d);
    NoteSound(scope, p, s, i, d);
    RetrySound(scope, p, r, d.rid.id);
    Then(scope, s, r, Retry(p, r, d.rid.id));
  }

  lemma SucceedSound(scope: Scope, p: Plan, s: State, d: Done)
    requires d.rid.id in p.tasks && d.rid.id in s.master
    ensures Sound(scope, s, SucceedTask(p, s, d))
  {
    var s1 := Told(p, s, d);
    var s2 := EnqueueAll(p, s1, Consumers(p, Recorded(s, d), d.rid.id));
    SucceedIs(p, s, d);
    StopRunningLater(scope, s.execs, d.rid.id);
    assert LimitsInv(s) ==> LimitsInv(s1);
    EnqueueAllSound(p, s1, Consumers(p, Recorded(s, d), d.rid.id));
    LaterSame(scope, s2.execs);
    StopAllLater(scope, s2.execs);
    Then(scope, s, s1, s2);
    Then(scope, s, s2, SucceedTask(p, s, d));
  }

  lemma ProcessSound(scope: Scope, p: Plan, s: State, i: nat, d: Done)
    requires i < |s.execs|
    ensures Sound(scope, s, ProcessOne(p, s, i, d))
  {
    LaterSame(scope, s.execs);
    if d.rid.id in p.tasks && d.rid.id in s.master {
      var s1 := s.(finished := s.finished + {d.rid});
      var s2 := if d.status == Succeed then s1 else s1.Fail(UnexpectedStatus);
      FailSound(scope, p, s1, i, d);
      SucceedSound(scope, p, s2, d);
      Then(scope, s, s1, FailTask(p, s1, i, d));
      Then(scope, s, s2, SucceedTask(p, s2, d));
    }
  }

  lemma {:induction false} ProcessAllSound(scope: Scope, p: Plan, s: State, pend: seq<Popped>)
    ensures Sound(scope, s, ProcessAll(p, s, pend))
    decreases |pend|
  {
    LaterSame(scope, s.execs);
    if pend != [] && pend[0].exec < |s.execs| {
      var r := ProcessOne(p, s, pend[0].exec, pend[0].done);
      ProcessSound(scope, p, s, pend[0].exec, pend[0].done);
      ProcessAllSound(scope, p, r, pend[1..]);
      Then(scope, s, r, ProcessAll(p, s, pend));
    }
  }

  // ---------------------------------------------------------------- iterations and runs

  lemma SettleSound(scope: Scope, p: Plan, s: State, replies: seq<seq<Reply>>)
    requires scope.WithCapacity? ==> CapacitiesOK(s.execs, replies)
    ensures Sound(scope, s, Settle(p, s, replies))
  {
    LaterSame(scope, s.execs);
    if !Idle(s) {
      var s1 := s.(execs := PopExecs(s.execs, replies));
      PopSound(scope, s, replies);
      ProcessAllSound(scope, p, s1, PopTasks(|s.execs|, replies, 0));
      Then(scope, s, s1, ProcessFinished(p, s, replies));
    }
  }

  lemma UpdatedSound(scope: Scope, p: Plan, s: State, inp: Input)
    ensures Sound(scope, s, Updated(p, s, inp)) && GoodFree(Updated(p, s, inp).execs)
  {
    var s1 := if inp.probe then ProbeRound(p, s, inp.joined, inp.speculate, inp.slow) else s;
    LaterSame(scope, s.execs);
    ProbeSound(scope, p, s, inp.joined, inp.speculate, inp.slow);
    UpdateSound(scope, p, s1, 0);
    UpdateFrees(p, s1, 0);
    Then(scope, s, s1, Updated(p, s, inp));
  }

  /** Local and remote dispatch: every executor after the updates is later found at its place. */
  lemma AssignedSound(scope: Scope, p: Plan, s: State, inp: Input)
    requires Inv(p, s) && s.running && (!scope.Moves? ==> LimitsInv(s))
    ensures Sound(scope, s, Assigned(p, s, inp))
  {
    var s1 := Updated(p, s, inp);
    UpdatedKeeps(p, s, inp);
    var s2 := PushLocalQueue(s1);
    UpdatedSound(scope, p, s, inp);
    PushLocalQueueSound(scope, s1);
    DispatchSound(scope, p, s2);
    StopIdleSound(scope, p, DispatchTasks(p, s2));
    Then(scope, s, s1, s2);
    Then(scope, s, s2, DispatchTasks(p, s2));
    Then(scope, s, DispatchTasks(p, s2), StopIdle(p, DispatchTasks(p, s2)));
  }

  ghost predicate ConstantCapacity(p: Plan, s: State, inputs: seq<Input>)
    decreases |inputs|
  {
    inputs != [] && Looping(s) ==>
      && CapacitiesOK(Assigned(p, s, inputs[0]).execs, inputs[0].replies)
      && ConstantCapacity(p, Iterate(p, s, inputs[0]), inputs[1..])
  }

  lemma {:induction false} RunSound(scope: Scope, p: Plan, s: State, inputs: seq<Input>)
    requires Safe(p, s) && FairRun(p, s, inputs) && (scope.WithCapacity? ==> ConstantCapacity(p, s, inputs))
    requires !scope.Moves? ==> LimitsInv(s)
    ensures Sound(scope, s, Run(p, s, inputs))
    decreases |inputs|
  {
    LaterSame(scope, s.execs);
    if inputs != [] && Looping(s) {
      var s1 := Assigned(p, s, inputs[0]);
      var r := Iterate(p, s, inputs[0]);
      AssignedSound(scope, p, s, inputs[0]);
      SettleSound(scope, p, s1, inputs[0].replies);
      Then(scope, s, s1, r);
      IterateKeeps(p, s, inputs[0]);
      RunSound(scope, p, r, inputs[1..]);
      Then(scope, s, r, Run(p, s, inputs));
    }
  }

  /** Over any run: an executor never leaves FAIL or STOPPED, leaves STOPPING only for them, its acknowledged epoch
      never decreases, and once it has been asked to stop it is given no further task. */
  lemma ExecutorMachine(p: Plan, s: State, inputs: seq<Input>, i: nat)
    requires Safe(p, s) && FairRun(p, s, inputs)
    requires i < |s.execs|
    ensures i < |Run(p, s, inputs).execs|
    ensures var a := s.execs[i]; var b := Run(p, s, inputs).execs[i];
      && b.local == a.local && a.probe.epoch <= b.probe.epoch
      && (!a.local ==> Reaches(a.state, b.state))
      && (!a.local && a.stopSent ==> b.stopSent && TasksWithin(a, b))
  {
    RunSound(Moves, p, s, inputs);
    assert Later(Moves, s.execs[i], Run(p, s, inputs).execs[i]);
  }

  lemma StartFits(p: Plan, limits: map<nat, Limits>, local: Executor, ks: seq<nat>)
    requires FreshLocal(local) && Accounted(local) && forall k :: k in limits ==> LimitsOK(limits[k])
    ensures AllFit(Start(p, limits, local, ks).execs) && LimitsInv(Start(p, limits, local, ks))
  {
    EnqueueAllSound(p, Blank(p, limits, local), Leaves(p, ks));
  }

  /** From the first start, in every reachable state: the allocations of every executor are the sums over its running
      works, and no remote executor is given more than its capacity, boosts included. */
  lemma CapacityHolds(p: Plan, limits: map<nat, Limits>, local: Executor, ks: seq<nat>, inputs: seq<Input>, i: nat)
    requires FreshLocal(local) && Accounted(local) && (forall k :: k in p.tasks ==> k in ks)
    requires forall k :: k in limits ==> LimitsOK(limits[k])
    requires FairRun(p, Start(p, limits, local, ks), inputs) && ConstantCapacity(p, Start(p, limits, local, ks), inputs)
    requires i < |Run(p, Start(p, limits, local, ks), inputs).execs|
    ensures var e := Run(p, Start(p, limits, local, ks), inputs).execs[i];
      Accounted(e) && (!e.local ==> WithinCapacity(e))
  {
    var s := Start(p, limits, local, ks);
    var r := Run(p, s, inputs);
    StartKeeps(p, limits, local, ks);
    StartFits(p, limits, local, ks);
    RunSound(WithCapacity, p, s, inputs);
    LaterFit(s.execs, r.execs);
    assert Fits(r.execs[i]);
  }
}
