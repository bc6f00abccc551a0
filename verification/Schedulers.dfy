/** The scheduler object: its queues, dictionaries and executors are updated in place, and every method computes the
    function on states that carries its name. */
module Schedulers {
  import opened WorkItems
  import opened Executors
  import opened Plans
  import opened Sched
  import opened Dispatch
  import opened SchedInvariants
  import opened SchedLoop
  import opened SchedRuns
  import opened SchedTheorems
  import opened GoodCaches
  import opened RemoteExecutors

  function Views(es: seq<RemoteExecutor>): (r: seq<Executor>)
    reads es
    ensures |r| == |es| && forall i :: 0 <= i < |es| ==> r[i] == es[i].View()
  {
    seq(|es|, i requires 0 <= i < |es| reads es => es[i].View())
  }

  /** The listed tasks that are ready. */
  method SelectRunnable(p: Plan, s: State, ks: seq<nat>) returns (runnable: seq<nat>)
    ensures runnable == Runnable(p, s, ks)
  {
    runnable := [];
    var rest := ks;
    while rest != []
      invariant runnable + Runnable(p, s, rest) == Runnable(p, s, ks)
      decreases |rest|
    {
      if Ready(p, s, rest[0]) { runnable := runnable + [rest[0]]; }
      rest := rest[1..];
    }
  }

  /** Whether every listed task is a task of the plan. */
  method KnowsAll(p: Plan, ks: seq<nat>) returns (found: bool)
    ensures found == AllIn(ks, p.tasks)
  {
    var i := 0;
    while i < |ks| && ks[i] in p.tasks
      invariant i <= |ks| && forall j :: 0 <= j < i ==> ks[j] in p.tasks
    {
      i := i + 1;
    }
    found := i == |ks|;
  }

  class Scheduler {
    const plan: Plan
    var localQueue: seq<Task>
    var schedQueue: seq<Task>
    var scheduled: map<RuntimeId, Task>
    var finished: set<RuntimeId>
    var succeeded: map<nat, RuntimeId>
    var master: map<nat, Master>
    var executors: seq<RemoteExecutor>
    var epoch: nat
    var probeEpoch: nat
    var running: bool
    var error: Option<Error>
    /** The cached `good_executors`, as positions. */
    var goodCache: Option<seq<nat>>
    /** The cached `alive_executors`. */
    var aliveCache: Option<seq<nat>>

    /** Handles are different objects. */
    ghost predicate Valid()
      reads `executors
    {
      forall i, j :: 0 <= i < j < |executors| ==> executors[i] != executors[j]
    }

    /** Handles are only added, for newly discovered executors. */
    twostate predicate Extended()
      reads `executors
    {
      old(executors) <= executors && forall i :: |old(executors)| <= i < |executors| ==> fresh(executors[i])
    }

    function View(): State
      reads this, executors
    {
      State(localQueue, schedQueue, scheduled, finished, succeeded, master, Views(executors), epoch, probeEpoch,
          running, error)
    }

    /** Nothing scheduled yet, and only the local executor known. */
    constructor (plan: Plan, limits: map<nat, Limits>, local: RemoteExecutor)
      ensures this.plan == plan && executors == [local] && Valid() && CacheOK()
      ensures View() == Blank(plan, limits, local.View())
    {
      this.plan := plan;
      localQueue, schedQueue, scheduled, finished, succeeded := [], [], map[], {}, map[];
      master := map k | k in plan.tasks :: Master(0, 0, Incomplete, 0, if k in limits then limits[k] else NO_LIMITS);
      executors, epoch, probeEpoch, running, error, goodCache, aliveCache := [local], 0, 0, true, None, None, None;
    }

    /** A cached list equals the filter computed afresh. */
    ghost predicate CacheOK()
      reads `goodCache, `aliveCache, `executors, executors
    {
      Listed(goodCache, aliveCache, Views(executors))
    }

    method GoodExecutors() returns (good: seq<nat>)
      requires CacheOK()
      modifies `goodCache
      ensures CacheOK() && View() == old(View()) && |good| == GoodCount(Views(executors))
      ensures good == GoodFrom(Views(executors), 0)
    {
      if goodCache.None? { goodCache := Some(GoodFrom(Views(executors), 0)); }
      good := goodCache.value;
      CountIsLength(Views(executors), 0);
      assert Views(executors)[0..] == Views(executors);
    }

    method AliveExecutors() returns (alive: seq<nat>)
      requires CacheOK()
      modifies `aliveCache
      ensures CacheOK() && View() == old(View()) && alive == AliveFrom(Views(executors), 0)
    {
      if aliveCache.None? { aliveCache := Some(AliveFrom(Views(executors), 0)); }
      alive := aliveCache.value;
    }

    /** `num_running_works`, over the cached list of alive executors. */
    method NumRunningWorks() returns (n: nat)
      requires CacheOK()
      modifies `aliveCache
      ensures CacheOK() && View() == old(View()) && n == NumRunning(Views(executors))
    {
      var alive := AliveExecutors();
      n := WorksAt(Views(executors), alive) + LocalWorks(Views(executors));
      RunningIsListed(Views(executors), 0);
      assert Views(executors)[0..] == Views(executors);
    }

    method Raise(e: Error)
      modifies `error
      ensures View() == old(View()).Fail(e)
    {
      if error.None? { error := Some(e); }
    }

    // -------------------------------------------------------------- enqueue and retry

    /** `copy_task_for_execution`: look up the output of every input. */
    method CopyTaskForExecution(k: nat) returns (t: Option<Task>)
      requires k in plan.tasks && k in master
      ensures t.Some? <==> Ready(plan, View(), k)
      ensures t.Some? ==> t.value == CopyTask(plan, View(), k)
    {
      assert Linked(plan, k);
      var deps := plan.inputs[k];
      var inputs: seq<RuntimeId> := [];
      var i := 0;
      while i < |deps|
        invariant i <= |deps| && |inputs| == i
        invariant forall j :: 0 <= j < i ==> deps[j] in succeeded && inputs[j] == succeeded[deps[j]]
      {
        if deps[i] !in succeeded {
          assert deps[i] in deps;
          return None;
        }
        inputs := inputs + [succeeded[deps[i]]];
        i := i + 1;
      }
      t := Some(Task(RuntimeId(k, epoch, master[k].retry), plan.nodes[k], inputs, master[k].limits));
    }

    /** `get_runnable_tasks`: every consumer is looked up in the plan, and kept when its inputs have succeeded. */
    method GetRunnableTasks(k: nat) returns (ks: seq<nat>)
      requires k in plan.tasks
      modifies `error
      ensures View() == LookUp(plan, old(View()), k) && ks == Consumers(plan, old(View()), k)
    {
      assert Linked(plan, k);
      ks := SelectRunnable(plan, View(), plan.outputs[k]);
      var found := KnowsAll(plan, plan.outputs[k]);
      if !found { Raise(UnknownConsumer); }
    }

    /** One task of `try_enqueue`. */
    method TryEnqueueOne(k: nat)
      modifies `localQueue, `schedQueue, `scheduled, `error
      ensures View() == EnqueueOne(plan, old(View()), k)
      decreases Height(plan, k) + 1, 0
    {
      if k !in plan.tasks || k !in master {
        Raise(UnknownTask);
        return;
      }
      var t := CopyTaskForExecution(k);
      if t.None? {
        Raise(MissingInput);
      } else if k in succeeded {
        var ks := GetRunnableTasks(k);
        TryEnqueue(ks);
      } else if t.value.rid !in scheduled {
        scheduled := scheduled[t.value.rid := t.value];
        if k in plan.onScheduler {
          localQueue := localQueue + [t.value];
        } else {
          schedQueue := schedQueue + [t.value];
        }
      }
    }

    method TryEnqueue(ks: seq<nat>)
      modifies `localQueue, `schedQueue, `scheduled, `error
      ensures View() == EnqueueAll(plan, old(View()), ks)
      decreases Heights(plan, ks), 1 + |ks|
    {
      var i := 0;
      while i < |ks|
        invariant i <= |ks| && EnqueueAll(plan, View(), ks[i..]) == EnqueueAll(plan, old(View()), ks)
      {
        assert ks[i] in ks && ks[i..][1..] == ks[i + 1..];
        TryEnqueueOne(ks[i]);
        i := i + 1;
      }
    }

    /** `get_retry_task`, then `try_enqueue`. */
    method RetryTask(k: nat)
      modifies `localQueue, `schedQueue, `scheduled, `error, `master
      ensures View() == Retry(plan, old(View()), k)
    {
      if k !in master {
        Raise(UnknownTask);
        return;
      }
      var m := master[k];
      master := master[k := m.(retry := m.retry + 1)];
      if m.status == Succeed && m.epoch == epoch { Raise(RetriedSucceeded); }
      TryEnqueueOne(k);
    }

    // -------------------------------------------------------------- probes and speculation

    method StartSpeculativeExecution(slow: set<RuntimeId>)
      modifies `localQueue, `schedQueue, `scheduled, `error, `master
      ensures View() == Speculate(plan, old(View()), 0, slow)
    {
      var i := 0;
      while i < |executors|
        invariant i <= |executors| && Views(executors) == old(Views(executors))
        invariant Speculate(plan, View(), i, slow) == Speculate(plan, old(View()), 0, slow)
      {
        var e := executors[i];
        if !e.local && e.View().Working() { SpeculateOn(e.running, slow); }
        i := i + 1;
      }
    }

    /** The works of one executor. */
    method SpeculateOn(works: seq<Running>, slow: set<RuntimeId>)
      modifies `localQueue, `schedQueue, `scheduled, `error, `master
      ensures View() == SpeculateAll(plan, old(View()), works, slow)
    {
      var i := 0;
      while i < |works|
        invariant i <= |works| && SpeculateAll(plan, View(), works[i..], slow)
            == SpeculateAll(plan, old(View()), works, slow)
      {
        assert works[i..][1..] == works[i + 1..];
        if Speculates(plan, View(), works[i], slow) { RetryTask(works[i].task.rid.id); }
        i := i + 1;
      }
    }

    method AddExecutors(joined: nat, at: nat)
      requires Valid() && CacheOK()
      modifies `executors, `goodCache, `aliveCache
      ensures Valid() && CacheOK() && Extended()
      ensures Views(executors) == old(Views(executors)) + seq(joined, i => NewExecutor(at))
    {
      var i := 0;
      while i < joined
        invariant i <= joined && Valid() && CacheOK() && old(executors) <= executors
            && |executors| == |old(executors)| + i
        invariant forall k :: |old(executors)| <= k < |executors| ==> fresh(executors[k])
        invariant Views(executors) == old(Views(executors)) + seq(i, j => NewExecutor(at))
      {
        var e := new RemoteExecutor(at);
        ghost var before := Views(executors);
        executors := executors + [e];
        goodCache, aliveCache := None, None;
        assert Views(executors) == before + [NewExecutor(at)];
        i := i + 1;
      }
    }

    method SendProbes(probeNo: nat)
      requires Valid()
      modifies executors
      ensures Valid() && |executors| == |old(Views(executors))|
      ensures forall i :: 0 <= i < |executors| ==> executors[i].View() == SendProbe(old(executors[i].View()), probeNo)
      ensures SameLists(old(Views(executors)), Views(executors))
    {
      var i := 0;
      while i < |executors|
        invariant i <= |executors|
        invariant forall k :: 0 <= k < |executors| ==>
                    executors[k].View() == if k < i then SendProbe(old(executors[k].View()), probeNo)
                        else old(executors[k].View())
      {
        var e := executors[i];
        if !e.local && e.View().Working() { e.Send(ProbeRequest(probeNo)); }
        i := i + 1;
      }
    }

    /** `probe_executors`, when a round is due. */
    method ProbeExecutors(joined: nat, speculate: bool, slow: set<RuntimeId>)
      requires Valid() && CacheOK()
      modifies this, executors
      ensures Valid() && CacheOK() && Extended()
      ensures View() == ProbeRound(plan, old(View()), joined, speculate, slow)
    {
      ghost var before := View();
      ProbeAll(joined);
      ProbeThenSpeculate(plan, before, joined, slow);
      if speculate { StartSpeculativeExecution(slow); }
    }

    method ProbeAll(joined: nat)
      requires Valid() && CacheOK()
      modifies `executors, `probeEpoch, `goodCache, `aliveCache, executors
      ensures Valid() && CacheOK() && Extended()
      ensures View() == ProbeRound(plan, old(View()), joined, false, {})
    {
      DiscoverAndProbe(joined);
    }

    /** New executors register, then every working executor is probed. */
    method DiscoverAndProbe(joined: nat)
      requires Valid() && CacheOK()
      modifies `executors, `probeEpoch, `goodCache, `aliveCache, executors
      ensures Valid() && CacheOK() && Extended()
      ensures Views(executors) == Sched.SendProbes(old(Views(executors))
          + seq(joined, i => NewExecutor(old(probeEpoch))), old(probeEpoch) + 1)
      ensures probeEpoch == old(probeEpoch) + 1
    {
      var next := probeEpoch + 1;
      AddExecutors(joined, probeEpoch);
      ghost var all := Views(executors);
      SendProbes(next);
      SameListed(goodCache, aliveCache, all, Views(executors));
      assert Views(executors) == Sched.SendProbes(all, next);
      probeEpoch := next;
    }

    // -------------------------------------------------------------- executor states

    method RescheduleWorks(works: seq<Running>)
      modifies `localQueue, `schedQueue, `scheduled, `error, `master
      ensures View() == RescheduleAll(plan, old(View()), works)
    {
      var i := 0;
      while i < |works|
        invariant i <= |works| && RescheduleAll(plan, View(), works[i..]) == RescheduleAll(plan, old(View()), works)
      {
        assert works[i..][1..] == works[i + 1..];
        if works[i].TaskItem? && works[i].task.rid.id !in succeeded { RetryTask(works[i].task.rid.id); }
        i := i + 1;
      }
    }

    /** A remote executor that is alive; the tasks of one that fails are rescheduled. */
    method UpdateAlive(i: nat) returns (changed: bool)
      requires Valid() && i < |executors| && !executors[i].local && executors[i].View().Alive()
      modifies `localQueue, `schedQueue, `scheduled, `error, `master, executors
      ensures View() == UpdateExecutor(plan, old(View()), i)
      ensures forall k :: 0 <= k < |executors| && k != i ==> executors[k].View() == old(executors[k].View())
      ensures !changed ==> SameLists(old(Views(executors)), Views(executors))
    {
      ghost var before := View();
      changed := UpdateHandle(i);
      UpdateExecutorIs(plan, before, View(), i);
      var works := executors[i].running;
      if executors[i].state == Fail { RescheduleWorks(works); }
    }

    method UpdateHandle(i: nat) returns (changed: bool)
      requires Valid() && i < |executors|
      modifies executors
      ensures executors[i].View() == old(executors[i].View()).UpdateState(probeEpoch, plan.cfg.maxMissed)
      ensures View() == old(View()).(execs := old(View()).execs[i := executors[i].View()])
      ensures !changed ==> SameLists(old(Views(executors)), Views(executors))
    {
      changed := executors[i].UpdateState(probeEpoch, plan.cfg.maxMissed);
    }

    /** `update_executor_states`: over the cached list of alive executors. The lists are dropped when some state has
        changed. */
    method UpdateExecutorStates()
      requires Valid() && CacheOK()
      modifies `localQueue, `schedQueue, `scheduled, `error, `master, `goodCache, `aliveCache, executors
      ensures CacheOK() && View() == UpdateExecutors(plan, old(View()), 0)
    {
      var alive := AliveExecutors();
      ghost var before := Views(executors);
      var changed := UpdateEach(alive);
      KeepLists(!changed, before);
    }

    /** `clear_cached_executor_lists`, unless the lists may be kept. */
    method KeepLists(keep: bool, ghost before: seq<Executor>)
      requires keep ==> Listed(goodCache, aliveCache, before) && SameLists(before, Views(executors))
      modifies `goodCache, `aliveCache
      ensures CacheOK() && View() == old(View())
    {
      if keep {
        SameListed(goodCache, aliveCache, before, Views(executors));
      } else {
        goodCache, aliveCache := None, None;
      }
    }

    method UpdateEach(alive: seq<nat>) returns (changed: bool)
      requires Valid() && alive == AliveFrom(Views(executors), 0)
      modifies `localQueue, `schedQueue, `scheduled, `error, `master, executors
      ensures View() == UpdateExecutors(plan, old(View()), 0)
      ensures changed || SameLists(old(Views(executors)), Views(executors))
    {
      changed := false;
      var i := 0;
      while i < |executors|
        invariant i <= |executors| && UpdateExecutors(plan, View(), i) == UpdateExecutors(plan, old(View()), 0)
        invariant forall k :: i <= k < |executors| ==> (IsAlive(executors[k].View()) <==> k in alive)
        invariant changed || SameLists(old(Views(executors)), Views(executors))
      {
        if i in alive {
          ghost var before := Views(executors);
          var moved := UpdateAlive(i);
          if !changed && !moved { SameListsTransitive(old(Views(executors)), before, Views(executors)); }
          changed := changed || moved;
        }
        i := i + 1;
      }
    }

    // -------------------------------------------------------------- the local queue

    /** Push the local queue to the local executor; items it already runs stay. */
    method PushLocalTasks()
      requires Valid() && |executors| > 0
      modifies `localQueue, `error, executors
      ensures View() == PushLocalQueue(old(View()))
    {
      if localQueue != [] && !executors[0].View().Alive() { Raise(LocalStopped); }
      ghost var before := Views(executors);
      localQueue := PushTasks(executors[0], localQueue);
      assert Views(executors) == before[0 := executors[0].View()];
    }

    /** Push tasks to one executor; the result is what stays in the queue. */
    method PushTasks(e: RemoteExecutor, queue: seq<Task>) returns (kept: seq<Task>)
      modifies e
      ensures (e.View(), kept) == PushLocal(old(e.View()), queue)
    {
      kept := [];
      var rest := queue;
      while rest != []
        invariant PushLocal(e.View(), rest).0 == PushLocal(old(e.View()), queue).0
        invariant kept + PushLocal(e.View(), rest).1 == PushLocal(old(e.View()), queue).1
        decreases |rest|
      {
        var pushed := e.Push(TaskItem(rest[0]));
        if !pushed { kept := kept + [rest[0]]; }
        rest := rest[1..];
      }
      assert kept + [] == kept;
    }

    // -------------------------------------------------------------- dispatch

    /** One executor of a pass: skip a task that has succeeded, assign the task, or leave it. */
    method OfferTo(i: nat, final: bool) returns (left: bool)
      requires Valid() && i < |executors| && schedQueue != []
      modifies `localQueue, `schedQueue, `scheduled, `error, executors
      ensures View() == Offer(plan, old(View()), i, final).0 && left == Offer(plan, old(View()), i, final).1
    {
      var e := executors[i];
      var t := WithMemory(e.View(), schedQueue[0]);
      if t.rid.id in succeeded {
        schedQueue := schedQueue[1..];
        if t.rid.id in plan.tasks {
          var ks := GetRunnableTasks(t.rid.id);
          TryEnqueue(ks);
        } else {
          Raise(UnknownTask);
        }
        left := true;
      } else if e.View().Admits(t) {
        var u := if final then Boost(plan, e.View(), t) else t;
        var pushed := e.Push(TaskItem(u));
        schedQueue := schedQueue[1..];
        assert Views(executors) == old(Views(executors))[i := e.View()];
        left := true;
      } else {
        schedQueue := [t] + schedQueue[1..];
        left := false;
      }
    }

    /** One pass over the usable executors. */
    method AssignRound(order: seq<nat>, final: bool) returns (left: bool)
      requires Valid() && forall j :: j in order ==> j < |executors|
      modifies `localQueue, `schedQueue, `scheduled, `error, executors
      ensures View() == Round(plan, old(View()), order, final).0 && left == Round(plan, old(View()), order, final).1
    {
      left := false;
      var rest: seq<nat> := order;
      while rest != [] && schedQueue != []
        invariant forall j :: j in rest ==> j < |executors|
        invariant Round(plan, View(), rest, final).0 == Round(plan, old(View()), order, final).0
        invariant (left || Round(plan, View(), rest, final).1) == Round(plan, old(View()), order, final).1
        decreases |rest|
      {
        assert rest[0] in rest && forall j :: j in rest[1..] ==> j in rest;
        var gone := OfferTo(rest[0], final);
        left := left || gone;
        rest := rest[1..];
      }
    }

    /** The good executors that are not busy, those with fewer works first. */
    method UsableExecutors() returns (order: seq<nat>)
      requires CacheOK()
      modifies `goodCache
      ensures CacheOK() && View() == old(View()) && order == UsableExecs(Views(executors))
    {
      var good := GoodExecutors();
      UsableIsNotBusy(Views(executors), 0);
      order := SortExecs(Views(executors), NotBusy(Views(executors), good));
    }

    /** One pass over the executors that are usable now. */
    method AssignUsable(final: bool) returns (left: bool)
      requires Valid() && CacheOK()
      modifies `localQueue, `schedQueue, `scheduled, `error, `goodCache, executors
      ensures CacheOK() && (View(), left) == Round(plan, old(View()), UsableExecs(old(View()).execs), final)
    {
      ghost var before := View();
      var order := UsableExecutors();
      left := AssignRound(order, final);
      RoundSameLists(plan, before, order, final);
      SameListed(goodCache, aliveCache, before.execs, Views(executors));
    }

    /** A pass, and the task that no executor took is set aside. */
    method AssignPass(aside: seq<Task>, final: bool) returns (aside': seq<Task>)
      requires Valid() && CacheOK() && schedQueue != [] && GoodCount(Views(executors)) != 0
      modifies `localQueue, `schedQueue, `scheduled, `error, `goodCache, executors
      ensures CacheOK() && (View(), aside') == Pass(plan, old(View()), aside, final)
    {
      aside' := aside;
      var left := AssignUsable(final);
      if schedQueue != [] && !left {
        aside' := aside + [schedQueue[0]];
        schedQueue := schedQueue[1..];
      }
    }

    method IsFinalPhase() returns (final: bool)
      requires CacheOK()
      modifies `goodCache, `aliveCache
      ensures CacheOK() && View() == old(View()) && final == FinalPhase(plan, View())
    {
      var n := NumRunningWorks();
      var good := GoodExecutors();
      final := PendingNontrivial(plan, View()) - n <= |good| * 2;
    }

    /** `dispatch_tasks`. */
    method DispatchAll()
      requires Valid() && CacheOK()
      modifies `localQueue, `schedQueue, `scheduled, `error, `goodCache, `aliveCache, executors
      ensures CacheOK() && View() == DispatchTasks(plan, old(View()))
    {
      schedQueue := Reorder(plan.cfg, schedQueue);
      var final := IsFinalPhase();
      AssignQueue(final);
    }

    /** Assign what can be assigned, then put back what was set aside. */
    method AssignQueue(final: bool)
      requires Valid() && CacheOK()
      modifies `localQueue, `schedQueue, `scheduled, `error, `goodCache, executors
      ensures CacheOK() && View() == Assign(plan, old(View()), [], final)
    {
      var aside := AssignLoop(final);
      AssignEnds(plan, View(), aside, final);
      schedQueue := schedQueue + aside;
    }

    /** Passes until the queue or the good executors run out. */
    method AssignLoop(final: bool) returns (aside: seq<Task>)
      requires Valid() && CacheOK()
      modifies `localQueue, `schedQueue, `scheduled, `error, `goodCache, executors
      ensures CacheOK() && Finished(plan, old(View()), View(), aside, final)
    {
      ghost var start := View();
      aside := [];
      var good := GoodExecutors();
      while schedQueue != [] && good != []
        invariant CacheOK() && |good| == GoodCount(View().execs) && SameOutcome(plan, start, View(), aside, final)
        decreases |Unscheduled(plan, View())|, |schedQueue|
      {
        AssignContinues(plan, View(), aside, final);
        aside := AssignPass(aside, final);
        good := GoodExecutors();
      }
    }

    /** Stop one idle executor when there are more good executors than tasks left. */
    method StopIdleExecutor()
      requires Valid() && CacheOK()
      modifies executors, `goodCache
      ensures CacheOK() && View() == StopIdle(plan, old(View()))
    {
      if schedQueue == [] {
        var good := GoodExecutors();
        if PendingNontrivial(plan, View()) + 1 < |good| {
          ghost var before := Views(executors);
          StopOneIdle();
          StopFirstSameLists(before);
          SameListed(goodCache, aliveCache, before, Views(executors));
        }
      }
    }

    method StopOneIdle()
      requires Valid()
      modifies executors
      ensures Views(executors) == StopFirstIdle(old(Views(executors)))
    {
      var i := 0;
      while i < |executors| && !(IsGood(executors[i].View()) && executors[i].running == [])
        invariant i <= |executors|
        invariant forall k :: 0 <= k < i ==> !(IsGood(executors[k].View()) && executors[k].running == [])
      {
        i := i + 1;
      }
      ghost var before := Views(executors);
      StopFirstIdleIs(before, i);
      if i < |executors| {
        executors[i].Stop();
        assert Views(executors) == before[i := before[i].Stop()];
      }
    }

    // -------------------------------------------------------------- finished tasks

    method StopExecutors()
      requires Valid()
      modifies executors
      ensures Views(executors) == StopAll(old(Views(executors)))
    {
      var i := 0;
      while i < |executors|
        invariant i <= |executors|
        invariant forall k :: 0 <= k < |executors| ==>
                    executors[k].View() == if k < i then old(executors[k].View()).Stop() else old(executors[k].View())
      {
        executors[i].Stop();
        i := i + 1;
      }
    }

    /** `stop_running_tasks`. */
    method StopRunningTasks(k: nat)
      requires Valid()
      modifies executors
      ensures Views(executors) == StopRunning(old(Views(executors)), k)
    {
      var i := 0;
      while i < |executors|
        invariant i <= |executors|
        invariant forall j :: 0 <= j < |executors| ==>
                    executors[j].View() == if j < i then StopWorkOn(old(executors[j].View()), k)
                        else old(executors[j].View())
      {
        var e := executors[i];
        if !e.local && e.View().Has(TaskKey(k)) { e.Send(StopWork(k)); }
        i := i + 1;
      }
    }

    method TaskFailed(i: nat, d: Done)
      requires Valid() && d.rid.id in master && i < |executors|
      modifies `localQueue, `schedQueue, `scheduled, `error, `master, `running, executors
      ensures View() == FailTask(plan, old(View()), i, d)
    {
      CountFailure(i, d);
      RetryTask(d.rid.id);
    }

    method CountFailure(i: nat, d: Done)
      requires Valid() && d.rid.id in master && i < |executors|
      modifies `master, `running, executors
      ensures View() == NoteFailure(plan, old(View()), i, d)
    {
      var k := d.rid.id;
      var e := executors[i];
      var m := master[k].(fails := master[k].fails + 1);
      if !e.local && d.oom {
        if m.limits.baseMem.None? { m := m.(limits := m.limits.(baseMem := d.memory)); }
        m := m.(limits := RelaxMemory(m.limits, e.probe.memory));
      }
      if m.fails > plan.cfg.maxFail {
        StopExecutors();
        running := false;
      }
      master := master[k := m];
    }

    method TaskSucceeded(d: Done)
      requires Valid() && d.rid.id in plan.tasks && d.rid.id in master
      modifies `localQueue, `schedQueue, `scheduled, `error, `master, `succeeded, executors
      ensures View() == SucceedTask(plan, old(View()), d)
    {
      RecordSuccess(d);
      var ks := GetRunnableTasks(d.rid.id);
      TryEnqueue(ks);
      if d.rid.id == plan.root { FinishRoot(); }
    }

    method FinishRoot()
      requires Valid()
      modifies `schedQueue, executors
      ensures View() == old(View()).(schedQueue := [], execs := StopAll(old(View()).execs))
    {
      schedQueue := [];
      StopExecutors();
    }

    method RecordSuccess(d: Done)
      requires Valid() && d.rid.id in master
      modifies `master, `succeeded, executors
      ensures View() == Recorded(old(View()), d)
    {
      var k := d.rid.id;
      succeeded := succeeded[k := d.rid];
      StopRunningTasks(k);
      master := master[k := master[k].(status := Succeed, retry := d.rid.retry, epoch := d.rid.epoch)];
    }

    /** One completion, in the order of the checks of the source. */
    method ProcessOneTask(i: nat, d: Done)
      requires Valid() && i < |executors|
      modifies `localQueue, `schedQueue, `scheduled, `error, `master, `succeeded, `finished, `running, executors
      ensures View() == ProcessOne(plan, old(View()), i, d)
    {
      var k := d.rid.id;
      if k !in plan.tasks || k !in master {
        Raise(UnknownTask);
        return;
      }
      if d.rid !in scheduled && d.status != Succeed && !Ready(plan, View(), k) { return; }
      if d.status == Incomplete { return; }
      if d.rid in finished { return; }
      finished := finished + {d.rid};
      if k in succeeded { return; }
      if d.status == Failed || d.status == Crashed {
        TaskFailed(i, d);
      } else {
        if d.status != Succeed { Raise(UnexpectedStatus); }
        TaskSucceeded(d);
      }
    }

    /** The completions of one executor. */
    method PopOne(i: nat, replies: seq<Reply>) returns (popped: seq<Popped>)
      requires Valid() && i < |executors|
      modifies executors
      ensures Views(executors) == old(Views(executors))[i := ReceiveAll(old(executors[i].View()), replies)]
      ensures popped == TaggedDone(i, replies)
    {
      var ds := executors[i].Pop(replies);
      popped := seq(|ds|, j requires 0 <= j < |ds| => Popped(i, ds[j]));
    }

    /** One pass of the loop over the executors. */
    method PopNext(i: nat, replies: seq<seq<Reply>>, ghost before: seq<Executor>) returns (popped: seq<Popped>)
      requires Valid() && i < |executors| && Halfway(before, Views(executors), PopExecs(before, replies), i)
      modifies executors
      ensures Halfway(before, Views(executors), PopExecs(before, replies), i + 1)
      ensures popped == TaggedDone(i, RepliesOf(replies, i))
    {
      ghost var now := Views(executors);
      popped := PopOne(i, RepliesOf(replies, i));
      HalfwayNext(before, now, PopExecs(before, replies), i);
    }

    /** Pop every completion queue; the completions are processed afterwards. */
    method PopAll(replies: seq<seq<Reply>>) returns (pend: seq<Popped>)
      requires Valid()
      modifies executors
      ensures Views(executors) == PopExecs(old(Views(executors)), replies)
      ensures pend == PopTasks(|executors|, replies, 0)
    {
      pend := [];
      ghost var before := Views(executors);
      var i := 0;
      while i < |executors|
        invariant i <= |executors| == |before| && pend + PopTasks(|executors|, replies, i)
            == PopTasks(|executors|, replies, 0)
        invariant Halfway(before, Views(executors), PopExecs(before, replies), i)
      {
        var popped := PopNext(i, replies, before);
        PopTasksNext(|executors|, replies, i, pend);
        pend := pend + popped;
        i := i + 1;
      }
      HalfwayAll(before, Views(executors), PopExecs(before, replies));
    }

    /** `process_finished_tasks`. */
    method ProcessFinishedTasks(replies: seq<seq<Reply>>)
      requires Valid()
      modifies `localQueue, `schedQueue, `scheduled, `error, `master, `succeeded, `finished, `running, executors
      ensures View() == ProcessFinished(plan, old(View()), replies)
    {
      var rest := PopAll(replies);
      while rest != [] && rest[0].exec < |executors|
        invariant ProcessAll(plan, View(), rest) == ProcessFinished(plan, old(View()), replies)
        decreases |rest|
      {
        ProcessOneTask(rest[0].exec, rest[0].done);
        rest := rest[1..];
      }
    }

    // -------------------------------------------------------------- the loop

    /** A probe round when it is due, then the executor states. */
    method UpdateAll(inp: Input)
      requires Valid() && CacheOK()
      modifies this, executors
      ensures Valid() && CacheOK() && Extended()
      ensures View() == Updated(plan, old(View()), inp)
    {
      if inp.probe { ProbeExecutors(inp.joined, inp.speculate, inp.slow); }
      UpdateExecutorStates();
    }

    /** Local queue, dispatch, idle executor. */
    method AssignAll()
      requires Valid() && CacheOK() && executors != [] && executors[0].local
      modifies `localQueue, `schedQueue, `scheduled, `error, `goodCache, `aliveCache, executors
      ensures CacheOK() && View() == StopIdle(plan, DispatchTasks(plan, PushLocalQueue(old(View()))))
    {
      ghost var before := View();
      PushLocalTasks();
      PushLocalSame(before.execs[0], before.localQueue);
      SameListed(goodCache, aliveCache, before.execs, Views(executors));
      DispatchAll();
      StopIdleExecutor();
    }

    method IsIdle() returns (idle: bool)
      requires CacheOK()
      modifies `aliveCache
      ensures CacheOK() && View() == old(View()) && idle == Idle(View())
    {
      idle := false;
      if schedQueue == [] && localQueue == [] {
        var n := NumRunningWorks();
        idle := n == 0;
      }
    }

    /** The idle test, then the finished tasks. */
    method SettleAll(replies: seq<seq<Reply>>)
      requires Valid() && CacheOK()
      modifies `localQueue, `schedQueue, `scheduled, `error, `master, `succeeded, `finished, `running, `aliveCache,
          executors
      ensures CacheOK() && View() == Settle(plan, old(View()), replies)
    {
      var idle := IsIdle();
      SettleSameLists(plan, View(), replies);
      SameListed(goodCache, aliveCache, Views(executors), Settle(plan, View(), replies).execs);
      SettleAs(idle, replies);
    }

    method SettleAs(idle: bool, replies: seq<seq<Reply>>)
      requires Valid() && idle == Idle(View())
      modifies `localQueue, `schedQueue, `scheduled, `error, `master, `succeeded, `finished, `running, executors
      ensures View() == Settle(plan, old(View()), replies)
    {
      if idle {
        if !(plan.tasks <= succeeded.Keys) { Raise(StuckIdle); }
        running := false;
      } else {
        ProcessFinishedTasks(replies);
      }
    }

    /** One iteration of `sched_loop`. */
    method RunOnce(inp: Input)
      requires Valid() && CacheOK() && executors != [] && executors[0].local
      modifies this, executors
      ensures Valid() && CacheOK() && Extended()
      ensures View() == Iterate(plan, old(View()), inp)
    {
      UpdateAll(inp);
      AssignAndSettle(inp.replies);
    }

    method AssignAndSettle(replies: seq<seq<Reply>>)
      requires Valid() && CacheOK() && executors != [] && executors[0].local
      modifies `localQueue, `schedQueue, `scheduled, `error, `master, `succeeded, `finished, `running, `goodCache,
          `aliveCache, executors
      ensures CacheOK() && View() == Settle(plan, StopIdle(plan, DispatchTasks(plan, PushLocalQueue(old(View())))),
          replies)
    {
      AssignAll();
      SettleAll(replies);
    }

    /** `sched_loop`, for the given choices of the environment. */
    method SchedLoop(inputs: seq<Input>)
      requires Valid() && CacheOK() && executors != [] && executors[0].local
      modifies this, executors
      ensures Valid() && CacheOK() && View() == Run(plan, old(View()), inputs)
    {
      var rest := inputs;
      while rest != [] && running && error.None?
        invariant Valid() && CacheOK() && Extended()
        invariant Run(plan, View(), rest) == Run(plan, old(View()), inputs)
        decreases |rest|
      {
        RunOnce(rest[0]);
        rest := rest[1..];
      }
    }
  }

  /** A first run of a plan: as long as the environment is fair, no assertion fails, the loop is never stuck, and a
      lookup misses exactly when a task succeeds that names a consumer outside the plan; once the root has succeeded
      everything has, and the loop ends only with all tasks succeeded or one failed too often. `ks` lists the tasks of
      the plan. */
  method RunPlan(plan: Plan, limits: map<nat, Limits>, probe: ProbeAck, ks: seq<nat>, inputs: seq<Input>)
          returns (s: Scheduler)
    requires forall k :: k in plan.tasks ==> k in ks
    requires FairRun(plan, Start(plan, limits, Executor(true, [], Good, probe, false, false, 0, 0.0, 0, []), ks),
        inputs)
    ensures s.error == None || s.error == Some(UnknownConsumer)
    ensures s.error == None <==> forall k :: k in s.succeeded ==> Contained(plan, k)
    ensures plan.root in s.succeeded ==> plan.tasks <= s.succeeded.Keys
    ensures !s.running ==> plan.tasks <= s.succeeded.Keys || TooManyFailures(plan, s.View())
    ensures forall k :: k in plan.tasks && k !in s.succeeded && Ready(plan, s.View(), k) ==>
      Queued(s.View(), k) || Runs(s.View().execs, k)
  {
    var local := new RemoteExecutor.Local(probe);
    ghost var handle := local.View();
    s := new Scheduler(plan, limits, local);
    s.TryEnqueue(Leaves(plan, ks));
    s.SchedLoop(inputs);
    assert Reachable(plan, s.View(), limits, handle, ks, inputs);
    forall k ensures k in plan.tasks && k !in s.succeeded && Ready(plan, s.View(), k) ==>
        Queued(s.View(), k) || Runs(s.View().execs, k) {
      NothingLost(plan, s.View(), limits, handle, ks, inputs, k);
    }
    NothingLost(plan, s.View(), limits, handle, ks, inputs, 0);
    if plan.root in s.succeeded { RootSuccessMeansAll(plan, s.View(), limits, handle, ks, inputs); }
    if !s.running { EndMeansDoneOrFailed(plan, s.View(), limits, handle, ks, inputs); }
  }

  lemma ProbeThenSpeculate(p: Plan, s: State, joined: nat, slow: set<RuntimeId>)
    ensures ProbeRound(p, s, joined, true, slow) == Speculate(p, ProbeRound(p, s, joined, false, {}), 0, slow)
    ensures ProbeRound(p, s, joined, false, slow) == ProbeRound(p, s, joined, false, {})
  {
  }

  lemma UpdateExecutorIs(p: Plan, s: State, s1: State, i: nat)
    requires i < |s.execs| && !s.execs[i].local && s.execs[i].Alive()
    requires s1 == s.(execs := s.execs[i := s.execs[i].UpdateState(s.probeEpoch, p.cfg.maxMissed)])
    ensures UpdateExecutor(p, s, i) == if s1.execs[i].state == Fail then RescheduleAll(p, s1, s1.execs[i].running)
        else s1
  {
  }

  /** The first i executors have been treated. */
  ghost predicate Halfway(before: seq<Executor>, now: seq<Executor>, after: seq<Executor>, i: nat) {
    |before| == |now| == |after| && forall k :: 0 <= k < |now| ==> now[k] == if k < i then after[k] else before[k]
  }

  lemma PopTasksNext(n: nat, replies: seq<seq<Reply>>, i: nat, pend: seq<Popped>)
    requires i < n
    ensures (pend + TaggedDone(i, RepliesOf(replies, i))) + PopTasks(n, replies, i + 1) == pend
        + PopTasks(n, replies, i)
  {
  }

  lemma HalfwayNext(before: seq<Executor>, now: seq<Executor>, after: seq<Executor>, i: nat)
    requires i < |before| && Halfway(before, now, after, i)
    ensures Halfway(before, now[i := after[i]], after, i + 1)
  {
  }

  lemma HalfwayAll(before: seq<Executor>, now: seq<Executor>, after: seq<Executor>)
    requires Halfway(before, now, after, |before|)
    ensures now == after
  {
  }

  /** The first idle good executor is the one that is stopped. */
  lemma {:induction false} StopFirstIdleIs(execs: seq<Executor>, i: nat)
    requires i <= |execs| && forall k :: 0 <= k < i ==> !(IsGood(execs[k]) && execs[k].running == [])
    requires i < |execs| ==> IsGood(execs[i]) && execs[i].running == []
    ensures StopFirstIdle(execs) == if i < |execs| then execs[i := execs[i].Stop()] else execs
  {
    if i > 0 {
      var rest := execs[1..];
      assert !(IsGood(execs[0]) && execs[0].running == []);
      assert forall k :: 0 <= k < i - 1 ==> rest[k] == execs[k + 1];
      StopFirstIdleIs(rest, i - 1);
      if i < |execs| {
        assert [execs[0]] + rest[i - 1 := execs[i].Stop()] == execs[i := execs[i].Stop()];
      } else {
        assert [execs[0]] + rest == execs;
      }
    } else if i < |execs| {
      assert [execs[0].Stop()] + execs[1..] == execs[0 := execs[0].Stop()];
    }
  }

  ghost predicate SameOutcome(p: Plan, s: State, s': State, aside: seq<Task>, final: bool) {
    Assign(p, s', aside, final) == Assign(p, s, [], final)
  }

  ghost predicate Finished(p: Plan, s: State, s': State, aside: seq<Task>, final: bool) {
    SameOutcome(p, s, s', aside, final) && (s'.schedQueue == [] || GoodCount(s'.execs) == 0)
  }
}
