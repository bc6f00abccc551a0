/** The phases of the scheduling loop keep the invariant. */
module SchedSteps {
  import opened WorkItems
  import opened Executors
  import opened Plans
  import opened Sched
  import opened SchedInvariants

  // ---------------------------------------------------------------- changing executors

  /** e' can stand where e stood. */
  ghost predicate CanReplace(s: State, e: Executor, e': Executor) { e'.local == e.local && ExecOK(s, e') }

  lemma ReplaceExecs(p: Plan, s: State, execs: seq<Executor>)
    requires Base(p, s) && |s.execs| <= |execs|
    requires forall i :: 0 <= i < |s.execs| ==> CanReplace(s, s.execs[i], execs[i])
    requires forall i :: |s.execs| <= i < |execs| ==> !execs[i].local && ExecOK(s, execs[i])
    ensures Base(p, s.(execs := execs))
  {
    var r := s.(execs := execs);
    ScheduledFrame(p, s, r);
    ClosedFrame(p, s, r);
    QueuesSame(s, r);
    forall i | 0 <= i < |r.execs| ensures ExecOK(r, r.execs[i]) {
      assert ExecOK(s, execs[i]);
      assert RunningOK(r, execs[i]) by {
        assert forall t :: IsScheduled(s, t) ==> IsScheduled(r, t);
      }
    }
    assert Shape(p, r) by {
      assert CanReplace(s, s.execs[0], execs[0]);
      forall i | 0 < i < |execs| ensures !execs[i].local {
        if i < |s.execs| { assert CanReplace(s, s.execs[i], execs[i]); }
      }
    }
  }

  lemma ReplaceOne(p: Plan, s: State, i: nat, e: Executor)
    requires Base(p, s) && i < |s.execs| && CanReplace(s, s.execs[i], e)
    ensures Base(p, s.(execs := s.execs[i := e]))
  {
    var execs := s.execs[i := e];
    forall j | 0 <= j < |s.execs| ensures CanReplace(s, s.execs[j], execs[j]) {
      assert ExecOK(s, s.execs[j]);
    }
    ReplaceExecs(p, s, execs);
  }

  /** Coverage survives a change of executors that stop running only excepted or succeeded tasks. */
  lemma ExecsCover(p: Plan, s: State, execs: seq<Executor>, pend: seq<Popped>, pend': seq<Popped>, except: set<nat>,
          except': set<nat>)
    requires Covered(p, s, pend, except)
    requires except <= except'
    requires forall k :: k !in s.succeeded && k !in except' && Runs(s.execs, k) ==> Runs(execs, k) || Pending(pend', k)
    requires forall k :: k !in s.succeeded && k !in except' && Pending(pend, k) ==> Pending(pend', k)
    ensures Covered(p, s.(execs := execs), pend', except')
  {
    var r := s.(execs := execs);
    forall k | k in p.tasks && k !in r.succeeded && Ready(p, r, k) && k !in except'
      ensures Queued(r, k) || Runs(r.execs, k) || Pending(pend', k)
    {
      assert Ready(p, s, k);
      assert Queued(s, k) ==> Queued(r, k);
    }
  }

  lemma RunsAt(execs: seq<Executor>, i: nat, k: nat)
    requires i < |execs| && execs[i].Tracked() && execs[i].Has(TaskKey(k))
    ensures Runs(execs, k)
  {
  }

  // ---------------------------------------------------------------- probes and speculation

  lemma SpeculateOneKeeps(p: Plan, s: State, w: Running, slow: set<RuntimeId>)
    requires Inv(p, s) && (w.TaskItem? ==> IsScheduled(s, w.task))
    ensures Inv(p, SpeculateOne(p, s, w, slow)) && Records(s, SpeculateOne(p, s, w, slow))
  {
    if Speculates(p, s, w, slow) {
      var k := w.task.rid.id;
      assert ReadsSucceeded(p, s, w.task.rid.id, s.scheduled[w.task.rid].inputs);
      RetryCovers(p, s, k, [], {});
      RetryIsEnqueue(p, s, k);
      assert {} - {k} == {};
    }
  }

  lemma {:induction false} SpeculateAllKeeps(p: Plan, s: State, works: seq<Running>, slow: set<RuntimeId>)
    requires Inv(p, s) && forall i :: 0 <= i < |works| && works[i].TaskItem? ==> IsScheduled(s, works[i].task)
    ensures Inv(p, SpeculateAll(p, s, works, slow)) && Records(s, SpeculateAll(p, s, works, slow))
    decreases |works|
  {
    if works != [] {
      SpeculateOneKeeps(p, s, works[0], slow);
      SpeculateAllKeeps(p, SpeculateOne(p, s, works[0], slow), works[1..], slow);
    }
  }

  lemma {:induction false} SpeculateKeeps(p: Plan, s: State, i: nat, slow: set<RuntimeId>)
    requires Inv(p, s)
    ensures Inv(p, Speculate(p, s, i, slow)) && Records(s, Speculate(p, s, i, slow))
    decreases |s.execs| - i
  {
    if i < |s.execs| {
      var e := s.execs[i];
      assert ExecOK(s, e);
      if !e.local && e.Working() {
        SpeculateAllKeeps(p, s, e.running, slow);
        SpeculateKeeps(p, SpeculateAll(p, s, e.running, slow), i + 1, slow);
      } else {
        SpeculateKeeps(p, s, i + 1, slow);
      }
    }
  }

  lemma SendProbeKeeps(s: State, e: Executor, epoch: nat)
    requires ExecOK(s, e)
    ensures CanReplace(s, e, SendProbe(e, epoch))
  {
    assert forall w :: w in SendProbe(e, epoch).wq && w.StopWork? ==> w in e.wq;
  }

  lemma JoinKeeps(p: Plan, s: State, execs: seq<Executor>, epoch: nat, joined: nat)
    requires Inv(p, s) && |execs| == |s.execs| + joined
    requires forall i :: 0 <= i < |s.execs| ==> execs[i] == SendProbe(s.execs[i], epoch)
    requires forall i :: |s.execs| <= i < |execs| ==> execs[i] == SendProbe(NewExecutor(s.probeEpoch), epoch)
    ensures Inv(p, s.(execs := execs))
  {
    forall i | 0 <= i < |s.execs| ensures CanReplace(s, s.execs[i], execs[i]) {
      assert ExecOK(s, s.execs[i]);
      SendProbeKeeps(s, s.execs[i], epoch);
    }
    ReplaceExecs(p, s, execs);
    forall k | Runs(s.execs, k) ensures Runs(execs, k) {
      var i :| 0 <= i < |s.execs| && s.execs[i].Tracked() && s.execs[i].Has(TaskKey(k));
      RunsAt(execs, i, k);
    }
    ExecsCover(p, s, execs, [], [], {}, {});
  }

  lemma EpochKeeps(p: Plan, s: State, epoch: nat)
    requires Inv(p, s)
    ensures Inv(p, s.(probeEpoch := epoch))
  {
    var r := s.(probeEpoch := epoch);
    ScheduledFrame(p, s, r);
    ClosedFrame(p, s, r);
    QueuesSame(s, r);
    ExecsFrame(s, r);
    forall k | k in p.tasks && k !in r.succeeded && Ready(p, r, k) ensures Queued(r, k) || Runs(r.execs, k) {
      assert Ready(p, s, k);
    }
  }

  lemma ProbedKeeps(p: Plan, s: State, joined: nat, slow: set<RuntimeId>)
    requires Inv(p, s)
    ensures Inv(p, ProbeRound(p, s, joined, false, slow)) && Extends(s, ProbeRound(p, s, joined, false, slow))
  {
    var execs := ProbeRound(p, s, joined, false, slow).execs;
    JoinedKeeps(p, s, joined, slow);
    EpochKeeps(p, s.(execs := execs), s.probeEpoch + 1);
  }

  lemma JoinedKeeps(p: Plan, s: State, joined: nat, slow: set<RuntimeId>)
    requires Inv(p, s)
    ensures Inv(p, s.(execs := ProbeRound(p, s, joined, false, slow).execs))
  {
    var all := s.execs + seq(joined, i => NewExecutor(s.probeEpoch));
    JoinKeeps(p, s, SendProbes(all, s.probeEpoch + 1), s.probeEpoch + 1, joined);
  }

  lemma ProbeRoundKeeps(p: Plan, s: State, joined: nat, speculate: bool, slow: set<RuntimeId>)
    requires Inv(p, s)
    ensures Inv(p, ProbeRound(p, s, joined, speculate, slow)) && Extends(s, ProbeRound(p, s, joined, speculate, slow))
  {
    var s1 := ProbeRound(p, s, joined, false, slow);
    ProbedKeeps(p, s, joined, slow);
    SpeculateKeeps(p, s1, 0, slow);
    assert speculate ==> ProbeRound(p, s, joined, true, slow) == Speculate(p, s1, 0, slow);
  }

  // ---------------------------------------------------------------- executor states

  ghost function TaskIds(works: seq<Running>): set<nat> {
    set i | 0 <= i < |works| && works[i].TaskItem? :: works[i].task.rid.id
  }

  lemma TaskIdsFirst(works: seq<Running>)
    requires works != []
    ensures TaskIds(works) == TaskIds(works[1..]) + FirstId(works[0])
  {
    assert forall i :: 0 <= i < |works[1..]| ==> works[1..][i] == works[i + 1];
    assert forall i :: 0 < i < |works| ==> works[i] == works[1..][i - 1];
  }

  /** Treating the first work, then the rest, treats them all. */
  lemma TreatedFirst(works: seq<Running>, except: set<nat>)
    requires works != []
    ensures (except - FirstId(works[0])) - TaskIds(works[1..]) == except - TaskIds(works)
  {
    TaskIdsFirst(works);
  }

  ghost function FirstId(w: Running): set<nat> { if w.TaskItem? then {w.task.rid.id} else {} }

  lemma RecordsTransitive(s: State, r: State, u: State)
    requires Records(s, r) && Records(r, u)
    ensures Records(s, u)
  {
  }

  lemma StillScheduled(s: State, r: State, works: seq<Running>)
    requires Records(s, r) && works != []
    requires forall i :: 0 <= i < |works| && works[i].TaskItem? ==> IsScheduled(s, works[i].task)
    ensures forall i :: 0 <= i < |works[1..]| && works[1..][i].TaskItem? ==> IsScheduled(r, works[1..][i].task)
  {
    assert forall i :: 0 <= i < |works[1..]| ==> works[1..][i] == works[i + 1];
  }

  lemma {:induction false} RescheduleAllKeeps(p: Plan, s: State, works: seq<Running>, except: set<nat>)
    requires Base(p, s) && Covered(p, s, [], except)
    requires forall i :: 0 <= i < |works| && works[i].TaskItem? ==> IsScheduled(s, works[i].task)
    ensures Base(p, RescheduleAll(p, s, works)) && Records(s, RescheduleAll(p, s, works))
    ensures Covered(p, RescheduleAll(p, s, works), [], except - TaskIds(works))
    decreases |works|
  {
    if works != [] {
      var s1 := RescheduleOne(p, s, works[0]);
      RescheduleOneKeeps(p, s, works[0], except);
      StillScheduled(s, s1, works);
      RescheduleAllKeeps(p, s1, works[1..], except - FirstId(works[0]));
      TreatedFirst(works, except);
      RecordsTransitive(s, s1, RescheduleAll(p, s1, works[1..]));
    } else {
      assert except - TaskIds(works) == except;
    }
  }

  lemma RescheduleOneKeeps(p: Plan, s: State, w: Running, except: set<nat>)
    requires Base(p, s) && Covered(p, s, [], except) && (w.TaskItem? ==> IsScheduled(s, w.task))
    ensures Base(p, RescheduleOne(p, s, w)) && Records(s, RescheduleOne(p, s, w))
    ensures Covered(p, RescheduleOne(p, s, w), [], except - FirstId(w))
  {
    assert !w.TaskItem? ==> except - FirstId(w) == except;
    if w.TaskItem? {
      var k := w.task.rid.id;
      if !s.Done(k) {
        assert ReadsSucceeded(p, s, k, s.scheduled[w.task.rid].inputs);
        RetryCovers(p, s, k, [], except);
        RetryIsEnqueue(p, s, k);
      }
    }
  }

  lemma HasIsTaskId(e: Executor, k: nat)
    ensures e.Has(TaskKey(k)) <==> k in TaskIds(e.running)
  {
    if e.Has(TaskKey(k)) {
      var i :| 0 <= i < |e.running| && e.running[i].Key() == TaskKey(k);
      assert e.running[i].TaskItem?;
    }
    if k in TaskIds(e.running) {
      var i :| 0 <= i < |e.running| && e.running[i].TaskItem? && e.running[i].task.rid.id == k;
      assert e.running[i].Key() == TaskKey(k);
    }
  }

  lemma UpdateStateKeeps(s: State, e: Executor, epoch: nat, maxMissed: nat)
    requires ExecOK(s, e) && !e.local && e.Alive()
    ensures CanReplace(s, e, e.UpdateState(epoch, maxMissed))
    ensures var e' := e.UpdateState(epoch, maxMissed);
      e'.running == e.running && (e'.Alive() || e'.state == Fail || e'.stopSent)
    ensures e.UpdateState(epoch, maxMissed).state == Stopped ==> e.stopSent
  {
  }

  lemma UpdateExecutorKeeps(p: Plan, s: State, i: nat)
    requires Inv(p, s) && s.running && i < |s.execs|
    ensures Inv(p, UpdateExecutor(p, s, i)) && UpdateExecutor(p, s, i).running && Extends(s, UpdateExecutor(p, s, i))
  {
    var e := s.execs[i];
    assert ExecOK(s, e);
    if !e.local && e.Alive() {
      var e' := e.UpdateState(s.probeEpoch, p.cfg.maxMissed);
      UpdateStateKeeps(s, e, s.probeEpoch, p.cfg.maxMissed);
      ReplaceOne(p, s, i, e');
      var s1 := s.(execs := s.execs[i := e']);
      var lost := if e'.Alive() then {} else TaskIds(e.running);
      forall k | k !in s.succeeded && k !in lost && Runs(s.execs, k) ensures Runs(s1.execs, k) {
        var j :| 0 <= j < |s.execs| && s.execs[j].Tracked() && s.execs[j].Has(TaskKey(k));
        if j != i { RunsAt(s1.execs, j, k); } else if e'.Alive() { RunsAt(s1.execs, i, k); } else { HasIsTaskId(e, k); }
      }
      ExecsCover(p, s, s1.execs, [], [], {}, lost);
      if e'.state == Fail {
        assert RunningOK(s1, e) by { assert ExecOK(s1, s1.execs[i]); }
        RescheduleAllKeeps(p, s1, e.running, lost);
        assert lost - TaskIds(e.running) == {};
      } else {
        LostSucceeded(p, s1, e, lost);
      }
    }
  }

  /** Whatever a stopped executor still ran had succeeded. */
  lemma LostSucceeded(p: Plan, s: State, e: Executor, lost: set<nat>)
    requires Covered(p, s, [], lost) && (lost == {} || OnlySucceeded(s, e)) && lost <= TaskIds(e.running)
    ensures Covered(p, s, [], {})
  {
    forall k | k in lost ensures k in s.succeeded {
      var j :| 0 <= j < |e.running| && e.running[j].TaskItem? && e.running[j].task.rid.id == k;
    }
  }

  lemma {:induction false} UpdateExecutorsKeeps(p: Plan, s: State, i: nat)
    requires Inv(p, s) && s.running
    ensures Inv(p, UpdateExecutors(p, s, i)) && UpdateExecutors(p, s, i).running && Extends(s, UpdateExecutors(p, s, i))
    decreases |s.execs| - i
  {
    if i < |s.execs| {
      UpdateExecutorKeeps(p, s, i);
      UpdateExecutorsKeeps(p, UpdateExecutor(p, s, i), i + 1);
    }
  }
}
