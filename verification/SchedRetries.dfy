/** Retry identity over whole runs: retry counts of unsucceeded tasks only grow, whatever the state and the replies. */
module SchedRetries {
  import opened WorkItems
  import opened Executors
  import opened Plans
  import opened Sched
  import opened Dispatch
  import opened SchedInvariants
  import opened SchedLoop

  ghost predicate UpTo(s: State, r: State, k: nat) {
    k in s.master && k !in r.succeeded ==> k in r.master && s.master[k].retry <= r.master[k].retry
  }

  ghost predicate RetriesGrow(s: State, r: State) {
    && r.epoch == s.epoch && s.succeeded.Keys <= r.succeeded.Keys
    && forall k {:trigger UpTo(s, r, k)} :: UpTo(s, r, k)
  }

  lemma Same(s: State, r: State)
    requires r.epoch == s.epoch && r.master == s.master && r.succeeded == s.succeeded
    ensures RetriesGrow(s, r)
  {
  }

  lemma Transitive(s: State, r: State, u: State)
    requires RetriesGrow(s, r) && RetriesGrow(r, u)
    ensures RetriesGrow(s, u)
  {
    forall k ensures UpTo(s, u, k) {
      assert UpTo(s, r, k) && UpTo(r, u, k) && (k !in u.succeeded.Keys ==> k !in r.succeeded.Keys);
    }
  }

  lemma RetryGrows(p: Plan, s: State, k: nat)
    ensures RetriesGrow(s, Retry(p, s, k))
    ensures k in s.master ==> k in Retry(p, s, k).master && Retry(p, s, k).master[k].retry == s.master[k].retry + 1
  {
  }

  lemma {:induction false} SpeculateAllGrows(p: Plan, s: State, works: seq<Running>, slow: set<RuntimeId>)
    ensures RetriesGrow(s, SpeculateAll(p, s, works, slow))
    decreases |works|
  {
    if works != [] {
      var s1 := SpeculateOne(p, s, works[0], slow);
      if Speculates(p, s, works[0], slow) { RetryGrows(p, s, works[0].task.rid.id); }
      SpeculateAllGrows(p, s1, works[1..], slow);
      Transitive(s, s1, SpeculateAll(p, s1, works[1..], slow));
    }
  }

  lemma {:induction false} SpeculateGrows(p: Plan, s: State, i: nat, slow: set<RuntimeId>)
    ensures RetriesGrow(s, Speculate(p, s, i, slow))
    decreases |s.execs| - i
  {
    if i < |s.execs| {
      var e := s.execs[i];
      var s1 := if !e.local && e.Working() then SpeculateAll(p, s, e.running, slow) else s;
      SpeculateAllGrows(p, s, e.running, slow);
      SpeculateGrows(p, s1, i + 1, slow);
      Transitive(s, s1, Speculate(p, s1, i + 1, slow));
    }
  }

  lemma {:induction false} RescheduleAllGrows(p: Plan, s: State, works: seq<Running>)
    ensures RetriesGrow(s, RescheduleAll(p, s, works))
    decreases |works|
  {
    if works != [] {
      var s1 := RescheduleOne(p, s, works[0]);
      if works[0].TaskItem? { RetryGrows(p, s, works[0].task.rid.id); }
      RescheduleAllGrows(p, s1, works[1..]);
      Transitive(s, s1, RescheduleAll(p, s1, works[1..]));
    }
  }

  lemma UpdateOneGrows(p: Plan, s: State, i: nat)
    requires i < |s.execs|
    ensures RetriesGrow(s, UpdateExecutor(p, s, i))
  {
    var s1 := s.(execs := s.execs[i := s.execs[i].UpdateState(s.probeEpoch, p.cfg.maxMissed)]);
    Same(s, s);
    Same(s, s1);
    RescheduleAllGrows(p, s1, s.execs[i].running);
    Transitive(s, s1, RescheduleAll(p, s1, s.execs[i].running));
  }

  lemma {:induction false} UpdateGrows(p: Plan, s: State, i: nat)
    ensures RetriesGrow(s, UpdateExecutors(p, s, i))
    decreases |s.execs| - i
  {
    if i < |s.execs| {
      var r := UpdateExecutor(p, s, i);
      UpdateOneGrows(p, s, i);
      UpdateGrows(p, r, i + 1);
      Transitive(s, r, UpdateExecutors(p, r, i + 1));
    }
  }

  // ---------------------------------------------------------------- dispatch leaves the masters alone

  ghost predicate SameMasters(s: State, r: State) {
    r.epoch == s.epoch && r.master == s.master && r.succeeded == s.succeeded
  }

  lemma OfferSame(p: Plan, s: State, i: nat, final: bool)
    requires i < |s.execs| && s.schedQueue != []
    ensures SameMasters(s, Offer(p, s, i, final).0) && |Offer(p, s, i, final).0.execs| == |s.execs|
  {
  }

  lemma {:induction false} RoundSame(p: Plan, s: State, order: seq<nat>, final: bool)
    requires forall j :: j in order ==> j < |s.execs|
    ensures SameMasters(s, Round(p, s, order, final).0)
    decreases |order|
  {
    if order != [] && s.schedQueue != [] {
      assert order[0] in order && forall j :: j in order[1..] ==> j in order;
      OfferSame(p, s, order[0], final);
      RoundSame(p, Offer(p, s, order[0], final).0, order[1..], final);
    }
  }

  lemma {:induction false} AssignSame(p: Plan, s: State, aside: seq<Task>, final: bool)
    ensures SameMasters(s, Assign(p, s, aside, final))
    decreases |Unscheduled(p, s)|, |s.schedQueue|
  {
    if s.schedQueue != [] && GoodCount(s.execs) != 0 {
      var (r, more) := Pass(p, s, aside, final);
      PassProgress(p, s, aside, final);
      RoundSame(p, s, UsableExecs(s.execs), final);
      AssignSame(p, r, more, final);
    }
  }

  lemma ProbeGrows(p: Plan, s: State, joined: nat, speculate: bool, slow: set<RuntimeId>)
    ensures RetriesGrow(s, ProbeRound(p, s, joined, speculate, slow))
  {
    var epoch := s.probeEpoch + 1;
    var all := s.execs + seq(joined, i => NewExecutor(s.probeEpoch));
    var s0 := s.(execs := SendProbes(all, epoch), probeEpoch := epoch);
    Same(s, s0);
    SpeculateGrows(p, s0, 0, slow);
    Transitive(s, s0, Speculate(p, s0, 0, slow));
  }

  lemma PushSame(p: Plan, s: State)
    requires s.execs != []
    ensures SameMasters(s, PushLocalQueue(s).(schedQueue := Reorder(p.cfg, s.schedQueue)))
  {
  }

  lemma DispatchSame(p: Plan, s: State)
    requires s.execs != []
    ensures SameMasters(s, StopIdle(p, DispatchTasks(p, PushLocalQueue(s))))
  {
    var s1 := PushLocalQueue(s).(schedQueue := Reorder(p.cfg, s.schedQueue));
    var r := DispatchTasks(p, PushLocalQueue(s));
    PushSame(p, s);
    AssignSame(p, s1, [], FinalPhase(p, s1));
    assert r == Assign(p, s1, [], FinalPhase(p, s1));
    StopIdleSame(p, r);
  }

  lemma StopIdleSame(p: Plan, s: State)
    ensures SameMasters(s, StopIdle(p, s))
  {
  }

  /** The phases after the probe round. */
  lemma PhasesGrow(p: Plan, s: State)
    ensures var r := UpdateExecutors(p, s, 0);
      RetriesGrow(s, if r.execs == [] then r else StopIdle(p, DispatchTasks(p, PushLocalQueue(r))))
  {
    var r := UpdateExecutors(p, s, 0);
    UpdateGrows(p, s, 0);
    if r.execs != [] {
      var u := StopIdle(p, DispatchTasks(p, PushLocalQueue(r)));
      DispatchSame(p, r);
      Same(r, u);
      Transitive(s, r, u);
    }
  }

  lemma AssignedGrows(p: Plan, s: State, inp: Input)
    ensures RetriesGrow(s, Assigned(p, s, inp))
  {
    var s1 := if inp.probe then ProbeRound(p, s, inp.joined, inp.speculate, inp.slow) else s;
    Same(s, s);
    ProbeGrows(p, s, inp.joined, inp.speculate, inp.slow);
    PhasesGrow(p, s1);
    Transitive(s, s1, Assigned(p, s, inp));
  }

  // ---------------------------------------------------------------- completions

  lemma FailGrows(p: Plan, s: State, i: nat, d: Done)
    requires d.rid.id in s.master && i < |s.execs|
    ensures RetriesGrow(s, FailTask(p, s, i, d))
  {
    var r := NoteFailure(p, s, i, d);
    RetryGrows(p, r, d.rid.id);
    forall c ensures UpTo(s, r, c) {}
    Transitive(s, r, Retry(p, r, d.rid.id));
  }

  lemma SucceedGrows(p: Plan, s: State, d: Done)
    requires d.rid.id in p.tasks && d.rid.id in s.master
    ensures RetriesGrow(s, SucceedTask(p, s, d))
  {
    forall c ensures UpTo(s, SucceedTask(p, s, d), c) {}
  }

  lemma ProcessGrows(p: Plan, s: State, i: nat, d: Done)
    requires i < |s.execs|
    ensures RetriesGrow(s, ProcessOne(p, s, i, d))
  {
    var s1 := s.(finished := s.finished + {d.rid});
    var s2 := if d.status == Succeed then s1 else s1.Fail(UnexpectedStatus);
    var r := ProcessOne(p, s, i, d);
    Same(s, s1);
    Same(s, s2);
    if d.rid.id in p.tasks && d.rid.id in s.master {
      FailGrows(p, s1, i, d);
      SucceedGrows(p, s2, d);
      Transitive(s, s1, FailTask(p, s1, i, d));
      Transitive(s, s2, SucceedTask(p, s2, d));
    }
  }

  lemma {:induction false} ProcessAllGrows(p: Plan, s: State, pend: seq<Popped>)
    ensures RetriesGrow(s, ProcessAll(p, s, pend))
    decreases |pend|
  {
    if pend != [] && pend[0].exec < |s.execs| {
      var r := ProcessOne(p, s, pend[0].exec, pend[0].done);
      ProcessGrows(p, s, pend[0].exec, pend[0].done);
      ProcessAllGrows(p, r, pend[1..]);
      Transitive(s, r, ProcessAll(p, r, pend[1..]));
    }
  }

  lemma FinishedGrows(p: Plan, s: State, replies: seq<seq<Reply>>)
    ensures RetriesGrow(s, ProcessFinished(p, s, replies))
  {
    var s1 := s.(execs := PopExecs(s.execs, replies));
    Same(s, s1);
    ProcessAllGrows(p, s1, PopTasks(|s.execs|, replies, 0));
    Transitive(s, s1, ProcessFinished(p, s, replies));
  }

  lemma SettleGrows(p: Plan, s: State, replies: seq<seq<Reply>>)
    ensures RetriesGrow(s, Settle(p, s, replies))
  {
    if Idle(s) { Same(s, Settle(p, s, replies)); } else { FinishedGrows(p, s, replies); }
  }

  lemma IterateGrows(p: Plan, s: State, inp: Input)
    ensures RetriesGrow(s, Iterate(p, s, inp))
  {
    AssignedGrows(p, s, inp);
    SettleGrows(p, Assigned(p, s, inp), inp.replies);
    Transitive(s, Assigned(p, s, inp), Iterate(p, s, inp));
  }

  lemma {:induction false} RunGrows(p: Plan, s: State, inputs: seq<Input>)
    ensures RetriesGrow(s, Run(p, s, inputs))
    decreases |inputs|
  {
    if inputs != [] && Looping(s) {
      IterateGrows(p, s, inputs[0]);
      RunGrows(p, Iterate(p, s, inputs[0]), inputs[1..]);
      Transitive(s, Iterate(p, s, inputs[0]), Run(p, s, inputs));
    } else {
      Same(s, s);
    }
  }

  // ---------------------------------------------------------------- speculation over a run

  /** The attempts that trigger a speculative retry, in order: among the works of one executor, from the i-th executor
      on, in the probe round of an iteration, in a run. */
  function TriggersOf(p: Plan, s: State, works: seq<Running>, slow: set<RuntimeId>): seq<RuntimeId>
    decreases |works|
  {
    if works == [] then [] else
      (if Speculates(p, s, works[0], slow) then [works[0].task.rid] else [])
      + TriggersOf(p, SpeculateOne(p, s, works[0], slow), works[1..], slow)
  }

  function TriggersFrom(p: Plan, s: State, i: nat, slow: set<RuntimeId>): seq<RuntimeId>
    decreases |s.execs| - i
  {
    if i >= |s.execs| then [] else
      var e := s.execs[i];
      if !e.local && e.Working()
      then TriggersOf(p, s, e.running, slow) + TriggersFrom(p, SpeculateAll(p, s, e.running, slow), i + 1, slow)
      else TriggersFrom(p, s, i + 1, slow)
  }

  function RoundTriggers(p: Plan, s: State, inp: Input): seq<RuntimeId> {
    if inp.probe && inp.speculate then TriggersFrom(p, ProbeRound(p, s, inp.joined, false, inp.slow), 0, inp.slow)
        else []
  }

  function RunTriggers(p: Plan, s: State, inputs: seq<Input>): seq<RuntimeId>
    decreases |inputs|
  {
    if inputs == [] || !Looping(s) then []
    else RoundTriggers(p, s, inputs[0]) + RunTriggers(p, Iterate(p, s, inputs[0]), inputs[1..])
  }

  /** Attempt a cannot trigger any more: its task has succeeded or has a newer attempt. */
  predicate Spent(s: State, a: RuntimeId) {
    a.id in s.succeeded || (a.id in s.master && a.retry < s.master[a.id].retry)
  }

  lemma SpentKept(s: State, r: State, a: RuntimeId)
    requires RetriesGrow(s, r) && Spent(s, a)
    ensures Spent(r, a)
  {
    assert UpTo(s, r, a.id);
  }

  /** These attempts trigger between s and r: each is fresh before and spent afterwards, so none occurs twice. */
  ghost predicate Fires(p: Plan, fired: seq<RuntimeId>, s: State, r: State) {
    && (forall i :: 0 <= i < |fired| ==>
        !Spent(s, fired[i]) && Spent(r, fired[i]) && fired[i].retry + 1 <= p.cfg.maxRetry)
    && (forall i, j :: 0 <= i < j < |fired| ==> fired[i] != fired[j])
  }

  lemma FiresBoth(p: Plan, a: seq<RuntimeId>, b: seq<RuntimeId>, s: State, r: State, u: State)
    requires Fires(p, a, s, r) && Fires(p, b, r, u) && RetriesGrow(s, r) && RetriesGrow(r, u)
    ensures Fires(p, a + b, s, u)
  {
    forall i | 0 <= i < |a| ensures Spent(u, a[i]) { SpentKept(r, u, a[i]); }
    forall i | 0 <= i < |b| ensures !Spent(s, b[i]) { if Spent(s, b[i]) { SpentKept(s, r, b[i]); } }
  }

  lemma FiresLater(p: Plan, a: seq<RuntimeId>, s: State, r: State, u: State)
    requires Fires(p, a, s, r) && RetriesGrow(r, u)
    ensures Fires(p, a, s, u)
  {
    forall i | 0 <= i < |a| ensures Spent(u, a[i]) { SpentKept(r, u, a[i]); }
  }

  lemma FiresOne(p: Plan, s: State, w: Running, slow: set<RuntimeId>)
    requires Speculates(p, s, w, slow)
    ensures Fires(p, [w.task.rid], s, SpeculateOne(p, s, w, slow)) && RetriesGrow(s, SpeculateOne(p, s, w, slow))
    ensures SpeculateOne(p, s, w, slow).master[w.task.rid.id].retry == w.task.rid.retry + 1
  {
    RetryGrows(p, s, w.task.rid.id);
  }

  lemma {:induction false} FiresAll(p: Plan, s: State, works: seq<Running>, slow: set<RuntimeId>)
    ensures Fires(p, TriggersOf(p, s, works, slow), s, SpeculateAll(p, s, works, slow))
    decreases |works|
  {
    if works != [] {
      var s1 := SpeculateOne(p, s, works[0], slow);
      var rest := TriggersOf(p, s1, works[1..], slow);
      FiresAll(p, s1, works[1..], slow);
      if Speculates(p, s, works[0], slow) {
        FiresOne(p, s, works[0], slow);
        SpeculateAllGrows(p, s1, works[1..], slow);
        FiresBoth(p, [works[0].task.rid], rest, s, s1, SpeculateAll(p, s1, works[1..], slow));
      } else {
        assert [] + rest == rest;
      }
    }
  }

  lemma {:induction false} FiresFrom(p: Plan, s: State, i: nat, slow: set<RuntimeId>)
    ensures Fires(p, TriggersFrom(p, s, i, slow), s, Speculate(p, s, i, slow))
    decreases |s.execs| - i
  {
    if i < |s.execs| {
      var e := s.execs[i];
      if !e.local && e.Working() {
        var s1 := SpeculateAll(p, s, e.running, slow);
        FiresAll(p, s, e.running, slow);
        FiresFrom(p, s1, i + 1, slow);
        SpeculateAllGrows(p, s, e.running, slow);
        SpeculateGrows(p, s1, i + 1, slow);
        FiresBoth(p, TriggersOf(p, s, e.running, slow), TriggersFrom(p, s1, i + 1, slow), s, s1,
            Speculate(p, s1, i + 1, slow));
      } else {
        FiresFrom(p, s, i + 1, slow);
      }
    }
  }

  lemma AfterProbe(p: Plan, s: State, inp: Input)
    requires inp.probe
    ensures RetriesGrow(ProbeRound(p, s, inp.joined, inp.speculate, inp.slow), Iterate(p, s, inp))
  {
    var s1 := ProbeRound(p, s, inp.joined, inp.speculate, inp.slow);
    PhasesGrow(p, s1);
    SettleGrows(p, Assigned(p, s, inp), inp.replies);
    Transitive(s1, Assigned(p, s, inp), Iterate(p, s, inp));
  }

  lemma FiresRound(p: Plan, s: State, inp: Input)
    ensures Fires(p, RoundTriggers(p, s, inp), s, Iterate(p, s, inp))
  {
    if inp.probe && inp.speculate {
      var s0 := ProbeRound(p, s, inp.joined, false, inp.slow);
      var s1 := ProbeRound(p, s, inp.joined, true, inp.slow);
      FiresFrom(p, s0, 0, inp.slow);
      assert s1 == Speculate(p, s0, 0, inp.slow);
      SameSpent(s, s0);
      AfterProbe(p, s, inp);
      FiresLater(p, RoundTriggers(p, s, inp), s, s1, Iterate(p, s, inp));
    }
  }

  lemma SameSpent(s: State, r: State)
    requires r.master == s.master && r.succeeded == s.succeeded
    ensures forall a: RuntimeId :: Spent(r, a) <==> Spent(s, a)
  {
  }

  /** No two speculative retries of a run come from one attempt, not even within one probe round, and none is
      numbered above `max_retry_count`. */
  lemma {:induction false} SpeculatesOnce(p: Plan, s: State, inputs: seq<Input>)
    ensures Fires(p, RunTriggers(p, s, inputs), s, Run(p, s, inputs))
    decreases |inputs|
  {
    if inputs != [] && Looping(s) {
      var r := Iterate(p, s, inputs[0]);
      FiresRound(p, s, inputs[0]);
      SpeculatesOnce(p, r, inputs[1..]);
      IterateGrows(p, s, inputs[0]);
      RunGrows(p, r, inputs[1..]);
      FiresBoth(p, RoundTriggers(p, s, inputs[0]), RunTriggers(p, r, inputs[1..]), s, r, Run(p, r, inputs[1..]));
    }
  }
}
