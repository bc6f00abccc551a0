/** Runs from the first start that show what the assumptions on plan and environment are needed for. */
module SchedExamples {
  import opened WorkItems
  import opened Executors
  import opened Plans
  import opened Sched
  import opened Dispatch
  import opened DispatchProofs
  import opened SchedInvariants
  import opened SchedLoop
  import opened SchedRuns
  import opened SchedTheorems

  // ---------------------------------------------------------------- iterations without remote work

  /** No remote executor is good, and nothing is queued for one. */
  ghost predicate Calm(p: Plan, s: State) {
    && s.execs != [] && s.execs[0].local && s.schedQueue == [] && GoodCount(s.execs[1..]) == 0
    && PendingNontrivial(p, s) >= -1
  }

  /** Before the idle test only the local queue is moved. */
  lemma AssignedIs(p: Plan, s: State, inp: Input)
    requires Calm(p, Updated(p, s, inp))
    ensures Assigned(p, s, inp) == PushLocalQueue(Updated(p, s, inp))
  {
    PushKeepsCalm(p, Updated(p, s, inp));
    CalmStays(p, PushLocalQueue(Updated(p, s, inp)));
  }

  lemma PushKeepsCalm(p: Plan, s: State)
    requires Calm(p, s)
    ensures Calm(p, PushLocalQueue(s))
  {
    PushStaysLocal(s.execs[0], s.localQueue);
    assert PushLocalQueue(s).execs[1..] == s.execs[1..];
  }

  lemma CalmStays(p: Plan, s: State)
    requires Calm(p, s)
    ensures StopIdle(p, DispatchTasks(p, s)) == s
  {
    ReorderPermutes(p.cfg, s.schedQueue);
    assert |multiset(Reorder(p.cfg, s.schedQueue))| == 0;
    assert GoodCount(s.execs) == 0;
    AssignEnds(p, s, [], FinalPhase(p, s));
    assert DispatchTasks(p, s) == s;
  }

  lemma {:induction false} PushStaysLocal(e: Executor, queue: seq<Task>)
    ensures PushLocal(e, queue).0.local == e.local
    decreases |queue|
  {
    if queue != [] { PushStaysLocal(e.Push(TaskItem(queue[0])), queue[1..]); }
  }

  /** Executor i alone reports, and reports d. */
  function From(i: nat, d: Done): seq<seq<Reply>> { seq(i, j => []) + [[TaskDone(d)]] }

  function Received(s: State, i: nat, d: Done): (r: State)
    requires i < |s.execs|
    ensures |r.execs| == |s.execs|
  {
    s.(execs := s.execs[i := s.execs[i].Receive(TaskDone(d))])
  }

  lemma PopExecsIs(s: State, i: nat, d: Done)
    requires i < |s.execs|
    ensures s.(execs := PopExecs(s.execs, From(i, d))) == Received(s, i, d)
  {
    var rs := [TaskDone(d)];
    assert rs[1..] == [];
    forall j | 0 <= j < |s.execs| ensures PopExecs(s.execs, From(i, d))[j] == Received(s, i, d).execs[j] {
      var e := s.execs[j];
      if j == i {
        assert RepliesOf(From(i, d), j) == rs;
        assert ReceiveAll(e, rs) == ReceiveAll(e.Receive(rs[0]), []);
      } else {
        assert RepliesOf(From(i, d), j) == [];
      }
    }
    assert PopExecs(s.execs, From(i, d)) == Received(s, i, d).execs;
  }

  lemma {:induction false} PopTasksIs(n: nat, i: nat, d: Done, j: nat)
    requires i < n && j <= n
    ensures PopTasks(n, From(i, d), j) == if j <= i then [Popped(i, d)] else []
    decreases n - j
  {
    if j < n {
      PopTasksIs(n, i, d, j + 1);
      if j == i {
        var rs := [TaskDone(d)];
        assert rs[1..] == [] && RepliesOf(From(i, d), j) == rs;
        assert DoneTasks(rs) == [d] + DoneTasks([]);
        assert TaggedDone(j, rs) == [Popped(i, d)];
      } else {
        assert RepliesOf(From(i, d), j) == [] && TaggedDone(j, []) == [];
      }
    }
  }

  /** The iteration processes this report, and nothing else. */
  lemma IterateIs(p: Plan, s: State, inp: Input, i: nat, d: Done)
    requires Calm(p, Updated(p, s, inp)) && inp.replies == From(i, d)
    requires var s1 := PushLocalQueue(Updated(p, s, inp)); i < |s1.execs| && s1.execs[0].running != []
    ensures var s1 := PushLocalQueue(Updated(p, s, inp));
      Iterate(p, s, inp) == ProcessOne(p, Received(s1, i, d), i, d)
  {
    var s1 := PushLocalQueue(Updated(p, s, inp));
    AssignedIs(p, s, inp);
    PushStaysLocal(Updated(p, s, inp).execs[0], Updated(p, s, inp).localQueue);
    assert NumRunning(s1.execs) > 0;
    PopExecsIs(s1, i, d);
    PopTasksIs(|s1.execs|, i, d, 0);
    var s2 := Received(s1, i, d);
    assert [Popped(i, d)][1..] == [];
    assert ProcessAll(p, s2, [Popped(i, d)]) == ProcessAll(p, ProcessOne(p, s2, i, d), []);
  }

  // ---------------------------------------------------------------- the plans

  const CFG := Config(3, 3, false, 3)

  /** One task, run by the scheduler itself. */
  const ONE: Plan :=
    RawPlan({0}, map[0 := []], map[0 := []], map[0 := 0], 0, 0, map[0 := 0], {0}, {}, {}, CFG)

  /** Task 1 reads task 0; so does task 2, which is not part of the plan. */
  const TWO: Plan := RawPlan({0, 1}, map[0 := [], 1 := [0]], map[0 := [1, 2], 1 := []], map[0 := 0, 1 := 1], 1, 1,
                             map[0 := 0, 1 := 0], {0, 1}, {}, {}, CFG)

  /** Task 0 is the only leaf, and runs on the scheduler. */
  ghost predicate Leads(p: Plan, ks: seq<nat>) {
    && 0 in p.tasks && 0 in p.inputs && p.inputs[0] == [] && 0 in p.onScheduler && p.cfg == CFG
    && Leaves(p, ks) == [0] && forall k :: k in p.tasks ==> k in ks
  }

  lemma PlansLead()
    ensures Leads(ONE, [0]) && Leads(TWO, [0, 1])
  {
    assert [0][1..] == [] && [0, 1][1..] == [1] && [1][1..] == [];
    assert Leaves(ONE, [0]) == [0] + Leaves(ONE, []);
    assert Leaves(TWO, [1]) == [] + Leaves(TWO, []);
    assert Leaves(TWO, [0, 1]) == [0] + Leaves(TWO, [1]);
  }

  const LOCAL := Executor(true, [], Good, ProbeAck(0, true, false, 0, 0, 0), false, false, 0, 0.0, 0, [])

  /** An attempt at task 0. */
  function Attempt(epoch: nat, retry: nat): RuntimeId { RuntimeId(0, epoch, retry) }

  function First(p: Plan, ks: seq<nat>): State { Start(p, map[], LOCAL, ks) }

  /** An attempt at task 0 is queued for the local executor, alone; nothing has succeeded. */
  ghost predicate Waiting(p: Plan, s: State, retry: nat) {
    && Calm(p, s) && Looping(s) && s.execs[0].Alive() && s.probeEpoch <= 1
    && |s.localQueue| == 1 && s.localQueue[0].rid == Attempt(0, retry)
    && s.epoch == 0 && s.succeeded == map[] && 0 in s.master
    && s.master[0] == Master(retry, retry, Incomplete, 0, NO_LIMITS)
    && Attempt(0, retry) in s.scheduled && forall a :: a in s.scheduled ==> a.retry <= retry
  }

  lemma FirstIs(p: Plan, ks: seq<nat>)
    requires Leads(p, ks)
    ensures var s := First(p, ks);
      Waiting(p, s, 0) && s.execs == [LOCAL] && s.finished == {} && s.probeEpoch == 0 && s.master.Keys == p.tasks
  {
    var b := Blank(p, map[], LOCAL);
    assert Ready(p, b, 0);
    var t := CopyTask(p, b, 0);
    assert EnqueueOne(p, b, 0) == Enqueue(p, b, t);
    assert [0][1..] == [] && EnqueueAll(p, b, [0]) == EnqueueAll(p, EnqueueOne(p, b, 0), []);
    assert First(p, ks) == Enqueue(p, b, t);
  }

  /** The local executor takes the queued attempt. */
  lemma PushIs(p: Plan, s: State, retry: nat)
    requires Waiting(p, s, retry) && s.execs[0].running == []
    ensures var r, t := PushLocalQueue(s), s.localQueue[0];
      && |r.execs| == |s.execs| && r.execs[0] == s.execs[0].Push(TaskItem(t)) && r.execs[0].running == [TaskItem(t)]
      && r == s.(execs := s.execs[0 := r.execs[0]], localQueue := []) && Pushed(r.execs[0], Attempt(0, retry))
  {
    var e, t := s.execs[0], s.localQueue[0];
    assert s.localQueue == [t] && !e.Has(TaskKey(0)) && s.localQueue[1..] == [];
    assert PushLocal(e, [t]) == (e.Push(TaskItem(t)), []);
    var e' := e.Push(TaskItem(t));
    assert e'.wq[|e.wq|] == TaskItem(t);
  }

  lemma ReceiveIs(e: Executor, t: Task, d: Done)
    requires e.running == [TaskItem(t)] && t.rid.id == d.rid.id && d.Terminal()
    ensures var r := e.Receive(TaskDone(d));
      r.running == [] && r.local == e.local && r.state == e.state && r.wq == e.wq
  {
    assert e.running[0].Key() == TaskKey(d.rid.id) && e.Has(TaskKey(d.rid.id));
  }

  lemma FailIs(p: Plan, u: State, i: nat, retry: nat, d: Done)
    requires i < |u.execs| && 0 in p.tasks && 0 in p.onScheduler && Ready(p, u, 0) && retry < 3 && p.cfg == CFG
    requires d.rid.id == 0 && d.status == Failed && !d.oom && d.rid !in u.finished
    requires u.epoch == 0 && u.succeeded == map[] && 0 in u.master && Attempt(0, retry + 1) !in u.scheduled
    requires u.master[0] == Master(retry, retry, Incomplete, 0, NO_LIMITS)
    ensures var r := ProcessOne(p, u, i, d);
      && |r.localQueue| == |u.localQueue| + 1 && r.localQueue[..|u.localQueue|] == u.localQueue
      && r.localQueue[|u.localQueue|].rid == Attempt(0, retry + 1)
      && r == u.(localQueue := r.localQueue, finished := u.finished + {d.rid},
                 scheduled := u.scheduled[Attempt(0, retry + 1) := r.localQueue[|u.localQueue|]],
                 master := u.master[0 := Master(retry + 1, retry + 1, Incomplete, 0, NO_LIMITS)])
  {
    var u1 := u.(finished := u.finished + {d.rid});
    var u2 := NoteFailure(p, u1, i, d);
    assert u2 == u1.(master := u1.master[0 := Master(retry, retry + 1, Incomplete, 0, NO_LIMITS)]);
    var u3 := u2.(master := u2.master[0 := Master(retry + 1, retry + 1, Incomplete, 0, NO_LIMITS)]);
    assert Ready(p, u3, 0);
    assert Retry(p, u2, 0) == EnqueueOne(p, u3, 0) == Enqueue(p, u3, CopyTask(p, u3, 0));
    assert u3.master == u.master[0 := Master(retry + 1, retry + 1, Incomplete, 0, NO_LIMITS)];
  }

  // ---------------------------------------------------------------- a completion delivered twice

  function Reports(replies: seq<seq<Reply>>): Input { Input(false, 0, false, {}, replies) }

  const FAILED := Done(Attempt(0, 0), Failed, false, None)

  lemma UpdatedIs(p: Plan, s: State, inp: Input)
    requires |s.execs| == 1 && s.execs[0].local && !inp.probe
    ensures Updated(p, s, inp) == s
  {
    assert UpdateExecutors(p, s, 0) == UpdateExecutors(p, s, 1);
  }

  /** What the local executor does in one iteration that starts with a queued attempt and ends with a report. */
  lemma RunsAndReports(p: Plan, s: State, retry: nat, d: Done)
    requires Waiting(p, s, retry) && |s.execs| == 1 && s.execs[0].running == [] && d.rid.id == 0 && d.Terminal()
    ensures var inp := Reports(From(0, d)); var s1 := PushLocalQueue(s);
      && |s1.execs| == 1 && Updated(p, s, inp) == s && Assigned(p, s, inp) == s1
      && Pushed(s1.execs[0], Attempt(0, retry)) && s.execs[0].wq <= s1.execs[0].wq
      && Iterate(p, s, inp) == ProcessOne(p, Received(s1, 0, d), 0, d)
  {
    var inp := Reports(From(0, d));
    UpdatedIs(p, s, inp);
    AssignedIs(p, s, inp);
    PushIs(p, s, retry);
    IterateIs(p, s, inp, 0, d);
  }

  /** The state in which the report is processed. */
  lemma ReceivedIs(p: Plan, s: State, retry: nat, d: Done)
    requires Waiting(p, s, retry) && |s.execs| == 1 && s.execs[0].running == [] && d.rid.id == 0 && d.Terminal()
    ensures var u, e := Received(PushLocalQueue(s), 0, d), PushLocalQueue(s).execs[0];
      && |u.execs| == 1 && u.execs[0].local && u.execs[0].Alive() && u.execs[0].running == [] && u.execs[0].wq == e.wq
      && u == s.(execs := u.execs, localQueue := [])
  {
    PushIs(p, s, retry);
    ReceiveIs(PushLocalQueue(s).execs[0], s.localQueue[0], d);
  }

  lemma FailsAgain(p: Plan, s: State, retry: nat, d: Done)
    requires Waiting(p, s, retry) && |s.execs| == 1 && s.execs[0].running == [] && d.rid.id == 0 && d.status == Failed
    requires 0 in p.tasks && 0 in p.onScheduler && Ready(p, s, 0) && p.cfg == CFG && retry < 3
    requires d.rid !in s.finished && !d.oom
    ensures var r := Iterate(p, s, Reports(From(0, d)));
      && Waiting(p, r, retry + 1) && |r.execs| == 1 && r.execs[0].running == []
      && r.finished == s.finished + {d.rid} && r.execs[0].wq == PushLocalQueue(s).execs[0].wq
  {
    RunsAndReports(p, s, retry, d);
    ReceivedIs(p, s, retry, d);
    var u := Received(PushLocalQueue(s), 0, d);
    assert Ready(p, u, 0);
    FailIs(p, u, 0, retry, d);
    assert u.execs[1..] == [];
  }

  /** The first attempt fails; the second one waits. All of this is fair. */
  lemma FirstFails(p: Plan, s: State)
    requires Waiting(p, s, 0) && |s.execs| == 1 && s.execs[0].running == [] && s.finished == {} && Ready(p, s, 0)
    requires 0 in p.onScheduler && p.cfg == CFG
    ensures var r := Iterate(p, s, Reports(From(0, FAILED)));
      && Waiting(p, r, 1) && |r.execs| == 1 && r.execs[0].running == []
      && r.finished == {Attempt(0, 0)} && Pushed(r.execs[0], Attempt(0, 0))
    ensures FairRun(p, s, [Reports(From(0, FAILED))])
  {
    RunsAndReports(p, s, 0, FAILED);
    FailsAgain(p, s, 0, FAILED);
    FirstIsFair(p, s);
  }

  lemma FirstIsFair(p: Plan, s: State)
    requires Waiting(p, s, 0) && |s.execs| == 1 && s.execs[0].running == [] && s.finished == {} && Ready(p, s, 0)
    ensures FairRun(p, s, [Reports(From(0, FAILED))])
  {
    var inp := Reports(From(0, FAILED));
    RunsAndReports(p, s, 0, FAILED);
    PushIs(p, s, 0);
    ReportIsFair(p, PushLocalQueue(s), FAILED);
    assert Delivered(p, Assigned(p, s, inp), inp.replies);
    assert [inp][1..] == [] && FairRun(p, Iterate(p, s, inp), []);
  }

  /** A report of the local executor alone. */
  lemma ReportIsFair(p: Plan, s: State, d: Done)
    requires |s.execs| == 1 && DoneOK(p, s, d) && Pushed(s.execs[0], d.rid)
    ensures Delivered(p, s, From(0, d))
  {
    PopTasksIs(1, 0, d, 0);
    assert From(0, d)[0] == [TaskDone(d)];
  }

  /** The report arrives again while the second attempt runs: it takes that attempt away, and is then skipped. */
  lemma SecondIsLost(p: Plan, s: State)
    requires Waiting(p, s, 1) && |s.execs| == 1 && s.execs[0].running == [] && Attempt(0, 0) in s.finished
        && 0 in p.tasks && Ready(p, s, 0)
    ensures var r := Iterate(p, s, Reports(From(0, FAILED)));
      && Calm(p, r) && Looping(r) && |r.execs| == 1 && r.execs[0].running == [] && r.localQueue == []
      && r.succeeded == map[] && Ready(p, r, 0)
  {
    RunsAndReports(p, s, 1, FAILED);
    ReceivedIs(p, s, 1, FAILED);
    var u := Received(PushLocalQueue(s), 0, FAILED);
    assert Iterate(p, s, Reports(From(0, FAILED))) == u;
    assert u.execs[1..] == [] && Ready(p, u, 0);
  }

  const QUIET := Reports([])

  lemma StuckAfter(p: Plan, s: State)
    requires Calm(p, s) && Looping(s) && |s.execs| == 1 && s.execs[0].running == [] && s.localQueue == []
        && s.succeeded == map[] && 0 in p.tasks
    ensures Iterate(p, s, QUIET).error == Some(StuckIdle)
  {
    UpdatedIs(p, s, QUIET);
    AssignedIs(p, s, QUIET);
    assert PushLocalQueue(s) == s && s.execs[1..] == [];
    assert Idle(s);
  }

  /** Task 0 could run, has not succeeded, and nobody knows of it any more. */
  ghost predicate Lost(p: Plan, s: State) {
    Ready(p, s, 0) && 0 !in s.succeeded && !Queued(s, 0) && !Runs(s.execs, 0)
  }

  lemma DuplicateSteps(p: Plan, s: State)
    requires Waiting(p, s, 0) && |s.execs| == 1 && s.execs[0].running == [] && s.finished == {} && Ready(p, s, 0)
    requires 0 in p.onScheduler && p.cfg == CFG
    ensures var inp := Reports(From(0, FAILED)); var s1 := Iterate(p, s, inp); var s2 := Iterate(p, s1, inp);
      && Looping(s1) && Looping(s2) && Lost(p, s2)
      && Iterate(p, s2, QUIET).error == Some(StuckIdle)
  {
    var inp := Reports(From(0, FAILED));
    FirstFails(p, s);
    SecondEndsStuck(p, Iterate(p, s, inp));
  }

  lemma SecondEndsStuck(p: Plan, s: State)
    requires Waiting(p, s, 1) && |s.execs| == 1 && s.execs[0].running == [] && Attempt(0, 0) in s.finished
        && 0 in p.tasks && 0 in p.inputs && AllIn(p.inputs[0], {})
    ensures var r := Iterate(p, s, Reports(From(0, FAILED)));
      Looping(r) && Lost(p, r) && Iterate(p, r, QUIET).error == Some(StuckIdle)
  {
    assert Ready(p, s, 0);
    SecondIsLost(p, s);
    StuckAfter(p, Iterate(p, s, Reports(From(0, FAILED))));
  }

  lemma DuplicateFrom(p: Plan, s: State)
    requires Waiting(p, s, 0) && |s.execs| == 1 && s.execs[0].running == [] && s.finished == {} && Ready(p, s, 0)
    requires 0 in p.onScheduler && p.cfg == CFG
    ensures var inp := Reports(From(0, FAILED));
      && FairRun(p, s, [inp])
      && Lost(p, Run(p, s, [inp, inp]))
      && Run(p, s, [inp, inp, QUIET]).error == Some(StuckIdle)
  {
    var inp := Reports(From(0, FAILED));
    FirstIsFair(p, s);
    DuplicateSteps(p, s);
    assert Looping(s);
    RunThree(p, s, inp, inp, QUIET);
  }

  /** One completion delivered twice, and nothing else out of order: after the second time the task is neither queued
      nor running nor succeeded, and the next iteration fails the assertion on a stuck scheduler. */
  lemma DuplicateReportRun()
    ensures var s, inp := First(ONE, [0]), Reports(From(0, FAILED));
      && FairRun(ONE, s, [inp])
      && Lost(ONE, Run(ONE, s, [inp, inp]))
      && Run(ONE, s, [inp, inp, QUIET]).error == Some(StuckIdle)
  {
    var s := First(ONE, [0]);
    PlansLead();
    FirstIs(ONE, [0]);
    assert Ready(ONE, s, 0);
    DuplicateFrom(ONE, s);
  }

  lemma RunThree(p: Plan, s: State, a: Input, b: Input, c: Input)
    requires Looping(s) && Looping(Iterate(p, s, a)) && Looping(Iterate(p, Iterate(p, s, a), b))
    ensures Run(p, s, [a, b]) == Iterate(p, Iterate(p, s, a), b)
    ensures Run(p, s, [a, b, c]) == Iterate(p, Iterate(p, Iterate(p, s, a), b), c)
  {
    assert [a, b][1..] == [b] && [b][1..] == [] && [a, b, c][1..] == [b, c] && [b, c][1..] == [c] && [c][1..] == [];
    var s2 := Iterate(p, Iterate(p, s, a), b);
    assert Run(p, s2, [c]) == Run(p, Iterate(p, s2, c), []);
    assert Run(p, s2, []) == s2;
    assert Run(p, Iterate(p, s, a), [b, c]) == Run(p, s2, [c]);
    assert Run(p, Iterate(p, s, a), [b]) == Run(p, s2, []);
  }

  // ---------------------------------------------------------------- a consumer outside the plan

  const SUCCEEDED := Done(Attempt(0, 0), Succeed, false, None)

  lemma SuccessIsFair(p: Plan, s: State)
    requires Waiting(p, s, 0) && |s.execs| == 1 && s.execs[0].running == [] && s.finished == {} && Ready(p, s, 0)
    ensures FairRun(p, s, [Reports(From(0, SUCCEEDED))])
  {
    var inp := Reports(From(0, SUCCEEDED));
    RunsAndReports(p, s, 0, SUCCEEDED);
    PushIs(p, s, 0);
    ReportIsFair(p, PushLocalQueue(s), SUCCEEDED);
    assert Delivered(p, Assigned(p, s, inp), inp.replies);
    assert [inp][1..] == [] && FairRun(p, Iterate(p, s, inp), []);
  }

  lemma SuccessIs(p: Plan, s: State)
    requires Waiting(p, s, 0) && |s.execs| == 1 && s.execs[0].running == [] && s.finished == {} && Ready(p, s, 0)
    ensures var inp := Reports(From(0, SUCCEEDED));
      Iterate(p, s, inp).succeeded == map[0 := Attempt(0, 0)] && Run(p, s, [inp]) == Iterate(p, s, inp)
  {
    var inp := Reports(From(0, SUCCEEDED));
    RunsAndReports(p, s, 0, SUCCEEDED);
    ReceivedIs(p, s, 0, SUCCEEDED);
    SucceedsIs(p, Received(PushLocalQueue(s), 0, SUCCEEDED));
    assert [inp][1..] == [] && Run(p, Iterate(p, s, inp), []) == Iterate(p, s, inp);
  }

  lemma SucceedsIs(p: Plan, u: State)
    requires |u.execs| == 1 && 0 in p.tasks && 0 in u.master && u.succeeded == map[] && u.finished == {}
    ensures ProcessOne(p, u, 0, SUCCEEDED).succeeded == map[0 := Attempt(0, 0)]
  {
  }

  /** Task 0 succeeds, and its consumer 2 is looked up in vain: a fair run of a plan that the planner can build. */
  lemma LostConsumerRun()
    ensures var s, inp := First(TWO, [0, 1]), Reports(From(0, SUCCEEDED)); var r := Run(TWO, s, [inp]);
      FairRun(TWO, s, [inp]) && r.error == Some(UnknownConsumer) && 0 in r.succeeded && 1 !in r.succeeded
  {
    var s, inp := First(TWO, [0, 1]), Reports(From(0, SUCCEEDED));
    PlansLead();
    FirstIs(TWO, [0, 1]);
    assert Ready(TWO, s, 0);
    SuccessIs(TWO, s);
    SuccessIsFair(TWO, s);
    Outside();
    LostIs(TWO, [0, 1], [inp]);
  }

  lemma Outside()
    ensures !Contained(TWO, 0)
  {
    assert TWO.outputs[0][1] == 2 && 2 in TWO.outputs[0] && 2 !in TWO.tasks;
  }

  lemma LostIs(p: Plan, ks: seq<nat>, inputs: seq<Input>)
    requires Leads(p, ks) && FairRun(p, First(p, ks), inputs) && !Contained(p, 0)
    requires 0 in Run(p, First(p, ks), inputs).succeeded
    ensures Run(p, First(p, ks), inputs).error == Some(UnknownConsumer)
  {
    NothingLost(p, Run(p, First(p, ks), inputs), map[], LOCAL, ks, inputs, 0);
  }

  // ---------------------------------------------------------------- a local task reported from elsewhere

  const STRANGER := Done(Attempt(7, 0), Failed, false, None)
  const INTRUSION := Input(true, 1, false, {}, From(1, STRANGER))

  /** A remote executor that has joined and been probed once. */
  ghost predicate Joined(e: Executor) {
    && !e.local && e.running == [] && e.state == ResourceLow && e.probe == ProbeAck(0, false, true, 0, 0, 0)
    && !e.stopSent && forall i :: 0 <= i < |e.wq| ==> e.wq[i].ProbeRequest?
  }

  lemma StaysJoined(p: Plan, s: State)
    requires |s.execs| == 2 && s.execs[0].local && Joined(s.execs[1]) && s.probeEpoch == 1 && p.cfg == CFG
    ensures UpdateExecutors(p, s, 0) == s
  {
    assert UpdateExecutors(p, s, 0) == UpdateExecutors(p, s, 1);
    var e := s.execs[1];
    assert e.UpdateState(1, 3) == e && s.execs[1 := e] == s.execs;
    assert UpdateExecutor(p, s, 1) == s;
    assert UpdateExecutors(p, s, 1) == UpdateExecutors(p, s, 2);
  }

  lemma JoinIs(p: Plan, s: State)
    requires Waiting(p, s, 0) && s.execs == [LOCAL] && s.probeEpoch == 0 && p.cfg == CFG
    ensures var r := Updated(p, s, INTRUSION);
      && |r.execs| == 2 && r.execs[0] == LOCAL && Joined(r.execs[1]) && r == s.(execs := r.execs, probeEpoch := 1)
      && Waiting(p, r, 0)
  {
    var r := ProbeRound(p, s, 1, false, {});
    var all := [LOCAL] + seq(1, i => NewExecutor(0));
    assert r.execs == Sched.SendProbes(all, 1) && r.execs[0] == LOCAL;
    assert r.execs[1] == NewExecutor(0).Send(ProbeRequest(1));
    StaysJoined(p, r);
    assert r.execs[1..][1..] == [] && GoodCount(r.execs[1..]) == 0;
  }

  /** The local executor runs the first attempt, and the second one waits beside it. */
  ghost predicate Forked(p: Plan, s: State) {
    && Calm(p, s) && Looping(s) && |s.execs| == 2 && s.execs[0].Working() && Joined(s.execs[1]) && s.probeEpoch == 1
    && |s.execs[0].running| == 1 && s.execs[0].running[0].TaskItem? && s.execs[0].running[0].task.rid == Attempt(0, 0)
    && Pushed(s.execs[0], Attempt(0, 0)) && |s.localQueue| == 1 && s.localQueue[0].rid == Attempt(0, 1)
    && Attempt(0, 0) in s.scheduled && Attempt(0, 0) !in s.finished && s.succeeded == map[] && 0 in s.master
  }

  lemma IntrusionForks(p: Plan, s: State)
    requires Waiting(p, s, 0) && s.execs == [LOCAL] && s.probeEpoch == 0 && s.finished == {} && Ready(p, s, 0)
    requires 0 in p.onScheduler && p.cfg == CFG
    ensures Forked(p, Iterate(p, s, INTRUSION))
  {
    IntrusionIs(p, s);
    var u := PushLocalQueue(Updated(p, s, INTRUSION));
    assert Ready(p, u, 0);
    StrangerForks(p, u);
  }

  lemma StrangerForks(p: Plan, u: State)
    requires |u.execs| == 2 && u.execs[0].local && u.execs[0].Working() && Joined(u.execs[1]) && u.probeEpoch == 1
    requires |u.execs[0].running| == 1 && u.execs[0].running[0].TaskItem?
        && u.execs[0].running[0].task.rid == Attempt(0, 0) && Pushed(u.execs[0], Attempt(0, 0))
    requires Looping(u) && u.localQueue == [] && u.schedQueue == [] && u.finished == {} && u.succeeded == map[]
        && u.epoch == 0 && Attempt(0, 0) in u.scheduled && Attempt(0, 1) !in u.scheduled
    requires 0 in u.master && u.master[0] == Master(0, 0, Incomplete, 0, NO_LIMITS)
    requires 0 in p.onScheduler && p.cfg == CFG && Ready(p, u, 0)
    ensures Forked(p, ProcessOne(p, u, 1, STRANGER))
  {
    FailIs(p, u, 1, 0, STRANGER);
    assert u.execs[1..] == [u.execs[1]] && [u.execs[1]][1..] == [];
  }

  /** The state in which the report is processed. */
  lemma IntrusionIs(p: Plan, s: State)
    requires Waiting(p, s, 0) && s.execs == [LOCAL] && s.probeEpoch == 0 && p.cfg == CFG
    ensures |Updated(p, s, INTRUSION).execs| == 2
    ensures var u, t := PushLocalQueue(Updated(p, s, INTRUSION)), s.localQueue[0];
      && |u.execs| == 2 && u.execs[0] == LOCAL.Push(TaskItem(t)) && u.execs[0].running == [TaskItem(t)]
      && Pushed(u.execs[0], Attempt(0, 0)) && Joined(u.execs[1])
      && u == s.(execs := u.execs, localQueue := [], probeEpoch := 1)
      && Iterate(p, s, INTRUSION) == ProcessOne(p, u, 1, STRANGER)
  {
    JoinIs(p, s);
    PushIs(p, Updated(p, s, INTRUSION), 0);
    IterateIs(p, s, INTRUSION, 1, STRANGER);
    var u := PushLocalQueue(Updated(p, s, INTRUSION));
    assert !u.execs[1].Has(TaskKey(0)) && u.execs[1 := u.execs[1]] == u.execs && Received(u, 1, STRANGER) == u;
  }

  /** The root has succeeded and the local executor is stopped, but its queue holds an attempt. */
  ghost predicate Blocked(p: Plan, s: State) {
    && s.execs != [] && s.execs[0].local && s.execs[0].state == Stopped && s.localQueue != [] && Looping(s)
    && s.schedQueue == [] && |s.execs| == 2 && !s.execs[1].local && s.execs[1].state == ResourceLow
    && s.execs[1].stopSent && s.probeEpoch == 1 && s.execs[1].probe.epoch == 0 && PendingNontrivial(p, s) >= -1
  }

  ghost predicate Single(p: Plan) {
    p.cfg == CFG && p.root == 0 && p.tasks == {0} && 0 in p.outputs && p.outputs[0] == [] && p.light == {}
  }

  lemma KeepsForked(p: Plan, s: State)
    requires Forked(p, s)
    ensures PushLocalQueue(s) == s
  {
    var e, t := s.execs[0], s.localQueue[0];
    assert s.localQueue == [t] && s.localQueue[1..] == [] && e.running[0].Key() == TaskKey(0) && e.Has(TaskKey(0));
    assert e.Push(TaskItem(t)) == e && PushLocal(e, []) == (e, []) && [t] + [] == [t];
    assert PushLocal(e, [t]) == (e, [t]);
    assert s.execs[0 := e] == s.execs;
  }

  lemma ForkedSucceeds(p: Plan, s: State)
    requires Forked(p, s) && Single(p)
    ensures Blocked(p, Iterate(p, s, Reports(From(0, SUCCEEDED))))
  {
    var inp := Reports(From(0, SUCCEEDED));
    StaysJoined(p, s);
    KeepsForked(p, s);
    IterateIs(p, s, inp, 0, SUCCEEDED);
    var u := Received(s, 0, SUCCEEDED);
    var e := s.execs[0];
    assert e.running == [TaskItem(e.running[0].task)];
    ReceiveIs(e, e.running[0].task, SUCCEEDED);
    SucceedBlocks(p, u);
  }

  lemma SucceedBlocks(p: Plan, u: State)
    requires |u.execs| == 2 && u.execs[0].local && u.execs[0].Working() && Joined(u.execs[1]) && u.probeEpoch == 1
    requires Looping(u) && |u.localQueue| == 1 && 0 in u.master && u.succeeded == map[]
        && Attempt(0, 0) in u.scheduled && Attempt(0, 0) !in u.finished
    requires Single(p)
    ensures Blocked(p, ProcessOne(p, u, 0, SUCCEEDED))
  {
    var u1 := u.(finished := u.finished + {SUCCEEDED.rid});
    var s1 := Told(p, u1, SUCCEEDED);
    assert Consumers(p, Recorded(u1, SUCCEEDED), 0) == [];
    assert StopRunning(u.execs, 0) == u.execs;
    var r := SucceedTask(p, u1, SUCCEEDED);
    SucceedIs(p, u1, SUCCEEDED);
    assert r.execs[0] == u.execs[0].Stop() && r.execs[1] == u.execs[1].Stop();
    assert p.tasks - p.light == {0} && r.succeeded.Keys - p.light == {0};
  }

  lemma BlockedRaises(p: Plan, s: State)
    requires Blocked(p, s) && p.cfg == CFG
    ensures Iterate(p, s, QUIET).error == Some(LocalStopped)
  {
    var s1 := Updated(p, s, QUIET);
    BlockedUpdate(p, s);
    AssignedIs(p, s, QUIET);
    NothingPopped(PushLocalQueue(s1));
  }

  lemma BlockedUpdate(p: Plan, s: State)
    requires Blocked(p, s) && p.cfg == CFG
    ensures var r := Updated(p, s, QUIET);
      && |r.execs| == 2 && r.execs[0] == s.execs[0] && r == s.(execs := r.execs) && Calm(p, r)
  {
    var e' := s.execs[1].UpdateState(1, 3);
    var r := s.(execs := s.execs[1 := e']);
    assert UpdateExecutors(p, s, 0) == UpdateExecutors(p, s, 1);
    assert UpdateExecutor(p, s, 1) == r && UpdateExecutors(p, r, 2) == r;
    assert r.execs[1..] == [e'] && [e'][1..] == [];
  }

  lemma {:induction false} NoTasks(n: nat, i: nat)
    ensures PopTasks(n, [], i) == []
    decreases n - i
  {
    if i < n {
      NoTasks(n, i + 1);
      assert TaggedDone(i, []) == [];
    }
  }

  lemma NothingPopped(s: State)
    ensures s.(execs := PopExecs(s.execs, [])) == s && PopTasks(|s.execs|, [], 0) == []
  {
    NoTasks(|s.execs|, 0);
    assert PopExecs(s.execs, []) == s.execs;
  }

  /** Another executor reports a failure of an attempt at a task that only runs on the scheduler; every other assumption
      holds, and from then on all of them. The task succeeds with a second attempt still queued, and the next iteration
      fails the assertion that the local executor is alive. */
  lemma ForeignReportRun()
    ensures var s, success := First(ONE, [0]), Reports(From(0, SUCCEEDED));
      && PendOK(ONE, Assigned(ONE, s, INTRUSION), PopTasks(2, INTRUSION.replies, 0))
      && FairRun(ONE, Iterate(ONE, s, INTRUSION), [success, QUIET])
      && Run(ONE, s, [INTRUSION, success, QUIET]).error == Some(LocalStopped)
  {
    var s, success := First(ONE, [0]), Reports(From(0, SUCCEEDED));
    PlansLead();
    FirstIs(ONE, [0]);
    assert Ready(ONE, s, 0);
    OneIsSingle();
    IntrusionForks(ONE, s);
    IntrusionOK(ONE, s);
    var s1 := Iterate(ONE, s, INTRUSION);
    ForkedSucceeds(ONE, s1);
    ForkedIsFair(ONE, s1);
    BlockedRaises(ONE, Iterate(ONE, s1, success));
    RunThree(ONE, s, INTRUSION, success, QUIET);
  }

  lemma OneIsSingle()
    ensures Single(ONE)
  {
  }

  lemma IntrusionOK(p: Plan, s: State)
    requires Waiting(p, s, 0) && s.execs == [LOCAL] && s.probeEpoch == 0 && s.finished == {} && 0 in p.tasks
        && p.cfg == CFG
    ensures PendOK(p, Assigned(p, s, INTRUSION), PopTasks(2, INTRUSION.replies, 0))
  {
    JoinIs(p, s);
    PushIs(p, Updated(p, s, INTRUSION), 0);
    AssignedIs(p, s, INTRUSION);
    PopTasksIs(2, 1, STRANGER, 0);
  }

  lemma ForkedIsFair(p: Plan, s: State)
    requires Forked(p, s) && Single(p)
    ensures FairRun(p, s, [Reports(From(0, SUCCEEDED)), QUIET])
  {
    var inp := Reports(From(0, SUCCEEDED));
    StaysJoined(p, s);
    KeepsForked(p, s);
    AssignedIs(p, s, inp);
    PopTasksIs(2, 0, SUCCEEDED, 0);
    assert inp.replies[0] == [TaskDone(SUCCEEDED)];
    assert Delivered(p, s, inp.replies);
    assert [inp, QUIET][1..] == [QUIET];
    QuietIsFair(p, Iterate(p, s, inp));
  }

  lemma QuietIsFair(p: Plan, s: State)
    ensures FairRun(p, s, [QUIET])
  {
    NoTasks(|Assigned(p, s, QUIET).execs|, 0);
    assert [QUIET][1..] == [] && FairRun(p, Iterate(p, s, QUIET), []);
  }
}
