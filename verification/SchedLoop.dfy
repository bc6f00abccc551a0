/** The scheduling loop over whole runs: what the environment chooses, and what one iteration does. */
module SchedLoop {
  import opened WorkItems
  import opened Executors
  import opened Plans
  import opened Sched
  import opened Dispatch
  import opened SchedInvariants

  /** The environment's part in one iteration: executors that register, attempts that look slow, and
      what each executor's completion queue holds when it is popped. */
  datatype Input = Input(probe: bool, joined: nat, speculate: bool, slow: set<RuntimeId>, replies: seq<seq<Reply>>)

  function RepliesOf(replies: seq<seq<Reply>>, i: nat): seq<Reply> { if i < |replies| then replies[i] else [] }

  function PopExecs(execs: seq<Executor>, replies: seq<seq<Reply>>): seq<Executor> {
    seq(|execs|, i requires 0 <= i < |execs| => ReceiveAll(execs[i], RepliesOf(replies, i)))
  }

  /** The completions of executor i. */
  function TaggedDone(i: nat, replies: seq<Reply>): seq<Popped> {
    var ds := DoneTasks(replies);
    seq(|ds|, j requires 0 <= j < |ds| => Popped(i, ds[j]))
  }

  /** The completions popped from the executors from the i-th on, in the order they are processed. */
  function PopTasks(n: nat, replies: seq<seq<Reply>>, i: nat): seq<Popped>
    decreases n - i
  {
    if i >= n then [] else
      TaggedDone(i, RepliesOf(replies, i)) + PopTasks(n, replies, i + 1)
  }

  function ProcessAll(p: Plan, s: State, pend: seq<Popped>): State
    decreases |pend|
  {
    if pend == [] || pend[0].exec >= |s.execs| then s
    else ProcessAll(p, ProcessOne(p, s, pend[0].exec, pend[0].done), pend[1..])
  }

  function ProcessFinished(p: Plan, s: State, replies: seq<seq<Reply>>): State {
    ProcessAll(p, s.(execs := PopExecs(s.execs, replies)), PopTasks(|s.execs|, replies, 0))
  }

  predicate Idle(s: State) { s.schedQueue == [] && s.localQueue == [] && NumRunning(s.execs) == 0 }

  /** The phases before the idle test. */
  function Updated(p: Plan, s: State, inp: Input): State {
    UpdateExecutors(p, if inp.probe then ProbeRound(p, s, inp.joined, inp.speculate, inp.slow) else s, 0)
  }

  function Assigned(p: Plan, s: State, inp: Input): State {
    var s1 := Updated(p, s, inp);
    if s1.execs == [] then s1 else StopIdle(p, DispatchTasks(p, PushLocalQueue(s1)))
  }

  /** The idle test, then the finished tasks. Leaving the loop clears `running`. */
  function Settle(p: Plan, s: State, replies: seq<seq<Reply>>): State {
    if Idle(s) then (if p.tasks <= s.succeeded.Keys then s else s.Fail(StuckIdle)).(running := false)
    else ProcessFinished(p, s, replies)
  }

  /** One iteration of `sched_loop`. */
  function Iterate(p: Plan, s: State, inp: Input): State { Settle(p, Assigned(p, s, inp), inp.replies) }

  /** The loop has not ended, and nothing has been raised out of it. */
  predicate Looping(s: State) { s.running && s.error.None? }

  function Run(p: Plan, s: State, inputs: seq<Input>): State
    decreases |inputs|
  {
    if inputs == [] || !Looping(s) then s else Run(p, Iterate(p, s, inputs[0]), inputs[1..])
  }

  // ---------------------------------------------------------------- what the environment may do

  /** A terminal completion is delivered at most once per attempt until the task has succeeded; an attempt this
      scheduler did not schedule may report success only when its inputs have succeeded. */
  ghost predicate DoneOK(p: Plan, s: State, d: Done) {
    && d.rid.id in p.tasks
    && (d.Terminal() ==> (d.rid !in s.finished || d.rid.id in s.succeeded) && d.status != ExecFailed)
    && (d.status == Succeed ==> d.rid in s.scheduled || Ready(p, s, d.rid.id))
  }

  ghost predicate PendOK(p: Plan, s: State, pend: seq<Popped>) {
    && (forall i :: 0 <= i < |pend| ==> pend[i].exec < |s.execs| && DoneOK(p, s, pend[i].done))
    && (forall i, j :: 0 <= i < j < |pend| && pend[i].done.Terminal() && pend[j].done.Terminal()
                       ==> pend[i].done.rid != pend[j].done.rid || pend[i].done.status == Succeed
                           || pend[i].done.rid.id in s.succeeded)
  }

  /** An executor confirms only stop requests that it was sent. */
  ghost predicate StopsOK(execs: seq<Executor>, replies: seq<seq<Reply>>) {
    forall i, r :: 0 <= i < |execs| && r in RepliesOf(replies, i) && r.WorkStopped?
        ==> StopWork(r.target) in execs[i].wq
  }

  /** Attempt a was pushed to the executor. */
  predicate Pushed(e: Executor, a: RuntimeId) {
    exists i :: 0 <= i < |e.wq| && e.wq[i].TaskItem? && e.wq[i].task.rid == a
  }

  /** Tasks of the scheduler itself run nowhere else: until one has succeeded, an attempt at it is reported by the local
      executor only, and only after it was pushed there. */
  predicate LocalReportsOK(p: Plan, s: State, pend: seq<Popped>)
    requires |s.execs| > 0
  {
    forall i ::
      0 <= i < |pend| && pend[i].done.Terminal()
      && pend[i].done.rid.id in p.onScheduler && pend[i].done.rid.id !in s.succeeded
      ==> pend[i].exec == 0 && Pushed(s.execs[0], pend[i].done.rid)
  }

  ghost predicate Delivered(p: Plan, s: State, replies: seq<seq<Reply>>) {
    var pend := PopTasks(|s.execs|, replies, 0);
    PendOK(p, s, pend) && StopsOK(s.execs, replies) && (|s.execs| > 0 ==> LocalReportsOK(p, s, pend))
  }

  /** Every iteration's replies are fair for the state they are popped in. */
  ghost predicate FairRun(p: Plan, s: State, inputs: seq<Input>)
    decreases |inputs|
  {
    inputs != [] && Looping(s) ==>
      Delivered(p, Assigned(p, s, inputs[0]), inputs[0].replies) && FairRun(p, Iterate(p, s, inputs[0]), inputs[1..])
  }

  // ---------------------------------------------------------------- starting

  /** The tasks without inputs, in the order of `ks`. */
  function Leaves(p: Plan, ks: seq<nat>): seq<nat> {
    if ks == [] then []
    else (if ks[0] in p.tasks && ks[0] in p.inputs && p.inputs[ks[0]] == [] then [ks[0]] else []) + Leaves(p, ks[1..])
  }

  function Blank(p: Plan, limits: map<nat, Limits>, local: Executor): State {
    State([], [], map[], {}, map[],
          map k | k in p.tasks :: Master(0, 0, Incomplete, 0, if k in limits then limits[k] else NO_LIMITS),
          [local], 0, 0, true, None)
  }

  /** The first start: every leaf of the plan is enqueued. */
  function Start(p: Plan, limits: map<nat, Limits>, local: Executor, ks: seq<nat>): State {
    EnqueueAll(p, Blank(p, limits, local), Leaves(p, ks))
  }
}
