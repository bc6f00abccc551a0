/** The scheduler as functions on states. Every method of class `Scheduler` computes one of them.
    An assertion of the source that fails, or a dictionary lookup that misses, is recorded in `error`. */
module Sched {
  import opened WorkItems
  import opened Executors
  import opened Plans

  /** Mutable part of a plan task. */
  datatype Master = Master(retry: nat, fails: nat, status: Status, epoch: nat, limits: Limits)

  datatype Error =
    | UnknownTask | UnknownConsumer | MissingInput | RetriedSucceeded | UnexpectedStatus | LocalStopped | StuckIdle

  datatype State = State(
    localQueue: seq<Task>, schedQueue: seq<Task>,
    scheduled: map<RuntimeId, Task>, finished: set<RuntimeId>, succeeded: map<nat, RuntimeId>,
    master: map<nat, Master>, execs: seq<Executor>, epoch: nat, probeEpoch: nat, running: bool,
    error: Option<Error>) {

    function Fail(e: Error): State { this.(error := if error.None? then Some(e) else error) }

    predicate Done(k: nat) { k in succeeded }

    /** s differs from this one at most in the queues, the scheduled attempts and the error. */
    predicate OnlyEnqueues(s: State) {
      s == this.(localQueue := s.localQueue, schedQueue := s.schedQueue, scheduled := s.scheduled, error := s.error)
    }

    predicate OnlyRetries(s: State) { this.(master := s.master).OnlyEnqueues(s) }
  }

  predicate Ready(p: Plan, s: State, k: nat) { k in p.tasks && k in p.inputs && AllIn(p.inputs[k], s.succeeded.Keys) }

  // ---------------------------------------------------------------- enqueue

  /** `copy_task_for_execution`: the copy reads the succeeded attempt of every input. */
  function CopyTask(p: Plan, s: State, k: nat): Task
    requires Ready(p, s, k) && k in s.master
  {
    assert Linked(p, k);
    var ins := p.inputs[k];
    Task(RuntimeId(k, s.epoch, s.master[k].retry), p.nodes[k],
         seq(|ins|, i requires 0 <= i < |ins| => assert ins[i] in ins; s.succeeded[ins[i]]), s.master[k].limits)
  }

  function Enqueue(p: Plan, s: State, t: Task): State {
    var s1 := s.(scheduled := s.scheduled[t.rid := t]);
    if t.rid.id in p.onScheduler then s1.(localQueue := s1.localQueue + [t]) else s1.(schedQueue := s1.schedQueue + [t])
  }

  /** `get_runnable_tasks` looks up every consumer that task k names, ready or not. */
  function LookUp(p: Plan, s: State, k: nat): State { if Contained(p, k) then s else s.Fail(UnknownConsumer) }

  /** `get_runnable_tasks`: those of the listed consumers whose inputs have all succeeded. */
  function Runnable(p: Plan, s: State, ks: seq<nat>): (r: seq<nat>)
    ensures forall c :: c in r <==> c in ks && Ready(p, s, c)
  {
    if ks == [] then [] else
      assert forall k :: k in ks <==> k == ks[0] || k in ks[1..];
      (if Ready(p, s, ks[0]) then [ks[0]] else []) + Runnable(p, s, ks[1..])
  }

  function Consumers(p: Plan, s: State, k: nat): (r: seq<nat>)
    requires k in p.tasks
    ensures k in p.outputs && forall c :: c in r <==> c in p.outputs[k] && Ready(p, s, c)
    ensures Heights(p, r) <= Height(p, k)
  {
    assert Linked(p, k);
    var r := Runnable(p, s, p.outputs[k]);
    assert forall c :: c in r ==> Height(p, c) < Height(p, k) by {
      forall c | c in r ensures Height(p, c) < Height(p, k) { assert Linked(p, c); }
    }
    HeightsBound(p, r, Height(p, k));
    r
  }

  /** `try_enqueue` of one task: look up its inputs, skip it when it succeeded (its consumers are tried
      instead) or when this attempt is already scheduled. */
  function EnqueueOne(p: Plan, s: State, k: nat): (r: State)
    ensures s.OnlyEnqueues(r)
    decreases Height(p, k) + 1, 0
  {
    if k !in p.tasks || k !in s.master then s.Fail(UnknownTask)
    else if !Ready(p, s, k) then s.Fail(MissingInput)
    else
      var t := CopyTask(p, s, k);
      if s.Done(k) then EnqueueAll(p, LookUp(p, s, k), Consumers(p, s, k))
      else if t.rid in s.scheduled then s
      else Enqueue(p, s, t)
  }

  function EnqueueAll(p: Plan, s: State, ks: seq<nat>): (r: State)
    ensures s.OnlyEnqueues(r)
    decreases Heights(p, ks), 1 + |ks|
  {
    if ks == [] then s else
      assert ks[0] in ks && forall k :: k in ks[1..] ==> k in ks;
      EnqueueAll(p, EnqueueOne(p, s, ks[0]), ks[1..])
  }

  /** `get_retry_task` followed by `try_enqueue`. */
  function Retry(p: Plan, s: State, k: nat): (r: State)
    ensures s.OnlyRetries(r)
  {
    if k !in s.master then s.Fail(UnknownTask) else
      var m := s.master[k];
      var s1 := s.(master := s.master[k := m.(retry := m.retry + 1)]);
      EnqueueOne(p, if m.status == Succeed && m.epoch == s.epoch then s1.Fail(RetriedSucceeded) else s1, k)
  }

  // ---------------------------------------------------------------- probes and speculation

  function NewExecutor(epoch: nat): Executor {
    Executor(false, [], ResourceLow, ProbeAck(epoch, false, true, 0, 0, 0), false, false, 0, 0.0, 0, [])
  }

  function SendProbe(e: Executor, epoch: nat): Executor {
    if !e.local && e.Working() then e.Send(ProbeRequest(epoch)) else e
  }

  /** The test of `start_speculative_execution`; `slow` are the attempts whose elapsed time passed the threshold. */
  predicate Speculates(p: Plan, s: State, w: Running, slow: set<RuntimeId>) {
    && w.TaskItem?
    && w.task.rid.id !in s.succeeded
    && w.task.rid.retry < p.cfg.maxRetry
    && w.task.rid.id in s.master && w.task.rid.retry == s.master[w.task.rid.id].retry
    && w.task.rid in slow
  }

  function SpeculateOne(p: Plan, s: State, w: Running, slow: set<RuntimeId>): (r: State)
    ensures s.OnlyRetries(r)
  {
    if Speculates(p, s, w, slow) then Retry(p, s, w.task.rid.id) else s
  }

  function SpeculateAll(p: Plan, s: State, works: seq<Running>, slow: set<RuntimeId>): (r: State)
    ensures s.OnlyRetries(r)
    decreases |works|
  {
    if works == [] then s else SpeculateAll(p, SpeculateOne(p, s, works[0], slow), works[1..], slow)
  }

  /** Speculation over the executors from the i-th on. */
  function Speculate(p: Plan, s: State, i: nat, slow: set<RuntimeId>): (r: State)
    ensures s.OnlyRetries(r)
    decreases |s.execs| - i
  {
    if i >= |s.execs| then s else
      var e := s.execs[i];
      Speculate(p, if !e.local && e.Working() then SpeculateAll(p, s, e.running, slow) else s, i + 1, slow)
  }

  function SendProbes(execs: seq<Executor>, epoch: nat): seq<Executor> {
    seq(|execs|, i requires 0 <= i < |execs| => SendProbe(execs[i], epoch))
  }

  /** What happens between two probe rounds is up to the environment: executors that register, attempts that are
      slow. */
  function ProbeRound(p: Plan, s: State, joined: nat, speculate: bool, slow: set<RuntimeId>): State {
    var epoch := s.probeEpoch + 1;
    var execs := s.execs + seq(joined, i => NewExecutor(s.probeEpoch));
    var s1 := s.(execs := SendProbes(execs, epoch), probeEpoch := epoch);
    if speculate then Speculate(p, s1, 0, slow) else s1
  }

  // ---------------------------------------------------------------- executor states

  /** Reschedule one work of a failed executor. */
  function RescheduleOne(p: Plan, s: State, w: Running): (r: State)
    ensures s.OnlyRetries(r)
  {
    if w.TaskItem? && !s.Done(w.task.rid.id) then Retry(p, s, w.task.rid.id) else s
  }

  function RescheduleAll(p: Plan, s: State, works: seq<Running>): (r: State)
    ensures s.OnlyRetries(r)
    decreases |works|
  {
    if works == [] then s else RescheduleAll(p, RescheduleOne(p, s, works[0]), works[1..])
  }

  /** One iteration of `update_executor_states`. */
  function UpdateExecutor(p: Plan, s: State, i: nat): (r: State)
    requires i < |s.execs|
    ensures |r.execs| == |s.execs|
  {
    var e := s.execs[i];
    if e.local || !e.Alive() then s else
      var e' := e.UpdateState(s.probeEpoch, p.cfg.maxMissed);
      var s1 := s.(execs := s.execs[i := e']);
      if e'.state == Fail then RescheduleAll(p, s1, e.running) else s1
  }

  function UpdateExecutors(p: Plan, s: State, i: nat): State
    decreases |s.execs| - i
  {
    if i >= |s.execs| then s else UpdateExecutors(p, UpdateExecutor(p, s, i), i + 1)
  }

  // ---------------------------------------------------------------- local queue

  /** Push tasks to the local executor; those whose key is already running there are kept. */
  function PushLocal(e: Executor, queue: seq<Task>): (Executor, seq<Task>)
    decreases |queue|
  {
    if queue == [] then (e, []) else
      var t := queue[0];
      var (e', kept) := PushLocal(e.Push(TaskItem(t)), queue[1..]);
      (e', if e.Has(TaskKey(t.rid.id)) then [t] + kept else kept)
  }

  function PushLocalQueue(s: State): State
    requires |s.execs| > 0
  {
    var (e, kept) := PushLocal(s.execs[0], s.localQueue);
    var s1 := if s.localQueue != [] && !s.execs[0].Alive() then s.Fail(LocalStopped) else s;
    s1.(execs := s.execs[0 := e], localQueue := kept)
  }

  // ---------------------------------------------------------------- stop an idle executor

  predicate IsGood(e: Executor) { !e.local && e.state == Good }

  function GoodCount(execs: seq<Executor>): nat {
    if execs == [] then 0 else (if IsGood(execs[0]) then 1 else 0) + GoodCount(execs[1..])
  }

  function PendingNontrivial(p: Plan, s: State): int { |p.tasks - p.light| - |s.succeeded.Keys - p.light| }

  function StopFirstIdle(execs: seq<Executor>): (r: seq<Executor>)
    ensures |r| == |execs|
  {
    if execs == [] then []
    else if IsGood(execs[0]) && execs[0].running == [] then [execs[0].Stop()] + execs[1..]
    else [execs[0]] + StopFirstIdle(execs[1..])
  }

  function StopIdle(p: Plan, s: State): State {
    if s.schedQueue == [] && PendingNontrivial(p, s) + 1 < GoodCount(s.execs)
    then s.(execs := StopFirstIdle(s.execs)) else s
  }

  // ---------------------------------------------------------------- finished tasks

  /** `stop_running_tasks`: ask every remote executor that runs another attempt of k to stop it. */
  function StopWorkOn(e: Executor, k: nat): Executor {
    if !e.local && e.Has(TaskKey(k)) then e.Send(StopWork(k)) else e
  }

  function StopRunning(execs: seq<Executor>, k: nat): seq<Executor> {
    seq(|execs|, i requires 0 <= i < |execs| => StopWorkOn(execs[i], k))
  }

  function StopAll(execs: seq<Executor>): seq<Executor> {
    seq(|execs|, i requires 0 <= i < |execs| => execs[i].Stop())
  }

  /** `try_relax_memory_limit`: double the limit, up to the memory of the executor. */
  function RelaxMemory(l: Limits, memory: nat): Limits {
    if l.Mem() >= memory || l.baseMem.None? || l.baseMem.value == 0 then l else
      var relaxed := if memory < l.Mem() * 2 then memory else l.Mem() * 2;
      l.(memBoost := relaxed as real / l.baseMem.value as real)
  }

  /** A task without a memory limit takes over the one its failed attempt ran under. */
  function TakeMemory(l: Limits, memory: Option<nat>): Limits { if l.baseMem.None? then l.(baseMem := memory) else l }

  /** The limits of a task after a failure on executor e. */
  function LimitsAfter(l: Limits, e: Executor, d: Done): Limits {
    if !e.local && d.oom then RelaxMemory(TakeMemory(l, d.memory), e.probe.memory) else l
  }

  function Halt(s: State, halt: bool): State {
    if halt then s.(execs := StopAll(s.execs), running := false) else s
  }

  /** The task after one more failure. */
  function Noted(s: State, i: nat, d: Done): Master
    requires d.rid.id in s.master && i < |s.execs|
  {
    var m := s.master[d.rid.id];
    m.(fails := m.fails + 1, limits := LimitsAfter(m.limits, s.execs[i], d))
  }

  /** Count the failure, stop everything when it is one too many, relax the memory limit. */
  function NoteFailure(p: Plan, s: State, i: nat, d: Done): State
    requires d.rid.id in s.master && i < |s.execs|
  {
    Halt(s, s.master[d.rid.id].fails + 1 > p.cfg.maxFail).(master := s.master[d.rid.id := Noted(s, i, d)])
  }

  function FailTask(p: Plan, s: State, i: nat, d: Done): State
    requires d.rid.id in s.master && i < |s.execs|
  {
    Retry(p, NoteFailure(p, s, i, d), d.rid.id)
  }

  function SucceedTask(p: Plan, s: State, d: Done): State
    requires d.rid.id in p.tasks && d.rid.id in s.master
  {
    var k := d.rid.id;
    var m := s.master[k].(status := Succeed, retry := d.rid.retry, epoch := d.rid.epoch);
    var s1 := s.(succeeded := s.succeeded[k := d.rid], execs := StopRunning(s.execs, k), master := s.master[k := m]);
    var s2 := EnqueueAll(p, LookUp(p, s1, k), Consumers(p, s1, k));
    if k == p.root then s2.(schedQueue := [], execs := StopAll(s2.execs)) else s2
  }

  /** One iteration of `process_finished_tasks`: completion d, popped from executor i. */
  function ProcessOne(p: Plan, s: State, i: nat, d: Done): State
    requires i < |s.execs|
  {
    var k := d.rid.id;
    if k !in p.tasks || k !in s.master then s.Fail(UnknownTask)
    else if d.rid !in s.scheduled && d.status != Succeed && !Ready(p, s, k) then s
    else if d.status == Incomplete then s
    else if d.rid in s.finished then s
    else
      var s1 := s.(finished := s.finished + {d.rid});
      if s.Done(k) then s1
      else if d.status == Failed || d.status == Crashed then FailTask(p, s1, i, d)
      else SucceedTask(p, if d.status == Succeed then s1 else s1.Fail(UnexpectedStatus), d)
  }
}
