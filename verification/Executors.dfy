/** The scheduler's view of one executor: running works, resource accounting, state machine. */
module Executors {
  import opened WorkItems

  datatype ExecutorState = Good | Fail | ResourceLow | Stopping | Stopped

  /** Works kept in `running_works`: tasks and the stop request. */
  type Running = w: WorkItem | w.TaskItem? || w.StopExecutor? witness StopExecutor

  datatype Executor = Executor(
    local: bool, running: seq<Running>, state: ExecutorState, probe: ProbeAck,
    stopSent: bool, stopAcked: bool, cpus: int, gpus: real, memory: int, wq: seq<WorkItem>) {

    predicate Has(key: WorkKey) { exists i :: 0 <= i < |running| && running[i].Key() == key }

    predicate Working() { state == Good || state == ResourceLow }

    predicate Alive() { state == Good || state == ResourceLow || state == Stopping }

    /** Its works count as running: a local executor, or a remote one that is alive. */
    predicate Tracked() { local || Alive() }

    function MaxRunning(): int { probe.cpus - probe.cpus / 16 }

    predicate Busy() {
      || |running| >= MaxRunning()
      || (probe.cpus > 0 && cpus >= probe.cpus)
      || (probe.gpus > 0 && gpus >= probe.gpus as real)
      || (probe.memory > 0 && memory >= probe.memory)
    }

    /** The admission test of dispatch. */
    predicate Admits(t: Task) {
      && |running| < MaxRunning()
      && cpus + t.limits.Cpu() <= probe.cpus
      && gpus + t.limits.gpu <= probe.gpus as real
      && memory + t.limits.Mem() <= probe.memory
      && !Has(TaskKey(t.rid.id))
    }

    function Add(item: Running): Executor {
      var l := item.Limit();
      this.(running := running + [item], cpus := cpus + l.Cpu(), gpus := gpus + l.gpu, memory := memory + l.Mem())
    }

    function PopKey(key: WorkKey): Executor {
      if !Has(key) then this else
        var i := IndexOf(running, key);
        var l := running[i].Limit();
        this.(running := running[..i] + running[i + 1..],
              cpus := cpus - l.Cpu(), gpus := gpus - l.gpu, memory := memory - l.Mem())
    }

    function Push(item: Running): Executor {
      if Has(item.Key()) then this else Add(item).(wq := wq + [item])
    }

    function Send(item: WorkItem): Executor { this.(wq := wq + [item]) }

    function Stop(): Executor {
      if local then (if Working() then this.(state := Stopped) else this)
      else if Working() && !stopSent then Push(StopExecutor).(stopSent := true)
      else this
    }

    function UpdateState(epoch: nat, maxMissed: nat): Executor {
      if state == Stopped then this
      else if epoch - probe.epoch > maxMissed then this.(state := Fail)
      else if state == Stopping then (if stopAcked then this.(state := Stopped) else this)
      else if stopSent then this.(state := Stopping)
      else if probe.resourceLow then this.(state := ResourceLow)
      else if probe.succeeded then this.(state := Good)
      else this
    }

    function Receive(r: Reply): Executor {
      match r
      case Probed(ack) => if probe.epoch < ack.epoch then this.(probe := ack) else this
      case WorkStopped(target) => PopKey(TaskKey(target))
      case ExecutorStopped => this.(stopAcked := stopAcked || state != Stopped).PopKey(StopKey)
      case TaskDone(done) => if done.Terminal() then PopKey(TaskKey(done.rid.id)) else this
    }
  }

  function IndexOf(works: seq<Running>, key: WorkKey): (i: nat)
    requires exists j :: 0 <= j < |works| && works[j].Key() == key
    ensures i < |works| && works[i].Key() == key
    ensures forall j :: 0 <= j < i ==> works[j].Key() != key
  {
    if works[0].Key() == key then 0 else 1 + IndexOf(works[1..], key)
  }

  function ReceiveAll(e: Executor, replies: seq<Reply>): Executor
    decreases |replies|
  {
    if replies == [] then e else ReceiveAll(e.Receive(replies[0]), replies[1..])
  }

  /** The task completions among the replies, in order. */
  function DoneTasks(replies: seq<Reply>): seq<Done>
    decreases |replies|
  {
    if replies == [] then []
    else (if replies[0].TaskDone? then [replies[0].done] else []) + DoneTasks(replies[1..])
  }

  // ---------------------------------------------------------------- accounting

  ghost function SumCpu(works: seq<Running>): int {
    if works == [] then 0 else works[0].Limit().Cpu() + SumCpu(works[1..])
  }

  ghost function SumGpu(works: seq<Running>): real {
    if works == [] then 0.0 else works[0].Limit().gpu + SumGpu(works[1..])
  }

  ghost function SumMem(works: seq<Running>): int {
    if works == [] then 0 else works[0].Limit().Mem() + SumMem(works[1..])
  }

  /** Allocations equal the sums over the running works, whose keys are distinct. */
  ghost predicate Accounted(e: Executor) {
    && e.cpus == SumCpu(e.running) && e.gpus == SumGpu(e.running) && e.memory == SumMem(e.running)
    && forall i, j :: 0 <= i < j < |e.running| ==> e.running[i].Key() != e.running[j].Key()
  }

  /** A work's limits cannot be negative, so finishing it never raises an allocation. */
  ghost predicate Sane(w: WorkItem) { w.Limit().Cpu() >= 0 && w.Limit().gpu >= 0.0 && w.Limit().Mem() >= 0 }

  ghost predicate WithinCapacity(e: Executor) {
    && e.cpus <= e.probe.cpus && e.gpus <= e.probe.gpus as real && e.memory <= e.probe.memory
    && forall i :: 0 <= i < |e.running| ==> Sane(e.running[i])
  }

  lemma {:induction false} SumSplit(a: seq<Running>, b: seq<Running>)
    ensures SumCpu(a + b) == SumCpu(a) + SumCpu(b)
    ensures SumGpu(a + b) == SumGpu(a) + SumGpu(b)
    ensures SumMem(a + b) == SumMem(a) + SumMem(b)
    decreases |a|
  {
    if a == [] {
      assert a + b == b;
    } else {
      assert (a + b)[1..] == a[1..] + b;
      SumSplit(a[1..], b);
    }
  }

  lemma SumWithout(works: seq<Running>, i: nat)
    requires i < |works|
    ensures SumCpu(works) == SumCpu(works[..i] + works[i + 1..]) + works[i].Limit().Cpu()
    ensures SumGpu(works) == SumGpu(works[..i] + works[i + 1..]) + works[i].Limit().gpu
    ensures SumMem(works) == SumMem(works[..i] + works[i + 1..]) + works[i].Limit().Mem()
  {
    assert works == works[..i] + works[i..];
    assert works[i..][0] == works[i] && works[i..][1..] == works[i + 1..];
    SumSplit(works[..i], works[i..]);
    SumSplit(works[..i], works[i + 1..]);
  }

  lemma AddAccounted(e: Executor, item: Running)
    requires Accounted(e) && !e.Has(item.Key())
    ensures Accounted(e.Add(item))
  {
    SumSplit(e.running, [item]);
    assert [item][1..] == [];
  }

  lemma PopAccounted(e: Executor, key: WorkKey)
    requires Accounted(e)
    ensures Accounted(e.PopKey(key)) && !e.PopKey(key).Has(key)
    ensures forall k :: k != key ==> (e.PopKey(key).Has(k) <==> e.Has(k))
  {
    if e.Has(key) {
      var i := IndexOf(e.running, key);
      SumWithout(e.running, i);
      WithoutKeys(e.running, i, key);
      var r := e.PopKey(key);
      forall k ensures (r.Has(k) <==> HasKey(r.running, k)) && (e.Has(k) <==> HasKey(e.running, k)) {}
    }
  }

  lemma WithoutKeys(works: seq<Running>, i: nat, key: WorkKey)
    requires i < |works| && works[i].Key() == key && forall j, k ::
      0 <= j < k < |works| ==> works[j].Key() != works[k].Key()
    ensures var rest := works[..i] + works[i + 1..];
      && (forall j, k :: 0 <= j < k < |rest| ==> rest[j].Key() != rest[k].Key())
      && forall k :: HasKey(rest, k) <==> k != key && HasKey(works, k)
  {
    var rest := works[..i] + works[i + 1..];
    forall j | 0 <= j < |rest| ensures rest[j] == works[if j < i then j else j + 1] {}
    forall k | k != key && HasKey(works, k) ensures HasKey(rest, k) {
      var j :| 0 <= j < |works| && works[j].Key() == k;
      assert rest[if j < i then j else j - 1] == works[j];
    }
  }

  predicate HasKey(works: seq<Running>, key: WorkKey) { exists i :: 0 <= i < |works| && works[i].Key() == key }

  /** Every reply keeps the accounting, and the works it leaves are works that were there. */
  lemma {:induction false} ReceiveAccounted(e: Executor, replies: seq<Reply>)
    requires Accounted(e)
    ensures Accounted(ReceiveAll(e, replies))
    ensures forall k :: ReceiveAll(e, replies).Has(k) ==> e.Has(k)
    decreases |replies|
  {
    if replies != [] {
      var r := replies[0];
      var key := match r
                 case WorkStopped(t) => TaskKey(t)
                 case TaskDone(d) => TaskKey(d.rid.id)
                 case _ => StopKey;
      var e0 := if r.ExecutorStopped? then e.(stopAcked := e.stopAcked || e.state != Stopped) else e;
      PopAccounted(e0, key);
      ReceiveAccounted(e.Receive(r), replies[1..]);
    }
  }

  /** Acknowledged epochs never decrease, whatever comes back and in whatever order. */
  lemma {:induction false} AckedEpochMonotone(e: Executor, replies: seq<Reply>)
    ensures e.probe.epoch <= ReceiveAll(e, replies).probe.epoch
    ensures forall r :: r in replies && r.Probed? ==> r.ack.epoch <= ReceiveAll(e, replies).probe.epoch
    decreases |replies|
  {
    if replies != [] {
      AckedEpochMonotone(e.Receive(replies[0]), replies[1..]);
    }
  }
}
