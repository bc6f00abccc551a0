/** The values that travel between the scheduler and its executors. */
module WorkItems {

  datatype Option<+T> = None | Some(value: T)

  datatype Status = Incomplete | Succeed | Failed | Crashed | ExecFailed

  /** One attempt at a task: task id, scheduler epoch, retry count. */
  datatype RuntimeId = RuntimeId(id: nat, epoch: nat, retry: nat)

  /** Resource limits of a work item. Boost factors are reals, the effective limits are truncated. */
  datatype Limits = Limits(baseCpu: nat, gpu: real, baseMem: Option<nat>, cpuBoost: real, memBoost: real) {
    function Cpu(): int { (cpuBoost * baseCpu as real).Floor }

    function Mem(): int {
      match baseMem
      case None => 0
      case Some(m) => (memBoost * m as real).Floor
    }
  }

  const NO_LIMITS := Limits(0, 0.0, Some(0), 1.0, 1.0)

  /** A copy of a plan task made for execution. `inputs` are the producer attempts it reads. */
  datatype Task = Task(rid: RuntimeId, node: nat, inputs: seq<RuntimeId>, limits: Limits)

  /** Keys of the `running_works` dictionary. */
  datatype WorkKey = TaskKey(id: nat) | StopKey

  /** What the scheduler pushes to an executor. */
  datatype WorkItem = TaskItem(task: Task) | StopExecutor | StopWork(target: nat) | ProbeRequest(epoch: nat) {
    function Key(): WorkKey
      requires TaskItem? || StopExecutor?
    {
      if TaskItem? then TaskKey(task.rid.id) else StopKey
    }

    function Limit(): Limits { if TaskItem? then task.limits else NO_LIMITS }
  }

  /** An acknowledged probe: its epoch, whether it succeeded, and the reported capacity. */
  datatype ProbeAck = ProbeAck(epoch: nat, succeeded: bool, resourceLow: bool, cpus: nat, gpus: nat, memory: nat)

  /** A task attempt as it comes back from an executor, with the memory limit it ran under. */
  datatype Done = Done(rid: RuntimeId, status: Status, oom: bool, memory: Option<nat>) {
    predicate Terminal() { status != Incomplete }
  }

  /** What an executor pushes to its completion queue. */
  datatype Reply = Probed(ack: ProbeAck) | WorkStopped(target: nat) | ExecutorStopped | TaskDone(done: Done)
}
