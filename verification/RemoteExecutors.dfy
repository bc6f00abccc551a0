/** The scheduler's handle of one executor, field by field as the scheduler updates it. */
module RemoteExecutors {
  import opened WorkItems
  import opened Executors

  class RemoteExecutor {
    const local: bool
    var running: seq<Running>
    var state: ExecutorState
    var probe: ProbeAck
    var stopSent: bool
    var stopAcked: bool
    var cpus: int
    var gpus: real
    var memory: int
    var wq: seq<WorkItem>

    function View(): Executor
      reads this
    {
      Executor(local, running, state, probe, stopSent, stopAcked, cpus, gpus, memory, wq)
    }

    /** A newly discovered executor is not trusted with tasks before its first probe. */
    constructor (epoch: nat)
      ensures View() == Executor(false, [], ResourceLow, ProbeAck(epoch, false, true, 0, 0, 0), false, false, 0, 0.0, 0,
          [])
    {
      local, running, state, probe := false, [], ResourceLow, ProbeAck(epoch, false, true, 0, 0, 0);
      stopSent, stopAcked, cpus, gpus, memory, wq := false, false, 0, 0.0, 0, [];
    }

    /** The local executor, once started. */
    constructor Local(probe: ProbeAck)
      ensures local && View() == Executor(true, [], Good, probe, false, false, 0, 0.0, 0, [])
    {
      local, running, state, this.probe := true, [], Good, probe;
      stopSent, stopAcked, cpus, gpus, memory, wq := false, false, 0, 0.0, 0, [];
    }

    /** The source asserts that the key is new. */
    method AddRunningWork(item: Running)
      requires !View().Has(item.Key())
      modifies this
      ensures View() == old(View()).Add(item)
    {
      var l := item.Limit();
      running := running + [item];
      cpus := cpus + l.Cpu();
      gpus := gpus + l.gpu;
      memory := memory + l.Mem();
    }

    method PopRunningWork(key: WorkKey)
      modifies this
      ensures View() == old(View()).PopKey(key)
    {
      var i := 0;
      while i < |running| && running[i].Key() != key
        invariant i <= |running| && View() == old(View())
        invariant forall j :: 0 <= j < i ==> running[j].Key() != key
      {
        i := i + 1;
      }
      if i < |running| {
        FirstIndex(running, key, i);
        var l := running[i].Limit();
        running := running[..i] + running[i + 1..];
        cpus := cpus - l.Cpu();
        gpus := gpus - l.gpu;
        memory := memory - l.Mem();
      }
    }

    method Push(item: Running) returns (pushed: bool)
      modifies this
      ensures View() == old(View()).Push(item) && (pushed <==> !old(View()).Has(item.Key()))
    {
      if View().Has(item.Key()) { return false; }
      AddRunningWork(item);
      wq := wq + [item];
      pushed := true;
    }

    method Send(item: WorkItem)
      modifies this
      ensures View() == old(View()).Send(item)
    {
      wq := wq + [item];
    }

    /** A remote executor that works and was not asked before gets one stop request; in all other cases nothing is
        sent. */
    method Stop()
      modifies this
      ensures View() == old(View()).Stop()
      ensures if !local && old(View()).Working() && !old(stopSent) then stopSent
          && (wq == old(wq) + [StopExecutor] || old(View()).Has(StopKey))
              else wq == old(wq) && running == old(running) && stopSent == old(stopSent)
    {
      if local {
        if View().Working() { state := Stopped; }
      } else if View().Working() && !stopSent {
        var pushed := Push(StopExecutor);
        stopSent := true;
      }
    }

    /** `pop`: what the completion queue delivers, in order. Task completions are returned for processing. */
    method Pop(replies: seq<Reply>) returns (finished: seq<Done>)
      modifies this
      ensures View() == ReceiveAll(old(View()), replies) && finished == DoneTasks(replies)
    {
      finished := [];
      var i := 0;
      while i < |replies|
        invariant i <= |replies|
        invariant ReceiveAll(View(), replies[i..]) == ReceiveAll(old(View()), replies)
        invariant finished + DoneTasks(replies[i..]) == DoneTasks(replies)
      {
        assert replies[i..][1..] == replies[i + 1..];
        match replies[i] {
          case Probed(ack) => if probe.epoch < ack.epoch { probe := ack; }
          case WorkStopped(target) => PopRunningWork(TaskKey(target));
          case ExecutorStopped =>
            stopAcked := stopAcked || state != Stopped;
            PopRunningWork(StopKey);
          case TaskDone(done) =>
            finished := finished + [done];
            if done.Terminal() { PopRunningWork(TaskKey(done.rid.id)); }
        }
        i := i + 1;
      }
    }

    /** `update_state`; the result says whether the state changed. */
    method UpdateState(epoch: nat, maxMissed: nat) returns (changed: bool)
      modifies this
      ensures View() == old(View()).UpdateState(epoch, maxMissed) && (changed <==> state != old(state))
    {
      var before := state;
      if state == Stopped {
      } else if epoch - probe.epoch > maxMissed {
        state := Fail;
      } else if state == Stopping {
        if stopAcked { state := Stopped; }
      } else if stopSent {
        state := Stopping;
      } else if probe.resourceLow {
        state := ResourceLow;
      } else if probe.succeeded {
        state := Good;
      }
      changed := state != before;
    }
  }

  lemma {:induction false} FirstIndex(works: seq<Running>, key: WorkKey, i: nat)
    requires i < |works| && works[i].Key() == key && forall j :: 0 <= j < i ==> works[j].Key() != key
    ensures IndexOf(works, key) == i
  {
    if i > 0 {
      assert works[0].Key() != key;
      FirstIndex(works[1..], key, i - 1);
    }
  }
}
