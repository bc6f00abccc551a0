/** The process pool of an executor: at most `poolSize` tasks run, in the order they were submitted. */
module ProcessPool {

  class SimplePool {
    const poolSize: nat
    var queued: seq<nat>
    var running: seq<nat>
    ghost var submitted: seq<nat>
    ghost var started: seq<nat>

    /** First come, first served, and never more than the pool holds. */
    ghost predicate Valid()
      reads this
    {
      && started + queued == submitted && |running| <= poolSize
      && forall t :: t in running ==> t in started
    }

    constructor (poolSize: nat)
      ensures Valid() && this.poolSize == poolSize && submitted == [] && running == []
    {
      this.poolSize := poolSize;
      queued, running, submitted, started := [], [], [], [];
    }

    method ApplyAsync(task: nat)
      requires Valid()
      modifies `queued, `submitted
      ensures Valid() && submitted == old(submitted) + [task] && queued == old(queued) + [task]
    {
      queued := queued + [task];
      submitted := submitted + [task];
    }

    /** `update_queue`: drop the tasks that are ready, start queued ones in their place. No slot stays empty while a
        task waits. */
    method UpdateQueue(ready: nat -> bool)
      requires Valid()
      modifies `queued, `running, `started
      ensures Valid() && old(started) <= started && (queued == [] || |running| == poolSize)
      ensures running == Alive(old(running), ready) + started[|old(started)|..]
    {
      var alive := Alive(running, ready);
      var slots := poolSize - |alive|;
      var toRun := if slots <= |queued| then queued[..slots] else queued;
      queued := if slots <= |queued| then queued[slots..] else [];
      started := started + toRun;
      running := alive + toRun;
      assert started[|old(started)|..] == toRun;
    }
  }

  function Alive(tasks: seq<nat>, ready: nat -> bool): (r: seq<nat>)
    ensures |r| <= |tasks| && forall t :: t in r <==> t in tasks && !ready(t)
  {
    if tasks == [] then [] else
      assert forall t :: t in tasks <==> t == tasks[0] || t in tasks[1..];
      (if ready(tasks[0]) then [] else [tasks[0]]) + Alive(tasks[1..], ready)
  }

  /** Every task that is not ready stays, as often as it was there. */
  lemma {:induction false} AliveKeeps(tasks: seq<nat>, ready: nat -> bool, t: nat)
    ensures multiset(Alive(tasks, ready))[t] == if ready(t) then 0 else multiset(tasks)[t]
  {
    if tasks != [] {
      AliveKeeps(tasks[1..], ready, t);
      assert tasks == [tasks[0]] + tasks[1..];
    }
  }
}
