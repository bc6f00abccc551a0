/** The batched work queue in memory, and the execution of works and batches of works. */
module WorkQueues {
  import opened WorkItems

  // ---------------------------------------------------------------- the queue

  /** An element of the underlying queue. */
  datatype Entry<W> = Single(work: W) | WorkBatch(works: seq<W>)

  function Works<W>(e: Entry<W>): seq<W> { if e.Single? then [e.work] else e.works }

  function Expand<W>(queue: seq<Entry<W>>): seq<W> { if queue == [] then [] else Works(queue[0]) + Expand(queue[1..]) }

  lemma {:induction false} ExpandAppend<W>(queue: seq<Entry<W>>, e: Entry<W>)
    ensures Expand(queue + [e]) == Expand(queue) + Works(e)
  {
    if queue == [] {
      assert (queue + [e])[1..] == [];
    } else {
      ExpandAppend(queue[1..], e);
      assert (queue + [e])[1..] == queue[1..] + [e];
    }
  }

  class WorkQueueInMemory<W> {
    var outbound: seq<W>
    var queue: seq<Entry<W>>
    ghost var pushed: seq<W>
    ghost var popped: seq<W>

    /** First in, first out, over every sequence of operations: popped, then queued, then buffered is what was
        pushed. */
    ghost predicate Valid()
      reads this
    {
      && popped + Expand(queue) + outbound == pushed
      && forall i :: 0 <= i < |queue| ==> Works(queue[i]) != []
    }

    constructor ()
      ensures Valid() && pushed == [] && popped == [] && outbound == [] && queue == []
    {
      outbound, queue, pushed, popped := [], [], [], [];
    }

    method PushUnbuffered(e: Entry<W>)
      modifies `queue
      ensures queue == old(queue) + [e]
    {
      queue := queue + [e];
    }

    method Push(item: W, buffering: bool) returns (ok: bool)
      requires Valid()
      modifies this
      ensures Valid() && ok && pushed == old(pushed) + [item] && popped == old(popped)
      ensures if buffering then queue == old(queue) && outbound == old(outbound) + [item] else outbound == []
      ensures !buffering && old(outbound) == [] ==> queue == old(queue) + [Single(item)]
      ensures !buffering && old(outbound) != [] ==> queue == old(queue) + [WorkBatch(old(outbound) + [item])]
    {
      pushed := pushed + [item];
      if buffering {
        outbound := outbound + [item];
        ok := true;
      } else if |outbound| > 0 {
        outbound := outbound + [item];
        ok := Flush();
      } else {
        ExpandAppend(queue, Single(item));
        PushUnbuffered(Single(item));
        ok := true;
      }
    }

    method Flush() returns (ok: bool)
      requires Valid()
      modifies `outbound, `queue
      ensures Valid() && ok && outbound == []
      ensures queue == old(queue) + if old(outbound) == [] then [] else [WorkBatch(old(outbound))]
    {
      if |outbound| == 0 { return true; }
      var batch := WorkBatch(outbound);
      ExpandAppend(queue, batch);
      outbound := [];
      PushUnbuffered(batch);
      ok := true;
    }

    /** The in-memory queue gives its oldest entry, whatever the count asked for. */
    method Pop(count: nat) returns (items: seq<W>)
      requires Valid()
      modifies `queue, `popped
      ensures Valid() && popped == old(popped) + items
      ensures items == if old(queue) == [] then [] else Works(old(queue)[0])
      ensures items == [] <==> old(queue) == []
      ensures queue == if old(queue) == [] then [] else old(queue)[1..]
    {
      if queue == [] { return []; }
      items := Works(queue[0]);
      queue := queue[1..];
      popped := popped + items;
    }
  }

  // ---------------------------------------------------------------- executing works

  datatype RunResult = Returns(ok: bool) | Raises

  /** What the overridable parts of a work do. */
  datatype Behaviour = Behaviour(initializeRaises: bool, run: RunResult, finalizeRaises: bool)

  /** The status a work ends with: finalization can still turn a success into a crash. */
  function Outcome(b: Behaviour): Status {
    if b.initializeRaises || b.run.Raises? then Crashed
    else if !b.run.ok then Failed
    else if b.finalizeRaises then Crashed
    else Succeed
  }

  class Work {
    const behaviour: Behaviour
    var status: Status
    var cleanups: nat

    constructor (behaviour: Behaviour)
      ensures this.behaviour == behaviour && status == Incomplete && cleanups == 0
    {
      this.behaviour := behaviour;
      status := Incomplete;
      cleanups := 0;
    }

    /** `exec`: runs once, and cleans up whatever happened. */
    method Exec() returns (r: Status)
      modifies this
      ensures r == status == if old(status) == Incomplete then Outcome(behaviour) else old(status)
      ensures cleanups == old(cleanups) + if old(status) == Incomplete then 1 else 0
      ensures old(status) == Incomplete ==>
        && (r == Succeed <==>
            !behaviour.initializeRaises && behaviour.run == Returns(true) && !behaviour.finalizeRaises)
        && (r == Failed <==> !behaviour.initializeRaises && behaviour.run == Returns(false))
        && (r == Succeed || r == Failed || r == Crashed)
    {
      if status == Incomplete {
        var raised := behaviour.initializeRaises;
        if !raised {
          if behaviour.run.Raises? {
            raised := true;
          } else if behaviour.run.ok {
            status := Succeed;
            raised := behaviour.finalizeRaises;
          } else {
            status := Failed;
          }
        }
        if raised { status := Crashed; }
        cleanups := cleanups + 1;
      }
      r := status;
    }

    function Result(): Status
      reads this
    {
      if status == Incomplete then Outcome(behaviour) else status
    }
  }

  /** `WorkBatch.run`: in order, up to the first work that does not succeed; the works after it are not touched. */
  method RunBatch(works: seq<Work>) returns (ok: bool)
    requires forall i, j :: 0 <= i < j < |works| ==> works[i] != works[j]
    modifies set w | w in works
    ensures ok <==> forall i :: 0 <= i < |works| ==> old(works[i].Result()) == Succeed
    ensures exists n: nat :: Stopped(works, n) && (ok <==> n == |works|)
                && (forall i :: 0 <= i < |works| && i <= n ==> works[i].status == old(works[i].Result()))
                && (forall i :: 0 <= i < |works| && i <= n ==>
                    works[i].cleanups == old(works[i].cleanups) + if old(works[i].status) == Incomplete then 1 else 0)
                && (forall i :: n < i < |works| ==>
                    works[i].status == old(works[i].status) && works[i].cleanups == old(works[i].cleanups))
  {
    var i := 0;
    while i < |works|
      invariant i <= |works|
      invariant forall k :: 0 <= k < i ==> works[k].status == Succeed && old(works[k].Result()) == Succeed
      invariant forall k :: 0 <= k < i ==>
        works[k].cleanups == old(works[k].cleanups) + if old(works[k].status) == Incomplete then 1 else 0
      invariant forall k :: i <= k < |works| ==>
        works[k].status == old(works[k].status) && works[k].cleanups == old(works[k].cleanups)
    {
      var r := works[i].Exec();
      if r != Succeed {
        assert Stopped(works, i);
        return false;
      }
      i := i + 1;
    }
    assert Stopped(works, i);
    ok := true;
  }

  /** All works before the n-th succeeded, the n-th did not. */
  predicate Stopped(works: seq<Work>, n: nat)
    reads works
  {
    && n <= |works| && (forall i :: 0 <= i < n ==> works[i].status == Succeed)
    && (n < |works| ==> works[n].status != Succeed)
  }
}
