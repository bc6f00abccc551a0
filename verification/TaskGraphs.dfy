/** The task graph at planning time: which outputs are temporary, and which tasks a plan has. */
module TaskGraphs {

  /** How a task makes its output: it computes files of its own, and may then be named or have an output path; or it
      passes on its inputs' files, like merging, splitting, projecting and consuming a partition, and is never named. */
  datatype Kind = Computes(named: bool) | PassesOn

  class PlanTask {
    const inputs: seq<PlanTask>
    const selfContained: bool
    var temp: bool
    /** This task and everything below it; inputs have a smaller height. */
    ghost const below: set<PlanTask>
    ghost const height: nat

    ghost predicate Wired() {
      && this in below
      && (forall t :: t in inputs ==> t in below && t.height < height)
      && (forall u :: u in below ==> u.below <= below && (u == this || u.height < height))
    }

    /** Inputs were built before the task that uses them. */
    ghost predicate Valid() { this in below && forall u :: u in below ==> u.Wired() }

    /** `below` holds nothing else. */
    ghost predicate Exact() { below == {this} + BelowAll(inputs) }

    lemma BelowInput(t: PlanTask)
      requires Valid() && t in inputs
      ensures t.Valid() && t in below && t.below <= below && t.height < height && this !in t.below
    {
      assert Wired() && t.Wired();
    }

    /** A new task is permanent when it is named or has an output path. */
    constructor (inputs: seq<PlanTask>, selfContained: bool, named: bool)
      requires forall t :: t in inputs ==> t.Valid()
      ensures Valid() && this.inputs == inputs && this.selfContained == selfContained && temp == !named
      ensures this !in inputs && Exact()
    {
      this.inputs := inputs;
      this.selfContained := selfContained;
      temp := !named;
      below := {this} + BelowAll(inputs);
      height := Above(inputs);
      new;
      NewWired();
    }

    lemma NewWired()
      requires Exact() && height == Above(inputs) && forall t :: t in inputs ==> t.Valid()
      ensures Valid()
    {
      forall t | t in inputs ensures t in below && t.height < height {
        AboveAll(inputs, t);
        BelowEach(inputs, t);
      }
      forall u | u in below && u != this ensures u.Wired() && u.below <= below && u.height < height { NewBelow(u); }
    }

    lemma NewBelow(u: PlanTask)
      requires Exact() && height == Above(inputs) && u in BelowAll(inputs)
      requires forall t :: t in inputs ==> t.Valid()
      ensures u.Wired() && u.below <= below && u.height < height
    {
      var t := BelowSome(inputs, u);
      AboveAll(inputs, t);
      BelowEach(inputs, t);
      assert t.Wired() && u.Wired();
    }

    /** The inputs of a permanent task that is not self-contained are permanent. */
    ghost predicate Closed()
      reads this, inputs
    {
      !temp && !selfContained ==> forall t :: t in inputs ==> !t.temp
    }

    /** What the first i inputs contribute to the closure. */
    ghost function Part(i: nat): set<PlanTask>
      requires Valid() && i <= |inputs|
      decreases height, 0, i
    {
      if i == 0 then {} else
        BelowInput(inputs[i - 1]);
        Part(i - 1) + inputs[i - 1].Closure()
    }

    /** The tasks whose files make up the output of this task. */
    ghost function Closure(): (c: set<PlanTask>)
      requires Valid()
      decreases height, 1
    {
      {this} + if selfContained then {} else Part(|inputs|)
    }

    lemma {:induction false} PartBelow(i: nat)
      requires Valid() && i <= |inputs|
      ensures forall u :: u in Part(i) ==> u in below && u != this
      decreases height, 0, i
    {
      if i > 0 {
        BelowInput(inputs[i - 1]);
        PartBelow(i - 1);
        inputs[i - 1].ClosureBelow();
      }
    }

    lemma {:induction false} ClosureBelow()
      requires Valid()
      ensures this in Closure() && Closure() <= below
      decreases height, 1
    {
      PartBelow(|inputs|);
    }

    /** When everything below is closed, the whole closure of a permanent task is permanent already. */
    lemma {:induction false} ClosurePermanent()
      requires Valid() && !temp && forall u :: u in below ==> u.Closed()
      ensures forall u :: u in Closure() ==> !u.temp
      decreases height, 1
    {
      if !selfContained {
        assert this.Closed();
        PartPermanent(|inputs|);
      }
    }

    lemma {:induction false} PartPermanent(i: nat)
      requires Valid() && i <= |inputs| && (forall u :: u in below ==> u.Closed()) && forall t ::
        t in inputs ==> !t.temp
      ensures forall u :: u in Part(i) ==> !u.temp
      decreases height, 0, i
    {
      if i > 0 {
        var t := inputs[i - 1];
        BelowInput(t);
        PartPermanent(i - 1);
        t.ClosurePermanent();
      }
    }

    /** The setter of `temp_output`, with value False: it stops at tasks that are permanent already, and still makes the
        whole closure permanent. */
    method SetPermanent()
      requires Valid() && forall u :: u in below && u != this ==> u.Closed()
      modifies below`temp
      ensures forall u :: u in below ==> u.temp == (old(u.temp) && u !in Closure())
      ensures forall u :: u in below ==> u.Closed()
      decreases height, 1
    {
      temp := false;
      if !selfContained {
        var i := 0;
        while i < |inputs|
          invariant i <= |inputs| && !temp
          invariant forall u :: u in below && u != this ==> u.Closed() && u.temp == (old(u.temp) && u !in Part(i))
        {
          SetInput(i);
          i := i + 1;
        }
        InputsInPart();
      }
      PartBelow(|inputs|);
    }

    lemma InputsInPart()
      requires Valid()
      ensures forall t :: t in inputs ==> t in Part(|inputs|) && t != this && t in below
    {
      forall t | t in inputs ensures t in Part(|inputs|) && t != this && t in below {
        BelowInput(t);
        var k :| 0 <= k < |inputs| && inputs[k] == t;
        InPart(k, |inputs|);
      }
      PartBelow(|inputs|);
    }

    /** Input i < n contributes itself. */
    lemma {:induction false} InPart(i: nat, n: nat)
      requires Valid() && i < n <= |inputs|
      ensures inputs[i] in Part(n)
      decreases n
    {
      BelowInput(inputs[n - 1]);
      if i == n - 1 { inputs[i].ClosureBelow(); } else { InPart(i, n - 1); }
    }

    ghost function InputClosure(i: nat): set<PlanTask>
      requires Valid() && i < |inputs|
    {
      BelowInput(inputs[i]);
      inputs[i].Closure()
    }

    /** One pass of the setter's loop. */
    method SetInput(i: nat)
      requires Valid() && i < |inputs| && forall u :: u in below && u != this ==> u.Closed()
      modifies below`temp
      ensures temp == old(temp)
      ensures forall u :: u in below && u != this ==> u.Closed() && u.temp == (old(u.temp) && u !in InputClosure(i))
      decreases height, 0
    {
      var t := inputs[i];
      BelowInput(t);
      t.ClosureBelow();
      if t.temp {
        t.SetPermanent();
        forall u | u in below && u != this ensures u.Closed() {
          if u !in t.below { assert old(u.Closed()); }
        }
      } else {
        t.ClosurePermanent();
      }
    }
  }

  /** These tasks and everything below them. */
  ghost function BelowAll(ts: seq<PlanTask>): set<PlanTask> { if ts == [] then {} else ts[0].below + BelowAll(ts[1..]) }

  lemma {:induction false} BelowEach(ts: seq<PlanTask>, t: PlanTask)
    requires t in ts && t in t.below
    ensures t.below <= BelowAll(ts) && t in BelowAll(ts)
  {
    if t != ts[0] { BelowEach(ts[1..], t); }
  }

  lemma {:induction false} BelowSome(ts: seq<PlanTask>, u: PlanTask) returns (t: PlanTask)
    requires u in BelowAll(ts)
    ensures t in ts && u in t.below
  {
    if u in ts[0].below { t := ts[0]; } else { t := BelowSome(ts[1..], u); }
  }

  lemma {:induction false} BelowWithin(ts: seq<PlanTask>, tasks: set<PlanTask>)
    requires forall t :: t in ts ==> t.below <= tasks
    ensures BelowAll(ts) <= tasks
  {
    if ts != [] { BelowWithin(ts[1..], tasks); }
  }

  /** More than the heights of these tasks. */
  ghost function Above(ts: seq<PlanTask>): nat {
    if ts == [] then 0 else var h := Above(ts[1..]); if ts[0].height < h then h else ts[0].height + 1
  }

  lemma {:induction false} AboveAll(ts: seq<PlanTask>, t: PlanTask)
    requires t in ts
    ensures t.height < Above(ts)
  {
    if t != ts[0] { AboveAll(ts[1..], t); }
  }

  /** A plan under construction: tasks are only added, and every permanent task that is not self-contained has permanent
      inputs. */
  class ExecutionPlan {
    ghost var tasks: set<PlanTask>

    ghost predicate Valid()
      reads this, tasks
    {
      && (forall t :: t in tasks ==> t.Valid() && t.Exact() && t.below <= tasks)
      && (forall t :: t in tasks ==> (forall d :: d in t.inputs ==> d in tasks) && t.Closed())
    }

    constructor ()
      ensures Valid() && tasks == {}
    {
      tasks := {};
    }

    /** An ordinary task. */
    method AddTask(inputs: seq<PlanTask>, kind: Kind) returns (t: PlanTask)
      requires Valid() && forall d :: d in inputs ==> d in tasks
      modifies this
      ensures Valid() && fresh(t) && tasks == old(tasks) + {t} && t.Valid() && t.inputs == inputs
      ensures t.selfContained == kind.Computes? && t.temp == !(kind.Computes? && kind.named)
    {
      t := new PlanTask(inputs, kind.Computes?, kind.Computes? && kind.named);
      BelowTasks(t);
      tasks := tasks + {t};
    }

    lemma BelowTasks(t: PlanTask)
      requires Valid() && t.Exact() && forall d :: d in t.inputs ==> d in tasks
      ensures t.below <= tasks + {t}
    {
      BelowWithin(t.inputs, tasks);
    }

    /** A sink. A manifest sink only lists the files of its inputs, so all tasks these files belong to become
        permanent. */
    method AddSink(inputs: seq<PlanTask>, manifest: bool) returns (t: PlanTask)
      requires Valid() && forall d :: d in inputs ==> d in tasks
      modifies this, tasks
      ensures Valid() && fresh(t) && tasks == old(tasks) + {t} && t.Valid() && t.inputs == inputs
          && t.selfContained == !manifest
      ensures forall u :: u in old(tasks) ==> u.temp == (old(u.temp) && u !in t.Closure())
      ensures forall u :: u in t.Closure() ==> !u.temp
    {
      t := new PlanTask(inputs, !manifest, true);
      BelowTasks(t);
      MakePermanent(t);
      tasks := tasks + {t};
    }

    method MakePermanent(t: PlanTask)
      requires Valid() && t.Valid() && t !in tasks && t.below <= tasks + {t}
      modifies tasks, t`temp
      ensures Valid() && tasks == old(tasks) && t.Closed() && forall u ::
        u in tasks ==> u.temp == (old(u.temp) && u !in t.Closure())
      ensures forall u :: u in t.Closure() ==> !u.temp
    {
      t.ClosureBelow();
      t.SetPermanent();
      forall u | u in tasks ensures u.Closed() {
        if u !in t.below { assert old(u.Closed()); }
      }
    }

    lemma NothingElseBelow(t: PlanTask)
      requires Valid() && t in tasks
      ensures Full(t)
    {
      assert t.below <= tasks;
    }

    /** Once the plan is built: everything a permanent task's output consists of is permanent, so it is not under the
        staging root that cleanup removes. */
    lemma OutputsKept(t: PlanTask)
      requires Valid() && t in tasks && !t.temp
      ensures forall u :: u in t.Closure() ==> !u.temp
    {
      t.ClosurePermanent();
    }
  }

  // ---------------------------------------------------------------- building a plan

  /** One task after the other; inputs are positions of earlier tasks. */
  datatype Step = Ordinary(inputs: seq<nat>, kind: Kind) | Sink(inputs: seq<nat>, manifest: bool) {
    /** The output of this task is kept. */
    predicate Keeps() { Sink? || (kind.Computes? && kind.named) }

    /** This task makes files of its own. */
    predicate OwnFiles() { if Sink? then !manifest else kind.Computes? }

    predicate Takes(order: seq<PlanTask>, ts: seq<PlanTask>) {
      |ts| == |inputs| && forall j :: 0 <= j < |ts| ==> inputs[j] < |order| && ts[j] == order[inputs[j]]
    }
  }

  predicate StepsOK(steps: seq<Step>) { forall i, d :: 0 <= i < |steps| && d in steps[i].inputs ==> d < i }

  /** The output of u is part of an output that is kept. */
  ghost predicate Kept(steps: seq<Step>, order: seq<PlanTask>, u: PlanTask)
    requires |order| <= |steps|
  {
    exists i :: 0 <= i < |order| && order[i].Valid() && steps[i].Keeps() && u in order[i].Closure()
  }

  function Chosen(order: seq<PlanTask>, inputs: seq<nat>): (ts: seq<PlanTask>)
    requires forall d :: d in inputs ==> d < |order|
    ensures |ts| == |inputs| && forall j :: 0 <= j < |ts| ==> inputs[j] in inputs && ts[j] == order[inputs[j]]
  {
    seq(|inputs|, j requires 0 <= j < |inputs| => assert inputs[j] in inputs; order[inputs[j]])
  }

  /** Each task was built for its step. */
  ghost predicate Follows(steps: seq<Step>, order: seq<PlanTask>) {
    |order| <= |steps| && forall i :: 0 <= i < |order| ==>
      steps[i].Takes(order, order[i].inputs) && order[i].selfContained == steps[i].OwnFiles()
  }

  /** The first tasks have been built: those that are permanent are exactly those whose output is part of a kept one. */
  ghost predicate Built(plan: ExecutionPlan, steps: seq<Step>, order: seq<PlanTask>)
    reads plan, plan.tasks
  {
    && plan.Valid() && Follows(steps, order) && Once(order) && plan.tasks == Elems(order)
    && forall u :: u in plan.tasks ==> (u.temp <==> !Kept(steps, order, u))
  }

  /** Any plan: in the end a task is permanent exactly when it is named, is a sink, or its files make up the output of
      one. */
  method BuildPlan(steps: seq<Step>) returns (plan: ExecutionPlan, order: seq<PlanTask>)
    requires StepsOK(steps)
    ensures Built(plan, steps, order) && |order| == |steps|
  {
    plan := new ExecutionPlan();
    order := [];
    while |order| < |steps|
      invariant fresh(plan) && fresh(plan.tasks) && Built(plan, steps, order)
    {
      order := BuildStep(plan, steps, order);
    }
  }

  method BuildStep(plan: ExecutionPlan, steps: seq<Step>, order: seq<PlanTask>) returns (order': seq<PlanTask>)
    requires StepsOK(steps) && |order| < |steps| && Built(plan, steps, order)
    modifies plan, plan.tasks
    ensures Built(plan, steps, order') && |order'| == |order| + 1 && fresh(plan.tasks - old(plan.tasks))
  {
    var step := steps[|order|];
    var inputs := Chosen(order, step.inputs);
    match step {
      case Ordinary(_, kind) => order' := BuildOrdinary(plan, steps, order, inputs, kind);
      case Sink(_, manifest) => order' := BuildSink(plan, steps, order, inputs, manifest);
    }
  }

  method BuildOrdinary(plan: ExecutionPlan, steps: seq<Step>, order: seq<PlanTask>, inputs: seq<PlanTask>, kind: Kind)
      returns (order': seq<PlanTask>)
    requires |order| < |steps| && Built(plan, steps, order) && steps[|order|].Takes(order, inputs)
    requires steps[|order|].Ordinary? && steps[|order|].kind == kind
    modifies plan
    ensures Built(plan, steps, order') && |order'| == |order| + 1 && fresh(plan.tasks - old(plan.tasks))
  {
    ghost var before := plan.tasks;
    assert forall d :: d in inputs ==> d in before;
    var t := plan.AddTask(inputs, kind);
    order' := order + [t];
    assert steps[|order|].Keeps() ==> t.Closure() == {t};
    BuiltNext(plan, steps, order, t, before);
  }

  method BuildSink(plan: ExecutionPlan, steps: seq<Step>, order: seq<PlanTask>, inputs: seq<PlanTask>, manifest: bool)
      returns (order': seq<PlanTask>)
    requires |order| < |steps| && Built(plan, steps, order) && steps[|order|].Takes(order, inputs)
    requires steps[|order|].Sink? && steps[|order|].manifest == manifest
    modifies plan, plan.tasks
    ensures Built(plan, steps, order') && |order'| == |order| + 1 && fresh(plan.tasks - old(plan.tasks))
  {
    ghost var before := plan.tasks;
    assert forall d :: d in inputs ==> d in before;
    var t := plan.AddSink(inputs, manifest);
    order' := order + [t];
    t.ClosureBelow();
    BuiltNext(plan, steps, order, t, before);
  }

  lemma BuiltNext(plan: ExecutionPlan, steps: seq<Step>, order: seq<PlanTask>, t: PlanTask, before: set<PlanTask>)
    requires |order| < |steps| && plan.Valid() && before == Elems(order) && plan.tasks == before + {t} && t !in before
        && t.Valid()
    requires Follows(steps, order) && Once(order) && steps[|order|].Takes(order, t.inputs)
    requires t.selfContained == steps[|order|].OwnFiles()
    requires forall u :: u in before ==> u.Valid() && u.below <= before
    requires forall u :: u in before ==> (u.temp <==>
      !Kept(steps, order, u) && !(steps[|order|].Keeps() && u in t.Closure()))
    requires t.temp <==> !steps[|order|].Keeps()
    ensures Built(plan, steps, order + [t])
  {
    OrderGrows(order, t);
    FollowsNext(steps, order, t);
    forall u | u in plan.tasks ensures u.temp <==> !Kept(steps, order + [t], u) {
      KeptNext(steps, order, t, u);
      if u == t {
        NotKeptYet(steps, order, before, t);
        t.ClosureBelow();
      }
    }
  }

  lemma OrderGrows(order: seq<PlanTask>, t: PlanTask)
    ensures Elems(order + [t]) == Elems(order) + {t}
    ensures Once(order) && t !in Elems(order) ==> Once(order + [t])
  {
    assert forall i :: 0 <= i < |order| ==> order[i] in Elems(order);
  }

  lemma FollowsNext(steps: seq<Step>, order: seq<PlanTask>, t: PlanTask)
    requires |order| < |steps| && Follows(steps, order) && steps[|order|].Takes(order, t.inputs)
        && t.selfContained == steps[|order|].OwnFiles()
    ensures Follows(steps, order + [t])
  {
    var more := order + [t];
    forall i | 0 <= i < |more| ensures steps[i].Takes(more, more[i].inputs) {
      assert i < |order| ==> more[i] == order[i] && steps[i].Takes(order, order[i].inputs);
    }
  }

  lemma KeptNext(steps: seq<Step>, order: seq<PlanTask>, t: PlanTask, u: PlanTask)
    requires |order| < |steps| && t.Valid()
    ensures Kept(steps, order + [t], u) <==> Kept(steps, order, u) || (steps[|order|].Keeps() && u in t.Closure())
  {
    var more := order + [t];
    assert forall i :: 0 <= i < |order| ==> more[i] == order[i];
    assert more[|order|] == t;
  }

  /** A new task is in no earlier closure. */
  lemma NotKeptYet(steps: seq<Step>, order: seq<PlanTask>, tasks: set<PlanTask>, t: PlanTask)
    requires |order| < |steps| && tasks == Elems(order) && t !in tasks && forall u :: u in tasks ==>
      u.Valid() && u.below <= tasks
    ensures !Kept(steps, order, t)
  {
    if Kept(steps, order, t) {
      var i :| 0 <= i < |order| && order[i].Valid() && steps[i].Keeps() && t in order[i].Closure();
      assert order[i] in tasks;
      order[i].ClosureBelow();
    }
  }

  // ---------------------------------------------------------------- the tasks of a plan

  ghost function Elems(order: seq<PlanTask>): set<PlanTask> { set u | u in order }

  ghost predicate Once(order: seq<PlanTask>) { forall i, j :: 0 <= i < j < |order| ==> order[i] != order[j] }

  lemma OnceConcat(a: seq<PlanTask>, b: seq<PlanTask>)
    requires Once(a) && Once(b) && Elems(a) !! Elems(b)
    ensures Once(a + b) && Elems(a + b) == Elems(a) + Elems(b)
  {
    forall i, j | 0 <= i < j < |a + b| ensures (a + b)[i] != (a + b)[j] {
      if i < |a| <= j { assert a[i] in Elems(a) && b[j - |a|] in Elems(b); }
    }
  }

  /** The inputs of these tasks have been visited. */
  ghost predicate Done(found: set<PlanTask>, visited: set<PlanTask>) {
    forall u :: u in found ==> forall d :: d in u.inputs ==> d in visited
  }

  /** While t is being iterated: what was yielded is new, below t, and visited; inputs of t itself may be missing. */
  ghost predicate Yielding(t: PlanTask, visited: set<PlanTask>, order: seq<PlanTask>, visited': set<PlanTask>)
    requires t.Valid()
  {
    && visited' == visited + Elems(order) && visited !! Elems(order) && Elems(order) <= t.below && Once(order)
    && t in Elems(order) && Done(Elems(order) - {t}, visited')
  }

  /** `ExecutionPlan.iter_tasks`: depth first, every task once. */
  method IterTasks(t: PlanTask, visited: set<PlanTask>) returns (order: seq<PlanTask>, visited': set<PlanTask>)
    requires t.Valid() && t !in visited
    ensures Yielding(t, visited, order, visited') && Done({t}, visited')
    decreases t.height, 1
  {
    order, visited' := [t], visited + {t};
    var i := 0;
    while i < |t.inputs|
      invariant i <= |t.inputs| && Yielding(t, visited, order, visited')
      invariant forall k :: 0 <= k < i ==> t.inputs[k] in visited'
    {
      order, visited' := IterInput(t, i, visited, order, visited');
      i := i + 1;
    }
  }

  /** One pass of the loop over the inputs. */
  method IterInput(t: PlanTask, i: nat, ghost before: set<PlanTask>, order: seq<PlanTask>, visited: set<PlanTask>)
          returns (order': seq<PlanTask>, visited': set<PlanTask>)
    requires t.Valid() && i < |t.inputs| && Yielding(t, before, order, visited)
    ensures Yielding(t, before, order', visited') && visited <= visited' && t.inputs[i] in visited'
    decreases t.height, 0
  {
    order', visited' := order, visited;
    var d := t.inputs[i];
    t.BelowInput(d);
    if d !in visited {
      var more;
      more, visited' := IterTasks(d, visited);
      YieldMore(t, d, before, order, visited, more, visited');
      order' := order + more;
    }
  }

  lemma YieldMore(t: PlanTask, d: PlanTask, before: set<PlanTask>, order: seq<PlanTask>, visited: set<PlanTask>,
          more: seq<PlanTask>, visited': set<PlanTask>)
    requires t.Valid() && d.Valid() && d in t.inputs && Yielding(t, before, order, visited)
    requires Yielding(d, visited, more, visited') && Done({d}, visited')
    ensures Yielding(t, before, order + more, visited') && d in visited'
  {
    OnceConcat(order, more);
    assert Elems(order + more) - {t} <= (Elems(order) - {t}) + (Elems(more) - {d}) + {d};
    DoneMore(Elems(order) - {t}, (Elems(more) - {d}) + {d}, visited, visited');
    t.BelowInput(d);
  }

  lemma DoneMore(a: set<PlanTask>, b: set<PlanTask>, visited: set<PlanTask>, visited': set<PlanTask>)
    requires Done(a, visited) && Done(b, visited') && visited <= visited'
    ensures Done(a + b, visited')
  {
  }

  lemma {:induction false} AllBelow(t: PlanTask, u: PlanTask, found: set<PlanTask>)
    requires t.Valid() && Full(t) && u in t.below && t in found && Done(found, found)
    ensures u in found
    decreases t.height
  {
    if u != t {
      assert t.Exact();
      var d := BelowSome(t.inputs, u);
      t.BelowInput(d);
      AllBelow(d, u, found);
    }
  }

  /** Nothing at or below t is there without reason. Every task of a plan in order has this. */
  ghost predicate Full(t: PlanTask) { forall u :: u in t.below ==> u.Exact() }

  /** `ExecutionPlan.tasks`: exactly the tasks at or below the root, each once. */
  method AllTasks(root: PlanTask) returns (order: seq<PlanTask>)
    requires root.Valid() && Full(root)
    ensures Elems(order) == root.below && Once(order)
  {
    var visited;
    order, visited := IterTasks(root, {});
    assert Elems(order) == (Elems(order) - {root}) + {root};
    forall u | u in root.below ensures u in visited { AllBelow(root, u, visited); }
  }

  // ---------------------------------------------------------------- the tasks of a built plan

  /** Some built task has u among its inputs, and so is among the output dependencies of u. */
  ghost predicate Read(tasks: set<PlanTask>, u: PlanTask) { exists x :: x in tasks && u in x.inputs }

  lemma {:induction false} BelowIsRead(t: PlanTask, u: PlanTask)
    requires t.Valid() && Full(t) && u in t.below && u != t
    ensures Read(t.below, u)
    decreases t.height
  {
    assert t.Exact();
    var d := BelowSome(t.inputs, u);
    t.BelowInput(d);
    if u == d {
      assert t in t.below && u in t.inputs;
    } else {
      BelowIsRead(d, u);
      var x :| x in d.below && u in x.inputs;
      assert x in t.below;
    }
  }

  /** Inputs stand earlier in the order of construction. */
  lemma ReaderIsLater(steps: seq<Step>, order: seq<PlanTask>, i: nat, j: nat)
    requires StepsOK(steps) && Follows(steps, order) && Once(order) && i < |order| && j < |order|
        && order[i] in order[j].inputs
    ensures i < j
  {
    var k :| 0 <= k < |order[j].inputs| && order[j].inputs[k] == order[i];
    assert steps[j].Takes(order, order[j].inputs);
    var d := steps[j].inputs[k];
    assert d in steps[j].inputs && order[d] == order[i];
  }

  /** When every task but the last is read by some task, all lead to the last. */
  lemma {:induction false} AllLeadToLast(plan: ExecutionPlan, steps: seq<Step>, order: seq<PlanTask>, i: nat)
    requires StepsOK(steps) && Built(plan, steps, order) && i < |order|
    requires forall u :: u in order && u != order[|order| - 1] ==> Read(plan.tasks, u)
    ensures order[i] in order[|order| - 1].below
    decreases |order| - i
  {
    var root := order[|order| - 1];
    assert root in plan.tasks && root.Valid();
    if i < |order| - 1 {
      assert order[i] in order && order[i] != root;
      var x :| x in plan.tasks && order[i] in x.inputs;
      var j :| 0 <= j < |order| && order[j] == x;
      ReaderIsLater(steps, order, i, j);
      AllLeadToLast(plan, steps, order, j);
      assert x.Valid();
      x.BelowInput(order[i]);
      assert root.Valid() && x.below <= root.below;
    }
  }

  lemma AllOrSome(plan: ExecutionPlan, steps: seq<Step>, order: seq<PlanTask>)
    requires StepsOK(steps) && Built(plan, steps, order) && order != []
    ensures var root := order[|order| - 1];
      root in plan.tasks && root.below <= plan.tasks
      && (root.below == plan.tasks <==> forall u :: u in order && u != root ==> Read(plan.tasks, u))
  {
    var root := order[|order| - 1];
    assert root in order && root in plan.tasks;
    plan.NothingElseBelow(root);
    if root.below == plan.tasks {
      forall u | u in order && u != root ensures Read(plan.tasks, u) { BelowIsRead(root, u); }
    }
    if forall u :: u in order && u != root ==> Read(plan.tasks, u) {
      forall u | u in plan.tasks ensures u in root.below {
        var i :| 0 <= i < |order| && order[i] == u;
        AllLeadToLast(plan, steps, order, i);
      }
    }
  }

  /** A plan as built, and the tasks that the scheduler knows, which are those at or below the root, the task built
      last. It knows every built task exactly when all but the root are read by some built task; a task that it does not
      know is still named by its inputs as a consumer. */
  method PlanAndTasks(steps: seq<Step>) returns (plan: ExecutionPlan, order: seq<PlanTask>, known: seq<PlanTask>)
    requires StepsOK(steps) && steps != []
    ensures Built(plan, steps, order) && |order| == |steps|
    ensures Once(known) && Elems(known) == order[|order| - 1].below <= plan.tasks
    ensures Elems(known) == plan.tasks
        <==> forall u :: u in order && u != order[|order| - 1] ==> Read(plan.tasks, u)
  {
    plan, order := BuildPlan(steps);
    AllOrSome(plan, steps, order);
    plan.NothingElseBelow(order[|order| - 1]);
    known := AllTasks(order[|order| - 1]);
  }
}
