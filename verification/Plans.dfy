/** The task graph the scheduler runs. */
module Plans {

  datatype Config = Config(maxRetry: nat, maxFail: nat, prioritizeRetry: bool, maxMissed: nat)

  /** `inputs` and `outputs` are the dependency dictionaries of the tasks, `rank` a topological rank.
      Tasks in `onScheduler` only run on the local executor, those in `light` are trivial,
      those in `boostable` belong to a node that enables resource boosts. */
  datatype RawPlan = RawPlan(
    tasks: set<nat>, inputs: map<nat, seq<nat>>, outputs: map<nat, seq<nat>>, rank: map<nat, nat>, top: nat,
    root: nat, nodes: map<nat, nat>, onScheduler: set<nat>, light: set<nat>, boostable: set<nat>, cfg: Config)

  /** Task k and its neighbours: inputs have a smaller rank, every task but the root has a consumer in the plan.
      `outputs` inverts `inputs`, and may also name consumers that were constructed but do not lead to the root. */
  predicate Linked(p: RawPlan, k: nat) {
    && k in p.inputs && k in p.outputs && k in p.rank && k in p.nodes && p.rank[k] <= p.top
    && (forall d :: d in p.inputs[k] ==>
          d in p.tasks && d in p.rank && p.rank[d] < p.rank[k] && d in p.outputs && k in p.outputs[d])
    && (forall c :: c in p.outputs[k] && c in p.tasks ==> c in p.inputs && k in p.inputs[c])
    && (k != p.root ==> exists c :: c in p.outputs[k] && c in p.tasks)
  }

  predicate WF(p: RawPlan) {
    && p.root in p.tasks
    && forall k {:trigger Linked(p, k)} :: k in p.tasks ==> Linked(p, k)
  }

  /** Every consumer that task k names is a task of the plan. */
  predicate Contained(p: RawPlan, k: nat) { k in p.outputs && AllIn(p.outputs[k], p.tasks) }

  /** `ExecutionPlan.tasks` with its dependency dictionaries: a finite graph in which every task leads to the root. */
  type Plan = p: RawPlan | WF(p)
    witness RawPlan({0}, map[0 := []], map[0 := []], map[0 := 0], 0, 0, map[0 := 0], {}, {}, {}, Config(0, 0, false, 0))

  /** Distance from the top of the graph: consumers are strictly closer. */
  ghost function Height(p: Plan, k: nat): nat {
    if k in p.tasks then assert Linked(p, k); 1 + p.top - p.rank[k] else 0
  }

  /** A strict bound on the heights of the listed tasks. */
  ghost function Heights(p: Plan, ks: seq<nat>): (h: nat)
    ensures forall k :: k in ks ==> Height(p, k) < h
  {
    if ks == [] then 0 else
      var h := Heights(p, ks[1..]);
      var h0 := Height(p, ks[0]) + 1;
      assert ks[0] in ks && forall k :: k in ks[1..] ==> k in ks;
      assert forall k :: k in ks ==> k == ks[0] || k in ks[1..];
      if h0 > h then h0 else h
  }

  lemma HeightsBound(p: Plan, ks: seq<nat>, b: nat)
    requires forall k :: k in ks ==> Height(p, k) < b
    ensures Heights(p, ks) <= b
  {
    if ks != [] {
      assert ks[0] in ks;
      HeightsBound(p, ks[1..], b);
    }
  }

  predicate AllIn(ks: seq<nat>, done: set<nat>) { forall k :: k in ks ==> k in done }

  /** A set of tasks that is closed under inputs and holds the root holds every task. */
  lemma {:induction false} RootClosureIsEverything(p: Plan, done: set<nat>, k: nat)
    requires k in p.tasks && p.root in done
    requires forall c :: c in done && c in p.tasks && c in p.inputs ==> AllIn(p.inputs[c], done)
    ensures k in done
    decreases Height(p, k)
  {
    if k != p.root {
      assert Linked(p, k);
      var c :| c in p.outputs[k] && c in p.tasks;
      assert Linked(p, c);
      RootClosureIsEverything(p, done, c);
      assert k in p.inputs[c];
    }
  }

  /** If no unfinished task has all its inputs finished, then no task is unfinished. */
  lemma {:induction false} NoReadyMeansNonePending(p: Plan, done: set<nat>, k: nat)
    requires k in p.tasks
    requires forall c :: c in p.tasks && c in p.inputs && c !in done ==> !AllIn(p.inputs[c], done)
    ensures k in done
    decreases if k in p.rank then p.rank[k] else 0
  {
    if k !in done {
      assert Linked(p, k) && !AllIn(p.inputs[k], done);
      var d :| d in p.inputs[k] && d !in done;
      NoReadyMeansNonePending(p, done, d);
    }
  }
}
