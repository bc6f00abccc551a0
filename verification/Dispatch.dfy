/** `dispatch_tasks`: reorder the queue, then hand tasks to executors in rounds. */
module Dispatch {
  import opened WorkItems
  import opened Executors
  import opened Plans
  import opened Sched

  // ---------------------------------------------------------------- reordering

  predicate SortsBefore(cfg: Config, a: Task, b: Task) {
    if a.rid.retry == b.rid.retry then a.rid.id < b.rid.id
    else if cfg.prioritizeRetry then a.rid.retry > b.rid.retry else a.rid.retry < b.rid.retry
  }

  function InsertTask(cfg: Config, t: Task, q: seq<Task>): seq<Task> {
    if q == [] || !SortsBefore(cfg, q[0], t) then [t] + q else [q[0]] + InsertTask(cfg, t, q[1..])
  }

  function SortTasks(cfg: Config, q: seq<Task>): seq<Task> {
    if q == [] then [] else InsertTask(cfg, q[0], SortTasks(cfg, q[1..]))
  }

  function InsertNode(n: nat, ns: seq<nat>): (r: seq<nat>)
    ensures forall x :: x in r <==> x == n || x in ns
  {
    if ns == [] || n < ns[0] then [n] + ns
    else if n == ns[0] then ns
    else assert forall x :: x in ns <==> x == ns[0] || x in ns[1..]; [ns[0]] + InsertNode(n, ns[1..])
  }

  /** The node ids in the queue, ascending and without repetition. */
  function NodesOf(q: seq<Task>): (r: seq<nat>)
    ensures forall t :: t in q ==> t.node in r
  {
    if q == [] then [] else
      assert forall t :: t in q ==> t == q[0] || t in q[1..];
      InsertNode(q[0].node, NodesOf(q[1..]))
  }

  function OfNode(q: seq<Task>, n: nat): seq<Task> {
    if q == [] then [] else (if q[0].node == n then [q[0]] else []) + OfNode(q[1..], n)
  }

  function GroupsOf(cfg: Config, q: seq<Task>, ns: seq<nat>): (r: seq<seq<Task>>)
    ensures |r| == |ns|
    ensures forall g :: 0 <= g < |r| ==> r[g] == SortTasks(cfg, OfNode(q, ns[g]))
  {
    if ns == [] then [] else [SortTasks(cfg, OfNode(q, ns[0]))] + GroupsOf(cfg, q, ns[1..])
  }

  /** The first items of the groups that still have one. */
  function Heads(gs: seq<seq<Task>>): seq<Task> {
    if gs == [] then [] else (if gs[0] == [] then [] else [gs[0][0]]) + Heads(gs[1..])
  }

  function Tail(g: seq<Task>): seq<Task> { if g == [] then [] else g[1..] }

  function Tails(gs: seq<seq<Task>>): seq<seq<Task>> { seq(|gs|, g requires 0 <= g < |gs| => Tail(gs[g])) }

  function Total(gs: seq<seq<Task>>): nat { if gs == [] then 0 else |gs[0]| + Total(gs[1..]) }

  lemma {:induction false} HeadsAndTails(gs: seq<seq<Task>>)
    ensures Total(gs) == |Heads(gs)| + Total(Tails(gs))
  {
    if gs != [] {
      HeadsAndTails(gs[1..]);
      assert Tails(gs)[1..] == Tails(gs[1..]);
    }
  }

  /** `zip_longest` over the groups, flattened. */
  function RoundRobin(gs: seq<seq<Task>>): seq<Task>
    decreases Total(gs)
  {
    HeadsAndTails(gs);
    if Heads(gs) == [] then [] else Heads(gs) + RoundRobin(Tails(gs))
  }

  function Reorder(cfg: Config, q: seq<Task>): seq<Task> { RoundRobin(GroupsOf(cfg, q, NodesOf(q))) }

  // ---------------------------------------------------------------- assignment

  function Ratio(x: int, base: nat): real { if base == 0 then 1.0 else x as real / base as real }

  function Max(a: int, b: int): int { if a < b then b else a }

  function Min(a: int, b: int): int { if a < b then a else b }

  /** Default memory limit: the executor's memory in proportion to the requested cores. */
  function WithMemory(e: Executor, t: Task): Task {
    if t.limits.baseMem.None? && e.probe.cpus > 0
    then t.(limits := t.limits.(baseMem := Some(e.probe.memory * t.limits.baseCpu / e.probe.cpus)))
    else t
  }

  /** `try_boost_resource`. */
  function Boost(p: Plan, e: Executor, t: Task): Task {
    var l := t.limits;
    if l.cpuBoost != 1.0 || l.memBoost != 1.0 || t.rid.id !in p.boostable || l.baseMem.None? then t else
      var mem := l.baseMem.value;
      var cpu' := Max(l.baseCpu, Min(l.baseCpu * 2, Min(e.probe.cpus - e.cpus, e.probe.cpus / 2)));
      var mem' := Max(mem, Min(mem * 2, Min(e.probe.memory - e.memory, e.probe.memory / 2)));
      if l.baseCpu < cpu' || mem < mem'
      then t.(limits := l.(cpuBoost := Ratio(cpu', l.baseCpu), memBoost := Ratio(mem', mem))) else t
  }

  /** A task that has succeeded leaves the queue, and its consumers are tried. */
  function Skip(p: Plan, s: State, k: nat): (r: State)
    ensures s.OnlyEnqueues(r)
  {
    if k in p.tasks then EnqueueAll(p, LookUp(p, s, k), Consumers(p, s, k)) else s.Fail(UnknownTask)
  }

  /** Offer the head of the queue to executor i. The flag says whether the head left the queue. */
  function Offer(p: Plan, s: State, i: nat, final: bool): (State, bool)
    requires i < |s.execs| && s.schedQueue != []
  {
    var e := s.execs[i];
    var t := WithMemory(e, s.schedQueue[0]);
    var rest := s.(schedQueue := s.schedQueue[1..]);
    if s.Done(t.rid.id) then
      (Skip(p, rest, t.rid.id), true)
    else if e.Admits(t) then
      (rest.(execs := s.execs[i := e.Push(TaskItem(if final then Boost(p, e, t) else t))]), true)
    else (s.(schedQueue := [t] + s.schedQueue[1..]), false)
  }

  function UsableFrom(execs: seq<Executor>, i: nat): (r: seq<nat>)
    ensures forall j :: j in r <==> i <= j < |execs| && IsGood(execs[j]) && !execs[j].Busy()
    decreases |execs| - i
  {
    if i >= |execs| then []
    else (if IsGood(execs[i]) && !execs[i].Busy() then [i] else []) + UsableFrom(execs, i + 1)
  }

  function InsertExec(execs: seq<Executor>, i: nat, js: seq<nat>): (r: seq<nat>)
    requires i < |execs| && forall j :: j in js ==> j < |execs|
    ensures forall j :: j in r <==> j == i || j in js
  {
    if js == [] then [i]
    else if assert js[0] in js; |execs[i].running| <= |execs[js[0]].running| then [i] + js
    else assert forall j :: j in js <==> j == js[0] || j in js[1..]; [js[0]] + InsertExec(execs, i, js[1..])
  }

  function SortExecs(execs: seq<Executor>, js: seq<nat>): (r: seq<nat>)
    requires forall j :: j in js ==> j < |execs|
    ensures forall j :: j in r <==> j in js
  {
    if js == [] then [] else
      assert js[0] in js && forall j :: j in js <==> j == js[0] || j in js[1..];
      InsertExec(execs, js[0], SortExecs(execs, js[1..]))
  }

  /** The usable executors, those with fewer running works first. */
  function UsableExecs(execs: seq<Executor>): (r: seq<nat>)
    ensures forall j :: j in r <==> 0 <= j < |execs| && IsGood(execs[j]) && !execs[j].Busy()
  {
    SortExecs(execs, UsableFrom(execs, 0))
  }

  /** One pass over the executors. The flag says whether the task that was first has left the queue. */
  function Round(p: Plan, s: State, order: seq<nat>, final: bool): (State, bool)
    requires forall j :: j in order ==> j < |s.execs|
    decreases |order|
  {
    if order == [] || s.schedQueue == [] then (s, false) else
      assert order[0] in order && forall j :: j in order[1..] ==> j in order;
      var (s1, popped) := Offer(p, s, order[0], final);
      OfferKeepsExecs(p, s, order[0], final);
      var (s2, later) := Round(p, s1, order[1..], final);
      (s2, popped || later)
  }

  lemma OfferKeepsExecs(p: Plan, s: State, i: nat, final: bool)
    requires i < |s.execs| && s.schedQueue != []
    ensures |Offer(p, s, i, final).0.execs| == |s.execs|
  {
  }

  // ---------------------------------------------------------------- termination

  /** The tasks whose current attempt is not scheduled yet. */
  ghost function Unscheduled(p: Plan, s: State): set<nat> {
    set k | k in p.tasks && k in s.master && RuntimeId(k, s.epoch, s.master[k].retry) !in s.scheduled
  }

  /** Enqueuing either schedules a new attempt or leaves the queues alone. */
  ghost predicate Progress(p: Plan, s: State, r: State) {
    || (r.localQueue == s.localQueue && r.schedQueue == s.schedQueue && r.scheduled == s.scheduled)
    || |Unscheduled(p, r)| < |Unscheduled(p, s)|
  }

  lemma Shrinks(a: set<nat>, b: set<nat>, x: nat)
    requires a <= b && x in b && x !in a
    ensures |a| < |b|
  {
    assert a <= b - {x};
    Subset(a, b - {x});
  }

  lemma {:induction false} Subset(a: set<nat>, b: set<nat>)
    requires a <= b
    ensures |a| <= |b|
  {
    if a != {} {
      var x :| x in a;
      Subset(a - {x}, b - {x});
    }
  }

  lemma {:induction false} EnqueueOneProgress(p: Plan, s: State, k: nat)
    ensures Progress(p, s, EnqueueOne(p, s, k))
    decreases Height(p, k) + 1, 0
  {
    if k in p.tasks && k in s.master && Ready(p, s, k) {
      if s.Done(k) {
        EnqueueAllProgress(p, LookUp(p, s, k), Consumers(p, s, k));
        SameScheduled(p, LookUp(p, s, k), s);
      } else {
        var t := CopyTask(p, s, k);
        if t.rid !in s.scheduled {
          var r := EnqueueOne(p, s, k);
          assert r.scheduled == s.scheduled[t.rid := t];
          Shrinks(Unscheduled(p, r), Unscheduled(p, s), k);
        }
      }
    }
  }

  lemma {:induction false} EnqueueAllProgress(p: Plan, s: State, ks: seq<nat>)
    ensures Progress(p, s, EnqueueAll(p, s, ks))
    decreases Heights(p, ks), 1 + |ks|
  {
    if ks != [] {
      assert ks[0] in ks;
      HeightsBound(p, ks[1..], Heights(p, ks));
      EnqueueOneProgress(p, s, ks[0]);
      EnqueueAllProgress(p, EnqueueOne(p, s, ks[0]), ks[1..]);
    }
  }

  /** Lexicographic measure: unscheduled current attempts, then queue length. */
  ghost predicate Smaller(p: Plan, r: State, s: State) {
    || |Unscheduled(p, r)| < |Unscheduled(p, s)|
    || (|Unscheduled(p, r)| == |Unscheduled(p, s)| && |r.schedQueue| < |s.schedQueue|)
  }

  ghost predicate SameOrSmaller(p: Plan, r: State, s: State) {
    || Smaller(p, r, s)
    || (|Unscheduled(p, r)| == |Unscheduled(p, s)| && |r.schedQueue| == |s.schedQueue|)
  }

  lemma SameScheduled(p: Plan, r: State, s: State)
    requires r.scheduled == s.scheduled && r.master == s.master && r.epoch == s.epoch
    ensures Unscheduled(p, r) == Unscheduled(p, s)
  {
  }

  lemma SkipProgress(p: Plan, s: State, rest: State, ks: seq<nat>)
    requires s.schedQueue != [] && rest == s.(schedQueue := s.schedQueue[1..], error := rest.error)
    ensures Smaller(p, EnqueueAll(p, rest, ks), s)
  {
    SameScheduled(p, rest, s);
    var r := EnqueueAll(p, rest, ks);
    EnqueueAllProgress(p, rest, ks);
    if r.scheduled == rest.scheduled {
      SameScheduled(p, r, rest);
    }
  }

  /** Offering the head never increases the measure, and decreases it when the head leaves. */
  lemma OfferProgress(p: Plan, s: State, i: nat, final: bool)
    requires i < |s.execs| && s.schedQueue != []
    ensures SameOrSmaller(p, Offer(p, s, i, final).0, s)
    ensures Offer(p, s, i, final).1 ==> Smaller(p, Offer(p, s, i, final).0, s)
  {
    var t := WithMemory(s.execs[i], s.schedQueue[0]);
    var rest := s.(schedQueue := s.schedQueue[1..]);
    if s.Done(t.rid.id) {
      if t.rid.id in p.tasks {
        SkipProgress(p, s, LookUp(p, rest, t.rid.id), Consumers(p, rest, t.rid.id));
      } else {
        SameScheduled(p, rest.Fail(UnknownTask), s);
      }
    } else {
      SameScheduled(p, Offer(p, s, i, final).0, s);
    }
  }

  /** A pass over the executors that removes the first task decreases the measure. */
  lemma {:induction false} RoundProgress(p: Plan, s: State, order: seq<nat>, final: bool)
    requires forall j :: j in order ==> j < |s.execs|
    ensures var (r, popped) := Round(p, s, order, final);
      |r.execs| == |s.execs| && SameOrSmaller(p, r, s) && (popped ==> Smaller(p, r, s))
    decreases |order|
  {
    if order != [] && s.schedQueue != [] {
      assert order[0] in order && forall j :: j in order[1..] ==> j in order;
      OfferKeepsExecs(p, s, order[0], final);
      OfferProgress(p, s, order[0], final);
      RoundProgress(p, Offer(p, s, order[0], final).0, order[1..], final);
    }
  }

  /** One round. A task no executor took is set aside. */
  function Pass(p: Plan, s: State, aside: seq<Task>, final: bool): (State, seq<Task>) {
    var (s1, popped) := Round(p, s, UsableExecs(s.execs), final);
    if s1.schedQueue != [] && !popped
    then (s1.(schedQueue := s1.schedQueue[1..]), aside + [s1.schedQueue[0]])
    else (s1, aside)
  }

  lemma PassProgress(p: Plan, s: State, aside: seq<Task>, final: bool)
    requires s.schedQueue != []
    ensures Smaller(p, Pass(p, s, aside, final).0, s)
  {
    var (s1, popped) := Round(p, s, UsableExecs(s.execs), final);
    RoundProgress(p, s, UsableExecs(s.execs), final);
    if s1.schedQueue != [] && !popped { SameScheduled(p, s1.(schedQueue := s1.schedQueue[1..]), s1); }
  }

  /** The outer loop: passes until the queue or the good executors run out. */
  function Assign(p: Plan, s: State, aside: seq<Task>, final: bool): State
    decreases |Unscheduled(p, s)|, |s.schedQueue|
  {
    if s.schedQueue == [] || GoodCount(s.execs) == 0 then s.(schedQueue := s.schedQueue + aside) else
      var (r, more) := Pass(p, s, aside, final);
      PassProgress(p, s, aside, final);
      Assign(p, r, more, final)
  }

  lemma AssignContinues(p: Plan, s: State, aside: seq<Task>, final: bool)
    requires s.schedQueue != [] && GoodCount(s.execs) != 0
    ensures Smaller(p, Pass(p, s, aside, final).0, s)
    ensures Assign(p, Pass(p, s, aside, final).0, Pass(p, s, aside, final).1, final) == Assign(p, s, aside, final)
  {
    PassProgress(p, s, aside, final);
  }

  lemma AssignEnds(p: Plan, s: State, aside: seq<Task>, final: bool)
    requires s.schedQueue == [] || GoodCount(s.execs) == 0
    ensures Assign(p, s, aside, final) == s.(schedQueue := s.schedQueue + aside)
  {
  }

  function NumRunning(execs: seq<Executor>): nat {
    if execs == [] then 0 else (if execs[0].Tracked() then |execs[0].running| else 0) + NumRunning(execs[1..])
  }

  function FinalPhase(p: Plan, s: State): bool {
    PendingNontrivial(p, s) - NumRunning(s.execs) <= GoodCount(s.execs) * 2
  }

  function DispatchTasks(p: Plan, s: State): State {
    var s1 := s.(schedQueue := Reorder(p.cfg, s.schedQueue));
    Assign(p, s1, [], FinalPhase(p, s1))
  }
}
