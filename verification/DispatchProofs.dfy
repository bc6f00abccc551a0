/** Dispatch: the reordering is a fair permutation, no attempt is lost or duplicated, capacity holds. */
module DispatchProofs {
  import opened WorkItems
  import opened Executors
  import opened Plans
  import opened Sched
  import opened Dispatch

  // ---------------------------------------------------------------- the reordering is a permutation

  ghost function Union(gs: seq<seq<Task>>): multiset<Task> {
    if gs == [] then multiset{} else multiset(gs[0]) + Union(gs[1..])
  }

  lemma {:induction false} SortPermutes(cfg: Config, q: seq<Task>)
    ensures multiset(SortTasks(cfg, q)) == multiset(q)
  {
    if q != [] {
      SortPermutes(cfg, q[1..]);
      InsertPermutes(cfg, q[0], SortTasks(cfg, q[1..]));
      assert q == [q[0]] + q[1..];
    }
  }

  lemma {:induction false} InsertPermutes(cfg: Config, t: Task, q: seq<Task>)
    ensures multiset(InsertTask(cfg, t, q)) == multiset{t} + multiset(q)
  {
    if q != [] && SortsBefore(cfg, q[0], t) {
      InsertPermutes(cfg, t, q[1..]);
      assert q == [q[0]] + q[1..];
    }
  }

  lemma UnionCons(g: seq<Task>, gs: seq<seq<Task>>)
    ensures Union([g] + gs) == multiset(g) + Union(gs)
  {
    assert ([g] + gs)[1..] == gs;
  }

  lemma SwapMiddle(a: multiset<Task>, b: multiset<Task>, c: multiset<Task>, d: multiset<Task>)
    ensures (a + b) + (c + d) == (a + c) + (b + d)
  {
  }

  function HeadOf(g: seq<Task>): seq<Task> { if g == [] then [] else [g[0]] }

  lemma HeadsCons(g: seq<Task>, gs: seq<seq<Task>>)
    ensures Heads([g] + gs) == HeadOf(g) + Heads(gs) && Tails([g] + gs) == [Tail(g)] + Tails(gs)
    ensures multiset(g) == multiset(HeadOf(g)) + multiset(Tail(g))
  {
    assert ([g] + gs)[1..] == gs;
    assert g == HeadOf(g) + Tail(g);
  }

  lemma {:induction false} HeadsUnion(gs: seq<seq<Task>>)
    ensures Union(gs) == multiset(Heads(gs)) + Union(Tails(gs))
  {
    if gs != [] {
      HeadsUnion(gs[1..]);
      assert gs == [gs[0]] + gs[1..];
      HeadsUnionStep(gs[0], gs[1..]);
    }
  }

  lemma HeadsUnionStep(g: seq<Task>, gs: seq<seq<Task>>)
    requires Union(gs) == multiset(Heads(gs)) + Union(Tails(gs))
    ensures Union([g] + gs) == multiset(Heads([g] + gs)) + Union(Tails([g] + gs))
  {
    HeadsCons(g, gs);
    UnionCons(g, gs);
    UnionCons(Tail(g), Tails(gs));
    SwapMiddle(multiset(HeadOf(g)), multiset(Tail(g)), multiset(Heads(gs)), Union(Tails(gs)));
  }

  lemma {:induction false} RoundRobinUnion(gs: seq<seq<Task>>)
    ensures multiset(RoundRobin(gs)) == Union(gs)
    decreases Total(gs)
  {
    HeadsAndTails(gs);
    HeadsUnion(gs);
    if Heads(gs) == [] {
      NoHeadsEmpty(gs);
    } else {
      RoundRobinUnion(Tails(gs));
    }
  }

  lemma {:induction false} NoHeadsEmpty(gs: seq<seq<Task>>)
    requires Heads(gs) == []
    ensures Union(gs) == multiset{}
  {
    if gs != [] { NoHeadsEmpty(gs[1..]); }
  }

  ghost predicate Ascending(ns: seq<nat>) { forall i, j :: 0 <= i < j < |ns| ==> ns[i] < ns[j] }

  lemma {:induction false} InsertAscending(n: nat, ns: seq<nat>)
    requires Ascending(ns)
    ensures Ascending(InsertNode(n, ns))
  {
    if ns != [] && n > ns[0] {
      InsertAscending(n, ns[1..]);
      var r := InsertNode(n, ns[1..]);
      forall i | 0 <= i < |r| ensures ns[0] < r[i] { assert r[i] in r; }
    }
  }

  lemma {:induction false} NodesAscending(q: seq<Task>)
    ensures Ascending(NodesOf(q))
  {
    if q != [] {
      NodesAscending(q[1..]);
      InsertAscending(q[0].node, NodesOf(q[1..]));
    }
  }

  /** Adding one task to the queue adds it to exactly one group. */
  lemma {:induction false} GroupsAdd(cfg: Config, t: Task, q: seq<Task>, ns: seq<nat>)
    requires Ascending(ns)
    ensures Union(GroupsOf(cfg, [t] + q, ns)) ==
      Union(GroupsOf(cfg, q, ns)) + if t.node in ns then multiset{t} else multiset{}
  {
    if ns != [] {
      GroupsAdd(cfg, t, q, ns[1..]);
      assert ([t] + q)[1..] == q;
      assert GroupsOf(cfg, [t] + q, ns)[1..] == GroupsOf(cfg, [t] + q, ns[1..]);
      assert GroupsOf(cfg, q, ns)[1..] == GroupsOf(cfg, q, ns[1..]);
      SortPermutes(cfg, OfNode([t] + q, ns[0]));
      SortPermutes(cfg, OfNode(q, ns[0]));
      assert t.node in ns <==> t.node == ns[0] || t.node in ns[1..];
    }
  }

  lemma {:induction false} GroupsEmpty(cfg: Config, ns: seq<nat>)
    ensures Union(GroupsOf(cfg, [], ns)) == multiset{}
  {
    if ns != [] {
      GroupsEmpty(cfg, ns[1..]);
      assert GroupsOf(cfg, [], ns)[1..] == GroupsOf(cfg, [], ns[1..]);
    }
  }

  lemma {:induction false} GroupsUnion(cfg: Config, q: seq<Task>, ns: seq<nat>)
    requires Ascending(ns) && forall t :: t in q ==> t.node in ns
    ensures Union(GroupsOf(cfg, q, ns)) == multiset(q)
  {
    if q == [] {
      GroupsEmpty(cfg, ns);
    } else {
      assert q == [q[0]] + q[1..] && q[0] in q && forall t :: t in q[1..] ==> t in q;
      GroupsUnion(cfg, q[1..], ns);
      GroupsAdd(cfg, q[0], q[1..], ns);
    }
  }

  lemma ReorderPermutes(cfg: Config, q: seq<Task>)
    ensures multiset(Reorder(cfg, q)) == multiset(q)
  {
    NodesAscending(q);
    GroupsUnion(cfg, q, NodesOf(q));
    RoundRobinUnion(GroupsOf(cfg, q, NodesOf(q)));
  }

  // ---------------------------------------------------------------- the reordering is fair

  /** Position in the flattened queue of item k of group g. */
  ghost function Pos(gs: seq<seq<Task>>, g: nat, k: nat): nat
    requires g < |gs| && k < |gs[g]|
    decreases k
  {
    if k == 0 then |Heads(gs[..g])| else |Heads(gs)| + Pos(Tails(gs), g, k - 1)
  }

  lemma {:induction false} HeadAt(gs: seq<seq<Task>>, g: nat)
    requires g < |gs| && gs[g] != []
    ensures |Heads(gs[..g])| < |Heads(gs)| && Heads(gs)[|Heads(gs[..g])|] == gs[g][0]
  {
    if g > 0 {
      HeadAt(gs[1..], g - 1);
      assert gs[..g][1..] == gs[1..][..g - 1];
    }
  }

  lemma ShiftAt(a: seq<Task>, b: seq<Task>, i: nat)
    requires i < |b|
    ensures (a + b)[|a| + i] == b[i]
  {
  }

  lemma RoundRobinSplit(gs: seq<seq<Task>>)
    requires Heads(gs) != []
    ensures RoundRobin(gs) == Heads(gs) + RoundRobin(Tails(gs))
  {
    HeadsAndTails(gs);
  }

  lemma RoundRobinAt(gs: seq<seq<Task>>, g: nat, k: nat)
    requires g < |gs| && k < |gs[g]|
    ensures Pos(gs, g, k) < |RoundRobin(gs)| && RoundRobin(gs)[Pos(gs, g, k)] == gs[g][k]
    decreases k
  {
    if k == 0 { RoundRobinFirst(gs, g); } else { RoundRobinLater(gs, g, k); }
  }

  lemma RoundRobinFirst(gs: seq<seq<Task>>, g: nat)
    requires g < |gs| && gs[g] != []
    ensures Pos(gs, g, 0) < |RoundRobin(gs)| && RoundRobin(gs)[Pos(gs, g, 0)] == gs[g][0]
  {
    HeadAt(gs, g);
    RoundRobinSplit(gs);
  }

  lemma RoundRobinLater(gs: seq<seq<Task>>, g: nat, k: nat)
    requires g < |gs| && 0 < k < |gs[g]|
    ensures Pos(gs, g, k) < |RoundRobin(gs)| && RoundRobin(gs)[Pos(gs, g, k)] == gs[g][k]
    decreases k, 0
  {
    HeadAt(gs, g);
    RoundRobinSplit(gs);
    var i := Pos(Tails(gs), g, k - 1);
    RoundRobinAt(Tails(gs), g, k - 1);
    ShiftAt(Heads(gs), RoundRobin(Tails(gs)), i);
  }

  lemma {:induction false} HeadsMonotone(gs: seq<seq<Task>>, g: nat, h: nat)
    requires g < h <= |gs| && gs[g] != []
    ensures |Heads(gs[..g])| < |Heads(gs[..h])|
  {
    HeadAt(gs[..h], g);
    assert gs[..h][..g] == gs[..g];
  }

  /** Round robin: the k-th tasks of all nodes come before the (k+1)-th tasks of any node, and among
      the k-th tasks the nodes keep their order. */
  lemma RoundRobinFair(gs: seq<seq<Task>>, g: nat, k: nat, h: nat, l: nat)
    requires g < |gs| && k < |gs[g]| && h < |gs| && l < |gs[h]|
    requires k < l || (k == l && g < h)
    ensures Pos(gs, g, k) < Pos(gs, h, l)
    decreases k, 1
  {
    if k > 0 {
      FairLater(gs, g, k, h, l);
    } else if l > 0 {
      FirstBeforeLater(gs, g, h, l);
    } else {
      FairFirst(gs, g, h);
    }
  }

  lemma FairLater(gs: seq<seq<Task>>, g: nat, k: nat, h: nat, l: nat)
    requires g < |gs| && 0 < k < |gs[g]| && h < |gs| && 0 < l < |gs[h]|
    requires k < l || (k == l && g < h)
    ensures Pos(gs, g, k) < Pos(gs, h, l)
    decreases k, 0
  {
    TailAt(gs, g, k);
    TailAt(gs, h, l);
    RoundRobinFair(Tails(gs), g, k - 1, h, l - 1);
  }

  lemma FairFirst(gs: seq<seq<Task>>, g: nat, h: nat)
    requires g < h < |gs| && gs[g] != [] && gs[h] != []
    ensures Pos(gs, g, 0) < Pos(gs, h, 0)
  {
    HeadsMonotone(gs, g, h);
  }

  lemma TailAt(gs: seq<seq<Task>>, g: nat, k: nat)
    requires g < |gs| && 0 < k < |gs[g]|
    ensures k - 1 < |Tails(gs)[g]| && Pos(gs, g, k) == |Heads(gs)| + Pos(Tails(gs), g, k - 1)
  {
  }

  lemma FirstBeforeLater(gs: seq<seq<Task>>, g: nat, h: nat, l: nat)
    requires g < |gs| && gs[g] != [] && h < |gs| && 0 < l < |gs[h]|
    ensures Pos(gs, g, 0) < Pos(gs, h, l)
  {
    HeadAt(gs, g);
    TailAt(gs, h, l);
  }

  // ---------------------------------------------------------------- nothing is lost or duplicated

  ghost function CountQueue(q: seq<Task>, a: RuntimeId): nat {
    if q == [] then 0 else (if q[0].rid == a then 1 else 0) + CountQueue(q[1..], a)
  }

  ghost function CountRunning(works: seq<Running>, a: RuntimeId): nat {
    if works == [] then 0
    else (if works[0].TaskItem? && works[0].task.rid == a then 1 else 0) + CountRunning(works[1..], a)
  }

  ghost function CountExecs(execs: seq<Executor>, a: RuntimeId): nat {
    if execs == [] then 0 else CountRunning(execs[0].running, a) + CountExecs(execs[1..], a)
  }

  lemma {:induction false} CountAppend(q: seq<Task>, r: seq<Task>, a: RuntimeId)
    ensures CountQueue(q + r, a) == CountQueue(q, a) + CountQueue(r, a)
  {
    if q == [] {
      assert q + r == r;
    } else {
      assert (q + r)[1..] == q[1..] + r;
      CountAppend(q[1..], r, a);
    }
  }

  lemma {:induction false} CountRunningAppend(q: seq<Running>, r: seq<Running>, a: RuntimeId)
    ensures CountRunning(q + r, a) == CountRunning(q, a) + CountRunning(r, a)
  {
    if q == [] {
      assert q + r == r;
    } else {
      assert (q + r)[1..] == q[1..] + r;
      CountRunningAppend(q[1..], r, a);
    }
  }

  lemma {:induction false} CountExecsUpdate(execs: seq<Executor>, i: nat, e: Executor, a: RuntimeId)
    requires i < |execs|
    ensures CountExecs(execs[i := e], a) + CountRunning(execs[i].running, a)
            == CountExecs(execs, a) + CountRunning(e.running, a)
  {
    if i > 0 {
      CountExecsUpdate(execs[1..], i - 1, e, a);
      assert execs[i := e][1..] == execs[1..][i - 1 := e];
    } else {
      assert execs[i := e][1..] == execs[1..];
    }
  }

  lemma Without(q: seq<Task>, i: nat)
    requires i < |q|
    ensures multiset(q[..i] + q[i + 1..]) == multiset(q) - multiset{q[i]}
  {
    assert q == q[..i] + ([q[i]] + q[i + 1..]);
  }

  lemma WithoutFirst(q: seq<Task>)
    requires q != []
    ensures multiset(q[1..]) == multiset(q) - multiset{q[0]}
  {
    assert q == [q[0]] + q[1..];
  }

  lemma CountWithout(q: seq<Task>, i: nat, a: RuntimeId)
    requires i < |q|
    ensures CountQueue(q, a) == CountQueue(q[..i] + q[i + 1..], a) + if q[i].rid == a then 1 else 0
  {
    assert q == q[..i] + ([q[i]] + q[i + 1..]);
    assert ([q[i]] + q[i + 1..])[1..] == q[i + 1..];
    CountAppend(q[..i], q[i + 1..], a);
    CountAppend(q[..i], [q[i]] + q[i + 1..], a);
  }

  /** Where the first task of q stands in its permutation r. */
  lemma FirstIn(q: seq<Task>, r: seq<Task>) returns (i: nat)
    requires q != [] && multiset(q) == multiset(r)
    ensures i < |r| && r[i] == q[0] && multiset(q[1..]) == multiset(r[..i] + r[i + 1..])
  {
    assert q[0] in multiset(r) by { assert q[0] in multiset(q); }
    i :| 0 <= i < |r| && r[i] == q[0];
    WithoutFirst(q);
    Without(r, i);
  }

  lemma {:induction false} CountPermuted(q: seq<Task>, r: seq<Task>, a: RuntimeId)
    requires multiset(q) == multiset(r)
    ensures CountQueue(q, a) == CountQueue(r, a)
  {
    if q == [] {
      assert |multiset(r)| == 0;
    } else {
      var i := FirstIn(q, r);
      CountPermuted(q[1..], r[..i] + r[i + 1..], a);
      CountWithout(r, i, a);
    }
  }

  /** Attempts enqueued for remote execution between s and r. */
  ghost function Added(p: Plan, s: State, r: State, a: RuntimeId): nat {
    if a in r.scheduled && a !in s.scheduled && a.id !in p.onScheduler then 1 else 0
  }

  /** Attempt a is conserved from s to r (with tasks set aside): queued plus running grows by what was enqueued;
      attempts of a succeeded task may only leave the queue. */
  ghost predicate Conserved(p: Plan, s: State, aside: seq<Task>, r: State, aside': seq<Task>, a: RuntimeId) {
    && r.succeeded == s.succeeded && s.scheduled.Keys <= r.scheduled.Keys
    && (a.id in s.succeeded ==> CountExecs(r.execs, a) == CountExecs(s.execs, a))
    && (a.id !in s.succeeded ==>
          CountQueue(r.schedQueue, a) + CountQueue(aside', a) + CountExecs(r.execs, a)
          == CountQueue(s.schedQueue, a) + CountQueue(aside, a) + CountExecs(s.execs, a) + Added(p, s, r, a))
  }

  lemma {:induction false} EnqueueOneCounts(p: Plan, s: State, k: nat, a: RuntimeId)
    ensures s.scheduled.Keys <= EnqueueOne(p, s, k).scheduled.Keys
    ensures CountQueue(EnqueueOne(p, s, k).schedQueue, a) == CountQueue(s.schedQueue, a)
        + Added(p, s, EnqueueOne(p, s, k), a)
    decreases Height(p, k) + 1, 0
  {
    if k in p.tasks && k in s.master && Ready(p, s, k) {
      if s.Done(k) {
        EnqueueAllCounts(p, LookUp(p, s, k), Consumers(p, s, k), a);
      } else {
        var t := CopyTask(p, s, k);
        CountAppend(s.schedQueue, [t], a);
        assert CountQueue([t][1..], a) == 0;
      }
    }
  }

  lemma {:induction false} EnqueueAllCounts(p: Plan, s: State, ks: seq<nat>, a: RuntimeId)
    ensures s.scheduled.Keys <= EnqueueAll(p, s, ks).scheduled.Keys
    ensures CountQueue(EnqueueAll(p, s, ks).schedQueue, a) == CountQueue(s.schedQueue, a)
        + Added(p, s, EnqueueAll(p, s, ks), a)
    decreases Heights(p, ks), 1 + |ks|
  {
    if ks != [] {
      assert ks[0] in ks;
      HeightsBound(p, ks[1..], Heights(p, ks));
      EnqueueOneCounts(p, s, ks[0], a);
      EnqueueAllCounts(p, EnqueueOne(p, s, ks[0]), ks[1..], a);
    }
  }

  lemma PushCounts(e: Executor, t: Task, a: RuntimeId)
    requires !e.Has(TaskKey(t.rid.id))
    ensures CountRunning(e.Push(TaskItem(t)).running, a) == CountRunning(e.running, a) + CountQueue([t], a)
  {
    CountRunningAppend(e.running, [TaskItem(t)], a);
    assert CountRunning([TaskItem(t)][1..], a) == 0 && CountQueue([t][1..], a) == 0;
  }

  lemma SkipConserves(p: Plan, s: State, k: nat, aside: seq<Task>, a: RuntimeId)
    requires s.schedQueue != [] && s.schedQueue[0].rid.id in s.succeeded && k in p.tasks
    ensures Conserved(p, s, aside, Skip(p, s.(schedQueue := s.schedQueue[1..]), k), aside, a)
  {
    var rest := s.(schedQueue := s.schedQueue[1..]);
    EnqueueAllCounts(p, LookUp(p, rest, k), Consumers(p, rest, k), a);
  }

  lemma AdmitConserves(p: Plan, s: State, i: nat, t: Task, aside: seq<Task>, a: RuntimeId)
    requires i < |s.execs| && s.schedQueue != [] && t.rid == s.schedQueue[0].rid && !s.execs[i].Has(TaskKey(t.rid.id))
    requires t.rid.id !in s.succeeded
    ensures Conserved(p, s, aside, s.(schedQueue := s.schedQueue[1..],
        execs := s.execs[i := s.execs[i].Push(TaskItem(t))]), aside, a)
  {
    PushCounts(s.execs[i], t, a);
    CountExecsUpdate(s.execs, i, s.execs[i].Push(TaskItem(t)), a);
    assert CountQueue([t][1..], a) == 0;
  }

  lemma DeclineConserves(p: Plan, s: State, t: Task, aside: seq<Task>, a: RuntimeId)
    requires s.schedQueue != [] && t.rid == s.schedQueue[0].rid
    ensures Conserved(p, s, aside, s.(schedQueue := [t] + s.schedQueue[1..]), aside, a)
  {
    assert ([t] + s.schedQueue[1..])[1..] == s.schedQueue[1..];
  }

  lemma OfferConserves(p: Plan, s: State, i: nat, final: bool, aside: seq<Task>, a: RuntimeId)
    requires i < |s.execs| && s.schedQueue != []
    ensures Conserved(p, s, aside, Offer(p, s, i, final).0, aside, a)
  {
    var e := s.execs[i];
    var t := WithMemory(e, s.schedQueue[0]);
    var rest := s.(schedQueue := s.schedQueue[1..]);
    if s.Done(t.rid.id) {
      if t.rid.id in p.tasks {
        SkipConserves(p, s, t.rid.id, aside, a);
      }
    } else if e.Admits(t) {
      AdmitConserves(p, s, i, if final then Boost(p, e, t) else t, aside, a);
    } else {
      DeclineConserves(p, s, t, aside, a);
    }
  }

  lemma {:induction false} RoundConserves(p: Plan, s: State, order: seq<nat>, final: bool, aside: seq<Task>,
          a: RuntimeId)
    requires forall j :: j in order ==> j < |s.execs|
    ensures Conserved(p, s, aside, Round(p, s, order, final).0, aside, a)
    decreases |order|
  {
    if order != [] && s.schedQueue != [] {
      assert order[0] in order && forall j :: j in order[1..] ==> j in order;
      OfferKeepsExecs(p, s, order[0], final);
      OfferConserves(p, s, order[0], final, aside, a);
      RoundConserves(p, Offer(p, s, order[0], final).0, order[1..], final, aside, a);
    }
  }

  lemma ConservedTransitive(p: Plan, s: State, x: seq<Task>, r: State, y: seq<Task>, u: State, z: seq<Task>,
          a: RuntimeId)
    requires Conserved(p, s, x, r, y, a) && Conserved(p, r, y, u, z, a)
    ensures Conserved(p, s, x, u, z, a)
  {
  }

  lemma AsideConserves(p: Plan, s: State, aside: seq<Task>, a: RuntimeId)
    requires s.schedQueue != []
    ensures Conserved(p, s, aside, s.(schedQueue := s.schedQueue[1..]), aside + [s.schedQueue[0]], a)
  {
    CountAppend(aside, [s.schedQueue[0]], a);
    assert CountQueue([s.schedQueue[0]][1..], a) == 0;
  }

  lemma BackConserves(p: Plan, s: State, aside: seq<Task>, a: RuntimeId)
    ensures Conserved(p, s, aside, s.(schedQueue := s.schedQueue + aside), [], a)
  {
    CountAppend(s.schedQueue, aside, a);
  }

  lemma PassConserves(p: Plan, s: State, aside: seq<Task>, final: bool, a: RuntimeId)
    ensures Conserved(p, s, aside, Pass(p, s, aside, final).0, Pass(p, s, aside, final).1, a)
  {
    var (s1, popped) := Round(p, s, UsableExecs(s.execs), final);
    RoundConserves(p, s, UsableExecs(s.execs), final, aside, a);
    if s1.schedQueue != [] && !popped {
      AsideConserves(p, s1, aside, a);
      ConservedTransitive(p, s, aside, s1, aside, Pass(p, s, aside, final).0, Pass(p, s, aside, final).1, a);
    }
  }

  lemma {:induction false} AssignConserves(p: Plan, s: State, aside: seq<Task>, final: bool, a: RuntimeId)
    ensures Conserved(p, s, aside, Assign(p, s, aside, final), [], a)
    decreases |Unscheduled(p, s)|, |s.schedQueue|
  {
    if s.schedQueue == [] || GoodCount(s.execs) == 0 {
      BackConserves(p, s, aside, a);
    } else {
      var (r, more) := Pass(p, s, aside, final);
      PassProgress(p, s, aside, final);
      PassConserves(p, s, aside, final, a);
      AssignConserves(p, r, more, final, a);
      ConservedTransitive(p, s, aside, r, more, Assign(p, r, more, final), [], a);
    }
  }

  /** Every attempt in the queue ends up running once, still queued, or (only if its task succeeded) dropped. */
  lemma DispatchConserves(p: Plan, s: State, a: RuntimeId)
    ensures Conserved(p, s, [], DispatchTasks(p, s), [], a)
  {
    var s1 := s.(schedQueue := Reorder(p.cfg, s.schedQueue));
    ReorderPermutes(p.cfg, s.schedQueue);
    CountPermuted(s1.schedQueue, s.schedQueue, a);
    AssignConserves(p, s1, [], FinalPhase(p, s1), a);
  }
}
