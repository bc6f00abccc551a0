/** Dispatch: in which order tasks are offered, and to which executors first. */
module DispatchOrder {
  import opened WorkItems
  import opened Executors
  import opened Plans
  import opened Sched
  import opened Dispatch
  import opened DispatchProofs

  // ---------------------------------------------------------------- tasks

  /** No task stands before one that sorts before it. */
  ghost predicate SortedTasks(cfg: Config, q: seq<Task>) {
    forall i, j :: 0 <= i < j < |q| ==> !SortsBefore(cfg, q[j], q[i])
  }

  lemma {:induction false} InsertSorted(cfg: Config, t: Task, q: seq<Task>)
    requires SortedTasks(cfg, q)
    ensures SortedTasks(cfg, InsertTask(cfg, t, q))
    ensures forall u :: u in InsertTask(cfg, t, q) ==> u == t || u in q
  {
    if q != [] && SortsBefore(cfg, q[0], t) {
      var r := InsertTask(cfg, t, q[1..]);
      assert forall i, j :: 0 <= i < j < |q[1..]| ==> q[1..][i] == q[i + 1] && q[1..][j] == q[j + 1];
      InsertSorted(cfg, t, q[1..]);
      forall j | 0 <= j < |r| ensures !SortsBefore(cfg, r[j], q[0]) { assert r[j] in r; }
    }
  }

  lemma {:induction false} SortSorts(cfg: Config, q: seq<Task>)
    ensures SortedTasks(cfg, SortTasks(cfg, q))
  {
    if q != [] {
      SortSorts(cfg, q[1..]);
      InsertSorted(cfg, q[0], SortTasks(cfg, q[1..]));
    }
  }

  /** By retry count, fewer first unless retries have priority; for equal counts by id. */
  ghost predicate ByRetry(prioritizeRetry: bool, q: seq<Task>) {
    forall i, j :: 0 <= i < j < |q| ==>
                     if q[i].rid.retry == q[j].rid.retry then q[i].rid.id <= q[j].rid.id
                     else if prioritizeRetry then q[i].rid.retry > q[j].rid.retry
                     else q[i].rid.retry < q[j].rid.retry
  }

  lemma SortedByRetry(cfg: Config, q: seq<Task>)
    requires SortedTasks(cfg, q)
    ensures ByRetry(cfg.prioritizeRetry, q)
  {
  }

  lemma {:induction false} OfNodeIs(q: seq<Task>, n: nat, t: Task)
    ensures multiset(OfNode(q, n))[t] == if t.node == n then multiset(q)[t] else 0
  {
    if q != [] {
      OfNodeIs(q[1..], n, t);
      assert q == [q[0]] + q[1..];
    }
  }

  /** The reordered queue interleaves the nodes. Group g holds exactly the queued tasks of the g-th node, sorted by
      retry count, the larger first if retries have priority, and then by id; the k-th task of a node comes before the
      later tasks of every node, and among
      the k-th tasks the smaller node id comes first. */
  lemma ReorderIsFair(cfg: Config, q: seq<Task>, g: nat, k: nat, h: nat, l: nat)
    requires var gs := GroupsOf(cfg, q, NodesOf(q)); g < |gs| && k < |gs[g]| && h < |gs| && l < |gs[h]|
    ensures var ns := NodesOf(q); var gs := GroupsOf(cfg, q, ns); var r := Reorder(cfg, q);
      && Ascending(ns) && ByRetry(cfg.prioritizeRetry, gs[g])
      && (forall t :: multiset(gs[g])[t] == if t.node == ns[g] then multiset(q)[t] else 0)
      && Pos(gs, g, k) < |r| && r[Pos(gs, g, k)] == gs[g][k]
      && (k < l || (k == l && g < h) ==> Pos(gs, g, k) < Pos(gs, h, l))
  {
    var ns := NodesOf(q);
    var gs := GroupsOf(cfg, q, ns);
    NodesAscending(q);
    SortSorts(cfg, OfNode(q, ns[g]));
    SortedByRetry(cfg, gs[g]);
    SortPermutes(cfg, OfNode(q, ns[g]));
    forall t: Task ensures multiset(gs[g])[t] == if t.node == ns[g] then multiset(q)[t] else 0 {
      OfNodeIs(q, ns[g], t);
    }
    RoundRobinAt(gs, g, k);
    if k < l || (k == l && g < h) { RoundRobinFair(gs, g, k, h, l); }
  }

  // ---------------------------------------------------------------- executors

  ghost predicate NotAfter(execs: seq<Executor>, a: nat, b: nat) {
    a != b && a < |execs| && b < |execs| && |execs[a].running| <= |execs[b].running|
  }

  /** Fewer running works first, and nobody twice. */
  ghost predicate LightestFirst(execs: seq<Executor>, js: seq<nat>) {
    forall i, j :: 0 <= i < j < |js| ==> NotAfter(execs, js[i], js[j])
  }

  lemma PutFirst(execs: seq<Executor>, x: nat, js: seq<nat>)
    requires LightestFirst(execs, js) && forall j :: j in js ==> NotAfter(execs, x, j)
    ensures LightestFirst(execs, [x] + js)
  {
    var r := [x] + js;
    forall i, j | 0 <= i < j < |r| ensures NotAfter(execs, r[i], r[j]) {
      assert r[j] == js[j - 1] && js[j - 1] in js;
      if i > 0 { assert r[i] == js[i - 1]; }
    }
  }

  lemma First(execs: seq<Executor>, js: seq<nat>)
    requires LightestFirst(execs, js) && js != []
    ensures LightestFirst(execs, js[1..]) && js[0] in js
    ensures forall j :: j in js[1..] ==> j in js && NotAfter(execs, js[0], j)
  {
    forall i | 0 <= i < |js[1..]| ensures NotAfter(execs, js[0], js[1..][i]) { assert js[1..][i] == js[i + 1]; }
    forall i, j | 0 <= i < j < |js[1..]| ensures NotAfter(execs, js[1..][i], js[1..][j]) {
      assert NotAfter(execs, js[i + 1], js[j + 1]);
    }
  }

  lemma {:induction false} InsertLightest(execs: seq<Executor>, i: nat, js: seq<nat>)
    requires LightestFirst(execs, js) && i < |execs| && i !in js && forall j :: j in js ==> j < |execs|
    ensures LightestFirst(execs, InsertExec(execs, i, js))
  {
    if js == [] {
      PutFirst(execs, i, js);
    } else {
      First(execs, js);
      if |execs[i].running| <= |execs[js[0]].running| {
        forall j | j in js ensures NotAfter(execs, i, j) { assert j == js[0] || j in js[1..]; }
        PutFirst(execs, i, js);
      } else {
        InsertLightest(execs, i, js[1..]);
        PutFirst(execs, js[0], InsertExec(execs, i, js[1..]));
      }
    }
  }

  ghost predicate Distinct(js: seq<nat>) { forall i, j :: 0 <= i < j < |js| ==> js[i] != js[j] }

  lemma {:induction false} SortLightest(execs: seq<Executor>, js: seq<nat>)
    requires (forall j :: j in js ==> j < |execs|) && Distinct(js)
    ensures LightestFirst(execs, SortExecs(execs, js))
  {
    if js != [] {
      assert js[0] in js && js[0] !in js[1..] && forall j :: j in js[1..] ==> j in js;
      SortLightest(execs, js[1..]);
      InsertLightest(execs, js[0], SortExecs(execs, js[1..]));
    }
  }

  lemma {:induction false} UsableDistinct(execs: seq<Executor>, i: nat)
    ensures Distinct(UsableFrom(execs, i))
    decreases |execs| - i
  {
    if i < |execs| {
      var rest := UsableFrom(execs, i + 1);
      UsableDistinct(execs, i + 1);
      assert forall a :: 0 <= a < |rest| ==> rest[a] in rest;
      assert Distinct([i] + rest);
    }
  }

  /** A remote executor in good state that may run another work and has some of each of its resources left. */
  ghost predicate MayTakeMore(e: Executor) {
    && !e.local && e.state == Good && |e.running| < e.probe.cpus - e.probe.cpus / 16
    && (e.probe.cpus > 0 ==> e.cpus < e.probe.cpus)
    && (e.probe.gpus > 0 ==> e.gpus < e.probe.gpus as real)
    && (e.probe.memory > 0 ==> e.memory < e.probe.memory)
  }

  /** Tasks are offered to each good executor that is not busy, once a pass, starting with the least loaded. */
  lemma UsableExecsInOrder(execs: seq<Executor>)
    ensures LightestFirst(execs, UsableExecs(execs))
    ensures forall j :: j in UsableExecs(execs) <==> 0 <= j < |execs| && MayTakeMore(execs[j])
  {
    UsableDistinct(execs, 0);
    SortLightest(execs, UsableFrom(execs, 0));
  }
}
