/** What a chain of fused SQL nodes becomes: its resources, its queries, and when fusing raises an error. */
module FusedChains {
  import opened WorkItems
  import opened Sequences
  import opened Optimizer

  // ---------------------------------------------------------------- chains

  /** SQL nodes and limit nodes; the source makes the second a subclass of the first. */
  predicate IsQuery(n: Node) { (n.Sql? && n.queries != []) || n.Limit? }

  predicate AreQueries(ch: seq<Node>) { forall k :: 0 <= k < |ch| ==> IsQuery(ch[k]) }

  /** The SQL node at i becomes one node with its only input. */
  predicate Joined(plan: seq<Node>, excluded: set<nat>, i: nat)
    requires WF(plan) && i < |plan|
  {
    assert NodeOK(plan[i], i);
    i !in excluded && plan[i].Sql? && |plan[i].inputs| == 1 && IsQuery(plan[plan[i].inputs[0]])
  }

  /** The nodes that become one, from the top down. */
  function Chain(plan: seq<Node>, excluded: set<nat>, i: nat): (ch: seq<Node>)
    requires WF(plan) && i < |plan| && IsQuery(plan[i])
    ensures ch != [] && AreQueries(ch)
  {
    assert NodeOK(plan[i], i);
    [plan[i]] + if Joined(plan, excluded, i) then Chain(plan, excluded, plan[i].inputs[0]) else []
  }

  // ---------------------------------------------------------------- resources

  /** The memory limit in bytes; none counts as 0. */
  function Bytes(memory: Option<nat>): nat { if memory.Some? then memory.value else 0 }

  ghost predicate IsLargest(values: seq<real>, v: real) { v in values && forall w :: w in values ==> w <= v }

  function Cpus(ch: seq<Node>): seq<real>
    requires AreQueries(ch)
  {
    if ch == [] then [] else [ch[0].res.cpu as real] + Cpus(ch[1..])
  }

  function Gpus(ch: seq<Node>): seq<real>
    requires AreQueries(ch)
  {
    if ch == [] then [] else [ch[0].res.gpu] + Gpus(ch[1..])
  }

  function Memories(ch: seq<Node>): seq<real>
    requires AreQueries(ch)
  {
    if ch == [] then [] else [Bytes(ch[0].res.memory) as real] + Memories(ch[1..])
  }

  /** CPU limit, GPU limit and memory limit are each the largest of the chain. */
  ghost predicate Largest(ch: seq<Node>, res: Resources)
    requires AreQueries(ch)
  {
    && IsLargest(Cpus(ch), res.cpu as real)
    && IsLargest(Gpus(ch), res.gpu)
    && IsLargest(Memories(ch), Bytes(res.memory) as real)
  }

  /** A memory limit is given when a node of the chain gives one; a limit of 0 counts only at the end of the chain. */
  ghost predicate MemoryGiven(ch: seq<Node>, res: Resources)
    requires AreQueries(ch)
  {
    res.memory.Some? <==>
    (exists k :: 0 <= k < |ch| && ch[k].res.memory.Some? && (ch[k].res.memory.value > 0 || k == |ch| - 1))
  }

  /** The UDFs of all nodes, from the top down. */
  function Udfs(ch: seq<Node>): seq<nat>
    requires AreQueries(ch)
  {
    if ch == [] then [] else ch[0].res.udfs + Udfs(ch[1..])
  }

  // ---------------------------------------------------------------- queries

  function QueriesOf(n: Node): (qs: seq<Query>)
    requires IsQuery(n)
    ensures qs != []
  {
    if n.Sql? then n.queries else [LimitTo(n.count)]
  }

  /** A query over its own tables, or over the nested query of the nodes below. */
  function Over(q: Query, below: seq<Node>): Query
    requires AreQueries(below)
    decreases |below|, 1
  {
    if below == [] || !q.Base? then q else Compose(q.id, Nested(below))
  }

  /** The last query of each node, each over that of the next. */
  function Nested(ch: seq<Node>): Query
    requires AreQueries(ch) && ch != []
    decreases |ch|, 0
  {
    var own := QueriesOf(ch[0]);
    Over(own[|own| - 1], ch[1..])
  }

  /** All queries of the first node, over the nested query of the others. */
  function Top(ch: seq<Node>): (qs: seq<Query>)
    requires AreQueries(ch) && ch != []
    ensures qs != []
  {
    var own := QueriesOf(ch[0]);
    seq(|own|, j requires 0 <= j < |own| => Over(own[j], ch[1..]))
  }

  /** All queries but the last of each node, from the bottom up. */
  function Lower(ch: seq<Node>): seq<Query>
    requires AreQueries(ch)
  {
    if ch == [] then [] else Lower(ch[1..]) + Top(ch)[..|Top(ch)| - 1]
  }

  // ---------------------------------------------------------------- the fused node

  function TreeQueries(t: Tree): seq<Query>
    requires t.TSql? || t.TLimit?
  {
    if t.TSql? then t.queries else [LimitTo(t.count)]
  }

  /** The node that a chain becomes: the largest limits of the chain, all its UDFs, and of every node below all queries
      but the last, in order, before the queries of the top node over the nested last ones. */
  ghost predicate Becomes(ch: seq<Node>, t: Tree) {
    && (t.TSql? || t.TLimit?) && AreQueries(ch) && ch != []
    && Largest(ch, t.res) && MemoryGiven(ch, t.res) && t.res.udfs == Udfs(ch)
    && TreeQueries(t) == Lower(ch[1..]) + Top(ch)
  }

  lemma SingleBecomes(n: Node, t: Tree)
    requires IsQuery(n) && (t.TSql? || t.TLimit?) && t.res == n.res && TreeQueries(t) == QueriesOf(n)
    ensures Becomes([n], t)
  {
    assert [n][0] == n && [n][1..] == [];
    assert Top([n]) == QueriesOf(n);
    assert Lower([]) + Top([n]) == Top([n]);
  }

  lemma LimitsGrow(n: Node, rest: seq<Node>, res: Resources)
    requires IsQuery(n) && AreQueries(rest) && rest != [] && Largest(rest, res)
    ensures Largest([n] + rest, FuseResources(n.res, res))
  {
    assert ([n] + rest)[0] == n && ([n] + rest)[1..] == rest;
    LargestGrows(n.res.cpu as real, Cpus(rest), res.cpu as real);
    LargestGrows(n.res.gpu, Gpus(rest), res.gpu);
    LargestGrows(Bytes(n.res.memory) as real, Memories(rest), Bytes(res.memory) as real);
  }

  lemma LargestGrows(v: real, values: seq<real>, w: real)
    requires IsLargest(values, w)
    ensures IsLargest([v] + values, if v < w then w else v)
  {
  }

  lemma MemoryGrows(n: Node, rest: seq<Node>, res: Resources)
    requires IsQuery(n) && AreQueries(rest) && rest != [] && MemoryGiven(rest, res)
    ensures MemoryGiven([n] + rest, FuseResources(n.res, res))
  {
    var all := [n] + rest;
    if res.memory.Some? {
      ghost var k :| 0 <= k < |rest| && rest[k].res.memory.Some? && (rest[k].res.memory.value > 0 || k == |rest| - 1);
      assert all[k + 1] == rest[k];
    }
    if n.res.memory.Some? && n.res.memory.value > 0 { assert all[0] == n; }
    assert forall k :: 0 < k < |all| ==> all[k] == rest[k - 1];
  }

  /** The queries of a chain, the last one apart. */
  lemma Parted(ch: seq<Node>, all: seq<Query>)
    requires AreQueries(ch) && ch != [] && all == Lower(ch[1..]) + Top(ch)
    ensures all != [] && all[|all| - 1] == Nested(ch) && all[..|all| - 1] == Lower(ch)
  {
    var lower, top := Lower(ch[1..]), Top(ch);
    assert (lower + top)[..|lower| + |top| - 1] == lower + top[..|top| - 1];
  }

  lemma TopOver(n: Node, rest: seq<Node>)
    requires n.Sql? && IsQuery(n) && (forall j :: 0 <= j < |n.queries| ==> n.queries[j].Base?)
    requires AreQueries(rest) && rest != []
    ensures Top([n] + rest) == ComposeAll(n.queries, Nested(rest))
  {
    assert ([n] + rest)[0] == n && ([n] + rest)[1..] == rest;
  }

  lemma FusedQueries(n: Node, below: Tree, t: Tree)
    requires n.Sql? && IsQuery(n) && (forall j :: 0 <= j < |n.queries| ==> n.queries[j].Base?)
    requires (below.TLimit? || (below.TSql? && below.queries != [])) && Fuse(n.queries, n.res, below) == Some(t)
    ensures var q := TreeQueries(below);
      TreeQueries(t) == q[..|q| - 1] + ComposeAll(n.queries, q[|q| - 1])
  {
  }

  lemma {:induction false} ChainBecomes(plan: seq<Node>, excluded: set<nat>, i: nat)
    requires WF(plan) && i < |plan| && IsQuery(plan[i]) && Visit(plan, excluded, i).Some?
    ensures Becomes(Chain(plan, excluded, i), Visit(plan, excluded, i).value)
    decreases i
  {
    assert NodeOK(plan[i], i);
    var t := Visit(plan, excluded, i).value;
    if Joined(plan, excluded, i) {
      var c := plan[i].inputs[0];
      ChainBecomes(plan, excluded, c);
      var rest, below := Chain(plan, excluded, c), Visit(plan, excluded, c).value;
      assert VisitAll(plan, excluded, plan[i].inputs, i).value[0] == below;
      LimitsGrow(plan[i], rest, below.res);
      MemoryGrows(plan[i], rest, below.res);
      Parted(rest, TreeQueries(below));
      TopOver(plan[i], rest);
      FusedQueries(plan[i], below, t);
      assert ([plan[i]] + rest)[1..] == rest;
    } else {
      SingleBecomes(plan[i], t);
    }
  }

  // ---------------------------------------------------------------- the error

  function Inputs(n: Node): seq<nat> {
    match n
    case Source(_) => []
    case Sql(_, ins, _) => ins
    case Limit(_, input, _) => [input]
    case Other(_, ins) => ins
  }

  /** The nodes below i that are visited: excluded nodes are taken as they are. */
  function Visited(plan: seq<Node>, excluded: set<nat>, i: nat): set<nat>
    requires WF(plan) && i < |plan|
    decreases i, 0
  {
    assert NodeOK(plan[i], i);
    {i} + if i in excluded then {} else VisitedAll(plan, excluded, Inputs(plan[i]), i)
  }

  function VisitedAll(plan: seq<Node>, excluded: set<nat>, ins: seq<nat>, i: nat): set<nat>
    requires WF(plan) && i <= |plan| && forall j :: 0 <= j < |ins| ==> ins[j] < i
    decreases i, 0, |ins|
  {
    if ins == [] then {} else Visited(plan, excluded, ins[0]) + VisitedAll(plan, excluded, ins[1..], i)
  }

  /** None of the nodes that are joined with their input uses a named placeholder. */
  ghost predicate Plain(plan: seq<Node>, excluded: set<nat>, nodes: set<nat>)
    requires WF(plan)
  {
    forall j :: j in nodes && j < |plan| && Joined(plan, excluded, j) ==>
                  forall k :: 0 <= k < |plan[j].queries| && plan[j].queries[k].Base? ==> !plan[j].queries[k].named
  }

  /** The optimizer raises a KeyError exactly when a node it joins with its input has a query with a named
      placeholder, whichever of its queries that is. */
  lemma {:induction false} VisitFailsIff(plan: seq<Node>, excluded: set<nat>, i: nat)
    requires WF(plan) && i < |plan|
    ensures Visit(plan, excluded, i).None? <==> !Plain(plan, excluded, Visited(plan, excluded, i))
    decreases i, 0
  {
    assert NodeOK(plan[i], i);
    if i !in excluded {
      var ins := Inputs(plan[i]);
      VisitAllFailsIff(plan, excluded, ins, i);
      if plan[i].Limit? { assert VisitAll(plan, excluded, ins, i).Some? <==> Visit(plan, excluded, ins[0]).Some?; }
    }
  }

  lemma {:induction false} VisitAllFailsIff(plan: seq<Node>, excluded: set<nat>, ins: seq<nat>, i: nat)
    requires WF(plan) && i <= |plan| && forall j :: 0 <= j < |ins| ==> ins[j] < i
    ensures VisitAll(plan, excluded, ins, i).None? <==> !Plain(plan, excluded, VisitedAll(plan, excluded, ins, i))
    decreases i, 0, |ins|
  {
    if ins != [] {
      VisitFailsIff(plan, excluded, ins[0]);
      VisitAllFailsIff(plan, excluded, ins[1..], i);
    }
  }
}
