/** Fusing consecutive SQL nodes of the logical plan. */
module Optimizer {
  import opened WorkItems

  /** A query over the placeholders of its node. `named` says that it also uses named placeholders, such as the random
      seed. A composed query has its inner query in parentheses in place of its only placeholder. */
  datatype Query = Base(id: nat, named: bool) | LimitTo(count: nat) | Compose(outer: nat, inner: Query)

  datatype Resources = Resources(cpu: nat, gpu: real, memory: Option<nat>, udfs: seq<nat>)

  /** Nodes of the logical plan; inputs are positions of earlier nodes, so shared nodes occur once. */
  datatype Node =
    | Source(id: nat)
    | Sql(queries: seq<Query>, inputs: seq<nat>, res: Resources)
    | Limit(count: nat, input: nat, res: Resources)
    | Other(id: nat, inputs: seq<nat>)

  predicate NodeOK(n: Node, i: nat) {
    match n
    case Source(_) => true
    case Sql(qs, ins, _) => qs != [] && (forall j :: 0 <= j < |ins| ==> ins[j] < i) && forall j ::
        0 <= j < |qs| ==> qs[j].Base?
    case Limit(_, input, _) => input < i
    case Other(_, ins) => forall j :: 0 <= j < |ins| ==> ins[j] < i
  }

  predicate WF(plan: seq<Node>) { forall i :: 0 <= i < |plan| ==> NodeOK(plan[i], i) }

  /** Optimized nodes are fresh copies, so sharing no longer matters for their meaning. */
  datatype Tree =
    | TSource(id: nat)
    | TSql(queries: seq<Query>, inputs: seq<Tree>, res: Resources)
    | TLimit(count: nat, input: Tree, res: Resources)
    | TOther(id: nat, inputs: seq<Tree>)

  // ---------------------------------------------------------------- the optimizer

  function Larger(a: nat, b: nat): nat { if a < b then b else a }

  function FuseResources(a: Resources, b: Resources): Resources {
    Resources(Larger(a.cpu, b.cpu), if a.gpu < b.gpu then b.gpu else a.gpu,
              if a.memory.Some? && b.memory.Some? then Some(Larger(a.memory.value, b.memory.value))
              else if a.memory.Some? && a.memory.value != 0 then a.memory else b.memory,
              a.udfs + b.udfs)
  }

  predicate UsesNames(qs: seq<Query>) { exists j :: 0 <= j < |qs| && qs[j].Base? && qs[j].named }

  function ComposeAll(qs: seq<Query>, inner: Query): seq<Query>
    requires forall j :: 0 <= j < |qs| ==> qs[j].Base?
  {
    seq(|qs|, j requires 0 <= j < |qs| => Compose(qs[j].id, inner))
  }

  /** Fuse an SQL node with its optimized child. `isinstance(child, SqlEngineNode)` also accepts limit nodes. Formatting
      a query that uses named placeholders with a single argument raises a KeyError. */
  function Fuse(qs: seq<Query>, res: Resources, child: Tree): Option<Tree>
    requires forall j :: 0 <= j < |qs| ==> qs[j].Base?
    requires child.TLimit? || (child.TSql? && child.queries != [])
  {
    if UsesNames(qs) then None
    else if child.TLimit? then Some(TSql(ComposeAll(qs, LimitTo(child.count)), [child.input],
        FuseResources(res, child.res)))
    else
      var n := |child.queries| - 1;
      Some(TSql(child.queries[..n] + ComposeAll(qs, child.queries[n]), child.inputs, FuseResources(res, child.res)))
  }

  /** The copy of an excluded node: the original nodes. */
  function Copy(plan: seq<Node>, i: nat): (t: Tree)
    requires WF(plan) && i < |plan|
    ensures (t.TSql? ==> t.queries != []) && (t.TSql? <==> plan[i].Sql?) && (t.TLimit? <==> plan[i].Limit?)
    decreases i, 0
  {
    assert NodeOK(plan[i], i);
    match plan[i]
    case Source(id) => TSource(id)
    case Sql(qs, ins, res) => TSql(qs, CopyAll(plan, ins, i), res)
    case Limit(k, input, res) => TLimit(k, Copy(plan, input), res)
    case Other(id, ins) => TOther(id, CopyAll(plan, ins, i))
  }

  function CopyAll(plan: seq<Node>, ins: seq<nat>, i: nat): (ts: seq<Tree>)
    requires WF(plan) && i <= |plan| && forall j :: 0 <= j < |ins| ==> ins[j] < i
    ensures |ts| == |ins|
    decreases i, 0, |ins|
  {
    if ins == [] then [] else [Copy(plan, ins[0])] + CopyAll(plan, ins[1..], i)
  }

  /** `Optimizer.visit`. */
  function Visit(plan: seq<Node>, excluded: set<nat>, i: nat): (r: Option<Tree>)
    requires WF(plan) && i < |plan|
    ensures r.Some? && r.value.TSql? ==> r.value.queries != []
    ensures r.Some? ==> (r.value.TSql? <==> plan[i].Sql?) && (r.value.TLimit? <==> plan[i].Limit?)
    decreases i, 0
  {
    assert NodeOK(plan[i], i);
    if i in excluded then Some(Copy(plan, i)) else
      match plan[i]
      case Source(id) => Some(TSource(id))
      case Sql(qs, ins, res) =>
        (match VisitAll(plan, excluded, ins, i)
         case None => None
         case Some(ts) => if |ts| == 1 && (ts[0].TSql? || ts[0].TLimit?) then Fuse(qs, res, ts[0])
             else Some(TSql(qs, ts, res)))
      case Limit(k, input, res) =>
        (match Visit(plan, excluded, input)
         case None => None
         case Some(t) => Some(TLimit(k, t, res)))
      case Other(id, ins) =>
        (match VisitAll(plan, excluded, ins, i)
         case None => None
         case Some(ts) => Some(TOther(id, ts)))
  }

  function VisitAll(plan: seq<Node>, excluded: set<nat>, ins: seq<nat>, i: nat): (r: Option<seq<Tree>>)
    requires WF(plan) && i <= |plan| && forall j :: 0 <= j < |ins| ==> ins[j] < i
    ensures r.Some? ==> |r.value| == |ins|
    ensures r.Some? ==> forall j :: 0 <= j < |ins| ==> r.value[j].TSql? ==> r.value[j].queries != []
    decreases i, 0, |ins|
  {
    if ins == [] then Some([]) else
      match (Visit(plan, excluded, ins[0]), VisitAll(plan, excluded, ins[1..], i))
      case (Some(t), Some(ts)) => Some([t] + ts)
      case _ => None
  }

  class PlanOptimizer {
    const plan: seq<Node>
    const excluded: set<nat>
    var memo: map<nat, Tree>

    /** The memo holds exactly what visiting would compute again. */
    ghost predicate Valid()
      reads this
    {
      WF(plan) && forall i :: i in memo ==> i < |plan| && i !in excluded && Visit(plan, excluded, i) == Some(memo[i])
    }

    constructor (plan: seq<Node>, excluded: set<nat>)
      requires WF(plan)
      ensures Valid() && this.plan == plan && this.excluded == excluded
    {
      this.plan := plan;
      this.excluded := excluded;
      memo := map[];
    }

    /** `visit` with its memo, and `generic_visit` and `visit_query_engine_node` behind it. */
    method VisitNode(i: nat) returns (r: Option<Tree>)
      requires Valid() && i < |plan|
      modifies this
      ensures Valid() && r == Visit(plan, excluded, i)
      decreases i, 0
    {
      if i in excluded { return Some(Copy(plan, i)); }
      if i in memo { return Some(memo[i]); }
      assert NodeOK(plan[i], i);
      match plan[i] {
        case Source(id) => r := Some(TSource(id));
        case Sql(qs, ins, res) =>
          var ts := VisitInputs(ins, i);
          if ts.None? { return None; }
          r := if |ins| == 1 && (ts.value[0].TSql? || ts.value[0].TLimit?) then Fuse(qs, res, ts.value[0])
              else Some(TSql(qs, ts.value, res));
        case Limit(k, input, res) =>
          var t := VisitNode(input);
          if t.None? { return None; }
          r := Some(TLimit(k, t.value, res));
        case Other(id, ins) =>
          var ts := VisitInputs(ins, i);
          if ts.None? { return None; }
          r := Some(TOther(id, ts.value));
      }
      if r.Some? { memo := memo[i := r.value]; }
    }

    method VisitInputs(ins: seq<nat>, i: nat) returns (r: Option<seq<Tree>>)
      requires Valid() && i <= |plan| && forall j :: 0 <= j < |ins| ==> ins[j] < i
      modifies this
      ensures Valid() && r == VisitAll(plan, excluded, ins, i)
      decreases i, 0, |ins|
    {
      if ins == [] { return Some([]); }
      var t := VisitNode(ins[0]);
      if t.None? { return None; }
      var ts := VisitInputs(ins[1..], i);
      r := if ts.None? then None else Some([t.value] + ts.value);
    }
  }

  // ---------------------------------------------------------------- meaning

  /** What sources, queries, merging and other nodes do with tables of type T; all of it uninterpreted. The value of a
      node is the list of its partitions. `broadcast` pairs the partitions of several inputs. */
  datatype Env<!T> = Env(source: nat -> seq<T>, query: (nat, seq<T>) -> T, limit: (nat, T) -> T, merge: seq<T> -> T,
                         broadcast: seq<seq<T>> -> seq<seq<T>>, other: (nat, seq<seq<T>>) -> seq<T>)

  function RunQuery<T>(env: Env<T>, q: Query, tables: seq<T>): T {
    match q
    case Base(id, _) => env.query(id, tables)
    case LimitTo(k) => env.limit(k, env.merge(tables))
    case Compose(o, inner) => env.query(o, [RunQuery(env, inner, tables)])
  }

  /** The tables each task of an SQL node reads: with one input, one partition each. */
  function Tuples<T>(env: Env<T>, inputs: seq<seq<T>>): seq<seq<T>> {
    if |inputs| == 1 then seq(|inputs[0]|, p requires 0 <= p < |inputs[0]| => [inputs[0][p]]) else env.broadcast(inputs)
  }

  /** Every task runs all queries; the last one makes the output. */
  function SqlValue<T>(env: Env<T>, queries: seq<Query>, inputs: seq<seq<T>>): seq<T>
    requires queries != []
  {
    var tuples := Tuples(env, inputs);
    seq(|tuples|, p requires 0 <= p < |tuples| => RunQuery(env, queries[|queries| - 1], tuples[p]))
  }

  function LimitValue<T>(env: Env<T>, k: nat, input: seq<T>): seq<T> { [env.limit(k, env.merge(input))] }

  /** The meaning of a node of the plan. */
  function Value<T>(env: Env<T>, plan: seq<Node>, i: nat): seq<T>
    requires WF(plan) && i < |plan|
    decreases i, 0
  {
    assert NodeOK(plan[i], i);
    match plan[i]
    case Source(id) => env.source(id)
    case Sql(qs, ins, _) => SqlValue(env, qs, Values(env, plan, ins, i))
    case Limit(k, input, _) => LimitValue(env, k, Value(env, plan, input))
    case Other(id, ins) => env.other(id, Values(env, plan, ins, i))
  }

  function Values<T>(env: Env<T>, plan: seq<Node>, ins: seq<nat>, i: nat): (vs: seq<seq<T>>)
    requires WF(plan) && i <= |plan| && forall j :: 0 <= j < |ins| ==> ins[j] < i
    ensures |vs| == |ins|
    decreases i, 0, |ins|
  {
    if ins == [] then [] else [Value(env, plan, ins[0])] + Values(env, plan, ins[1..], i)
  }

  /** The meaning of an optimized node. */
  function TreeValue<T>(env: Env<T>, t: Tree): seq<T>
    decreases t, 0
  {
    match t
    case TSource(id) => env.source(id)
    case TSql(qs, ins, _) => if qs == [] then [] else SqlValue(env, qs, TreeValues(env, ins))
    case TLimit(k, input, _) => LimitValue(env, k, TreeValue(env, input))
    case TOther(id, ins) => env.other(id, TreeValues(env, ins))
  }

  function TreeValues<T>(env: Env<T>, ts: seq<Tree>): (vs: seq<seq<T>>)
    ensures |vs| == |ts|
    decreases ts, 0
  {
    if ts == [] then [] else [TreeValue(env, ts[0])] + TreeValues(env, ts[1..])
  }

  lemma {:induction false} CopyValue<T>(env: Env<T>, plan: seq<Node>, i: nat)
    requires WF(plan) && i < |plan|
    ensures TreeValue(env, Copy(plan, i)) == Value(env, plan, i)
    decreases i, 0
  {
    assert NodeOK(plan[i], i);
    match plan[i]
    case Source(_) =>
    case Sql(_, ins, _) => CopyValues(env, plan, ins, i);
    case Limit(_, input, _) => CopyValue(env, plan, input);
    case Other(_, ins) => CopyValues(env, plan, ins, i);
  }

  lemma {:induction false} CopyValues<T>(env: Env<T>, plan: seq<Node>, ins: seq<nat>, i: nat)
    requires WF(plan) && i <= |plan| && forall j :: 0 <= j < |ins| ==> ins[j] < i
    ensures TreeValues(env, CopyAll(plan, ins, i)) == Values(env, plan, ins, i)
    decreases i, 0, |ins|
  {
    if ins != [] {
      CopyValue(env, plan, ins[0]);
      CopyValues(env, plan, ins[1..], i);
    }
  }

  /** A limit node below the SQL node at j is only fused when its input has a single partition. */
  ghost predicate LimitSafe<T>(env: Env<T>, plan: seq<Node>, j: nat)
    requires WF(plan) && j < |plan|
  {
    assert NodeOK(plan[j], j);
    plan[j].Sql? && |plan[j].inputs| == 1 && plan[plan[j].inputs[0]].Limit? ==>
      assert NodeOK(plan[plan[j].inputs[0]], plan[j].inputs[0]);
      |Value(env, plan, plan[plan[j].inputs[0]].input)| == 1
  }

  ghost predicate LimitsSafe<T>(env: Env<T>, plan: seq<Node>, excluded: set<nat>, n: nat)
    requires WF(plan) && n <= |plan|
  {
    forall j :: 0 <= j < n && j !in excluded ==> LimitSafe(env, plan, j)
  }

  lemma LastComposed<T>(env: Env<T>, qs: seq<Query>, prefix: seq<Query>, inner: Query, tables: seq<T>)
    requires qs != [] && forall j :: 0 <= j < |qs| ==> qs[j].Base?
    ensures var all := prefix + ComposeAll(qs, inner);
      all != [] && RunQuery(env, all[|all| - 1], tables) == RunQuery(env, qs[|qs| - 1], [RunQuery(env, inner, tables)])
  {
  }

  /** Fusing with an SQL child: the composed query over the child's inputs. */
  lemma FuseSqlValue<T>(env: Env<T>, qs: seq<Query>, res: Resources, child: Tree)
    requires qs != [] && (forall j :: 0 <= j < |qs| ==> qs[j].Base?) && child.TSql? && child.queries != []
        && Fuse(qs, res, child).Some?
    ensures TreeValue(env, Fuse(qs, res, child).value) == SqlValue(env, qs, [TreeValue(env, child)])
  {
    var n := |child.queries| - 1;
    var tuples := Tuples(env, TreeValues(env, child.inputs));
    var below := TreeValue(env, child);
    forall p | 0 <= p < |tuples|
      ensures RunQuery(env, (child.queries[..n] + ComposeAll(qs, child.queries[n]))[|child.queries[..n]
          + ComposeAll(qs, child.queries[n])| - 1], tuples[p])
           == RunQuery(env, qs[|qs| - 1], [below[p]])
    {
      LastComposed(env, qs, child.queries[..n], child.queries[n], tuples[p]);
    }
  }

  /** Fusing with a limit child turns one global limit into a limit for each partition: the results agree exactly when
      the limit's input has a single partition. */
  lemma FuseLimitIff<T>(env: Env<T>, qs: seq<Query>, res: Resources, child: Tree)
    requires qs != [] && (forall j :: 0 <= j < |qs| ==> qs[j].Base?) && child.TLimit? && Fuse(qs, res, child).Some?
    ensures TreeValue(env, Fuse(qs, res, child).value) == SqlValue(env, qs, [TreeValue(env, child)])
            <==> |TreeValue(env, child.input)| == 1
  {
    var fused := Fuse(qs, res, child).value;
    var below := TreeValue(env, child.input);
    assert fused.inputs == [child.input] && [child.input][1..] == [];
    assert TreeValues(env, [child.input]) == [below] + TreeValues(env, []);
    assert |TreeValue(env, fused)| == |below|;
    if |below| == 1 {
      assert below == [below[0]];
      LastComposed(env, qs, [], LimitTo(child.count), [below[0]]);
      assert [] + ComposeAll(qs, LimitTo(child.count)) == ComposeAll(qs, LimitTo(child.count));
    }
  }

  /** Fusion preserves meaning: partition by partition, for chains of any length and for shared children. */
  lemma {:induction false} VisitPreserves<T>(env: Env<T>, plan: seq<Node>, excluded: set<nat>, i: nat)
    requires WF(plan) && i < |plan| && Visit(plan, excluded, i).Some? && LimitsSafe(env, plan, excluded, i + 1)
    ensures TreeValue(env, Visit(plan, excluded, i).value) == Value(env, plan, i)
    decreases i, 3
  {
    assert NodeOK(plan[i], i);
    if i in excluded {
      CopyValue(env, plan, i);
    } else {
      match plan[i]
      case Source(_) =>
      case Sql(qs, ins, res) => SqlPreserves(env, plan, excluded, i);
      case Limit(_, input, _) => VisitPreserves(env, plan, excluded, input);
      case Other(_, ins) => VisitAllPreserves(env, plan, excluded, ins, i);
    }
  }

  lemma {:induction false} VisitAllPreserves<T>(env: Env<T>, plan: seq<Node>, excluded: set<nat>, ins: seq<nat>, i: nat)
    requires WF(plan) && i <= |plan| && (forall j :: 0 <= j < |ins| ==> ins[j] < i)
    requires VisitAll(plan, excluded, ins, i).Some? && LimitsSafe(env, plan, excluded, i)
    ensures TreeValues(env, VisitAll(plan, excluded, ins, i).value) == Values(env, plan, ins, i)
    decreases i, 0, |ins|
  {
    if ins != [] {
      VisitPreserves(env, plan, excluded, ins[0]);
      VisitAllPreserves(env, plan, excluded, ins[1..], i);
    }
  }

  lemma SqlPreserves<T>(env: Env<T>, plan: seq<Node>, excluded: set<nat>, i: nat)
    requires WF(plan) && i < |plan| && plan[i].Sql? && i !in excluded
    requires Visit(plan, excluded, i).Some? && LimitsSafe(env, plan, excluded, i + 1)
    ensures TreeValue(env, Visit(plan, excluded, i).value) == Value(env, plan, i)
    decreases i, 2
  {
    assert NodeOK(plan[i], i);
    var qs, ins := plan[i].queries, plan[i].inputs;
    VisitAllPreserves(env, plan, excluded, ins, i);
    var ts := VisitAll(plan, excluded, ins, i).value;
    if |ts| == 1 && IsSql(ts[0]) {
      assert TreeValues(env, ts) == [TreeValue(env, ts[0])] + TreeValues(env, ts[1..]) && ts[1..] == [];
      assert Values(env, plan, ins, i) == [TreeValue(env, ts[0])];
      if ts[0].TSql? {
        FuseSqlValue(env, qs, plan[i].res, ts[0]);
      } else {
        LimitInput(env, plan, excluded, i);
        FuseLimitIff(env, qs, plan[i].res, ts[0]);
      }
    }
  }

  predicate IsSql(t: Tree) { t.TSql? || t.TLimit? }

  /** The input of a limit child means what it meant in the plan. */
  lemma LimitInput<T>(env: Env<T>, plan: seq<Node>, excluded: set<nat>, i: nat)
    requires WF(plan) && i < |plan| && plan[i].Sql? && |plan[i].inputs| == 1 && i !in excluded
    requires VisitAll(plan, excluded, plan[i].inputs, i).Some?
        && VisitAll(plan, excluded, plan[i].inputs, i).value[0].TLimit?
    requires LimitsSafe(env, plan, excluded, i)
    ensures var c := plan[i].inputs[0];
      && plan[c].Limit? && plan[c].input < c
      && TreeValue(env, VisitAll(plan, excluded, plan[i].inputs, i).value[0].input) == Value(env, plan, plan[c].input)
    decreases i, 1
  {
    var c := plan[i].inputs[0];
    assert NodeOK(plan[i], i) && NodeOK(plan[c], c);
    assert VisitAll(plan, excluded, plan[i].inputs, i).value[0] == Visit(plan, excluded, c).value;
    if c in excluded {
      CopyValue(env, plan, plan[c].input);
    } else {
      VisitPreserves(env, plan, excluded, plan[c].input);
    }
  }
}
