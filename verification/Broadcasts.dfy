/** Matching the partitions of several inputs of one node. */
module Broadcasts {
  import opened Partitions
  import opened Planner

  datatype Found<R> = Missing | Found(task: PTask<R>)

  /** `dict((t.partition_infos, t) for t in taskgroup)`, then a lookup: a later task replaces an earlier one with equal
      infos. */
  function Lookup<R>(group: seq<PTask<R>>, key: seq<(nat, nat)>): Found<R> {
    if group == [] then Missing
    else if Keys(group[|group| - 1].infos) == key then Found(group[|group| - 1])
    else Lookup(group[..|group| - 1], key)
  }

  function DimsOf<R>(group: seq<PTask<R>>): set<nat> { if group == [] then {} else set d | d in Dims(group[0].infos) }

  /** Tuple comparison of partition infos. */
  predicate InfosLess(a: seq<Info>, b: seq<Info>) {
    if b == [] then false
    else if a == [] then true
    else Before(a[0], b[0]) || (a[0].Key() == b[0].Key() && InfosLess(a[1..], b[1..]))
  }

  function MaxInfos<R>(group: seq<PTask<R>>): seq<Info> {
    if group == [] then [] else
      var m := MaxInfos(group[..|group| - 1]);
      if InfosLess(m, group[|group| - 1].infos) then group[|group| - 1].infos else m
  }

  /** The order in which the main input is chosen: more dimensions first, then larger infos. */
  predicate Smaller<R>(a: seq<PTask<R>>, b: seq<PTask<R>>) {
    var m, n := if a == [] then 0 else |a[0].infos|, if b == [] then 0 else |b[0].infos|;
    m < n || (m == n && InfosLess(MaxInfos(a), MaxInfos(b)))
  }

  function MainInput<R>(groups: seq<seq<PTask<R>>>): (m: nat)
    requires groups != []
    ensures m < |groups|
  {
    if |groups| == 1 then 0 else
      var m := MainInput(groups[..|groups| - 1]);
      if Smaller(groups[m], groups[|groups| - 1]) then |groups| - 1 else m
  }

  /** The dependencies of the node's task for one partition of the main input. */
  function Match<R>(groups: seq<seq<PTask<R>>>, infos: seq<Info>): Planned<seq<PTask<R>>> {
    if groups == [] then Planned([]) else
      match (Lookup(groups[0], Keys(Filter(infos, DimsOf(groups[0])))), Match(groups[1..], infos))
      case (Found(t), Planned(rest)) => Planned([t] + rest)
      case _ => Refused
  }

  /** One task of the node: the dependencies it is constructed with, and its infos. */
  datatype Deps<R> = Deps(inputs: seq<PTask<R>>, infos: seq<Info>) {
    /** What the constructor keeps of them, and the task then reads, by position. */
    function Received(): seq<PTask<R>> { Inputs(inputs) }
  }

  function MatchAll<R>(groups: seq<seq<PTask<R>>>, main: seq<PTask<R>>): Planned<seq<Deps<R>>> {
    if main == [] then Planned([]) else
      match (Match(groups, main[0].infos), MatchAll(groups, main[1..]))
      case (Planned(ins), Planned(rest)) => Planned([Deps(ins, main[0].infos)] + rest)
      case _ => Refused
  }

  /** `broadcast_input_deps`. */
  function Broadcast<R>(groups: seq<seq<PTask<R>>>): Planned<seq<Deps<R>>> {
    if groups == [] then Planned([Deps([], [TOPLEVEL])]) else MatchAll(groups, groups[MainInput(groups)])
  }

  // ---------------------------------------------------------------- properties

  lemma {:induction false} LookupHas<R>(group: seq<PTask<R>>, key: seq<(nat, nat)>)
    ensures Lookup(group, key).Found? <==> exists i :: 0 <= i < |group| && Keys(group[i].infos) == key
    ensures Lookup(group, key).Found? ==> Lookup(group, key).task in group && Keys(Lookup(group, key).task.infos) == key
  {
    if group != [] && Keys(group[|group| - 1].infos) != key {
      var init := group[..|group| - 1];
      LookupHas(init, key);
      if i: nat :| i < |group| && Keys(group[i].infos) == key { assert init[i] == group[i]; }
      if i: nat :| i < |init| && Keys(init[i].infos) == key { assert group[i] == init[i]; }
    }
  }

  /** The j-th dependency comes from the j-th input, and agrees with the partition on all dimensions of that input. */
  ghost predicate Agrees<R>(deps: seq<PTask<R>>, groups: seq<seq<PTask<R>>>, infos: seq<Info>) {
    |deps| == |groups| && forall j :: 0 <= j < |deps| ==>
        deps[j] in groups[j] && Keys(deps[j].infos) == Keys(Filter(infos, DimsOf(groups[j])))
  }

  /** The partition finds a task in every input. */
  ghost predicate Compatible<R>(groups: seq<seq<PTask<R>>>, infos: seq<Info>) {
    forall j :: 0 <= j < |groups| ==> HasKey(groups[j], Keys(Filter(infos, DimsOf(groups[j]))))
  }

  ghost predicate HasKey<R>(group: seq<PTask<R>>, key: seq<(nat, nat)>) {
    exists i :: 0 <= i < |group| && Keys(group[i].infos) == key
  }

  lemma {:induction false} MatchAgrees<R>(groups: seq<seq<PTask<R>>>, infos: seq<Info>)
    ensures Match(groups, infos).Planned? <==> Compatible(groups, infos)
    ensures Match(groups, infos).Planned? ==> Agrees(Match(groups, infos).value, groups, infos)
  {
    if groups != [] {
      LookupHas(groups[0], Keys(Filter(infos, DimsOf(groups[0]))));
      MatchAgrees(groups[1..], infos);
      assert forall j :: 0 < j < |groups| ==> groups[j] == groups[1..][j - 1];
      if Compatible(groups, infos) {
        assert HasKey(groups[0], Keys(Filter(infos, DimsOf(groups[0]))));
        forall j | 0 <= j < |groups[1..]| ensures HasKey(groups[1..][j], Keys(Filter(infos, DimsOf(groups[1..][j])))) {
          assert groups[1..][j] == groups[j + 1];
        }
      }
    }
  }

  /** One entry for each partition of the main input, with dependencies that agree with it. */
  ghost predicate Serves<R>(out: seq<Deps<R>>, groups: seq<seq<PTask<R>>>, main: seq<PTask<R>>) {
    && |out| == |main|
    && forall i :: 0 <= i < |main| ==> out[i].infos == main[i].infos && Agrees(out[i].inputs, groups, main[i].infos)
  }

  lemma {:induction false} MatchAllAgrees<R>(groups: seq<seq<PTask<R>>>, main: seq<PTask<R>>)
    ensures MatchAll(groups, main).Planned? <==> forall i :: 0 <= i < |main| ==> Compatible(groups, main[i].infos)
    ensures MatchAll(groups, main).Planned? ==> Serves(MatchAll(groups, main).value, groups, main)
  {
    if main != [] {
      MatchAgrees(groups, main[0].infos);
      MatchAllAgrees(groups, main[1..]);
      assert forall i :: 0 < i < |main| ==> main[i] == main[1..][i - 1];
    }
  }

  // ---------------------------------------------------------------- what the constructor keeps

  lemma {:induction false} InputsSame<R>(ts: seq<PTask<R>>)
    ensures |Inputs(ts)| <= |ts| && (Inputs(ts) == ts <==> DistinctIds(ts))
    ensures |Inputs(ts)| == |ts| <==> DistinctIds(ts)
  {
    if ts != [] {
      var init, t := ts[..|ts| - 1], ts[|ts| - 1];
      assert ts == init + [t];
      InputsSame(init);
      InputsList(init);
      DistinctNext(init, t);
    }
  }

  lemma DistinctNext<R>(ts: seq<PTask<R>>, t: PTask<R>)
    ensures DistinctIds(ts + [t]) <==> DistinctIds(ts) && !Lists(ts, t.id)
  {
    var r := ts + [t];
    assert r[|ts|] == t && forall i :: 0 <= i < |ts| ==> r[i] == ts[i];
    if DistinctIds(r) {
      assert DistinctIds(ts) by {
        forall i, j | 0 <= i < j < |ts| ensures ts[i].id != ts[j].id { assert r[i].id != r[j].id; }
      }
      forall i | 0 <= i < |ts| ensures ts[i].id != t.id { assert r[i].id != r[|ts|].id; }
    }
  }

  /** For these infos two inputs of the node find the same task. */
  ghost predicate Coincide<R>(groups: seq<seq<PTask<R>>>, infos: seq<Info>) {
    exists j, k :: 0 <= j < k < |groups| && SameTask(groups[j], groups[k], infos)
  }

  predicate SameTask<R>(a: seq<PTask<R>>, b: seq<PTask<R>>, infos: seq<Info>) {
    var x, y := Lookup(a, Keys(Filter(infos, DimsOf(a)))), Lookup(b, Keys(Filter(infos, DimsOf(b))));
    x.Found? && y.Found? && x.task.id == y.task.id
  }

  lemma {:induction false} MatchIs<R>(groups: seq<seq<PTask<R>>>, infos: seq<Info>, j: nat)
    requires Match(groups, infos).Planned? && j < |groups|
    ensures j < |Match(groups, infos).value|
    ensures Lookup(groups[j], Keys(Filter(infos, DimsOf(groups[j])))) == Found(Match(groups, infos).value[j])
  {
    if j > 0 { MatchIs(groups[1..], infos, j - 1); }
  }

  lemma MatchDistinct<R>(groups: seq<seq<PTask<R>>>, infos: seq<Info>)
    requires Match(groups, infos).Planned?
    ensures DistinctIds(Match(groups, infos).value) <==> !Coincide(groups, infos)
  {
    var deps := Match(groups, infos).value;
    MatchAgrees(groups, infos);
    if j: nat, k: nat :| j < k < |groups| && SameTask(groups[j], groups[k], infos) {
      MatchIs(groups, infos, j);
      MatchIs(groups, infos, k);
      assert deps[j].id == deps[k].id;
    }
    if !DistinctIds(deps) {
      var j: nat, k: nat :| j < k < |deps| && deps[j].id == deps[k].id;
      MatchIs(groups, infos, j);
      MatchIs(groups, infos, k);
      assert SameTask(groups[j], groups[k], infos);
    }
  }

  /** The task of a partition reads one input for every input of the node, in their order, exactly when no two of them
      find the same task for this partition; else it has fewer inputs, and later ones move forward. */
  lemma ReceivedIff<R>(groups: seq<seq<PTask<R>>>, i: nat)
    requires groups != [] && Broadcast(groups).Planned? && i < |groups[MainInput(groups)]|
    ensures i < |Broadcast(groups).value|
    ensures var d, coincide := Broadcast(groups).value[i], Coincide(groups, groups[MainInput(groups)][i].infos);
      && (d.Received() == d.inputs <==> !coincide)
      && (|d.Received()| == |groups| <==> !coincide)
  {
    var main := groups[MainInput(groups)];
    MatchAllIs(groups, main, i);
    MatchDistinct(groups, main[i].infos);
    MatchAgrees(groups, main[i].infos);
    InputsSame(Broadcast(groups).value[i].inputs);
  }

  /** Broadcasting makes one task for each partition of the main input, refuses exactly when some partition finds no
      task in some input, and otherwise constructs every task with dependencies that agree with its partition. The task
      reads that list exactly when no two inputs find the same task. */
  lemma BroadcastAgrees<R>(groups: seq<seq<PTask<R>>>)
    requires groups != []
    ensures var main, out := groups[MainInput(groups)], Broadcast(groups);
      && (out.Planned? <==> forall t :: t in main ==> Compatible(groups, t.infos))
      && (out.Planned? ==> Serves(out.value, groups, main))
      && (out.Planned? ==> forall i :: 0 <= i < |main| ==>
            (out.value[i].Received() == out.value[i].inputs <==> !Coincide(groups, main[i].infos)))
  {
    var main, out := groups[MainInput(groups)], Broadcast(groups);
    MatchAllAgrees(groups, main);
    if out.Planned? {
      forall i | 0 <= i < |main|
        ensures out.value[i].Received() == out.value[i].inputs <==> !Coincide(groups, main[i].infos)
      {
        ReceivedIff(groups, i);
      }
    }
  }

  /** An input used twice is read once. */
  lemma SameInputTwice<R>(group: seq<PTask<R>>, i: nat)
    requires Broadcast([group, group]).Planned? && i < |group|
    ensures i < |Broadcast([group, group]).value| && |Broadcast([group, group]).value[i].Received()| < 2
  {
    var groups := [group, group];
    assert groups[MainInput(groups)] == group;
    ReceivedIff(groups, i);
    MatchAllIs(groups, group, i);
    MatchIs(groups, group[i].infos, 0);
    assert SameTask(groups[0], groups[1], group[i].infos);
    InputsSame(Broadcast(groups).value[i].inputs);
    MatchAgrees(groups, group[i].infos);
  }

  // ---------------------------------------------------------------- tasks that nobody reads

  /** Some task of the node reads t for the node's j-th input. */
  ghost predicate Used<R>(out: seq<Deps<R>>, j: nat, t: PTask<R>) {
    exists i :: 0 <= i < |out| && j < |out[i].inputs| && out[i].inputs[j] == t
  }

  /** The infos, restricted to the dimensions of the group, have this key. */
  predicate Restricts<R>(infos: seq<Info>, group: seq<PTask<R>>, key: seq<(nat, nat)>) {
    Keys(Filter(infos, DimsOf(group))) == key
  }

  /** Some partition of the main input is restricted to this key. */
  ghost predicate Asked<R>(main: seq<PTask<R>>, group: seq<PTask<R>>, key: seq<(nat, nat)>) {
    exists i :: 0 <= i < |main| && Restricts(main[i].infos, group, key)
  }

  lemma UsedIff<R>(groups: seq<seq<PTask<R>>>, j: nat, t: PTask<R>)
    requires groups != [] && Broadcast(groups).Planned? && j < |groups| && t in groups[j]
    ensures Used(Broadcast(groups).value, j, t)
        <==> Asked(groups[MainInput(groups)], groups[j], Keys(t.infos)) && Lookup(groups[j], Keys(t.infos)) == Found(t)
  {
    var main, out := groups[MainInput(groups)], Broadcast(groups).value;
    BroadcastAgrees(groups);
    if i: nat :| i < |out| && j < |out[i].inputs| && out[i].inputs[j] == t {
      MatchAllIs(groups, main, i);
      MatchIs(groups, main[i].infos, j);
      assert Restricts(main[i].infos, groups[j], Keys(t.infos));
    }
    if Lookup(groups[j], Keys(t.infos)) == Found(t) {
      if i: nat :| i < |main| && Restricts(main[i].infos, groups[j], Keys(t.infos)) {
        MatchAllIs(groups, main, i);
        MatchIs(groups, main[i].infos, j);
        assert out[i].inputs[j] == t;
      }
    }
  }

  /** Every task of the node's j-th input is read exactly when no two different tasks of it have equal infos, and some
      partition of the main input asks for each of them. A task that is not read may be in no plan at all, and is still
      named as a consumer by its own inputs. */
  lemma AllUsedIff<R>(groups: seq<seq<PTask<R>>>, j: nat)
    requires groups != [] && Broadcast(groups).Planned? && j < |groups|
    ensures (forall t :: t in groups[j] ==> Used(Broadcast(groups).value, j, t))
        <==> Unambiguous(groups[j]) && forall t :: t in groups[j] ==>
          Asked(groups[MainInput(groups)], groups[j], Keys(t.infos))
  {
    var group := groups[j];
    forall t | t in group
      ensures Used(Broadcast(groups).value, j, t)
          <==> Asked(groups[MainInput(groups)], group, Keys(t.infos)) && Lookup(group, Keys(t.infos)) == Found(t)
    {
      UsedIff(groups, j, t);
    }
    if Unambiguous(group) {
      forall t | t in group ensures Lookup(group, Keys(t.infos)) == Found(t) {
        var i: nat :| i < |group| && group[i] == t;
        LookupSame(group, i);
      }
    } else {
      var i, k :| 0 <= i < k < |group| && Keys(group[i].infos) == Keys(group[k].infos) && group[i] != group[k];
      assert group[i] in group && group[k] in group;
    }
  }

  // ---------------------------------------------------------------- a single input

  /** Different tasks have different keys. */
  predicate Unambiguous<R>(group: seq<PTask<R>>) {
    forall i, j :: 0 <= i < j < |group| && Keys(group[i].infos) == Keys(group[j].infos) ==> group[i] == group[j]
  }

  lemma {:induction false} LookupSame<R>(group: seq<PTask<R>>, i: nat)
    requires i < |group| && Unambiguous(group)
    ensures Lookup(group, Keys(group[i].infos)) == Found(group[i])
  {
    LookupHas(group, Keys(group[i].infos));
    var j :| 0 <= j < |group| && group[j] == Lookup(group, Keys(group[i].infos)).task;
  }

  /** With one input, every task of the node reads the input task whose partition it carries, exactly when no two
      different tasks of the input have equal partition infos. A union of inputs with equal infos breaks this: the later
      task is read in place of the earlier one. */
  lemma SingleInputIff<R>(group: seq<PTask<R>>)
    requires SameDims(group) && Broadcast([group]).Planned?
    ensures |Broadcast([group]).value| == |group|
    ensures (forall i :: 0 <= i < |group| ==> Broadcast([group]).value[i].inputs == [group[i]]) <==> Unambiguous(group)
  {
    BroadcastAgrees([group]);
    var out := Broadcast([group]).value;
    if Unambiguous(group) {
      forall i | 0 <= i < |group| ensures out[i].inputs == [group[i]] {
        EntryIs(group, i);
        LookupSame(group, i);
      }
    } else {
      var i, j :| 0 <= i < j < |group| && Keys(group[i].infos) == Keys(group[j].infos) && group[i] != group[j];
      EntryIs(group, i);
      EntryIs(group, j);
      assert out[i].inputs == out[j].inputs;
    }
  }

  /** What the i-th task of a node with one input reads. */
  lemma EntryIs<R>(group: seq<PTask<R>>, i: nat)
    requires SameDims(group) && MatchAll([group], group).Planned? && i < |group|
    ensures i < |MatchAll([group], group).value|
    ensures Lookup(group, Keys(group[i].infos)).Found?
    ensures MatchAll([group], group).value[i].inputs == [Lookup(group, Keys(group[i].infos)).task]
  {
    MatchAllIs([group], group, i);
    AllDims(group, i);
    MatchOne(group, group[i].infos);
  }

  lemma MatchOne<R>(group: seq<PTask<R>>, infos: seq<Info>)
    requires Match([group], infos).Planned?
    ensures var l := Lookup(group, Keys(Filter(infos, DimsOf(group))));
      l.Found? && Match([group], infos).value == [l.task]
  {
    assert [group][1..] == [];
  }

  lemma AllDims<R>(group: seq<PTask<R>>, i: nat)
    requires SameDims(group) && i < |group|
    ensures Filter(group[i].infos, DimsOf(group)) == group[i].infos
  {
    forall j | 0 <= j < |group[i].infos| ensures group[i].infos[j].dim in DimsOf(group) {
      assert Dims(group[i].infos)[j] == group[i].infos[j].dim;
      assert Dims(group[i].infos) == Dims(group[0].infos);
    }
    FilterAll(group[i].infos, DimsOf(group));
  }

  lemma {:induction false} MatchAllIs<R>(groups: seq<seq<PTask<R>>>, main: seq<PTask<R>>, i: nat)
    requires MatchAll(groups, main).Planned? && i < |main|
    ensures i < |MatchAll(groups, main).value| && Match(groups, main[i].infos)
        == Planned(MatchAll(groups, main).value[i].inputs)
  {
    if i > 0 { MatchAllIs(groups, main[1..], i - 1); }
  }
}
