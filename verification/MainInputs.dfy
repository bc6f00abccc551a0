/** Which input of a node sets its partitions: the one with the most dimensions, then with the largest infos. */
module MainInputs {
  import opened Partitions
  import opened Broadcasts

  /** The order of tuples is a weak order. */
  lemma {:induction false} LessBetween(a: seq<Info>, b: seq<Info>, c: seq<Info>)
    requires InfosLess(a, c)
    ensures InfosLess(a, b) || InfosLess(b, c)
  {
    if a != [] && b != [] && a[0].Key() == b[0].Key() && b[0].Key() == c[0].Key() {
      LessBetween(a[1..], b[1..], c[1..]);
    }
  }

  lemma {:induction false} LessOneWay(a: seq<Info>, b: seq<Info>)
    requires InfosLess(a, b)
    ensures !InfosLess(b, a)
  {
    if a != [] && a[0].Key() == b[0].Key() { LessOneWay(a[1..], b[1..]); }
  }

  /** The largest infos are those of a task, and no task has larger ones. */
  lemma {:induction false} MaxInfosIs<R>(group: seq<PTask<R>>)
    requires group != []
    ensures exists t :: t in group && t.infos == MaxInfos(group)
    ensures forall t :: t in group ==> !InfosLess(MaxInfos(group), t.infos)
  {
    var init, last := group[..|group| - 1], group[|group| - 1];
    assert group == init + [last];
    if init == [] {
      assert group == [last];
      if InfosLess(last.infos, last.infos) { LessOneWay(last.infos, last.infos); }
      assert MaxInfos(group) == last.infos || last.infos == [];
    } else {
      MaxInfosIs(init);
      var m := MaxInfos(init);
      forall t | t in group ensures !InfosLess(MaxInfos(group), t.infos) {
        if InfosLess(m, last.infos) && InfosLess(last.infos, t.infos) {
          LessOneWay(m, last.infos);
          LessOneWay(last.infos, t.infos);
          LessBetween(last.infos, m, t.infos);
        }
      }
      var t :| t in init && t.infos == m;
      assert t in group && last in group;
    }
  }

  /** Number of dimensions of the input's tasks. */
  function DimCount<R>(group: seq<PTask<R>>): nat { if group == [] then 0 else |group[0].infos| }

  lemma SmallerBetween<R>(a: seq<PTask<R>>, b: seq<PTask<R>>, c: seq<PTask<R>>)
    requires Smaller(a, c)
    ensures Smaller(a, b) || Smaller(b, c)
  {
    if DimCount(a) == DimCount(c) { LessBetween(MaxInfos(a), MaxInfos(b), MaxInfos(c)); }
  }

  lemma SmallerOneWay<R>(a: seq<PTask<R>>, b: seq<PTask<R>>)
    requires Smaller(a, b)
    ensures !Smaller(b, a)
  {
    if DimCount(a) == DimCount(b) { LessOneWay(MaxInfos(a), MaxInfos(b)); }
  }

  lemma {:induction false} MainIsLargest<R>(groups: seq<seq<PTask<R>>>, g: nat)
    requires groups != [] && g < |groups|
    ensures !Smaller(groups[MainInput(groups)], groups[g])
    ensures g < MainInput(groups) ==> Smaller(groups[g], groups[MainInput(groups)])
  {
    var n := |groups| - 1;
    if n == 0 {
      if Smaller(groups[0], groups[0]) { SmallerOneWay(groups[0], groups[0]); }
    } else {
      var init := groups[..n];
      var m := MainInput(init);
      if g < n { MainIsLargest(init, g); }
      if Smaller(groups[m], groups[n]) {
        SmallerOneWay(groups[m], groups[n]);
        if g < n {
          SmallerBetween(groups[m], groups[g], groups[n]);
          SmallerOneWay(groups[g], groups[n]);
        } else if Smaller(groups[n], groups[n]) {
          SmallerOneWay(groups[n], groups[n]);
        }
      }
    }
  }

  /** The main input has the most dimensions; among those with as many it has the largest infos, and it is the first of
      those. */
  lemma MainInputIs<R>(groups: seq<seq<PTask<R>>>, g: nat)
    requires groups != [] && g < |groups|
    ensures var m := MainInput(groups);
      && DimCount(groups[g]) <= DimCount(groups[m])
      && (DimCount(groups[g]) == DimCount(groups[m]) ==> !InfosLess(MaxInfos(groups[m]), MaxInfos(groups[g])))
      && (g < m ==> DimCount(groups[g]) < DimCount(groups[m]) || InfosLess(MaxInfos(groups[g]), MaxInfos(groups[m])))
  {
    MainIsLargest(groups, g);
  }
}
