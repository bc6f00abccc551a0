/** The GPU quotas of an executor: acquired for a work when it starts, released when it has finished. */
module GpuQuotas {

  /** What a work was granted: a share of some GPUs. */
  type Grant = map<nat, real>

  datatype Work = Work(key: nat, grant: Grant)

  function Share(g: Grant, gpu: nat): real { if gpu in g then g[gpu] else 0.0 }

  /** Sum of the shares of the listed GPUs. */
  function Sum(gpus: seq<nat>, g: Grant): real { if gpus == [] then 0.0 else Share(g, gpus[0]) + Sum(gpus[1..], g) }

  /** What the running works hold of one GPU. */
  function Held(running: seq<Work>, gpu: nat): real {
    if running == [] then 0.0 else Share(running[0].grant, gpu) + Held(running[1..], gpu)
  }

  predicate NoRepeat(s: seq<nat>) { forall i, j :: 0 <= i < j < |s| ==> s[i] != s[j] }

  lemma {:induction false} SumSame(gpus: seq<nat>, a: Grant, b: Grant)
    requires forall g :: g in gpus ==> Share(a, g) == Share(b, g)
    ensures Sum(gpus, a) == Sum(gpus, b)
  {
    if gpus != [] {
      assert gpus[0] in gpus && forall g :: g in gpus[1..] ==> g in gpus;
      SumSame(gpus[1..], a, b);
    }
  }

  lemma {:induction false} SumSplit(a: seq<nat>, b: seq<nat>, g: Grant)
    ensures Sum(a + b, g) == Sum(a, g) + Sum(b, g)
  {
    if a == [] {
      assert a + b == b;
    } else {
      assert (a + b)[1..] == a[1..] + b;
      SumSplit(a[1..], b, g);
    }
  }

  lemma SumNext(gpus: seq<nat>, i: nat, g: Grant)
    requires i < |gpus|
    ensures Sum(gpus[..i + 1], g) == Sum(gpus[..i], g) + Share(g, gpus[i])
    ensures Sum(gpus[i..], g) == Share(g, gpus[i]) + Sum(gpus[i + 1..], g)
  {
    assert gpus[..i + 1] == gpus[..i] + [gpus[i]];
    SumSplit(gpus[..i], [gpus[i]], g);
    assert [gpus[i]][1..] == [] && gpus[i..][1..] == gpus[i + 1..];
  }

  lemma {:induction false} HeldSplit(a: seq<Work>, b: seq<Work>, gpu: nat)
    ensures Held(a + b, gpu) == Held(a, gpu) + Held(b, gpu)
  {
    if a == [] {
      assert a + b == b;
    } else {
      assert (a + b)[1..] == a[1..] + b;
      HeldSplit(a[1..], b, gpu);
    }
  }

  lemma HeldWithout(a: seq<Work>, i: nat, gpu: nat)
    requires i < |a|
    ensures Held(a, gpu) == Held(a[..i] + a[i + 1..], gpu) + Share(a[i].grant, gpu)
  {
    assert a == a[..i] + ([a[i]] + a[i + 1..]);
    assert ([a[i]] + a[i + 1..])[1..] == a[i + 1..];
    HeldSplit(a[..i], [a[i]] + a[i + 1..], gpu);
    HeldSplit(a[..i], a[i + 1..], gpu);
  }

  /** Shares are positive, at most one GPU each, of known GPUs. */
  predicate Proper(g: Grant, gpus: seq<nat>) { forall k :: k in g ==> k in gpus && 0.0 < g[k] }

  lemma {:induction false} HeldNonNegative(running: seq<Work>, gpus: seq<nat>, gpu: nat)
    requires forall i :: 0 <= i < |running| ==> Proper(running[i].grant, gpus)
    ensures Held(running, gpu) >= 0.0
  {
    if running != [] {
      assert Proper(running[0].grant, gpus);
      assert forall i :: 0 <= i < |running[1..]| ==> running[1..][i] == running[i + 1];
      HeldNonNegative(running[1..], gpus, gpu);
    }
  }

  /** A GPU only gives a share when those before it have nothing left. */
  ghost predicate InOrder(gpus: seq<nat>, free: Grant, granted: Grant) {
    forall k, j :: 0 <= k < j < |gpus| && gpus[j] in granted ==> Share(free, gpus[k]) == 0.0
  }

  /** The first i GPUs have nothing left. */
  ghost predicate Exhausted(gpus: seq<nat>, free: Grant, i: nat) {
    i <= |gpus| && forall k :: 0 <= k < i ==> Share(free, gpus[k]) == 0.0
  }

  lemma OrderNext(gpus: seq<nat>, free: Grant, free': Grant, granted: Grant, granted': Grant, i: nat)
    requires NoRepeat(gpus) && i < |gpus| && InOrder(gpus, free, granted) && Exhausted(gpus, free, i)
    requires forall k :: i <= k < |gpus| ==> gpus[k] !in granted
    requires forall k :: 0 <= k < |gpus| && k != i ==> Share(free', gpus[k]) == Share(free, gpus[k])
    requires forall k :: 0 <= k < |gpus| && k != i ==> (gpus[k] in granted' <==> gpus[k] in granted)
    ensures InOrder(gpus, free', granted') && (Share(free', gpus[i]) == 0.0 ==> Exhausted(gpus, free', i + 1))
  {
  }

  datatype StartResult = Started | NoQuota | Unsettable

  class GpuPool {
    const gpus: seq<nat>
    var free: Grant
    var running: seq<Work>

    /** Free quota is never negative, and with the quota held by running works never more than one for any GPU. */
    ghost predicate Valid()
      reads this
    {
      && NoRepeat(gpus) && free.Keys == (set g | g in gpus)
      && (forall g :: g in gpus ==> 0.0 <= free[g] <= 1.0 && Total(g) <= 1.0)
      && (forall i :: 0 <= i < |running| ==> Proper(running[i].grant, gpus))
      && Keyed(running)
    }

    /** Free and held quota of one GPU. */
    ghost function Total(gpu: nat): real
      reads this
    {
      Share(free, gpu) + Held(running, gpu)
    }

    /** Nothing has been lost. */
    ghost predicate Exact()
      reads this
    {
      forall g :: g in gpus ==> Total(g) == 1.0
    }

    constructor (gpus: seq<nat>)
      requires NoRepeat(gpus)
      ensures Valid() && Exact() && this.gpus == gpus && running == []
    {
      this.gpus := gpus;
      free := map g | g in gpus :: 1.0;
      running := [];
    }

    /** `acquire_gpu`: all of the request or nothing. */
    method AcquireGpu(quota: real) returns (granted: Grant)
      requires NoRepeat(gpus) && free.Keys == (set g | g in gpus) && (forall g :: g in gpus ==> free[g] >= 0.0)
          && quota > 0.0
      modifies `free
      ensures free.Keys == old(free).Keys && Proper(granted, gpus)
      ensures forall g :: g in gpus ==> free[g] >= 0.0 && free[g] + Share(granted, g) == old(free)[g]
      ensures if Sum(gpus, old(free)) < quota then granted == map[] else granted != map[] && Sum(gpus, granted) == quota
      ensures InOrder(gpus, free, granted)
    {
      granted := map[];
      if Sum(gpus, free) < quota { return; }
      ghost var before, i := free, 0;
      granted, i := GrantAll(quota);
      Granted(before, granted, i);
    }

    method GrantAll(quota: real) returns (granted: Grant, ghost reached: nat)
      requires NoRepeat(gpus) && free.Keys == (set g | g in gpus) && (forall g :: g in gpus ==> free[g] >= 0.0)
          && 0.0 < quota <= Sum(gpus, free)
      modifies `free
      ensures Granting(old(free), granted, reached) && granted != map[] && Sum(gpus[..reached], granted) == quota
      ensures InOrder(gpus, free, granted)
    {
      granted := map[];
      ghost var before := free;
      var left, i := quota, 0;
      NothingGranted();
      while i < |gpus| && left > 0.0
        invariant Granting(before, granted, i) && Left(before, granted, i, quota, left)
        invariant InOrder(gpus, free, granted) && (left > 0.0 ==> Exhausted(gpus, free, i))
      {
        granted, left := GrantNext(i, granted, left, quota, before);
        i := i + 1;
      }
      assert i == |gpus| ==> gpus[i..] == [];
      reached := i;
    }

    /** One pass of the loop. */
    method GrantNext(i: nat, granted: Grant, left: real, ghost quota: real, ghost before: Grant)
        returns (granted': Grant, left': real)
      requires i < |gpus| && left > 0.0 && Granting(before, granted, i) && Left(before, granted, i, quota, left)
      requires InOrder(gpus, free, granted) && Exhausted(gpus, free, i)
      modifies `free
      ensures Granting(before, granted', i + 1) && Left(before, granted', i + 1, quota, left')
      ensures InOrder(gpus, free, granted') && (left' > 0.0 ==> Exhausted(gpus, free, i + 1))
    {
      ghost var was := free;
      granted', left' := GrantOne(i, granted, left, quota, before);
      OrderNext(gpus, was, free, granted, granted', i);
    }

    lemma Granted(before: Grant, granted: Grant, i: nat)
      requires Granting(before, granted, i)
      ensures forall g :: g in gpus ==> free[g] >= 0.0 && free[g] + Share(granted, g) == before[g]
      ensures Sum(gpus[..i], granted) == Sum(gpus, granted)
    {
      SumOutside(gpus, i, granted);
      forall g | g in gpus ensures free[g] >= 0.0 && free[g] + Share(granted, g) == before[g] {
        var k: nat :| k < |gpus| && gpus[k] == g;
        assert Balanced(before, granted, k);
      }
    }

    lemma NothingGranted()
      requires NoRepeat(gpus) && free.Keys == (set g | g in gpus) && forall g :: g in gpus ==> free[g] >= 0.0
      ensures Granting(free, map[], 0)
      ensures forall quota :: 0.0 < quota <= Sum(gpus, free) ==> Left(free, map[], 0, quota, quota)
    {
      assert gpus[..0] == [] && gpus[0..] == gpus;
      forall k | 0 <= k < |gpus| ensures Balanced(free, map[], k) { assert gpus[k] in gpus; }
    }

    /** Quotas and grants after the first i GPUs. */
    ghost predicate Granting(before: Grant, granted: Grant, i: nat)
      reads this
    {
      && NoRepeat(gpus) && i <= |gpus| && free.Keys == before.Keys == (set g | g in gpus) && Proper(granted, gpus)
      && (forall k {:trigger Balanced(before, granted, k)} :: 0 <= k < |gpus| ==> Balanced(before, granted, k))
      && (forall k :: i <= k < |gpus| ==> gpus[k] !in granted)
    }

    /** What is still needed is the request less the grants, and the GPUs ahead have it. */
    ghost predicate Left(before: Grant, granted: Grant, i: nat, quota: real, left: real) {
      && i <= |gpus| && left >= 0.0 && Sum(gpus[..i], granted) + left == quota && (granted == map[] ==> left == quota)
      && (left == 0.0 || Sum(gpus[i..], before) >= left)
    }

    ghost predicate Balanced(before: Grant, granted: Grant, k: nat)
      reads this
      requires k < |gpus|
    {
      var g := gpus[k]; g in free && g in before && free[g] >= 0.0 && free[g] + Share(granted, g) == before[g]
    }

    /** One GPU gives what it has, up to what is still needed. */
    method GrantOne(i: nat, granted: Grant, left: real, ghost quota: real, ghost before: Grant)
        returns (granted': Grant, left': real)
      requires i < |gpus| && left > 0.0 && Granting(before, granted, i) && Left(before, granted, i, quota, left)
      modifies `free
      ensures Granting(before, granted', i + 1) && Left(before, granted', i + 1, quota, left')
      ensures forall g :: g != gpus[i] ==> Share(free, g) == Share(old(free), g) && (g in granted' <==> g in granted)
      ensures left' > 0.0 ==> Share(free, gpus[i]) == 0.0
    {
      granted', left' := granted, left;
      var gpu := gpus[i];
      assert Balanced(before, granted, i);
      label Before:
      if free[gpu] > 0.0 {
        var share := if free[gpu] < left then free[gpu] else left;
        granted' := granted[gpu := share];
        free := free[gpu := free[gpu] - share];
        left' := left - share;
      }
      forall k | 0 <= k < |gpus| ensures Balanced(before, granted', k) {
        assert old@Before(Balanced(before, granted, k));
      }
      GrantSums(i, granted, granted', before);
    }

    lemma GrantSums(i: nat, granted: Grant, granted': Grant, before: Grant)
      requires i < |gpus| && NoRepeat(gpus) && gpus[i] !in granted && forall g ::
        g != gpus[i] ==> Share(granted', g) == Share(granted, g)
      ensures Sum(gpus[..i + 1], granted') == Sum(gpus[..i], granted) + Share(granted', gpus[i])
      ensures Sum(gpus[i..], before) == Share(before, gpus[i]) + Sum(gpus[i + 1..], before)
    {
      assert gpus[i] !in gpus[..i];
      SumSame(gpus[..i], granted, granted');
      SumNext(gpus, i, granted');
      SumNext(gpus, i, before);
    }

    /** `release_gpu`. The flag is the assertion: no quota exceeds one. */
    method ReleaseGpu(grant: Grant) returns (ok: bool)
      requires NoRepeat(gpus) && free.Keys == (set g | g in gpus) && Proper(grant, gpus)
      modifies `free
      ensures free.Keys == old(free).Keys && forall g :: g in gpus ==> free[g] == old(free)[g] + Share(grant, g)
      ensures ok <==> forall g :: g in grant ==> old(free)[g] + grant[g] <= 1.0
    {
      ok := true;
      var i := 0;
      while i < |gpus|
        invariant i <= |gpus| && free.Keys == old(free).Keys
        invariant forall k :: 0 <= k < |gpus| ==> free[gpus[k]] == old(free)[gpus[k]] + if k < i
            then Share(grant, gpus[k]) else 0.0
        invariant ok <==> forall k :: 0 <= k < i && gpus[k] in grant ==> old(free)[gpus[k]] + grant[gpus[k]] <= 1.0
      {
        var gpu := gpus[i];
        if gpu in grant {
          free := free[gpu := free[gpu] + grant[gpu]];
          if free[gpu] > 1.0 { ok := false; }
        }
        i := i + 1;
      }
    }

    /** The part of `exec_loop` that starts a work. The request is downgraded by assigning to a property without
        setter, which raises. */
    method StartWork(key: nat, limit: real) returns (r: StartResult)
      requires Valid()
      modifies `free, `running
      ensures r == Unsettable <==> limit > |gpus| as real
      ensures r == NoQuota <==> 0.0 < limit <= |gpus| as real && Sum(gpus, old(free)) < limit
      ensures Valid() && (r != Started ==> running == old(running) && forall g :: g in gpus ==> free[g] == old(free)[g])
      ensures r == Started ==> HasKey(running, key) && Sum(gpus, GrantOf(running, key)) == if limit > 0.0 then limit
          else 0.0
      ensures r == Started ==> forall g :: g in gpus ==>
        Total(g) == old(Total(g)) - Share(GrantOf(old(running), key), g)
      ensures r == Started ==> running == Assign(old(running), key, GrantOf(running, key))
    {
      var grant: Grant := map[];
      SumZero(gpus, grant);
      if limit > |gpus| as real { return Unsettable; }
      if limit > 0.0 {
        grant := AcquireGpu(limit);
        if grant == map[] { return NoQuota; }
      }
      ghost var before := running;
      running := Assign(running, key, grant);
      r := Started;
      AssignHas(before, key, grant);
      StartedValid(before, key, grant, old(free));
    }

    /** After a start the totals are what they were, less the grant that was overwritten. */
    lemma StartedValid(before: seq<Work>, key: nat, grant: Grant, free0: Grant)
      requires running == Assign(before, key, grant) && Proper(grant, gpus) && NoRepeat(gpus)
      requires free.Keys == free0.Keys == (set g | g in gpus)
      requires forall g :: g in gpus ==> free[g] >= 0.0 && free[g] + Share(grant, g) == free0[g]
      requires forall g :: g in gpus ==> free0[g] <= 1.0 && free0[g] + Held(before, g) <= 1.0
      requires forall i :: 0 <= i < |before| ==> Proper(before[i].grant, gpus)
      requires Keyed(before)
      ensures Valid()
      ensures forall g :: g in gpus ==> Total(g) == free0[g] + Held(before, g) - Share(GrantOf(before, key), g)
    {
      GrantOfIs(before, key);
      forall g | g in gpus
        ensures Total(g) == free0[g] + Held(before, g) - Share(GrantOf(before, key), g)
            && Share(GrantOf(before, key), g) >= 0.0 && free[g] <= 1.0
      {
        HeldAssign(before, key, grant, g);
      }
      AssignKeyed(before, key, grant);
      forall i | 0 <= i < |running| ensures Proper(running[i].grant, gpus) { AssignIn(before, key, grant, running[i]); }
    }

    /** Remove the i-th work and give its grant back. */
    method Release(i: nat) returns (ok: bool)
      requires Valid() && i < |running|
      modifies `free, `running
      ensures Valid() && ok && running == old(running[..i] + running[i + 1..])
      ensures forall g :: g in gpus ==> Total(g) == old(Total(g))
    {
      ghost var before := running;
      var w := running[i];
      running := running[..i] + running[i + 1..];
      forall g | g in gpus ensures Held(running, g) >= 0.0 && Held(before, g) == Held(running, g) + Share(w.grant, g) {
        HeldWithout(before, i, g);
        HeldNonNegative(running, gpus, g);
      }
      ok := ReleaseGpu(w.grant);
    }

    /** `collect_finished_works`: the release assertion never fires, and nothing is lost. */
    method CollectFinished(finished: nat -> bool) returns (ok: bool)
      requires Valid()
      modifies `free, `running
      ensures Valid() && ok && running == Unfinished(old(running), finished)
      ensures forall g :: g in gpus ==> Total(g) == old(Total(g))
    {
      ok := true;
      var i := 0;
      while i < |running|
        invariant Valid() && ok && i <= |running|
        invariant forall g :: g in gpus ==> Total(g) == old(Total(g))
        invariant Remaining(running, i, finished) == Unfinished(old(running), finished)
        decreases |running| - i
      {
        RemainingStep(running, i, finished);
        if finished(running[i].key) {
          var fine := Release(i);
          ok := ok && fine;
        } else {
          i := i + 1;
        }
      }
      assert running[i..] == [] && running[..i] == running;
    }

    /** Any sequence of starts and collections, whatever finishes or crashes in between: the release assertion never
        fires, and quota is lost exactly when some start overwrote a running work that held a grant. `works` are the
        running works before each event and at the end. */
    method RunWorks(events: seq<Event>) returns (ok: bool, started: seq<bool>, ghost works: seq<seq<Work>>)
      requires Valid() && Exact()
      modifies `free, `running
      ensures Valid() && ok && Trace(events, started, works, old(running), running)
      ensures Exact() <==> forall i :: 0 <= i < |events| ==> !Overwrites(events[i], started[i], works[i])
    {
      ok, started, works := true, [], [running];
      while |started| < |events|
        invariant |started| <= |events| && Valid() && ok
        invariant Trace(events[..|started|], started, works, old(running), running)
        invariant Exact() <==> forall i :: 0 <= i < |started| ==> !Overwrites(events[i], started[i], works[i])
      {
        var event := events[|started|];
        var collected, begun := RunWork(event);
        assert events[..|started| + 1] == events[..|started|] + [event];
        ok, started, works := ok && collected, started + [begun], works + [running];
      }
      assert events[..|events|] == events;
    }

    method RunWork(event: Event) returns (ok: bool, started: bool)
      requires Valid()
      modifies `free, `running
      ensures Valid() && ok && Moves(event, started, old(running), running)
      ensures Exact() <==> old(Exact()) && !Overwrites(event, started, old(running))
    {
      match event {
        case Start(key, limit) =>
          ok := true;
          started := StartOne(key, limit);
        case Collect(finished) =>
          started := false;
          ok := CollectFinished(finished);
      }
    }

    method StartOne(key: nat, limit: real) returns (started: bool)
      requires Valid()
      modifies `free, `running
      ensures Valid() && Moves(Start(key, limit), started, old(running), running)
      ensures Exact() <==> old(Exact()) && !Overwrites(Start(key, limit), started, old(running))
    {
      ghost var before := GrantOf(running, key);
      GrantOfIs(running, key);
      var r := StartWork(key, limit);
      started := r == Started;
      if started && before != map[] {
        ghost var g :| g in before;
        assert g in gpus && Total(g) < old(Total(g)) <= 1.0;
      } else {
        forall g | g in gpus ensures Total(g) == old(Total(g)) {}
      }
    }
  }

  /** What happens to an executor: a work is started, or the finished and crashed works are collected. */
  datatype Event = Start(key: nat, limit: real) | Collect(finished: nat -> bool)

  /** The start of a work replaces the running work with its key, together with the grant that this one held. */
  predicate Overwrites(event: Event, started: bool, works: seq<Work>) {
    event.Start? && started && GrantOf(works, event.key) != map[]
  }

  /** What an event does to the running works. */
  ghost predicate Moves(event: Event, started: bool, from: seq<Work>, to: seq<Work>) {
    match event
    case Start(key, _) => to == if started then Assign(from, key, GrantOf(to, key)) else from
    case Collect(finished) => to == Unfinished(from, finished)
  }

  ghost predicate Trace(events: seq<Event>, started: seq<bool>, works: seq<seq<Work>>, from: seq<Work>, to: seq<Work>) {
    && |started| == |events| && |works| == |events| + 1 && works[0] == from && works[|events|] == to
    && forall i :: 0 <= i < |events| ==> Moves(events[i], started[i], works[i], works[i + 1])
  }

  function Unfinished(running: seq<Work>, finished: nat -> bool): seq<Work> {
    if running == [] then []
    else (if finished(running[0].key) then [] else [running[0]]) + Unfinished(running[1..], finished)
  }

  /** The first i works have been looked at. */
  function Remaining(running: seq<Work>, i: nat, finished: nat -> bool): seq<Work>
    requires i <= |running|
  {
    running[..i] + Unfinished(running[i..], finished)
  }

  lemma RemainingStep(running: seq<Work>, i: nat, finished: nat -> bool)
    requires i < |running|
    ensures Remaining(running, i, finished) ==
      if finished(running[i].key) then Remaining(running[..i] + running[i + 1..], i, finished)
          else Remaining(running, i + 1, finished)
  {
    assert running[i..][1..] == running[i + 1..];
    var rest := running[..i] + running[i + 1..];
    assert rest[..i] == running[..i] && rest[i..] == running[i + 1..];
    assert running[..i + 1] == running[..i] + [running[i]];
  }

  predicate HasKey(running: seq<Work>, key: nat) { exists i :: 0 <= i < |running| && running[i].key == key }

  function GrantOf(running: seq<Work>, key: nat): Grant {
    if running == [] then map[] else if running[0].key == key then running[0].grant else GrantOf(running[1..], key)
  }

  /** Dictionary assignment: replaces an entry in place, or appends one. */
  function Assign(running: seq<Work>, key: nat, grant: Grant): seq<Work> {
    if running == [] then [Work(key, grant)]
    else if running[0].key == key then [Work(key, grant)] + running[1..]
    else [running[0]] + Assign(running[1..], key, grant)
  }

  lemma {:induction false} HeldAssign(running: seq<Work>, key: nat, grant: Grant, gpu: nat)
    ensures Held(Assign(running, key, grant), gpu) == Held(running, gpu) - Share(GrantOf(running, key), gpu)
        + Share(grant, gpu)
  {
    if running != [] && running[0].key != key { HeldAssign(running[1..], key, grant, gpu); }
  }

  lemma {:induction false} AssignHas(running: seq<Work>, key: nat, grant: Grant)
    ensures var r := Assign(running, key, grant);
      HasKey(r, key) && GrantOf(r, key) == grant && (!HasKey(running, key) ==> r == running + [Work(key, grant)])
  {
    var r := Assign(running, key, grant);
    if running == [] || running[0].key == key {
      assert r[0].key == key;
    } else {
      AssignHas(running[1..], key, grant);
      if HasKey(running[1..], key) { LaterKey(running, key); }
      LaterKey(r, key);
    }
  }

  lemma LaterKey(running: seq<Work>, key: nat)
    requires running != [] && HasKey(running[1..], key)
    ensures HasKey(running, key)
  {
    var i :| 0 <= i < |running[1..]| && running[1..][i].key == key;
    assert running[i + 1].key == key;
  }

  lemma {:induction false} AssignIn(running: seq<Work>, key: nat, grant: Grant, w: Work)
    requires w in Assign(running, key, grant)
    ensures w in running || w == Work(key, grant)
  {
    if running != [] && running[0].key != key && w != running[0] { AssignIn(running[1..], key, grant, w); }
  }

  predicate Keyed(running: seq<Work>) { forall i, j :: 0 <= i < j < |running| ==> running[i].key != running[j].key }

  lemma {:induction false} AssignKeyed(running: seq<Work>, key: nat, grant: Grant)
    requires Keyed(running)
    ensures Keyed(Assign(running, key, grant))
  {
    if running != [] && running[0].key != key {
      AssignKeyed(running[1..], key, grant);
      var r := Assign(running[1..], key, grant);
      forall j | 0 <= j < |r| ensures r[j].key != running[0].key { AssignIn(running[1..], key, grant, r[j]); }
    }
  }

  lemma {:induction false} GrantOfIs(running: seq<Work>, key: nat)
    ensures GrantOf(running, key) != map[] ==> Work(key, GrantOf(running, key)) in running
  {
    if running != [] && running[0].key != key { GrantOfIs(running[1..], key); }
  }

  /** Nothing is granted of the GPUs that were not reached. */
  lemma {:induction false} SumZero(gpus: seq<nat>, g: Grant)
    requires forall k :: k in gpus ==> k !in g
    ensures Sum(gpus, g) == 0.0
  {
    if gpus != [] {
      assert gpus[0] in gpus && forall k :: k in gpus[1..] ==> k in gpus;
      SumZero(gpus[1..], g);
    }
  }

  lemma SumOutside(gpus: seq<nat>, i: nat, g: Grant)
    requires i <= |gpus| && forall k :: i <= k < |gpus| ==> gpus[k] !in g
    ensures Sum(gpus, g) == Sum(gpus[..i], g)
  {
    assert gpus == gpus[..i] + gpus[i..];
    SumSplit(gpus[..i], gpus[i..], g);
    SumZero(gpus[i..], g);
  }
}
