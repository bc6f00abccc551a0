/** The cached lists of good and of alive executors: which steps can change them, and which cannot. */
module GoodCaches {
  import opened WorkItems
  import opened Executors
  import opened Plans
  import opened Sched
  import opened Dispatch
  import opened SchedInvariants
  import opened SchedLoop
  import opened SchedRuns
  import opened DispatchSteps

  /** `good_executors`, as positions. */
  function GoodFrom(execs: seq<Executor>, i: nat): seq<nat>
    decreases |execs| - i
  {
    if i >= |execs| then [] else (if IsGood(execs[i]) then [i] else []) + GoodFrom(execs, i + 1)
  }

  predicate IsAlive(e: Executor) { !e.local && e.Alive() }

  /** `alive_executors`, as positions. */
  function AliveFrom(execs: seq<Executor>, i: nat): (r: seq<nat>)
    ensures forall j :: j in r <==> i <= j < |execs| && IsAlive(execs[j])
    decreases |execs| - i
  {
    if i >= |execs| then [] else (if IsAlive(execs[i]) then [i] else []) + AliveFrom(execs, i + 1)
  }

  lemma {:induction false} GoodFromIs(execs: seq<Executor>, i: nat)
    ensures forall j :: j in GoodFrom(execs, i) <==> i <= j < |execs| && IsGood(execs[j])
    decreases |execs| - i
  {
    if i < |execs| { GoodFromIs(execs, i + 1); }
  }

  ghost predicate SameLists(xs: seq<Executor>, ys: seq<Executor>) {
    && |xs| == |ys|
    && forall i :: 0 <= i < |xs| ==> (IsGood(xs[i]) <==> IsGood(ys[i])) && (IsAlive(xs[i]) <==> IsAlive(ys[i]))
  }

  lemma {:induction false} SameList(xs: seq<Executor>, ys: seq<Executor>, i: nat)
    requires SameLists(xs, ys)
    ensures GoodFrom(xs, i) == GoodFrom(ys, i) && AliveFrom(xs, i) == AliveFrom(ys, i)
    decreases |xs| - i
  {
    if i < |xs| { SameList(xs, ys, i + 1); }
  }

  /** Cached lists, where there are any, equal the filters computed afresh. */
  ghost predicate Listed(good: Option<seq<nat>>, alive: Option<seq<nat>>, execs: seq<Executor>) {
    && (good.Some? ==> good.value == GoodFrom(execs, 0))
    && (alive.Some? ==> alive.value == AliveFrom(execs, 0))
  }

  lemma SameListed(good: Option<seq<nat>>, alive: Option<seq<nat>>, xs: seq<Executor>, ys: seq<Executor>)
    requires Listed(good, alive, xs) && SameLists(xs, ys)
    ensures Listed(good, alive, ys)
  {
    SameList(xs, ys, 0);
  }

  lemma {:induction false} CountIsLength(execs: seq<Executor>, i: nat)
    requires i <= |execs|
    ensures |GoodFrom(execs, i)| == GoodCount(execs[i..])
    decreases |execs| - i
  {
    if i < |execs| {
      CountIsLength(execs, i + 1);
      assert execs[i..][1..] == execs[i + 1..];
    }
  }

  /** The works of the listed executors. */
  function WorksAt(execs: seq<Executor>, js: seq<nat>): nat
    requires forall j :: j in js ==> j < |execs|
  {
    if js == [] then 0 else
      assert js[0] in js && forall j :: j in js[1..] ==> j in js;
      |execs[js[0]].running| + WorksAt(execs, js[1..])
  }

  function LocalWorks(execs: seq<Executor>): nat {
    if execs == [] then 0 else (if execs[0].local then |execs[0].running| else 0) + LocalWorks(execs[1..])
  }

  /** `num_running_works`: the works of the alive and of the local executors. */
  lemma {:induction false} RunningIsListed(execs: seq<Executor>, i: nat)
    requires i <= |execs|
    ensures NumRunning(execs[i..]) == WorksAt(execs, AliveFrom(execs, i)) + LocalWorks(execs[i..])
    decreases |execs| - i
  {
    if i < |execs| {
      RunningIsListed(execs, i + 1);
      assert execs[i..][1..] == execs[i + 1..];
      if IsAlive(execs[i]) {
        assert ([i] + AliveFrom(execs, i + 1))[1..] == AliveFrom(execs, i + 1);
      } else {
        assert [] + AliveFrom(execs, i + 1) == AliveFrom(execs, i + 1);
      }
    }
  }

  /** The usable executors are those of the list that are not busy. */
  function NotBusy(execs: seq<Executor>, js: seq<nat>): seq<nat>
    requires forall j :: j in js ==> j < |execs|
  {
    if js == [] then [] else
      assert js[0] in js && forall j :: j in js[1..] ==> j in js;
      (if execs[js[0]].Busy() then [] else [js[0]]) + NotBusy(execs, js[1..])
  }

  lemma {:induction false} UsableIsNotBusy(execs: seq<Executor>, i: nat)
    ensures forall j :: j in GoodFrom(execs, i) ==> j < |execs|
    ensures UsableFrom(execs, i) == NotBusy(execs, GoodFrom(execs, i))
    decreases |execs| - i
  {
    GoodFromIs(execs, i);
    if i < |execs| {
      UsableIsNotBusy(execs, i + 1);
      if IsGood(execs[i]) {
        assert ([i] + GoodFrom(execs, i + 1))[1..] == GoodFrom(execs, i + 1);
      } else {
        assert [] + GoodFrom(execs, i + 1) == GoodFrom(execs, i + 1);
      }
    }
  }

  // ---------------------------------------------------------------- steps that keep the list

  lemma {:induction false} PushLocalSame(e: Executor, queue: seq<Task>)
    ensures PushLocal(e, queue).0.local == e.local && PushLocal(e, queue).0.state == e.state
    decreases |queue|
  {
    if queue != [] { PushLocalSame(e.Push(TaskItem(queue[0])), queue[1..]); }
  }

  lemma OfferSameLists(p: Plan, s: State, i: nat, final: bool)
    requires i < |s.execs| && s.schedQueue != []
    ensures SameLists(s.execs, Offer(p, s, i, final).0.execs)
  {
  }

  lemma {:induction false} RoundSameLists(p: Plan, s: State, order: seq<nat>, final: bool)
    requires forall j :: j in order ==> j < |s.execs|
    ensures SameLists(s.execs, Round(p, s, order, final).0.execs)
    decreases |order|
  {
    if order != [] && s.schedQueue != [] {
      assert order[0] in order && forall j :: j in order[1..] ==> j in order;
      OfferSameLists(p, s, order[0], final);
      RoundSameLists(p, Offer(p, s, order[0], final).0, order[1..], final);
    }
  }

  lemma StopFirstSameLists(execs: seq<Executor>)
    ensures SameLists(execs, StopFirstIdle(execs))
  {
    var r := StopFirstIdle(execs);
    forall i | 0 <= i < |execs|
      ensures (IsGood(execs[i]) <==> IsGood(r[i])) && (IsAlive(execs[i]) <==> IsAlive(r[i]))
    {
      StopFirstIdleAt(execs, i);
    }
  }

  lemma PopSameLists(execs: seq<Executor>, replies: seq<seq<Reply>>)
    ensures SameLists(execs, PopExecs(execs, replies))
  {
    var r := PopExecs(execs, replies);
    forall i | 0 <= i < |execs|
      ensures (IsGood(execs[i]) <==> IsGood(r[i])) && (IsAlive(execs[i]) <==> IsAlive(r[i]))
    {
      ReceiveShape(execs[i], RepliesOf(replies, i));
    }
  }

  lemma StopAllSameLists(execs: seq<Executor>)
    ensures SameLists(execs, StopAll(execs))
  {
  }

  lemma SameListsTransitive(xs: seq<Executor>, ys: seq<Executor>, zs: seq<Executor>)
    requires SameLists(xs, ys) && SameLists(ys, zs)
    ensures SameLists(xs, zs)
  {
  }

  lemma FailSameLists(p: Plan, s: State, i: nat, d: Done)
    requires d.rid.id in s.master && i < |s.execs|
    ensures SameLists(s.execs, FailTask(p, s, i, d).execs)
  {
    StopAllSameLists(s.execs);
    assert FailTask(p, s, i, d).execs == NoteFailure(p, s, i, d).execs;
  }

  lemma SucceedSameLists(p: Plan, s: State, d: Done)
    requires d.rid.id in p.tasks && d.rid.id in s.master
    ensures SameLists(s.execs, SucceedTask(p, s, d).execs)
  {
    var s1 := Told(p, s, d);
    var s2 := EnqueueAll(p, s1, Consumers(p, Recorded(s, d), d.rid.id));
    SucceedIs(p, s, d);
    assert SameLists(s.execs, s1.execs) && s2.execs == s1.execs;
    StopAllSameLists(s2.execs);
    SameListsTransitive(s.execs, s2.execs, StopAll(s2.execs));
  }

  lemma ProcessSameLists(p: Plan, s: State, i: nat, d: Done)
    requires i < |s.execs|
    ensures SameLists(s.execs, ProcessOne(p, s, i, d).execs)
  {
    if d.rid.id in p.tasks && d.rid.id in s.master {
      var s1 := s.(finished := s.finished + {d.rid});
      FailSameLists(p, s1, i, d);
      SucceedSameLists(p, if d.status == Succeed then s1 else s1.Fail(UnexpectedStatus), d);
    }
  }

  lemma {:induction false} ProcessAllSameLists(p: Plan, s: State, pend: seq<Popped>)
    ensures SameLists(s.execs, ProcessAll(p, s, pend).execs)
    decreases |pend|
  {
    if pend != [] && pend[0].exec < |s.execs| {
      ProcessSameLists(p, s, pend[0].exec, pend[0].done);
      ProcessAllSameLists(p, ProcessOne(p, s, pend[0].exec, pend[0].done), pend[1..]);
    }
  }

  /** Finished tasks can stop executors, yet none becomes or ceases to be good or alive before the next state update. */
  lemma SettleSameLists(p: Plan, s: State, replies: seq<seq<Reply>>)
    ensures SameLists(s.execs, Settle(p, s, replies).execs)
  {
    if !Idle(s) {
      PopSameLists(s.execs, replies);
      ProcessAllSameLists(p, s.(execs := PopExecs(s.execs, replies)), PopTasks(|s.execs|, replies, 0));
    }
  }
}
