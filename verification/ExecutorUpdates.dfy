/** What one probe round and the state update that follows do to each executor, and which tasks are retried for it. */
module ExecutorUpdates {
  import opened WorkItems
  import opened Executors
  import opened Plans
  import opened Sched
  import opened SchedInvariants
  import opened SchedLoop

  // ---------------------------------------------------------------- the state machine

  /** An executor that has just been discovered. */
  function Discovered(epoch: nat): Executor {
    Executor(false, [], ResourceLow, ProbeAck(epoch, false, true, 0, 0, 0), false, false, 0, 0.0, 0, [])
  }

  /** Executor i before the update. */
  function Before(s: State, i: nat): Executor { if i < |s.execs| then s.execs[i] else Discovered(s.probeEpoch) }

  /** The number of the newest probe. */
  function NewestProbe(s: State, inp: Input): nat { if inp.probe then s.probeEpoch + 1 else s.probeEpoch }

  predicate Works(e: Executor) { e.state == Good || e.state == ResourceLow }

  /** More probes are unanswered than allowed. */
  predicate Missed(p: Plan, epoch: nat, e: Executor) { epoch - e.probe.epoch > p.cfg.maxMissed }

  lemma {:induction false} UpdateAt(p: Plan, s: State, i: nat, j: nat)
    requires j < |s.execs|
    ensures var r := UpdateExecutors(p, s, i);
      && |r.execs| == |s.execs| && r.probeEpoch == s.probeEpoch
      && r.execs[j] == (var e := s.execs[j];
                        if j < i || e.local || !e.Alive() then e else e.UpdateState(s.probeEpoch, p.cfg.maxMissed))
    decreases |s.execs| - i
  {
    if i < |s.execs| { UpdateAt(p, UpdateExecutor(p, s, i), i + 1, j); }
  }

  lemma {:induction false} UpdateLength(p: Plan, s: State, i: nat)
    ensures |UpdateExecutors(p, s, i).execs| == |s.execs|
    decreases |s.execs| - i
  {
    if i < |s.execs| { UpdateLength(p, UpdateExecutor(p, s, i), i + 1); }
  }

  /** A probe round only adds executors, and sends probes to those that work. */
  lemma ProbedAt(p: Plan, s: State, inp: Input, i: nat)
    requires i < |s.execs| + inp.joined
    ensures var r, a := ProbeRound(p, s, inp.joined, inp.speculate, inp.slow), Before(s, i);
      && |r.execs| == |s.execs| + inp.joined && r.probeEpoch == s.probeEpoch + 1
      && r.execs[i] == if !a.local && Works(a) then a.(wq := a.wq + [ProbeRequest(s.probeEpoch + 1)]) else a
  {
  }

  /** The state of a remote executor after an update, from its state, its stop flags, its last acknowledged probe and
      the number of the newest one. */
  ghost predicate Follows(p: Plan, epoch: nat, a: Executor, state: ExecutorState) {
    var missed := Missed(p, epoch, a);
    && (state == Fail <==> a.state == Fail || ((Works(a) || a.state == Stopping) && missed))
    && (state == Stopped <==> a.state == Stopped || (a.state == Stopping && a.stopAcked && !missed))
    && (state == Stopping <==> !missed && if Works(a) then a.stopSent else a.state == Stopping && !a.stopAcked)
    && (state == ResourceLow <==>
          && Works(a) && !missed && !a.stopSent
          && (a.probe.resourceLow || (!a.probe.succeeded && a.state == ResourceLow)))
    && (state == Good <==>
          && Works(a) && !missed && !a.stopSent && !a.probe.resourceLow
          && (a.probe.succeeded || a.state == Good))
  }

  /** The update of the executor states, with the probe round before it if one is due: every remote executor moves as
      the state machine says, and nothing else about an executor changes except that one that works is sent the new
      probe. */
  lemma StatesAfterUpdate(p: Plan, s: State, inp: Input, i: nat)
    requires i < |Updated(p, s, inp).execs|
    ensures |Updated(p, s, inp).execs| == |s.execs| + if inp.probe then inp.joined else 0
    ensures var a, b := Before(s, i), Updated(p, s, inp).execs[i];
      && b == a.(state := b.state, wq := b.wq)
      && b.wq == a.wq + (if inp.probe && !a.local && Works(a) then [ProbeRequest(NewestProbe(s, inp))] else [])
      && if a.local then b.state == a.state else Follows(p, NewestProbe(s, inp), a, b.state)
  {
    var s1 := if inp.probe then ProbeRound(p, s, inp.joined, inp.speculate, inp.slow) else s;
    UpdateLength(p, s1, 0);
    if inp.probe { ProbedAt(p, s, inp, i); }
    UpdateAt(p, s1, 0, i);
  }

  // ---------------------------------------------------------------- retries for executors that fail

  predicate Fails(p: Plan, epoch: nat, e: Executor) {
    !e.local && (Works(e) || e.state == Stopping) && Missed(p, epoch, e)
  }

  /** How often task k is among these works. */
  function Attempts(works: seq<Running>, k: nat): nat
    decreases |works|
  {
    if works == [] then 0 else (if works[0].Key() == TaskKey(k) then 1 else 0) + Attempts(works[1..], k)
  }

  /** The attempts at task k on executors, from the i-th on, that miss too many probes. */
  function Stranded(p: Plan, s: State, i: nat, k: nat): nat
    decreases |s.execs| - i
  {
    if i >= |s.execs| then 0 else
      var e := s.execs[i];
      (if Fails(p, s.probeEpoch, e) then Attempts(e.running, k) else 0) + Stranded(p, s, i + 1, k)
  }

  ghost predicate Recounted(s: State, r: State, k: nat, n: nat)
    requires k in s.master
  {
    && r.succeeded == s.succeeded && r.execs == s.execs && r.probeEpoch == s.probeEpoch
    && k in r.master && r.master[k] == s.master[k].(retry := s.master[k].retry + n)
  }

  lemma {:induction false} RescheduleCounts(p: Plan, s: State, works: seq<Running>, k: nat)
    requires k in s.master
    ensures Recounted(s, RescheduleAll(p, s, works), k, if k in s.succeeded then 0 else Attempts(works, k))
    decreases |works|
  {
    if works != [] { RescheduleCounts(p, RescheduleOne(p, s, works[0]), works[1..], k); }
  }

  lemma {:induction false} StrandedSame(p: Plan, s: State, r: State, i: nat, k: nat)
    requires |r.execs| == |s.execs| && r.probeEpoch == s.probeEpoch
    requires forall j :: i <= j < |s.execs| ==> r.execs[j] == s.execs[j]
    ensures Stranded(p, r, i, k) == Stranded(p, s, i, k)
    decreases |s.execs| - i
  {
    if i < |s.execs| { StrandedSame(p, s, r, i + 1, k); }
  }

  /** The update retries an unsucceeded task once for each attempt at it on an executor that is now declared failed, and
      no other task. */
  lemma {:induction false} StrandedAreRetried(p: Plan, s: State, i: nat, k: nat)
    requires k in s.master
    ensures var r := UpdateExecutors(p, s, i);
      && k in r.master && r.succeeded == s.succeeded
      && r.master[k].retry == s.master[k].retry + if k in s.succeeded then 0 else Stranded(p, s, i, k)
    decreases |s.execs| - i
  {
    if i < |s.execs| {
      var r := UpdateExecutor(p, s, i);
      UpdateOneRetries(p, s, i, k);
      StrandedSame(p, s, r, i + 1, k);
      StrandedAreRetried(p, r, i + 1, k);
    }
  }

  lemma UpdateOneRetries(p: Plan, s: State, i: nat, k: nat)
    requires k in s.master && i < |s.execs|
    ensures var e, r := s.execs[i], UpdateExecutor(p, s, i);
      && k in r.master && r.succeeded == s.succeeded && r.probeEpoch == s.probeEpoch && |r.execs| == |s.execs|
      && (forall j :: 0 <= j < |s.execs| && j != i ==> r.execs[j] == s.execs[j])
      && r.master[k].retry == s.master[k].retry
          + if k !in s.succeeded && Fails(p, s.probeEpoch, e) then Attempts(e.running, k) else 0
  {
    var e := s.execs[i];
    if !e.local && e.Alive() {
      var s1 := s.(execs := s.execs[i := e.UpdateState(s.probeEpoch, p.cfg.maxMissed)]);
      RescheduleCounts(p, s1, e.running, k);
    }
  }

  // ---------------------------------------------------------------- speculative retries

  /** This work is the newest attempt at unsucceeded task k, looks slow, and may be retried. */
  predicate Due(p: Plan, s: State, w: Running, k: nat, slow: set<RuntimeId>)
    requires k in s.master
  {
    && w.TaskItem? && w.task.rid.id == k && k !in s.succeeded && w.task.rid in slow
    && w.task.rid.retry == s.master[k].retry && w.task.rid.retry < p.cfg.maxRetry
  }

  predicate AnyDue(p: Plan, s: State, works: seq<Running>, k: nat, slow: set<RuntimeId>)
    requires k in s.master
  {
    exists j :: 0 <= j < |works| && Due(p, s, works[j], k, slow)
  }

  /** Some remote executor that works, from the i-th on, runs such a work. */
  predicate SlowSomewhere(p: Plan, s: State, i: nat, k: nat, slow: set<RuntimeId>)
    requires k in s.master
  {
    exists j :: i <= j < |s.execs| && !s.execs[j].local && Works(s.execs[j])
                && AnyDue(p, s, s.execs[j].running, k, slow)
  }

  /** No attempt at task k among these works is numbered above n. */
  predicate WithinRetries(works: seq<Running>, k: nat, n: nat) {
    forall j :: 0 <= j < |works| && works[j].TaskItem? && works[j].task.rid.id == k ==> works[j].task.rid.retry <= n
  }

  lemma {:induction false} SpeculateAllCounts(p: Plan, s: State, works: seq<Running>, k: nat, slow: set<RuntimeId>)
    requires k in s.master && (k !in s.succeeded ==> WithinRetries(works, k, s.master[k].retry))
    ensures Recounted(s, SpeculateAll(p, s, works, slow), k, if AnyDue(p, s, works, k, slow) then 1 else 0)
    decreases |works|
  {
    if works != [] {
      var w, rest, r := works[0], works[1..], SpeculateOne(p, s, works[0], slow);
      assert forall j :: 0 <= j < |rest| ==> rest[j] == works[j + 1];
      SpeculateAllCounts(p, r, rest, k, slow);
      if Due(p, s, w, k, slow) {
        assert Recounted(s, r, k, 1) && !AnyDue(p, r, rest, k, slow);
      } else {
        assert Recounted(s, r, k, 0);
        assert AnyDue(p, r, rest, k, slow) <==> AnyDue(p, s, works, k, slow);
      }
    }
  }

  lemma SomewhereNext(p: Plan, s: State, i: nat, k: nat, slow: set<RuntimeId>)
    requires k in s.master && i < |s.execs|
    ensures SlowSomewhere(p, s, i, k, slow) <==>
      (!s.execs[i].local && Works(s.execs[i]) && AnyDue(p, s, s.execs[i].running, k, slow))
      || SlowSomewhere(p, s, i + 1, k, slow)
  {
  }

  lemma {:induction false} SpeculateCounts(p: Plan, s: State, i: nat, k: nat, slow: set<RuntimeId>)
    requires k in s.master
    requires k !in s.succeeded ==>
      forall j :: i <= j < |s.execs| ==> WithinRetries(s.execs[j].running, k, s.master[k].retry)
    ensures Recounted(s, Speculate(p, s, i, slow), k, if SlowSomewhere(p, s, i, k, slow) then 1 else 0)
    decreases |s.execs| - i
  {
    if i < |s.execs| {
      var e := s.execs[i];
      var r := if !e.local && e.Working() then SpeculateAll(p, s, e.running, slow) else s;
      SpeculateAllCounts(p, s, e.running, k, slow);
      SomewhereNext(p, s, i, k, slow);
      SpeculateCounts(p, r, i + 1, k, slow);
      SomewhereSame(p, s, r, i + 1, k, slow);
    }
  }

  /** Once it has been retried, no work is the newest attempt any more. */
  lemma SomewhereSame(p: Plan, s: State, r: State, i: nat, k: nat, slow: set<RuntimeId>)
    requires k in s.master && k in r.master && r.execs == s.execs && r.succeeded == s.succeeded
    requires k !in s.succeeded ==>
      forall j :: i <= j < |s.execs| ==> WithinRetries(s.execs[j].running, k, s.master[k].retry)
    requires r.master[k].retry == s.master[k].retry || r.master[k].retry == s.master[k].retry + 1
    ensures SlowSomewhere(p, r, i, k, slow)
        <==> r.master[k].retry == s.master[k].retry && SlowSomewhere(p, s, i, k, slow)
  {
    if r.master[k].retry == s.master[k].retry {
      forall j | i <= j < |s.execs|
        ensures AnyDue(p, r, r.execs[j].running, k, slow) <==> AnyDue(p, s, s.execs[j].running, k, slow)
      {
        assert forall w: Running :: Due(p, r, w, k, slow) <==> Due(p, s, w, k, slow);
      }
    }
  }

  /** A probe round retries a task, once, exactly when some working remote executor runs its newest attempt, that one
      looks slow, and it is not the last one allowed. */
  lemma SlowIsRetried(p: Plan, s: State, inp: Input, k: nat)
    requires Base(p, s) && k in s.master
    ensures var r := ProbeRound(p, s, inp.joined, inp.speculate, inp.slow);
      && k in r.master && r.succeeded == s.succeeded
      && r.master[k].retry == s.master[k].retry
          + if inp.speculate && SlowSomewhere(p, s, 0, k, inp.slow) then 1 else 0
  {
    var s1 := ProbeRound(p, s, inp.joined, false, inp.slow);
    forall j | 0 <= j < |s1.execs| ensures s1.execs[j].running == Before(s, j).running
        && s1.execs[j].state == Before(s, j).state && s1.execs[j].local == Before(s, j).local {
      ProbedAt(p, s, inp.(speculate := false), j);
    }
    if k !in s.succeeded {
      forall j | 0 <= j < |s1.execs| ensures WithinRetries(s1.execs[j].running, k, s1.master[k].retry) {
        if j < |s.execs| { RunningWithin(p, s, j, k); }
      }
    }
    SpeculateCounts(p, s1, 0, k, inp.slow);
    ProbedSlow(p, s, s1, k, inp.slow);
  }

  lemma RunningWithin(p: Plan, s: State, j: nat, k: nat)
    requires Base(p, s) && k in s.master && k !in s.succeeded && j < |s.execs|
    ensures WithinRetries(s.execs[j].running, k, s.master[k].retry)
  {
    assert ExecOK(s, s.execs[j]);
  }

  lemma ProbedSlow(p: Plan, s: State, r: State, k: nat, slow: set<RuntimeId>)
    requires k in s.master && r.master == s.master && r.succeeded == s.succeeded && |s.execs| <= |r.execs|
    requires forall j :: 0 <= j < |r.execs| ==>
      && r.execs[j].running == Before(s, j).running && r.execs[j].state == Before(s, j).state
      && r.execs[j].local == Before(s, j).local
    ensures SlowSomewhere(p, r, 0, k, slow) <==> SlowSomewhere(p, s, 0, k, slow)
  {
    assert forall w: Running :: Due(p, r, w, k, slow) <==> Due(p, s, w, k, slow);
    forall j | 0 <= j < |r.execs|
      ensures AnyDue(p, r, r.execs[j].running, k, slow)
          <==> j < |s.execs| && AnyDue(p, s, s.execs[j].running, k, slow)
    {
    }
  }

  // ---------------------------------------------------------------- replies

  /** The reply ends the work with this key. */
  predicate Ends(r: Reply, key: WorkKey) {
    match r
    case Probed(_) => false
    case WorkStopped(target) => key == TaskKey(target)
    case ExecutorStopped => key == StopKey
    case TaskDone(d) => d.status != Incomplete && key == TaskKey(d.rid.id)
  }

  predicate Ended(replies: seq<Reply>, key: WorkKey) { exists m :: 0 <= m < |replies| && Ends(replies[m], key) }

  /** The works that no reply ends, in order. */
  function Unended(works: seq<Running>, replies: seq<Reply>): seq<Running> {
    if works == [] then [] else
      (if Ended(replies, works[0].Key()) then [] else [works[0]]) + Unended(works[1..], replies)
  }

  /** The acknowledgement is newer than the one before and has the largest epoch of all; of those it came first. */
  ghost predicate Newest(before: ProbeAck, ack: ProbeAck, replies: seq<Reply>) {
    && (forall m :: 0 <= m < |replies| && replies[m].Probed? ==> replies[m].ack.epoch <= ack.epoch)
    && (ack == before || exists m ::
          0 <= m < |replies| && replies[m] == Probed(ack) && before.epoch < ack.epoch
          && forall n :: 0 <= n < m && replies[n].Probed? ==> replies[n].ack.epoch < ack.epoch)
    && before.epoch <= ack.epoch
  }

  lemma {:induction false} UnendedNone(works: seq<Running>)
    ensures Unended(works, []) == works
  {
    if works != [] { UnendedNone(works[1..]); }
  }

  lemma EndsEither(r: Reply, rest: seq<Reply>, key: WorkKey)
    ensures Ended([r] + rest, key) <==> Ends(r, key) || Ended(rest, key)
    ensures Ended([r], key) <==> Ends(r, key)
  {
    var all := [r] + rest;
    assert all[0] == r && [r][0] == r && forall m :: 0 <= m < |rest| ==> all[m + 1] == rest[m];
    assert forall m :: 0 < m < |all| ==> all[m] == rest[m - 1];
  }

  lemma {:induction false} UnendedTwice(works: seq<Running>, r: Reply, rest: seq<Reply>)
    ensures Unended(Unended(works, [r]), rest) == Unended(works, [r] + rest)
  {
    if works != [] {
      UnendedTwice(works[1..], r, rest);
      var key := works[0].Key();
      EndsEither(r, rest, key);
      var one, tail := Unended(works, [r]), Unended(works[1..], [r]);
      if Ends(r, key) { assert one == tail; } else { assert one == [works[0]] + tail && one[1..] == tail; }
    }
  }

  lemma {:induction false} UnendedPops(works: seq<Running>, r: Reply, key: WorkKey)
    requires forall i, j :: 0 <= i < j < |works| ==> works[i].Key() != works[j].Key()
    requires forall k :: Ends(r, k) <==> k == key
    ensures Unended(works, [r]) == if HasKey(works, key)
      then works[..IndexOf(works, key)] + works[IndexOf(works, key) + 1..] else works
  {
    if works != [] {
      var rest := works[1..];
      EndsEither(r, [], works[0].Key());
      UnendedPops(rest, r, key);
      if works[0].Key() == key {
        assert !HasKey(rest, key);
        assert works[..0] + works[1..] == rest;
      } else if HasKey(rest, key) {
        PopLater(works, key);
      } else {
        assert !HasKey(works, key);
      }
    }
  }

  lemma PopLater(works: seq<Running>, key: WorkKey)
    requires works != [] && works[0].Key() != key && HasKey(works[1..], key)
    ensures HasKey(works, key) && var i, j := IndexOf(works, key), IndexOf(works[1..], key);
      works[..i] + works[i + 1..] == [works[0]] + (works[1..][..j] + works[1..][j + 1..])
  {
    var i :| 0 <= i < |works[1..]| && works[1..][i].Key() == key;
    assert works[i + 1].Key() == key;
  }

  /** What the replies of an executor do, whatever their number and order: they remove exactly the works they end, set
      the newest acknowledgement, and note that the executor stopped unless it was known. */
  lemma {:induction false} RepliesTakeEffect(e: Executor, replies: seq<Reply>)
    requires Accounted(e)
    ensures var r := ReceiveAll(e, replies);
      && Accounted(r) && r.running == Unended(e.running, replies) && Newest(e.probe, r.probe, replies)
      && (r.stopAcked <==> e.stopAcked || (e.state != Stopped && ExecutorStopped in replies))
      && r == e.(running := r.running, cpus := r.cpus, gpus := r.gpus, memory := r.memory, probe := r.probe,
        stopAcked := r.stopAcked)
    decreases |replies|
  {
    UnendedNone(e.running);
    if replies != [] {
      var r, rest := replies[0], replies[1..];
      assert replies == [r] + rest;
      ReplyTakesEffect(e, r);
      RepliesTakeEffect(e.Receive(r), rest);
      UnendedTwice(e.running, r, rest);
      NewestOfAll(e.probe, e.Receive(r).probe, ReceiveAll(e, replies).probe, r, rest);
    }
  }

  lemma NewestOfAll(a: ProbeAck, b: ProbeAck, c: ProbeAck, r: Reply, rest: seq<Reply>)
    requires b == (if r.Probed? && a.epoch < r.ack.epoch then r.ack else a) && Newest(b, c, rest)
    ensures Newest(a, c, [r] + rest)
  {
    var all := [r] + rest;
    assert forall n :: 0 < n < |all| ==> all[n] == rest[n - 1];
    if c != a {
      if c == b {
        assert all[0] == Probed(c);
      } else {
        var m :| 0 <= m < |rest| && rest[m] == Probed(c) && b.epoch < c.epoch
          && forall n :: 0 <= n < m && rest[n].Probed? ==> rest[n].ack.epoch < c.epoch;
        assert all[m + 1] == Probed(c);
      }
    }
  }

  lemma ReplyTakesEffect(e: Executor, r: Reply)
    requires Accounted(e)
    ensures var e' := e.Receive(r);
      && Accounted(e') && e'.running == Unended(e.running, [r])
      && e'.probe == (if r.Probed? && e.probe.epoch < r.ack.epoch then r.ack else e.probe)
      && (e'.stopAcked <==> e.stopAcked || (e.state != Stopped && r == ExecutorStopped))
      && e' == e.(running := e'.running, cpus := e'.cpus, gpus := e'.gpus, memory := e'.memory, probe := e'.probe,
        stopAcked := e'.stopAcked)
  {
    match r {
      case Probed(_) => NothingEnds(e.running, r);
      case WorkStopped(t) => EndsOne(e, r, TaskKey(t));
      case ExecutorStopped => EndsOne(e.(stopAcked := e.stopAcked || e.state != Stopped), r, StopKey);
      case TaskDone(d) =>
        if d.status == Incomplete { NothingEnds(e.running, r); } else { EndsOne(e, r, TaskKey(d.rid.id)); }
    }
  }

  lemma EndsOne(e: Executor, r: Reply, key: WorkKey)
    requires Accounted(e) && forall k :: Ends(r, k) <==> k == key
    ensures var e' := e.PopKey(key);
      && Accounted(e') && e'.running == Unended(e.running, [r])
      && e' == e.(running := e'.running, cpus := e'.cpus, gpus := e'.gpus, memory := e'.memory)
  {
    UnendedPops(e.running, r, key);
    PopAccounted(e, key);
  }

  lemma {:induction false} NothingEnds(works: seq<Running>, r: Reply)
    requires forall key :: !Ends(r, key)
    ensures Unended(works, [r]) == works
  {
    if works != [] { NothingEnds(works[1..], r); }
  }
}
