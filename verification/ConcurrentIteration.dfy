/** `ConcurrentIter`: a producer thread, a bounded queue, a consumer generator and a stop flag. */
module ConcurrentIteration {

  datatype Msg<T> = Item(value: T) | Last | Failure

  /** Where the producer thread is. `Clearing` follows a stop, `FailClearing` an exception of the source. */
  datatype Producer<T> = Next | Put(value: T) | CheckStop | Clearing | PutLast | FailClearing | PutFailure | Ended

  datatype Outcome = Normal | Raised | Abandoned

  /** Where the consumer is: in the loop, or in `join`: set the flag, drain the queue, wait for the thread. */
  datatype Consumer =
    | Getting
    | Stopping(outcome: Outcome)
    | Draining(outcome: Outcome)
    | Joining(outcome: Outcome)
    | Joined(outcome: Outcome)

  datatype State<T> = State(pos: nat, queue: seq<Msg<T>>, stop: bool, prod: Producer<T>, cons: Consumer, seen: seq<T>)

  /** The source yields the items and then ends, or raises. The queue holds `cap` messages. */
  datatype Setting<T> = Setting(items: seq<T>, raises: bool, cap: nat)

  function Init<T>(): State<T> { State(0, [], false, Next, Getting, []) }

  // ---------------------------------------------------------------- steps

  ghost predicate ProducerStep<T>(c: Setting<T>, s: State<T>, t: State<T>) {
    match s.prod
    case Next =>
      t == if s.pos < |c.items| then s.(pos := s.pos + 1, prod := Put(c.items[s.pos]))
           else s.(prod := if c.raises then FailClearing else PutLast)
    case Put(v) => |s.queue| < c.cap && t == s.(queue := s.queue + [Item(v)], prod := CheckStop)
    case CheckStop => t == s.(prod := if s.stop then Clearing else Next)
    case Clearing => t == if s.queue == [] then s.(prod := PutLast) else s.(queue := s.queue[1..])
    case PutLast => |s.queue| < c.cap && t == s.(queue := s.queue + [Last], prod := Ended)
    case FailClearing => t == if s.queue == [] then s.(prod := PutFailure) else s.(queue := s.queue[1..])
    case PutFailure => |s.queue| < c.cap && t == s.(queue := s.queue + [Failure], prod := Ended)
    case Ended => false
  }

  ghost predicate ConsumerStep<T>(s: State<T>, t: State<T>) {
    match s.cons
    case Getting =>
      || t == s.(cons := Stopping(Abandoned))
      || (s.queue != [] &&
          t == match s.queue[0]
               case Item(v) => s.(queue := s.queue[1..], seen := s.seen + [v])
               case Last => s.(queue := s.queue[1..], cons := Stopping(Normal))
               case Failure => s.(queue := s.queue[1..], cons := Stopping(Raised)))
    case Stopping(o) => t == s.(stop := true, cons := Draining(o))
    case Draining(o) => t == if s.queue == [] then s.(cons := Joining(o)) else s.(queue := s.queue[1..])
    case Joining(o) => s.prod == Ended && t == s.(cons := Joined(o))
    case Joined(_) => false
  }

  ghost predicate Step<T>(c: Setting<T>, s: State<T>, t: State<T>) { ProducerStep(c, s, t) || ConsumerStep(s, t) }

  /** A run: consecutive states are steps. */
  ghost predicate Run<T>(c: Setting<T>, run: seq<State<T>>) {
    && run != [] && run[0] == Init()
    && forall i :: 0 <= i < |run| - 1 ==> Step(c, run[i], run[i + 1])
  }

  // ---------------------------------------------------------------- what every step keeps

  function Values<T>(queue: seq<Msg<T>>): seq<T> {
    if queue == [] then [] else (if queue[0].Item? then [queue[0].value] else []) + Values(queue[1..])
  }

  lemma {:induction false} ValuesAppend<T>(queue: seq<Msg<T>>, m: Msg<T>)
    ensures Values(queue + [m]) == Values(queue) + if m.Item? then [m.value] else []
    ensures |Values(queue)| <= |queue|
  {
    if queue != [] {
      ValuesAppend(queue[1..], m);
      assert (queue + [m])[1..] == queue[1..] + [m];
    } else {
      assert (queue + [m])[1..] == [];
    }
  }

  function InHand<T>(prod: Producer<T>): seq<T> { if prod.Put? then [prod.value] else [] }

  /** The producer has met the exception of the source. */
  predicate Dropping<T>(c: Setting<T>, s: State<T>) {
    s.prod.FailClearing? || s.prod.PutFailure? || (s.prod.Ended? && c.raises)
  }

  /** An exception can make the consumer skip items only when two items can be waiting. */
  predicate Safe<T>(c: Setting<T>) { !c.raises || c.cap == 1 || |c.items| <= 1 }

  /** End markers are the newest message, put by a producer that has ended. */
  ghost predicate Marked<T>(c: Setting<T>, s: State<T>) {
    forall i :: 0 <= i < |s.queue| && !s.queue[i].Item? ==>
      i == |s.queue| - 1 && s.prod.Ended? && (s.queue[i].Failure? <==> c.raises)
  }

  /** While the consumer iterates: seen, queued and held items are those taken from the source; once the producer
      drops items after an exception, at most one is left in a safe setting. */
  ghost predicate Iterating<T>(c: Setting<T>, s: State<T>) {
    && !s.stop && !s.prod.Clearing? && Marked(c, s) && s.pos <= |c.items|
    && (s.prod.PutLast? ==> !c.raises)
    && (s.prod.PutLast? || s.prod.Ended? || Dropping(c, s) ==> s.pos == |c.items|)
    && (if Dropping(c, s) then c.raises && (Safe(c) ==> |Values(s.queue)| <= 1 && s.seen + Values(s.queue) <= c.items)
        else s.seen + Values(s.queue) + InHand(s.prod) == c.items[..s.pos])
  }

  predicate EndedNormally(cons: Consumer) { !cons.Getting? && cons.outcome == Normal }

  /** While the consumer waits for the thread the producer always has room. */
  ghost predicate Waiting<T>(s: State<T>) {
    s.cons.Joining? && (s.prod.Next? || s.prod.Put? || s.prod.PutLast? || s.prod.PutFailure?) ==> s.queue == []
  }

  ghost predicate Inv<T>(c: Setting<T>, s: State<T>) {
    && s.pos <= |c.items| && |s.queue| <= c.cap
    && (Safe(c) ==> s.seen <= c.items)
    && (EndedNormally(s.cons) ==> s.seen == c.items && !c.raises)
    && (!s.cons.Getting? && s.cons.outcome == Raised ==> c.raises)
    && (s.cons.Getting? ==> Iterating(c, s))
    && (s.cons.Getting? || s.cons.Stopping? <==> !s.stop) && Waiting(s)
  }

  lemma ProducerKeeps<T>(c: Setting<T>, s: State<T>, t: State<T>)
    requires c.cap > 0 && Inv(c, s) && ProducerStep(c, s, t)
    ensures Inv(c, t)
  {
    if s.cons.Getting? { ProducerIterates(c, s, t); }
  }

  lemma ProducerIterates<T>(c: Setting<T>, s: State<T>, t: State<T>)
    requires c.cap > 0 && Inv(c, s) && ProducerStep(c, s, t) && s.cons.Getting?
    ensures Iterating(c, t)
  {
    match s.prod {
      case Next => ProducerTakes(c, s, t);
      case Put(v) => ValuesAppend(s.queue, Item(v));
      case PutLast => ProducerEnds(c, s, t);
      case PutFailure => ProducerEnds(c, s, t);
      case FailClearing => ProducerDrops(c, s, t);
      case _ =>
    }
  }

  lemma ProducerTakes<T>(c: Setting<T>, s: State<T>, t: State<T>)
    requires c.cap > 0 && Inv(c, s) && ProducerStep(c, s, t) && s.cons.Getting? && s.prod.Next?
    ensures Iterating(c, t)
  {
    if s.pos < |c.items| {
      assert c.items[..s.pos + 1] == c.items[..s.pos] + [c.items[s.pos]];
    } else {
      assert c.items[..s.pos] == c.items;
      ValuesAppend(s.queue, Last);
      if c.raises && |c.items| <= 1 { assert |s.seen + Values(s.queue)| <= 1; }
    }
  }

  lemma ProducerEnds<T>(c: Setting<T>, s: State<T>, t: State<T>)
    requires c.cap > 0 && Inv(c, s) && ProducerStep(c, s, t) && s.cons.Getting?
        && (s.prod.PutLast? || s.prod.PutFailure?)
    ensures Iterating(c, t)
  {
    ValuesAppend(s.queue, if s.prod.PutLast? then Last else Failure);
    assert forall i :: 0 <= i < |s.queue| ==> t.queue[i] == s.queue[i];
  }

  lemma ProducerDrops<T>(c: Setting<T>, s: State<T>, t: State<T>)
    requires c.cap > 0 && Inv(c, s) && ProducerStep(c, s, t) && s.cons.Getting? && s.prod.FailClearing?
    ensures Iterating(c, t)
  {
    if s.queue != [] {
      ValuesTail(s.queue);
      assert forall i :: 0 <= i < |t.queue| ==> t.queue[i] == s.queue[i + 1];
      if Safe(c) { PrefixOf(s.seen, Values(s.queue), c.items); }
    }
  }

  lemma PrefixOf<T>(a: seq<T>, b: seq<T>, whole: seq<T>)
    requires a + b <= whole
    ensures a <= whole
  {
    assert (a + b)[..|a|] == a;
  }

  /** Taking the oldest message. */
  lemma ValuesTail<T>(queue: seq<Msg<T>>)
    requires queue != []
    ensures queue[0].Item? ==> Values(queue) == [queue[0].value] + Values(queue[1..])
    ensures !queue[0].Item? ==> Values(queue) == Values(queue[1..])
  {
  }

  lemma ConsumerKeeps<T>(c: Setting<T>, s: State<T>, t: State<T>)
    requires c.cap > 0 && Inv(c, s) && ConsumerStep(s, t)
    ensures Inv(c, t)
  {
    if s.cons.Getting? && t.cons != Stopping(Abandoned) {
      ValuesTail(s.queue);
      if s.queue[0].Item? {
        ConsumerIterates(c, s, t);
      } else {
        assert s.queue[1..] == [];
      }
    }
  }

  lemma ConsumerIterates<T>(c: Setting<T>, s: State<T>, t: State<T>)
    requires Inv(c, s) && s.cons.Getting? && s.queue != [] && s.queue[0].Item?
    requires t == s.(queue := s.queue[1..], seen := s.seen + [s.queue[0].value])
    ensures Iterating(c, t) && (Safe(c) ==> t.seen <= c.items)
  {
    ValuesTail(s.queue);
    assert t.seen + Values(t.queue) == s.seen + Values(s.queue);
    if Safe(c) {
      if !Dropping(c, s) { PrefixOf(s.seen + Values(s.queue), InHand(s.prod), c.items); }
      PrefixOf(t.seen, Values(t.queue), c.items);
    }
  }

  lemma {:induction false} RunKeeps<T>(c: Setting<T>, run: seq<State<T>>)
    requires c.cap > 0 && Run(c, run)
    ensures Inv(c, run[|run| - 1])
    decreases |run|
  {
    var n := |run| - 1;
    if n > 0 {
      var before := run[..n];
      assert Run(c, before) by {
        forall i | 0 <= i < |before| - 1 ensures Step(c, before[i], before[i + 1]) {
          assert Step(c, run[i], run[i + 1]);
        }
      }
      RunKeeps(c, before);
      assert Step(c, run[n - 1], run[n]);
      if ProducerStep(c, run[n - 1], run[n]) {
        ProducerKeeps(c, run[n - 1], run[n]);
      } else {
        ConsumerKeeps(c, run[n - 1], run[n]);
      }
    }
  }

  /** A normal end means that the consumer saw every item, and that the source did not raise. */
  lemma NormalEndMeansAll<T>(c: Setting<T>, run: seq<State<T>>)
    requires c.cap > 0 && Run(c, run) && EndedNormally(run[|run| - 1].cons)
    ensures run[|run| - 1].seen == c.items && !c.raises
  {
    RunKeeps(c, run);
  }

  /** A consumer that did not give up ends as its source does: with the exception exactly when the source raises. */
  lemma EndsAsSource<T>(c: Setting<T>, run: seq<State<T>>)
    requires c.cap > 0 && Run(c, run)
    ensures var cons := run[|run| - 1].cons;
      !cons.Getting? && cons.outcome != Abandoned ==> (cons.outcome == Raised <==> c.raises)
  {
    RunKeeps(c, run);
  }

  // ---------------------------------------------------------------- join

  function Weight<T>(prod: Producer<T>): nat {
    match prod
    case Next => 20
    case Put(_) => 16
    case CheckStop => 10
    case Clearing => 8
    case FailClearing => 8
    case PutLast => 6
    case PutFailure => 6
    case Ended => 0
  }

  /** Steps left once the stop flag is set, at most. */
  function StepsLeft<T>(s: State<T>): nat {
    Weight(s.prod) + 2 * |s.queue| + if s.cons.Joined? then 0 else if s.cons.Joining? then 1 else 2
  }

  /** Once the stop flag is set both threads come to their end: the flag stays set, every step of either thread
      lowers a bound, and until the consumer has joined some step is possible. */
  lemma StopMeansTermination<T>(c: Setting<T>, run: seq<State<T>>)
    requires c.cap > 0 && Run(c, run) && run[|run| - 1].stop
    ensures var s := run[|run| - 1];
      && (forall t :: Step(c, s, t) ==> t.stop && StepsLeft(t) < StepsLeft(s))
      && (!s.cons.Joined? ==> exists t :: Step(c, s, t))
  {
    var s := run[|run| - 1];
    RunKeeps(c, run);
    if !s.cons.Joined? { SomeStep(c, s); }
  }

  lemma SomeStep<T>(c: Setting<T>, s: State<T>)
    requires c.cap > 0 && Inv(c, s) && s.stop && !s.cons.Joined?
    ensures exists t :: Step(c, s, t)
  {
    if s.cons.Joining? {
      if s.prod.Ended? {
        assert Step(c, s, s.(cons := Joined(s.cons.outcome)));
      } else {
        var t := match s.prod
          case Next => if s.pos < |c.items| then s.(pos := s.pos + 1, prod := Put(c.items[s.pos]))
              else s.(prod := if c.raises then FailClearing else PutLast)
          case Put(v) => s.(queue := s.queue + [Item(v)], prod := CheckStop)
          case CheckStop => s.(prod := Clearing)
          case Clearing => if s.queue == [] then s.(prod := PutLast) else s.(queue := s.queue[1..])
          case PutLast => s.(queue := s.queue + [Last], prod := Ended)
          case FailClearing => if s.queue == [] then s.(prod := PutFailure) else s.(queue := s.queue[1..])
          case _ => s.(queue := s.queue + [Failure], prod := Ended);
        assert ProducerStep(c, s, t);
        assert Step(c, s, t);
      }
    } else {
      var t := match s.cons
        case Stopping(o) => s.(stop := true, cons := Draining(o))
        case Draining(o) => if s.queue == [] then s.(cons := Joining(o)) else s.(queue := s.queue[1..])
        case _ => s.(cons := Stopping(Abandoned));
      assert ConsumerStep(s, t);
      assert Step(c, s, t);
    }
  }

  // ---------------------------------------------------------------- when a prefix is seen

  ghost predicate Reachable<T(!new)>(c: Setting<T>, s: State<T>) { exists run :: Run(c, run) && run[|run| - 1] == s }

  lemma ReachStep<T(!new)>(c: Setting<T>, s: State<T>, t: State<T>)
    requires Reachable(c, s) && Step(c, s, t)
    ensures Reachable(c, t)
  {
    var run :| Run(c, run) && run[|run| - 1] == s;
    var longer := run + [t];
    forall i | 0 <= i < |longer| - 1 ensures Step(c, longer[i], longer[i + 1]) {
      if i < |run| - 1 { assert Step(c, run[i], run[i + 1]); }
    }
    assert Run(c, longer) && longer[|longer| - 1] == t;
  }

  /** The producer takes the next item and queues it. */
  lemma ReachPut<T(!new)>(c: Setting<T>, s: State<T>)
    requires Reachable(c, s) && s.prod == Next && !s.stop && s.pos < |c.items| && |s.queue| < c.cap
    ensures Reachable(c, s.(pos := s.pos + 1, queue := s.queue + [Item(c.items[s.pos])]))
  {
    var s1 := s.(pos := s.pos + 1, prod := Put(c.items[s.pos]));
    var s2 := s1.(queue := s.queue + [Item(c.items[s.pos])], prod := CheckStop);
    assert ProducerStep(c, s, s1);
    ReachStep(c, s, s1);
    assert ProducerStep(c, s1, s2);
    ReachStep(c, s1, s2);
    assert ProducerStep(c, s2, s2.(prod := Next));
    ReachStep(c, s2, s2.(prod := Next));
  }

  lemma ReachGet<T(!new)>(c: Setting<T>, s: State<T>)
    requires Reachable(c, s) && s.cons == Getting && s.queue != [] && s.queue[0].Item?
    ensures Reachable(c, s.(queue := s.queue[1..], seen := s.seen + [s.queue[0].value]))
  {
    assert ConsumerStep(s, s.(queue := s.queue[1..], seen := s.seen + [s.queue[0].value]));
    ReachStep(c, s, s.(queue := s.queue[1..], seen := s.seen + [s.queue[0].value]));
  }

  /** Lock step: i items produced and seen. */
  lemma {:induction false} ReachSeen<T(!new)>(c: Setting<T>, i: nat)
    requires c.cap > 0 && i <= |c.items|
    ensures Reachable(c, State(i, [], false, Next, Getting, c.items[..i]))
  {
    if i == 0 {
      assert Run(c, [Init()]);
    } else {
      var s := State(i - 1, [], false, Next, Getting, c.items[..i - 1]);
      ReachSeen(c, i - 1);
      ReachPut(c, s);
      var s1 := s.(pos := i, queue := [Item(c.items[i - 1])]);
      assert s.queue + [Item(c.items[i - 1])] == s1.queue;
      ReachGet(c, s1);
      assert s1.queue[1..] == [] && c.items[..i - 1] + [c.items[i - 1]] == c.items[..i];
    }
  }

  /** Two items are waiting when the source raises: the producer drops the older one, the consumer gets the newer. */
  lemma ItemSkipped<T(!new)>(c: Setting<T>)
    requires c.raises && c.cap >= 2 && |c.items| >= 2
    ensures exists s :: Reachable(c, s) && s.seen == c.items[..|c.items| - 2] + [c.items[|c.items| - 1]]
  {
    var n := |c.items|;
    var a, b := Item(c.items[n - 2]), Item(c.items[n - 1]);
    var s := State(n - 2, [], false, Next, Getting, c.items[..n - 2]);
    ReachSeen(c, n - 2);
    ReachPut(c, s);
    var s1 := s.(pos := n - 1, queue := [a]);
    assert s.queue + [a] == s1.queue;
    ReachPut(c, s1);
    var s2 := s1.(pos := n, queue := [a, b]);
    assert s1.queue + [b] == s2.queue;
    var s3 := s2.(prod := FailClearing);
    assert ProducerStep(c, s2, s3);
    ReachStep(c, s2, s3);
    var s4 := s3.(queue := [b]);
    assert s3.queue[1..] == [b];
    assert ProducerStep(c, s3, s4);
    ReachStep(c, s3, s4);
    ReachGet(c, s4);
    assert Reachable(c, s4.(queue := s4.queue[1..], seen := s4.seen + [s4.queue[0].value]));
  }

  /** In every interleaving the consumer sees a prefix of the source, exactly when the source does not raise, or the
      queue holds a single message, or there are not two items to skip over. (Items are distinct, so that a gap
      shows.) */
  lemma PrefixIff<T(!new)>(c: Setting<T>)
    requires c.cap > 0 && forall i, j :: 0 <= i < j < |c.items| ==> c.items[i] != c.items[j]
    ensures (forall s :: Reachable(c, s) ==> s.seen <= c.items) <==> Safe(c)
  {
    if Safe(c) {
      forall s | Reachable(c, s) ensures s.seen <= c.items {
        var run :| Run(c, run) && run[|run| - 1] == s;
        RunKeeps(c, run);
      }
    } else {
      ItemSkipped(c);
      var s :| Reachable(c, s) && s.seen == c.items[..|c.items| - 2] + [c.items[|c.items| - 1]];
      assert s.seen[|c.items| - 2] != c.items[|c.items| - 2];
    }
  }

  /** The direction that needs nothing about the items. */
  lemma SafeMeansPrefix<T(!new)>(c: Setting<T>, run: seq<State<T>>)
    requires c.cap > 0 && Run(c, run) && Safe(c)
    ensures run[|run| - 1].seen <= c.items
  {
    RunKeeps(c, run);
  }
}
