/** The queue in a directory: producers and consumers race with listings and renames. */
module FilesystemQueue {

  /** A producer has written its temporary file, or is idle. A consumer works through a listing; after a rename
      it still has to load the file. Any of them may stop for good at any step. */
  datatype Actor<E> =
    | Idle
    | Dumped(file: nat)
    | Listed(rest: seq<nat>, taken: seq<E>, count: nat)
    | Renamed(file: nat, rest: seq<nat>, taken: seq<E>, count: nat)
    | Returned(taken: seq<E>)

  /** File names are unique, since they carry a fresh UUID; `born` remembers what was written under each name,
      `loaded` which names were loaded by a consumer, in order. */
  datatype State<E> = State(temp: map<nat, E>, enqueued: map<nat, E>, dequeued: map<nat, E>,
                            actors: map<nat, Actor<E>>, born: map<nat, E>, loaded: seq<nat>)

  function ActorOf<E>(s: State<E>, a: nat): Actor<E> { if a in s.actors then s.actors[a] else Idle }

  function Start<E>(): State<E> { State(map[], map[], map[], map[], map[], []) }

  // ---------------------------------------------------------------- steps of actor a

  /** `_push_unbuffered`, first half: dump the item under a fresh name. */
  ghost predicate Dump<E(!new)>(s: State<E>, t: State<E>, a: nat) {
    exists f: nat, e :: CanDump(s, t, a, f, e)
  }

  ghost predicate CanDump<E>(s: State<E>, t: State<E>, a: nat, f: nat, e: E) {
    && (ActorOf(s, a).Idle? || ActorOf(s, a).Returned?) && f !in s.born
    && t == s.(temp := s.temp[f := e], born := s.born[f := e], actors := s.actors[a := Dumped(f)])
  }

  /** Second half: rename it into the queue; a rename that fails leaves it behind. */
  ghost predicate Enqueue<E>(s: State<E>, t: State<E>, a: nat) {
    && ActorOf(s, a).Dumped? && var f := ActorOf(s, a).file;
    && (|| t == s.(actors := s.actors[a := Idle])
        || (f in s.temp && t == s.(temp := s.temp - {f}, enqueued := s.enqueued[f := s.temp[f]],
            actors := s.actors[a := Idle])))
  }

  /** `_pop_unbuffered`: any listing of names, in any order, possibly outdated. */
  ghost predicate List<E(!new)>(s: State<E>, t: State<E>, a: nat) {
    && (ActorOf(s, a).Idle? || ActorOf(s, a).Returned?)
    && exists names, count: nat :: t == s.(actors := s.actors[a := Listed(names, [], count)])
  }

  /** One name of the listing: rename it, or find that another consumer was faster. */
  ghost predicate Rename<E>(s: State<E>, t: State<E>, a: nat) {
    && ActorOf(s, a).Listed? && var c := ActorOf(s, a);
    && t == if c.rest == [] then s.(actors := s.actors[a := Returned(c.taken)])
            else
              var f := c.rest[0];
              if f in s.enqueued then
                s.(enqueued := s.enqueued - {f}, dequeued := s.dequeued[f := s.enqueued[f]],
                   actors := s.actors[a := Renamed(f, c.rest[1..], c.taken, c.count)])
              else s.(actors := s.actors[a := if c.taken != [] then Returned(c.taken)
                  else Listed(c.rest[1..], c.taken, c.count)])
  }

  /** Load the renamed file; stop when there are enough items. */
  ghost predicate Load<E>(s: State<E>, t: State<E>, a: nat) {
    && ActorOf(s, a).Renamed? && var c := ActorOf(s, a);
    && c.file in s.dequeued && var taken := c.taken + [s.dequeued[c.file]];
    && t == s.(loaded := s.loaded + [c.file],
               actors := s.actors[a := if |taken| >= c.count then Returned(taken) else Listed(c.rest, taken, c.count)])
  }

  ghost predicate Step<E(!new)>(s: State<E>, t: State<E>, a: nat) {
    Dump(s, t, a) || Enqueue(s, t, a) || List(s, t, a) || Rename(s, t, a) || Load(s, t, a)
  }

  // ---------------------------------------------------------------- what every step keeps

  /** Every file written is in exactly one of the three directories, with the content it was written with. */
  ghost predicate Conserved<E>(s: State<E>) {
    forall f {:trigger Places(s, f)} :: Places(s, f)
  }

  ghost predicate Places<E>(s: State<E>, f: nat) {
    && (f in s.born <==> f in s.temp || f in s.enqueued || f in s.dequeued)
    && !(f in s.temp && f in s.enqueued) && !(f in s.temp && f in s.dequeued) && !(f in s.enqueued && f in s.dequeued)
    && (f in s.temp ==> s.temp[f] == s.born[f]) && (f in s.enqueued ==> s.enqueued[f] == s.born[f])
    && (f in s.dequeued ==> s.dequeued[f] == s.born[f])
  }

  /** No file is loaded twice: a dequeued file was loaded, or is held by the one consumer that renamed it. */
  ghost predicate LoadedOnce<E>(s: State<E>) {
    && (forall i, j :: 0 <= i < j < |s.loaded| ==> s.loaded[i] != s.loaded[j])
    && (forall f :: f in s.loaded ==> f in s.dequeued)
  }

  ghost predicate HeldOnce<E>(s: State<E>) {
    && (forall a {:trigger ActorOf(s, a)} :: ActorOf(s, a).Renamed? ==>
        ActorOf(s, a).file in s.dequeued && ActorOf(s, a).file !in s.loaded)
    && (forall a, b {:trigger ActorOf(s, a), ActorOf(s, b)} ::
          a != b && ActorOf(s, a).Renamed? && ActorOf(s, b).Renamed? ==> ActorOf(s, a).file != ActorOf(s, b).file)
  }

  predicate Holds<E>(s: State<E>, a: nat, f: nat) { ActorOf(s, a).Renamed? && ActorOf(s, a).file == f }

  /** A file in the dequeued directory has been loaded unless some consumer is just about to load it. */
  ghost predicate Accounted<E>(s: State<E>) {
    forall f :: f in s.dequeued && f !in s.loaded ==> exists a: nat :: Holds(s, a, f)
  }

  ghost predicate Inv<E>(s: State<E>) { Conserved(s) && LoadedOnce(s) && HeldOnce(s) && Accounted(s) }

  lemma StepPlaces<E(!new)>(s: State<E>, t: State<E>, a: nat, f: nat)
    requires Places(s, f) && Step(s, t, a)
    ensures Places(t, f)
  {
    if Dump(s, t, a) {
      var g: nat, e :| CanDump(s, t, a, g, e);
    } else if Rename(s, t, a) {
      RenamePlaces(s, t, a, f);
    } else if Enqueue(s, t, a) {
      EnqueuePlaces(s, t, a, f);
    } else {
      assert t.temp == s.temp && t.enqueued == s.enqueued && t.dequeued == s.dequeued && t.born == s.born;
    }
  }

  lemma RenamePlaces<E>(s: State<E>, t: State<E>, a: nat, f: nat)
    requires Places(s, f) && Rename(s, t, a)
    ensures Places(t, f)
  {
  }

  lemma EnqueuePlaces<E>(s: State<E>, t: State<E>, a: nat, f: nat)
    requires Places(s, f) && Enqueue(s, t, a)
    ensures Places(t, f)
  {
  }

  lemma StepConserves<E(!new)>(s: State<E>, t: State<E>, a: nat)
    requires Conserved(s) && Step(s, t, a)
    ensures Conserved(t)
  {
    forall f ensures Places(t, f) {
      assert Places(s, f);
      StepPlaces(s, t, a, f);
    }
  }

  /** A step changes only the actor that makes it. */
  ghost predicate Moved<E>(s: State<E>, t: State<E>, a: nat) { a in t.actors && t.actors == s.actors[a := t.actors[a]] }

  lemma StepMoves<E(!new)>(s: State<E>, t: State<E>, a: nat)
    requires Step(s, t, a)
    ensures Moved(s, t, a)
  {
    if Dump(s, t, a) {
      var g: nat, e :| CanDump(s, t, a, g, e);
    } else if Rename(s, t, a) {
      RenameMoves(s, t, a);
    }
  }

  lemma RenameMoves<E>(s: State<E>, t: State<E>, a: nat)
    requires Rename(s, t, a)
    ensures Moved(s, t, a)
  {
  }

  lemma OtherHolds<E(!new)>(s: State<E>, t: State<E>, a: nat)
    requires Step(s, t, a)
    ensures forall b: nat :: b != a ==> ActorOf(t, b) == ActorOf(s, b)
  {
    StepMoves(s, t, a);
    forall b: nat | b != a ensures ActorOf(t, b) == ActorOf(s, b) {
      assert b in t.actors <==> b in s.actors;
    }
  }

  lemma StepKeepsLoads<E(!new)>(s: State<E>, t: State<E>, a: nat)
    requires Step(s, t, a)
    ensures s.dequeued.Keys <= t.dequeued.Keys && (t.loaded == s.loaded || Load(s, t, a))
  {
    if Dump(s, t, a) {
      var g: nat, e :| CanDump(s, t, a, g, e);
    } else if !Rename(s, t, a) {
      assert t.dequeued == s.dequeued;
    }
  }

  lemma StepLoads<E(!new)>(s: State<E>, t: State<E>, a: nat)
    requires Inv(s) && Step(s, t, a)
    ensures LoadedOnce(t)
  {
    StepKeepsLoads(s, t, a);
    if t.loaded != s.loaded { assert ActorOf(s, a).file !in s.loaded; }
    forall f | f in t.loaded ensures f in t.dequeued {
      assert f in s.loaded || f == ActorOf(s, a).file; assert f in s.dequeued.Keys;
    }
  }

  /** Only a rename makes a claim, of a file that nobody can have claimed. */
  lemma StepClaims<E(!new)>(s: State<E>, t: State<E>, a: nat)
    requires Step(s, t, a) && ActorOf(t, a).Renamed?
    ensures Rename(s, t, a) && ActorOf(t, a).file in s.enqueued && ActorOf(t, a).file in t.dequeued
        && t.loaded == s.loaded
  {
    DumpActor(s, t, a);
  }

  lemma DumpActor<E(!new)>(s: State<E>, t: State<E>, a: nat)
    ensures Dump(s, t, a) ==> ActorOf(t, a).Dumped?
  {
    if Dump(s, t, a) { var g: nat, e :| CanDump(s, t, a, g, e); }
  }

  lemma StepHolds<E(!new)>(s: State<E>, t: State<E>, a: nat)
    requires Inv(s) && Step(s, t, a)
    ensures HeldOnce(t)
  {
    OtherHolds(s, t, a);
    StepKeepsLoads(s, t, a);
    if ActorOf(t, a).Renamed? {
      StepClaims(s, t, a);
      assert Places(s, ActorOf(t, a).file);
    }
    forall b: nat | ActorOf(t, b).Renamed? ensures ActorOf(t, b).file in t.dequeued && ActorOf(t, b).file !in t.loaded {
      if b != a { OthersClaim(s, t, a, b); }
    }
  }

  /** The claims of other consumers stay good. */
  lemma OthersClaim<E(!new)>(s: State<E>, t: State<E>, a: nat, b: nat)
    requires HeldOnce(s) && Step(s, t, a) && b != a && ActorOf(s, b).Renamed?
    ensures ActorOf(s, b).file in t.dequeued && ActorOf(s, b).file !in t.loaded
  {
    StepKeepsLoads(s, t, a);
    assert ActorOf(s, b).file in s.dequeued.Keys && ActorOf(s, b).file !in s.loaded;
    if t.loaded != s.loaded { assert ActorOf(s, a).Renamed?; }
  }

  lemma StepAccounts<E(!new)>(s: State<E>, t: State<E>, a: nat)
    requires Inv(s) && Step(s, t, a)
    ensures Accounted(t)
  {
    OtherHolds(s, t, a);
    if Dump(s, t, a) { var g: nat, e :| CanDump(s, t, a, g, e); }
    forall f | f in t.dequeued && f !in t.loaded ensures exists b: nat :: Holds(t, b, f) {
      if f in s.dequeued {
        assert f !in s.loaded;
        var b: nat :| Holds(s, b, f);
        assert b == a ==> Load(s, t, a);
        assert Holds(t, b, f);
      } else {
        assert Holds(t, a, f);
      }
    }
  }

  /** A run: in each step one actor moves. */
  ghost predicate Run<E(!new)>(run: seq<State<E>>, movers: seq<nat>) {
    && run != [] && run[0] == Start() && |movers| == |run| - 1
    && forall i :: 0 <= i < |movers| ==> Step(run[i], run[i + 1], movers[i])
  }

  lemma {:induction false} RunKeeps<E(!new)>(run: seq<State<E>>, movers: seq<nat>)
    requires Run(run, movers)
    ensures Inv(run[|run| - 1])
    decreases |run|
  {
    var n := |movers|;
    if n == 0 {
      StartHolds<E>();
    } else {
      assert Run(run[..n], movers[..n - 1]) by {
        forall i | 0 <= i < n - 1 ensures Step(run[..n][i], run[..n][i + 1], movers[..n - 1][i]) {
          assert Step(run[i], run[i + 1], movers[i]);
        }
      }
      RunKeeps(run[..n], movers[..n - 1]);
      assert Step(run[n - 1], run[n], movers[n - 1]);
      StepConserves(run[n - 1], run[n], movers[n - 1]);
      StepLoads(run[n - 1], run[n], movers[n - 1]);
      StepHolds(run[n - 1], run[n], movers[n - 1]);
      StepAccounts(run[n - 1], run[n], movers[n - 1]);
    }
  }

  lemma StartHolds<E(!new)>()
    ensures Inv<E>(Start())
  {
    forall f ensures Places<E>(Start(), f) {}
  }

  /** Under every interleaving: each item written is in exactly one directory, unchanged, and no item is loaded
      twice. */
  lemma NoItemTwice<E(!new)>(run: seq<State<E>>, movers: seq<nat>, f: nat)
    requires Run(run, movers)
    ensures var s := run[|run| - 1];
      && Places(s, f)
      && (forall i, j :: 0 <= i < |s.loaded| && 0 <= j < |s.loaded| && s.loaded[i] == f == s.loaded[j] ==> i == j)
  {
    RunKeeps(run, movers);
  }

  ghost predicate Quiet<E>(s: State<E>) { forall a: nat :: !ActorOf(s, a).Renamed? }

  /** When no consumer stands between a rename and a load, exactly the dequeued items have been loaded. */
  lemma QuietMeansAllLoaded<E(!new)>(run: seq<State<E>>, movers: seq<nat>)
    requires Run(run, movers) && Quiet(run[|run| - 1])
    ensures var s := run[|run| - 1]; forall f :: f in s.dequeued <==> f in s.loaded
  {
    RunKeeps(run, movers);
  }

  // ---------------------------------------------------------------- a consumer that is not disturbed

  /** Only a moves, renaming and loading. */
  ghost predicate Alone<E>(run: seq<State<E>>, a: nat) {
    run != [] && forall i, j :: 0 <= i < j < |run| && j == i + 1 ==> Serves(run[i], run[j], a)
  }

  ghost predicate Serves<E>(s: State<E>, t: State<E>, a: nat) { Rename(s, t, a) || Load(s, t, a) }

  /** Such a run from s to t. */
  ghost predicate Leads<E>(run: seq<State<E>>, s: State<E>, t: State<E>, a: nat) {
    Alone(run, a) && run[0] == s && run[|run| - 1] == t
  }

  predicate NoRepeat(names: seq<nat>) { forall i, j :: 0 <= i < j < |names| ==> names[i] != names[j] }

  function Contents<E>(files: map<nat, E>, names: seq<nat>): seq<E>
    requires forall f :: f in names ==> f in files
  {
    seq(|names|, i requires 0 <= i < |names| => assert names[i] in names; files[names[i]])
  }

  /** These are the names from position i on. */
  predicate Part(rest: seq<nat>, i: nat, names: seq<nat>) {
    i + |names| <= |rest| && forall m :: 0 <= m < |names| ==> names[m] == rest[i + m]
  }

  /** Of the listing, the first i names are gone; the next k files are taken. That is where enough have been taken, the
      listing ends, or another file is gone. */
  ghost predicate Takes<E>(s: State<E>, rest: seq<nat>, had: nat, count: nat, i: nat, k: nat) {
    && i + k <= |rest| && (had > 0 ==> i == 0)
    && (forall j :: 0 <= j < i ==> rest[j] !in s.enqueued)
    && (forall j :: i <= j < i + k ==> rest[j] in s.enqueued)
    && (k > 0 ==> had + k <= count || had + k == 1)
    && (i + k == |rest| || (had + k > 0 && ((k > 0 && had + k >= count) || rest[i + k] !in s.enqueued)))
  }

  ghost predicate Took<E>(s: State<E>, t: State<E>, a: nat, names: seq<nat>, taken: seq<E>) {
    && (forall f :: f in names ==> f in s.enqueued)
    && ActorOf(t, a) == Returned(taken + Contents(s.enqueued, names)) && t.loaded == s.loaded + names
    && t.temp == s.temp && t.born == s.born && t.enqueued == s.enqueued - (set f | f in names)
    && t.dequeued == s.dequeued + map f | f in names :: s.enqueued[f]
  }

  lemma LeadsNext<E>(s: State<E>, u: State<E>, run: seq<State<E>>, t: State<E>, a: nat)
    requires Serves(s, u, a) && Leads(run, u, t, a)
    ensures Leads([s] + run, s, t, a)
  {
    var all := [s] + run;
    forall i, j | 0 <= i < j < |all| && j == i + 1 ensures Serves(all[i], all[j], a) {
      if i > 0 { assert Serves(run[i - 1], run[j - 1], a); }
    }
  }

  lemma LeadsHere<E>(t: State<E>, a: nat)
    ensures Leads([t], t, t, a)
  {
  }

  /** What an undisturbed consumer returns: it skips the files that are gone, and takes the files that follow, in order
      and each with its content, up to the number asked for, or to the next file that is gone. At least one is taken
      whenever one of the listed files is there. */
  lemma {:induction false} PopTakes<E>(s: State<E>, a: nat, rest: seq<nat>, taken: seq<E>, count: nat)
          returns (run: seq<State<E>>, t: State<E>, i: nat, names: seq<nat>)
    requires ActorOf(s, a) == Listed(rest, taken, count) && NoRepeat(rest) && (taken == [] || |taken| < count)
    ensures Leads(run, s, t, a) && Takes(s, rest, |taken|, count, i, |names|) && Part(rest, i, names)
    ensures Took(s, t, a, names, taken)
    decreases |rest|, 1
  {
    if rest == [] || (rest[0] !in s.enqueued && taken != []) {
      run, t := StopHere(s, a, rest, taken, count);
      i, names := 0, [];
    } else if rest[0] !in s.enqueued {
      run, t, i, names := SkipMore(s, a, rest, count);
    } else {
      run, t, names := TakeOne(s, a, rest, taken, count);
      i := 0;
    }
  }

  lemma {:induction false} SkipMore<E>(s: State<E>, a: nat, rest: seq<nat>, count: nat)
          returns (run: seq<State<E>>, t: State<E>, i: nat, names: seq<nat>)
    requires ActorOf(s, a) == Listed(rest, [], count) && NoRepeat(rest) && rest != [] && rest[0] !in s.enqueued
    ensures Leads(run, s, t, a) && Takes(s, rest, 0, count, i, |names|) && Part(rest, i, names)
    ensures Took(s, t, a, names, [])
    decreases |rest|, 0
  {
    var u := s.(actors := s.actors[a := Listed(rest[1..], [], count)]);
    var later, j;
    later, t, j, names := PopTakes(u, a, rest[1..], [], count);
    SkipFirst(s, u, later, t, a, rest, count);
    SkipTakes(s, u, rest, count, j, |names|);
    SkipTook(s, u, t, a, names);
    run, i := [s] + later, j + 1;
    assert Part(rest, i, names);
  }

  lemma SkipFirst<E>(s: State<E>, u: State<E>, later: seq<State<E>>, t: State<E>, a: nat, rest: seq<nat>, count: nat)
    requires ActorOf(s, a) == Listed(rest, [], count) && rest != [] && rest[0] !in s.enqueued
    requires u == s.(actors := s.actors[a := Listed(rest[1..], [], count)]) && Leads(later, u, t, a)
    ensures Leads([s] + later, s, t, a)
  {
    assert Rename(s, u, a);
    LeadsNext(s, u, later, t, a);
  }

  lemma SkipTook<E>(s: State<E>, u: State<E>, t: State<E>, a: nat, names: seq<nat>)
    requires u == s.(actors := u.actors) && Took(u, t, a, names, [])
    ensures Took(s, t, a, names, [])
  {
  }

  lemma StopHere<E>(s: State<E>, a: nat, rest: seq<nat>, taken: seq<E>, count: nat)
      returns (run: seq<State<E>>, t: State<E>)
    requires ActorOf(s, a) == Listed(rest, taken, count) && (rest == [] || (rest[0] !in s.enqueued && taken != []))
    ensures Leads(run, s, t, a) && Takes(s, rest, |taken|, count, 0, 0) && Took(s, t, a, [], taken)
  {
    t := s.(actors := s.actors[a := Returned(taken)]);
    LeadsHere(t, a);
    LeadsNext(s, t, [t], t, a);
    run := [s] + [t];
    assert taken + Contents(s.enqueued, []) == taken && s.loaded + [] == s.loaded;
  }

  /** The consumer renames the first file of its listing and loads it. */
  lemma TakeStep<E>(s: State<E>, a: nat, rest: seq<nat>, taken: seq<E>, count: nat)
      returns (u: State<E>, v: State<E>)
    requires ActorOf(s, a) == Listed(rest, taken, count) && rest != [] && rest[0] in s.enqueued
    ensures Rename(s, u, a) && Load(u, v, a) && After(s, v, rest[0])
    ensures var more := taken + [s.enqueued[rest[0]]];
      ActorOf(v, a) == if |more| >= count then Returned(more) else Listed(rest[1..], more, count)
  {
    var f, more := rest[0], taken + [s.enqueued[rest[0]]];
    u := s.(enqueued := s.enqueued - {f}, dequeued := s.dequeued[f := s.enqueued[f]],
            actors := s.actors[a := Renamed(f, rest[1..], taken, count)]);
    v := u.(loaded := u.loaded + [f],
            actors := u.actors[a := if |more| >= count then Returned(more) else Listed(rest[1..], more, count)]);
  }

  /** File f has been dequeued and loaded. */
  ghost predicate After<E>(s: State<E>, v: State<E>, f: nat) {
    f in s.enqueued && v == s.(enqueued := s.enqueued - {f}, dequeued := s.dequeued[f := s.enqueued[f]],
      loaded := s.loaded + [f], actors := v.actors)
  }

  lemma TookOne<E>(s: State<E>, v: State<E>, a: nat, f: nat, taken: seq<E>)
    requires After(s, v, f) && ActorOf(v, a) == Returned(taken + [s.enqueued[f]])
    ensures Took(s, v, a, [f], taken)
  {
    assert Contents(s.enqueued, [f]) == [s.enqueued[f]];
    assert forall g :: g in [f] <==> g == f;
    assert v.dequeued == s.dequeued + map g | g in [f] :: s.enqueued[g];
  }

  lemma SkipTakes<E>(s: State<E>, u: State<E>, rest: seq<nat>, count: nat, i: nat, k: nat)
    requires rest != [] && rest[0] !in s.enqueued && u == s.(actors := u.actors)
    requires Takes(u, rest[1..], 0, count, i, k)
    ensures Takes(s, rest, 0, count, i + 1, k)
  {
    var tail := rest[1..];
    assert forall j :: 0 <= j < |tail| ==> tail[j] == rest[j + 1];
    forall j | 0 <= j < i + 1 ensures rest[j] !in s.enqueued { if j > 0 { assert tail[j - 1] !in u.enqueued; } }
    forall j | i + 1 <= j < i + 1 + k ensures rest[j] in s.enqueued { assert tail[j - 1] in u.enqueued; }
  }

  lemma {:induction false} TakeOne<E>(s: State<E>, a: nat, rest: seq<nat>, taken: seq<E>, count: nat)
          returns (run: seq<State<E>>, t: State<E>, names: seq<nat>)
    requires ActorOf(s, a) == Listed(rest, taken, count) && NoRepeat(rest) && (taken == [] || |taken| < count)
    requires rest != [] && rest[0] in s.enqueued
    ensures Leads(run, s, t, a) && Takes(s, rest, |taken|, count, 0, |names|) && Part(rest, 0, names)
    ensures Took(s, t, a, names, taken)
    decreases |rest|, 0
  {
    if |taken| + 1 >= count {
      run, t := TakeLast(s, a, rest, taken, count);
      names := [rest[0]];
    } else {
      var u, v := TakeStep(s, a, rest, taken, count);
      var later, i, more;
      later, t, i, more := PopTakes(v, a, rest[1..], taken + [s.enqueued[rest[0]]], count);
      LeadsNext(u, v, later, t, a);
      LeadsNext(s, u, [u] + later, t, a);
      FirstNot(rest, more);
      TakeMore(s, v, rest, |taken|, count, |more|);
      TookMore(s, v, t, a, rest[0], more, taken);
      run, names := [s] + ([u] + later), [rest[0]] + more;
    }
  }

  lemma FirstNot(rest: seq<nat>, names: seq<nat>)
    requires rest != [] && NoRepeat(rest) && |names| < |rest| && Part(rest[1..], 0, names)
    ensures rest[0] !in names && Part(rest, 0, [rest[0]] + names)
  {
  }

  lemma TakeLast<E>(s: State<E>, a: nat, rest: seq<nat>, taken: seq<E>, count: nat)
      returns (run: seq<State<E>>, t: State<E>)
    requires ActorOf(s, a) == Listed(rest, taken, count) && (taken == [] || |taken| < count)
    requires rest != [] && rest[0] in s.enqueued && |taken| + 1 >= count
    ensures Leads(run, s, t, a) && Takes(s, rest, |taken|, count, 0, 1) && Took(s, t, a, [rest[0]], taken)
  {
    var u;
    u, t := TakeStep(s, a, rest, taken, count);
    LeadsHere(t, a);
    LeadsNext(u, t, [t], t, a);
    LeadsNext(s, u, [u] + [t], t, a);
    TookOne(s, t, a, rest[0], taken);
    run := [s] + ([u] + [t]);
  }

  lemma TakeMore<E>(s: State<E>, v: State<E>, rest: seq<nat>, had: nat, count: nat, k: nat)
    requires rest != [] && NoRepeat(rest) && had + 1 < count && After(s, v, rest[0])
    requires Takes(v, rest[1..], had + 1, count, 0, k)
    ensures Takes(s, rest, had, count, 0, k + 1)
  {
    var tail := rest[1..];
    assert forall j :: 0 <= j < |tail| ==> tail[j] == rest[j + 1] && (tail[j] in v.enqueued <==> tail[j] in s.enqueued);
    forall j | 0 <= j < k + 1 ensures rest[j] in s.enqueued { if j > 0 { assert tail[j - 1] in v.enqueued; } }
  }

  lemma FilesMove<E>(s: State<E>, v: State<E>, f: nat, names: seq<nat>)
    requires f !in names && After(s, v, f) && forall g :: g in names ==> g in v.enqueued
    ensures var all := [f] + names;
      && v.enqueued - (set g | g in names) == s.enqueued - (set g | g in all)
      && v.dequeued + (map g | g in names :: v.enqueued[g])
        == s.dequeued + map g | g in all && g in s.enqueued :: s.enqueued[g]
  {
    var all := [f] + names;
    assert forall g :: g in all <==> g == f || g in names;
  }

  lemma TookMore<E>(s: State<E>, v: State<E>, t: State<E>, a: nat, f: nat, names: seq<nat>, taken: seq<E>)
    requires f !in names && After(s, v, f)
    requires Took(v, t, a, names, taken + [s.enqueued[f]])
    ensures Took(s, t, a, [f] + names, taken)
  {
    var all := [f] + names;
    assert forall g :: g in all <==> g == f || g in names;
    assert Contents(s.enqueued, all) == [s.enqueued[f]] + Contents(v.enqueued, names);
    assert taken + [s.enqueued[f]] + Contents(v.enqueued, names) == taken + Contents(s.enqueued, all);
    assert s.loaded + [f] + names == s.loaded + all;
    FilesMove(s, v, f, names);
  }
}
