/** Flattening sequences of sequences. */
module Sequences {

  function Concat<T>(parts: seq<seq<T>>): seq<T> { if parts == [] then [] else parts[0] + Concat(parts[1..]) }

  lemma {:induction false} ConcatSplit<T>(a: seq<seq<T>>, b: seq<seq<T>>)
    ensures Concat(a + b) == Concat(a) + Concat(b)
  {
    if a == [] {
      assert a + b == b;
    } else {
      ConcatSplit(a[1..], b);
      ConcatFirst(a, b);
      Associative(a[0], Concat(a[1..]), Concat(b));
    }
  }

  lemma ConcatFirst<T>(a: seq<seq<T>>, b: seq<seq<T>>)
    requires a != []
    ensures Concat(a + b) == a[0] + Concat(a[1..] + b)
  {
    assert (a + b)[1..] == a[1..] + b;
  }

  lemma Associative<T>(a: seq<T>, b: seq<T>, c: seq<T>)
    ensures (a + b) + c == a + (b + c)
  {
  }

  lemma ConcatAppend<T>(a: seq<seq<T>>, x: seq<T>)
    ensures Concat(a + [x]) == Concat(a) + x
  {
    ConcatSplit(a, [x]);
    assert [x][1..] == [];
  }

  /** The first i + 1 parts are a prefix of the whole. */
  lemma ConcatTake<T>(a: seq<seq<T>>, i: nat)
    requires i < |a|
    ensures Concat(a[..i + 1]) == Concat(a[..i]) + a[i]
    ensures |Concat(a[..i + 1])| <= |Concat(a)| && Concat(a[..i + 1]) == Concat(a)[..|Concat(a[..i + 1])|]
  {
    assert a[..i + 1] == a[..i] + [a[i]];
    ConcatAppend(a[..i], a[i]);
    assert a == a[..i + 1] + a[i + 1..];
    ConcatSplit(a[..i + 1], a[i + 1..]);
  }
}
