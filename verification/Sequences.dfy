/** Sequences of anything. */
module Sequences {
  function Drop<T>(s: seq<T>, i: nat): (r: seq<T>)
    requires i < |s|
    ensures |r| == |s| - 1
    ensures forall j {:trigger r[j]} :: 0 <= j < |r| ==> r[j] == if j < i then s[j] else s[j + 1]
  {
    s[..i] + s[i + 1..]
  }

  lemma UpdateTwice<T>(s: seq<T>, i: nat, x: T, y: T)
    requires i < |s|
    ensures s[i := x][i := y] == s[i := y]
  {
  }

  lemma DropUpdated<T>(s: seq<T>, i: nat, x: T)
    requires i < |s|
    ensures Drop(s[i := x], i) == Drop(s, i)
  {
  }

  lemma InPrefix<T>(s: seq<T>, n: nat)
    requires n < |s|
    ensures s[n] in s
    ensures forall t :: t in s[..n + 1] <==> t in s[..n] || t == s[n]
  {
    assert s[..n + 1] == s[..n] + [s[n]];
  }

  lemma DropMiddle<T>(a: seq<T>, b: seq<T>)
    requires b != []
    ensures Drop(a + b, |a|) == a + b[1..]
  {
  }

  function Reversed<T>(s: seq<T>): seq<T> {
    if s == [] then [] else Reversed(s[1..]) + [s[0]]
  }

  lemma {:induction false} ReversedAppend<T>(s: seq<T>, x: T)
    ensures Reversed(s + [x]) == [x] + Reversed(s)
  {
    if s == [] {
      assert s + [x] == [x];
    } else {
      ReversedAppend(s[1..], x);
      assert (s + [x])[1..] == s[1..] + [x];
    }
  }

  lemma ReversedLength<T>(s: seq<T>)
    ensures |Reversed(s)| == |s|
  {
  }
}
