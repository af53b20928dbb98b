/** Types every component of the model shares. */
module Prelude {

  datatype Option<+T> = None | Some(value: T)

  /** What one poll of a future returns. */
  datatype Poll<+T> = Pending | Ready(value: T)

  /** Where an `async fn` stands: not polled yet, or suspended at its `.await`. */
  datatype Point = Start | Await

  /** The largest `usize` of a 64-bit target; `usize::MAX` asks an event to notify everyone. */
  const USIZE_MAX: nat := 0xFFFF_FFFF_FFFF_FFFF

  /** A task handle. `task` is what `wake` reschedules; `vtable` says which executor made the
      handle, and `handle` tells two clones apart. */
  datatype Waker = Waker(task: nat, vtable: nat, handle: nat)

  /** `Waker::will_wake`: a positive answer guarantees the same task, a negative one promises nothing. */
  predicate WillWake(a: Waker, b: Waker) {
    a.task == b.task && a.vtable == b.vtable
  }

  function Min(a: nat, b: nat): nat { if a <= b then a else b }

  function Max(a: nat, b: nat): nat { if a <= b then b else a }

  // ----- sequences without duplicates

  ghost predicate Distinct<A>(s: seq<A>) {
    forall i, j :: 0 <= i < j < |s| ==> s[i] != s[j]
  }

  /** The first position of `x` in `s`, or `|s|` when it does not occur. */
  function Pos<A(==)>(s: seq<A>, x: A): (p: nat)
    ensures p <= |s|
    ensures p < |s| ==> s[p] == x
    ensures x in s <==> p < |s|
    ensures forall j :: 0 <= j < p ==> s[j] != x
  {
    if |s| == 0 || s[0] == x then 0 else 1 + Pos(s[1..], x)
  }

  function Without<A>(s: seq<A>, i: nat): seq<A>
    requires i < |s|
  {
    s[..i] + s[i + 1..]
  }

  // ----- how the members of a list change

  ghost predicate SameMembers<A(!new)>(q': seq<A>, q: seq<A>) { forall x :: x in q' <==> x in q }

  ghost predicate Minus<A(!new)>(q': seq<A>, q: seq<A>, a: A) { forall x :: x in q' <==> x in q && x != a }

  ghost predicate Plus<A(!new)>(q': seq<A>, q: seq<A>, a: A) { forall x :: x in q' <==> x in q || x == a }

  /** Two stretches of a queue's life in a row: what comes in goes on behind what is there. */
  lemma QueueChain<A>(a: seq<A>, come1: seq<A>, gone1: seq<A>, b: seq<A>, come2: seq<A>, gone2: seq<A>, c: seq<A>)
    requires a + come1 == gone1 + b && b + come2 == gone2 + c
    ensures a + (come1 + come2) == (gone1 + gone2) + c
  {
    calc {
      a + (come1 + come2);
      (a + come1) + come2;
      gone1 + (b + come2);
      (gone1 + gone2) + c;
    }
  }

  lemma MultisetHead<A>(s: seq<A>)
    requires |s| > 0
    ensures multiset(s) == multiset{s[0]} + multiset(s[1..])
  {
    assert s == [s[0]] + s[1..];
  }

  lemma WithoutAt<A>(s: seq<A>, i: nat, k: nat)
    requires i < |s| && k < |s| - 1
    ensures Without(s, i)[k] == s[if k < i then k else k + 1]
  {
  }

  lemma WithoutFacts<A>(s: seq<A>, i: nat)
    requires i < |s| && Distinct(s)
    ensures Distinct(Without(s, i))
    ensures forall x :: x in Without(s, i) <==> x in s && x != s[i]
  {
    var t := Without(s, i);
    assert forall k :: 0 <= k < |t| ==> t[k] == s[if k < i then k else k + 1];
    forall x | x in s && x != s[i]
      ensures x in t
    {
      var p := Pos(s, x);
      assert t[if p < i then p else p - 1] == x;
    }
  }

  lemma {:induction false} PosConcat<A>(a: seq<A>, b: seq<A>, x: A)
    ensures x in a ==> Pos(a + b, x) == Pos(a, x)
    ensures x !in a ==> Pos(a + b, x) == |a| + Pos(b, x)
  {
    if |a| == 0 {
      assert a + b == b;
    } else {
      assert (a + b)[1..] == a[1..] + b;
      assert x in a <==> x == a[0] || x in a[1..];
      PosConcat(a[1..], b, x);
    }
  }

  lemma PosWithout<A>(s: seq<A>, i: nat, x: A)
    requires i < |s| && Distinct(s) && x in s && x != s[i]
    ensures Pos(Without(s, i), x) == if Pos(s, x) < i then Pos(s, x) else Pos(s, x) - 1
  {
    WithoutFacts(s, i);
    var p := if Pos(s, x) < i then Pos(s, x) else Pos(s, x) - 1;
    WithoutAt(s, i, p);
  }

  /** A sequence without duplicates is no longer than a set that holds its elements. */
  lemma {:induction false} DistinctFits<A>(s: seq<A>, space: set<A>)
    requires Distinct(s) && forall x :: x in s ==> x in space
    ensures |s| <= |space|
  {
    if |s| > 0 {
      var x, rest := s[0], s[1..];
      assert x in s;
      forall y | y in rest ensures y in space - {x} {
        var p := Pos(rest, y);
        assert s[p + 1] == y;
      }
      DistinctFits(rest, space - {x});
    }
  }
}
