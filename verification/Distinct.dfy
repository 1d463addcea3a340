/** Deduplication that keeps first occurrences, as the Go code does with a `seen` map. */
module Distinct {

  /** The distinct elements in first-seen order. */
  function FirstSeen(xs: seq<string>): seq<string> {
    if xs == [] then []
    else
      var rest, x := xs[..|xs| - 1], xs[|xs| - 1];
      FirstSeen(rest) + if x in rest then [] else [x]
  }

  lemma FirstSeenSnoc(xs: seq<string>, x: string)
    ensures FirstSeen(xs + [x]) == FirstSeen(xs) + if x in xs then [] else [x]
  {
  }

  function IndexOf(xs: seq<string>, x: string): (i: nat)
    requires x in xs
    ensures i < |xs| && xs[i] == x && forall k :: 0 <= k < i ==> xs[k] != x
  {
    if xs[0] == x then 0
    else
      assert xs == [xs[0]] + xs[1..];
      1 + IndexOf(xs[1..], x)
  }

  lemma {:induction false} FirstSeenElements(xs: seq<string>)
    ensures forall x :: x in FirstSeen(xs) <==> x in xs
  {
    if xs != [] {
      FirstSeenElements(xs[..|xs| - 1]);
      assert xs == xs[..|xs| - 1] + [xs[|xs| - 1]];
    }
  }

  lemma IndexOfPrefix(xs: seq<string>, x: string, y: string)
    requires x in xs
    ensures x in xs + [y] && IndexOf(xs + [y], x) == IndexOf(xs, x)
  {
    assert (xs + [y])[IndexOf(xs, x)] == x;
  }

  /** Elements of `xs`, strictly by first occurrence; so no element is repeated. */
  ghost predicate InOrder(r: seq<string>, xs: seq<string>) {
    && (forall i :: 0 <= i < |r| ==> r[i] in xs)
    && forall i, j :: 0 <= i < j < |r| ==> IndexOf(xs, r[i]) < IndexOf(xs, r[j])
  }

  lemma InOrderStep(r: seq<string>, rest: seq<string>, y: string)
    requires InOrder(r, rest)
    ensures InOrder(r, rest + [y])
    ensures y !in rest ==> InOrder(r + [y], rest + [y])
  {
    forall x | x in rest ensures x in rest + [y] && IndexOf(rest + [y], x) == IndexOf(rest, x) {
      IndexOfPrefix(rest, x, y);
    }
    if y !in rest {
      assert (rest + [y])[|rest|] == y;
      assert forall k :: 0 <= k < |rest| ==> (rest + [y])[k] == rest[k] && rest[k] in rest;
    }
  }

  /** No duplicates, the same elements, ordered by first occurrence. */
  lemma {:induction false} FirstSeenIsDedup(xs: seq<string>)
    ensures forall x :: x in FirstSeen(xs) <==> x in xs
    ensures InOrder(FirstSeen(xs), xs)
  {
    FirstSeenElements(xs);
    if xs != [] {
      var rest, y := xs[..|xs| - 1], xs[|xs| - 1];
      FirstSeenIsDedup(rest);
      assert xs == rest + [y];
      hide InOrder;
      InOrderStep(FirstSeen(rest), rest, y);
      assert FirstSeen(rest) + [] == FirstSeen(rest);
    }
  }
}
