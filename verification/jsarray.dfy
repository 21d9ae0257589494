/** The two array idioms the game leans on, `indexOf` and `splice(i, 1)`,
    with the semantics JavaScript gives them, including a missing element. */
module JsArray {

  /** No element occurs twice. */
  ghost predicate Distinct<T>(xs: seq<T>) {
    forall i, j | 0 <= i < j < |xs| :: xs[i] != xs[j]
  }

  /** `xs.indexOf(x)`: the first position holding `x`, or -1 when there is none. */
  function IndexOf<T(==)>(xs: seq<T>, x: T): (i: int)
    ensures -1 <= i < |xs|
    ensures i == -1 <==> x !in xs
    ensures 0 <= i ==> xs[i] == x && x !in xs[..i]
  {
    if xs == [] then -1
    else if xs[0] == x then 0
    else
      var j := IndexOf(xs[1..], x);
      if j == -1 then -1
      else
        assert xs[..j + 1] == [xs[0]] + xs[1..][..j];
        j + 1
  }

  /** `xs.splice(start, 1)`, as the array left behind: a negative start counts
      back from the end (and is clamped at 0); a start at or past the end
      removes nothing. */
  function Splice1<T>(xs: seq<T>, start: int): (r: seq<T>)
    ensures 0 <= start < |xs| ==> |r| == |xs| - 1 && multiset(r) + multiset{xs[start]} == multiset(xs)
    ensures start == -1 && xs != [] ==> r == xs[..|xs| - 1]
    ensures start >= |xs| || xs == [] ==> r == xs
  {
    var k := if start >= 0 then start else if |xs| + start >= 0 then |xs| + start else 0;
    if k < |xs| then
      assert xs == xs[..k] + [xs[k]] + xs[k + 1..];
      xs[..k] + xs[k + 1..]
    else xs
  }

  /** The removal idiom `xs.splice(xs.indexOf(x), 1)`. */
  function Remove<T(==)>(xs: seq<T>, x: T): seq<T> {
    Splice1(xs, IndexOf(xs, x))
  }

  /** Removing a present element deletes its first occurrence and keeps the
      order of the rest. */
  lemma RemovePresent<T>(xs: seq<T>, x: T)
    requires x in xs
    ensures var i := IndexOf(xs, x);
      && xs == xs[..i] + [x] + xs[i + 1..]
      && Remove(xs, x) == xs[..i] + xs[i + 1..]
      && multiset(Remove(xs, x)) == multiset(xs) - multiset{x}
  {
    RemoveSplits(xs, x);
    RemoveCounts(xs, x);
  }

  lemma RemoveSplits<T>(xs: seq<T>, x: T)
    requires x in xs
    ensures var i := IndexOf(xs, x);
      && xs == xs[..i] + [x] + xs[i + 1..]
      && Remove(xs, x) == xs[..i] + xs[i + 1..]
  {
    var i := IndexOf(xs, x);
    assert xs == xs[..i] + [xs[i]] + xs[i + 1..];
  }

  lemma RemoveCounts<T>(xs: seq<T>, x: T)
    requires x in xs
    ensures multiset(Remove(xs, x)) == multiset(xs) - multiset{x}
  {
    var r := Remove(xs, x);
    assert multiset(r) + multiset{x} == multiset(xs);
  }

  /** The quirk of the idiom: when `x` is absent, `indexOf` answers -1 and
      `splice(-1, 1)` drops the LAST element instead. */
  lemma RemoveAbsentDropsLast<T>(xs: seq<T>, x: T)
    requires x !in xs && xs != []
    ensures Remove(xs, x) == xs[..|xs| - 1]
    ensures |Remove(xs, x)| == |xs| - 1
  {
  }

  /** In an array without repeats, removing `x` leaves exactly the other
      elements, still without repeats. */
  lemma RemoveDistinct<T>(xs: seq<T>, x: T)
    requires Distinct(xs) && x in xs
    ensures Distinct(Remove(xs, x))
    ensures forall y :: y in Remove(xs, x) <==> y in xs && y != x
  {
    var i := IndexOf(xs, x);
    RemovePresent(xs, x);
    DeleteAtDistinct(xs, i);
  }

  lemma DeleteAtDistinct<T>(xs: seq<T>, i: nat)
    requires Distinct(xs) && i < |xs|
    ensures Distinct(xs[..i] + xs[i + 1..])
    ensures forall y :: y in xs[..i] + xs[i + 1..] <==> y in xs && y != xs[i]
  {
    var r := xs[..i] + xs[i + 1..];
    assert |r| == |xs| - 1;
    assert forall k | 0 <= k < |r| :: r[k] == xs[if k < i then k else k + 1];
    forall y | y in xs && y != xs[i]
      ensures y in r
    {
      var k :| 0 <= k < |xs| && xs[k] == y;
      assert r[if k < i then k else k - 1] == y;
    }
  }

  /** Appending an absent element keeps an array without repeats. */
  lemma AppendDistinct<T>(xs: seq<T>, x: T)
    requires Distinct(xs) && x !in xs
    ensures Distinct(xs + [x])
  {
  }
}
