/**
 * Sequence helpers shared by the scans: the first element that answers,
 * order-preserving filtering, and order-preserving removal of duplicates.
 */
module Seqs {
  import opened Wrappers

  /** The answer `f` gives for the first element it answers for, if any. */
  function FirstSome<T, U>(xs: seq<T>, f: T -> Option<U>): Option<U>
  {
    if |xs| == 0 then None
    else if f(xs[0]).Some? then f(xs[0])
    else FirstSome(xs[1..], f)
  }

  /** No answer means `f` answers for no element; an answer is the one for the first element it answers for. */
  lemma {:induction false} FirstSomeIsFirst<T, U>(xs: seq<T>, f: T -> Option<U>)
    ensures FirstSome(xs, f).None? <==> forall i :: 0 <= i < |xs| ==> f(xs[i]).None?
    ensures FirstSome(xs, f).Some? ==>
      exists i :: 0 <= i < |xs| && f(xs[i]) == FirstSome(xs, f) && forall j :: 0 <= j < i ==> f(xs[j]).None?
  {
    if |xs| > 0 && f(xs[0]).None? {
      var rest := xs[1..];
      FirstSomeIsFirst(rest, f);
      assert forall i :: 1 <= i < |xs| ==> xs[i] == rest[i - 1];
      if FirstSome(xs, f).Some? {
        var k :| 0 <= k < |rest| && f(rest[k]) == FirstSome(xs, f) && forall j :: 0 <= j < k ==> f(rest[j]).None?;
        assert f(xs[k + 1]) == FirstSome(xs, f);
        assert forall j :: 0 <= j < k + 1 ==> f(xs[j]).None? by {
          forall j | 0 <= j < k + 1
            ensures f(xs[j]).None?
          {
            if j > 0 {
              assert xs[j] == rest[j - 1];
            }
          }
        }
      }
    }
  }

  /** Elements appended later do not change an answer already found. */
  lemma {:induction false} FirstSomeAppend<T, U>(a: seq<T>, b: seq<T>, f: T -> Option<U>)
    ensures FirstSome(a + b, f) == if FirstSome(a, f).Some? then FirstSome(a, f) else FirstSome(b, f)
  {
    if |a| > 0 {
      FirstSomeAppend(a[1..], b, f);
      assert (a + b)[1..] == a[1..] + b;
    } else {
      assert a + b == b;
    }
  }

  /** Skipping an element `f` does not answer for leaves the answer unchanged. */
  lemma FirstSomeSkip<T, U>(xs: seq<T>, i: nat, f: T -> Option<U>)
    requires i < |xs| && f(xs[i]).None?
    ensures FirstSome(xs[i..], f) == FirstSome(xs[i + 1..], f)
  {
    assert xs[i..][1..] == xs[i + 1..];
  }

  /** The index of the first element satisfying `p`. */
  function FirstIndex<T>(xs: seq<T>, p: T -> bool): (r: Option<nat>)
    ensures r.Some? ==> r.value < |xs| && p(xs[r.value])
    ensures r.Some? ==> forall j :: 0 <= j < r.value ==> !p(xs[j])
    ensures r.None? <==> forall j :: 0 <= j < |xs| ==> !p(xs[j])
  {
    if |xs| == 0 then None
    else if p(xs[0]) then Some(0)
    else
      var rest := FirstIndex(xs[1..], p);
      assert forall j :: 1 <= j < |xs| ==> xs[j] == xs[1..][j - 1];
      if rest.Some? then Some(rest.value + 1) else None
  }

  /** The first element satisfying `p` is the one after a run of elements that do not. */
  lemma FirstIndexAt<T>(xs: seq<T>, p: T -> bool, k: nat)
    requires k < |xs| && p(xs[k])
    requires forall j :: 0 <= j < k ==> !p(xs[j])
    ensures FirstIndex(xs, p) == Some(k)
  {
  }

  /** The elements satisfying `p`, in their order. */
  function Filter<T(!new)>(xs: seq<T>, p: T -> bool): (r: seq<T>)
    ensures |r| <= |xs|
    ensures forall x :: x in r <==> x in xs && p(x)
  {
    if |xs| == 0 then []
    else
      var front := Filter(xs[..|xs| - 1], p);
      var x := xs[|xs| - 1];
      assert forall y :: y in xs <==> y in xs[..|xs| - 1] || y == x;
      front + (if p(x) then [x] else [])
  }

  /** Filtering a concatenation filters each part. */
  lemma {:induction false} FilterAppend<T(!new)>(a: seq<T>, b: seq<T>, p: T -> bool)
    ensures Filter(a + b, p) == Filter(a, p) + Filter(b, p)
    decreases |b|
  {
    if |b| == 0 {
      assert a + b == a;
    } else {
      var front, x := b[..|b| - 1], b[|b| - 1];
      var tail := if p(x) then [x] else [];
      FilterAppend(a, front, p);
      assert (a + b)[..|a + b| - 1] == a + front && (a + b)[|a + b| - 1] == x;
      assert Filter(a + b, p) == Filter(a + front, p) + tail;
      assert Filter(b, p) == Filter(front, p) + tail;
      assert Filter(a, p) + Filter(front, p) + tail == Filter(a, p) + (Filter(front, p) + tail);
    }
  }

  /** The head of a filtered sequence is the first element satisfying the predicate. */
  lemma {:induction false} FilterHead<T(!new)>(xs: seq<T>, p: T -> bool, i: nat)
    requires i < |xs| && p(xs[i]) && forall j :: 0 <= j < i ==> !p(xs[j])
    ensures |Filter(xs, p)| > 0 && Filter(xs, p)[0] == xs[i]
  {
    var front := xs[..|xs| - 1];
    if i < |xs| - 1 {
      FilterHead(front, p, i);
    } else {
      FilterNone(front, p);
    }
  }

  /** Nothing passes the filter when no element satisfies the predicate. */
  lemma {:induction false} FilterNone<T(!new)>(xs: seq<T>, p: T -> bool)
    requires forall j :: 0 <= j < |xs| ==> !p(xs[j])
    ensures Filter(xs, p) == []
  {
    if |xs| > 0 {
      FilterNone(xs[..|xs| - 1], p);
    }
  }

  /** The position of the first occurrence of `x` in `xs`. */
  function FirstPos<T(==,!new)>(xs: seq<T>, x: T): (i: nat)
    requires x in xs
    ensures i < |xs| && xs[i] == x && forall j :: 0 <= j < i ==> xs[j] != x
  {
    if xs[0] == x then 0 else 1 + FirstPos(xs[1..], x)
  }

  /** `xs` without the repeats of an element, first occurrences kept: the `seen` set loop. */
  function Dedup<T(==,!new)>(xs: seq<T>): (r: seq<T>)
    ensures |r| <= |xs|
    ensures forall x :: x in r <==> x in xs
    ensures forall i, j :: 0 <= i < j < |r| ==> r[i] != r[j]
  {
    if |xs| == 0 then []
    else
      var front := Dedup(xs[..|xs| - 1]);
      var x := xs[|xs| - 1];
      assert forall y :: y in xs <==> y in xs[..|xs| - 1] || y == x;
      if x in front then front else front + [x]
  }

  /** The `seen` set loop: each element appended unless already seen. */
  method DedupSeen<T(==,!new)>(xs: seq<T>) returns (r: seq<T>)
    ensures r == Dedup(xs)
  {
    var seen: set<T> := {};
    r := [];
    var i := 0;
    while i < |xs|
      invariant 0 <= i <= |xs|
      invariant r == Dedup(xs[..i])
      invariant forall x :: x in seen <==> x in r
    {
      assert xs[..i + 1][..i] == xs[..i];
      if xs[i] !in seen {
        seen := seen + {xs[i]};
        r := r + [xs[i]];
      }
      i := i + 1;
    }
    assert xs[..i] == xs;
  }

  /** Appending an element does not move the first occurrence of an element already present. */
  lemma FirstPosSnoc<T(!new)>(xs: seq<T>, x: T, y: T)
    requires y in xs
    ensures FirstPos(xs + [x], y) == FirstPos(xs, y)
  {
    var i := FirstPos(xs, y);
    var k := FirstPos(xs + [x], y);
    assert (xs + [x])[i] == y;
    assert k <= i;
    assert k < |xs| && xs[k] == y;
  }

  /** The kept elements come in the order of their first occurrences. */
  lemma {:induction false} DedupKeepsFirstOrder<T(!new)>(xs: seq<T>)
    ensures forall i, j :: 0 <= i < j < |Dedup(xs)| ==> FirstPos(xs, Dedup(xs)[i]) < FirstPos(xs, Dedup(xs)[j])
  {
    if |xs| > 0 {
      var front := xs[..|xs| - 1];
      var x := xs[|xs| - 1];
      assert xs == front + [x];
      DedupKeepsFirstOrder(front);
      var d := Dedup(front);
      forall y | y in d
        ensures FirstPos(xs, y) == FirstPos(front, y)
      {
        FirstPosSnoc(front, x, y);
      }
      if x !in d {
        assert FirstPos(xs, x) == |front| by {
          forall j | 0 <= j < |front|
            ensures xs[j] != x
          {
            assert front[j] in d;
          }
        }
      }
    }
  }

  /** A sequence without repeats is its own deduplication. */
  lemma {:induction false} DedupDistinct<T(!new)>(xs: seq<T>)
    requires forall i, j :: 0 <= i < j < |xs| ==> xs[i] != xs[j]
    ensures Dedup(xs) == xs
  {
    if |xs| > 0 {
      var front := xs[..|xs| - 1];
      DedupDistinct(front);
      assert xs[|xs| - 1] !in front;
      assert front + [xs[|xs| - 1]] == xs;
    }
  }
}
