/** Shared value types and sequence helpers used by every module of the model:
    an optional value, the filter that JavaScript's `Array.filter` and a SQL `WHERE`
    both denote, and the `OFFSET … LIMIT …` window of a paged query. */
module Common {

  datatype Option<T> = None | Some(value: T)

  /** An endpoint's outcome: the value it returns, or the error it raises. */
  datatype Result<T, E> = Ok(value: T) | Err(error: E)

  /** The elements of `xs` that satisfy `p`, in their original order. */
  function Filter<T(!new)>(xs: seq<T>, p: T -> bool): (r: seq<T>)
    ensures |r| <= |xs|
    ensures forall x :: x in r <==> x in xs && p(x)
  {
    if xs == [] then [] else (if p(xs[0]) then [xs[0]] else []) + Filter(xs[1..], p)
  }

  /** The membership property of the filter, stated by position. */
  lemma FilterByIndex<T(!new)>(xs: seq<T>, p: T -> bool)
    ensures forall i :: 0 <= i < |Filter(xs, p)| ==> Filter(xs, p)[i] in xs && p(Filter(xs, p)[i])
    ensures forall i :: 0 <= i < |xs| && p(xs[i]) ==> xs[i] in Filter(xs, p)
  {
  }

  /** Filtering distributes over concatenation: together with the one-element case
      this says the filter keeps exactly the accepted elements, in input order. */
  lemma {:induction false} FilterAppend<T(!new)>(xs: seq<T>, ys: seq<T>, p: T -> bool)
    ensures Filter(xs + ys, p) == Filter(xs, p) + Filter(ys, p)
  {
    if xs == [] {
      assert xs + ys == ys;
    } else {
      assert (xs + ys)[1..] == xs[1..] + ys;
      FilterAppend(xs[1..], ys, p);
    }
  }

  /** A filter that accepts every element returns its input unchanged. */
  lemma {:induction false} FilterKeepsAll<T(!new)>(xs: seq<T>, p: T -> bool)
    requires forall i :: 0 <= i < |xs| ==> p(xs[i])
    ensures Filter(xs, p) == xs
  {
    if xs != [] {
      FilterKeepsAll(xs[1..], p);
    }
  }

  /** Two predicates that agree on every element of `xs` select the same elements. */
  lemma {:induction false} FilterCongruent<T(!new)>(xs: seq<T>, p: T -> bool, q: T -> bool)
    requires forall i :: 0 <= i < |xs| ==> p(xs[i]) == q(xs[i])
    ensures Filter(xs, p) == Filter(xs, q)
  {
    if xs != [] {
      FilterCongruent(xs[1..], p, q);
    }
  }

  /** The index of the first element of `xs` that satisfies `p` (JavaScript's
      `Array.find`, and SQLAlchemy's `.filter(...).first()` on a table). */
  function FindFirst<T>(xs: seq<T>, p: T -> bool): (r: Option<nat>)
    ensures r.Some? ==> r.value < |xs| && p(xs[r.value])
    ensures r.Some? ==> forall j :: 0 <= j < r.value ==> !p(xs[j])
    ensures r.None? ==> forall j :: 0 <= j < |xs| ==> !p(xs[j])
  {
    if xs == [] then None
    else if p(xs[0]) then Some(0)
    else match FindFirst(xs[1..], p)
      case None => None
      case Some(k) => Some(k + 1)
  }

  /** When `i` is the first index whose element satisfies `p`, the search finds `i`. */
  lemma FindFirstIs<T>(xs: seq<T>, p: T -> bool, i: nat)
    requires i < |xs| && p(xs[i])
    requires forall j :: 0 <= j < i ==> !p(xs[j])
    ensures FindFirst(xs, p) == Some(i)
  {
  }

  /** Appending an element keeps an earlier first match, and otherwise finds the new element
      when it matches. */
  lemma FindFirstSnoc<T>(xs: seq<T>, x: T, p: T -> bool)
    ensures FindFirst(xs, p).Some? ==> FindFirst(xs + [x], p) == FindFirst(xs, p)
    ensures FindFirst(xs, p).None? && p(x) ==> FindFirst(xs + [x], p) == Some(|xs|)
    ensures FindFirst(xs, p).None? && !p(x) ==> FindFirst(xs + [x], p).None?
  {
    var ys := xs + [x];
    match FindFirst(xs, p)
    case Some(i) =>
      assert ys[i] == xs[i];
      FindFirstIs(ys, p, i);
    case None =>
      if p(x) {
        assert ys[|xs|] == x;
        FindFirstIs(ys, p, |xs|);
      } else {
        assert forall j :: 0 <= j < |ys| ==> ys[j] == if j < |xs| then xs[j] else x;
      }
  }

  /** The elements of `xs`, last first: a query's `ORDER BY … DESC` on a key that grows with
      insertion order. */
  function Reverse<T>(xs: seq<T>): (r: seq<T>)
    ensures |r| == |xs|
    ensures forall i :: 0 <= i < |xs| ==> r[i] == xs[|xs| - 1 - i]
  {
    if xs == [] then [] else Reverse(xs[1..]) + [xs[0]]
  }

  /** Reversing keeps exactly the same elements. */
  lemma ReverseMembers<T>(xs: seq<T>)
    ensures forall x :: x in Reverse(xs) <==> x in xs
  {
    var r := Reverse(xs);
    forall x | x in xs
      ensures x in r
    {
      var a :| 0 <= a < |xs| && xs[a] == x;
      assert r[|xs| - 1 - a] == x;
    }
  }

  /** The rows of a query with `.offset(skip).limit(limit)`. */
  function Page<T>(xs: seq<T>, skip: nat, limit: nat): (r: seq<T>)
    ensures |r| == if skip >= |xs| then 0 else if |xs| - skip < limit then |xs| - skip else limit
    ensures forall i :: 0 <= i < |r| ==> r[i] == xs[skip + i]
  {
    if skip >= |xs| then []
    else if |xs| - skip <= limit then xs[skip..]
    else xs[skip..skip + limit]
  }
}
