/** Sequence helpers shared by the store, the sanitiser and the tool renderers. */
module Seqs {
  import opened Wrappers

  /** The elements of `s` that satisfy `p`, in their original order (a SQL `WHERE`, a list comprehension with `if`). */
  function Filter<T>(s: seq<T>, p: T -> bool): (r: seq<T>)
    ensures |r| <= |s|
    decreases |s|
  {
    if s == [] then []
    else if p(s[0]) then [s[0]] + Filter(s[1..], p)
    else Filter(s[1..], p)
  }

  /** `[f(x) for x in s]`. */
  function Map<T, U>(s: seq<T>, f: T -> U): (r: seq<U>)
    ensures |r| == |s|
    ensures forall i :: 0 <= i < |s| ==> r[i] == f(s[i])
  {
    seq(|s|, i requires 0 <= i < |s| => f(s[i]))
  }

  /** The kept elements are exactly the elements of `s` that satisfy `p`. */
  lemma {:induction false} FilterMembers<T>(s: seq<T>, p: T -> bool)
    ensures forall i :: 0 <= i < |Filter(s, p)| ==> Filter(s, p)[i] in s && p(Filter(s, p)[i])
    ensures forall i :: 0 <= i < |s| && p(s[i]) ==> s[i] in Filter(s, p)
    decreases |s|
  {
    if s != [] {
      FilterMembers(s[1..], p);
      var r := Filter(s, p);
      var t := Filter(s[1..], p);
      assert forall x :: x in s[1..] ==> x in s;
      if p(s[0]) {
        assert r == [s[0]] + t;
        forall i | 0 <= i < |r|
          ensures r[i] in s
        {
          if i > 0 {
            assert r[i] == t[i - 1];
          }
        }
        forall i | 0 <= i < |s| && p(s[i])
          ensures s[i] in r
        {
          if i > 0 {
            assert s[i] == s[1..][i - 1];
          }
        }
      } else {
        forall i | 0 <= i < |s| && p(s[i])
          ensures s[i] in r
        {
          assert i > 0;
          assert s[i] == s[1..][i - 1];
        }
      }
    }
  }

  lemma {:induction false} FilterAppend<T>(a: seq<T>, b: seq<T>, p: T -> bool)
    ensures Filter(a + b, p) == Filter(a, p) + Filter(b, p)
    decreases |a|
  {
    if a == [] {
      assert a + b == b;
    } else {
      assert (a + b)[1..] == a[1..] + b;
      FilterAppend(a[1..], b, p);
    }
  }

  lemma {:induction false} FilterAll<T>(s: seq<T>, p: T -> bool)
    requires forall i :: 0 <= i < |s| ==> p(s[i])
    ensures Filter(s, p) == s
    decreases |s|
  {
    if s != [] {
      FilterAll(s[1..], p);
    }
  }

  /** Number of elements of `s` that satisfy `p` (what a SQL `DELETE` reports as its row count). */
  function Count<T>(s: seq<T>, p: T -> bool): nat
    decreases |s|
  {
    if s == [] then 0 else (if p(s[0]) then 1 else 0) + Count(s[1..], p)
  }

  /** The negation of a predicate (the `NOT` of a `WHERE`). */
  function Not<T>(p: T -> bool): T -> bool {
    x => !p(x)
  }

  /** Removing the elements that satisfy `p` removes exactly `Count(s, p)` of them. */
  lemma {:induction false} FilterCount<T>(s: seq<T>, p: T -> bool)
    ensures |Filter(s, Not(p))| == |s| - Count(s, p)
    decreases |s|
  {
    if s != [] {
      FilterCount(s[1..], p);
    }
  }

  function Reverse<T>(s: seq<T>): (r: seq<T>)
    ensures |r| == |s|
    ensures forall i :: 0 <= i < |s| ==> r[i] == s[|s| - 1 - i]
    decreases |s|
  {
    if s == [] then [] else Reverse(s[1..]) + [s[0]]
  }

  function Min(a: int, b: int): int { if a <= b then a else b }

  /** The first `n` elements, or all of them when there are fewer (Python's `s[:n]` for `n >= 0`). */
  function Take<T>(s: seq<T>, n: nat): (r: seq<T>)
    ensures |r| == Min(n, |s|)
    ensures r == s[..Min(n, |s|)]
  {
    if n <= |s| then s[..n] else s
  }

  /** The last `n` elements, or all of them when there are fewer (Python's `s[-n:]` for `n > 0`). */
  function Last<T>(s: seq<T>, n: nat): (r: seq<T>)
    ensures |r| == Min(n, |s|)
    ensures r == s[|s| - Min(n, |s|)..]
  {
    if n <= |s| then s[|s| - n..] else s
  }

  /** A concatenation splits back into its two parts. */
  lemma SplitAppend<T>(h: seq<T>, t: seq<T>)
    ensures (h + t)[..|h|] == h && (h + t)[|h|..] == t
  {
  }

  /** `R` holds between every element of `s` and every later element (distinct keys, ascending ids). */
  predicate Pairwise<T>(s: seq<T>, R: (T, T) -> bool) {
    forall i, j :: 0 <= i < j < |s| ==> R(s[i], s[j])
  }

  /** Keeping some elements of a sequence keeps every relation between earlier and later elements. */
  lemma {:induction false} FilterPairwise<T>(s: seq<T>, p: T -> bool, R: (T, T) -> bool)
    requires Pairwise(s, R)
    ensures Pairwise(Filter(s, p), R)
    decreases |s|
  {
    if s != [] {
      FilterPairwise(s[1..], p, R);
      if p(s[0]) {
        FilterMembers(s[1..], p);
        ConsPairwise(s[0], Filter(s[1..], p), s[1..], R);
        assert Filter(s, p) == [s[0]] + Filter(s[1..], p);
      }
    }
  }

  /** An element related to everything of `rest` can go in front of a pairwise `t` drawn from `rest`. */
  lemma ConsPairwise<T>(x: T, t: seq<T>, rest: seq<T>, R: (T, T) -> bool)
    requires Pairwise(t, R) && forall i :: 0 <= i < |t| ==> t[i] in rest
    requires forall i :: 0 <= i < |rest| ==> R(x, rest[i])
    ensures Pairwise([x] + t, R)
  {
    var r := [x] + t;
    forall i, j | 0 <= i < j < |r|
      ensures R(r[i], r[j])
    {
      assert r[j] == t[j - 1];
      if i == 0 {
        var k :| 0 <= k < |rest| && rest[k] == t[j - 1];
      } else {
        assert r[i] == t[i - 1];
      }
    }
  }

  /** Appending an element that every present element relates to keeps the relation pairwise. */
  lemma AppendPairwise<T>(s: seq<T>, x: T, R: (T, T) -> bool)
    requires Pairwise(s, R)
    requires forall i :: 0 <= i < |s| ==> R(s[i], x)
    ensures Pairwise(s + [x], R)
  {
    var t := s + [x];
    forall i, j | 0 <= i < j < |t|
      ensures R(t[i], t[j])
    {
      if j == |s| {
        assert t[i] == s[i] && t[j] == x;
      } else {
        assert t[i] == s[i] && t[j] == s[j];
      }
    }
  }

  /** The first element of `s` that satisfies `p`, as a `SELECT ... WHERE` with `fetchone`. */
  function Find<T>(s: seq<T>, p: T -> bool): (r: Option<T>)
    ensures r.Some? ==> r.value in s && p(r.value)
    ensures r.None? <==> forall i :: 0 <= i < |s| ==> !p(s[i])
    decreases |s|
  {
    if s == [] then None
    else if p(s[0]) then Some(s[0])
    else Find(s[1..], p)
  }

  /** Searching a sequence with one more element at the end finds the same element, or the new one when nothing earlier matched. */
  lemma {:induction false} FindAppend<T>(s: seq<T>, x: T, p: T -> bool)
    ensures Find(s + [x], p) == if Find(s, p).Some? then Find(s, p) else if p(x) then Some(x) else None
    decreases |s|
  {
    if s == [] {
      assert s + [x] == [x];
    } else {
      assert (s + [x])[1..] == s[1..] + [x];
      FindAppend(s[1..], x, p);
    }
  }

  /** When no element satisfies `p`, nothing is kept. */
  lemma {:induction false} FilterNone<T>(s: seq<T>, p: T -> bool)
    requires forall i :: 0 <= i < |s| ==> !p(s[i])
    ensures Filter(s, p) == []
    ensures Count(s, p) == 0
    decreases |s|
  {
    if s != [] {
      FilterNone(s[1..], p);
    }
  }

  /** Filtering first by a weaker condition `q` and then by `p` is filtering by `p`. */
  lemma {:induction false} FilterFilter<T>(s: seq<T>, q: T -> bool, p: T -> bool)
    requires forall i :: 0 <= i < |s| && p(s[i]) ==> q(s[i])
    ensures Filter(Filter(s, q), p) == Filter(s, p)
    decreases |s|
  {
    if s != [] {
      FilterFilter(s[1..], q, p);
    }
  }

  /** Searching after removing only elements that `p` rejects finds the same element. */
  lemma {:induction false} FindFilter<T>(s: seq<T>, q: T -> bool, p: T -> bool)
    requires forall i :: 0 <= i < |s| && p(s[i]) ==> q(s[i])
    ensures Find(Filter(s, q), p) == Find(s, p)
    decreases |s|
  {
    if s != [] {
      FindFilter(s[1..], q, p);
    }
  }

  /** Searching a sequence rewritten element by element, where the rewrite keeps what `p` sees and
      maps every match by `f`, finds the image of the original match. */
  lemma {:induction false} FindRewritten<T>(s: seq<T>, t: seq<T>, p: T -> bool, f: T -> T)
    requires |s| == |t|
    requires forall i :: 0 <= i < |s| ==> p(t[i]) == p(s[i])
    requires forall i :: 0 <= i < |s| && p(s[i]) ==> t[i] == f(s[i])
    ensures Find(t, p) == if Find(s, p).Some? then Some(f(Find(s, p).value)) else None
    decreases |s|
  {
    if s != [] {
      FindRewritten(s[1..], t[1..], p, f);
    }
  }
}
