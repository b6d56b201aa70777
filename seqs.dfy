/**
 * The array methods the application uses (`filter`, `find`, `findIndex`,
 * `some`), with callbacks that may throw, and what they guarantee.
 */
module Seqs {
  import opened Js

  /** `xs.filter(p)` for a callback that cannot throw. */
  function Filter<T>(p: T -> bool, xs: seq<T>): seq<T> {
    if xs == [] then [] else (if p(xs[0]) then [xs[0]] else []) + Filter(p, xs[1..])
  }

  /** `xs.filter(test)` where the test may throw: every element is tested in
      order, and the first throw aborts the whole call. */
  function FilterR<T>(test: T -> Result<bool>, xs: seq<T>): Result<seq<T>> {
    if xs == [] then Ok([])
    else
      var keep :- test(xs[0]);
      var rest :- FilterR(test, xs[1..]);
      Ok(if keep then [xs[0]] + rest else rest)
  }

  /** The index of the first element passing `test`, or `None`; a throw
      before any element passes aborts the search (`find`, `findIndex` and
      `some` share this walk). */
  function FindR<T>(test: T -> Result<bool>, xs: seq<T>): (r: Result<Option<nat>>)
    ensures r.Ok? && r.value.Some? ==> r.value.value < |xs|
  {
    if xs == [] then Ok(None)
    else
      var hit :- test(xs[0]);
      if hit then Ok(Some(0))
      else
        var rest :- FindR(test, xs[1..]);
        Ok(if rest.Some? then Some(rest.value + 1) else None)
  }

  /** `sub` can be obtained from `s` by deleting elements. */
  ghost predicate IsSubsequence<T>(sub: seq<T>, s: seq<T>)
    decreases |s|
  {
    sub == []
    || (s != [] && ((sub[0] == s[0] && IsSubsequence(sub[1..], s[1..])) || IsSubsequence(sub, s[1..])))
  }

  /** A filter keeps, in their order, exactly the elements that pass. */
  lemma {:induction false} FilterSpec<T>(p: T -> bool, xs: seq<T>)
    ensures IsSubsequence(Filter(p, xs), xs)
    ensures forall x | x in Filter(p, xs) :: p(x) && x in xs
    ensures forall x | x in xs && p(x) :: x in Filter(p, xs)
  {
    if xs != [] {
      FilterSpec(p, xs[1..]);
      var r := Filter(p, xs);
      assert r == (if p(xs[0]) then [xs[0]] else []) + Filter(p, xs[1..]);
      if p(xs[0]) {
        assert r[0] == xs[0] && r[1..] == Filter(p, xs[1..]);
      } else {
        assert r == Filter(p, xs[1..]);
      }
      assert IsSubsequence(r, xs);
      forall x | x in xs && p(x)
        ensures x in r
      {
        if x != xs[0] {
          assert x in xs[1..];
        }
      }
    }
  }

  /** A throwing filter succeeds exactly when no test throws, and then keeps
      the elements whose test answered true (`p` names that test). */
  lemma {:induction false} FilterRSpec<T>(test: T -> Result<bool>, xs: seq<T>, p: T -> bool)
    requires forall i | 0 <= i < |xs| :: p(xs[i]) <==> test(xs[i]) == Ok(true)
    ensures FilterR(test, xs).Ok? <==> forall i | 0 <= i < |xs| :: test(xs[i]).Ok?
    ensures FilterR(test, xs).Ok? ==> FilterR(test, xs).value == Filter(p, xs)
  {
    if xs != [] {
      assert forall i | 1 <= i < |xs| :: xs[i] == xs[1..][i - 1];
      FilterRSpec(test, xs[1..], p);
      if !(forall i | 0 <= i < |xs| :: test(xs[i]).Ok?) {
        var i :| 0 <= i < |xs| && !test(xs[i]).Ok?;
        if i > 0 {
          assert !test(xs[1..][i - 1]).Ok?;
        }
      }
    }
  }

  /** Filtering twice is filtering once by both tests. */
  lemma {:induction false} FilterTwice<T>(p: T -> bool, q: T -> bool, xs: seq<T>)
    ensures Filter(q, Filter(p, xs)) == Filter(x => p(x) && q(x), xs)
  {
    if xs != [] {
      FilterTwice(p, q, xs[1..]);
      var head := if p(xs[0]) then [xs[0]] else [];
      assert Filter(p, xs) == head + Filter(p, xs[1..]);
      FilterAppend(q, head, Filter(p, xs[1..]));
    }
  }

  lemma {:induction false} FilterAppend<T>(p: T -> bool, a: seq<T>, b: seq<T>)
    ensures Filter(p, a + b) == Filter(p, a) + Filter(p, b)
  {
    if a != [] {
      FilterAppend(p, a[1..], b);
      assert (a + b)[1..] == a[1..] + b;
    } else {
      assert a + b == b;
    }
  }

  /** Filtering one more element at the end adds it exactly when it passes. */
  lemma FilterSnoc<T>(p: T -> bool, xs: seq<T>, x: T)
    ensures Filter(p, xs + [x]) == Filter(p, xs) + (if p(x) then [x] else [])
  {
    FilterAppend(p, xs, [x]);
    assert [x][1..] == [];
  }

  /** Nothing passes, nothing is kept. */
  lemma {:induction false} FilterNone<T>(p: T -> bool, xs: seq<T>)
    requires forall i | 0 <= i < |xs| :: !p(xs[i])
    ensures Filter(p, xs) == []
  {
    if xs != [] {
      FilterNone(p, xs[1..]);
    }
  }

  /** A filter every element passes keeps the whole sequence. */
  lemma {:induction false} FilterAll<T>(p: T -> bool, xs: seq<T>)
    requires forall i | 0 <= i < |xs| :: p(xs[i])
    ensures Filter(p, xs) == xs
  {
    if xs != [] {
      assert forall i | 1 <= i < |xs| :: xs[i] == xs[1..][i - 1];
      FilterAll(p, xs[1..]);
    }
  }

  /** Whatever holds of every element holds of every element a filter
      keeps. */
  lemma {:induction false} FilterPreserves<T>(p: T -> bool, xs: seq<T>, inv: T -> bool)
    requires forall i | 0 <= i < |xs| :: inv(xs[i])
    ensures forall i | 0 <= i < |Filter(p, xs)| :: inv(Filter(p, xs)[i])
  {
    if xs != [] {
      assert forall i | 1 <= i < |xs| :: xs[i] == xs[1..][i - 1];
      FilterPreserves(p, xs[1..], inv);
      var head := if p(xs[0]) then [xs[0]] else [];
      assert Filter(p, xs) == head + Filter(p, xs[1..]);
    }
  }

  /** Filtering by `p` and then by `q` is filtering once by a test `pq`
      that holds exactly when both do. */
  lemma FilterBoth<T>(p: T -> bool, q: T -> bool, pq: T -> bool, xs: seq<T>)
    requires forall i | 0 <= i < |xs| :: pq(xs[i]) == (p(xs[i]) && q(xs[i]))
    ensures Filter(q, Filter(p, xs)) == Filter(pq, xs)
    ensures IsSubsequence(Filter(pq, xs), xs)
  {
    FilterTwice(p, q, xs);
    FilterExt(x => p(x) && q(x), pq, xs);
    FilterSpec(pq, xs);
  }

  /** Two tests that agree on every element filter alike. */
  lemma {:induction false} FilterExt<T>(p: T -> bool, q: T -> bool, xs: seq<T>)
    requires forall i | 0 <= i < |xs| :: p(xs[i]) == q(xs[i])
    ensures Filter(p, xs) == Filter(q, xs)
  {
    if xs != [] {
      assert forall i | 1 <= i < |xs| :: xs[i] == xs[1..][i - 1];
      FilterExt(p, q, xs[1..]);
    }
  }

  /** The search stops at the first element that passes: every earlier
      element was tested without throwing and failed. */
  lemma {:induction false} FindRSpec<T>(test: T -> Result<bool>, xs: seq<T>)
    ensures FindR(test, xs).Ok? && FindR(test, xs).value.Some? ==>
      var k := FindR(test, xs).value.value;
      test(xs[k]) == Ok(true) && forall j | 0 <= j < k :: test(xs[j]) == Ok(false)
    ensures FindR(test, xs) == Ok(None) ==> forall j | 0 <= j < |xs| :: test(xs[j]) == Ok(false)
    ensures FindR(test, xs).Err? ==> exists j | 0 <= j < |xs| :: test(xs[j]).Err?
  {
    if xs != [] {
      FindRSpec(test, xs[1..]);
      assert forall j | 1 <= j < |xs| :: xs[j] == xs[1..][j - 1];
      if FindR(test, xs).Err? && test(xs[0]).Ok? {
        var j :| 0 <= j < |xs[1..]| && test(xs[1..][j]).Err?;
        assert test(xs[j + 1]).Err?;
      }
    }
  }
}
