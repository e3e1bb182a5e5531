/**
 * Keeping the first element of each identity: the de-duplication step of the headline filter,
 * stated for any element type, any test an element must pass and any identity function.
 * An identity is recorded only once its element has passed the test.
 */
module Dedup {

  /** The elements of `xs` that pass `keep` and whose identity is neither in `seen` nor taken earlier. */
  function FirstOfEach<T, K(==)>(xs: seq<T>, keep: T -> bool, key: T -> K, seen: set<K>): seq<T>
  {
    if xs == [] then []
    else if keep(xs[0]) && key(xs[0]) !in seen then
      [xs[0]] + FirstOfEach(xs[1..], keep, key, seen + {key(xs[0])})
    else
      FirstOfEach(xs[1..], keep, key, seen)
  }

  /** The identities of a sequence of elements. */
  function KeySet<T, K(==)>(xs: seq<T>, key: T -> K): set<K>
  {
    if xs == [] then {} else {key(xs[0])} + KeySet(xs[1..], key)
  }

  /** The elements that pass `keep`, in order. */
  function Filter<T>(xs: seq<T>, keep: T -> bool): (r: seq<T>)
    ensures forall i :: 0 <= i < |r| ==> keep(r[i])
  {
    if xs == [] then []
    else if keep(xs[0]) then [xs[0]] + Filter(xs[1..], keep)
    else Filter(xs[1..], keep)
  }

  /** `a` is `b` with some elements left out, the others in their original order. */
  predicate IsSubsequence<T(==)>(a: seq<T>, b: seq<T>)
    decreases |b|
  {
    a == [] || (b != [] && ((a[0] == b[0] && IsSubsequence(a[1..], b[1..])) || IsSubsequence(a, b[1..])))
  }

  /** What is kept is a subsequence of the input: nothing invented, input order kept. */
  lemma {:induction false} FirstOfEachIsSubsequence<T, K>(xs: seq<T>, keep: T -> bool, key: T -> K, seen: set<K>)
    ensures IsSubsequence(FirstOfEach(xs, keep, key, seen), xs)
    decreases |xs|
  {
    if xs != [] {
      if keep(xs[0]) && key(xs[0]) !in seen {
        FirstOfEachIsSubsequence(xs[1..], keep, key, seen + {key(xs[0])});
      } else {
        FirstOfEachIsSubsequence(xs[1..], keep, key, seen);
      }
    }
  }

  /** Every kept element passes the test and has an identity that was not already seen. */
  lemma {:induction false} FirstOfEachSound<T, K>(xs: seq<T>, keep: T -> bool, key: T -> K, seen: set<K>)
    ensures forall x :: x in FirstOfEach(xs, keep, key, seen) ==> keep(x) && key(x) !in seen
    decreases |xs|
  {
    if xs != [] {
      var k := key(xs[0]);
      if keep(xs[0]) && k !in seen {
        FirstOfEachSound(xs[1..], keep, key, seen + {k});
        assert FirstOfEach(xs, keep, key, seen) == [xs[0]] + FirstOfEach(xs[1..], keep, key, seen + {k});
      } else {
        FirstOfEachSound(xs[1..], keep, key, seen);
      }
    }
  }

  /** No two kept elements share an identity. */
  lemma {:induction false} FirstOfEachDistinct<T, K>(xs: seq<T>, keep: T -> bool, key: T -> K, seen: set<K>)
    ensures forall i, j :: 0 <= i < j < |FirstOfEach(xs, keep, key, seen)| ==>
      key(FirstOfEach(xs, keep, key, seen)[i]) != key(FirstOfEach(xs, keep, key, seen)[j])
    decreases |xs|
  {
    if xs != [] {
      var k := key(xs[0]);
      if keep(xs[0]) && k !in seen {
        FirstOfEachDistinct(xs[1..], keep, key, seen + {k});
        FirstOfEachSound(xs[1..], keep, key, seen + {k});
        var rest := FirstOfEach(xs[1..], keep, key, seen + {k});
        var r := FirstOfEach(xs, keep, key, seen);
        assert r == [xs[0]] + rest;
        forall i, j | 0 <= i < j < |r| ensures key(r[i]) != key(r[j]) {
          assert r[j] == rest[j - 1];
          assert rest[j - 1] in rest;
          if i > 0 {
            assert r[i] == rest[i - 1];
          }
        }
      } else {
        FirstOfEachDistinct(xs[1..], keep, key, seen);
      }
    }
  }

  /**
   * The first passing element of each identity is kept: an element that passes, whose identity
   * is not in `seen` and which no earlier passing element shares its identity with, is in the result.
   */
  lemma {:induction false} FirstOfEachKeepsFirst<T, K>(xs: seq<T>, keep: T -> bool, key: T -> K, seen: set<K>, p: nat)
    requires p < |xs| && keep(xs[p]) && key(xs[p]) !in seen
    requires forall q :: 0 <= q < p && keep(xs[q]) ==> key(xs[q]) != key(xs[p])
    ensures xs[p] in FirstOfEach(xs, keep, key, seen)
    decreases p
  {
    var taken := keep(xs[0]) && key(xs[0]) !in seen;
    var seen' := if taken then seen + {key(xs[0])} else seen;
    assert FirstOfEach(xs, keep, key, seen) ==
      (if taken then [xs[0]] else []) + FirstOfEach(xs[1..], keep, key, seen');
    if p > 0 {
      forall q | 0 <= q < p - 1 && keep(xs[1..][q]) ensures key(xs[1..][q]) != key(xs[1..][p - 1]) {
        assert xs[1..][q] == xs[q + 1];
      }
      FirstOfEachKeepsFirst(xs[1..], keep, key, seen', p - 1);
    }
  }

  /**
   * Exactly one element per identity survives: the identities kept are those of the passing
   * elements, minus the ones already seen.
   */
  lemma {:induction false} FirstOfEachKeys<T, K>(xs: seq<T>, keep: T -> bool, key: T -> K, seen: set<K>)
    ensures KeySet(FirstOfEach(xs, keep, key, seen), key) == KeySet(Filter(xs, keep), key) - seen
    decreases |xs|
  {
    if xs != [] {
      var k := key(xs[0]);
      if keep(xs[0]) && k !in seen {
        FirstOfEachKeys(xs[1..], keep, key, seen + {k});
        KeySetCons(xs[0], FirstOfEach(xs[1..], keep, key, seen + {k}), key);
        KeySetCons(xs[0], Filter(xs[1..], keep), key);
      } else if keep(xs[0]) {
        FirstOfEachKeys(xs[1..], keep, key, seen);
        KeySetCons(xs[0], Filter(xs[1..], keep), key);
      } else {
        FirstOfEachKeys(xs[1..], keep, key, seen);
      }
    }
  }

  lemma KeySetCons<T, K>(x: T, xs: seq<T>, key: T -> K)
    ensures KeySet([x] + xs, key) == {key(x)} + KeySet(xs, key)
  {
    assert ([x] + xs)[0] == x && ([x] + xs)[1..] == xs;
  }

  lemma {:induction false} KeySetAppendOne<T, K>(xs: seq<T>, x: T, key: T -> K)
    ensures KeySet(xs + [x], key) == KeySet(xs, key) + {key(x)}
  {
    if xs == [] {
      assert xs + [x] == [x] && [x][1..] == [];
    } else {
      KeySetAppendOne(xs[1..], x, key);
      assert (xs + [x])[0] == xs[0] && (xs + [x])[1..] == xs[1..] + [x];
    }
  }

  /**
   * Elements that fail the test have no effect at all on what is kept: in particular a failing
   * copy of an identity does not block a later passing copy.
   */
  lemma {:induction false} FirstOfEachIgnoresFailing<T, K>(xs: seq<T>, keep: T -> bool, key: T -> K, seen: set<K>)
    ensures FirstOfEach(xs, keep, key, seen) == FirstOfEach(Filter(xs, keep), keep, key, seen)
    decreases |xs|
  {
    if xs != [] {
      if keep(xs[0]) {
        var k := key(xs[0]);
        FirstOfEachIgnoresFailing(xs[1..], keep, key, if k in seen then seen else seen + {k});
        assert Filter(xs, keep)[1..] == Filter(xs[1..], keep);
      } else {
        FirstOfEachIgnoresFailing(xs[1..], keep, key, seen);
      }
    }
  }

  /** One step of the filter, in the form a loop takes it. */
  lemma FirstOfEachCons<T, K>(x: T, tail: seq<T>, keep: T -> bool, key: T -> K, seen: set<K>)
    ensures FirstOfEach([x] + tail, keep, key, seen) ==
      if keep(x) && key(x) !in seen then [x] + FirstOfEach(tail, keep, key, seen + {key(x)})
      else FirstOfEach(tail, keep, key, seen)
  {
    assert ([x] + tail)[0] == x && ([x] + tail)[1..] == tail;
  }

  /** Filtering two stretches in a row: the second starts from the identities the first kept. */
  lemma {:induction false} FirstOfEachAppend<T, K>(a: seq<T>, b: seq<T>, keep: T -> bool, key: T -> K, seen: set<K>)
    ensures FirstOfEach(a + b, keep, key, seen) ==
      FirstOfEach(a, keep, key, seen) + FirstOfEach(b, keep, key, seen + KeySet(FirstOfEach(a, keep, key, seen), key))
    decreases |a|
  {
    if a == [] {
      assert a + b == b;
      assert seen + KeySet([], key) == seen;
    } else if keep(a[0]) && key(a[0]) !in seen {
      AppendTaken(a, b, keep, key, seen);
    } else {
      var x, a' := a[0], a[1..];
      FirstOfEachAppend(a', b, keep, key, seen);
      assert (a + b)[0] == x && (a + b)[1..] == a' + b;
    }
  }

  /** The step of FirstOfEachAppend where the head of `a` is kept. */
  lemma {:induction false} AppendTaken<T, K>(a: seq<T>, b: seq<T>, keep: T -> bool, key: T -> K, seen: set<K>)
    requires a != [] && keep(a[0]) && key(a[0]) !in seen
    ensures FirstOfEach(a + b, keep, key, seen) ==
      FirstOfEach(a, keep, key, seen) + FirstOfEach(b, keep, key, seen + KeySet(FirstOfEach(a, keep, key, seen), key))
    decreases |a|, 0
  {
    var x, a' := a[0], a[1..];
    var seen' := seen + {key(x)};
    var ra := FirstOfEach(a', keep, key, seen');
    FirstOfEachAppend(a', b, keep, key, seen');
    assert FirstOfEach(a + b, keep, key, seen) == [x] + FirstOfEach(a' + b, keep, key, seen') by {
      assert (a + b)[0] == x && (a + b)[1..] == a' + b;
    }
    assert seen' + KeySet(ra, key) == seen + KeySet([x] + ra, key) by {
      KeySetCons(x, ra, key);
    }
  }
}
