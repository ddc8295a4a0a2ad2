/** Option and Result, and the few facts about sequences that several components share. */
module Sequences {

  datatype Option<+T> = None | Some(value: T)

  datatype Result<+T, +E> = Success(value: T) | Failure(error: E)

  predicate Distinct<T(==)>(s: seq<T>) {
    forall i, j :: 0 <= i < j < |s| ==> s[i] != s[j]
  }

  function SetOf<T>(s: seq<T>): set<T> {
    set x | x in s
  }

  /** A sequence without repetition has as many elements as the set of its elements, and conversely. */
  lemma {:induction false} DistinctCardinality<T>(s: seq<T>)
    ensures |SetOf(s)| <= |s|
    ensures Distinct(s) <==> |SetOf(s)| == |s|
  {
    if s == [] {
      assert SetOf(s) == {};
    } else {
      var n := |s| - 1;
      DistinctCardinality(s[..n]);
      assert s == s[..n] + [s[n]];
      assert SetOf(s) == SetOf(s[..n]) + {s[n]};
      if s[n] in s[..n] {
        assert SetOf(s) == SetOf(s[..n]);
      } else {
        assert forall i | 0 <= i < n :: s[..n][i] == s[i];
        assert Distinct(s) <==> Distinct(s[..n]);
      }
    }
  }

  lemma DistinctSplitLast<T>(s: seq<T>)
    requires s != [] && Distinct(s)
    ensures Distinct(s[..|s| - 1]) && s[|s| - 1] !in s[..|s| - 1]
    ensures SetOf(s) == SetOf(s[..|s| - 1]) + {s[|s| - 1]}
  {
    assert s == s[..|s| - 1] + [s[|s| - 1]];
  }

  lemma DistinctPrefix<T>(a: seq<T>, b: seq<T>)
    requires Distinct(a + b)
    ensures Distinct(a)
    ensures forall x | x in b :: x !in a
  {
    assert forall i | 0 <= i < |a| :: (a + b)[i] == a[i];
    assert forall i | 0 <= i < |b| :: (a + b)[|a| + i] == b[i];
  }

  /** `a` arises from `b` by dropping elements. */
  predicate Subseq<T(==)>(a: seq<T>, b: seq<T>) {
    a == [] || (b != [] && if a[|a| - 1] == b[|b| - 1] then Subseq(a[..|a| - 1], b[..|b| - 1])
                           else Subseq(a, b[..|b| - 1]))
  }

  lemma {:induction false} SubseqSnoc<T>(a: seq<T>, b: seq<T>, x: T)
    requires Subseq(a, b)
    ensures Subseq(a + [x], b + [x])
  {
    assert (a + [x])[..|a|] == a && (b + [x])[..|b|] == b;
  }

  lemma {:induction false} SubseqDropLast<T>(a: seq<T>, b: seq<T>)
    requires a != [] && Subseq(a, b)
    ensures Subseq(a[..|a| - 1], b)
    decreases |b|, 0
  {
    var a', b' := a[..|a| - 1], b[..|b| - 1];
    assert b == b' + [b[|b| - 1]];
    if a[|a| - 1] == b[|b| - 1] {
      SubseqSkip(a', b', b[|b| - 1]);
    } else {
      SubseqDropLast(a, b');
      SubseqSkip(a', b', b[|b| - 1]);
    }
  }

  lemma {:induction false} SubseqSkip<T>(a: seq<T>, b: seq<T>, x: T)
    requires Subseq(a, b)
    ensures Subseq(a, b + [x])
    decreases |b|, 1
  {
    assert (b + [x])[..|b|] == b;
    if a != [] && a[|a| - 1] == x {
      SubseqDropLast(a, b);
    }
  }

  lemma {:induction false} SubseqRefl<T>(a: seq<T>)
    ensures Subseq(a, a)
  {
    if a != [] {
      SubseqRefl(a[..|a| - 1]);
    }
  }

  lemma {:induction false} SubseqConcat<T>(a: seq<T>, b: seq<T>, c: seq<T>, d: seq<T>)
    requires Subseq(a, b) && Subseq(c, d)
    ensures Subseq(a + c, b + d)
    decreases |d|
  {
    if d == [] {
      assert a + c == a && b + d == b;
    } else {
      var x, d' := d[|d| - 1], d[..|d| - 1];
      assert b + d == (b + d') + [x];
      if c != [] && c[|c| - 1] == x {
        SubseqConcat(a, b, c[..|c| - 1], d');
        SubseqSnoc(a + c[..|c| - 1], b + d', x);
        assert a + c == (a + c[..|c| - 1]) + [x];
      } else {
        SubseqConcat(a, b, c, d');
        SubseqSkip(a + c, b + d', x);
      }
    }
  }

  /** Dropping elements keeps membership and freedom from repetition. */
  lemma {:induction false} SubseqKeeps<T>(a: seq<T>, b: seq<T>)
    requires Subseq(a, b)
    ensures forall x :: x in a ==> x in b
    ensures Distinct(b) ==> Distinct(a)
    ensures |a| <= |b|
    decreases |b|
  {
    if a != [] {
      var b' := b[..|b| - 1];
      assert b == b' + [b[|b| - 1]];
      if a[|a| - 1] == b[|b| - 1] {
        var a' := a[..|a| - 1];
        assert a == a' + [a[|a| - 1]];
        SubseqKeeps(a', b');
        if Distinct(b) {
          assert a[|a| - 1] !in b' by { assert forall i | 0 <= i < |b'| :: b'[i] == b[i]; }
          forall i, j | 0 <= i < j < |a|
            ensures a[i] != a[j]
          {
            assert a'[i] == a[i];
            if j < |a'| {
              assert a'[j] == a[j];
            } else {
              assert a'[i] in a';
            }
          }
        }
      } else {
        SubseqKeeps(a, b');
      }
    }
  }

  lemma {:induction false} SubseqTail<T>(a: seq<T>, b: seq<T>)
    requires Subseq(a, b) && a != []
    ensures Subseq(a[1..], b[1..])
    decreases |b|
  {
    var b' := b[..|b| - 1];
    if |a| == 1 {
      assert a[1..] == [];
    } else if a[|a| - 1] == b[|b| - 1] {
      SubseqTail(a[..|a| - 1], b');
      assert a[1..][..|a| - 2] == a[..|a| - 1][1..] && b[1..][..|b| - 2] == b'[1..];
    } else {
      SubseqTail(a, b');
      SubseqKeeps(a, b');
      assert b[1..][..|b| - 2] == b'[1..];
    }
  }

  /** The elements of `s` that satisfy `p`, in order. */
  function Filter<T>(s: seq<T>, p: T -> bool): seq<T> {
    if s == [] then []
    else
      var rest := Filter(s[..|s| - 1], p);
      if p(s[|s| - 1]) then rest + [s[|s| - 1]] else rest
  }

  lemma {:induction false} FilterConcat<T>(a: seq<T>, b: seq<T>, p: T -> bool)
    ensures Filter(a + b, p) == Filter(a, p) + Filter(b, p)
  {
    if b == [] {
      assert a + b == a;
    } else {
      assert (a + b)[..|a + b| - 1] == a + b[..|b| - 1];
      FilterConcat(a, b[..|b| - 1], p);
    }
  }

  lemma FilterOne<T>(x: T, p: T -> bool)
    ensures Filter([x], p) == if p(x) then [x] else []
  {
    var s := [x];
    assert s[..|s| - 1] == [] && [] + [x] == [x];
  }

  function RemoveAt<T>(s: seq<T>, i: nat): (r: seq<T>)
    requires i < |s|
    ensures |r| == |s| - 1
  {
    s[..i] + s[i + 1..]
  }

  /** Removing one element from a sequence removes it from a filtered view exactly if it is seen there. */
  lemma FilterRemoveAt<T>(s: seq<T>, i: nat, p: T -> bool)
    requires i < |s|
    ensures !p(s[i]) ==> Filter(RemoveAt(s, i), p) == Filter(s, p)
    ensures p(s[i]) && (forall k | 0 <= k < i :: !p(s[k])) ==> Filter(s, p) == [s[i]] + Filter(RemoveAt(s, i), p)
  {
    var before, after := s[..i], s[i + 1..];
    assert s == before + ([s[i]] + after);
    FilterConcat(before, [s[i]] + after, p);
    FilterConcat([s[i]], after, p);
    FilterConcat(before, after, p);
    FilterOne(s[i], p);
    assert p(s[i]) && (forall k | 0 <= k < i :: !p(s[k])) ==> Filter(before, p) == [] by {
      if forall k | 0 <= k < i :: !p(s[k]) {
        FilterNone(before, p);
      }
    }
    assert [] + Filter(after, p) == Filter(after, p);
  }

  lemma {:induction false} FilterNone<T>(s: seq<T>, p: T -> bool)
    requires forall x | x in s :: !p(x)
    ensures Filter(s, p) == []
  {
    if s != [] {
      FilterNone(s[..|s| - 1], p);
    }
  }

  lemma {:induction false} FilterIsSubseq<T>(s: seq<T>, p: T -> bool)
    ensures Subseq(Filter(s, p), s)
  {
    if s != [] {
      var s', x := s[..|s| - 1], s[|s| - 1];
      FilterIsSubseq(s', p);
      assert s == s' + [x];
      if p(x) {
        SubseqSnoc(Filter(s', p), s', x);
      } else {
        SubseqSkip(Filter(s', p), s', x);
      }
    }
  }

  lemma {:induction false} FilterElements<T>(s: seq<T>, p: T -> bool)
    ensures forall x | x in Filter(s, p) :: x in s && p(x)
    ensures forall x | x in s && p(x) :: x in Filter(s, p)
  {
    if s != [] {
      FilterElements(s[..|s| - 1], p);
      assert s == s[..|s| - 1] + [s[|s| - 1]];
    }
  }

  lemma SharedIsRepeated<T>(a: seq<T>, b: seq<T>, x: T)
    requires x in a && x in b
    ensures !Distinct(a + b)
  {
    var m :| 0 <= m < |a| && a[m] == x;
    var n :| 0 <= n < |b| && b[n] == x;
    assert (a + b)[m] == (a + b)[|a| + n];
  }

  /** An element seen by the filter is repeated in the filtered view if it is repeated. */
  lemma FilterTwice<T>(s: seq<T>, i: nat, j: nat, p: T -> bool)
    requires i < j < |s| && s[i] == s[j] && p(s[i])
    ensures !Distinct(Filter(s, p))
  {
    var a, b := s[..j], s[j..];
    assert s == a + b && a[i] == b[0] == s[i];
    FilterConcat(a, b, p);
    FilterElements(a, p);
    FilterElements(b, p);
    SharedIsRepeated(Filter(a, p), Filter(b, p), s[i]);
  }

  lemma {:induction false} FilterAll<T>(s: seq<T>, p: T -> bool)
    requires forall x | x in s :: p(x)
    ensures Filter(s, p) == s
  {
    if s != [] {
      FilterAll(s[..|s| - 1], p);
      assert s == s[..|s| - 1] + [s[|s| - 1]];
    }
  }

  /** Filtering two nested sequences keeps them nested and never widens the gap between them. */
  lemma {:induction false} FilterMonotone<T>(a: seq<T>, b: seq<T>, p: T -> bool)
    requires Subseq(a, b)
    ensures Subseq(Filter(a, p), Filter(b, p))
    ensures |Filter(b, p)| - |Filter(a, p)| <= |b| - |a|
    decreases |b|
  {
    if b != [] {
      var b', x := b[..|b| - 1], b[|b| - 1];
      if a != [] && a[|a| - 1] == x {
        FilterMonotone(a[..|a| - 1], b', p);
        if p(x) { SubseqSnoc(Filter(a[..|a| - 1], p), Filter(b', p), x); }
      } else {
        assert Subseq(a, b');
        FilterMonotone(a, b', p);
        if p(x) { SubseqSkip(Filter(a, p), Filter(b', p), x); }
      }
    }
  }
}
