/**
 * Python's `sorted` on strings (lexicographic by character code) and on
 * records ordered by a string key, written as an insertion sort.
 */
module Sorting {

  /** Python's `a <= b` on strings. */
  predicate LexLeq(a: string, b: string) {
    if a == [] then true
    else if b == [] then false
    else if a[0] != b[0] then a[0] < b[0]
    else LexLeq(a[1..], b[1..])
  }

  lemma {:induction false} LexLeqTotal(a: string, b: string)
    ensures LexLeq(a, b) || LexLeq(b, a)
  {
    if a != [] && b != [] && a[0] == b[0] {
      LexLeqTotal(a[1..], b[1..]);
    }
  }

  lemma {:induction false} LexLeqTransitive(a: string, b: string, c: string)
    requires LexLeq(a, b) && LexLeq(b, c)
    ensures LexLeq(a, c)
  {
    if a != [] && b != [] && c != [] && a[0] == b[0] == c[0] {
      LexLeqTransitive(a[1..], b[1..], c[1..]);
    }
  }

  lemma {:induction false} LexLeqAntisymmetric(a: string, b: string)
    requires LexLeq(a, b) && LexLeq(b, a)
    ensures a == b
  {
    if a != [] && b != [] {
      LexLeqAntisymmetric(a[1..], b[1..]);
      assert a == [a[0]] + a[1..] && b == [b[0]] + b[1..];
    }
  }

  /** The identity key, for sorting plain strings. */
  function Id(s: string): string { s }

  predicate SortedBy<T>(s: seq<T>, key: T -> string) {
    forall i, j :: 0 <= i < j < |s| ==> LexLeq(key(s[i]), key(s[j]))
  }

  /** `x` put before the first element of `s` it does not exceed. */
  function Insert<T>(x: T, s: seq<T>, key: T -> string): seq<T> {
    if s == [] then [x]
    else if LexLeq(key(x), key(s[0])) then [x] + s
    else [s[0]] + Insert(x, s[1..], key)
  }

  /** Insertion adds `x` once and nothing else. */
  lemma {:induction false} InsertMultiset<T>(x: T, s: seq<T>, key: T -> string)
    ensures multiset(Insert(x, s, key)) == multiset(s) + multiset{x}
  {
    if s != [] {
      assert s == [s[0]] + s[1..];
      if !LexLeq(key(x), key(s[0])) {
        InsertMultiset(x, s[1..], key);
      }
    }
  }

  /** Insertion keeps a sorted sequence sorted. */
  lemma {:induction false} InsertSorted<T>(x: T, s: seq<T>, key: T -> string)
    requires SortedBy(s, key)
    ensures SortedBy(Insert(x, s, key), key)
  {
    if s == [] {
    } else if LexLeq(key(x), key(s[0])) {
      forall j | 0 < j < |s| ensures LexLeq(key(x), key(s[j])) {
        LexLeqTransitive(key(x), key(s[0]), key(s[j]));
      }
    } else {
      InsertSorted(x, s[1..], key);
      InsertMultiset(x, s[1..], key);
      LexLeqTotal(key(x), key(s[0]));
      var rest := Insert(x, s[1..], key);
      forall j | 0 <= j < |rest| ensures LexLeq(key(s[0]), key(rest[j])) {
        assert rest[j] in multiset(rest);
        if rest[j] != x {
          assert rest[j] in multiset(s[1..]);
          var k :| 0 <= k < |s[1..]| && s[1..][k] == rest[j];
          assert s[k + 1] == rest[j];
        }
      }
    }
  }

  /** `sorted(s, key=key)`, as an insertion sort. */
  function SortBy<T>(s: seq<T>, key: T -> string): seq<T> {
    if s == [] then [] else Insert(s[0], SortBy(s[1..], key), key)
  }

  /** The result of `sorted` is an ordered permutation of its argument. */
  lemma SortBySpec<T>(s: seq<T>, key: T -> string)
    ensures SortedBy(SortBy(s, key), key)
    ensures multiset(SortBy(s, key)) == multiset(s)
    ensures |SortBy(s, key)| == |s|
  {
    SortBySorted(s, key);
    SortByMultiset(s, key);
    assert |SortBy(s, key)| == |multiset(SortBy(s, key))|;
  }

  lemma {:induction false} SortBySorted<T>(s: seq<T>, key: T -> string)
    ensures SortedBy(SortBy(s, key), key)
  {
    if s != [] {
      SortBySorted(s[1..], key);
      InsertSorted(s[0], SortBy(s[1..], key), key);
    }
  }

  lemma {:induction false} SortByMultiset<T>(s: seq<T>, key: T -> string)
    ensures multiset(SortBy(s, key)) == multiset(s)
  {
    if s != [] {
      assert s == [s[0]] + s[1..];
      SortByMultiset(s[1..], key);
      InsertMultiset(s[0], SortBy(s[1..], key), key);
    }
  }

  /** The key of every element, in order. */
  function Keys<T>(s: seq<T>, key: T -> string): (ks: seq<string>)
    ensures |ks| == |s|
    ensures forall i :: 0 <= i < |s| ==> ks[i] == key(s[i])
  {
    if s == [] then [] else [key(s[0])] + Keys(s[1..], key)
  }

  lemma {:induction false} InsertKeys<T>(x: T, s: seq<T>, key: T -> string)
    ensures multiset(Keys(Insert(x, s, key), key)) == multiset(Keys(s, key)) + multiset{key(x)}
  {
    if s != [] && !LexLeq(key(x), key(s[0])) {
      InsertKeys(x, s[1..], key);
    }
  }

  /** Sorting keeps every key as often as it occurs. */
  lemma {:induction false} SortByKeys<T>(s: seq<T>, key: T -> string)
    ensures multiset(Keys(SortBy(s, key), key)) == multiset(Keys(s, key))
  {
    if s != [] {
      SortByKeys(s[1..], key);
      InsertKeys(s[0], SortBy(s[1..], key), key);
    }
  }

  /** The head of a sorted list of strings is below each of its elements. */
  lemma HeadIsLeast(a: seq<string>, x: string)
    requires SortedBy(a, Id) && x in a
    ensures LexLeq(a[0], x)
  {
    var k :| 0 <= k < |a| && a[k] == x;
    if k == 0 {
      LexLeqTotal(x, x);
    }
  }

  lemma SortedTail<T>(a: seq<T>, key: T -> string)
    requires SortedBy(a, key) && |a| > 0
    ensures SortedBy(a[1..], key)
  {
  }

  /** Two sorted permutations of one sequence of strings are equal, so
      `SortBy(_, Id)` is the one list Python's `sorted` returns. */
  lemma {:induction false} SortedUnique(a: seq<string>, b: seq<string>)
    requires SortedBy(a, Id) && SortedBy(b, Id)
    requires multiset(a) == multiset(b)
    ensures a == b
    decreases |a|
  {
    assert |a| == |multiset(a)| == |b|;
    if a != [] {
      assert a[0] == b[0] by {
        assert a[0] in multiset(b) && b[0] in multiset(a);
        HeadIsLeast(a, b[0]);
        HeadIsLeast(b, a[0]);
        LexLeqAntisymmetric(a[0], b[0]);
      }
      assert multiset(a[1..]) == multiset(b[1..]) by {
        assert a == [a[0]] + a[1..] && b == [b[0]] + b[1..];
        assert multiset(a[1..]) == multiset(a) - multiset{a[0]};
        assert multiset(b[1..]) == multiset(b) - multiset{b[0]};
      }
      SortedTail(a, Id);
      SortedTail(b, Id);
      SortedUnique(a[1..], b[1..]);
      assert a == [a[0]] + a[1..] && b == [b[0]] + b[1..];
    }
  }
}
