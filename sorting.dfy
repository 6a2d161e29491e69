/**
 * The two sorts the application uses.
 *
 * `list.sort((a, b) => b.date.localeCompare(a.date))` is a STABLE sort
 * (ECMAScript 2019 requires stability) putting later dates first; with a
 * consistent comparator every stable sort yields the same list, so it is
 * modelled by a stable insertion sort, `SortByDateDesc`. `dates.sort()`
 * with no comparator orders strings by code units; `SortAscending` models
 * it.
 */
module Sorting {
  import opened Strings

  /** Later keys first: no element is followed by one with a later key. */
  predicate SortedDesc<T>(s: seq<T>, key: T -> string) {
    forall i, j :: 0 <= i < j < |s| ==> LexLe(key(s[j]), key(s[i]))
  }

  /** The elements of `s` whose key is `k`, in their order in `s`. */
  function WithKey<T>(s: seq<T>, key: T -> string, k: string): seq<T> {
    if s == [] then []
    else (if key(s[0]) == k then [s[0]] else []) + WithKey(s[1..], key, k)
  }

  /**
   * Insert `x`, which came before every element of `s` in the input, in
   * front of the first element whose key is not later than its own.
   */
  function Insert<T>(x: T, s: seq<T>, key: T -> string): (r: seq<T>)
    ensures multiset(r) == multiset(s) + multiset{x}
  {
    if s == [] then [x]
    else if LexLe(key(s[0]), key(x)) then [x] + s
    else
      assert s == [s[0]] + s[1..];
      [s[0]] + Insert(x, s[1..], key)
  }

  function SortByDateDesc<T>(s: seq<T>, key: T -> string): (r: seq<T>)
    ensures multiset(r) == multiset(s)
  {
    if s == [] then []
    else
      assert s == [s[0]] + s[1..];
      Insert(s[0], SortByDateDesc(s[1..], key), key)
  }

  lemma {:induction false} InsertSorted<T>(x: T, s: seq<T>, key: T -> string)
    requires SortedDesc(s, key)
    ensures SortedDesc(Insert(x, s, key), key)
  {
    if s == [] {
    } else if LexLe(key(s[0]), key(x)) {
      forall j | 0 <= j < |s| ensures LexLe(key(s[j]), key(x)) {
        if j > 0 { LexLeTransitive(key(s[j]), key(s[0]), key(x)); }
      }
    } else {
      InsertSorted(x, s[1..], key);
      var tail := Insert(x, s[1..], key);
      NotLexLe(key(s[0]), key(x));
      forall j | 0 <= j < |tail| ensures LexLe(key(tail[j]), key(s[0])) {
        assert tail[j] in multiset(tail);
        if tail[j] != x {
          assert tail[j] in multiset(s[1..]);
          var m :| 0 <= m < |s[1..]| && s[1..][m] == tail[j];
          assert s[m + 1] == tail[j];
        }
      }
    }
  }

  /** The result of `SortByDateDesc` is in date-descending order. */
  lemma {:induction false} SortByDateDescSorted<T>(s: seq<T>, key: T -> string)
    ensures SortedDesc(SortByDateDesc(s, key), key)
  {
    if s != [] {
      SortByDateDescSorted(s[1..], key);
      InsertSorted(s[0], SortByDateDesc(s[1..], key), key);
    }
  }

  lemma WithKeyAppend<T>(a: seq<T>, b: seq<T>, key: T -> string, k: string)
    ensures WithKey(a + b, key, k) == WithKey(a, key, k) + WithKey(b, key, k)
  {
    if a != [] {
      assert (a + b)[1..] == a[1..] + b;
      WithKeyAppend(a[1..], b, key, k);
    } else {
      assert a + b == b;
    }
  }

  /** Selecting by key on a list with a known head. */
  lemma WithKeyCons<T>(y: T, t: seq<T>, key: T -> string, k: string)
    ensures WithKey([y] + t, key, k) == (if key(y) == k then [y] else []) + WithKey(t, key, k)
  {
    assert ([y] + t)[0] == y && ([y] + t)[1..] == t;
  }

  /** Inserting `x` adds it in front of the elements that share its key. */
  lemma {:induction false} InsertWithKey<T>(x: T, s: seq<T>, key: T -> string, k: string)
    ensures WithKey(Insert(x, s, key), key, k) == (if key(x) == k then [x] else []) + WithKey(s, key, k)
  {
    if s == [] || LexLe(key(s[0]), key(x)) {
      assert Insert(x, s, key) == [x] + s;
      WithKeyCons(x, s, key, k);
    } else {
      InsertWithKey(x, s[1..], key, k);
      assert Insert(x, s, key) == [s[0]] + Insert(x, s[1..], key);
      assert s == [s[0]] + s[1..];
      PassOtherKey(s[0], x, Insert(x, s[1..], key), s[1..], key, k);
    }
  }

  /** Putting an element whose key differs from `x`'s in front of both sides keeps the relation. */
  lemma PassOtherKey<T>(y: T, x: T, t: seq<T>, rest: seq<T>, key: T -> string, k: string)
    requires key(y) != key(x)
    requires WithKey(t, key, k) == (if key(x) == k then [x] else []) + WithKey(rest, key, k)
    ensures WithKey([y] + t, key, k) == (if key(x) == k then [x] else []) + WithKey([y] + rest, key, k)
  {
    WithKeyCons(y, t, key, k);
    WithKeyCons(y, rest, key, k);
  }

  /**
   * Stability: for every date, the elements carrying it keep their
   * relative order.
   */
  lemma {:induction false} SortByDateDescStable<T>(s: seq<T>, key: T -> string, k: string)
    ensures WithKey(SortByDateDesc(s, key), key, k) == WithKey(s, key, k)
  {
    if s != [] {
      SortByDateDescStable(s[1..], key, k);
      InsertWithKey(s[0], SortByDateDesc(s[1..], key), key, k);
    }
  }

  /** Strictly increasing in code-unit order: sorted with no repeats. */
  predicate StrictlyAscending(s: seq<string>) {
    forall i, j :: 0 <= i < j < |s| ==> LexLt(s[i], s[j])
  }

  predicate Distinct<T(==)>(s: seq<T>) {
    forall i, j :: 0 <= i < j < |s| ==> s[i] != s[j]
  }

  function InsertAscending(x: string, s: seq<string>): (r: seq<string>)
    ensures multiset(r) == multiset(s) + multiset{x}
  {
    if s == [] then [x]
    else if LexLe(x, s[0]) then [x] + s
    else
      assert s == [s[0]] + s[1..];
      [s[0]] + InsertAscending(x, s[1..])
  }

  /** `strings.sort()`: ascending code-unit order. */
  function SortAscending(s: seq<string>): (r: seq<string>)
    ensures multiset(r) == multiset(s)
  {
    if s == [] then []
    else
      assert s == [s[0]] + s[1..];
      InsertAscending(s[0], SortAscending(s[1..]))
  }

  lemma {:induction false} InsertAscendingStrict(x: string, s: seq<string>)
    requires StrictlyAscending(s) && x !in s
    ensures StrictlyAscending(InsertAscending(x, s))
  {
    if s == [] {
    } else if LexLe(x, s[0]) {
      assert x != s[0];
      forall j | 0 < j < |s| ensures LexLt(x, s[j]) {
        LexLtTransitive(x, s[0], s[j]);
      }
    } else {
      assert s[1..] == s[1..];
      forall y | y in s[1..] ensures y in s { }
      InsertAscendingStrict(x, s[1..]);
      var tail := InsertAscending(x, s[1..]);
      NotLexLe(x, s[0]);
      forall j | 0 <= j < |tail| ensures LexLt(s[0], tail[j]) {
        assert tail[j] in multiset(tail);
        if tail[j] != x {
          assert tail[j] in multiset(s[1..]);
          var m :| 0 <= m < |s[1..]| && s[1..][m] == tail[j];
          assert s[m + 1] == tail[j];
        }
      }
    }
  }

  /** Sorting strings that are pairwise distinct gives a strictly ascending list of the same strings. */
  lemma {:induction false} SortAscendingStrict(s: seq<string>)
    requires Distinct(s)
    ensures StrictlyAscending(SortAscending(s))
  {
    if s != [] {
      SortAscendingStrict(s[1..]);
      var sorted := SortAscending(s[1..]);
      assert s[0] !in s[1..] by {
        forall m | 0 <= m < |s| - 1 ensures s[1..][m] != s[0] {
          assert s[1..][m] == s[m + 1];
        }
      }
      assert s[0] !in multiset(sorted);
      InsertAscendingStrict(s[0], sorted);
    }
  }
}
