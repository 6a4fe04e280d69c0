/**
 * `Array.prototype.sort` with a numeric comparator `(a, b) => key(a) - key(b)`.
 * The sort is stable, so its result is fully determined: it is the stable
 * insertion sort below. SalesRepository.getAll sorts newest first (key = -date),
 * the report trend sorts its day buckets oldest first (key = raw date).
 */
module Sorting {

  ghost predicate SortedBy<T>(s: seq<T>, key: T -> int) {
    forall i, j :: 0 <= i < j < |s| ==> key(s[i]) <= key(s[j])
  }

  /** Inserts x after every element whose key is not larger, keeping s's order. */
  function Insert<T>(x: T, s: seq<T>, key: T -> int): (r: seq<T>)
    ensures |r| == |s| + 1
    ensures multiset(r) == multiset(s) + multiset{x}
  {
    if s == [] then [x]
    else if key(x) < key(s[0]) then [x] + s
    else
      assert s == [s[0]] + s[1..];
      [s[0]] + Insert(x, s[1..], key)
  }

  /** The stable ascending sort of s by key. */
  function SortByKey<T>(s: seq<T>, key: T -> int): (r: seq<T>)
    ensures |r| == |s|
    ensures multiset(r) == multiset(s)
  {
    if s == [] then []
    else
      var r := Insert(s[|s| - 1], SortByKey(s[..|s| - 1], key), key);
      assert s == s[..|s| - 1] + [s[|s| - 1]];
      r
  }

  /** The sorted sequence holds exactly the elements of the input. */
  lemma SortByKeySameElements<T>(s: seq<T>, key: T -> int)
    ensures forall x :: x in SortByKey(s, key) <==> x in s
  {
    var r := SortByKey(s, key);
    forall x ensures x in r <==> x in s {
      assert x in r <==> x in multiset(r);
      assert x in s <==> x in multiset(s);
    }
  }

  /** A bound below x and below every element of s is below every element after the insertion. */
  lemma {:induction false} InsertLowerBound<T>(x: T, s: seq<T>, key: T -> int, b: int)
    requires b <= key(x) && forall k :: 0 <= k < |s| ==> b <= key(s[k])
    ensures forall k :: 0 <= k < |Insert(x, s, key)| ==> b <= key(Insert(x, s, key)[k])
  {
    if s != [] && key(x) >= key(s[0]) {
      InsertLowerBound(x, s[1..], key, b);
    }
  }

  lemma {:induction false} InsertSorted<T>(x: T, s: seq<T>, key: T -> int)
    requires SortedBy(s, key)
    ensures SortedBy(Insert(x, s, key), key)
  {
    if s != [] && key(x) >= key(s[0]) {
      SortedTail(s, key);
      InsertSorted(x, s[1..], key);
      InsertLowerBound(x, s[1..], key, key(s[0]));
    }
  }

  /** The result is in non-decreasing key order. */
  lemma {:induction false} SortByKeySorted<T>(s: seq<T>, key: T -> int)
    ensures SortedBy(SortByKey(s, key), key)
  {
    if s != [] {
      SortByKeySorted(s[..|s| - 1], key);
      InsertSorted(s[|s| - 1], SortByKey(s[..|s| - 1], key), key);
    }
  }

  /** Inserting an element whose key is at least every key appends it. */
  lemma {:induction false} InsertLast<T>(x: T, s: seq<T>, key: T -> int)
    requires forall k :: 0 <= k < |s| ==> key(s[k]) <= key(x)
    ensures Insert(x, s, key) == s + [x]
  {
    if s != [] {
      InsertLast(x, s[1..], key);
      assert [s[0]] + (s[1..] + [x]) == s + [x];
    }
  }

  /** Sorting an already sorted sequence leaves it as it is: the sort is stable. */
  lemma {:induction false} SortByKeyOfSorted<T>(s: seq<T>, key: T -> int)
    requires SortedBy(s, key)
    ensures SortByKey(s, key) == s
  {
    if s != [] {
      var init := s[..|s| - 1];
      SortByKeyOfSorted(init, key);
      InsertLast(s[|s| - 1], init, key);
      assert init + [s[|s| - 1]] == s;
    }
  }

  /** The elements of s whose key is v, in s's order. */
  function WithKey<T>(s: seq<T>, key: T -> int, v: int): (r: seq<T>)
    ensures |r| <= |s|
    ensures forall i :: 0 <= i < |r| ==> key(r[i]) == v
  {
    if s == [] then []
    else (if key(s[0]) == v then [s[0]] else []) + WithKey(s[1..], key, v)
  }

  lemma {:induction false} WithKeyAppend<T>(a: seq<T>, b: seq<T>, key: T -> int, v: int)
    ensures WithKey(a + b, key, v) == WithKey(a, key, v) + WithKey(b, key, v)
  {
    if a == [] {
      assert a + b == b;
    } else {
      assert (a + b)[0] == a[0] && (a + b)[1..] == a[1..] + b;
      WithKeyAppend(a[1..], b, key, v);
    }
  }

  lemma {:induction false} WithKeyNone<T>(s: seq<T>, key: T -> int, v: int)
    requires forall i :: 0 <= i < |s| ==> key(s[i]) != v
    ensures WithKey(s, key, v) == []
  {
    if s != [] {
      WithKeyNone(s[1..], key, v);
    }
  }

  lemma WithKeyOne<T>(x: T, key: T -> int, v: int)
    ensures WithKey([x], key, v) == if key(x) == v then [x] else []
  {
    assert [x][1..] == [];
  }

  lemma SortedTail<T>(s: seq<T>, key: T -> int)
    requires SortedBy(s, key) && s != []
    ensures SortedBy(s[1..], key)
    ensures forall i :: 0 <= i < |s| ==> key(s[0]) <= key(s[i])
  {
    forall i, j | 0 <= i < j < |s| - 1 ensures key(s[1..][i]) <= key(s[1..][j]) {
      assert s[1..][i] == s[i + 1] && s[1..][j] == s[j + 1];
    }
  }

  /** When x goes in front, none of s has x's key. */
  lemma InsertFrontWithKey<T>(x: T, s: seq<T>, key: T -> int, v: int)
    requires s != [] && key(x) < key(s[0])
    requires forall i :: 0 <= i < |s| ==> key(s[0]) <= key(s[i])
    ensures WithKey(Insert(x, s, key), key, v) == WithKey(s, key, v) + (if key(x) == v then [x] else [])
  {
    WithKeyOne(x, key, v);
    if key(x) == v {
      WithKeyNone(s, key, v);
    }
    assert Insert(x, s, key) == [x] + s;
    WithKeyAppend([x], s, key, v);
  }

  /** Inserting x into a sorted sequence puts it after every element with its key. */
  lemma {:induction false} InsertWithKey<T>(x: T, s: seq<T>, key: T -> int, v: int)
    requires SortedBy(s, key)
    ensures WithKey(Insert(x, s, key), key, v) == WithKey(s, key, v) + (if key(x) == v then [x] else [])
  {
    if s == [] {
      WithKeyOne(x, key, v);
    } else {
      SortedTail(s, key);
      if key(x) < key(s[0]) {
        InsertFrontWithKey(x, s, key, v);
      } else {
        var rest := s[1..];
        InsertWithKey(x, rest, key, v);
        assert Insert(x, s, key) == [s[0]] + Insert(x, rest, key);
        WithKeyAppend([s[0]], Insert(x, rest, key), key, v);
        WithKeyAppend([s[0]], rest, key, v);
        assert [s[0]] + rest == s;
      }
    }
  }

  /**
   * The sort is stable: for every key, the elements with that key come out
   * in the order they went in. With SortByKeySorted and the permutation in
   * SortByKey's contract this pins the result down completely.
   */
  lemma {:induction false} SortByKeyStable<T>(s: seq<T>, key: T -> int, v: int)
    ensures WithKey(SortByKey(s, key), key, v) == WithKey(s, key, v)
  {
    if s != [] {
      var init := s[..|s| - 1];
      var x := s[|s| - 1];
      var sorted := SortByKey(init, key);
      assert s == init + [x];
      calc {
        WithKey(SortByKey(s, key), key, v);
        WithKey(Insert(x, sorted, key), key, v);
        { SortByKeySorted(init, key); InsertWithKey(x, sorted, key, v); }
        WithKey(sorted, key, v) + (if key(x) == v then [x] else []);
        { SortByKeyStable(init, key, v); WithKeyOne(x, key, v); }
        WithKey(init, key, v) + WithKey([x], key, v);
        { WithKeyAppend(init, [x], key, v); }
        WithKey(s, key, v);
      }
    }
  }
}
