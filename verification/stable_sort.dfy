/** A stable sort, newest (largest key) first. Python's
    `list.sort(key=..., reverse=True)` is stable: elements with equal keys
    keep their input order. The same sort stands for a database
    `ORDER BY ... DESC` read in table order. */
module StableSort {

  ghost predicate SortedDesc<T>(s: seq<T>, key: T -> int)
  {
    forall i, j :: 0 <= i < j < |s| ==> key(s[i]) >= key(s[j])
  }

  /** The elements of `s` whose key is `k`, in order. */
  function WithKey<T>(s: seq<T>, key: T -> int, k: int): seq<T>
  {
    if |s| == 0 then []
    else if key(s[0]) == k then [s[0]] + WithKey(s[1..], key, k)
    else WithKey(s[1..], key, k)
  }

  /** Places `x` before the first element whose key is not larger. */
  function Insert<T>(x: T, s: seq<T>, key: T -> int): seq<T>
  {
    if |s| == 0 then [x]
    else if key(s[0]) <= key(x) then [x] + s
    else [s[0]] + Insert(x, s[1..], key)
  }

  lemma {:induction false} InsertMultiset<T>(x: T, s: seq<T>, key: T -> int)
    ensures multiset(Insert(x, s, key)) == multiset(s) + multiset{x}
    decreases |s|
  {
    if |s| > 0 && key(s[0]) > key(x) {
      InsertMultiset(x, s[1..], key);
      assert s == [s[0]] + s[1..];
    }
  }

  /** Among the elements with key `k`, an inserted `x` comes first. */
  lemma {:induction false} InsertWithKey<T>(x: T, s: seq<T>, key: T -> int, k: int)
    ensures WithKey(Insert(x, s, key), key, k)
      == (if key(x) == k then [x] + WithKey(s, key, k) else WithKey(s, key, k))
    decreases |s|
  {
    var r := Insert(x, s, key);
    if |s| == 0 {
    } else if key(s[0]) <= key(x) {
      assert r[0] == x && r[1..] == s;
    } else {
      InsertWithKey(x, s[1..], key, k);
      assert r[0] == s[0] && r[1..] == Insert(x, s[1..], key);
    }
  }

  lemma {:induction false} InsertSorted<T>(x: T, s: seq<T>, key: T -> int)
    requires SortedDesc(s, key)
    ensures SortedDesc(Insert(x, s, key), key)
    decreases |s|
  {
    var r := Insert(x, s, key);
    if |s| == 0 {
    } else if key(s[0]) <= key(x) {
      assert r[1..] == s;
      forall i, j | 0 <= i < j < |r| ensures key(r[i]) >= key(r[j]) {
        assert r[j] == s[j - 1];
        if i > 0 { assert r[i] == s[i - 1]; }
        else { assert key(s[0]) >= key(s[j - 1]); }
      }
    } else {
      var t := Insert(x, s[1..], key);
      assert SortedDesc(s[1..], key) by {
        forall i, j | 0 <= i < j < |s[1..]| ensures key(s[1..][i]) >= key(s[1..][j]) {
          assert s[1..][i] == s[i + 1] && s[1..][j] == s[j + 1];
        }
      }
      InsertSorted(x, s[1..], key);
      InsertMultiset(x, s[1..], key);
      assert r == [s[0]] + t;
      forall i, j | 0 <= i < j < |r| ensures key(r[i]) >= key(r[j]) {
        assert r[j] == t[j - 1];
        if i > 0 {
          assert r[i] == t[i - 1];
        } else {
          assert r[j] in multiset(t);
          if r[j] != x {
            assert r[j] in multiset(s[1..]);
            var m :| 0 <= m < |s[1..]| && s[1..][m] == r[j];
            assert s[1..][m] == s[m + 1];
          }
        }
      }
    }
  }

  /** Sorts by key, largest first, keeping the input order among equal keys. */
  function SortDesc<T>(s: seq<T>, key: T -> int): (r: seq<T>)
    ensures |r| == |s|
    ensures multiset(r) == multiset(s)
    ensures SortedDesc(r, key)
    ensures forall k {:trigger WithKey(s, key, k)} :: WithKey(r, key, k) == WithKey(s, key, k)
  {
    if |s| == 0 then []
    else
      var t := SortDesc(s[1..], key);
      SortStep(s, t, key);
      Insert(s[0], t, key)
  }

  /** One step of `SortDesc`: inserting the head into the sorted tail. */
  lemma SortStep<T>(s: seq<T>, t: seq<T>, key: T -> int)
    requires |s| > 0
    requires multiset(t) == multiset(s[1..])
    requires SortedDesc(t, key)
    requires forall k {:trigger WithKey(s[1..], key, k)} :: WithKey(t, key, k) == WithKey(s[1..], key, k)
    ensures |Insert(s[0], t, key)| == |s|
    ensures multiset(Insert(s[0], t, key)) == multiset(s)
    ensures SortedDesc(Insert(s[0], t, key), key)
    ensures forall k {:trigger WithKey(s, key, k)} :: WithKey(Insert(s[0], t, key), key, k) == WithKey(s, key, k)
  {
    var r := Insert(s[0], t, key);
    InsertMultiset(s[0], t, key);
    InsertSorted(s[0], t, key);
    assert s == [s[0]] + s[1..];
    assert |r| == |multiset(r)|;
    forall k ensures WithKey(r, key, k) == WithKey(s, key, k) {
      InsertWithKey(s[0], t, key, k);
      assert WithKey(t, key, k) == WithKey(s[1..], key, k);
    }
  }

  /** A prefix of a sorted sequence is sorted and draws on its elements. */
  lemma PrefixSorted<T>(s: seq<T>, r: seq<T>, key: T -> int)
    requires SortedDesc(s, key) && r <= s
    ensures SortedDesc(r, key)
    ensures multiset(r) <= multiset(s)
  {
    assert s == r + s[|r|..];
  }
}
