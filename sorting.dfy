/** Python's `max` on integers, and `sorted` as the tools use it: on integers, on
    strings (ordered by code point, a prefix before its extensions), and stably by an
    integer key. Each sort is an insertion sort proved to return an ordered permutation
    of its input. */
module Sorting {

  /** `max(ns)` */
  function MaxOf(ns: seq<int>): (m: int)
    requires |ns| > 0
    ensures m in ns && forall x :: x in ns ==> x <= m
  {
    if |ns| == 1 then ns[0]
    else
      var rest := MaxOf(ns[1..]);
      assert forall x :: x in ns ==> x == ns[0] || x in ns[1..];
      if ns[0] >= rest then ns[0] else rest
  }

  lemma MaxOfUnique(ns: seq<int>, m: int)
    requires m in ns && forall x :: x in ns ==> x <= m
    ensures MaxOf(ns) == m
  {
  }

  predicate Ascending(s: seq<int>) {
    forall i, j :: 0 <= i < j < |s| ==> s[i] <= s[j]
  }

  function Insert(x: int, s: seq<int>): (r: seq<int>)
    requires Ascending(s)
    ensures |r| == |s| + 1
    ensures multiset(r) == multiset(s) + multiset{x}
    ensures Ascending(r)
  {
    if s == [] || x <= s[0] then
      var r := [x] + s;
      assert Ascending(r) by {
        forall i, j | 0 <= i < j < |r| ensures r[i] <= r[j] {
          assert r[j] == s[j - 1];
          if i > 0 {
            assert r[i] == s[i - 1];
          }
        }
      }
      r
    else
      var rest := Insert(x, s[1..]);
      assert s == [s[0]] + s[1..];
      HeadBoundsInsert(x, s, rest);
      var r := [s[0]] + rest;
      assert Ascending(r) by {
        forall i, j | 0 <= i < j < |r| ensures r[i] <= r[j] {
          assert r[j] == rest[j - 1];
          if i > 0 {
            assert r[i] == rest[i - 1];
          }
        }
      }
      r
  }

  /** The head of an ascending list below `x` bounds every element of the insertion into its tail. */
  lemma HeadBoundsInsert(x: int, s: seq<int>, rest: seq<int>)
    requires Ascending(s) && s != [] && s[0] < x
    requires multiset(rest) == multiset(s[1..]) + multiset{x}
    ensures forall k :: 0 <= k < |rest| ==> s[0] <= rest[k]
  {
    forall k | 0 <= k < |rest| ensures s[0] <= rest[k] {
      assert rest[k] in multiset(rest);
      if rest[k] != x {
        assert rest[k] in multiset(s[1..]);
        var j :| 0 <= j < |s[1..]| && s[1..][j] == rest[k];
        assert s[j + 1] == rest[k];
      }
    }
  }

  /** `sorted(ns)` on integers. */
  function SortInts(s: seq<int>): (r: seq<int>)
    ensures Ascending(r) && multiset(r) == multiset(s)
  {
    if s == [] then []
    else
      assert s == [s[0]] + s[1..];
      Insert(s[0], SortInts(s[1..]))
  }

  /** Python's `a <= b` on strings. */
  predicate LexLe(a: string, b: string)
    decreases |a|
  {
    a == [] || (b != [] && (a[0] < b[0] || (a[0] == b[0] && LexLe(a[1..], b[1..]))))
  }

  lemma {:induction false} LexTotal(a: string, b: string)
    ensures LexLe(a, b) || LexLe(b, a)
    decreases |a|
  {
    if a != [] && b != [] && a[0] == b[0] {
      LexTotal(a[1..], b[1..]);
    }
  }

  lemma {:induction false} LexTrans(a: string, b: string, c: string)
    requires LexLe(a, b) && LexLe(b, c)
    ensures LexLe(a, c)
    decreases |a|
  {
    if a != [] && a[0] == b[0] && b[0] == c[0] {
      LexTrans(a[1..], b[1..], c[1..]);
    }
  }

  predicate LexAscending(s: seq<string>) {
    forall i, j :: 0 <= i < j < |s| ==> LexLe(s[i], s[j])
  }

  function InsertString(x: string, s: seq<string>): (r: seq<string>)
    requires LexAscending(s)
    ensures |r| == |s| + 1
    ensures multiset(r) == multiset(s) + multiset{x}
    ensures LexAscending(r)
  {
    if s == [] then [x]
    else if LexLe(x, s[0]) then
      assert forall j :: 0 <= j < |s| ==> LexLe(x, s[j]) by {
        forall j | 0 < j < |s| ensures LexLe(x, s[j]) {
          LexTrans(x, s[0], s[j]);
        }
      }
      [x] + s
    else
      var rest := InsertString(x, s[1..]);
      assert s == [s[0]] + s[1..];
      LexTotal(x, s[0]);
      assert forall k :: 0 <= k < |rest| ==> LexLe(s[0], rest[k]) by {
        forall k | 0 <= k < |rest| ensures LexLe(s[0], rest[k]) {
          assert rest[k] in multiset(rest);
          if rest[k] != x {
            assert rest[k] in multiset(s[1..]);
            var j :| 0 <= j < |s[1..]| && s[1..][j] == rest[k];
            assert s[j + 1] == rest[k];
          }
        }
      }
      [s[0]] + rest
  }

  /** `sorted(lines)` on strings. */
  function SortStrings(s: seq<string>): (r: seq<string>)
    ensures LexAscending(r) && multiset(r) == multiset(s)
  {
    if s == [] then []
    else
      assert s == [s[0]] + s[1..];
      InsertString(s[0], SortStrings(s[1..]))
  }

  predicate KeyAscending<T>(s: seq<(int, T)>) {
    forall i, j :: 0 <= i < j < |s| ==> s[i].0 <= s[j].0
  }

  /** The items of `s` whose key is `k`, in order. */
  function WithKey<T>(s: seq<(int, T)>, k: int): (r: seq<(int, T)>)
    ensures forall i :: 0 <= i < |r| ==> r[i].0 == k
  {
    if s == [] then []
    else (if s[0].0 == k then [s[0]] else []) + WithKey(s[1..], k)
  }

  /** Inserting before the first item whose key is not smaller keeps the new item ahead
      of the equal-keyed items that came after it in the input. */
  function InsertByKey<T>(x: (int, T), s: seq<(int, T)>): (r: seq<(int, T)>)
    requires KeyAscending(s)
    ensures |r| == |s| + 1
    ensures multiset(r) == multiset(s) + multiset{x}
    ensures KeyAscending(r)
  {
    if s == [] || x.0 <= s[0].0 then [x] + s
    else
      var rest := InsertByKey(x, s[1..]);
      assert s == [s[0]] + s[1..];
      ConsAscending(s[0], x, s[1..], rest);
      [s[0]] + rest
  }

  /** Putting back the head of an ascending list in front of its re-sorted tail, into which
      a larger key went, stays ascending. */
  lemma ConsAscending<T>(h: (int, T), x: (int, T), t: seq<(int, T)>, rest: seq<(int, T)>)
    requires KeyAscending([h] + t) && h.0 < x.0
    requires KeyAscending(rest) && multiset(rest) == multiset(t) + multiset{x}
    ensures KeyAscending([h] + rest)
  {
    forall k | 0 <= k < |rest| ensures h.0 <= rest[k].0 {
      assert rest[k] in multiset(rest);
      if rest[k] != x {
        assert rest[k] in multiset(t);
        var j :| 0 <= j < |t| && t[j] == rest[k];
        assert ([h] + t)[0] == h && ([h] + t)[j + 1] == t[j];
      }
    }
    var r := [h] + rest;
    forall i, j | 0 <= i < j < |r| ensures r[i].0 <= r[j].0 {
      assert r[j] == rest[j - 1];
      if i > 0 {
        assert r[i] == rest[i - 1];
      }
    }
  }

  /** `items.sort(key=lambda x: x[0])` */
  function SortByKey<T>(s: seq<(int, T)>): (r: seq<(int, T)>)
    ensures KeyAscending(r) && multiset(r) == multiset(s)
  {
    if s == [] then []
    else
      assert s == [s[0]] + s[1..];
      InsertByKey(s[0], SortByKey(s[1..]))
  }

  lemma {:induction false} InsertByKeyStable<T>(x: (int, T), s: seq<(int, T)>, k: int)
    requires KeyAscending(s)
    ensures WithKey(InsertByKey(x, s), k) == (if x.0 == k then [x] else []) + WithKey(s, k)
  {
    if s != [] && x.0 > s[0].0 {
      InsertByKeyStable(x, s[1..], k);
      var rest := InsertByKey(x, s[1..]);
      assert InsertByKey(x, s) == [s[0]] + rest;
      assert ([s[0]] + rest)[1..] == rest;
    } else {
      assert ([x] + s)[1..] == s;
    }
  }

  /** The sort is stable: the items sharing any one key keep their input order. */
  lemma {:induction false} SortByKeyStable<T>(s: seq<(int, T)>, k: int)
    ensures WithKey(SortByKey(s), k) == WithKey(s, k)
  {
    if s != [] {
      SortByKeyStable(s[1..], k);
      InsertByKeyStable(s[0], SortByKey(s[1..]), k);
    }
  }
}
