/** The app record shared by the catalog and the renderer, and the stable
    sort by `order || 0` that both of them apply to lists of apps. */
module AppModel {
  import opened Wrappers

  /** One launchable entry as `scanApps` builds it and the renderer's
      `AppData` interface describes it (optional fields are `Option`). */
  datatype AppData = AppData(
    name: string,
    path: string,
    kind: string,
    processName: Option<string>,
    autoRestart: Option<bool>,
    order: Option<int>,
    launchDelay: Option<int>)

  /** The sort key `(a.order || 0)`. */
  function OrderKey(a: AppData): int {
    a.order.GetOr(0)
  }

  function Names(apps: seq<AppData>): (r: seq<string>)
    ensures |r| == |apps|
    ensures forall i :: 0 <= i < |apps| ==> r[i] == apps[i].name
  {
    seq(|apps|, i requires 0 <= i < |apps| => apps[i].name)
  }

  function Paths(apps: seq<AppData>): (r: seq<string>)
    ensures |r| == |apps|
    ensures forall i :: 0 <= i < |apps| ==> r[i] == apps[i].path
  {
    seq(|apps|, i requires 0 <= i < |apps| => apps[i].path)
  }

  ghost predicate Sorted(s: seq<AppData>) {
    forall i, j :: 0 <= i < j < |s| ==> OrderKey(s[i]) <= OrderKey(s[j])
  }

  /** The apps whose key is `k`, in their order in `s`. */
  function WithKey(s: seq<AppData>, k: int): seq<AppData>
    decreases |s|
  {
    if s == [] then []
    else (if OrderKey(s[0]) == k then [s[0]] else []) + WithKey(s[1..], k)
  }

  /** Equal keys appear in the same relative order in both sequences. */
  ghost predicate SameKeyOrder(a: seq<AppData>, b: seq<AppData>) {
    forall k :: WithKey(a, k) == WithKey(b, k)
  }

  lemma {:induction false} WithKeyConcat(a: seq<AppData>, b: seq<AppData>, k: int)
    ensures WithKey(a + b, k) == WithKey(a, k) + WithKey(b, k)
    decreases |a|
  {
    if a == [] {
      assert a + b == b;
    } else {
      var ab := a + b;
      assert ab[0] == a[0];
      assert ab[1..] == a[1..] + b;
      var head := if OrderKey(a[0]) == k then [a[0]] else [];
      assert WithKey(ab, k) == head + WithKey(a[1..] + b, k);
      WithKeyConcat(a[1..], b, k);
      assert WithKey(a, k) == head + WithKey(a[1..], k);
    }
  }

  lemma WithKeyHead(s: seq<AppData>)
    requires s != []
    ensures WithKey(s, OrderKey(s[0])) == [s[0]] + WithKey(s[1..], OrderKey(s[0]))
  {
  }

  /** An app with key `k` occurs in `s` whenever the apps with key `k` are not none. */
  lemma {:induction false} WithKeyWitness(s: seq<AppData>, k: int) returns (i: nat)
    requires WithKey(s, k) != []
    ensures i < |s| && OrderKey(s[i]) == k
    decreases |s|
  {
    if OrderKey(s[0]) == k {
      i := 0;
    } else {
      var j := WithKeyWitness(s[1..], k);
      i := j + 1;
    }
  }

  ghost predicate AtLeast(b: int, s: seq<AppData>) {
    forall i :: 0 <= i < |s| ==> b <= OrderKey(s[i])
  }

  lemma LowerBoundSkip(s: seq<AppData>)
    requires Sorted(s) && s != []
    ensures AtLeast(OrderKey(s[0]), s[1..])
  {
  }

  /** A lower bound on the keys carries over to any rearrangement. */
  lemma LowerBoundMultiset(b: int, s: seq<AppData>, t: seq<AppData>)
    requires AtLeast(b, s)
    requires multiset(t) == multiset(s)
    ensures AtLeast(b, t)
  {
    forall i | 0 <= i < |t|
      ensures b <= OrderKey(t[i])
    {
      assert t[i] in multiset(s);
      var j :| 0 <= j < |s| && s[j] == t[i];
    }
  }

  /** `[x] + s` is sorted when `x`'s key is at most every key of sorted `s`. */
  lemma SortedCons(x: AppData, s: seq<AppData>)
    requires Sorted(s)
    requires AtLeast(OrderKey(x), s)
    ensures Sorted([x] + s)
  {
    var r := [x] + s;
    forall i, j | 0 <= i < j < |r|
      ensures OrderKey(r[i]) <= OrderKey(r[j])
    {
      if i > 0 {
        assert r[i] == s[i - 1] && r[j] == s[j - 1];
      } else {
        assert r[j] == s[j - 1];
      }
    }
  }

  /** Moving `x` past a head whose key is smaller does not change the order of equal keys. */
  lemma SwapKeyOrder(x: AppData, y: AppData, rest: seq<AppData>, t: seq<AppData>)
    requires OrderKey(y) < OrderKey(x)
    requires SameKeyOrder(rest, [x] + t)
    ensures SameKeyOrder([y] + rest, [x] + ([y] + t))
  {
    forall k
      ensures WithKey([y] + rest, k) == WithKey([x] + ([y] + t), k)
    {
      WithKeyConcat([y], rest, k);
      WithKeyConcat([x], t, k);
      WithKeyConcat([x], [y] + t, k);
      WithKeyConcat([y], t, k);
    }
  }

  /** Insertion before the first app whose key is not smaller keeps `x` ahead
      of the apps with an equal key. */
  function Insert(x: AppData, s: seq<AppData>): (r: seq<AppData>)
    requires Sorted(s)
    ensures Sorted(r)
    ensures multiset(r) == multiset(s) + multiset{x}
    ensures SameKeyOrder(r, [x] + s)
    decreases |s|
  {
    if s == [] || OrderKey(x) <= OrderKey(s[0]) then
      SortedCons(x, s);
      [x] + s
    else
      assert s == [s[0]] + s[1..];
      var rest := Insert(x, s[1..]);
      LowerBoundSkip(s);
      LowerBoundMultiset(OrderKey(s[0]), s[1..] + [x], rest);
      SortedCons(s[0], rest);
      SwapKeyOrder(x, s[0], rest, s[1..]);
      [s[0]] + rest
  }

  lemma ConsKeyOrder(x: AppData, a: seq<AppData>, b: seq<AppData>)
    requires SameKeyOrder(a, b)
    ensures SameKeyOrder([x] + a, [x] + b)
  {
    forall k
      ensures WithKey([x] + a, k) == WithKey([x] + b, k)
    {
      WithKeyConcat([x], a, k);
      WithKeyConcat([x], b, k);
    }
  }

  /** The stable sort of `Array.prototype.sort` with comparator
      `(a.order || 0) - (b.order || 0)`. */
  function SortByOrder(s: seq<AppData>): (r: seq<AppData>)
    ensures Sorted(r)
    ensures multiset(r) == multiset(s)
    ensures |r| == |s|
    ensures SameKeyOrder(r, s)
    decreases |s|
  {
    if s == [] then []
    else
      var rest := SortByOrder(s[1..]);
      ConsKeyOrder(s[0], rest, s[1..]);
      assert s == [s[0]] + s[1..];
      Insert(s[0], rest)
  }

  /** A list that is already in key order is left as it is. */
  lemma {:induction false} SortSortedIsIdentity(s: seq<AppData>)
    requires Sorted(s)
    ensures SortByOrder(s) == s
    decreases |s|
  {
    if s != [] {
      SortSortedIsIdentity(s[1..]);
      assert [s[0]] + s[1..] == s;
    }
  }

  /** Any two sorted lists that keep equal keys in the same relative order are
      the same list: whatever stable sort the runtime uses, its result is `SortByOrder`'s. */
  lemma {:induction false} SortedUnique(r: seq<AppData>, t: seq<AppData>)
    requires Sorted(r) && Sorted(t)
    requires SameKeyOrder(r, t)
    ensures r == t
    decreases |r|
  {
    if r != [] {
      WithKeyHead(r);
    }
    if t != [] {
      WithKeyHead(t);
    }
    if r == [] || t == [] {
    } else {
      var m, n := OrderKey(r[0]), OrderKey(t[0]);
      assert WithKey(r, m) == [r[0]] + WithKey(r[1..], m);
      var i := WithKeyWitness(t, m);
      assert WithKey(t, n) == [t[0]] + WithKey(t[1..], n);
      var j := WithKeyWitness(r, n);
      assert m == n;
      assert r[0] == WithKey(r, m)[0] == WithKey(t, m)[0] == t[0];
      forall k
        ensures WithKey(r[1..], k) == WithKey(t[1..], k)
      {
        assert WithKey(r, k) == (if m == k then [r[0]] else []) + WithKey(r[1..], k);
        assert WithKey(t, k) == (if m == k then [t[0]] else []) + WithKey(t[1..], k);
        assert WithKey(r, k) == WithKey(t, k);
        if m == k {
          assert WithKey(r[1..], k) == WithKey(r, k)[1..];
          assert WithKey(t[1..], k) == WithKey(t, k)[1..];
        } else {
          assert WithKey(r[1..], k) == WithKey(r, k);
          assert WithKey(t[1..], k) == WithKey(t, k);
        }
      }
      SortedUnique(r[1..], t[1..]);
      assert r == [r[0]] + r[1..] && t == [t[0]] + t[1..];
    }
  }

  /** `SortByOrder` is the one stable sort of `s` by key. */
  lemma StableSortIsSortByOrder(s: seq<AppData>, r: seq<AppData>)
    requires Sorted(r) && SameKeyOrder(r, s)
    ensures r == SortByOrder(s)
  {
    SortedUnique(r, SortByOrder(s));
  }
}
