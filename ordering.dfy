/**
 * Sorting, truncation and counting used by the arena's rankings.
 * Python's `sorted(xs, key=k, reverse=True)` is modelled by `SortDesc`, a stable insertion
 * sort on sequences ordered by an integer key; an ascending order is a descending one on the
 * negated key.
 */
module Ordering {
  /** `s` is ordered by `key`, largest first. */
  ghost predicate SortedBy<T>(s: seq<T>, key: T -> int)
  {
    forall i, j :: 0 <= i < j < |s| ==> key(s[i]) >= key(s[j])
  }

  lemma SortedCons<T>(h: T, t: seq<T>, key: T -> int)
    requires SortedBy(t, key)
    requires t != [] ==> key(h) >= key(t[0])
    ensures SortedBy([h] + t, key)
  {
    forall i, j | 0 <= i < j < |[h] + t|
      ensures key(([h] + t)[i]) >= key(([h] + t)[j])
    {
      if i > 0 {
        assert ([h] + t)[i] == t[i - 1] && ([h] + t)[j] == t[j - 1];
      } else {
        assert ([h] + t)[j] == t[j - 1];
      }
    }
  }

  /** Inserts `x` in front of the first element whose key is not larger than its own. */
  function InsertBy<T>(x: T, s: seq<T>, key: T -> int): (r: seq<T>)
    requires SortedBy(s, key)
    ensures multiset(r) == multiset(s) + multiset{x}
    ensures |r| == |s| + 1
    ensures r[0] == x || (s != [] && r[0] == s[0])
    ensures SortedBy(r, key)
  {
    if s == [] then [x]
    else if key(x) >= key(s[0]) then
      SortedCons(x, s, key);
      [x] + s
    else
      var rest := InsertBy(x, s[1..], key);
      InsertBehindHead(x, s, rest, key);
      [s[0]] + rest
  }

  /** Keeping the head in front of the tail with `x` inserted keeps the order and adds `x`. */
  lemma InsertBehindHead<T>(x: T, s: seq<T>, rest: seq<T>, key: T -> int)
    requires s != [] && SortedBy(s, key) && key(x) < key(s[0])
    requires SortedBy(rest, key) && multiset(rest) == multiset(s[1..]) + multiset{x}
    requires rest != [] && (rest[0] == x || (|s| > 1 && rest[0] == s[1]))
    ensures multiset([s[0]] + rest) == multiset(s) + multiset{x}
    ensures SortedBy([s[0]] + rest, key)
  {
    assert s == [s[0]] + s[1..];
    assert |s| > 1 ==> key(s[0]) >= key(s[1]);
    SortedCons(s[0], rest, key);
  }

  /** The elements of `s` ordered by `key`, largest first. */
  function SortDesc<T>(s: seq<T>, key: T -> int): (r: seq<T>)
    ensures multiset(r) == multiset(s)
    ensures |r| == |s|
    ensures SortedBy(r, key)
  {
    if s == [] then []
    else
      assert s == [s[0]] + s[1..];
      InsertBy(s[0], SortDesc(s[1..], key), key)
  }

  /** Among elements of equal key, `tag` increases along `s`: the order ties come in. */
  ghost predicate TiesOrderedBy<T>(s: seq<T>, key: T -> int, tag: T -> int)
  {
    forall i, j :: 0 <= i < j < |s| && key(s[i]) == key(s[j]) ==> tag(s[i]) < tag(s[j])
  }

  /** A head whose tag precedes every tie of it behind keeps the ties in order. */
  lemma TiesCons<T>(h: T, t: seq<T>, key: T -> int, tag: T -> int)
    requires TiesOrderedBy(t, key, tag)
    requires forall y :: y in t && key(y) == key(h) ==> tag(h) < tag(y)
    ensures TiesOrderedBy([h] + t, key, tag)
  {
    var r := [h] + t;
    forall i, j | 0 <= i < j < |r| && key(r[i]) == key(r[j]) ensures tag(r[i]) < tag(r[j]) {
      assert r[j] == t[j - 1];
      if i > 0 {
        assert r[i] == t[i - 1];
      }
    }
  }

  /** Inserting an element whose tag precedes every other tag puts it ahead of its ties. */
  lemma {:induction false} InsertKeepsTies<T>(x: T, s: seq<T>, key: T -> int, tag: T -> int)
    requires SortedBy(s, key) && TiesOrderedBy(s, key, tag)
    requires forall y :: y in s ==> tag(x) < tag(y)
    ensures TiesOrderedBy(InsertBy(x, s, key), key, tag)
    decreases |s|
  {
    if s == [] {
    } else if key(x) >= key(s[0]) {
      TiesCons(x, s, key, tag);
    } else {
      var rest := InsertBy(x, s[1..], key);
      InsertKeepsTies(x, s[1..], key, tag);
      assert TiesOrderedBy(s, key, tag);
      HeadAheadOfTies(x, s, rest, key, tag);
      TiesCons(s[0], rest, key, tag);
    }
  }

  /** The head of `s` precedes its ties in the tail, and `x`, of a smaller key, is none of them. */
  lemma HeadAheadOfTies<T>(x: T, s: seq<T>, rest: seq<T>, key: T -> int, tag: T -> int)
    requires s != [] && TiesOrderedBy(s, key, tag) && key(x) < key(s[0])
    requires multiset(rest) == multiset(s[1..]) + multiset{x}
    ensures forall y :: y in rest && key(y) == key(s[0]) ==> tag(s[0]) < tag(y)
  {
    forall y | y in rest && key(y) == key(s[0]) ensures tag(s[0]) < tag(y) {
      assert y in multiset(rest);
      assert y in multiset(s[1..]);
      var k :| 0 <= k < |s[1..]| && s[1..][k] == y;
      assert s[k + 1] == y;
    }
  }

  /**
   * `SortDesc` is stable, as Python's sort is: elements of equal key keep their input order.
   * The order is told by `tag`, increasing along the input (an index-tagged input is one case).
   */
  lemma {:induction false} SortDescStable<T>(s: seq<T>, key: T -> int, tag: T -> int)
    requires forall i, j :: 0 <= i < j < |s| ==> tag(s[i]) < tag(s[j])
    ensures TiesOrderedBy(SortDesc(s, key), key, tag)
  {
    if s != [] {
      var tail := SortDesc(s[1..], key);
      SortDescStable(s[1..], key, tag);
      forall y | y in tail ensures tag(s[0]) < tag(y) {
        assert y in multiset(s[1..]);
        var k :| 0 <= k < |s[1..]| && s[1..][k] == y;
        assert s[k + 1] == y;
      }
      InsertKeepsTies(s[0], tail, key, tag);
    }
  }

  /** Python's `s[:n]`. */
  function Take<T>(s: seq<T>, n: nat): (r: seq<T>)
    ensures |r| == Min(n, |s|)
    ensures r == s[..|r|]
    ensures |s| <= n ==> r == s
  {
    if |s| <= n then s else s[..n]
  }

  /** Python's `s[-n:]` for n <= |s|, and all of `s` otherwise. */
  function TakeLast<T>(s: seq<T>, n: nat): (r: seq<T>)
    ensures |r| <= n && |r| <= |s|
    ensures r == s[|s| - |r|..]
  {
    if |s| <= n then s else s[|s| - n..]
  }

  lemma TakeKeepsOrder<T>(s: seq<T>, n: nat, key: T -> int)
    requires SortedBy(s, key)
    ensures SortedBy(Take(s, n), key)
  {
  }

  function Abs(x: int): nat { if x < 0 then -x else x }

  function Min(a: int, b: int): int { if a < b then a else b }

  /** A subset is no larger than its superset. */
  lemma SubsetCard<T>(a: set<T>, b: set<T>)
    requires a <= b
    ensures |a| <= |b|
  {
    assert b == a + (b - a);
  }

  /** Number of elements of `s` that satisfy `p`. */
  function CountIf<T>(s: seq<T>, p: T -> bool): (n: nat)
    ensures n <= |s|
  {
    if s == [] then 0 else CountIf(s[..|s| - 1], p) + (if p(s[|s| - 1]) then 1 else 0)
  }

  /** Counting one more element of a prefix: the step of a counting loop. */
  lemma CountIfPrefix<T>(s: seq<T>, i: nat, p: T -> bool)
    requires i < |s|
    ensures CountIf(s[..i + 1], p) == CountIf(s[..i], p) + (if p(s[i]) then 1 else 0)
  {
    assert s[..i + 1][..i] == s[..i];
  }

  /** The elements of `s` that satisfy `p`, in order. */
  function Filter<T(!new)>(s: seq<T>, p: T -> bool): (r: seq<T>)
    ensures |r| == CountIf(s, p)
    ensures forall x :: x in r <==> x in s && p(x)
  {
    if s == [] then []
    else
      var rest := Filter(s[..|s| - 1], p);
      assert s == s[..|s| - 1] + [s[|s| - 1]];
      if p(s[|s| - 1]) then rest + [s[|s| - 1]] else rest
  }

  /** Filtering keeps everything when every element satisfies the predicate. */
  lemma {:induction false} FilterKeepsAll<T(!new)>(s: seq<T>, p: T -> bool)
    requires forall x :: x in s ==> p(x)
    ensures Filter(s, p) == s
  {
    if s != [] {
      assert s == s[..|s| - 1] + [s[|s| - 1]];
      FilterKeepsAll(s[..|s| - 1], p);
    }
  }

  lemma {:induction false} CountIfAppend<T>(s: seq<T>, t: seq<T>, p: T -> bool)
    ensures CountIf(s + t, p) == CountIf(s, p) + CountIf(t, p)
    decreases |t|
  {
    if t == [] {
      assert s + t == s;
    } else {
      assert (s + t)[..|s + t| - 1] == s + t[..|t| - 1];
      CountIfAppend(s, t[..|t| - 1], p);
    }
  }

  /** Counts of disjoint predicates add up to the count of their disjunction. */
  lemma {:induction false} CountIfSplit<T>(s: seq<T>, p: T -> bool, q: T -> bool, pq: T -> bool)
    requires forall x :: pq(x) == (p(x) || q(x))
    requires forall x :: !(p(x) && q(x))
    ensures CountIf(s, pq) == CountIf(s, p) + CountIf(s, q)
  {
    if s != [] {
      CountIfSplit(s[..|s| - 1], p, q, pq);
    }
  }

  /** Counts of a predicate over the same sequence are ordered when the predicates are. */
  lemma {:induction false} CountIfMono<T>(s: seq<T>, p: T -> bool, q: T -> bool)
    requires forall x :: p(x) ==> q(x)
    ensures CountIf(s, p) <= CountIf(s, q)
  {
    if s != [] {
      CountIfMono(s[..|s| - 1], p, q);
    }
  }

  /** Filtering one more element of a prefix: the step of a collecting loop. */
  lemma FilterPrefix<T(!new)>(s: seq<T>, i: nat, p: T -> bool)
    requires i < |s|
    ensures Filter(s[..i + 1], p) == Filter(s[..i], p) + (if p(s[i]) then [s[i]] else [])
  {
    assert s[..i + 1][..i] == s[..i];
  }

  /** The distinct elements of `s` in order of first appearance, as the keys of a Python dict filled from `s`. */
  function Dedup<T(==,!new)>(s: seq<T>): (r: seq<T>)
    ensures forall x :: x in r <==> x in s
    ensures Distinct(r)
    ensures |r| <= |s|
  {
    if s == [] then []
    else
      var d := Dedup(s[..|s| - 1]);
      assert s == s[..|s| - 1] + [s[|s| - 1]];
      if s[|s| - 1] in s[..|s| - 1] then d else d + [s[|s| - 1]]
  }

  /** A predicate that holds for every element counts every element. */
  lemma {:induction false} CountIfAll<T>(s: seq<T>, p: T -> bool)
    requires forall x :: x in s ==> p(x)
    ensures CountIf(s, p) == |s|
  {
    if s != [] {
      CountIfAll(s[..|s| - 1], p);
    }
  }

  /** The sum of `f` over the elements of `s`. */
  function SumOf<T>(s: seq<T>, f: T -> int): int
  {
    if s == [] then 0 else SumOf(s[..|s| - 1], f) + f(s[|s| - 1])
  }

  lemma SumOfSnoc<T>(s: seq<T>, x: T, f: T -> int)
    ensures SumOf(s + [x], f) == SumOf(s, f) + f(x)
  {
    assert (s + [x])[..|s|] == s;
  }

  /** A sum of values between lo and hi lies between |s|·lo and |s|·hi. */
  lemma {:induction false} SumOfBounds<T>(s: seq<T>, f: T -> int, lo: int, hi: int)
    requires forall x :: x in s ==> lo <= f(x) <= hi
    ensures lo * |s| <= SumOf(s, f) <= hi * |s|
  {
    if s != [] {
      SumOfBounds(s[..|s| - 1], f, lo, hi);
    }
  }

  /** Number of occurrences of `k` in `xs`. */
  function Occurrences<K(==)>(xs: seq<K>, k: K): (n: nat)
    ensures n <= |xs|
    ensures n > 0 <==> k in xs
  {
    if xs == [] then 0
    else
      assert xs == xs[..|xs| - 1] + [xs[|xs| - 1]];
      Occurrences(xs[..|xs| - 1], k) + (if xs[|xs| - 1] == k then 1 else 0)
  }

  /** No element appears twice. */
  ghost predicate Distinct<K>(ks: seq<K>)
  {
    forall i, j :: 0 <= i < j < |ks| ==> ks[i] != ks[j]
  }

  /** A key paired with the number of times it was seen. */
  datatype Count<K> = Count(key: K, count: nat)

  function CountKey<K>(c: Count<K>): int { c.count }

  /** The keys of a tally, in order. */
  function Keys<K>(items: seq<Count<K>>): (ks: seq<K>)
    ensures |ks| == |items|
    ensures forall i :: 0 <= i < |items| ==> ks[i] == items[i].key
  {
    seq(|items|, i requires 0 <= i < |items| => items[i].key)
  }

  lemma OccurrencesSnoc<K>(xs: seq<K>, x: K, k: K)
    ensures Occurrences(xs + [x], k) == Occurrences(xs, k) + (if x == k then 1 else 0)
  {
    assert (xs + [x])[..|xs|] == xs;
  }

  /**
   * The counting dictionary the source fills in a loop (`counts[k] = counts.get(k, 0) + 1`):
   * each distinct key once, in order of first appearance, with its number of occurrences.
   */
  method Tally<K(==)>(xs: seq<K>) returns (items: seq<Count<K>>)
    ensures forall i :: 0 <= i < |items| ==> items[i].count == Occurrences(xs, items[i].key)
    ensures forall k :: k in xs <==> k in Keys(items)
    ensures Distinct(Keys(items))
  {
    var counts, order := CountKeys(xs);
    items := seq(|order|, i requires 0 <= i < |order| => Count(order[i], counts[order[i]]));
    assert Keys(items) == order;
  }

  /** The loop of the counting dictionary: the counts, and the keys in order of first appearance. */
  method CountKeys<K(==)>(xs: seq<K>) returns (counts: map<K, nat>, order: seq<K>)
    ensures forall k :: k in counts <==> k in xs
    ensures forall k :: k in counts ==> counts[k] == Occurrences(xs, k)
    ensures forall k :: k in order <==> k in counts
    ensures Distinct(order)
  {
    counts, order := map[], [];
    var n := 0;
    while n < |xs|
      invariant 0 <= n <= |xs|
      invariant forall k :: k in counts <==> k in xs[..n]
      invariant forall k :: k in counts ==> counts[k] == Occurrences(xs[..n], k)
      invariant forall k :: k in order <==> k in counts
      invariant Distinct(order)
    {
      var x := xs[n];
      assert xs[..n + 1] == xs[..n] + [x];
      forall k ensures Occurrences(xs[..n + 1], k) == Occurrences(xs[..n], k) + (if x == k then 1 else 0) {
        OccurrencesSnoc(xs[..n], x, k);
      }
      if x in counts {
        counts := counts[x := counts[x] + 1];
      } else {
        order := order + [x];
        counts := counts[x := 1];
      }
      n := n + 1;
    }
    assert xs[..n] == xs;
  }

  /** Python's `s[:n]` for any integer `n`: a negative bound drops that many elements from the end. */
  function PyPrefix<T>(s: seq<T>, n: int): (r: seq<T>)
    ensures |r| <= |s| && r == s[..|r|]
    ensures n >= 0 ==> r == Take(s, n)
    ensures n < 0 ==> |r| == (if |s| + n > 0 then |s| + n else 0)
  {
    if n >= 0 then Take(s, n) else if |s| + n > 0 then s[..|s| + n] else []
  }

  /** In a sorted sequence every element of a prefix ranks at least as high as every element after it. */
  lemma PrefixDominates<T>(s: seq<T>, m: nat, key: T -> int)
    requires SortedBy(s, key)
    requires m <= |s|
    ensures forall x, y :: x in s[..m] && y in s[m..] ==> key(x) >= key(y)
  {
    forall x, y | x in s[..m] && y in s[m..] ensures key(x) >= key(y) {
      var i :| 0 <= i < m && s[..m][i] == x;
      var j :| 0 <= j < |s| - m && s[m..][j] == y;
      assert s[i] == x && s[m + j] == y;
    }
  }

  /**
   * A prefix of a sorted reordering of `s` holds elements of `s` only, and ranks each of them
   * at least as high as any element of `s` it leaves out.
   */
  lemma PrefixOfSorted<T>(s: seq<T>, sorted: seq<T>, r: seq<T>, key: T -> int)
    requires multiset(sorted) == multiset(s) && SortedBy(sorted, key)
    requires |r| <= |sorted| && r == sorted[..|r|]
    ensures forall x :: x in r ==> x in s
    ensures forall x, y :: x in r && y in s && y !in r ==> key(x) >= key(y)
  {
    forall x | x in r ensures x in s {
      assert x in multiset(sorted);
    }
    PrefixDominates(sorted, |r|, key);
    forall x, y | x in r && y in s && y !in r ensures key(x) >= key(y) {
      assert y in multiset(sorted);
      assert sorted == r + sorted[|r|..];
      assert y in sorted[|r|..];
    }
  }

  /** The elements of a sequence of sequences, in order. */
  function Flatten<T>(ss: seq<seq<T>>): (r: seq<T>)
  {
    if ss == [] then [] else Flatten(ss[..|ss| - 1]) + ss[|ss| - 1]
  }

  /** An element of the concatenation comes from one of the parts, and every part's elements are in it. */
  lemma {:induction false} FlattenMembers<T>(ss: seq<seq<T>>)
    ensures forall x :: x in Flatten(ss) <==> exists i :: 0 <= i < |ss| && x in ss[i]
  {
    if ss != [] {
      FlattenMembers(ss[..|ss| - 1]);
      assert forall i :: 0 <= i < |ss| - 1 ==> ss[..|ss| - 1][i] == ss[i];
    }
  }

  /**
   * A tally sorted by count, largest first, and cut to `n` entries: the source's
   * `sorted(counts.items(), key=count, reverse=True)[:n]`. No key left out was seen more
   * often than a key kept.
   */
  method TopCounts<K(==)>(xs: seq<K>, n: nat) returns (top: seq<Count<K>>)
    ensures |top| <= n
    ensures SortedBy(top, CountKey)
    ensures forall i :: 0 <= i < |top| ==> top[i].count == Occurrences(xs, top[i].key) && top[i].key in xs
    ensures Distinct(Keys(top))
    ensures forall k :: k in xs && k !in Keys(top) ==>
      |top| == n && forall i :: 0 <= i < |top| ==> Occurrences(xs, k) <= top[i].count
  {
    var items := Tally(xs);
    var sorted := SortDesc(items, CountKey);
    SortedTally(xs, items, sorted);
    top := Take(sorted, n);
    TakeKeepsOrder(sorted, n, CountKey);
    assert forall i :: 0 <= i < |top| ==> top[i] == sorted[i];
    KeysPrefix(sorted, |top|);
    forall k | k in xs && k !in Keys(top)
      ensures |top| == n && forall i :: 0 <= i < |top| ==> Occurrences(xs, k) <= top[i].count
    {
      var m :| 0 <= m < |sorted| && sorted[m].key == k;
      assert m >= |top|;
      forall i | 0 <= i < |top| ensures Occurrences(xs, k) <= top[i].count {
        assert CountKey(sorted[i]) >= CountKey(sorted[m]);
      }
    }
  }

  /** The keys of a prefix are a prefix of the keys, so a prefix of a tally with distinct keys has distinct keys. */
  lemma KeysPrefix<K>(items: seq<Count<K>>, m: nat)
    requires m <= |items|
    ensures Keys(items[..m]) == Keys(items)[..m]
    ensures Distinct(Keys(items)) ==> Distinct(Keys(items[..m]))
  {
  }

  /** Sorting a tally keeps its counts and its distinct keys. */
  lemma SortedTally<K>(xs: seq<K>, items: seq<Count<K>>, sorted: seq<Count<K>>)
    requires forall i :: 0 <= i < |items| ==> items[i].count == Occurrences(xs, items[i].key)
    requires forall k :: k in xs <==> k in Keys(items)
    requires Distinct(Keys(items))
    requires multiset(sorted) == multiset(items)
    ensures forall i :: 0 <= i < |sorted| ==> sorted[i].count == Occurrences(xs, sorted[i].key) && sorted[i].key in xs
    ensures forall k :: k in xs ==> exists m :: 0 <= m < |sorted| && sorted[m].key == k
    ensures Distinct(Keys(sorted))
  {
    forall i | 0 <= i < |sorted|
      ensures sorted[i].count == Occurrences(xs, sorted[i].key) && sorted[i].key in xs
    {
      assert sorted[i] in multiset(items);
      var j :| 0 <= j < |items| && items[j] == sorted[i];
      assert Keys(items)[j] == sorted[i].key;
    }
    forall k | k in xs ensures exists m :: 0 <= m < |sorted| && sorted[m].key == k {
      var j :| 0 <= j < |items| && Keys(items)[j] == k;
      assert items[j] in multiset(sorted);
      var m :| 0 <= m < |sorted| && sorted[m] == items[j];
    }
    forall i, j | 0 <= i < j < |sorted| ensures Keys(sorted)[i] != Keys(sorted)[j] {
      DistinctKeysSorted(items, sorted, i, j);
    }
  }

  /** Two positions of a permutation of a tally with distinct keys hold distinct keys. */
  lemma DistinctKeysSorted<K>(items: seq<Count<K>>, sorted: seq<Count<K>>, i: nat, j: nat)
    requires Distinct(Keys(items))
    requires multiset(sorted) == multiset(items)
    requires i < j < |sorted|
    ensures sorted[i].key != sorted[j].key
  {
    assert sorted[i] in multiset(items) && sorted[j] in multiset(items);
    var a :| 0 <= a < |items| && items[a] == sorted[i];
    var b :| 0 <= b < |items| && items[b] == sorted[j];
    if a == b {
      // the same tally entry would then occur twice in `sorted` but once in `items`
      DistinctOnce(items, a);
      TwiceInMultiset(sorted, i, j);
      assert false;
    } else {
      assert Keys(items)[a] != Keys(items)[b];
    }
  }

  /** A value at two positions is counted at least twice. */
  lemma TwiceInMultiset<T>(s: seq<T>, i: nat, j: nat)
    requires i < j < |s| && s[i] == s[j]
    ensures multiset(s)[s[i]] >= 2
  {
    assert s == s[..j] + [s[j]] + s[j + 1..];
    assert s[i] in s[..j];
  }

  /** In a tally with distinct keys each entry occurs once. */
  lemma {:induction false} DistinctOnce<K>(items: seq<Count<K>>, a: nat)
    requires Distinct(Keys(items))
    requires a < |items|
    ensures multiset(items)[items[a]] == 1
  {
    var x := items[a];
    var pre, post := items[..a], items[a + 1..];
    assert items == pre + [x] + post;
    assert multiset(pre)[x] == 0 by {
      forall b | 0 <= b < |pre| ensures pre[b] != x {
        assert pre[b] == items[b] && Keys(items)[b] != Keys(items)[a];
      }
    }
    assert multiset(post)[x] == 0 by {
      forall b | 0 <= b < |post| ensures post[b] != x {
        assert post[b] == items[a + 1 + b] && Keys(items)[a + 1 + b] != Keys(items)[a];
      }
    }
    assert multiset(items) == multiset(pre) + multiset{x} + multiset(post);
  }

  /** A predicate no element satisfies counts nothing. */
  lemma {:induction false} CountIfNone<T>(s: seq<T>, p: T -> bool)
    requires forall x :: x in s ==> !p(x)
    ensures CountIf(s, p) == 0
  {
    if s != [] {
      CountIfNone(s[..|s| - 1], p);
    }
  }

  /** Taking one element out of a sequence takes it out of the count. */
  lemma {:induction false} CountIfRemove<T>(t: seq<T>, k: nat, p: T -> bool)
    requires k < |t|
    ensures CountIf(t, p) == CountIf(t[..k] + t[k + 1..], p) + (if p(t[k]) then 1 else 0)
  {
    var before, after := t[..k], t[k + 1..];
    var single := [t[k]];
    assert t == (before + single) + after;
    CountIfAppend(before + single, after, p);
    CountIfAppend(before, single, p);
    CountIfAppend(before, after, p);
    CountIfSingle(t[k], p);
  }

  /** A one-element sequence counts its element exactly when it satisfies the test. */
  lemma CountIfSingle<T>(x: T, p: T -> bool)
    ensures CountIf([x], p) == if p(x) then 1 else 0
  {
    assert [x][..0] == [];
  }

  lemma MultisetRemove<T>(t: seq<T>, k: nat)
    requires k < |t|
    ensures multiset(t[..k] + t[k + 1..]) == multiset(t) - multiset{t[k]}
  {
    assert t == t[..k] + [t[k]] + t[k + 1..];
  }

  /** Counting does not depend on the order of the elements. */
  lemma {:induction false} CountIfPerm<T>(s: seq<T>, t: seq<T>, p: T -> bool)
    requires multiset(s) == multiset(t)
    ensures CountIf(s, p) == CountIf(t, p)
    decreases |s|
  {
    if s == [] {
      assert |t| == |multiset(t)| == 0;
    } else {
      var x := s[|s| - 1];
      assert s == s[..|s| - 1] + [x];
      assert multiset(s[..|s| - 1]) == multiset(s) - multiset{x};
      assert x in multiset(t);
      var k :| 0 <= k < |t| && t[k] == x;
      MultisetRemove(t, k);
      CountIfPerm(s[..|s| - 1], t[..k] + t[k + 1..], p);
      CountIfRemove(t, k, p);
    }
  }

  /** In a sequence sorted largest first, fewer elements than its position outrank an element. */
  lemma SortedHigherBefore<T>(s: seq<T>, key: T -> int, i: nat, p: T -> bool)
    requires SortedBy(s, key) && i < |s|
    requires forall x :: p(x) <==> key(x) > key(s[i])
    ensures CountIf(s, p) <= i
  {
    var post := s[i..];
    assert s == s[..i] + post;
    CountIfAppend(s[..i], post, p);
    forall j | 0 <= j < |post| ensures !p(post[j]) {
      assert post[j] == s[i + j];
    }
    CountIfNoneAt(post, p);
  }

  /** In a sequence sorted largest first, fewer elements than follow an element rank below it. */
  lemma SortedLowerAfter<T>(s: seq<T>, key: T -> int, i: nat, p: T -> bool)
    requires SortedBy(s, key) && i < |s|
    requires forall x :: p(x) <==> key(x) < key(s[i])
    ensures CountIf(s, p) <= |s| - 1 - i
  {
    var pre := s[..i + 1];
    assert s == pre + s[i + 1..];
    CountIfAppend(pre, s[i + 1..], p);
    forall j | 0 <= j < |pre| ensures !p(pre[j]) {
      assert pre[j] == s[j];
      if j < i {
        assert key(s[j]) >= key(s[i]);
      }
    }
    CountIfNoneAt(pre, p);
    assert CountIf(s[i + 1..], p) <= |s[i + 1..]|;
  }

  /** An element among the last `n` of a sequence sorted largest first has fewer than `n` below it. */
  lemma InTakeLastFewLower<T>(s: seq<T>, key: T -> int, n: nat, c: T, p: T -> bool)
    requires SortedBy(s, key) && c in TakeLast(s, n)
    requires forall x :: p(x) <==> key(x) < key(c)
    ensures CountIf(s, p) < n
  {
    var bottom := TakeLast(s, n);
    var i :| 0 <= i < |bottom| && bottom[i] == c;
    var k := |s| - |bottom| + i;
    assert s[k] == c;
    SortedLowerAfter(s, key, k, p);
  }

  /** A predicate no position satisfies counts nothing. */
  lemma {:induction false} CountIfNoneAt<T>(s: seq<T>, p: T -> bool)
    requires forall j :: 0 <= j < |s| ==> !p(s[j])
    ensures CountIf(s, p) == 0
  {
    if s != [] {
      var init := s[..|s| - 1];
      assert forall j :: 0 <= j < |init| ==> init[j] == s[j];
      CountIfNoneAt(init, p);
    }
  }

  /** A value at two positions is counted at least twice; a value at one position at least once. */
  lemma TwiceIfEqual<T>(s: seq<T>, i: nat, j: nat)
    requires i < j < |s|
    ensures s[i] == s[j] ==> multiset(s)[s[i]] >= 2
  {
    if s[i] == s[j] {
      TwiceInMultiset(s, i, j);
    }
  }

  /** A duplicate-free sequence holds each value at most once. */
  lemma {:induction false} DistinctAtMostOnce<T>(s: seq<T>, x: T)
    requires Distinct(s)
    ensures multiset(s)[x] <= 1
  {
    if s != [] {
      var init := s[..|s| - 1];
      assert s == init + [s[|s| - 1]];
      DistinctAtMostOnce(init, x);
      if s[|s| - 1] == x {
        assert forall i :: 0 <= i < |init| ==> init[i] != x;
      }
    }
  }

  /** Reordering a duplicate-free sequence keeps it duplicate-free. */
  lemma DistinctPerm<T>(s: seq<T>, t: seq<T>)
    requires multiset(s) == multiset(t) && Distinct(s)
    ensures Distinct(t)
  {
    forall i, j | 0 <= i < j < |t| ensures t[i] != t[j] {
      DistinctAtMostOnce(s, t[i]);
      TwiceIfEqual(t, i, j);
    }
  }
}
