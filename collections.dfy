/**
 * The JavaScript built-ins the dashboard leans on, stated once:
 * `Array.prototype.filter`, `slice(0, n)`, `[...new Set(s)]`,
 * a `{}` used as an insertion-ordered counting dictionary and read back with
 * `Object.entries`, the stable `Array.prototype.sort` with a numeric
 * comparator, and the default `sort()` of strings.
 */
module Collections {

  // ---------------------------------------------------------------- filter

  /** `s.filter(keep)`: the elements that pass, in their original order. */
  function Filter<T(!new)>(s: seq<T>, keep: T -> bool): (r: seq<T>)
    ensures |r| <= |s|
    ensures forall x :: x in r <==> x in s && keep(x)
    ensures forall i :: 0 <= i < |r| ==> keep(r[i])
  {
    if s == [] then []
    else (if keep(s[0]) then [s[0]] else []) + Filter(s[1..], keep)
  }

  /** Filtering a duplicate-free sequence leaves it duplicate-free. */
  lemma {:induction false} FilterDistinct<T(!new)>(s: seq<T>, keep: T -> bool)
    requires Distinct(s)
    ensures Distinct(Filter(s, keep))
  {
    if s != [] {
      assert Distinct(s[1..]);
      FilterDistinct(s[1..], keep);
      assert s[0] !in s[1..];
    }
  }

  /** How many elements pass a test does not depend on their order. */
  lemma {:induction false} FilterCountPermutation<T(!new)>(s: seq<T>, t: seq<T>, keep: T -> bool)
    requires multiset(s) == multiset(t)
    ensures |Filter(s, keep)| == |Filter(t, keep)|
    decreases |s|
  {
    if s == [] {
      assert |t| == |multiset(t)| == 0;
    } else {
      var x := s[0];
      assert s == [x] + s[1..];
      assert x in multiset(t);
      var k := IndexOf(t, x);
      var t' := t[..k] + t[k + 1..];
      assert t == t[..k] + [x] + t[k + 1..];
      assert multiset(s) == multiset{x} + multiset(s[1..]);
      assert multiset(t) == multiset(t[..k]) + multiset{x} + multiset(t[k + 1..]);
      assert multiset(t') == multiset(t[..k]) + multiset(t[k + 1..]);
      assert multiset(s[1..]) == multiset(s) - multiset{x};
      assert multiset(t') == multiset(t) - multiset{x};
      FilterCountPermutation(s[1..], t', keep);
      FilterAppend([x], s[1..], keep);
      FilterAppend(t[..k] + [x], t[k + 1..], keep);
      FilterAppend(t[..k], [x], keep);
      FilterAppend(t[..k], t[k + 1..], keep);
    }
  }

  /** `a` is obtained from `b` by deleting elements, the rest kept in order. */
  predicate IsSubsequence<T(==)>(a: seq<T>, b: seq<T>)
  {
    if a == [] then true
    else if b == [] then false
    else if a[0] == b[0] then IsSubsequence(a[1..], b[1..])
    else IsSubsequence(a, b[1..])
  }

  /** What `filter` keeps is an order-preserving subsequence of its input. */
  lemma {:induction false} FilterIsSubsequence<T(!new)>(s: seq<T>, keep: T -> bool)
    ensures IsSubsequence(Filter(s, keep), s)
  {
    if s != [] {
      FilterIsSubsequence(s[1..], keep);
      var rest := Filter(s[1..], keep);
      if keep(s[0]) {
        assert ([s[0]] + rest)[1..] == rest;
      } else {
        assert Filter(s, keep) == rest;
        // An element equal to s[0] would have been dropped too.
        assert rest != [] ==> rest[0] != s[0];
      }
    }
  }

  /** Dropping the first element of a subsequence leaves a subsequence. */
  lemma {:induction false} SubsequenceDropHead<T>(a: seq<T>, s: seq<T>)
    requires a != [] && IsSubsequence(a, s)
    ensures IsSubsequence(a[1..], s)
    decreases |s|, 1
  {
    if a[0] == s[0] {
      SubsequenceExtend(a[1..], s);
    } else {
      SubsequenceDropHead(a, s[1..]);
      SubsequenceExtend(a[1..], s);
    }
  }

  /** A subsequence of the tail is a subsequence of the whole. */
  lemma {:induction false} SubsequenceExtend<T>(a: seq<T>, s: seq<T>)
    requires s != [] && IsSubsequence(a, s[1..])
    ensures IsSubsequence(a, s)
    decreases |s|, 0
  {
    if a != [] && a[0] == s[0] {
      SubsequenceDropHead(a, s[1..]);
    }
  }

  lemma {:induction false} SubsequenceTransitive<T>(a: seq<T>, b: seq<T>, c: seq<T>)
    requires IsSubsequence(a, b) && IsSubsequence(b, c)
    ensures IsSubsequence(a, c)
    decreases |c|
  {
    if a != [] {
      if b[0] == c[0] {
        if a[0] == b[0] {
          SubsequenceTransitive(a[1..], b[1..], c[1..]);
        } else {
          SubsequenceTransitive(a, b[1..], c[1..]);
        }
      } else {
        SubsequenceTransitive(a, b, c[1..]);
        SubsequenceExtend(a, c);
      }
    }
  }

  /** `slice(0, n)` keeps a subsequence. */
  lemma {:induction false} PrefixIsSubsequence<T>(s: seq<T>, n: nat)
    ensures IsSubsequence(Prefix(s, n), s)
  {
    if |s| > n {
      if n > 0 {
        PrefixIsSubsequence(s[1..], n - 1);
        assert s[..n][1..] == s[1..][..n - 1];
      } else {
        assert s[..n] == [];
      }
    } else {
      SubsequenceReflexive(s);
    }
  }

  lemma {:induction false} SubsequenceReflexive<T>(s: seq<T>)
    ensures IsSubsequence(s, s)
  {
    if s != [] {
      SubsequenceReflexive(s[1..]);
    }
  }

  /** A filter that keeps everything is the identity. */
  lemma {:induction false} FilterKeepAll<T(!new)>(s: seq<T>, keep: T -> bool)
    requires forall x :: x in s ==> keep(x)
    ensures Filter(s, keep) == s
  {
    if s != [] {
      FilterKeepAll(s[1..], keep);
    }
  }

  /** `filter` distributes over concatenation. */
  lemma {:induction false} FilterAppend<T(!new)>(a: seq<T>, b: seq<T>, keep: T -> bool)
    ensures Filter(a + b, keep) == Filter(a, keep) + Filter(b, keep)
  {
    if a != [] {
      assert (a + b)[1..] == a[1..] + b;
      FilterAppend(a[1..], b, keep);
    } else {
      assert a + b == b;
    }
  }

  /** Two tests that agree on every element filter alike. */
  lemma {:induction false} FilterSameTest<T(!new)>(s: seq<T>, keep: T -> bool, keep': T -> bool)
    requires forall x :: x in s ==> keep(x) == keep'(x)
    ensures Filter(s, keep) == Filter(s, keep')
  {
    if s != [] {
      FilterSameTest(s[1..], keep, keep');
    }
  }

  /**
   * Filtering by a stricter test is filtering what a looser test kept:
   * tightening a filter only ever drops elements.
   */
  lemma {:induction false} FilterNarrow<T(!new)>(s: seq<T>, loose: T -> bool, strict: T -> bool)
    requires forall x :: strict(x) ==> loose(x)
    ensures Filter(Filter(s, loose), strict) == Filter(s, strict)
  {
    if s != [] {
      FilterNarrow(s[1..], loose, strict);
      var rest := Filter(s[1..], loose);
      if loose(s[0]) {
        assert Filter(s, loose) == [s[0]] + rest;
        assert ([s[0]] + rest)[1..] == rest;
      } else {
        assert Filter(s, loose) == rest;
        assert !strict(s[0]);
      }
    }
  }

  /** `s.slice(0, n)`. */
  function Prefix<T>(s: seq<T>, n: nat): seq<T>
  {
    if |s| <= n then s else s[..n]
  }

  // ------------------------------------------------------------ counting

  /** Number of positions of `s` holding `x`. */
  function Occurrences<T(==)>(s: seq<T>, x: T): (n: nat)
    ensures n <= |s|
    ensures n > 0 <==> x in s
  {
    if s == [] then 0
    else
      assert s == s[..|s| - 1] + [s[|s| - 1]];
      Occurrences(s[..|s| - 1], x) + (if s[|s| - 1] == x then 1 else 0)
  }

  lemma {:induction false} OccurrencesAppend<T>(a: seq<T>, b: seq<T>, x: T)
    ensures Occurrences(a + b, x) == Occurrences(a, x) + Occurrences(b, x)
  {
    if b == [] {
      assert a + b == a;
    } else {
      assert (a + b)[..|a + b| - 1] == a + b[..|b| - 1];
      OccurrencesAppend(a, b[..|b| - 1], x);
    }
  }

  predicate Distinct<T(==)>(s: seq<T>)
  {
    forall i, j :: 0 <= i < j < |s| ==> s[i] != s[j]
  }

  /** A duplicate-free sequence holds every value at most once. */
  lemma {:induction false} DistinctOccurrences<T>(s: seq<T>, x: T)
    requires Distinct(s)
    ensures Occurrences(s, x) <= 1
  {
    if s != [] {
      var init := s[..|s| - 1];
      assert Distinct(init);
      DistinctOccurrences(init, x);
      if s[|s| - 1] == x {
        assert x !in init;
      }
    }
  }

  /** `[...new Set(s)]`: each element once, in order of first occurrence. */
  function Dedupe<T(==,!new)>(s: seq<T>): (r: seq<T>)
    ensures forall x :: x in r <==> x in s
    ensures Distinct(r)
  {
    if s == [] then []
    else
      assert s == s[..|s| - 1] + [s[|s| - 1]];
      var d := Dedupe(s[..|s| - 1]);
      if s[|s| - 1] in d then d else d + [s[|s| - 1]]
  }

  /** Adding one more element to a `Set` appends it unless already present. */
  lemma DedupeSnoc<T(!new)>(s: seq<T>, x: T)
    ensures Dedupe(s + [x]) == if x in s then Dedupe(s) else Dedupe(s) + [x]
  {
    assert (s + [x])[..|s|] == s;
  }

  /** A duplicate-free sequence has as many elements as its set. */
  lemma {:induction false} DistinctCardinality<T>(s: seq<T>)
    requires Distinct(s)
    ensures |set x | x in s| == |s|
  {
    if s != [] {
      var init := s[..|s| - 1];
      assert s == init + [s[|s| - 1]];
      DistinctCardinality(init);
      assert (set x | x in s) == (set x | x in init) + {s[|s| - 1]};
      assert s[|s| - 1] !in init;
    }
  }

  /** The size of `new Set(s)` is the number of distinct elements of `s`. */
  lemma DedupeSize<T(!new)>(s: seq<T>)
    ensures |Dedupe(s)| == |set x | x in s|
  {
    DistinctCardinality(Dedupe(s));
    assert (set x | x in Dedupe(s)) == (set x | x in s);
  }

  /** Position of the first occurrence of `x` in `s`. */
  function IndexOf<T(==)>(s: seq<T>, x: T): (i: nat)
    requires x in s
    ensures i < |s| && s[i] == x && x !in s[..i]
  {
    if s[0] == x then 0
    else
      var i := IndexOf(s[1..], x);
      assert s[..i + 1] == [s[0]] + s[1..][..i];
      i + 1
  }

  lemma {:induction false} IndexOfPrefix<T>(a: seq<T>, b: seq<T>, x: T)
    requires x in a
    ensures IndexOf(a + b, x) == IndexOf(a, x)
  {
    if a[0] != x {
      assert (a + b)[1..] == a[1..] + b;
      IndexOfPrefix(a[1..], b, x);
    }
  }

  /** `new Set(s)` lists its elements in the order they were first seen. */
  lemma {:induction false} DedupeFirstSeen<T(!new)>(s: seq<T>, i: nat, j: nat)
    requires i < j < |Dedupe(s)|
    ensures IndexOf(s, Dedupe(s)[i]) < IndexOf(s, Dedupe(s)[j])
  {
    var init, last := s[..|s| - 1], s[|s| - 1];
    assert s == init + [last];
    var d := Dedupe(init);
    IndexOfPrefix(init, [last], Dedupe(s)[i]);
    if j < |d| {
      DedupeFirstSeen(init, i, j);
      IndexOfPrefix(init, [last], Dedupe(s)[j]);
    } else {
      assert last !in init;
      assert IndexOf(s, last) == |init|;
    }
  }

  // ------------------------------------------- insertion-ordered dictionary

  /** The keys of a dictionary, in insertion order (`Object.keys`). */
  function Keys<K>(d: seq<(K, nat)>): (r: seq<K>)
    ensures |r| == |d|
  {
    seq(|d|, i requires 0 <= i < |d| => d[i].0)
  }

  /** No key is stored twice: the shape of every JavaScript object. */
  predicate DistinctKeys<K(==)>(d: seq<(K, nat)>)
  {
    forall i, j :: 0 <= i < j < |d| ==> d[i].0 != d[j].0
  }

  lemma DistinctKeysDistinct<K>(d: seq<(K, nat)>)
    requires DistinctKeys(d)
    ensures Distinct(d)
  {
  }

  /**
   * `acc[k] = (acc[k] || 0) + 1` on a dictionary: an existing key keeps its
   * place and gains one, a new key is appended with the count 1.
   */
  function Bump<K(==)>(d: seq<(K, nat)>, k: K): (r: seq<(K, nat)>)
    requires DistinctKeys(d)
    ensures |r| == if k in Keys(d) then |d| else |d| + 1
    ensures forall i :: 0 <= i < |d| ==> r[i].0 == d[i].0
    ensures forall i :: 0 <= i < |d| ==> r[i].1 == d[i].1 + (if d[i].0 == k then 1 else 0)
    ensures k !in Keys(d) ==> r[|d|] == (k, 1)
    ensures DistinctKeys(r)
  {
    if d == [] then [(k, 1)]
    else if d[0].0 == k then
      assert Keys(d)[0] == k;
      [(k, d[0].1 + 1)] + d[1..]
    else
      assert Keys(d[1..]) == Keys(d)[1..];
      assert k in Keys(d) <==> k in Keys(d[1..]);
      [d[0]] + Bump(d[1..], k)
  }

  /** Bumping `k` turns the tally of `s` into the tally of `s + [k]`. */
  lemma BumpExtendsTally<K(!new)>(t: seq<(K, nat)>, s: seq<K>, k: K)
    requires DistinctKeys(t) && Keys(t) == Dedupe(s)
    requires forall i :: 0 <= i < |t| ==> t[i].1 == Occurrences(s, t[i].0)
    ensures DistinctKeys(Bump(t, k)) && Keys(Bump(t, k)) == Dedupe(s + [k])
    ensures forall i :: 0 <= i < |Bump(t, k)| ==>
      Bump(t, k)[i].1 == Occurrences(s + [k], Bump(t, k)[i].0)
  {
    assert (s + [k])[..|s|] == s;
    var r := Bump(t, k);
    if k !in Keys(t) {
      assert k !in s;
    }
    assert Keys(r) == Dedupe(s + [k]);
  }

  /** The counting dictionary built by bumping every element of `s` in turn. */
  function Tally<K(==)>(s: seq<K>): (d: seq<(K, nat)>)
    ensures DistinctKeys(d)
  {
    if s == [] then [] else Bump(Tally(s[..|s| - 1]), s[|s| - 1])
  }

  /**
   * A tally holds each element once, in order of first occurrence, with the
   * number of times it occurs.
   */
  lemma {:induction false} TallyCounts<K(!new)>(s: seq<K>)
    ensures Keys(Tally(s)) == Dedupe(s)
    ensures forall i :: 0 <= i < |Tally(s)| ==> Tally(s)[i].1 == Occurrences(s, Tally(s)[i].0)
  {
    if s != [] {
      var init := s[..|s| - 1];
      assert s == init + [s[|s| - 1]];
      TallyCounts(init);
      BumpExtendsTally(Tally(init), init, s[|s| - 1]);
    }
  }

  /** Tallying one more element bumps its entry. */
  lemma TallySnoc<K>(s: seq<K>, k: K)
    ensures Tally(s + [k]) == Bump(Tally(s), k)
  {
    assert (s + [k])[..|s|] == s;
  }

  /** `acc[k] || 0`: the count stored under `k`, or 0 when `k` is not a key. */
  function Get<K(==)>(d: seq<(K, nat)>, k: K): nat
  {
    if d == [] then 0 else if d[0].0 == k then d[0].1 else Get(d[1..], k)
  }

  lemma {:induction false} GetAt<K>(d: seq<(K, nat)>, i: nat)
    requires DistinctKeys(d) && i < |d|
    ensures Get(d, d[i].0) == d[i].1
  {
    if i > 0 {
      GetAt(d[1..], i - 1);
    }
  }

  lemma {:induction false} GetMissing<K>(d: seq<(K, nat)>, k: K)
    requires k !in Keys(d)
    ensures Get(d, k) == 0
  {
    if d != [] {
      assert Keys(d)[0] == d[0].0;
      assert Keys(d[1..]) == Keys(d)[1..];
      GetMissing(d[1..], k);
    }
  }

  /** Reading a tally gives the number of occurrences, 0 for an element never seen. */
  lemma TallyGet<K(!new)>(s: seq<K>, k: K)
    ensures Get(Tally(s), k) == Occurrences(s, k)
  {
    var d := Tally(s);
    TallyCounts(s);
    if k in s {
      assert k in Keys(d);
      var i := IndexOf(Keys(d), k);
      GetAt(d, i);
    } else {
      GetMissing(d, k);
    }
  }

  /** Sum of the counts of a dictionary. */
  function SumCounts<K>(d: seq<(K, nat)>): nat
  {
    if d == [] then 0 else d[0].1 + SumCounts(d[1..])
  }

  lemma {:induction false} SumCountsBump<K>(d: seq<(K, nat)>, k: K)
    requires DistinctKeys(d)
    ensures SumCounts(Bump(d, k)) == SumCounts(d) + 1
  {
    if d != [] && d[0].0 != k {
      SumCountsBump(d[1..], k);
      assert ([d[0]] + Bump(d[1..], k))[1..] == Bump(d[1..], k);
    } else if d != [] {
      assert ([(k, d[0].1 + 1)] + d[1..])[1..] == d[1..];
    }
  }

  /** The counts of a tally add up to the number of elements tallied. */
  lemma {:induction false} TallySum<K>(s: seq<K>)
    ensures SumCounts(Tally(s)) == |s|
  {
    if s != [] {
      TallySum(s[..|s| - 1]);
      SumCountsBump(Tally(s[..|s| - 1]), s[|s| - 1]);
    }
  }

  /** Every key of a tally was seen at least once. */
  lemma TallyCountsPositive<K(!new)>(s: seq<K>, i: nat)
    requires i < |Tally(s)|
    ensures Tally(s)[i].1 >= 1 && Tally(s)[i].0 in s
  {
    TallyCounts(s);
    assert Keys(Tally(s))[i] == Tally(s)[i].0;
  }

  // -------------------------------------------------------- stable sort

  /** Non-increasing by `key`. */
  predicate SortedDescBy<T>(s: seq<T>, key: T -> int)
  {
    forall i, j :: 0 <= i < j < |s| ==> key(s[i]) >= key(s[j])
  }

  /** The elements of `s` whose key is `v`, in order. */
  function WithKey<T>(s: seq<T>, key: T -> int, v: int): seq<T>
  {
    if s == [] then []
    else (if key(s[0]) == v then [s[0]] else []) + WithKey(s[1..], key, v)
  }

  /** Puts `x` in front of the first element whose key is not larger. */
  function InsertDescBy<T>(x: T, s: seq<T>, key: T -> int): (r: seq<T>)
    ensures multiset(r) == multiset(s) + multiset{x}
  {
    if s == [] || key(s[0]) <= key(x) then
      [x] + s
    else
      assert s == [s[0]] + s[1..];
      [s[0]] + InsertDescBy(x, s[1..], key)
  }

  lemma {:induction false} InsertDescBySorted<T>(x: T, s: seq<T>, key: T -> int)
    requires SortedDescBy(s, key)
    ensures SortedDescBy(InsertDescBy(x, s, key), key)
  {
    if s != [] && key(s[0]) > key(x) {
      var t := InsertDescBy(x, s[1..], key);
      InsertDescBySorted(x, s[1..], key);
      assert s == [s[0]] + s[1..];
      forall j | 0 <= j < |t| ensures key(s[0]) >= key(t[j]) {
        assert t[j] in multiset(t);
        if t[j] != x {
          assert t[j] in multiset(s[1..]);
        }
      }
    }
  }

  /** Inserting `x` adds it at the head of the elements sharing its key. */
  lemma {:induction false} InsertDescByWithKey<T>(x: T, s: seq<T>, key: T -> int, v: int)
    ensures WithKey(InsertDescBy(x, s, key), key, v) ==
      if key(x) == v then [x] + WithKey(s, key, v) else WithKey(s, key, v)
  {
    if s == [] || key(s[0]) <= key(x) {
      assert ([x] + s)[1..] == s;
    } else {
      var t := InsertDescBy(x, s[1..], key);
      InsertDescByWithKey(x, s[1..], key, v);
      assert ([s[0]] + t)[1..] == t;
    }
  }

  /**
   * The stable sort with comparator `(a, b) => key(b) - key(a)`: the result is
   * a permutation of the input, non-increasing by key.
   */
  function SortDescBy<T>(s: seq<T>, key: T -> int): (r: seq<T>)
    ensures multiset(r) == multiset(s)
    ensures |r| == |s|
    ensures SortedDescBy(r, key)
  {
    if s == [] then []
    else
      assert s == [s[0]] + s[1..];
      InsertDescBySorted(s[0], SortDescBy(s[1..], key), key);
      InsertDescBy(s[0], SortDescBy(s[1..], key), key)
  }

  /** The sort is stable: the elements sharing any key keep their relative order. */
  lemma {:induction false} SortDescByStable<T>(s: seq<T>, key: T -> int, v: int)
    ensures WithKey(SortDescBy(s, key), key, v) == WithKey(s, key, v)
  {
    if s != [] {
      SortDescByStable(s[1..], key, v);
      InsertDescByWithKey(s[0], SortDescBy(s[1..], key), key, v);
    }
  }

  /** Sorting a sequence that is already in order changes nothing. */
  lemma {:induction false} SortDescBySorted<T>(s: seq<T>, key: T -> int)
    requires SortedDescBy(s, key)
    ensures SortDescBy(s, key) == s
  {
    if s != [] {
      assert SortedDescBy(s[1..], key);
      SortDescBySorted(s[1..], key);
      assert s == [s[0]] + s[1..];
    }
  }

  /** The first element after sorting has the largest key. */
  lemma SortDescByHeadIsMax<T>(s: seq<T>, key: T -> int, x: T)
    requires x in s
    ensures |SortDescBy(s, key)| > 0
    ensures key(SortDescBy(s, key)[0]) >= key(x)
  {
    var r := SortDescBy(s, key);
    assert x in multiset(s);
    assert x in multiset(r);
    var j :| 0 <= j < |r| && r[j] == x;
  }

  lemma {:induction false} WithKeyAppend<T>(a: seq<T>, b: seq<T>, key: T -> int, v: int)
    ensures WithKey(a + b, key, v) == WithKey(a, key, v) + WithKey(b, key, v)
  {
    if a == [] {
      assert a + b == b;
    } else {
      WithKeyAppend(a[1..], b, key, v);
      WithKeyCons(a, b, key, v);
    }
  }

  /** The step of the induction above: taking the first element off `a`. */
  lemma WithKeyCons<T>(a: seq<T>, b: seq<T>, key: T -> int, v: int)
    requires a != []
    requires WithKey(a[1..] + b, key, v) == WithKey(a[1..], key, v) + WithKey(b, key, v)
    ensures WithKey(a + b, key, v) == WithKey(a, key, v) + WithKey(b, key, v)
  {
    assert (a + b)[0] == a[0] && (a + b)[1..] == a[1..] + b;
  }

  lemma {:induction false} WithKeyMember<T>(s: seq<T>, key: T -> int, v: int, x: T)
    requires x in WithKey(s, key, v)
    ensures x in s && key(x) == v
  {
    if s[0] != x || key(s[0]) != v {
      WithKeyMember(s[1..], key, v, x);
    }
  }

  lemma {:induction false} WithKeyDistinct<T>(s: seq<T>, key: T -> int, v: int)
    requires Distinct(s)
    ensures Distinct(WithKey(s, key, v))
  {
    if s != [] {
      WithKeyDistinct(s[1..], key, v);
      if s[0] in WithKey(s[1..], key, v) {
        WithKeyMember(s[1..], key, v, s[0]);
      }
    }
  }

  /**
   * Where `s[i]` sits among the elements that share its key: the number of
   * such elements before it.
   */
  function Rank<T>(s: seq<T>, key: T -> int, i: nat): nat
    requires i < |s|
  {
    |WithKey(s[..i], key, key(s[i]))|
  }

  lemma RankLocates<T>(s: seq<T>, key: T -> int, i: nat)
    requires i < |s|
    ensures Rank(s, key, i) < |WithKey(s, key, key(s[i]))|
    ensures WithKey(s, key, key(s[i]))[Rank(s, key, i)] == s[i]
  {
    var v := key(s[i]);
    assert s == s[..i] + s[i..];
    WithKeyAppend(s[..i], s[i..], key, v);
    assert s[i..][1..] == s[i + 1..];
  }

  lemma RankMonotone<T>(s: seq<T>, key: T -> int, i: nat, j: nat)
    requires i < j < |s| && key(s[i]) == key(s[j])
    ensures Rank(s, key, i) < Rank(s, key, j)
  {
    var v := key(s[i]);
    assert s[..j] == s[..i] + s[i..j];
    WithKeyAppend(s[..i], s[i..j], key, v);
    assert s[i..j][0] == s[i];
  }

  /**
   * Stability in positional terms: after sorting a duplicate-free sequence,
   * two elements with the same key appear in their original order.
   */
  lemma StableTies<T>(s: seq<T>, key: T -> int, i: nat, j: nat)
    requires Distinct(s)
    requires i < j < |SortDescBy(s, key)|
    requires key(SortDescBy(s, key)[i]) == key(SortDescBy(s, key)[j])
    ensures SortDescBy(s, key)[i] in s && SortDescBy(s, key)[j] in s
    ensures IndexOf(s, SortDescBy(s, key)[i]) < IndexOf(s, SortDescBy(s, key)[j])
  {
    var r := SortDescBy(s, key);
    var v := key(r[i]);
    assert r[i] in multiset(r) && r[j] in multiset(r);
    var i', j' := IndexOf(s, r[i]), IndexOf(s, r[j]);
    StableRanks(s, r, key, v, i, i');
    StableRanks(s, r, key, v, j, j');
    RankMonotone(r, key, i, j);
    RankOrder(s, key, i', j');
  }

  /** Among elements with the same key, a smaller rank means an earlier position. */
  lemma RankOrder<T>(s: seq<T>, key: T -> int, a: nat, b: nat)
    requires a < |s| && b < |s| && key(s[a]) == key(s[b])
    requires Rank(s, key, a) < Rank(s, key, b)
    ensures a < b
  {
    if b < a {
      RankMonotone(s, key, b, a);
    }
  }

  /** An element has the same rank in the sorted sequence as in the input. */
  lemma StableRanks<T>(s: seq<T>, r: seq<T>, key: T -> int, v: int, i: nat, i': nat)
    requires Distinct(s) && r == SortDescBy(s, key)
    requires i < |r| && i' < |s| && r[i] == s[i'] && key(r[i]) == v
    ensures Rank(r, key, i) == Rank(s, key, i')
  {
    SortDescByStable(s, key, v);
    WithKeyDistinct(s, key, v);
    RankLocates(r, key, i);
    RankLocates(s, key, i');
    DistinctIndex(WithKey(s, key, v), Rank(r, key, i), Rank(s, key, i'));
  }

  lemma DistinctIndex<T>(s: seq<T>, a: nat, b: nat)
    requires Distinct(s) && a < |s| && b < |s| && s[a] == s[b]
    ensures a == b
  {
  }

  // ---------------------------------------------------- string ordering

  /** The default `sort()` order of two strings: lexicographic by character. */
  predicate StrLt(a: string, b: string)
  {
    if a == [] then b != []
    else b != [] && (a[0] < b[0] || (a[0] == b[0] && StrLt(a[1..], b[1..])))
  }

  lemma {:induction false} StrLtIrreflexive(a: string)
    ensures !StrLt(a, a)
  {
    if a != [] {
      StrLtIrreflexive(a[1..]);
    }
  }

  lemma {:induction false} StrLtTransitive(a: string, b: string, c: string)
    requires StrLt(a, b) && StrLt(b, c)
    ensures StrLt(a, c)
  {
    if a != [] && a[0] == b[0] && b[0] == c[0] {
      StrLtTransitive(a[1..], b[1..], c[1..]);
    }
  }

  lemma {:induction false} StrLtTotal(a: string, b: string)
    requires a != b
    ensures StrLt(a, b) || StrLt(b, a)
  {
    if a != [] && b != [] && a[0] == b[0] {
      assert a == [a[0]] + a[1..] && b == [b[0]] + b[1..];
      StrLtTotal(a[1..], b[1..]);
    }
  }

  predicate StrictlyAscending(s: seq<string>)
  {
    forall i, j :: 0 <= i < j < |s| ==> StrLt(s[i], s[j])
  }

  /** Inserts a new string into a strictly ascending sequence. */
  function InsertAscending(x: string, s: seq<string>): (r: seq<string>)
    requires StrictlyAscending(s) && x !in s
    ensures StrictlyAscending(r)
    ensures forall y :: y in r <==> y == x || y in s
    ensures |r| == |s| + 1
  {
    if s == [] || StrLt(x, s[0]) then
      forall j | 0 <= j < |s| ensures StrLt(x, s[j]) {
        if j > 0 {
          StrLtTransitive(x, s[0], s[j]);
        }
      }
      [x] + s
    else
      StrLtTotal(x, s[0]);
      var t := InsertAscending(x, s[1..]);
      assert forall j :: 0 <= j < |t| ==> StrLt(s[0], t[j]) by {
        forall j | 0 <= j < |t| ensures StrLt(s[0], t[j]) {
          assert t[j] in t;
        }
      }
      [s[0]] + t
  }

  /** `Array.from(set).sort()` on duplicate-free strings. */
  function SortStrings(s: seq<string>): (r: seq<string>)
    requires Distinct(s)
    ensures StrictlyAscending(r)
    ensures forall y :: y in r <==> y in s
    ensures |r| == |s|
  {
    if s == [] then []
    else InsertAscending(s[0], SortStrings(s[1..]))
  }

  /** A strictly ascending sequence holds no element twice. */
  lemma StrictlyAscendingDistinct(s: seq<string>)
    requires StrictlyAscending(s)
    ensures Distinct(s)
  {
    forall i, j | 0 <= i < j < |s| ensures s[i] != s[j] {
      if s[i] == s[j] {
        StrLtIrreflexive(s[i]);
      }
    }
  }

  // ------------------------------------------------------- ranking a tally

  /** The count of a dictionary entry: what `(a, b) => b[1] - a[1]` compares. */
  function EntryCount<K>(e: (K, nat)): int
  {
    e.1
  }

  /**
   * `Object.entries(tally).sort((a, b) => b[1] - a[1])` where `tally`
   * counts the elements of `s`: largest count first.
   */
  function Ranked<K(==)>(s: seq<K>): (r: seq<(K, nat)>)
    ensures forall i, j :: 0 <= i < j < |r| ==> r[i].1 >= r[j].1
  {
    var r := SortDescBy(Tally(s), EntryCount);
    assert forall i, j :: 0 <= i < j < |r| ==> EntryCount(r[i]) >= EntryCount(r[j]);
    r
  }

  /** A duplicate-free sequence holds each value at most once, as a multiset too. */
  lemma {:induction false} DistinctMultiplicity<T>(s: seq<T>, x: T)
    requires Distinct(s)
    ensures multiset(s)[x] <= 1
  {
    if s != [] {
      var init := s[..|s| - 1];
      assert s == init + [s[|s| - 1]];
      assert Distinct(init);
      DistinctMultiplicity(init, x);
      if s[|s| - 1] == x {
        assert x !in init;
      }
    }
  }

  /** In a duplicate-free sequence each element's first index is its index. */
  lemma DistinctFirstIndex<T>(s: seq<T>, k: nat)
    requires Distinct(s) && k < |s|
    ensures IndexOf(s, s[k]) == k
  {
    DistinctIndex(s, IndexOf(s, s[k]), k);
  }

  /** Each ranked entry is an entry of the tally: a key of `s` with its number of occurrences. */
  lemma RankedEntry<K(!new)>(s: seq<K>, i: nat) returns (k: nat)
    requires i < |Ranked(s)|
    ensures k < |Tally(s)| && Ranked(s)[i] == Tally(s)[k]
    ensures Ranked(s)[i].0 in s
    ensures Ranked(s)[i].1 == Occurrences(s, Ranked(s)[i].0) >= 1
  {
    var t := Tally(s);
    var r := Ranked(s);
    assert r[i] in multiset(r);
    assert r[i] in t;
    k := IndexOf(t, r[i]);
    TallyCounts(s);
    TallyCountsPositive(s, k);
  }

  /** Every element of `s` is ranked, with its number of occurrences. */
  lemma RankedFind<K(!new)>(s: seq<K>, x: K) returns (m: nat)
    requires x in s
    ensures m < |Ranked(s)| && Ranked(s)[m] == (x, Occurrences(s, x))
  {
    var t := Tally(s);
    TallyCounts(s);
    assert x in Keys(t);
    var k := IndexOf(Keys(t), x);
    var r := Ranked(s);
    assert t[k] in multiset(r);
    m := IndexOf(r, t[k]);
  }

  /** There is one ranked entry per distinct element. */
  lemma RankedLength<K(!new)>(s: seq<K>)
    ensures |Ranked(s)| == |Dedupe(s)|
  {
    TallyCounts(s);
  }

  /** A rearrangement of a duplicate-free sequence is duplicate-free. */
  lemma PermutationDistinct<T>(t: seq<T>, r: seq<T>, i: nat, j: nat)
    requires Distinct(t) && multiset(r) == multiset(t)
    requires i < j < |r|
    ensures r[i] != r[j]
  {
    DistinctMultiplicity(t, r[j]);
    assert r == r[..j] + [r[j]] + r[j + 1..];
    assert multiset(r)[r[j]] == multiset(r[..j])[r[j]] + 1 + multiset(r[j + 1..])[r[j]];
    assert r[i] in r[..j];
  }

  /** No key is ranked twice. */
  lemma RankedDistinct<K(!new)>(s: seq<K>, i: nat, j: nat)
    requires i < j < |Ranked(s)|
    ensures Ranked(s)[i].0 != Ranked(s)[j].0
  {
    var t := Tally(s);
    DistinctKeysDistinct(t);
    PermutationDistinct(t, Ranked(s), i, j);
    var ki := RankedEntry(s, i);
    var kj := RankedEntry(s, j);
    assert ki != kj;
  }

  /** The first ranked entry has the largest count. */
  lemma RankedHeadIsMax<K(!new)>(s: seq<K>, x: K)
    requires x in s
    ensures |Ranked(s)| > 0 && Occurrences(s, x) <= Ranked(s)[0].1
  {
    var m := RankedFind(s, x);
  }

  /** Equal counts keep first-seen order: the stable sort does not reorder them. */
  lemma RankedTies<K(!new)>(s: seq<K>, i: nat, j: nat)
    requires i < j < |Ranked(s)| && Ranked(s)[i].1 == Ranked(s)[j].1
    ensures Ranked(s)[i].0 in s && Ranked(s)[j].0 in s
    ensures IndexOf(s, Ranked(s)[i].0) < IndexOf(s, Ranked(s)[j].0)
  {
    var t := Tally(s);
    TallyCounts(s);
    DistinctKeysDistinct(t);
    var ki := RankedEntry(s, i);
    var kj := RankedEntry(s, j);
    StableTies(t, EntryCount, i, j);
    DistinctFirstIndex(t, ki);
    DistinctFirstIndex(t, kj);
    assert Keys(t)[ki] == t[ki].0 && Keys(t)[kj] == t[kj].0;
    DedupeFirstSeen(s, ki, kj);
  }

  // ------------------------------------------------------ numbers as text

  /** The character of a decimal digit. */
  function DigitChar(d: nat): char
    requires d < 10
  {
    (48 + d) as char
  }

  predicate IsDigit(c: char)
  {
    '0' <= c <= '9'
  }

  /** `n.toString()` for a non-negative integer: its decimal digits. */
  function NatToString(n: nat): (s: string)
    ensures |s| >= 1
    ensures forall i :: 0 <= i < |s| ==> IsDigit(s[i])
  {
    if n < 10 then [DigitChar(n)] else NatToString(n / 10) + [DigitChar(n % 10)]
  }

  /** The number a string of decimal digits denotes. */
  function DigitsValue(s: string): int
  {
    if s == [] then 0 else 10 * DigitsValue(s[..|s| - 1]) + (s[|s| - 1] as int - 48)
  }

  /**
   * The digits read back to the number, and there is no leading zero except
   * in `"0"` itself.
   */
  lemma {:induction false} NatToStringValue(n: nat)
    ensures DigitsValue(NatToString(n)) == n
    ensures NatToString(n)[0] == '0' <==> n == 0
    ensures |NatToString(n)| == 1 <==> n < 10
  {
    if n >= 10 {
      NatToStringValue(n / 10);
      var s := NatToString(n);
      assert s[..|s| - 1] == NatToString(n / 10);
    }
  }

  /** `s.padStart(n, c)` with a one-character pad. */
  function PadStart(s: string, n: nat, c: char): (r: string)
    ensures |r| == if |s| >= n then |s| else n
    ensures r[|r| - |s|..] == s
    ensures forall i :: 0 <= i < |r| - |s| ==> r[i] == c
  {
    if |s| >= n then s else seq(n - |s|, _ => c) + s
  }
}
