/**
 * Shared vocabulary for the security suite: optional values, time units in
 * milliseconds, ASCII text helpers, bounded histories, filtering and
 * counting over sequences, the expiry sweep that every component runs over
 * its maps, and a stable descending sort by an integer key.
 */
module Common {

  datatype Option<T> = None | Some(value: T)

  // Time units, in milliseconds (the unit of Date.now()).
  const Second: int := 1000
  const Minute: int := 60 * Second
  const Hour: int := 60 * Minute
  const Day: int := 24 * Hour

  // ---------------------------------------------------------------- text

  predicate IsUpperAscii(c: char) { 'A' <= c <= 'Z' }
  predicate IsLowerAscii(c: char) { 'a' <= c <= 'z' }
  predicate IsDigit(c: char) { '0' <= c <= '9' }
  predicate IsLetter(c: char) { IsUpperAscii(c) || IsLowerAscii(c) }

  /** toLowerCase on one character, for the ASCII letters. */
  function LowerChar(c: char): (r: char)
    ensures IsUpperAscii(c) ==> IsLowerAscii(r)
    ensures !IsUpperAscii(c) ==> r == c
  {
    if IsUpperAscii(c) then (c as int + 32) as char else c
  }

  /** toLowerCase on a string, for the ASCII letters. */
  function Lower(s: string): (r: string)
    ensures |r| == |s|
    ensures forall i :: 0 <= i < |s| ==> r[i] == LowerChar(s[i])
  {
    seq(|s|, i requires 0 <= i < |s| => LowerChar(s[i]))
  }

  predicate StartsWith(s: string, prefix: string) {
    |prefix| <= |s| && s[..|prefix|] == prefix
  }

  /** `s.endsWith(suffix)`. */
  predicate EndsWith(s: string, suffix: string) {
    |suffix| <= |s| && s[|s| - |suffix|..] == suffix
  }

  /** `t` occurs in `s` starting at position `i`. */
  predicate OccursAt(s: string, t: string, i: int) {
    0 <= i <= |s| - |t| && s[i..i + |t|] == t
  }

  /** String.prototype.includes: `t` occurs in `s` at some position. */
  predicate Contains(s: string, t: string) {
    exists i | 0 <= i <= |s| - |t| :: OccursAt(s, t, i)
  }

  lemma ContainsInPrefix(s: string, more: string, t: string)
    requires Contains(s, t)
    ensures Contains(s + more, t)
  {
    var i :| 0 <= i <= |s| - |t| && OccursAt(s, t, i);
    assert (s + more)[i..i + |t|] == s[i..i + |t|];
    assert OccursAt(s + more, t, i);
  }

  lemma ContainsInSuffix(more: string, s: string, t: string)
    requires Contains(s, t)
    ensures Contains(more + s, t)
  {
    var i :| 0 <= i <= |s| - |t| && OccursAt(s, t, i);
    assert (more + s)[|more| + i..|more| + i + |t|] == s[i..i + |t|];
    assert OccursAt(more + s, t, |more| + i);
  }

  /** Array.prototype.join. */
  function Join(parts: seq<string>, sep: string): (r: string)
    ensures parts == [] ==> r == ""
    ensures |parts| == 1 ==> r == parts[0]
  {
    if |parts| == 0 then ""
    else if |parts| == 1 then parts[0]
    else parts[0] + sep + Join(parts[1..], sep)
  }

  /** Joining one more part appends the separator and that part. */
  lemma {:induction false} JoinSnoc(parts: seq<string>, sep: string, last: string)
    requires parts != []
    ensures Join(parts + [last], sep) == Join(parts, sep) + sep + last
  {
    if |parts| == 1 {
      assert parts + [last] == [parts[0], last];
      assert ([parts[0], last])[1..] == [last];
    } else {
      assert (parts + [last])[1..] == parts[1..] + [last];
      JoinSnoc(parts[1..], sep, last);
    }
  }

  /** Decimal rendering of a natural number, as String(n) gives it. */
  function NatToString(n: nat): (r: string)
    ensures |r| >= 1
    ensures forall i :: 0 <= i < |r| ==> IsDigit(r[i])
  {
    if n < 10 then [DigitChar(n)] else NatToString(n / 10) + [DigitChar(n % 10)]
  }

  function DigitChar(d: nat): (c: char)
    requires d < 10
    ensures IsDigit(c) && c as int - '0' as int == d
  {
    ('0' as int + d) as char
  }

  // -------------------------------------------------------- sequences

  /** `s.slice(-n)` when `s` is longer than `n`: the newest `n` entries. */
  function KeepLast<T>(s: seq<T>, n: nat): (r: seq<T>)
    ensures |r| == if |s| <= n then |s| else n
    ensures r == s[|s| - |r|..]
  {
    if |s| > n then s[|s| - n..] else s
  }

  /** Appending to a history capped at `cap` entries (push, then slice(-cap)). */
  function PushCapped<T>(s: seq<T>, x: T, cap: nat): (r: seq<T>)
    requires cap > 0
    ensures |r| <= cap
    ensures |r| == if |s| < cap then |s| + 1 else cap
    ensures r[|r| - 1] == x
    ensures r[..|r| - 1] == (s + [x])[|s| + 1 - |r|..|s|]
  {
    KeepLast(s + [x], cap)
  }

  /** Array.prototype.filter. */
  function Filter<T(!new)>(s: seq<T>, p: T -> bool): (r: seq<T>)
    ensures |r| <= |s|
    ensures forall x :: x in r <==> x in s && p(x)
    ensures forall i :: 0 <= i < |r| ==> p(r[i])
  {
    if s == [] then []
    else if p(s[0]) then [s[0]] + Filter(s[1..], p)
    else Filter(s[1..], p)
  }

  /** The number of elements of `s` that satisfy `p` (filter(p).length). */
  function Count<T>(s: seq<T>, p: T -> bool): (n: nat)
    ensures n <= |s|
    ensures n == 0 <==> forall x :: x in s ==> !p(x)
  {
    if s == [] then 0
    else (if p(s[0]) then 1 else 0) + Count(s[1..], p)
  }

  /** Filtering a list one entry longer keeps that entry last, if at all. */
  lemma {:induction false} FilterSnoc<T(!new)>(s: seq<T>, x: T, p: T -> bool)
    ensures Filter(s + [x], p) == Filter(s, p) + (if p(x) then [x] else [])
  {
    if s == [] {
      assert s + [x] == [x];
      assert [x][1..] == [];
    } else {
      assert (s + [x])[0] == s[0];
      assert (s + [x])[1..] == s[1..] + [x];
      FilterSnoc(s[1..], x, p);
    }
  }

  /** Nothing passes a filter no entry satisfies. */
  lemma {:induction false} FilterNone<T(!new)>(s: seq<T>, p: T -> bool)
    requires forall x :: x in s ==> !p(x)
    ensures Filter(s, p) == []
  {
    if s != [] {
      assert forall x :: x in s[1..] ==> x in s;
      FilterNone(s[1..], p);
    }
  }

  lemma {:induction false} CountIsFilterLength<T(!new)>(s: seq<T>, p: T -> bool)
    ensures Count(s, p) == |Filter(s, p)|
  {
    if s != [] {
      CountIsFilterLength(s[1..], p);
    }
  }

  lemma {:induction false} CountAppend<T>(s: seq<T>, t: seq<T>, p: T -> bool)
    ensures Count(s + t, p) == Count(s, p) + Count(t, p)
  {
    if s == [] {
      assert s + t == t;
    } else {
      assert (s + t)[1..] == s[1..] + t;
      CountAppend(s[1..], t, p);
    }
  }

  /** `r` is `s` with some entries left out and the rest in their original order. */
  ghost predicate IsSubsequence<T>(r: seq<T>, s: seq<T>)
    decreases |s|
  {
    if r == [] then true
    else if s == [] then false
    else (r[0] == s[0] && IsSubsequence(r[1..], s[1..])) || IsSubsequence(r, s[1..])
  }

  /** Filtering keeps the order of what it keeps. */
  lemma {:induction false} FilterIsSubsequence<T(!new)>(s: seq<T>, p: T -> bool)
    ensures IsSubsequence(Filter(s, p), s)
  {
    if s != [] {
      FilterIsSubsequence(s[1..], p);
      var r := Filter(s, p);
      if p(s[0]) {
        assert r[0] == s[0] && r[1..] == Filter(s[1..], p);
      } else if r != [] {
        assert r == Filter(s[1..], p);
      }
    }
  }

  /** Distinct elements, as a JavaScript Set holds them. */
  predicate NoDuplicates<T(==)>(s: seq<T>) {
    forall i, j :: 0 <= i < j < |s| ==> s[i] != s[j]
  }

  /** Filtering a list of distinct elements leaves them distinct. */
  lemma {:induction false} FilterKeepsNoDuplicates<T(!new)>(s: seq<T>, p: T -> bool)
    requires NoDuplicates(s)
    ensures NoDuplicates(Filter(s, p))
  {
    if s != [] {
      FilterKeepsNoDuplicates(s[1..], p);
      var rest := Filter(s[1..], p);
      assert s[0] !in s[1..] by {
        forall j | 0 <= j < |s[1..]| ensures s[1..][j] != s[0] {
          assert s[1..][j] == s[j + 1];
        }
      }
      assert s[0] !in rest;
    }
  }

  /** Appending an element not yet present keeps a list distinct. */
  lemma AppendFresh<T>(s: seq<T>, x: T)
    requires NoDuplicates(s) && x !in s
    ensures NoDuplicates(s + [x])
  {
  }

  /** Set.prototype.add on an insertion-ordered set kept as a sequence. */
  function AddToSet<T(==,!new)>(s: seq<T>, x: T): (r: seq<T>)
    ensures x in r
    ensures forall y :: y in r <==> y in s || y == x
    ensures NoDuplicates(s) ==> NoDuplicates(r)
    ensures x in s ==> r == s
  {
    if x in s then s else s + [x]
  }

  /** `[...new Set(s)]`: first occurrences, in order. */
  function Dedup<T(==,!new)>(s: seq<T>): (r: seq<T>)
    ensures NoDuplicates(r)
    ensures forall x :: x in r <==> x in s
  {
    DedupOnto([], s)
  }

  function DedupOnto<T(==,!new)>(acc: seq<T>, s: seq<T>): (r: seq<T>)
    requires NoDuplicates(acc)
    ensures NoDuplicates(r)
    ensures forall x :: x in r <==> x in acc || x in s
    ensures |acc| <= |r| && r[..|acc|] == acc
    decreases |s|
  {
    if s == [] then acc else DedupOnto(AddToSet(acc, s[0]), s[1..])
  }

  /** Merging into a list without duplicates keeps that list as a prefix. */
  lemma DedupKeepsDistinctPrefix<T(!new)>(s: seq<T>, more: seq<T>)
    requires NoDuplicates(s)
    ensures |s| <= |Dedup(s + more)| && Dedup(s + more)[..|s|] == s
  {
    DedupPrefix([], s, more);
  }

  lemma {:induction false} DedupPrefix<T(!new)>(acc: seq<T>, s: seq<T>, more: seq<T>)
    requires NoDuplicates(acc) && NoDuplicates(acc + s)
    ensures |acc + s| <= |DedupOnto(acc, s + more)|
    ensures DedupOnto(acc, s + more)[..|acc + s|] == acc + s
    decreases |s|
  {
    if s == [] {
      assert acc + s == acc;
      assert s + more == more;
    } else {
      forall i | 0 <= i < |acc| ensures acc[i] != s[0] {
        assert (acc + s)[i] == acc[i] && (acc + s)[|acc|] == s[0];
      }
      var acc' := AddToSet(acc, s[0]);
      assert acc' == acc + [s[0]];
      assert acc' + s[1..] == acc + s;
      assert (s + more)[0] == s[0] && (s + more)[1..] == s[1..] + more;
      DedupPrefix(acc', s[1..], more);
    }
  }

  /**
   * Appending to the input appends the element to the result exactly when
   * it has not occurred yet: the result lists first occurrences in order.
   */
  lemma DedupSnoc<T(!new)>(s: seq<T>, x: T)
    ensures Dedup(s + [x]) == if x in s then Dedup(s) else Dedup(s) + [x]
  {
    DedupOntoSnoc([], s, x);
  }

  lemma {:induction false} DedupOntoSnoc<T(!new)>(acc: seq<T>, s: seq<T>, x: T)
    requires NoDuplicates(acc)
    ensures DedupOnto(acc, s + [x]) == AddToSet(DedupOnto(acc, s), x)
    decreases |s|
  {
    if s == [] {
      assert s + [x] == [x];
      assert [x][1..] == [];
    } else {
      assert (s + [x])[0] == s[0] && (s + [x])[1..] == s[1..] + [x];
      DedupOntoSnoc(AddToSet(acc, s[0]), s[1..], x);
    }
  }

  /** A list without duplicates is its own deduplication. */
  lemma {:induction false} DedupDistinct<T(!new)>(s: seq<T>)
    requires NoDuplicates(s)
    ensures Dedup(s) == s
    decreases |s|
  {
    if s != [] {
      var init, x := s[..|s| - 1], s[|s| - 1];
      assert s == init + [x];
      DedupDistinct(init);
      DedupSnoc(init, x);
    }
  }

  /** The elements outside `acc`. */
  function Outside<T(==)>(acc: seq<T>): T -> bool
  {
    (x: T) => x !in acc
  }

  /**
   * `[...new Set([...acc, ...s])]` for a list `acc` without duplicates: `acc`
   * unchanged, then the first occurrences of the elements of `s` not in
   * `acc`, in the order they occur in `s`.
   */
  lemma {:induction false} DedupAppend<T(!new)>(acc: seq<T>, s: seq<T>)
    requires NoDuplicates(acc)
    ensures Dedup(acc + s) == acc + Dedup(Filter(s, Outside(acc)))
    decreases |s|
  {
    if s == [] {
      assert acc + s == acc;
      DedupDistinct(acc);
    } else {
      var init, x := s[..|s| - 1], s[|s| - 1];
      var f := Filter(init, Outside(acc));
      assert s == init + [x];
      assert Dedup(acc + s) == AddToSet(Dedup(acc + init), x) by {
        assert acc + s == (acc + init) + [x];
        DedupOntoSnoc([], acc + init, x);
      }
      DedupAppend(acc, init);
      AddToSetAfter(acc, Dedup(f), x);
      FilterSnoc(init, x, Outside(acc));
      if x in acc {
        assert !Outside(acc)(x);
        assert Filter(s, Outside(acc)) == f;
      } else {
        assert Outside(acc)(x);
        assert Filter(s, Outside(acc)) == f + [x];
        DedupOntoSnoc([], f, x);
      }
    }
  }

  /** Adding to `acc + d` adds to `d` unless `acc` already holds the element. */
  lemma AddToSetAfter<T(!new)>(acc: seq<T>, d: seq<T>, x: T)
    ensures x in acc ==> AddToSet(acc + d, x) == acc + d
    ensures x !in acc ==> AddToSet(acc + d, x) == acc + AddToSet(d, x)
  {
    if x !in acc && x !in d {
      assert acc + d + [x] == acc + (d + [x]);
    }
  }

  // ------------------------------------------------------------ maps

  /** Map.prototype.get: the stored value, or nothing for an absent key. */
  function Find<K, V>(m: map<K, V>, k: K): (r: Option<V>)
    ensures r.Some? <==> k in m
    ensures r.Some? ==> r.value == m[k]
  {
    if k in m then Some(m[k]) else None
  }

  /** A second update of the same key overrides the first. */
  lemma UpdateTwice<K, V>(m: map<K, V>, k: K, a: V, b: V)
    ensures m[k := a][k := b] == m[k := b]
  {
  }

  /** `m.get(k) || 0` for a map of counters. */
  function GetOrZero<K>(m: map<K, nat>, k: K): nat {
    if k in m then m[k] else 0
  }

  /**
   * The expiry sweep every component runs over one of its maps: walk the
   * entries and delete each whose value is expired. The result keeps exactly
   * the live entries, with their values untouched.
   */
  method Sweep<K, V>(m: map<K, V>, expired: V -> bool) returns (r: map<K, V>)
    ensures r.Keys == set k | k in m && !expired(m[k])
    ensures forall k :: k in r ==> r[k] == m[k]
  {
    r := m;
    var todo := m.Keys;
    while todo != {}
      invariant todo <= m.Keys
      invariant forall k :: k in m ==> (k in r <==> k in todo || !expired(m[k]))
      invariant forall k :: k in r ==> k in m && r[k] == m[k]
      decreases todo
    {
      var k :| k in todo;
      if expired(m[k]) {
        r := r - {k};
      }
      todo := todo - {k};
    }
  }

  // ----------------------------------------------------------- sorting

  predicate SortedDesc<T>(s: seq<T>, key: T -> int) {
    forall i, j :: 0 <= i < j < |s| ==> key(s[i]) >= key(s[j])
  }

  /** Inserts `x` into a list sorted by descending key, after every entry whose key is at least its own. */
  function InsertDesc<T>(x: T, s: seq<T>, key: T -> int): (r: seq<T>)
    ensures |r| == |s| + 1
  {
    if s == [] then [x]
    else if key(s[0]) >= key(x) then [s[0]] + InsertDesc(x, s[1..], key)
    else [x] + s
  }

  /** Insertion adds exactly `x`. */
  lemma {:induction false} InsertDescAddsOne<T>(x: T, s: seq<T>, key: T -> int)
    ensures multiset(InsertDesc(x, s, key)) == multiset(s) + multiset{x}
    ensures forall y :: y in InsertDesc(x, s, key) ==> y == x || y in s
  {
    if s != [] {
      assert s == [s[0]] + s[1..];
      if key(s[0]) >= key(x) {
        InsertDescAddsOne(x, s[1..], key);
      }
    }
    var r := InsertDesc(x, s, key);
    forall y | y in r ensures y == x || y in s {
      assert y in multiset(r);
    }
  }

  /** Insertion keeps a sorted list sorted. */
  lemma {:induction false} InsertDescSorted<T>(x: T, s: seq<T>, key: T -> int)
    requires SortedDesc(s, key)
    ensures SortedDesc(InsertDesc(x, s, key), key)
  {
    if s != [] {
      if key(s[0]) >= key(x) {
        var tail := s[1..];
        SortedDescTail(s, key);
        InsertDescSorted(x, tail, key);
        InsertDescAddsOne(x, tail, key);
        var rest := InsertDesc(x, tail, key);
        forall k | 0 <= k < |rest| ensures key(s[0]) >= key(rest[k]) {
          assert rest[k] in rest;
          if rest[k] != x {
            assert rest[k] in tail;
            var m :| 0 <= m < |tail| && tail[m] == rest[k];
            assert s[m + 1] == rest[k];
          }
        }
        ConsSorted(s[0], rest, key);
      } else {
        ConsSorted(x, s, key);
      }
    }
  }

  /** An entry whose key is at least every key of a sorted list can go in front of it. */
  lemma ConsSorted<T>(h: T, s: seq<T>, key: T -> int)
    requires SortedDesc(s, key)
    requires forall k :: 0 <= k < |s| ==> key(h) >= key(s[k])
    ensures SortedDesc([h] + s, key)
  {
    var r := [h] + s;
    forall i, j | 0 <= i < j < |r| ensures key(r[i]) >= key(r[j]) {
      assert r[j] == s[j - 1];
      if i > 0 {
        assert r[i] == s[i - 1];
      }
    }
  }

  /**
   * Array.prototype.sort with comparator (a, b) => key(b) - key(a): a stable
   * sort into descending key order (an insertion sort that places each later
   * entry after the earlier ones with an equal key). Stability: for every key
   * value, the entries with that key come out in their input order.
   */
  function SortDesc<T(!new)>(s: seq<T>, key: T -> int): (r: seq<T>)
    ensures SortedDesc(r, key)
    ensures multiset(r) == multiset(s)
    ensures |r| == |s|
    ensures forall k :: Filter(r, KeyIs(key, k)) == Filter(s, KeyIs(key, k))
    decreases |s|
  {
    if s == [] then []
    else
      var init := s[..|s| - 1];
      assert s == init + [s[|s| - 1]];
      InsertDescAddsOne(s[|s| - 1], SortDesc(init, key), key);
      InsertDescSorted(s[|s| - 1], SortDesc(init, key), key);
      InsertLastStable(init, s[|s| - 1], SortDesc(init, key), key);
      InsertDesc(s[|s| - 1], SortDesc(init, key), key)
  }

  /** The entries whose key is exactly `k`. */
  function KeyIs<T>(key: T -> int, k: int): T -> bool
  {
    (x: T) => key(x) == k
  }

  /** Insertion puts `x` after every entry of its own key and moves no other entry past one of equal key. */
  lemma {:induction false} InsertDescStable<T(!new)>(x: T, s: seq<T>, key: T -> int, k: int)
    requires SortedDesc(s, key)
    ensures Filter(InsertDesc(x, s, key), KeyIs(key, k)) == Filter(s, KeyIs(key, k)) + (if key(x) == k then [x] else [])
  {
    if s == [] {
      assert [x][1..] == [];
    } else if key(s[0]) >= key(x) {
      SortedDescTail(s, key);
      InsertDescStable(x, s[1..], key, k);
      var r := InsertDesc(x, s, key);
      assert r[0] == s[0] && r[1..] == InsertDesc(x, s[1..], key);
    } else {
      assert ([x] + s)[1..] == s;
      if key(x) == k {
        NoneAboveHead(s, key, k);
      }
    }
  }

  /** The tail of a descending list is descending. */
  lemma SortedDescTail<T>(s: seq<T>, key: T -> int)
    requires s != [] && SortedDesc(s, key)
    ensures SortedDesc(s[1..], key)
  {
    var tail := s[1..];
    forall i, j | 0 <= i < j < |tail| ensures key(tail[i]) >= key(tail[j]) {
      assert tail[i] == s[i + 1] && tail[j] == s[j + 1];
    }
  }

  /** No entry of a descending list has a key above its first entry's. */
  lemma NoneAboveHead<T(!new)>(s: seq<T>, key: T -> int, k: int)
    requires s != [] && SortedDesc(s, key) && key(s[0]) < k
    ensures Filter(s, KeyIs(key, k)) == []
  {
    forall y | y in s ensures !KeyIs(key, k)(y) {
      var m :| 0 <= m < |s| && s[m] == y;
      assert key(s[0]) >= key(s[m]);
    }
    FilterNone(s, KeyIs(key, k));
  }

  /**
   * Inserting the last entry into a stable sort of the others keeps the sort
   * stable: per key, the result lists the entries in the order of `init + [x]`.
   */
  lemma InsertLastStable<T(!new)>(init: seq<T>, x: T, sorted: seq<T>, key: T -> int)
    requires SortedDesc(sorted, key)
    requires forall k :: Filter(sorted, KeyIs(key, k)) == Filter(init, KeyIs(key, k))
    ensures forall k :: Filter(InsertDesc(x, sorted, key), KeyIs(key, k)) == Filter(init + [x], KeyIs(key, k))
  {
    forall k ensures Filter(InsertDesc(x, sorted, key), KeyIs(key, k)) == Filter(init + [x], KeyIs(key, k)) {
      InsertDescStable(x, sorted, key, k);
      FilterSnoc(init, x, KeyIs(key, k));
    }
  }

  /** The first `n` entries of a descending list outrank every entry left out. */
  lemma PrefixOutranksRest<T>(s: seq<T>, key: T -> int, n: nat)
    requires SortedDesc(s, key) && n <= |s|
    ensures multiset(s[..n]) <= multiset(s)
    ensures forall e, f :: e in multiset(s) - multiset(s[..n]) && f in s[..n] ==> key(f) >= key(e)
  {
    assert s == s[..n] + s[n..];
    assert multiset(s) == multiset(s[..n]) + multiset(s[n..]);
    forall e, f | e in multiset(s) - multiset(s[..n]) && f in s[..n] ensures key(f) >= key(e) {
      assert e in s[n..];
      var j :| 0 <= j < |s| - n && s[n..][j] == e;
      var i :| 0 <= i < n && s[..n][i] == f;
      assert s[i] == f && s[n + j] == e;
    }
  }

  /** `xs.slice(0, n)` of a descending list: every entry left out ranks no higher than any kept one. */
  lemma TopOfSorted<T>(s: seq<T>, key: T -> int, n: nat)
    requires SortedDesc(s, key)
    ensures SortedDesc(s[..if |s| <= n then |s| else n], key)
    ensures forall i, j :: 0 <= i < (if |s| <= n then |s| else n) <= j < |s| ==> key(s[i]) >= key(s[j])
  {
  }
}
