/** The JavaScript array built-ins the core relies on: `filter` by owner and
    the stable `sort` (required of `Array.prototype.sort` since ES2019) with a
    comparator `(a, b) => key(a) - key(b)`. A descending sort is the same
    sort with the key negated. */
module Seqs {

  /** `s.filter(x => owner(x) === u)`: the elements owned by `u`, with their
      multiplicities. */
  function FilterByOwner<T(!new)>(s: seq<T>, owner: T -> string, u: string): (r: seq<T>)
    ensures forall x :: x in r ==> owner(x) == u
    ensures forall x :: owner(x) == u ==> multiset(r)[x] == multiset(s)[x]
    ensures |r| <= |s|
  {
    if s == [] then []
    else
      assert s == [s[0]] + s[1..];
      (if owner(s[0]) == u then [s[0]] else []) + FilterByOwner(s[1..], owner, u)
  }

  ghost predicate SortedBy<T>(s: seq<T>, key: T -> int)
  {
    forall i, j :: 0 <= i < j < |s| ==> key(s[i]) <= key(s[j])
  }

  /** Inserts `x` before the first element whose key is not smaller. */
  function Insert<T>(x: T, s: seq<T>, key: T -> int): (r: seq<T>)
    ensures |r| == |s| + 1
    ensures multiset(r) == multiset(s) + multiset{x}
  {
    if s == [] || key(x) <= key(s[0]) then [x] + s
    else
      assert s == [s[0]] + s[1..];
      [s[0]] + Insert(x, s[1..], key)
  }

  /** The stable sort by ascending key, as an insertion sort. */
  function SortBy<T>(s: seq<T>, key: T -> int): (r: seq<T>)
    ensures |r| == |s|
    ensures multiset(r) == multiset(s)
  {
    if s == [] then []
    else
      assert s == [s[0]] + s[1..];
      Insert(s[0], SortBy(s[1..], key), key)
  }

  /** `xs.join(sep)`: the items with `sep` between each two neighbours. */
  function JoinWith<T>(xs: seq<seq<T>>, sep: seq<T>): seq<T>
  {
    if xs == [] then []
    else if |xs| == 1 then xs[0]
    else xs[0] + sep + JoinWith(xs[1..], sep)
  }

  /** Prefixing an element to the first item prefixes it to the join. */
  lemma JoinPrefixFirst<T>(c: T, rest: seq<seq<T>>, sep: seq<T>)
    requires rest != []
    ensures JoinWith([[c] + rest[0]] + rest[1..], sep) == [c] + JoinWith(rest, sep)
  {
    var first := [c] + rest[0];
    var pieces := [first] + rest[1..];
    if |rest| >= 2 {
      var tail := sep + JoinWith(rest[1..], sep);
      assert pieces[0] == first && pieces[1..] == rest[1..];
      assert JoinWith(pieces, sep) == first + tail;
      assert JoinWith(rest, sep) == rest[0] + tail;
      assert first + tail == [c] + (rest[0] + tail);
    } else {
      assert JoinWith(pieces, sep) == first;
    }
  }

  /** One step of `Insert`: before a head whose key is not smaller. */
  lemma InsertFront<T>(x: T, s: seq<T>, key: T -> int)
    requires s == [] || key(x) <= key(s[0])
    ensures Insert(x, s, key) == [x] + s
  {
  }

  /** One step of `Insert`: past a head with a smaller key. */
  lemma InsertPast<T>(x: T, s: seq<T>, key: T -> int)
    requires s != [] && key(x) > key(s[0])
    ensures Insert(x, s, key) == [s[0]] + Insert(x, s[1..], key)
  {
  }

  /** A list built by two steps of `Insert`, rewritten as one display. */
  lemma FlattenPrepends<T>(a: T, b: T, c: T, d: T)
    ensures [a] + ([b] + [c, d]) == [a, b, c, d]
  {
  }

  /** One step of `SortBy`: the head is inserted into the sorted tail. */
  lemma SortByStep<T>(s: seq<T>, key: T -> int)
    requires s != []
    ensures SortBy(s, key) == Insert(s[0], SortBy(s[1..], key), key)
  {
  }

  /** The elements of `s` whose key is `k`, in their order in `s`. */
  function KeyFilter<T>(s: seq<T>, key: T -> int, k: int): seq<T>
  {
    if s == [] then []
    else (if key(s[0]) == k then [s[0]] else []) + KeyFilter(s[1..], key, k)
  }

  /** A lower bound on the keys of `x` and of `s` bounds the keys of the result. */
  lemma {:induction false} InsertBound<T>(x: T, s: seq<T>, key: T -> int, b: int)
    requires b <= key(x)
    requires forall i :: 0 <= i < |s| ==> b <= key(s[i])
    ensures forall i :: 0 <= i < |s| + 1 ==> b <= key(Insert(x, s, key)[i])
  {
    if s != [] && key(x) > key(s[0]) {
      InsertBound(x, s[1..], key, b);
    }
  }

  lemma {:induction false} InsertSorted<T>(x: T, s: seq<T>, key: T -> int)
    requires SortedBy(s, key)
    ensures SortedBy(Insert(x, s, key), key)
  {
    if s != [] && key(x) > key(s[0]) {
      var tail := Insert(x, s[1..], key);
      InsertSorted(x, s[1..], key);
      InsertBound(x, s[1..], key, key(s[0]));
      var r := [s[0]] + tail;
      assert forall j :: 1 <= j < |r| ==> r[j] == tail[j - 1];
    }
  }

  /** The result of the sort is in ascending key order. */
  lemma {:induction false} SortBySorted<T>(s: seq<T>, key: T -> int)
    ensures SortedBy(SortBy(s, key), key)
  {
    if s != [] {
      SortBySorted(s[1..], key);
      InsertSorted(s[0], SortBy(s[1..], key), key);
    }
  }

  lemma {:induction false} KeyFilterCons<T>(x: T, s: seq<T>, key: T -> int, k: int)
    ensures KeyFilter([x] + s, key, k) == (if key(x) == k then [x] else []) + KeyFilter(s, key, k)
  {
    assert ([x] + s)[0] == x;
    assert ([x] + s)[1..] == s;
  }

  lemma {:induction false} InsertStable<T>(x: T, s: seq<T>, key: T -> int, k: int)
    ensures KeyFilter(Insert(x, s, key), key, k) == (if key(x) == k then [x] else []) + KeyFilter(s, key, k)
  {
    if s == [] || key(x) <= key(s[0]) {
      InsertFront(x, s, key);
      KeyFilterCons(x, s, key, k);
      assert [] + KeyFilter(s, key, k) == KeyFilter(s, key, k);
    } else {
      var rest := Insert(x, s[1..], key);
      InsertPast(x, s, key);
      InsertStable(x, s[1..], key, k);
      KeyFilterCons(s[0], rest, key, k);
      var tail := KeyFilter(s[1..], key, k);
      assert KeyFilter(s, key, k) == (if key(s[0]) == k then [s[0]] else []) + tail;
      if key(x) == k {
        assert KeyFilter(s, key, k) == tail;
        assert KeyFilter([s[0]] + rest, key, k) == [x] + tail;
      } else {
        assert KeyFilter([s[0]] + rest, key, k) == KeyFilter(s, key, k);
        assert [] + KeyFilter(s, key, k) == KeyFilter(s, key, k);
      }
    }
  }

  /** Stability: the elements sharing any one key keep their input order. */
  lemma {:induction false} SortByStable<T>(s: seq<T>, key: T -> int, k: int)
    ensures KeyFilter(SortBy(s, key), key, k) == KeyFilter(s, key, k)
  {
    if s != [] {
      SortByStable(s[1..], key, k);
      InsertStable(s[0], SortBy(s[1..], key), key, k);
    }
  }

  /** The elements with key `k` in a prefix are a prefix of those in the whole. */
  lemma {:induction false} KeyFilterPrefix<T>(s: seq<T>, n: nat, key: T -> int, k: int)
    requires n <= |s|
    ensures KeyFilter(s[..n], key, k) <= KeyFilter(s, key, k)
  {
    if n > 0 {
      KeyFilterPrefix(s[1..], n - 1, key, k);
      assert s[..n][1..] == s[1..][..n - 1];
    }
  }

  /** `filter` keeps the input order: filtering a concatenation filters each
      part, and a one-element list keeps its element exactly when it is owned
      by `u`. Together these determine the filter of every list. */
  lemma {:induction false} FilterAppend<T(!new)>(a: seq<T>, b: seq<T>, owner: T -> string, u: string)
    ensures FilterByOwner(a + b, owner, u) == FilterByOwner(a, owner, u) + FilterByOwner(b, owner, u)
    decreases |a|
  {
    if a == [] {
      assert a + b == b;
    } else {
      assert (a + b)[0] == a[0];
      assert (a + b)[1..] == a[1..] + b;
      FilterAppend(a[1..], b, owner, u);
    }
  }

  lemma FilterSingle<T(!new)>(x: T, owner: T -> string, u: string)
    ensures FilterByOwner([x], owner, u) == if owner(x) == u then [x] else []
  {
    assert [x][1..] == [];
  }

  /** `s.filter(...)` is empty exactly when no element is owned by `u`. */
  lemma FilterEmptyIff<T(!new)>(s: seq<T>, owner: T -> string, u: string)
    ensures FilterByOwner(s, owner, u) == [] <==> forall i :: 0 <= i < |s| ==> owner(s[i]) != u
  {
    var r := FilterByOwner(s, owner, u);
    if r != [] {
      assert r[0] in multiset(r);
      assert r[0] in multiset(s);
      var i :| 0 <= i < |s| && s[i] == r[0];
    }
    if exists i :: 0 <= i < |s| && owner(s[i]) == u {
      var i :| 0 <= i < |s| && owner(s[i]) == u;
      assert s[i] in multiset(s);
      assert multiset(r)[s[i]] > 0;
    }
  }

  /** `s.map(f)` */
  function Map<A, B>(s: seq<A>, f: A -> B): (r: seq<B>)
    ensures |r| == |s|
    ensures forall i :: 0 <= i < |s| ==> r[i] == f(s[i])
  {
    seq(|s|, i requires 0 <= i < |s| => f(s[i]))
  }

  lemma MapAppend<A, B>(a: seq<A>, b: seq<A>, f: A -> B)
    ensures Map(a + b, f) == Map(a, f) + Map(b, f)
  {
  }

  /** Mapping two orderings of the same elements gives two orderings of the
      same images. */
  lemma {:induction false} MapPermutation<A, B>(s: seq<A>, t: seq<A>, f: A -> B)
    requires multiset(s) == multiset(t)
    ensures multiset(Map(s, f)) == multiset(Map(t, f))
    decreases |s|
  {
    if s == [] {
      assert |t| == |multiset(t)| == 0;
    } else {
      var n := |s| - 1;
      var j := MatchLast(s, t);
      var rest := t[..j] + t[j + 1..];
      MapPermutation(s[..n], rest, f);
      MapRemoveLast(s, f);
      MapRemoveAt(t, j, f);
    }
  }

  /** For two orderings of the same elements, a position of the last element
      of the first in the second; the rest of both are orderings of the same
      elements too. */
  lemma MatchLast<T>(s: seq<T>, t: seq<T>) returns (j: nat)
    requires s != [] && multiset(s) == multiset(t)
    ensures j < |t| && t[j] == s[|s| - 1]
    ensures multiset(s[..|s| - 1]) == multiset(t[..j] + t[j + 1..])
  {
    var n := |s| - 1;
    var x := s[n];
    assert s == s[..n] + [x];
    assert x in multiset(t);
    j :| 0 <= j < |t| && t[j] == x;
    var rest := t[..j] + t[j + 1..];
    assert t == t[..j] + [x] + t[j + 1..];
    assert multiset(t) == multiset(rest) + multiset{x};
    assert multiset(s[..n]) == multiset(s) - multiset{x};
  }

  lemma MapRemoveLast<A, B>(s: seq<A>, f: A -> B)
    requires s != []
    ensures multiset(Map(s, f)) == multiset(Map(s[..|s| - 1], f)) + multiset{f(s[|s| - 1])}
  {
    var n := |s| - 1;
    assert s == s[..n] + [s[n]];
    MapAppend(s[..n], [s[n]], f);
  }

  lemma MapRemoveAt<A, B>(t: seq<A>, j: nat, f: A -> B)
    requires j < |t|
    ensures multiset(Map(t, f)) == multiset(Map(t[..j] + t[j + 1..], f)) + multiset{f(t[j])}
  {
    assert t == t[..j] + [t[j]] + t[j + 1..];
    MapAppend(t[..j] + [t[j]], t[j + 1..], f);
    MapAppend(t[..j], [t[j]], f);
    MapAppend(t[..j], t[j + 1..], f);
  }

  /** No element occurs twice. */
  ghost predicate Distinct<T>(s: seq<T>)
  {
    forall i, j :: 0 <= i < j < |s| ==> s[i] != s[j]
  }

  lemma {:induction false} DistinctOnce<T>(s: seq<T>, x: T)
    requires Distinct(s)
    ensures multiset(s)[x] <= 1
    decreases |s|
  {
    if s != [] {
      var n := |s| - 1;
      assert s == s[..n] + [s[n]];
      assert Distinct(s[..n]);
      DistinctOnce(s[..n], x);
      if s[n] == x {
        assert x !in s[..n];
      }
    }
  }

  lemma NotTwice<T>(t: seq<T>, i: int, j: int)
    requires 0 <= i < j < |t|
    requires multiset(t)[t[i]] <= 1
    ensures t[i] != t[j]
  {
    assert t == t[..j] + t[j..];
    assert t[i] in t[..j];
    assert t[j] in t[j..];
  }

  /** A reordering of a sequence without repetitions has none either. */
  lemma DistinctPermutation<T>(s: seq<T>, t: seq<T>)
    requires multiset(s) == multiset(t)
    requires Distinct(s)
    ensures Distinct(t)
  {
    forall i, j | 0 <= i < j < |t| ensures t[i] != t[j] {
      DistinctOnce(s, t[i]);
      NotTwice(t, i, j);
    }
  }

  /** The elements of a sorted filter all come from the input and have the owner. */
  lemma FilterSortMembers<T(!new)>(s: seq<T>, owner: T -> string, u: string, key: T -> int)
    ensures forall x :: x in SortBy(FilterByOwner(s, owner, u), key) ==> owner(x) == u && x in s
  {
    var f := FilterByOwner(s, owner, u);
    var r := SortBy(f, key);
    forall x | x in r ensures owner(x) == u && x in s {
      assert x in multiset(r);
      assert x in multiset(f);
      assert x in f;
      assert x in multiset(s);
    }
  }

  /** After filtering and sorting, the first element has the smallest key and
      the last the largest among all the input elements with the owner. */
  lemma FilterSortExtremes<T(!new)>(s: seq<T>, owner: T -> string, u: string, key: T -> int)
    ensures var r := SortBy(FilterByOwner(s, owner, u), key);
      r != [] ==> forall i :: 0 <= i < |s| && owner(s[i]) == u ==> key(r[0]) <= key(s[i]) <= key(r[|r| - 1])
  {
    var f := FilterByOwner(s, owner, u);
    var r := SortBy(f, key);
    SortBySorted(f, key);
    forall i | 0 <= i < |s| && owner(s[i]) == u
      ensures key(r[0]) <= key(s[i]) <= key(r[|r| - 1])
    {
      assert s[i] in multiset(s);
      assert multiset(f)[s[i]] == multiset(s)[s[i]];
      assert s[i] in multiset(r);
      var k :| 0 <= k < |r| && r[k] == s[i];
      if k > 0 {
        assert key(r[0]) <= key(r[k]);
      }
      if k < |r| - 1 {
        assert key(r[k]) <= key(r[|r| - 1]);
      }
    }
  }

  /** The first element after filtering and sorting: absent exactly when no
      element has the owner, otherwise an input element with the owner and
      the smallest key among them. */
  lemma FilterSortFirst<T(!new)>(s: seq<T>, owner: T -> string, u: string, key: T -> int)
    ensures var r := SortBy(FilterByOwner(s, owner, u), key);
      && (r == [] <==> forall i :: 0 <= i < |s| ==> owner(s[i]) != u)
      && (r != [] ==> r[0] in s && owner(r[0]) == u)
      && (r != [] ==> forall i :: 0 <= i < |s| && owner(s[i]) == u ==> key(r[0]) <= key(s[i]))
  {
    var r := SortBy(FilterByOwner(s, owner, u), key);
    FilterEmptyIff(s, owner, u);
    FilterSortMembers(s, owner, u, key);
    FilterSortExtremes(s, owner, u, key);
    if r != [] {
      assert r[0] in r;
    }
  }

  /** The last element after filtering and sorting: absent exactly when no
      element has the owner, otherwise an input element with the owner and
      the largest key among them. */
  lemma FilterSortLast<T(!new)>(s: seq<T>, owner: T -> string, u: string, key: T -> int)
    ensures var r := SortBy(FilterByOwner(s, owner, u), key);
      && (r == [] <==> forall i :: 0 <= i < |s| ==> owner(s[i]) != u)
      && (r != [] ==> r[|r| - 1] in s && owner(r[|r| - 1]) == u)
      && (r != [] ==> forall i :: 0 <= i < |s| && owner(s[i]) == u ==> key(s[i]) <= key(r[|r| - 1]))
  {
    var r := SortBy(FilterByOwner(s, owner, u), key);
    FilterEmptyIff(s, owner, u);
    FilterSortMembers(s, owner, u, key);
    FilterSortExtremes(s, owner, u, key);
    if r != [] {
      assert r[|r| - 1] in r;
    }
  }
}
