/** Shared vocabulary of the backend model: optional values, document
    identifiers, JavaScript truthiness and the sequence utilities that the
    controllers use (`new Set`, `reduce`, sorting of query results). */
module Common {

  datatype Option<T> = None | Some(value: T)

  /** Identifier of a stored document (a MongoDB ObjectId, compared by value). */
  type Id = nat

  /** A Socket.IO connection id. */
  type SocketId = string

  /** JavaScript truthiness of an optional string field: absent and "" are falsy. */
  predicate Truthy(o: Option<string>) {
    o.Some? && o.value != ""
  }

  /** `o || fallback` for an optional string field. */
  function Or(o: Option<string>, fallback: string): string {
    if Truthy(o) then o.value else fallback
  }

  /** The value held in a map, if any (`Map.get`). */
  function Get<K, V>(m: map<K, V>, k: K): Option<V> {
    if k in m then Some(m[k]) else None
  }

  predicate NoDup<T(==,!new)>(s: seq<T>) {
    forall i, j :: 0 <= i < j < |s| ==> s[i] != s[j]
  }

  /** `$addToSet` on an array field: x is appended unless already present. */
  function AddToSet<T(==,!new)>(s: seq<T>, x: T): (r: seq<T>)
    ensures forall y :: y in r <==> y in s || y == x
    ensures x in s ==> r == s
    ensures NoDup(s) ==> NoDup(r)
  {
    if x in s then s else s + [x]
  }

  /** `[...new Set(xs)]`: the first occurrence of every element, in order. */
  function Dedup<T(==,!new)>(xs: seq<T>): (r: seq<T>)
    ensures NoDup(r)
    ensures forall x :: x in r <==> x in xs
    ensures |r| <= |xs|
  {
    if xs == [] then []
    else
      var init := xs[..|xs| - 1];
      assert xs == init + [xs[|xs| - 1]];
      var r := Dedup(init);
      if xs[|xs| - 1] in r then r else r + [xs[|xs| - 1]]
  }

  /** A list without repetitions is left unchanged by `new Set`. */
  lemma {:induction false} DedupOfNoDup<T(!new)>(xs: seq<T>)
    requires NoDup(xs)
    ensures Dedup(xs) == xs
  {
    if xs != [] {
      var init := xs[..|xs| - 1];
      assert NoDup(init);
      DedupOfNoDup(init);
      assert xs[|xs| - 1] !in init;
      assert xs == init + [xs[|xs| - 1]];
    }
  }

  /** `new Set` is idempotent. */
  lemma DedupIdempotent<T(!new)>(xs: seq<T>)
    ensures Dedup(Dedup(xs)) == Dedup(xs)
  {
    DedupOfNoDup(Dedup(xs));
  }

  /** The position of the first occurrence of x in xs. */
  function FirstIndex<T(==)>(xs: seq<T>, x: T): (i: nat)
    requires x in xs
    ensures i < |xs| && xs[i] == x
    ensures forall j :: 0 <= j < i ==> xs[j] != x
  {
    if xs[0] == x then 0
    else
      assert x in xs[1..];
      1 + FirstIndex(xs[1..], x)
  }

  /** Appending leaves the first occurrence of an element already present. */
  lemma FirstIndexSnoc<T>(xs: seq<T>, x: T, y: T)
    requires y in xs
    ensures FirstIndex(xs + [x], y) == FirstIndex(xs, y)
  {
    var k := FirstIndex(xs, y);
    assert (xs + [x])[k] == y;
  }

  /** `new Set` keeps first occurrences in order: an element listed before
      another first occurs earlier in the input. */
  lemma {:induction false} DedupKeepsFirstOccurrenceOrder<T(!new)>(xs: seq<T>)
    ensures forall i, j :: 0 <= i < j < |Dedup(xs)| ==> FirstIndex(xs, Dedup(xs)[i]) < FirstIndex(xs, Dedup(xs)[j])
  {
    if xs != [] {
      var init := xs[..|xs| - 1];
      var x := xs[|xs| - 1];
      assert xs == init + [x];
      DedupKeepsFirstOccurrenceOrder(init);
      var r := Dedup(init);
      forall y | y in init
        ensures FirstIndex(xs, y) == FirstIndex(init, y) < |init|
      {
        FirstIndexSnoc(init, x, y);
      }
      if x !in r {
        assert x !in init;
        assert FirstIndex(xs, x) == |init|;
        assert Dedup(xs) == r + [x];
      }
    }
  }

  /** The elements of a sequence, as a set. */
  function Elements<T(!new)>(s: seq<T>): set<T> {
    set x | x in s
  }

  /** A sequence without repetitions has as many elements as its set. */
  lemma {:induction false} NoDupCardinality<T(!new)>(s: seq<T>)
    requires NoDup(s)
    ensures |Elements(s)| == |s|
  {
    if s != [] {
      var init := s[..|s| - 1];
      assert NoDup(init);
      NoDupCardinality(init);
      assert s == init + [s[|s| - 1]];
      assert Elements(s) == Elements(init) + {s[|s| - 1]};
      assert s[|s| - 1] !in Elements(init);
    }
  }

  /** The length of `[...new Set(xs)]` is the number of distinct elements of xs. */
  lemma DedupLength<T(!new)>(xs: seq<T>)
    ensures |Dedup(xs)| == |Elements(xs)|
  {
    NoDupCardinality(Dedup(xs));
    assert Elements(Dedup(xs)) == Elements(xs);
  }

  /** `xs.reduce((acc, x) => acc + x, 0)`, folded from the left. */
  function Sum(xs: seq<int>): int {
    if xs == [] then 0 else Sum(xs[..|xs| - 1]) + xs[|xs| - 1]
  }

  lemma {:induction false} SumAppend(xs: seq<int>, ys: seq<int>)
    ensures Sum(xs + ys) == Sum(xs) + Sum(ys)
    decreases |ys|
  {
    if ys == [] {
      assert xs + ys == xs;
    } else {
      var zs := xs + ys;
      assert zs[..|zs| - 1] == xs + ys[..|ys| - 1];
      assert zs[|zs| - 1] == ys[|ys| - 1];
      SumAppend(xs, ys[..|ys| - 1]);
      assert Sum(zs) == Sum(zs[..|zs| - 1]) + zs[|zs| - 1];
    }
  }

  // ---------------------------------------------------------------------
  // Identifiers and queries (the store's view of a collection)

  predicate Increasing(r: seq<nat>) {
    forall i, j :: 0 <= i < j < |r| ==> r[i] < r[j]
  }

  predicate Decreasing(r: seq<nat>) {
    forall i, j :: 0 <= i < j < |r| ==> r[i] > r[j]
  }

  /** `.sort({ createdAt: -1 }).limit(n)` over a list kept in insertion
      order: the last n elements, newest first. */
  function Latest<T>(s: seq<T>, n: nat): (r: seq<T>)
    ensures |r| == if |s| < n then |s| else n
    ensures forall i :: 0 <= i < |r| ==> r[i] == s[|s| - 1 - i]
    ensures forall x :: x in r ==> x in s
  {
    if s == [] || n == 0 then [] else [s[|s| - 1]] + Latest(s[..|s| - 1], n - 1)
  }

  /** Without a limit, newest first lists every element. */
  lemma LatestAll<T>(s: seq<T>)
    ensures forall x :: x in Latest(s, |s|) <==> x in s
  {
    var r := Latest(s, |s|);
    forall x | x in s
      ensures x in r
    {
      var i :| 0 <= i < |s| && s[i] == x;
      assert r[|s| - 1 - i] == x;
    }
  }

  /** Newest first is a decreasing order of ids. */
  lemma LatestDecreasing(ids: seq<nat>, n: nat)
    requires Increasing(ids)
    ensures Decreasing(Latest(ids, n))
  {
    var r := Latest(ids, n);
    forall i, j | 0 <= i < j < |r|
      ensures r[i] > r[j]
    {
      assert r[i] == ids[|ids| - 1 - i] && r[j] == ids[|ids| - 1 - j];
    }
  }

  predicate Below(m: nat, s: set<nat>) {
    forall x :: x in s ==> m <= x
  }

  lemma {:induction false} HasMin(s: set<nat>)
    requires s != {}
    ensures exists m :: m in s && Below(m, s)
    decreases |s|
  {
    var y :| y in s;
    if s == {y} {
      assert Below(y, s);
    } else {
      var rest := s - {y};
      HasMin(rest);
      var m :| m in rest && Below(m, rest);
      if y < m {
        forall x | x in s
          ensures y <= x
        {
          if x != y { assert x in rest; }
        }
        assert Below(y, s);
      } else {
        forall x | x in s
          ensures m <= x
        {
          if x != y { assert x in rest; }
        }
        assert m in s && Below(m, s);
      }
    }
  }

  /** The smallest element of a non-empty set of identifiers. */
  function MinOf(s: set<nat>): (m: nat)
    requires s != {}
    ensures m in s && forall x :: x in s ==> m <= x
  {
    HasMin(s);
    var m :| m in s && Below(m, s);
    m
  }

  /** The identifiers of a set in increasing order. */
  function SortedIds(s: set<nat>): (r: seq<nat>)
    ensures Increasing(r)
    ensures forall x :: x in r <==> x in s
    ensures |r| == |s|
    decreases |s|
  {
    if s == {} then []
    else
      var m := MinOf(s);
      var rest := SortedIds(s - {m});
      assert forall x :: x in rest ==> m < x;
      [m] + rest
  }

  /** The ids of the documents of a collection that satisfy a query, in
      insertion order. Identifiers are handed out in increasing order (see
      `NextId`), so insertion order, ascending `_id` and ascending
      `createdAt` coincide; this is also the order in which the store
      returns documents when a query gives no sort. */
  function IdsWhere<T>(m: map<Id, T>, p: T -> bool): (r: seq<Id>)
    ensures Increasing(r)
    ensures forall k :: k in r <==> k in m && p(m[k])
  {
    SortedIds(set k | k in m && p(m[k]))
  }

  /** Two increasing sequences with the same elements are equal. */
  lemma {:induction false} IncreasingEqual(a: seq<nat>, b: seq<nat>)
    requires Increasing(a) && Increasing(b)
    requires forall x :: x in a <==> x in b
    ensures a == b
    decreases |a|
  {
    if a != [] {
      assert a[0] in b;
    }
    if b != [] {
      assert b[0] in a;
    }
    if a != [] {
      HeadLeast(a, b[0]);
      HeadLeast(b, a[0]);
      forall x
        ensures x in a[1..] <==> x in b[1..]
      {
        TailMembers(a, x);
        TailMembers(b, x);
      }
      IncreasingEqual(a[1..], b[1..]);
      assert a == [a[0]] + a[1..] && b == [b[0]] + b[1..];
    }
  }

  /** The head of an increasing list is its least element. */
  lemma HeadLeast(a: seq<nat>, x: nat)
    requires Increasing(a) && x in a
    ensures a[0] <= x
  {
    var i :| 0 <= i < |a| && a[i] == x;
    if i > 0 {
      assert a[0] < a[i];
    }
  }

  /** The tail of an increasing list holds everything but its head. */
  lemma TailMembers(a: seq<nat>, x: nat)
    requires Increasing(a) && a != []
    ensures x in a[1..] <==> x in a && x != a[0]
  {
    if x in a[1..] {
      var i :| 1 <= i < |a| && a[i] == x;
      assert a[0] < a[i];
    }
    if x in a && x != a[0] {
      var i :| 0 <= i < |a| && a[i] == x;
      assert a[1..][i - 1] == x;
    }
  }


  /** An identifier larger than all listed ones can be appended in order. */
  lemma IncreasingSnoc(s: seq<nat>, k: nat)
    requires Increasing(s) && forall y :: y in s ==> y < k
    ensures Increasing(s + [k]) && Increasing(s + [])
  {
    var r := s + [k];
    forall i, j | 0 <= i < j < |r|
      ensures r[i] < r[j]
    {
      if j == |s| {
        assert s[i] in s;
      } else {
        assert r[i] == s[i] && r[j] == s[j];
      }
    }
    assert s + [] == s;
  }

  /** Newest first, a new last element comes first. */
  lemma LatestSnoc<T>(s: seq<T>, x: T)
    ensures Latest(s + [x], |s| + 1) == [x] + Latest(s, |s|)
  {
    var t := s + [x];
    assert t[..|t| - 1] == s && t[|t| - 1] == x;
  }

  /** `findOne(query)`: the first matching document in insertion order. */
  function First<T>(m: map<Id, T>, p: T -> bool): (r: Option<Id>)
    ensures r.None? <==> forall k :: k in m ==> !p(m[k])
    ensures r.Some? ==> r.value in m && p(m[r.value])
    ensures r.Some? ==> forall k :: k in m && p(m[k]) ==> r.value <= k
  {
    var ids := IdsWhere(m, p);
    if ids == [] then None
    else
      assert forall k :: k in m && p(m[k]) ==> k in ids;
      Some(ids[0])
  }

  /** The identifier the store gives the next inserted document: larger than
      every identifier in use. */
  function NextId<T>(m: map<Id, T>): (id: Id)
    ensures forall k :: k in m ==> k < id
  {
    var ids := SortedIds(m.Keys);
    if ids == [] then 0
    else
      assert forall k :: k in m ==> k in ids;
      ids[|ids| - 1] + 1
  }

  // ---------------------------------------------------------------------
  // Sorting of query results (`.sort(...)` performed by the store)

  ghost predicate TotalPreorder<T(!new)>(le: (T, T) -> bool) {
    && (forall a, b :: le(a, b) || le(b, a))
    && (forall a, b, c :: le(a, b) && le(b, c) ==> le(a, c))
  }

  predicate SortedBy<T>(s: seq<T>, le: (T, T) -> bool) {
    forall i, j :: 0 <= i < j < |s| ==> le(s[i], s[j])
  }

  function Insert<T>(x: T, s: seq<T>, le: (T, T) -> bool): (r: seq<T>)
    ensures multiset(r) == multiset(s) + multiset{x}
  {
    if s == [] || le(x, s[0]) then [x] + s
    else
      assert s == [s[0]] + s[1..];
      [s[0]] + Insert(x, s[1..], le)
  }

  /** Insertion sort: the order a store query with `.sort(...)` returns. */
  function SortBy<T>(s: seq<T>, le: (T, T) -> bool): (r: seq<T>)
    ensures multiset(r) == multiset(s)
  {
    if s == [] then []
    else
      assert s == [s[0]] + s[1..];
      Insert(s[0], SortBy(s[1..], le), le)
  }

  lemma {:induction false} InsertSorted<T(!new)>(x: T, s: seq<T>, le: (T, T) -> bool)
    requires TotalPreorder(le) && SortedBy(s, le)
    ensures SortedBy(Insert(x, s, le), le)
  {
    if s == [] || le(x, s[0]) {
    } else {
      var t := Insert(x, s[1..], le);
      InsertSorted(x, s[1..], le);
      assert forall y :: y in multiset(t) ==> y == x || y in s[1..];
      forall j | 0 <= j < |t| ensures le(s[0], t[j]) {
        assert t[j] in multiset(t);
      }
    }
  }

  /** The sorted result is ordered by `le` (and, by its ensures, a permutation). */
  lemma {:induction false} SortBySorted<T(!new)>(s: seq<T>, le: (T, T) -> bool)
    requires TotalPreorder(le)
    ensures SortedBy(SortBy(s, le), le)
  {
    if s != [] {
      SortBySorted(s[1..], le);
      InsertSorted(s[0], SortBy(s[1..], le), le);
    }
  }

  /** Lexicographic order on strings by character code (the store's binary
      string comparison). */
  predicate LexLe(a: string, b: string) {
    a == [] || (b != [] && (a[0] < b[0] || (a[0] == b[0] && LexLe(a[1..], b[1..]))))
  }

  lemma {:induction false} LexTotal(a: string, b: string)
    ensures LexLe(a, b) || LexLe(b, a)
  {
    if a != [] && b != [] && a[0] == b[0] {
      LexTotal(a[1..], b[1..]);
    }
  }

  lemma {:induction false} LexTransitive(a: string, b: string, c: string)
    requires LexLe(a, b) && LexLe(b, c)
    ensures LexLe(a, c)
  {
    if a != [] && b != [] && c != [] && a[0] == b[0] && b[0] == c[0] {
      LexTransitive(a[1..], b[1..], c[1..]);
    }
  }
}
