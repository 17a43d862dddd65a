/** The two date orders of the layer: `allPages.sort((a, b) => b.publishDate - a.publishDate)`
    and the latest-posts order on `lastEditedDate || publishDate`. Array.prototype.sort
    is stable, so each order is specified as a stable insertion sort on sequences
    (any stable sort gives the same result) and the in-place sort is proved to
    compute it. */
module Sorting {

  import opened NotionRecords

  /** The keys the layer sorts by, both in descending order. */
  datatype SortKey = ByPublishDate | ByLastEdited

  /** The sort key of an item: `publishDate`, or `lastEditedDate || publishDate`. */
  function Key(k: SortKey, p: ContentItem): int {
    match k
    case ByPublishDate => p.publishDate
    case ByLastEdited => if p.lastEditedDate != 0 then p.lastEditedDate else p.publishDate
  }

  ghost predicate NonIncreasing(s: seq<ContentItem>, k: SortKey) {
    forall i, j :: 0 <= i < j < |s| ==> Key(k, s[i]) >= Key(k, s[j])
  }

  /** Inserts x into a non-increasing sequence after every element whose key is at least x's. */
  function Insert(s: seq<ContentItem>, x: ContentItem, k: SortKey): seq<ContentItem> {
    if s == [] then [x]
    else if Key(k, s[0]) >= Key(k, x) then [s[0]] + Insert(s[1..], x, k)
    else [x] + s
  }

  /** The stable descending sort: later elements go after earlier ones with the same key. */
  function SortDesc(s: seq<ContentItem>, k: SortKey): seq<ContentItem> {
    if s == [] then [] else Insert(SortDesc(s[..|s| - 1], k), s[|s| - 1], k)
  }

  /** The elements whose key is v, in order. */
  function WithKey(s: seq<ContentItem>, k: SortKey, v: int): seq<ContentItem> {
    if s == [] then [] else (if Key(k, s[0]) == v then [s[0]] else []) + WithKey(s[1..], k, v)
  }

  lemma {:induction false} InsertPermutes(s: seq<ContentItem>, x: ContentItem, k: SortKey)
    ensures multiset(Insert(s, x, k)) == multiset(s) + multiset{x}
  {
    if s != [] && Key(k, s[0]) >= Key(k, x) {
      InsertPermutes(s[1..], x, k);
      assert s == [s[0]] + s[1..];
    }
  }

  lemma {:induction false} InsertBounded(s: seq<ContentItem>, x: ContentItem, k: SortKey, b: int)
    requires forall i :: 0 <= i < |s| ==> Key(k, s[i]) <= b
    requires Key(k, x) <= b
    ensures forall i :: 0 <= i < |Insert(s, x, k)| ==> Key(k, Insert(s, x, k)[i]) <= b
  {
    if s != [] && Key(k, s[0]) >= Key(k, x) {
      InsertBounded(s[1..], x, k, b);
    }
  }

  lemma {:induction false} InsertOrdered(s: seq<ContentItem>, x: ContentItem, k: SortKey)
    requires NonIncreasing(s, k)
    ensures NonIncreasing(Insert(s, x, k), k)
  {
    if s != [] && Key(k, s[0]) >= Key(k, x) {
      var rest := Insert(s[1..], x, k);
      InsertOrdered(s[1..], x, k);
      InsertBounded(s[1..], x, k, Key(k, s[0]));
      var r := [s[0]] + rest;
      forall i, j | 0 <= i < j < |r| ensures Key(k, r[i]) >= Key(k, r[j]) {
        assert r[j] == rest[j - 1];
        if i > 0 {
          assert r[i] == rest[i - 1];
        }
      }
    }
  }

  /** The sort is a permutation of its input. */
  lemma {:induction false} SortDescPermutes(s: seq<ContentItem>, k: SortKey)
    ensures multiset(SortDesc(s, k)) == multiset(s)
  {
    if s != [] {
      SortDescPermutes(s[..|s| - 1], k);
      InsertPermutes(SortDesc(s[..|s| - 1], k), s[|s| - 1], k);
      assert s == s[..|s| - 1] + [s[|s| - 1]];
    }
  }

  /** The sort's output is non-increasing by the key. */
  lemma {:induction false} SortDescOrdered(s: seq<ContentItem>, k: SortKey)
    ensures NonIncreasing(SortDesc(s, k), k)
  {
    if s != [] {
      SortDescOrdered(s[..|s| - 1], k);
      InsertOrdered(SortDesc(s[..|s| - 1], k), s[|s| - 1], k);
    }
  }

  lemma {:induction false} WithKeyAppend(a: seq<ContentItem>, b: seq<ContentItem>, k: SortKey, v: int)
    ensures WithKey(a + b, k, v) == WithKey(a, k, v) + WithKey(b, k, v)
  {
    if a == [] {
      assert a + b == b;
    } else {
      var x, t := a[0], a[1..];
      assert a == [x] + t;
      assert a + b == [x] + (t + b);
      WithKeyAppend(t, b, k, v);
      WithKeyCons(x, t + b, k, v);
      WithKeyCons(x, t, k, v);
    }
  }

  lemma {:induction false} WithKeyAbsent(s: seq<ContentItem>, k: SortKey, v: int)
    requires forall i :: 0 <= i < |s| ==> Key(k, s[i]) < v
    ensures WithKey(s, k, v) == []
  {
    if s != [] {
      WithKeyAbsent(s[1..], k, v);
    }
  }

  lemma WithKeyCons(e: ContentItem, r: seq<ContentItem>, k: SortKey, v: int)
    ensures WithKey([e] + r, k, v) == (if Key(k, e) == v then [e] else []) + WithKey(r, k, v)
  {
    assert ([e] + r)[1..] == r;
  }

  lemma {:induction false} InsertStable(s: seq<ContentItem>, x: ContentItem, k: SortKey, v: int)
    requires NonIncreasing(s, k)
    ensures WithKey(Insert(s, x, k), k, v) == WithKey(s, k, v) + (if Key(k, x) == v then [x] else [])
  {
    if s == [] {
      WithKeyCons(x, [], k, v);
    } else if Key(k, s[0]) >= Key(k, x) {
      NonIncreasingTail(s, k);
      InsertStable(s[1..], x, k, v);
      InsertStablePast(s, x, k, v);
    } else {
      InsertStableFront(s, x, k, v);
    }
  }

  /** Insert passes the head: the head's key class is the first to gain an element. */
  lemma InsertStablePast(s: seq<ContentItem>, x: ContentItem, k: SortKey, v: int)
    requires s != [] && Key(k, s[0]) >= Key(k, x)
    requires WithKey(Insert(s[1..], x, k), k, v) == WithKey(s[1..], k, v) + (if Key(k, x) == v then [x] else [])
    ensures WithKey(Insert(s, x, k), k, v) == WithKey(s, k, v) + (if Key(k, x) == v then [x] else [])
  {
    assert Insert(s, x, k) == [s[0]] + Insert(s[1..], x, k);
    WithKeyCons(s[0], Insert(s[1..], x, k), k, v);
    WithKeyCons(s[0], s[1..], k, v);
    assert [s[0]] + s[1..] == s;
  }

  /** Insert stops at the head: x's key is above every key of s, so no element of s shares it. */
  lemma InsertStableFront(s: seq<ContentItem>, x: ContentItem, k: SortKey, v: int)
    requires s != [] && NonIncreasing(s, k) && Key(k, s[0]) < Key(k, x)
    ensures WithKey(Insert(s, x, k), k, v) == WithKey(s, k, v) + (if Key(k, x) == v then [x] else [])
  {
    assert Insert(s, x, k) == [x] + s;
    WithKeyCons(x, s, k, v);
    if Key(k, x) == v {
      HeadBounds(s, k);
      WithKeyAbsent(s, k, v);
    }
  }

  lemma NonIncreasingTail(s: seq<ContentItem>, k: SortKey)
    requires s != [] && NonIncreasing(s, k)
    ensures NonIncreasing(s[1..], k)
  {
    forall i, j | 0 <= i < j < |s[1..]| ensures Key(k, s[1..][i]) >= Key(k, s[1..][j]) {
      assert s[1..][i] == s[i + 1] && s[1..][j] == s[j + 1];
    }
  }

  lemma HeadBounds(s: seq<ContentItem>, k: SortKey)
    requires s != [] && NonIncreasing(s, k)
    ensures forall i :: 0 <= i < |s| ==> Key(k, s[i]) <= Key(k, s[0])
  {
    forall i | 0 < i < |s| ensures Key(k, s[i]) <= Key(k, s[0]) {
      assert Key(k, s[0]) >= Key(k, s[i]);
    }
  }

  /** Stability: for every key value, the elements carrying it keep their relative order. */
  lemma {:induction false} SortDescStable(s: seq<ContentItem>, k: SortKey, v: int)
    ensures WithKey(SortDesc(s, k), k, v) == WithKey(s, k, v)
  {
    if s != [] {
      var init, last := s[..|s| - 1], s[|s| - 1];
      SortDescStable(init, k, v);
      SortDescOrdered(init, k);
      InsertStable(SortDesc(init, k), last, k, v);
      assert s == init + [last];
      WithKeyAppend(init, [last], k, v);
    }
  }

  /** Where Insert puts x: after the first j elements when they all have a key at
      least x's and the rest a smaller one. */
  lemma {:induction false} InsertAt(s: seq<ContentItem>, x: ContentItem, j: nat, k: SortKey)
    requires j <= |s|
    requires forall m :: 0 <= m < j ==> Key(k, s[m]) >= Key(k, x)
    requires forall m :: j <= m < |s| ==> Key(k, s[m]) < Key(k, x)
    ensures Insert(s, x, k) == s[..j] + [x] + s[j..]
  {
    if j == 0 {
      if s != [] {
        assert Key(k, s[0]) < Key(k, x);
      }
    } else {
      var t := s[1..];
      InsertAt(t, x, j - 1, k);
      assert Insert(s, x, k) == [s[0]] + Insert(t, x, k);
      assert t[..j - 1] == s[1..j] && t[j - 1..] == s[j..];
      assert s[..j] == [s[0]] + s[1..j];
    }
  }

  /** One step of the in-place insertion sort: a[i] moves left past every
      element of the sorted prefix a[..i] whose key is smaller. */
  method InsertInPlace(a: array<ContentItem>, i: nat, k: SortKey)
    requires i < a.Length
    requires NonIncreasing(a[..i], k)
    modifies a
    ensures a[..i + 1] == Insert(old(a[..i]), old(a[i]), k)
    ensures forall m :: i < m < a.Length ==> a[m] == old(a[m])
  {
    ghost var orig := a[..];
    ghost var sorted := a[..i];
    var x := a[i];
    var j := i;
    while j > 0 && Key(k, a[j - 1]) < Key(k, x)
      invariant 0 <= j <= i
      invariant forall m :: 0 <= m < j ==> a[m] == sorted[m]
      invariant forall m :: j < m <= i ==> a[m] == sorted[m - 1]
      invariant forall m :: i < m < a.Length ==> a[m] == orig[m]
      invariant forall m :: j <= m < i ==> Key(k, sorted[m]) < Key(k, x)
    {
      a[j] := a[j - 1];
      j := j - 1;
    }
    a[j] := x;
    ghost var r := a[..i + 1];
    ShiftedIsInsert(r, sorted, x, j, k);
  }

  /** The array after the shifting loop holds Insert(sorted, x). */
  lemma ShiftedIsInsert(r: seq<ContentItem>, sorted: seq<ContentItem>, x: ContentItem, j: nat, k: SortKey)
    requires j <= |sorted| && |r| == |sorted| + 1
    requires NonIncreasing(sorted, k)
    requires forall m :: 0 <= m < j ==> r[m] == sorted[m]
    requires r[j] == x
    requires forall m :: j < m < |r| ==> r[m] == sorted[m - 1]
    requires j > 0 ==> Key(k, sorted[j - 1]) >= Key(k, x)
    requires forall m :: j <= m < |sorted| ==> Key(k, sorted[m]) < Key(k, x)
    ensures r == Insert(sorted, x, k)
  {
    forall m | 0 <= m < j ensures Key(k, sorted[m]) >= Key(k, x) {
      assert Key(k, sorted[m]) >= Key(k, sorted[j - 1]);
    }
    InsertAt(sorted, x, j, k);
    assert r == sorted[..j] + [x] + sorted[j..];
  }

  /** Array.prototype.sort with a descending comparator, in place: a stable
      insertion sort whose result is SortDesc of the original contents. */
  method SortInPlace(a: array<ContentItem>, k: SortKey)
    modifies a
    ensures a[..] == SortDesc(old(a[..]), k)
  {
    ghost var orig := a[..];
    var i := 0;
    while i < a.Length
      invariant 0 <= i <= a.Length
      invariant a[..i] == SortDesc(orig[..i], k)
      invariant forall m :: i <= m < a.Length ==> a[m] == orig[m]
    {
      SortDescOrdered(orig[..i], k);
      assert a[i] == orig[i];
      InsertInPlace(a, i, k);
      assert orig[..i + 1][..i] == orig[..i];
      i := i + 1;
    }
    assert orig[..a.Length] == orig;
  }

  /** The in-place sort applied to a fresh copy of a sequence. */
  method Sorted(s: seq<ContentItem>, k: SortKey) returns (r: seq<ContentItem>)
    ensures r == SortDesc(s, k)
  {
    var a := new ContentItem[|s|](i requires 0 <= i < |s| => s[i]);
    assert a[..] == s;
    SortInPlace(a, k);
    r := a[..];
  }
}
