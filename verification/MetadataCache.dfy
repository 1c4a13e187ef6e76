/**
 The byte-budgeted LRU cache of bucket and object rows.

 The class keeps the source's fields: a list of elements, most recent first, an index from keys to
 elements, a byte counter and a cache-wide revision. Its contract is a recency sequence.
 */
module MetadataCache {
  import opened Wrappers

  datatype CacheKey = BucketKey(bucketName: string) | ObjectKey(bucketName: string, objectKey: string)

  /** Rows are copied in and out, so a cached value is never changed from outside. */
  datatype CacheValue =
    | BucketValue(name: string, ownerId: string)
    | ObjectValue(bucketName: string, key: string, etag: string, storagePath: string)

  datatype Entry = Entry(key: CacheKey, value: CacheValue, size: nat)

  /** What one eviction call removes. */
  datatype Scope =
    | Only(key: CacheKey)
    | ObjectsIn(bucketName: string)
    | BucketAndObjects(bucketName: string)

  predicate Covers(scope: Scope, k: CacheKey)
  {
    match scope
    case Only(key) => k == key
    case ObjectsIn(bucketName) => k.ObjectKey? && k.bucketName == bucketName
    case BucketAndObjects(bucketName) => k.bucketName == bucketName
  }

  // ---- The recency sequence ----

  function Total(es: seq<Entry>): nat
  {
    if es == [] then 0 else Total(es[..|es| - 1]) + es[|es| - 1].size
  }

  predicate DistinctKeys(es: seq<Entry>)
  {
    forall i, j :: 0 <= i < j < |es| ==> es[i].key != es[j].key
  }

  /** The entries whose keys the scope does not cover, in order. */
  function Without(es: seq<Entry>, scope: Scope): (r: seq<Entry>)
    ensures |r| <= |es|
  {
    if es == [] then []
    else
      var rest, last := Without(es[..|es| - 1], scope), es[|es| - 1];
      if Covers(scope, last.key) then rest else rest + [last]
  }

  lemma {:induction false} WithoutMeaning(es: seq<Entry>, scope: Scope)
    ensures forall e :: e in Without(es, scope) <==> e in es && !Covers(scope, e.key)
  {
    if es == [] {
    } else {
      WithoutMeaning(es[..|es| - 1], scope);
      assert es == es[..|es| - 1] + [es[|es| - 1]];
    }
  }

  /** The longest prefix that fits the budget. */
  function Fit(es: seq<Entry>, maxBytes: int): (r: seq<Entry>)
    ensures r <= es
  {
    if es == [] || Total(es) <= maxBytes then es else Fit(es[..|es| - 1], maxBytes)
  }

  lemma {:induction false} FitMeaning(es: seq<Entry>, maxBytes: int)
    ensures Fit(es, maxBytes) == [] || Total(Fit(es, maxBytes)) <= maxBytes
    ensures forall n :: |Fit(es, maxBytes)| < n <= |es| ==> Total(es[..n]) > maxBytes
  {
    if es == [] || Total(es) <= maxBytes {
      assert Fit(es, maxBytes) == es;
    } else {
      var init := es[..|es| - 1];
      FitMeaning(init, maxBytes);
      forall n | |Fit(es, maxBytes)| < n <= |es| ensures Total(es[..n]) > maxBytes {
        assert if n == |es| then es[..n] == es else es[..n] == init[..n];
      }
    }
  }

  predicate Has(es: seq<Entry>, k: CacheKey)
  {
    exists i :: 0 <= i < |es| && es[i].key == k
  }

  function Find(es: seq<Entry>, k: CacheKey): Option<CacheValue>
  {
    if es == [] then None
    else if es[|es| - 1].key == k then Some(es[|es| - 1].value)
    else Find(es[..|es| - 1], k)
  }

  /** A hit moves the entry to the front; a miss changes nothing. */
  function Touched(es: seq<Entry>, k: CacheKey): seq<Entry>
  {
    match Find(es, k)
    case None => es
    case Some(_) => [Hit(es, k)] + Without(es, Only(k))
  }

  function Hit(es: seq<Entry>, k: CacheKey): (e: Entry)
    requires Find(es, k).Some?
    ensures e in es && e.key == k && Find(es, k) == Some(e.value)
  {
    if es[|es| - 1].key == k then es[|es| - 1] else Hit(es[..|es| - 1], k)
  }

  /** The new entry first, then the old ones without its key, cut to the budget. */
  function AfterPut(es: seq<Entry>, e: Entry, maxBytes: int): seq<Entry>
  {
    Fit([e] + Without(es, Only(e.key)), maxBytes)
  }

  lemma {:induction false} TotalGrows(es: seq<Entry>, n: nat)
    requires n <= |es|
    ensures Total(es[..n]) <= Total(es)
    decreases |es|
  {
    if n < |es| {
      TotalGrows(es[..|es| - 1], n);
      assert es[..|es| - 1][..n] == es[..n];
    } else {
      assert es[..n] == es;
    }
  }

  /** An entry larger than the budget leaves the cache empty. */
  lemma OversizedClears(es: seq<Entry>, e: Entry, maxBytes: int)
    requires e.size > maxBytes
    ensures AfterPut(es, e, maxBytes) == []
  {
    var r := AfterPut(es, e, maxBytes);
    FitMeaning([e] + Without(es, Only(e.key)), maxBytes);
    assert r != [] ==> r[0] == e && Total(r[..1]) == Total(r[..1][..0]) + e.size;
    if r != [] {
      TotalGrows(r, 1);
      assert false;
    }
  }

  /** An entry that fits alone is found right after it was put. */
  lemma PutIsFound(es: seq<Entry>, e: Entry, maxBytes: int)
    requires e.size <= maxBytes
    ensures AfterPut(es, e, maxBytes) != [] && AfterPut(es, e, maxBytes)[0] == e
  {
    var all := [e] + Without(es, Only(e.key));
    assert all[..1] == [e];
    assert Total([e]) == Total([e][..0]) + e.size;
    FitMeaning(all, maxBytes);
    assert |AfterPut(es, e, maxBytes)| >= 1;
  }

  lemma {:induction false} WithoutDistinct(es: seq<Entry>, scope: Scope)
    requires DistinctKeys(es)
    ensures DistinctKeys(Without(es, scope))
  {
    if es == [] {
    } else {
      var init, last := es[..|es| - 1], es[|es| - 1];
      WithoutDistinct(init, scope);
      WithoutMeaning(init, scope);
      forall e | e in Without(init, scope) ensures e.key != last.key {
        var i :| 0 <= i < |init| && init[i] == e;
      }
    }
  }

  /** After a put every entry is the new one, or an old one with another key. */
  lemma PutEntries(es: seq<Entry>, e: Entry, maxBytes: int)
    requires DistinctKeys(es)
    ensures DistinctKeys(AfterPut(es, e, maxBytes))
    ensures forall x :: x in AfterPut(es, e, maxBytes) ==> x == e || (x in es && x.key != e.key)
  {
    var after := AfterPut(es, e, maxBytes);
    WithoutDistinct(es, Only(e.key));
    WithoutMeaning(es, Only(e.key));
    var rest := Without(es, Only(e.key));
    forall i, j | 0 <= i < j < |after| ensures after[i].key != after[j].key {
      assert after[j] == rest[j - 1] && rest[j - 1] in rest;
      assert i > 0 ==> after[i] == rest[i - 1];
    }
    forall x | x in after ensures x == e || (x in es && x.key != e.key) {
      var i :| 0 <= i < |after| && after[i] == x;
      assert i > 0 ==> x == rest[i - 1] && rest[i - 1] in rest;
    }
  }

  lemma {:induction false} FindMeaning(es: seq<Entry>, k: CacheKey)
    ensures Find(es, k).Some? <==> Has(es, k)
  {
    if es == [] {
    } else {
      FindMeaning(es[..|es| - 1], k);
      if Has(es[..|es| - 1], k) {
        var i :| 0 <= i < |es| - 1 && es[..|es| - 1][i].key == k;
        assert es[i].key == k;
      }
      if Has(es, k) && es[|es| - 1].key != k {
        var i :| 0 <= i < |es| && es[i].key == k;
        assert es[..|es| - 1][i].key == k;
      }
    }
  }

  /** What each kind of eviction leaves: everything but one entry, the objects of a bucket, or a bucket and its objects. */
  lemma ScopesMeaning(es: seq<Entry>, k: CacheKey, bucketName: string, e: Entry)
    ensures e in Without(es, Only(k)) <==> e in es && e.key != k
    ensures e in Without(es, ObjectsIn(bucketName)) <==> e in es && !(e.key.ObjectKey? && e.key.bucketName == bucketName)
    ensures e in Without(es, BucketAndObjects(bucketName)) <==> e in es && e.key.bucketName != bucketName
  {
    WithoutMeaning(es, Only(k));
    WithoutMeaning(es, ObjectsIn(bucketName));
    WithoutMeaning(es, BucketAndObjects(bucketName));
  }

  /** After a hit the entry is the most recent one, and the others follow in their order. */
  lemma HitIsMostRecent(es: seq<Entry>, k: CacheKey)
    requires DistinctKeys(es) && Has(es, k)
    ensures exists i :: 0 <= i < |es| && es[i].key == k && Touched(es, k) == [es[i]] + es[..i] + es[i + 1..]
  {
    FindMeaning(es, k);
    var i :| 0 <= i < |es| && es[i] == Hit(es, k);
    WithoutAt(es, i, es[..i], es[i + 1..]);
    assert Touched(es, k) == [es[i]] + (es[..i] + es[i + 1..]);
  }

  // ---- The cache itself ----

  /** An element of the list. Its entry never changes. */
  class Element {
    const entry: Entry

    constructor (entry: Entry)
      ensures this.entry == entry
    {
      this.entry := entry;
    }
  }

  function Entries(es: seq<Element>): (r: seq<Entry>)
    ensures |r| == |es|
    ensures forall i :: 0 <= i < |es| ==> r[i] == es[i].entry
  {
    seq(|es|, i requires 0 <= i < |es| => es[i].entry)
  }

  function Position(es: seq<Element>, e: Element): (i: nat)
    requires e in es
    ensures i < |es| && es[i] == e
  {
    if es[|es| - 1] == e then |es| - 1 else Position(es[..|es| - 1], e)
  }

  /** container/list Remove */
  function Unlinked(es: seq<Element>, e: Element): seq<Element>
    requires e in es
  {
    es[..Position(es, e)] + es[Position(es, e) + 1..]
  }

  lemma {:induction false} TotalSplit(a: seq<Entry>, b: seq<Entry>)
    ensures Total(a + b) == Total(a) + Total(b)
  {
    if b == [] {
      assert a + b == a;
    } else {
      assert (a + b)[..|a + b| - 1] == a + b[..|b| - 1];
      TotalSplit(a, b[..|b| - 1]);
    }
  }

  lemma {:induction false} WithoutSplit(a: seq<Entry>, b: seq<Entry>, scope: Scope)
    ensures Without(a + b, scope) == Without(a, scope) + Without(b, scope)
  {
    if b == [] {
      assert a + b == a;
    } else {
      assert (a + b)[..|a + b| - 1] == a + b[..|b| - 1];
      WithoutSplit(a, b[..|b| - 1], scope);
    }
  }

  lemma {:induction false} WithoutNothing(es: seq<Entry>, scope: Scope)
    requires forall i :: 0 <= i < |es| ==> !Covers(scope, es[i].key)
    ensures Without(es, scope) == es
  {
    if es == [] {
    } else {
      WithoutNothing(es[..|es| - 1], scope);
    }
  }

  lemma WithoutOne(front: seq<Entry>, x: Entry, back: seq<Entry>)
    requires forall j :: 0 <= j < |front| ==> front[j].key != x.key
    requires forall j :: 0 <= j < |back| ==> back[j].key != x.key
    ensures Without(front + [x] + back, Only(x.key)) == front + back
  {
    WithoutSplit(front + [x], back, Only(x.key));
    WithoutNothing(front, Only(x.key));
    WithoutNothing(back, Only(x.key));
    assert (front + [x])[..|front|] == front;
  }

  lemma TotalOne(front: seq<Entry>, x: Entry, back: seq<Entry>)
    ensures Total(front + [x] + back) == Total(front + back) + x.size
  {
    TotalSplit(front + [x], back);
    TotalSplit(front, back);
    assert (front + [x])[..|front|] == front;
  }

  lemma WithoutAt(es: seq<Entry>, i: nat, front: seq<Entry>, back: seq<Entry>)
    requires i < |es| && front == es[..i] && back == es[i + 1..]
    requires forall j :: 0 <= j < |es| && j != i ==> es[j].key != es[i].key
    ensures Without(es, Only(es[i].key)) == front + back
    ensures Total(es) == Total(front + back) + es[i].size
  {
    assert es == front + [es[i]] + back;
    WithoutOne(front, es[i], back);
    TotalOne(front, es[i], back);
  }

  /** Removing an element from the list is dropping its key from the recency sequence. */
  lemma UnlinkedIsWithout(es: seq<Element>, e: Element)
    requires e in es && DistinctKeys(Entries(es))
    ensures Entries(Unlinked(es, e)) == Without(Entries(es), Only(e.entry.key))
    ensures Total(Entries(es)) == Total(Entries(Unlinked(es, e))) + e.entry.size
    ensures |Unlinked(es, e)| == |es| - 1
  {
    var i := Position(es, e);
    EntriesUnlinked(es, i);
    WithoutAt(Entries(es), i, Entries(es)[..i], Entries(es)[i + 1..]);
  }

  lemma EntriesUnlinked(es: seq<Element>, i: nat)
    requires i < |es|
    ensures Entries(es[..i] + es[i + 1..]) == Entries(es)[..i] + Entries(es)[i + 1..]
  {
  }

  datatype Link = NoRepetition | Forward | Backward

  ghost predicate Linked(es: seq<Element>, index: map<CacheKey, Element>, link: Link)
  {
    match link
    case NoRepetition => DistinctKeys(Entries(es))
    case Forward => forall e :: e in es ==> e.entry.key in index && index[e.entry.key] == e
    case Backward => forall k :: k in index ==> index[k] in es && index[k].entry.key == k
  }

  /** The index and the list are in bijection. IndexedIs says what that means where it matters. */
  ghost predicate Indexed(es: seq<Element>, index: map<CacheKey, Element>)
  {
    forall link :: Linked(es, index, link)
  }

  lemma IndexedIs(es: seq<Element>, index: map<CacheKey, Element>)
    ensures Indexed(es, index) <==>
              && DistinctKeys(Entries(es))
              && (forall e :: e in es ==> e.entry.key in index && index[e.entry.key] == e)
              && (forall k :: k in index ==> index[k] in es && index[k].entry.key == k)
  {
    if Indexed(es, index) {
      assert Linked(es, index, NoRepetition) && Linked(es, index, Forward) && Linked(es, index, Backward);
    }
  }

  lemma DistinctIn(es: seq<Element>, index: map<CacheKey, Element>)
    requires Indexed(es, index)
    ensures DistinctKeys(Entries(es))
  {
    IndexedIs(es, index);
  }

  lemma UnlinkedElements(es: seq<Element>, e: Element)
    requires e in es && DistinctKeys(Entries(es))
    ensures forall x :: x in Unlinked(es, e) <==> x in es && x.entry.key != e.entry.key
  {
    var i := Position(es, e);
    var front, back := es[..i], es[i + 1..];
    assert es == front + [e] + back;
    forall j | 0 <= j < |es| && j != i ensures es[j].entry.key != e.entry.key {
      assert Entries(es)[j].key != Entries(es)[i].key;
    }
    assert forall x :: x in front || x in back ==> x.entry.key != e.entry.key;
  }

  lemma UnlinkedDistinct(es: seq<Element>, e: Element)
    requires e in es && DistinctKeys(Entries(es))
    ensures DistinctKeys(Entries(Unlinked(es, e)))
  {
    UnlinkedIsWithout(es, e);
    WithoutDistinct(Entries(es), Only(e.entry.key));
  }

  lemma UnlinkedIndexed(es: seq<Element>, index: map<CacheKey, Element>, e: Element)
    requires Indexed(es, index) && e in es
    ensures Indexed(Unlinked(es, e), index - {e.entry.key})
  {
    IndexedIs(es, index);
    IndexedIs(Unlinked(es, e), index - {e.entry.key});
    UnlinkedElements(es, e);
    UnlinkedDistinct(es, e);
  }

  lemma LastUnlinked(es: seq<Element>)
    requires es != [] && DistinctKeys(Entries(es))
    ensures Without(Entries(es), Only(es[|es| - 1].entry.key)) == Entries(es)[..|es| - 1]
  {
    var n := |es| - 1;
    assert Position(es, es[n]) == n;
    UnlinkedIsWithout(es, es[n]);
    assert Entries(Unlinked(es, es[n])) == Entries(es)[..n];
  }

  lemma PushedFront(es: seq<Element>, index: map<CacheKey, Element>, e: Element)
    requires Indexed(es, index) && e.entry.key !in index
    ensures Indexed([e] + es, index[e.entry.key := e])
    ensures Entries([e] + es) == [e.entry] + Entries(es)
    ensures Total(Entries([e] + es)) == e.entry.size + Total(Entries(es))
  {
    IndexedIs(es, index);
    EntriesPushed(es, e);
    forall i | 0 <= i < |es| ensures es[i].entry.key != e.entry.key {
      assert es[i] in es;
    }
    PushedIndexed(es, index, e);
  }

  lemma EntriesPushed(es: seq<Element>, e: Element)
    ensures Entries([e] + es) == [e.entry] + Entries(es)
    ensures Total(Entries([e] + es)) == e.entry.size + Total(Entries(es))
  {
    assert Entries([e] + es) == [e.entry] + Entries(es);
    TotalSplit([e.entry], Entries(es));
    assert Total([e.entry]) == Total([e.entry][..0]) + e.entry.size;
  }

  lemma PushedIndexed(es: seq<Element>, index: map<CacheKey, Element>, e: Element)
    requires Indexed(es, index) && e.entry.key !in index
    requires forall i :: 0 <= i < |es| ==> es[i].entry.key != e.entry.key
    ensures Indexed([e] + es, index[e.entry.key := e])
  {
    IndexedIs(es, index);
    IndexedIs([e] + es, index[e.entry.key := e]);
    EntriesPushed(es, e);
    PushedDistinct(Entries(es), e.entry);
    forall x | x in [e] + es ensures x == e || x in es {
    }
    forall k | k in index ensures index[k] in [e] + es {
      assert index[k] in es;
    }
  }

  lemma PushedDistinct(es: seq<Entry>, x: Entry)
    requires DistinctKeys(es) && forall i :: 0 <= i < |es| ==> es[i].key != x.key
    ensures DistinctKeys([x] + es)
  {
    var more := [x] + es;
    forall i, j | 0 <= i < j < |more| ensures more[i].key != more[j].key {
      assert more[j] == es[j - 1];
      assert i > 0 ==> more[i] == es[i - 1];
    }
  }

  lemma NothingToRemove(es: seq<Element>, index: map<CacheKey, Element>, key: CacheKey)
    requires Indexed(es, index) && key !in index
    ensures Without(Entries(es), Only(key)) == Entries(es)
  {
    IndexedIs(es, index);
    forall i | 0 <= i < |es| ensures Entries(es)[i].key != key {
      assert es[i] in es;
    }
    WithoutNothing(Entries(es), Only(key));
  }

  lemma MovedFront(es: seq<Element>, index: map<CacheKey, Element>, e: Element)
    requires Indexed(es, index) && e in es
    ensures Indexed([e] + Unlinked(es, e), index)
    ensures Entries([e] + Unlinked(es, e)) == [e.entry] + Without(Entries(es), Only(e.entry.key))
    ensures Total(Entries([e] + Unlinked(es, e))) == Total(Entries(es))
  {
    IndexedIs(es, index);
    UnlinkedIndexed(es, index, e);
    UnlinkedIsWithout(es, e);
    PushedFront(Unlinked(es, e), index - {e.entry.key}, e);
    assert (index - {e.entry.key})[e.entry.key := e] == index;
  }

  /** A lookup through the index finds what the recency sequence holds. */
  lemma FindIndexed(es: seq<Element>, index: map<CacheKey, Element>, k: CacheKey)
    requires Indexed(es, index)
    ensures k in index <==> Find(Entries(es), k).Some?
    ensures k in index ==> index[k] in es && index[k].entry.key == k
    ensures k in index ==> Hit(Entries(es), k) == index[k].entry && Find(Entries(es), k) == Some(index[k].entry.value)
  {
    IndexedIs(es, index);
    FindMeaning(Entries(es), k);
    assert forall i :: 0 <= i < |es| ==> es[i] in es;
    if k in index {
      var i := Position(es, index[k]);
      assert Entries(es)[i].key == k;
      var h := Hit(Entries(es), k);
      var j :| 0 <= j < |es| && Entries(es)[j] == h;
      assert i == j;
    }
  }

  lemma {:induction false} WithoutShrinks(es: seq<Entry>, scope: Scope)
    ensures Total(Without(es, scope)) <= Total(es)
  {
    if es == [] {
    } else {
      WithoutShrinks(es[..|es| - 1], scope);
      var rest := Without(es[..|es| - 1], scope);
      assert (rest + [es[|es| - 1]])[..|rest|] == rest;
    }
  }

  lemma {:induction false} WithoutAbsorbs(es: seq<Entry>, k: CacheKey, scope: Scope)
    requires Covers(scope, k)
    ensures Without(Without(es, Only(k)), scope) == Without(es, scope)
  {
    if es == [] {
    } else {
      WithoutAbsorbs(es[..|es| - 1], k, scope);
      var rest := Without(es[..|es| - 1], Only(k));
      assert (rest + [es[|es| - 1]])[..|rest|] == rest;
    }
  }

  lemma {:induction false} WithoutBucketThenObjects(es: seq<Entry>, name: string)
    ensures Without(Without(es, Only(BucketKey(name))), ObjectsIn(name)) == Without(es, BucketAndObjects(name))
  {
    if es == [] {
    } else {
      WithoutBucketThenObjects(es[..|es| - 1], name);
      var rest := Without(es[..|es| - 1], Only(BucketKey(name)));
      assert (rest + [es[|es| - 1]])[..|rest|] == rest;
    }
  }

  class Cache {
    const maxBytes: int
    var revision: nat
    var used: int
    var lru: seq<Element>
    var entries: map<CacheKey, Element>

    constructor (maxBytes: int)
      ensures Valid() && Contents() == [] && revision == 0 && this.maxBytes == maxBytes
    {
      this.maxBytes := maxBytes;
      revision, used, lru, entries := 0, 0, [], map[];
    }

    ghost predicate Valid()
      reads this
    {
      Counted() && (used <= maxBytes || lru == [])
    }

    /** Valid but for the budget, as between a push and the eviction loop. */
    ghost predicate Counted()
      reads this
    {
      Indexed(lru, entries) && used == Total(Contents())
    }

    /** The recency sequence, most recent first. */
    ghost function Contents(): seq<Entry>
      reads this
    {
      Entries(lru)
    }

    method RemoveElement(element: Element)
      requires Counted() && element in lru
      modifies this`entries, this`used, this`lru
      ensures Counted() && |lru| == |old(lru)| - 1
      ensures Contents() == Without(old(Contents()), Only(element.entry.key))
      ensures forall k :: k in entries <==> k in old(entries) && k != element.entry.key
    {
      DistinctIn(lru, entries);
      UnlinkedIsWithout(lru, element);
      UnlinkedIndexed(lru, entries, element);
      entries := entries - {element.entry.key};
      used := used - element.entry.size;
      lru := Unlinked(lru, element);
    }

    method Remove(key: CacheKey)
      requires Counted()
      modifies this`entries, this`used, this`lru
      ensures Counted()
      ensures Contents() == Without(old(Contents()), Only(key))
      ensures forall k :: k in entries <==> k in old(entries) && k != key
    {
      FindIndexed(lru, entries, key);
      if key in entries {
        RemoveElement(entries[key]);
      } else {
        NothingToRemove(lru, entries, key);
      }
    }

    /** Drop from the back until the budget holds. */
    method EvictOverBudget()
      requires Counted()
      modifies this`entries, this`used, this`lru
      ensures Valid()
      ensures Contents() == Fit(old(Contents()), maxBytes)
    {
      while used > maxBytes
        invariant Counted()
        invariant Fit(Contents(), maxBytes) == Fit(old(Contents()), maxBytes)
        decreases |lru|
      {
        if |lru| == 0 {
          return;
        }
        var element := lru[|lru| - 1];
        DistinctIn(lru, entries);
        LastUnlinked(lru);
        RemoveElement(element);
      }
    }

    method PutLocked(entry: Entry)
      requires Valid()
      modifies this`entries, this`used, this`lru
      ensures Valid()
      ensures Contents() == AfterPut(old(Contents()), entry, maxBytes)
    {
      Remove(entry.key);
      var element := new Element(entry);
      PushedFront(lru, entries, element);
      lru := [element] + lru;
      entries := entries[entry.key := element];
      used := used + entry.size;
      EvictOverBudget();
    }

    /** A lookup of any kind of row; a disabled cache never hits. */
    method Get(key: CacheKey) returns (r: Option<CacheValue>)
      requires Valid()
      modifies this`lru
      ensures Valid()
      ensures maxBytes > 0 ==> r == Find(old(Contents()), key) && Contents() == Touched(old(Contents()), key)
      ensures maxBytes <= 0 ==> r == None && Contents() == old(Contents())
    {
      if maxBytes <= 0 {
        return None;
      }
      FindIndexed(lru, entries, key);
      if key !in entries {
        return None;
      }
      var element := entries[key];
      MovedFront(lru, entries, element);
      lru := [element] + Unlinked(lru, element);
      return Some(element.entry.value);
    }

    method CurrentRevision() returns (r: nat)
      ensures r == revision
    {
      r := revision;
    }

    /** Publish a row read from the table, unless an eviction happened since the revision was read. */
    method Publish(entry: Entry, seen: nat) returns (published: bool)
      requires Valid()
      modifies this`entries, this`used, this`lru
      ensures Valid()
      ensures published <==> maxBytes <= 0 || revision == seen
      ensures Contents() == if maxBytes > 0 && revision == seen then AfterPut(old(Contents()), entry, maxBytes)
                            else old(Contents())
    {
      if maxBytes <= 0 {
        return true;
      }
      if revision != seen {
        return false;
      }
      PutLocked(entry);
      return true;
    }

    method EvictObject(bucketName: string, objectKey: string)
      requires Valid()
      modifies this
      ensures Valid()
      ensures revision == old(revision) + if maxBytes > 0 then 1 else 0
      ensures Contents() == if maxBytes > 0 then Without(old(Contents()), Only(ObjectKey(bucketName, objectKey)))
                            else old(Contents())
    {
      if maxBytes <= 0 {
        return;
      }
      revision := revision + 1;
      ghost var before := Contents();
      Remove(ObjectKey(bucketName, objectKey));
      WithoutShrinks(before, Only(ObjectKey(bucketName, objectKey)));
    }

    method EvictObjectsInBucket(bucketName: string)
      requires Valid()
      modifies this
      ensures Valid()
      ensures revision == old(revision) + if maxBytes > 0 then 1 else 0
      ensures Contents() == if maxBytes > 0 then Without(old(Contents()), ObjectsIn(bucketName)) else old(Contents())
    {
      if maxBytes <= 0 {
        return;
      }
      revision := revision + 1;
      ghost var before := Contents();
      RemoveObjectsOf(bucketName);
      WithoutShrinks(before, ObjectsIn(bucketName));
    }

    method EvictBucket(name: string)
      requires Valid()
      modifies this
      ensures Valid()
      ensures revision == old(revision) + if maxBytes > 0 then 1 else 0
      ensures Contents() == if maxBytes > 0 then Without(old(Contents()), BucketAndObjects(name)) else old(Contents())
    {
      if maxBytes <= 0 {
        return;
      }
      revision := revision + 1;
      ghost var before := Contents();
      Remove(BucketKey(name));
      RemoveObjectsOf(name);
      WithoutBucketThenObjects(before, name);
      WithoutShrinks(before, BucketAndObjects(name));
    }

    /** The loop over the index that drops a bucket's objects. */
    method RemoveObjectsOf(bucketName: string)
      requires Counted()
      modifies this`entries, this`used, this`lru
      ensures Counted()
      ensures Contents() == Without(old(Contents()), ObjectsIn(bucketName))
    {
      var todo := entries.Keys;
      while todo != {}
        invariant Counted()
        invariant forall k :: k in entries && Covers(ObjectsIn(bucketName), k) ==> k in todo
        invariant Without(Contents(), ObjectsIn(bucketName)) == Without(old(Contents()), ObjectsIn(bucketName))
        decreases |todo|
      {
        var key :| key in todo;
        todo := todo - {key};
        if key.ObjectKey? && key.bucketName == bucketName {
          WithoutAbsorbs(Contents(), key, ObjectsIn(bucketName));
          Remove(key);
        }
      }
      IndexedIs(lru, entries);
      assert forall i :: 0 <= i < |lru| ==> lru[i] in lru;
      WithoutNothing(Contents(), ObjectsIn(bucketName));
    }
  }
}
