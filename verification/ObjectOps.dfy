/** The loops that consume listings: the paged listing of a whole bucket and the management listing. */
module ObjectOps {
  import opened KeyOrder
  import opened Listing

  const PAGE_LIMIT: nat := 1000

  /** WHERE key > startAfter, over the rows of a bucket in key order. */
  function RowsAfter(rows: seq<string>, startAfter: string): (r: seq<string>)
    ensures |r| <= |rows|
  {
    if rows == [] then []
    else
      var rest := RowsAfter(rows[1..], startAfter);
      if Less(startAfter, rows[0]) then [rows[0]] + rest else rest
  }

  /** In a sorted table the rows after a row are those behind it. */
  lemma {:induction false} RowsAfterAll(rows: seq<string>, startAfter: string)
    requires forall i :: 0 <= i < |rows| ==> Less(startAfter, rows[i])
    ensures RowsAfter(rows, startAfter) == rows
  {
    if rows == [] {
    } else {
      RowsAfterAll(rows[1..], startAfter);
    }
  }

  lemma {:induction false} RowsAfterIsSuffix(rows: seq<string>, startAfter: string, i: nat)
    requires Sorted(rows) && i < |RowsAfter(rows, startAfter)|
    ensures RowsAfter(rows, RowsAfter(rows, startAfter)[i]) == RowsAfter(rows, startAfter)[i + 1..]
    decreases |rows|
  {
    var after := RowsAfter(rows, startAfter);
    if !Less(startAfter, rows[0]) {
      RowsAfterIsSuffix(rows[1..], startAfter, i);
      RowsAfterMember(rows[1..], startAfter, i);
      var j :| 0 <= j < |rows[1..]| && rows[1..][j] == after[i];
      assert Less(rows[0], rows[j + 1]);
      Asymmetric(rows[0], after[i]);
    } else if i == 0 {
      Irreflexive(rows[0]);
      RowsAfterAll(rows[1..], rows[0]);
      forall j | 0 <= j < |rows[1..]| ensures Less(startAfter, rows[1..][j]) {
        Transitive(startAfter, rows[0], rows[j + 1]);
      }
      RowsAfterAll(rows[1..], startAfter);
    } else {
      RowsAfterIsSuffix(rows[1..], startAfter, i - 1);
      RowsAfterMember(rows[1..], startAfter, i - 1);
      var j :| 0 <= j < |rows[1..]| && rows[1..][j] == after[i];
      assert Less(rows[0], rows[j + 1]);
      Asymmetric(rows[0], after[i]);
    }
  }

  lemma {:induction false} RowsAfterMember(rows: seq<string>, startAfter: string, i: nat)
    requires i < |RowsAfter(rows, startAfter)|
    ensures RowsAfter(rows, startAfter)[i] in rows && Less(startAfter, RowsAfter(rows, startAfter)[i])
    decreases |rows|
  {
    if !Less(startAfter, rows[0]) {
      RowsAfterMember(rows[1..], startAfter, i);
    } else if i > 0 {
      RowsAfterMember(rows[1..], startAfter, i - 1);
    }
  }

  /** Over a table in key order this is the listing query without prefix or delimiter. */
  lemma {:induction false} RowsAfterIsQuery(keys: set<string>, startAfter: string)
    ensures RowsAfter(InOrder(keys), startAfter) == InOrder(RawRows(keys, "", startAfter))
    decreases |keys|
  {
    if keys != {} {
      var m := Least(keys);
      var rest := keys - {m};
      RowsAfterIsQuery(rest, startAfter);
      assert InOrder(keys)[1..] == InOrder(rest);
      if Less(startAfter, m) {
        forall k | k in keys ensures Less(startAfter, k) {
          if k != m {
            Transitive(startAfter, m, k);
          }
        }
        InOrderElements(keys);
        forall i | 0 <= i < |InOrder(keys)| ensures Less(startAfter, InOrder(keys)[i]) {
          assert InOrder(keys)[i] in InOrder(keys);
        }
        RowsAfterAll(InOrder(keys), startAfter);
        assert RawRows(keys, "", startAfter) == keys;
      } else {
        assert RawRows(keys, "", startAfter) == RawRows(rest, "", startAfter);
      }
    }
  }

  /** A truncated page brings the listing forward, and less remains behind its last key. */
  lemma PageAdded(rows: seq<string>, all: seq<string>, startAfter: string, n: nat)
    requires Sorted(rows) && 0 < n < |RowsAfter(rows, startAfter)|
    ensures var page := Take(Take(RowsAfter(rows, startAfter), n + 1), n);
            && |page| == n && |RowsAfter(rows, page[n - 1])| < |RowsAfter(rows, startAfter)|
            && all + page + RowsAfter(rows, page[n - 1]) == all + RowsAfter(rows, startAfter)
  {
    var left := RowsAfter(rows, startAfter);
    assert Take(Take(left, n + 1), n) == left[..n];
    RowsAfterIsSuffix(rows, startAfter, n - 1);
    assert left == left[..n] + left[n..];
  }

  lemma LastPageAdded(rows: seq<string>, startAfter: string, n: nat)
    requires |RowsAfter(rows, startAfter)| <= n
    ensures Take(Take(RowsAfter(rows, startAfter), n + 1), n) == RowsAfter(rows, startAfter)
  {
  }

  /** ListAllObjects: page after page until the listing is not truncated. */
  method ListAllObjects(rows: seq<string>) returns (all: seq<string>)
    requires Sorted(rows)
    ensures all == RowsAfter(rows, "")
  {
    all := [];
    var startAfter := "";
    while true
      invariant all + RowsAfter(rows, startAfter) == RowsAfter(rows, "")
      decreases |RowsAfter(rows, startAfter)|
    {
      var found := Take(RowsAfter(rows, startAfter), PAGE_LIMIT + 1);
      var isTruncated := |found| > PAGE_LIMIT;
      var objects := Take(found, PAGE_LIMIT);
      if isTruncated {
        PageAdded(rows, all, startAfter, PAGE_LIMIT);
      } else {
        LastPageAdded(rows, startAfter, PAGE_LIMIT);
      }
      all := all + objects;
      if !isTruncated || |objects| == 0 {
        return;
      }
      startAfter := objects[|objects| - 1];
    }
  }

  /** The listing is complete exactly when no key is empty, which key validation guarantees. */
  lemma ListingIsComplete(rows: seq<string>)
    requires Sorted(rows)
    ensures RowsAfter(rows, "") == rows <==> "" !in rows
  {
    if "" !in rows {
      RowsAfterAll(rows, "");
    } else if RowsAfter(rows, "") == rows {
      var i :| 0 <= i < |rows| && rows[i] == "";
      RowsAfterMember(rows, "", i);
    }
  }

  // ---- The management listing ----

  function Values(entries: seq<Entry>, isPrefix: bool): seq<string>
  {
    if entries == [] then []
    else
      var before, last := Values(entries[..|entries| - 1], isPrefix), entries[|entries| - 1];
      if last.isPrefix == isPrefix then before + [last.virtualKey] else before
  }

  /** The delimited branch of listObjects: split the entries and remember the cursor of the last one. */
  method SplitEntries(found: seq<Entry>, limit: nat)
    returns (objects: seq<string>, commonPrefixes: seq<string>, isTruncated: bool, nextCursor: string)
    ensures isTruncated <==> |found| > limit
    ensures objects == Values(Take(found, limit), false)
    ensures commonPrefixes == Values(Take(found, limit), true)
    ensures nextCursor == if |found| > limit > 0 then found[limit - 1].cursorKey else ""
  {
    isTruncated := |found| > limit;
    var entries := Take(found, limit);
    objects, commonPrefixes, nextCursor := [], [], "";
    for i := 0 to |entries|
      invariant objects == Values(entries[..i], false)
      invariant commonPrefixes == Values(entries[..i], true)
      invariant nextCursor == if i > 0 then entries[i - 1].cursorKey else ""
    {
      var entry := entries[i];
      assert entries[..i + 1][..i] == entries[..i];
      nextCursor := entry.cursorKey;
      if entry.isPrefix {
        commonPrefixes := commonPrefixes + [entry.virtualKey];
      } else {
        objects := objects + [entry.virtualKey];
      }
    }
    assert entries[..|entries|] == entries;
    if !isTruncated {
      nextCursor := "";
    }
  }

  /** No entry is lost by splitting: every listed virtual key is in exactly one of the two lists. */
  lemma {:induction false} SplitLosesNothing(entries: seq<Entry>)
    ensures |Values(entries, false)| + |Values(entries, true)| == |entries|
    ensures forall i :: 0 <= i < |entries| ==> entries[i].virtualKey in Values(entries, entries[i].isPrefix)
  {
    if entries == [] {
    } else {
      var init := entries[..|entries| - 1];
      SplitLosesNothing(init);
      forall i | 0 <= i < |entries| ensures entries[i].virtualKey in Values(entries, entries[i].isPrefix) {
        if i < |init| {
          assert init[i] == entries[i];
        }
      }
    }
  }

  ghost predicate InOrderOfKeys(entries: seq<Entry>)
  {
    forall i, j :: 0 <= i < j < |entries| ==> Less(entries[i].virtualKey, entries[j].virtualKey)
  }

  /** Both lists are in the order of the page, and hold nothing but entries of their kind. */
  lemma {:induction false} SplitKeepsOrder(entries: seq<Entry>, isPrefix: bool)
    requires InOrderOfKeys(entries)
    ensures Sorted(Values(entries, isPrefix))
    ensures forall v :: v in Values(entries, isPrefix) ==>
              exists i :: 0 <= i < |entries| && entries[i].virtualKey == v && entries[i].isPrefix == isPrefix
  {
    if entries == [] {
    } else {
      var n := |entries| - 1;
      SplitKeepsOrder(entries[..n], isPrefix);
      forall v | v in Values(entries[..n], isPrefix)
        ensures Less(v, entries[n].virtualKey)
        ensures exists i :: 0 <= i < |entries| && entries[i].virtualKey == v && entries[i].isPrefix == isPrefix
      {
        var i :| 0 <= i < n && entries[..n][i].virtualKey == v && entries[..n][i].isPrefix == isPrefix;
        assert entries[i] == entries[..n][i];
      }
    }
  }
}
