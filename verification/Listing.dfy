/**
 Delimited listing and pagination: the grouping query, the pages the three listing APIs build from
 it, and the enumeration a client sees when it follows the cursors.
 */
module Listing {
  import opened KeyOrder

  // ---- Virtual keys ----

  predicate OccursAt(s: string, d: string, i: nat)
  {
    i + |d| <= |s| && s[i..i + |d|] == d
  }

  /** SQL instr: the 1-based position of the first occurrence, or 0. */
  function Instr(s: string, d: string): (r: nat)
    ensures r > 0 ==> OccursAt(s, d, r - 1)
    ensures forall i: nat :: i + 1 < r ==> !OccursAt(s, d, i)
    ensures r == 0 ==> forall i: nat :: !OccursAt(s, d, i)
  {
    InstrFrom(s, d, 0)
  }

  function InstrFrom(s: string, d: string, from: nat): (r: nat)
    requires from <= |s| + 1
    ensures r > 0 ==> r > from && OccursAt(s, d, r - 1)
    ensures forall i: nat :: from <= i && i + 1 < r ==> !OccursAt(s, d, i)
    ensures r == 0 ==> forall i: nat :: from <= i ==> !OccursAt(s, d, i)
    decreases |s| + 1 - from
  {
    if from == |s| + 1 then 0
    else if OccursAt(s, d, from) then from + 1
    else InstrFrom(s, d, from + 1)
  }

  predicate InPrefix(key: string, prefix: string)
  {
    prefix <= key
  }

  /** The key continues past a delimiter after the prefix. */
  predicate IsGrouped(key: string, prefix: string, delimiter: string)
    requires InPrefix(key, prefix)
  {
    delimiter != "" && Instr(key[|prefix|..], delimiter) > 0
  }

  /** The key up to and including the first delimiter after the prefix, or the whole key. */
  function VirtualKey(key: string, prefix: string, delimiter: string): (v: string)
    requires InPrefix(key, prefix)
    ensures v <= key && prefix <= v
  {
    if IsGrouped(key, prefix, delimiter)
    then key[..|prefix| + Instr(key[|prefix|..], delimiter) + |delimiter| - 1]
    else key
  }

  predicate FirstOccurrence(s: string, d: string, n: nat)
  {
    OccursAt(s, d, n) && forall i: nat :: i < n ==> !OccursAt(s, d, i)
  }

  /** The cut is right behind the first delimiter after the prefix; without one the key stays whole. */
  lemma VirtualKeyMeaning(key: string, prefix: string, delimiter: string)
    requires InPrefix(key, prefix)
    ensures delimiter == "" || (forall i: nat :: !OccursAt(key[|prefix|..], delimiter, i)) ==>
              VirtualKey(key, prefix, delimiter) == key
    ensures forall n: nat :: delimiter != "" && FirstOccurrence(key[|prefix|..], delimiter, n) ==>
              VirtualKey(key, prefix, delimiter) == key[..|prefix| + n + |delimiter|]
  {
    var rest := key[|prefix|..];
    forall n: nat | delimiter != "" && FirstOccurrence(rest, delimiter, n)
      ensures Instr(rest, delimiter) == n + 1
    {
      var r := Instr(rest, delimiter);
      assert r > 0 && OccursAt(rest, delimiter, r - 1);
    }
  }

  /** Any key that starts with a common prefix belongs to its group. */
  lemma GroupIsInterval(key: string, other: string, prefix: string, delimiter: string)
    requires InPrefix(key, prefix) && IsGrouped(key, prefix, delimiter)
    requires VirtualKey(key, prefix, delimiter) <= other
    ensures InPrefix(other, prefix) && IsGrouped(other, prefix, delimiter)
    ensures VirtualKey(other, prefix, delimiter) == VirtualKey(key, prefix, delimiter)
  {
    var a, b := key[|prefix|..], other[|prefix|..];
    var i := Instr(a, delimiter);
    var n := i - 1 + |delimiter|;
    var v := VirtualKey(key, prefix, delimiter);
    assert v == key[..|prefix| + n] && other[..|prefix| + n] == v;
    assert prefix == v[..|prefix|] == other[..|prefix|];
    assert a[..n] == v[|prefix|..] == b[..n];
    SameOccurrences(a, b, delimiter, n);
    assert OccursAt(b, delimiter, i - 1);
    var j := Instr(b, delimiter);
    assert j > 0 && j <= i;
    assert j - 1 + |delimiter| <= n;
  }

  /** Occurrences within a common prefix are the same. */
  lemma SameOccurrences(a: string, b: string, d: string, n: nat)
    requires n <= |a| && n <= |b| && a[..n] == b[..n]
    ensures forall i: nat :: i + |d| <= n ==> (OccursAt(a, d, i) <==> OccursAt(b, d, i))
  {
    forall i: nat | i + |d| <= n ensures OccursAt(a, d, i) <==> OccursAt(b, d, i) {
      assert a[i..i + |d|] == a[..n][i..i + |d|];
      assert b[i..i + |d|] == b[..n][i..i + |d|];
    }
  }

  // ---- The specification ----

  ghost function Matching(keys: set<string>, prefix: string): set<string>
  {
    set k | k in keys && InPrefix(k, prefix)
  }

  ghost function Group(keys: set<string>, prefix: string, delimiter: string, v: string): set<string>
  {
    set k | k in keys && InPrefix(k, prefix) && VirtualKey(k, prefix, delimiter) == v
  }

  ghost function VirtualKeys(keys: set<string>, prefix: string, delimiter: string): set<string>
  {
    set k | k in keys && InPrefix(k, prefix) :: VirtualKey(k, prefix, delimiter)
  }

  datatype Entry = Entry(virtualKey: string, cursorKey: string, isPrefix: bool)

  lemma GroupMember(keys: set<string>, prefix: string, delimiter: string, v: string) returns (k: string)
    requires v in VirtualKeys(keys, prefix, delimiter)
    ensures k in Group(keys, prefix, delimiter, v) && InPrefix(v, prefix)
  {
    k :| k in keys && InPrefix(k, prefix) && VirtualKey(k, prefix, delimiter) == v;
  }

  /** The entry of a virtual key over the whole key set: its cursor is the greatest key of the whole group. */
  ghost function EntryOf(keys: set<string>, prefix: string, delimiter: string, v: string): Entry
    requires v in VirtualKeys(keys, prefix, delimiter)
  {
    var k :| k in keys && InPrefix(k, prefix) && VirtualKey(k, prefix, delimiter) == v;
    assert k in Group(keys, prefix, delimiter, v);
    Entry(v, Greatest(Group(keys, prefix, delimiter, v)), IsGrouped(v, prefix, delimiter))
  }

  function Take<T>(s: seq<T>, n: nat): (r: seq<T>)
    ensures |r| == if n < |s| then n else |s|
  {
    if n < |s| then s[..n] else s
  }

  // ---- The query ----

  /** The rows of the raw common table expression: filtered by key and prefix only. */
  ghost function RawRows(keys: set<string>, prefix: string, startAfter: string): set<string>
  {
    set k | k in keys && Less(startAfter, k) && InPrefix(k, prefix)
  }

  ghost function RawGroup(raw: set<string>, prefix: string, delimiter: string, v: string): set<string>
  {
    set k | k in raw && InPrefix(k, prefix) && VirtualKey(k, prefix, delimiter) == v
  }

  /** SELECT virtual_key, max(key), max(is_cp) of one group. */
  ghost function GroupRow(raw: set<string>, prefix: string, delimiter: string, v: string): Entry
    requires RawGroup(raw, prefix, delimiter, v) != {}
  {
    var group := RawGroup(raw, prefix, delimiter, v);
    Entry(v, Greatest(group), exists k :: k in group && IsGrouped(k, prefix, delimiter))
  }

  ghost function Grouped(raw: set<string>, prefix: string, delimiter: string): set<string>
  {
    set k | k in raw && InPrefix(k, prefix) :: VirtualKey(k, prefix, delimiter)
  }

  /** GROUP BY virtual_key, then virtual_key > startAfter, ordered, at most maxKeys + 1. */
  ghost function ListDelimited(keys: set<string>, prefix: string, startAfter: string, delimiter: string, maxKeys: int)
    : (r: seq<Entry>)
  {
    if maxKeys <= 0 then []
    else
      var raw := RawRows(keys, prefix, startAfter);
      JoinedRows(raw, prefix, delimiter, Take(InOrder(Above(Grouped(raw, prefix, delimiter), startAfter)), maxKeys + 1))
  }

  ghost function JoinedRow(raw: set<string>, prefix: string, delimiter: string, v: string): Entry
  {
    if RawGroup(raw, prefix, delimiter, v) != {} then GroupRow(raw, prefix, delimiter, v) else Entry(v, v, false)
  }

  ghost function JoinedRows(raw: set<string>, prefix: string, delimiter: string, order: seq<string>): (r: seq<Entry>)
    ensures |r| == |order| && forall i :: 0 <= i < |r| ==> r[i] == JoinedRow(raw, prefix, delimiter, order[i])
  {
    seq(|order|, i requires 0 <= i < |order| => JoinedRow(raw, prefix, delimiter, order[i]))
  }

  // ---- The query refines the specification ----

  /** Every member of a group is at least its virtual key, so the row filter loses no member of a listed group. */
  lemma GroupSurvivesFilter(keys: set<string>, prefix: string, delimiter: string, startAfter: string, v: string)
    requires Less(startAfter, v)
    ensures RawGroup(RawRows(keys, prefix, startAfter), prefix, delimiter, v) == Group(keys, prefix, delimiter, v)
  {
    forall k | k in Group(keys, prefix, delimiter, v) ensures Less(startAfter, k) {
      PrefixAtMost(v, k);
      if v != k {
        Transitive(startAfter, v, k);
      }
    }
  }

  /** A group is one direct object, or entirely a common prefix. */
  lemma GroupIsUniform(keys: set<string>, prefix: string, delimiter: string, v: string, k: string)
    requires k in Group(keys, prefix, delimiter, v)
    ensures IsGrouped(k, prefix, delimiter) <==> IsGrouped(v, prefix, delimiter)
    ensures !IsGrouped(k, prefix, delimiter) ==> v in keys && Group(keys, prefix, delimiter, v) == {v}
  {
    if IsGrouped(k, prefix, delimiter) {
      GroupIsInterval(k, v, prefix, delimiter);
    } else {
      forall x | x in Group(keys, prefix, delimiter, v) ensures x == v {
        if IsGrouped(x, prefix, delimiter) {
          GroupIsInterval(x, v, prefix, delimiter);
        }
      }
    }
  }

  lemma GroupRowIsEntry(keys: set<string>, prefix: string, delimiter: string, startAfter: string, v: string)
    requires v in VirtualKeys(keys, prefix, delimiter) && Less(startAfter, v)
    ensures RawGroup(RawRows(keys, prefix, startAfter), prefix, delimiter, v) != {}
    ensures GroupRow(RawRows(keys, prefix, startAfter), prefix, delimiter, v) == EntryOf(keys, prefix, delimiter, v)
  {
    GroupSurvivesFilter(keys, prefix, delimiter, startAfter, v);
    var group := Group(keys, prefix, delimiter, v);
    var k := GroupMember(keys, prefix, delimiter, v);
    forall x | x in group ensures IsGrouped(x, prefix, delimiter) <==> IsGrouped(v, prefix, delimiter) {
      GroupIsUniform(keys, prefix, delimiter, v, x);
    }
  }

  /** Virtual keys above the marker, of all keys or of the rows above the marker, are the same. */
  lemma FilteredGroups(keys: set<string>, prefix: string, delimiter: string, startAfter: string)
    ensures Above(Grouped(RawRows(keys, prefix, startAfter), prefix, delimiter), startAfter)
         == Above(VirtualKeys(keys, prefix, delimiter), startAfter)
  {
    var raw := RawRows(keys, prefix, startAfter);
    forall v | v in Above(VirtualKeys(keys, prefix, delimiter), startAfter) ensures v in Grouped(raw, prefix, delimiter) {
      var k := GroupMember(keys, prefix, delimiter, v);
      GroupSurvivesFilter(keys, prefix, delimiter, startAfter, v);
      assert k in RawGroup(raw, prefix, delimiter, v);
    }
  }

  /** All that is left to list above the marker. */
  ghost function Remaining(keys: set<string>, prefix: string, delimiter: string, marker: string): seq<string>
  {
    InOrder(Above(VirtualKeys(keys, prefix, delimiter), marker))
  }

  /** The entries of these virtual keys, in the same order. */
  ghost predicate EntriesOf(keys: set<string>, prefix: string, delimiter: string, entries: seq<Entry>, vs: seq<string>)
  {
    && |entries| == |vs|
    && (forall i :: 0 <= i < |vs| ==> vs[i] in VirtualKeys(keys, prefix, delimiter)
                                      && entries[i] == EntryOf(keys, prefix, delimiter, vs[i]))
  }

  lemma EntriesTake(keys: set<string>, prefix: string, delimiter: string, entries: seq<Entry>, vs: seq<string>, n: nat)
    requires EntriesOf(keys, prefix, delimiter, entries, vs)
    ensures EntriesOf(keys, prefix, delimiter, Take(entries, n), Take(vs, n))
  {
  }

  /** The query returns the entries of the first maxKeys + 1 virtual keys above the marker. */
  lemma QueryRefinesSpecification(keys: set<string>, prefix: string, startAfter: string, delimiter: string, maxKeys: nat)
    requires maxKeys > 0
    ensures EntriesOf(keys, prefix, delimiter, ListDelimited(keys, prefix, startAfter, delimiter, maxKeys),
                      Take(Remaining(keys, prefix, delimiter, startAfter), maxKeys + 1))
  {
    var raw, all := RawRows(keys, prefix, startAfter), Remaining(keys, prefix, delimiter, startAfter);
    ListedInOrder(keys, prefix, startAfter, delimiter, maxKeys);
    forall i | 0 <= i < |all|
      ensures all[i] in VirtualKeys(keys, prefix, delimiter)
      ensures JoinedRow(raw, prefix, delimiter, all[i]) == EntryOf(keys, prefix, delimiter, all[i])
    {
      RemainingRow(keys, prefix, startAfter, delimiter, i);
    }
    RowsAreEntries(keys, prefix, delimiter, raw, all, maxKeys + 1);
  }

  lemma ListedInOrder(keys: set<string>, prefix: string, startAfter: string, delimiter: string, maxKeys: nat)
    requires maxKeys > 0
    ensures ListDelimited(keys, prefix, startAfter, delimiter, maxKeys)
         == JoinedRows(RawRows(keys, prefix, startAfter), prefix, delimiter,
                       Take(Remaining(keys, prefix, delimiter, startAfter), maxKeys + 1))
  {
    FilteredGroups(keys, prefix, delimiter, startAfter);
  }

  lemma RowsAreEntries(keys: set<string>, prefix: string, delimiter: string, raw: set<string>, all: seq<string>, n: nat)
    requires forall i :: 0 <= i < |all| ==>
               all[i] in VirtualKeys(keys, prefix, delimiter)
               && JoinedRow(raw, prefix, delimiter, all[i]) == EntryOf(keys, prefix, delimiter, all[i])
    ensures EntriesOf(keys, prefix, delimiter, JoinedRows(raw, prefix, delimiter, Take(all, n)), Take(all, n))
  {
    var first := Take(all, n);
    assert forall i :: 0 <= i < |first| ==> first[i] == all[i];
  }

  lemma RemainingRow(keys: set<string>, prefix: string, startAfter: string, delimiter: string, i: nat)
    requires i < |Remaining(keys, prefix, delimiter, startAfter)|
    ensures var v := Remaining(keys, prefix, delimiter, startAfter)[i];
            && v in VirtualKeys(keys, prefix, delimiter)
            && JoinedRow(RawRows(keys, prefix, startAfter), prefix, delimiter, v) == EntryOf(keys, prefix, delimiter, v)
  {
    var all := Remaining(keys, prefix, delimiter, startAfter);
    InOrderElements(Above(VirtualKeys(keys, prefix, delimiter), startAfter));
    assert all[i] in all;
    GroupRowIsEntry(keys, prefix, delimiter, startAfter, all[i]);
  }

  /** A direct entry stands for a stored object of that key, and is its own cursor. */
  lemma DirectEntriesAreObjects(keys: set<string>, prefix: string, delimiter: string, v: string)
    requires v in VirtualKeys(keys, prefix, delimiter) && !EntryOf(keys, prefix, delimiter, v).isPrefix
    ensures v in keys && EntryOf(keys, prefix, delimiter, v).cursorKey == v
  {
    var k := GroupMember(keys, prefix, delimiter, v);
    GroupIsUniform(keys, prefix, delimiter, v, k);
  }

  // ---- Pages ----

  datatype Page = Page(entries: seq<Entry>, isTruncated: bool)

  /** ORDER BY key LIMIT maxKeys + 1 without grouping. */
  ghost function List(keys: set<string>, prefix: string, startAfter: string, maxKeys: int): Page
  {
    if maxKeys <= 0 then Page([], false)
    else
      var rows := Take(InOrder(RawRows(keys, prefix, startAfter)), maxKeys + 1);
      var kept := Take(rows, maxKeys);
      Page(seq(|kept|, i requires 0 <= i < |kept| => Entry(kept[i], kept[i], false)), |rows| > maxKeys)
  }

  /** listObjectsV2Entries, which V1 delegates to; the management API makes the same choice. */
  ghost function ListPage(keys: set<string>, prefix: string, marker: string, delimiter: string, maxKeys: nat): Page
  {
    if maxKeys == 0 then Page([], false)
    else if delimiter == "" then List(keys, prefix, marker, maxKeys)
    else
      var results := ListDelimited(keys, prefix, marker, delimiter, maxKeys);
      Page(Take(results, maxKeys), |results| > maxKeys)
  }

  lemma UngroupedKeys(keys: set<string>, prefix: string, marker: string)
    ensures RawRows(keys, prefix, marker) == Above(VirtualKeys(keys, prefix, ""), marker)
    ensures forall v :: v in VirtualKeys(keys, prefix, "") ==> EntryOf(keys, prefix, "", v) == Entry(v, v, false)
  {
    forall k | k in RawRows(keys, prefix, marker) ensures k in VirtualKeys(keys, prefix, "") {
      assert VirtualKey(k, prefix, "") == k;
    }
    forall v | v in VirtualKeys(keys, prefix, "") ensures EntryOf(keys, prefix, "", v) == Entry(v, v, false) {
      assert !EntryOf(keys, prefix, "", v).isPrefix;
      DirectEntriesAreObjects(keys, prefix, "", v);
    }
  }

  /** A page holds the first maxKeys entries above the marker, and says whether there are more. */
  ghost predicate IsPage(keys: set<string>, prefix: string, delimiter: string, page: Page, all: seq<string>, maxKeys: nat)
  {
    EntriesOf(keys, prefix, delimiter, page.entries, Take(all, maxKeys)) && page.isTruncated == (|all| > maxKeys)
  }

  lemma UngroupedPage(keys: set<string>, prefix: string, marker: string, maxKeys: nat)
    requires maxKeys > 0
    ensures IsPage(keys, prefix, "", List(keys, prefix, marker, maxKeys), Remaining(keys, prefix, "", marker), maxKeys)
  {
    var all := Remaining(keys, prefix, "", marker);
    UngroupedKeys(keys, prefix, marker);
    InOrderElements(Above(VirtualKeys(keys, prefix, ""), marker));
    forall i | 0 <= i < |all| ensures all[i] in VirtualKeys(keys, prefix, "") {
      assert all[i] in all;
    }
  }

  lemma DelimitedPage(keys: set<string>, prefix: string, marker: string, delimiter: string, maxKeys: nat)
    requires maxKeys > 0 && delimiter != ""
    ensures IsPage(keys, prefix, delimiter, ListPage(keys, prefix, marker, delimiter, maxKeys),
                   Remaining(keys, prefix, delimiter, marker), maxKeys)
  {
    var results := ListDelimited(keys, prefix, marker, delimiter, maxKeys);
    var all := Remaining(keys, prefix, delimiter, marker);
    QueryRefinesSpecification(keys, prefix, marker, delimiter, maxKeys);
    EntriesTake(keys, prefix, delimiter, results, Take(all, maxKeys + 1), maxKeys);
    assert Take(Take(all, maxKeys + 1), maxKeys) == Take(all, maxKeys);
  }

  lemma PageMeaning(keys: set<string>, prefix: string, marker: string, delimiter: string, maxKeys: nat)
    requires maxKeys > 0
    ensures IsPage(keys, prefix, delimiter, ListPage(keys, prefix, marker, delimiter, maxKeys),
                   Remaining(keys, prefix, delimiter, marker), maxKeys)
  {
    if delimiter == "" {
      UngroupedPage(keys, prefix, marker, maxKeys);
    } else {
      DelimitedPage(keys, prefix, marker, delimiter, maxKeys);
    }
  }

  // ---- Following the cursors ----

  /** A virtual key is above the cursor of an entry exactly when it is above its virtual key. */
  lemma CursorSkipsOwnGroup(keys: set<string>, prefix: string, delimiter: string, v: string, other: string)
    requires v in VirtualKeys(keys, prefix, delimiter) && other in VirtualKeys(keys, prefix, delimiter)
    ensures Less(EntryOf(keys, prefix, delimiter, v).cursorKey, other) <==> Less(v, other)
  {
    var cursor := EntryOf(keys, prefix, delimiter, v).cursorKey;
    var k := GroupMember(keys, prefix, delimiter, other);
    assert cursor in Group(keys, prefix, delimiter, v);
    PrefixAtMost(v, cursor);
    if Less(cursor, other) && v != cursor {
      Transitive(v, cursor, other);
    }
    if Less(v, other) && v != cursor {
      if v <= other {
        GroupIsUniform(keys, prefix, delimiter, v, cursor);
        GroupIsInterval(cursor, k, prefix, delimiter);
        Irreflexive(v);
      } else {
        AboveInterval(v, cursor, other);
      }
    }
  }

  /** What remains after the n-th entry is what lies above its cursor. */
  lemma CursorContinues(keys: set<string>, prefix: string, delimiter: string, marker: string, n: nat)
    requires n < |Remaining(keys, prefix, delimiter, marker)|
    ensures var all := Remaining(keys, prefix, delimiter, marker);
            && all[n] in VirtualKeys(keys, prefix, delimiter)
            && Remaining(keys, prefix, delimiter, EntryOf(keys, prefix, delimiter, all[n]).cursorKey) == all[n + 1..]
  {
    var virtual := VirtualKeys(keys, prefix, delimiter);
    var above := Above(virtual, marker);
    var v := InOrder(above)[n];
    InOrderElements(above);
    assert v in InOrder(above);
    var cursor := EntryOf(keys, prefix, delimiter, v).cursorKey;
    TailIsAbove(above, n);
    forall x | x in virtual ensures x in Above(virtual, cursor) <==> x in Above(above, v) {
      CursorSkipsOwnGroup(keys, prefix, delimiter, v, x);
      if Less(v, x) {
        Transitive(marker, v, x);
      }
    }
    assert Above(virtual, cursor) == Above(above, v);
  }

  /** A client that asks for page after page, each time from the cursor of the last entry. */
  ghost function Follow(keys: set<string>, prefix: string, marker: string, delimiter: string, maxKeys: nat): seq<Entry>
    requires maxKeys > 0
    decreases |Remaining(keys, prefix, delimiter, marker)|
  {
    var page := ListPage(keys, prefix, marker, delimiter, maxKeys);
    PageMeaning(keys, prefix, marker, delimiter, maxKeys);
    if page.isTruncated then
      CursorContinues(keys, prefix, delimiter, marker, maxKeys - 1);
      page.entries + Follow(keys, prefix, page.entries[maxKeys - 1].cursorKey, delimiter, maxKeys)
    else page.entries
  }

  lemma EntriesConcat(keys: set<string>, prefix: string, delimiter: string, entries: seq<Entry>, rest: seq<Entry>,
                      vs: seq<string>)
    requires |entries| <= |vs|
    requires EntriesOf(keys, prefix, delimiter, entries, vs[..|entries|])
    requires EntriesOf(keys, prefix, delimiter, rest, vs[|entries|..])
    ensures EntriesOf(keys, prefix, delimiter, entries + rest, vs)
  {
    forall i | 0 <= i < |vs|
      ensures vs[i] in VirtualKeys(keys, prefix, delimiter)
      ensures (entries + rest)[i] == EntryOf(keys, prefix, delimiter, vs[i])
    {
      if i < |entries| {
        assert vs[i] == vs[..|entries|][i];
      } else {
        assert vs[i] == vs[|entries|..][i - |entries|];
      }
    }
  }

  /**
   Following the cursors yields every virtual key above the start marker exactly once, in order,
   whatever the page size.
   */
  lemma {:induction false} FollowEnumerates(keys: set<string>, prefix: string, marker: string, delimiter: string, maxKeys: nat)
    requires maxKeys > 0
    ensures EntriesOf(keys, prefix, delimiter, Follow(keys, prefix, marker, delimiter, maxKeys),
                      Remaining(keys, prefix, delimiter, marker))
    decreases |Remaining(keys, prefix, delimiter, marker)|
  {
    var page := ListPage(keys, prefix, marker, delimiter, maxKeys);
    if page.isTruncated {
      NextPage(keys, prefix, marker, delimiter, maxKeys);
      var cursor := page.entries[maxKeys - 1].cursorKey;
      FollowEnumerates(keys, prefix, cursor, delimiter, maxKeys);
      EntriesConcat(keys, prefix, delimiter, page.entries, Follow(keys, prefix, cursor, delimiter, maxKeys),
                    Remaining(keys, prefix, delimiter, marker));
    } else {
      LastPage(keys, prefix, marker, delimiter, maxKeys);
    }
  }

  lemma LastPage(keys: set<string>, prefix: string, marker: string, delimiter: string, maxKeys: nat)
    requires maxKeys > 0 && !ListPage(keys, prefix, marker, delimiter, maxKeys).isTruncated
    ensures EntriesOf(keys, prefix, delimiter, ListPage(keys, prefix, marker, delimiter, maxKeys).entries,
                      Remaining(keys, prefix, delimiter, marker))
  {
    PageMeaning(keys, prefix, marker, delimiter, maxKeys);
  }

  /** A truncated page is full, and its cursor leaves exactly the rest. */
  lemma NextPage(keys: set<string>, prefix: string, marker: string, delimiter: string, maxKeys: nat)
    requires maxKeys > 0 && ListPage(keys, prefix, marker, delimiter, maxKeys).isTruncated
    ensures var page, all := ListPage(keys, prefix, marker, delimiter, maxKeys), Remaining(keys, prefix, delimiter, marker);
            && |page.entries| == maxKeys < |all|
            && EntriesOf(keys, prefix, delimiter, page.entries, all[..maxKeys])
            && Remaining(keys, prefix, delimiter, page.entries[maxKeys - 1].cursorKey) == all[maxKeys..]
  {
    PageMeaning(keys, prefix, marker, delimiter, maxKeys);
    CursorContinues(keys, prefix, delimiter, marker, maxKeys - 1);
  }

  /** In particular nothing is repeated, nothing is missed, and the page size does not matter. */
  lemma PageSizeDoesNotMatter(keys: set<string>, prefix: string, marker: string, delimiter: string, m: nat, n: nat)
    requires m > 0 && n > 0
    ensures Follow(keys, prefix, marker, delimiter, m) == Follow(keys, prefix, marker, delimiter, n)
  {
    FollowEnumerates(keys, prefix, marker, delimiter, m);
    FollowEnumerates(keys, prefix, marker, delimiter, n);
  }

  lemma EnumerationIsExact(keys: set<string>, prefix: string, marker: string, delimiter: string)
    ensures var all := Remaining(keys, prefix, delimiter, marker);
            && Sorted(all)
            && (forall v :: v in all <==> Less(marker, v) && exists k :: k in keys && InPrefix(k, prefix)
                                                                         && VirtualKey(k, prefix, delimiter) == v)
  {
    InOrderSorted(Above(VirtualKeys(keys, prefix, delimiter), marker));
    InOrderElements(Above(VirtualKeys(keys, prefix, delimiter), marker));
  }

  // ---- What an entry says about the stored keys ----

  /** The delimiter occurs behind the prefix. */
  ghost predicate Continues(key: string, prefix: string, delimiter: string)
    requires prefix <= key
  {
    delimiter != "" && exists n: nat :: OccursAt(key[|prefix|..], delimiter, n)
  }

  /** A stored key under the prefix without a delimiter behind it, listed as itself. */
  ghost predicate IsDirect(keys: set<string>, prefix: string, delimiter: string, e: Entry)
  {
    && !e.isPrefix && e.virtualKey in keys && prefix <= e.virtualKey && e.cursorKey == e.virtualKey
    && !Continues(e.virtualKey, prefix, delimiter)
  }

  /** The prefix and what follows up to the first delimiter behind it. */
  ghost predicate IsCut(v: string, prefix: string, delimiter: string)
  {
    && prefix <= v && delimiter != "" && |prefix| + |delimiter| <= |v|
    && FirstOccurrence(v[|prefix|..], delimiter, |v| - |delimiter| - |prefix|)
  }

  ghost function StartingWith(keys: set<string>, v: string): set<string>
  {
    set k | k in keys && v <= k
  }

  /** A common prefix of stored keys, with the greatest of them as the cursor. */
  ghost predicate IsCommonPrefix(keys: set<string>, prefix: string, delimiter: string, e: Entry)
  {
    e.isPrefix && IsCut(e.virtualKey, prefix, delimiter) && IsGreatest(e.cursorKey, StartingWith(keys, e.virtualKey))
  }

  lemma GroupedContinues(key: string, prefix: string, delimiter: string)
    requires prefix <= key
    ensures IsGrouped(key, prefix, delimiter) <==> Continues(key, prefix, delimiter)
  {
    var rest := key[|prefix|..];
    if IsGrouped(key, prefix, delimiter) {
      assert OccursAt(rest, delimiter, Instr(rest, delimiter) - 1);
    }
  }

  lemma CutOfKey(key: string, prefix: string, delimiter: string)
    requires prefix <= key && Continues(key, prefix, delimiter)
    ensures IsCut(VirtualKey(key, prefix, delimiter), prefix, delimiter)
  {
    GroupedContinues(key, prefix, delimiter);
    var v, rest := VirtualKey(key, prefix, delimiter), key[|prefix|..];
    var n := Instr(rest, delimiter) - 1;
    assert FirstOccurrence(rest, delimiter, n);
    assert v[|prefix|..] == rest[..n + |delimiter|];
    SameOccurrences(v[|prefix|..], rest, delimiter, n + |delimiter|);
  }

  /** The keys of a common prefix are all stored keys that start with it. */
  lemma GroupStartsWith(keys: set<string>, prefix: string, delimiter: string, v: string, k: string)
    requires k in Group(keys, prefix, delimiter, v) && Continues(k, prefix, delimiter)
    ensures Group(keys, prefix, delimiter, v) == StartingWith(keys, v)
  {
    GroupedContinues(k, prefix, delimiter);
    forall x | x in StartingWith(keys, v) ensures x in Group(keys, prefix, delimiter, v) {
      GroupIsInterval(k, x, prefix, delimiter);
    }
  }

  /** An entry is a stored object or a common prefix, and which of the two is decided by any key of its group. */
  lemma EntryMeaning(keys: set<string>, prefix: string, delimiter: string, v: string, k: string)
    requires k in keys && prefix <= k && VirtualKey(k, prefix, delimiter) == v
    ensures v in VirtualKeys(keys, prefix, delimiter)
    ensures EntryOf(keys, prefix, delimiter, v).virtualKey == v
    ensures if Continues(k, prefix, delimiter) then IsCommonPrefix(keys, prefix, delimiter, EntryOf(keys, prefix, delimiter, v))
            else v == k && IsDirect(keys, prefix, delimiter, EntryOf(keys, prefix, delimiter, v))
  {
    assert k in Group(keys, prefix, delimiter, v);
    GroupIsUniform(keys, prefix, delimiter, v, k);
    GroupedContinues(k, prefix, delimiter);
    GroupedContinues(v, prefix, delimiter);
    if Continues(k, prefix, delimiter) {
      CutOfKey(k, prefix, delimiter);
      GroupStartsWith(keys, prefix, delimiter, v, k);
    } else {
      DirectEntriesAreObjects(keys, prefix, delimiter, v);
    }
  }

  ghost predicate IsListed(keys: set<string>, prefix: string, delimiter: string, e: Entry)
  {
    IsDirect(keys, prefix, delimiter, e) || IsCommonPrefix(keys, prefix, delimiter, e)
  }

  lemma EntriesMeaning(keys: set<string>, prefix: string, delimiter: string, entries: seq<Entry>, vs: seq<string>)
    requires EntriesOf(keys, prefix, delimiter, entries, vs)
    ensures forall i :: 0 <= i < |entries| ==> IsListed(keys, prefix, delimiter, entries[i])
  {
    forall i | 0 <= i < |entries| ensures IsListed(keys, prefix, delimiter, entries[i]) {
      var k := GroupMember(keys, prefix, delimiter, vs[i]);
      EntryMeaning(keys, prefix, delimiter, vs[i], k);
    }
  }

  /**
   Every entry of a page, of any size, is a stored key in which the delimiter does not occur behind the prefix, with
   itself as the cursor, or else a common prefix cut behind the first delimiter, with its greatest key as the cursor.
   */
  lemma PageEntries(keys: set<string>, prefix: string, marker: string, delimiter: string, maxKeys: nat)
    ensures var page := ListPage(keys, prefix, marker, delimiter, maxKeys);
            && |page.entries| <= maxKeys && (maxKeys == 0 ==> !page.isTruncated)
            && forall i :: 0 <= i < |page.entries| ==> IsListed(keys, prefix, delimiter, page.entries[i])
  {
    if maxKeys > 0 {
      PageMeaning(keys, prefix, marker, delimiter, maxKeys);
      EntriesMeaning(keys, prefix, delimiter, ListPage(keys, prefix, marker, delimiter, maxKeys).entries,
                     Take(Remaining(keys, prefix, delimiter, marker), maxKeys));
    }
  }

  lemma HasEntry(keys: set<string>, prefix: string, delimiter: string, entries: seq<Entry>, vs: seq<string>, v: string)
    requires EntriesOf(keys, prefix, delimiter, entries, vs) && v in vs
    ensures v in VirtualKeys(keys, prefix, delimiter) && EntryOf(keys, prefix, delimiter, v) in entries
  {
    var i :| 0 <= i < |vs| && vs[i] == v;
    assert entries[i] == EntryOf(keys, prefix, delimiter, v);
  }

  lemma FollowHas(keys: set<string>, prefix: string, marker: string, delimiter: string, maxKeys: nat, v: string)
    requires maxKeys > 0 && v in VirtualKeys(keys, prefix, delimiter) && Less(marker, v)
    ensures EntryOf(keys, prefix, delimiter, v) in Follow(keys, prefix, marker, delimiter, maxKeys)
  {
    FollowEnumerates(keys, prefix, marker, delimiter, maxKeys);
    InOrderElements(Above(VirtualKeys(keys, prefix, delimiter), marker));
    HasEntry(keys, prefix, delimiter, Follow(keys, prefix, marker, delimiter, maxKeys),
             Remaining(keys, prefix, delimiter, marker), v);
  }

  /** A client that follows the cursors gets each stored key without a further delimiter as an object of its own. */
  lemma ObjectsAreListed(keys: set<string>, prefix: string, marker: string, delimiter: string, maxKeys: nat, k: string)
    requires maxKeys > 0 && k in keys && prefix <= k && Less(marker, k) && !Continues(k, prefix, delimiter)
    ensures Entry(k, k, false) in Follow(keys, prefix, marker, delimiter, maxKeys)
  {
    GroupedContinues(k, prefix, delimiter);
    EntryMeaning(keys, prefix, delimiter, k, k);
    FollowHas(keys, prefix, marker, delimiter, maxKeys, k);
  }

  /** And each other stored key under the common prefix that its first delimiter ends. */
  lemma CommonPrefixesAreListed(keys: set<string>, prefix: string, marker: string, delimiter: string, maxKeys: nat,
                                k: string, n: nat)
    returns (e: Entry)
    requires maxKeys > 0 && k in keys && prefix <= k && delimiter != ""
    requires FirstOccurrence(k[|prefix|..], delimiter, n) && Less(marker, k[..|prefix| + n + |delimiter|])
    ensures e in Follow(keys, prefix, marker, delimiter, maxKeys)
    ensures e.isPrefix && e.virtualKey == k[..|prefix| + n + |delimiter|] && AtMost(k, e.cursorKey)
  {
    var v := VirtualKey(k, prefix, delimiter);
    VirtualKeyMeaning(k, prefix, delimiter);
    assert Continues(k, prefix, delimiter);
    EntryMeaning(keys, prefix, delimiter, v, k);
    FollowHas(keys, prefix, marker, delimiter, maxKeys, v);
    e := EntryOf(keys, prefix, delimiter, v);
    assert k in StartingWith(keys, v);
  }
}
