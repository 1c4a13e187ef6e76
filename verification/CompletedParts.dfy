/**
 The part list of a CompleteMultipartUpload request: which part numbers it names, in which order,
 and which stored parts they select.
 */
module CompletedParts {
  import opened Wrappers
  import ETags

  datatype CompletePart = CompletePart(number: int, etag: string)

  datatype StoredPart<P> = StoredPart(path: P, size: nat, etag: string)

  datatype PartsError = NoCompletedParts | PartOrder | UnknownPart | PartTooSmall

  // ---- Which numbers a request names ----

  predicate Mentions(parts: seq<CompletePart>, number: int)
  {
    exists i :: 0 <= i < |parts| && parts[i].number == number
  }

  /** Position i holds the first entry for its part number. */
  predicate FirstEntry(parts: seq<CompletePart>, i: nat)
  {
    i < |parts| && forall h :: 0 <= h < i ==> parts[h].number != parts[i].number
  }

  /** S3's rule: the last entry for a number wins. */
  function LastEntry(parts: seq<CompletePart>, number: int): (p: CompletePart)
    requires Mentions(parts, number)
    ensures p in parts && p.number == number
  {
    var last := parts[|parts| - 1];
    if last.number == number then last
    else
      var i :| 0 <= i < |parts| && parts[i].number == number;
      assert parts[..|parts| - 1][i].number == number;
      LastEntry(parts[..|parts| - 1], number)
  }

  predicate NotAfter(parts: seq<CompletePart>, number: int, i: nat)
  {
    forall j :: i < j < |parts| ==> parts[j].number != number
  }

  /** The entry that wins is one after which the number is not named again. */
  lemma {:induction false} LastEntryIsLast(parts: seq<CompletePart>, number: int) returns (i: nat)
    requires Mentions(parts, number)
    ensures i < |parts| && parts[i] == LastEntry(parts, number) && NotAfter(parts, number, i)
  {
    var n := |parts| - 1;
    if parts[n].number == number {
      i := n;
    } else {
      var h :| 0 <= h < |parts| && parts[h].number == number;
      assert parts[..n][h].number == number;
      i := LastEntryIsLast(parts[..n], number);
      assert forall j :: 0 <= j < n ==> parts[..n][j] == parts[j];
    }
  }

  /** First entries come in ascending order of part number. */
  predicate FirstEntriesAscend(parts: seq<CompletePart>)
  {
    forall i, j :: 0 <= i < j < |parts| && FirstEntry(parts, i) && FirstEntry(parts, j)
                   ==> parts[i].number < parts[j].number
  }

  // ---- The normalized list, as the loop builds it ----

  /** The distinct numbers of a request in order of first appearance. */
  function FirstSeen(parts: seq<CompletePart>): (numbers: seq<int>)
    ensures forall n :: n in numbers <==> Mentions(parts, n)
    ensures forall i, j :: 0 <= i < j < |numbers| ==> numbers[i] != numbers[j]
    ensures |numbers| <= |parts|
  {
    if parts == [] then []
    else
      var init, last := parts[..|parts| - 1], parts[|parts| - 1].number;
      var numbers := FirstSeen(init);
      assert forall n :: Mentions(init, n) ==> Mentions(parts, n) by {
        forall n | Mentions(init, n) ensures Mentions(parts, n) {
          var i :| 0 <= i < |init| && init[i].number == n;
          assert parts[i].number == n;
        }
      }
      assert forall n :: Mentions(parts, n) && n != last ==> Mentions(init, n) by {
        forall n | Mentions(parts, n) && n != last ensures Mentions(init, n) {
          var i :| 0 <= i < |parts| && parts[i].number == n;
          assert init[i].number == n;
        }
      }
      assert parts[|parts| - 1].number == last;
      if last in numbers then numbers else numbers + [last]
  }

  function Winners(parts: seq<CompletePart>): (r: seq<CompletePart>)
    ensures |r| == |FirstSeen(parts)|
    ensures forall i :: 0 <= i < |r| ==> r[i].number == FirstSeen(parts)[i] && Mentions(parts, r[i].number)
                                         && r[i] == LastEntry(parts, r[i].number)
  {
    var numbers := FirstSeen(parts);
    assert forall i :: 0 <= i < |numbers| ==> numbers[i] in numbers;
    seq(|numbers|, i requires 0 <= i < |numbers| => LastEntry(parts, numbers[i]))
  }

  predicate Ascending(numbers: seq<int>)
  {
    forall i, j :: 0 <= i < j < |numbers| ==> numbers[i] < numbers[j]
  }

  function Normalize(parts: seq<CompletePart>): Result<seq<CompletePart>, PartsError>
  {
    if parts == [] then Err(NoCompletedParts)
    else if Ascending(FirstSeen(parts)) then Ok(Winners(parts))
    else Err(PartOrder)
  }

  /** One more entry either overwrites the winner of its number in place or is appended. */
  lemma WinnersStep(parts: seq<CompletePart>, p: CompletePart)
    ensures var before, after := Winners(parts), Winners(parts + [p]);
            if Mentions(parts, p.number)
            then FirstSeen(parts + [p]) == FirstSeen(parts)
                 && forall i :: 0 <= i < |before| ==> after[i] == if before[i].number == p.number then p else before[i]
            else FirstSeen(parts + [p]) == FirstSeen(parts) + [p.number] && after == before + [p]
  {
    var before, after := Winners(parts), Winners(parts + [p]);
    FirstSeenStep(parts, p);
    LastEntryOfNew(parts, p);
    forall i | 0 <= i < |before| ensures after[i] == if before[i].number == p.number then p else before[i] {
      assert Mentions(parts, before[i].number);
      LastEntryStep(parts, p, before[i].number);
    }
    if !Mentions(parts, p.number) {
      assert forall i :: 0 <= i < |before| ==> before[i].number != p.number;
      assert after[|before|] == p;
    }
  }

  lemma FirstSeenStep(parts: seq<CompletePart>, p: CompletePart)
    ensures FirstSeen(parts + [p]) == if Mentions(parts, p.number) then FirstSeen(parts) else FirstSeen(parts) + [p.number]
  {
    assert (parts + [p])[..|parts|] == parts;
  }

  lemma LastEntryOfNew(parts: seq<CompletePart>, p: CompletePart)
    ensures Mentions(parts + [p], p.number) && LastEntry(parts + [p], p.number) == p
  {
    assert (parts + [p])[|parts|].number == p.number;
  }

  lemma LastEntryStep(parts: seq<CompletePart>, p: CompletePart, n: int)
    requires Mentions(parts, n)
    ensures Mentions(parts + [p], n)
    ensures LastEntry(parts + [p], n) == if n == p.number then p else LastEntry(parts, n)
  {
    var i :| 0 <= i < |parts| && parts[i].number == n;
    assert (parts + [p])[i].number == n;
    assert (parts + [p])[..|parts|] == parts;
  }

  /** The index of the loop: every number seen so far has its position in the list of winners. */
  ghost predicate Indexed(positions: map<int, nat>, unique: seq<CompletePart>)
  {
    && (forall n :: n in positions ==> positions[n] < |unique| && unique[positions[n]].number == n)
    && (forall i :: 0 <= i < |unique| ==> unique[i].number in positions && positions[unique[i].number] == i)
  }

  lemma WinnersExtend(parts: seq<CompletePart>, p: CompletePart, positions: map<int, nat>)
    requires Indexed(positions, Winners(parts))
    ensures p.number in positions ==>
              Winners(parts + [p]) == Winners(parts)[positions[p.number] := p] && Indexed(positions, Winners(parts + [p]))
    ensures p.number !in positions ==>
              && Winners(parts + [p]) == Winners(parts) + [p]
              && Indexed(positions[p.number := |Winners(parts)|], Winners(parts + [p]))
  {
    WinnersStep(parts, p);
    var winners := Winners(parts);
    if p.number in positions {
      assert Mentions(parts, winners[positions[p.number]].number);
    } else {
      assert !Mentions(parts, p.number);
    }
  }

  /** normalizeCompletedParts: the first loop, then the order check. */
  method NormalizeCompletedParts(parts: seq<CompletePart>) returns (r: Result<seq<CompletePart>, PartsError>)
    ensures r == Normalize(parts)
  {
    if |parts| == 0 {
      return Err(NoCompletedParts);
    }
    var positions: map<int, nat> := map[];
    var unique: seq<CompletePart> := [];
    for k := 0 to |parts|
      invariant unique == Winners(parts[..k])
      invariant Indexed(positions, unique)
    {
      var part := parts[k];
      WinnersExtend(parts[..k], part, positions);
      assert parts[..k + 1] == parts[..k] + [part];
      if part.number in positions {
        unique := unique[positions[part.number] := part];
      } else {
        positions := positions[part.number := |unique|];
        unique := unique + [part];
      }
    }
    assert parts[..|parts|] == parts;
    var ordered := InOrder(unique, FirstSeen(parts));
    return if ordered then Ok(unique) else Err(PartOrder);
  }

  /** The second loop: neighbours may not descend. */
  method InOrder(unique: seq<CompletePart>, ghost numbers: seq<int>) returns (ordered: bool)
    requires |unique| == |numbers| && forall i :: 0 <= i < |unique| ==> unique[i].number == numbers[i]
    requires forall i, j :: 0 <= i < j < |numbers| ==> numbers[i] != numbers[j]
    ensures ordered <==> Ascending(numbers)
  {
    var i := 1;
    while i < |unique|
      invariant 1 <= i
      invariant forall a, b :: 0 <= a < b < i && b < |unique| ==> numbers[a] < numbers[b]
    {
      if unique[i].number < unique[i - 1].number {
        assert numbers[i] < numbers[i - 1];
        return false;
      }
      assert numbers[i - 1] != numbers[i];
      i := i + 1;
    }
    return true;
  }

  /** Normalization succeeds exactly on non-empty requests whose first entries ascend. */
  lemma NormalizeSucceeds(parts: seq<CompletePart>)
    ensures Normalize(parts).Ok? <==> parts != [] && FirstEntriesAscend(parts)
    ensures Normalize(parts) == Err(NoCompletedParts) <==> parts == []
  {
    var numbers := FirstSeen(parts);
    if Ascending(numbers) {
      forall i, j | 0 <= i < j < |parts| && FirstEntry(parts, i) && FirstEntry(parts, j)
        ensures parts[i].number < parts[j].number
      {
        assert Mentions(parts, parts[i].number) && Mentions(parts, parts[j].number);
        var a :| 0 <= a < |numbers| && numbers[a] == parts[i].number;
        var b :| 0 <= b < |numbers| && numbers[b] == parts[j].number;
        SameOrder(parts, a, b, i, j);
      }
    }
    if FirstEntriesAscend(parts) {
      forall a, b | 0 <= a < b < |numbers| ensures numbers[a] < numbers[b] {
        var i, j := FirstSeenPair(parts, a, b);
      }
    }
  }

  predicate SeenInOrder(parts: seq<CompletePart>, m: int, n: int, i: nat, j: nat)
  {
    i < j < |parts| && FirstEntry(parts, i) && FirstEntry(parts, j) && parts[i].number == m && parts[j].number == n
  }

  lemma SameOrder(parts: seq<CompletePart>, a: nat, b: nat, i: nat, j: nat)
    requires a < |FirstSeen(parts)| && b < |FirstSeen(parts)|
    requires FirstEntry(parts, i) && FirstEntry(parts, j) && i != j
    requires parts[i].number == FirstSeen(parts)[a] && parts[j].number == FirstSeen(parts)[b]
    ensures a < b <==> i < j
  {
    if a < b {
      var x, y := FirstSeenPair(parts, a, b);
    } else if b < a {
      var x, y := FirstSeenPair(parts, b, a);
    }
  }

  /** Earlier in FirstSeen means first named earlier in the request. */
  lemma {:induction false} FirstSeenPair(parts: seq<CompletePart>, a: nat, b: nat) returns (i: nat, j: nat)
    requires a < b < |FirstSeen(parts)|
    ensures SeenInOrder(parts, FirstSeen(parts)[a], FirstSeen(parts)[b], i, j)
  {
    var n := |parts| - 1;
    var init := parts[..n];
    var before := FirstSeen(init);
    var numbers := FirstSeen(parts);
    assert numbers == before || numbers == before + [parts[n].number];
    if b < |before| {
      i, j := FirstSeenPair(init, a, b);
      assert init[i] == parts[i] && init[j] == parts[j];
      assert FirstEntry(parts, i) && FirstEntry(parts, j);
    } else {
      assert before[a] in before;
      i := FirstIndex(init, before[a]);
      j := n;
      assert FirstEntry(parts, i);
      assert FirstEntry(parts, n) by {
        assert !Mentions(init, parts[n].number);
        assert forall h :: 0 <= h < n ==> init[h] == parts[h];
      }
    }
  }

  lemma {:induction false} FirstIndex(parts: seq<CompletePart>, number: int) returns (i: nat)
    requires Mentions(parts, number)
    ensures FirstEntry(parts, i) && parts[i].number == number
  {
    i := 0;
    while parts[i].number != number
      invariant i < |parts|
      invariant forall h :: 0 <= h < i ==> parts[h].number != number
      invariant Mentions(parts, number)
      decreases |parts| - i
    {
      var k :| 0 <= k < |parts| && parts[k].number == number;
      i := i + 1;
    }
  }

  /** Each requested number appears once, in ascending order, with the last tag given for it. */
  lemma NormalizedMeaning(parts: seq<CompletePart>)
    requires Normalize(parts).Ok?
    ensures var r := Normalize(parts).value;
            && r != []
            && (forall i, j :: 0 <= i < j < |r| ==> r[i].number < r[j].number)
            && (forall n :: Mentions(parts, n) <==> Mentions(r, n))
            && (forall i :: 0 <= i < |r| ==> Mentions(parts, r[i].number) && r[i] == LastEntry(parts, r[i].number))
  {
    var r, numbers := Normalize(parts).value, FirstSeen(parts);
    forall n ensures Mentions(parts, n) <==> Mentions(r, n) {
      if Mentions(parts, n) {
        var i :| 0 <= i < |numbers| && numbers[i] == n;
        assert r[i].number == n;
      }
    }
    assert Mentions(parts, parts[0].number);
  }

  // ---- Matching against the stored parts ----

  /** What the request asks for at position i is stored, has the requested tag and is large enough. */
  predicate PartFits<P>(requested: seq<CompletePart>, stored: map<int, StoredPart<P>>, minPartSize: int, i: nat)
    requires i < |requested|
  {
    && PartKnown(requested, stored, i)
    && (i < |requested| - 1 ==> stored[requested[i].number].size >= minPartSize)
  }

  predicate PartKnown<P>(requested: seq<CompletePart>, stored: map<int, StoredPart<P>>, i: nat)
    requires i < |requested|
  {
    requested[i].number in stored && ETags.Equal(requested[i].etag, stored[requested[i].number].etag)
  }

  predicate AllFit<P>(requested: seq<CompletePart>, stored: map<int, StoredPart<P>>, minPartSize: int)
  {
    forall i :: 0 <= i < |requested| ==> PartFits(requested, stored, minPartSize, i)
  }

  function Selected<P>(requested: seq<CompletePart>, stored: map<int, StoredPart<P>>): (r: seq<StoredPart<P>>)
    requires forall i :: 0 <= i < |requested| ==> PartKnown(requested, stored, i)
    ensures |r| == |requested|
    ensures forall i :: 0 <= i < |requested| ==> PartKnown(requested, stored, i) && r[i] == stored[requested[i].number]
  {
    seq(|requested|, i requires 0 <= i < |requested| && PartKnown(requested, stored, i) => stored[requested[i].number])
  }

  function FirstMisfit<P>(requested: seq<CompletePart>, stored: map<int, StoredPart<P>>, minPartSize: int, from: nat)
    : (i: nat)
    requires from <= |requested|
    ensures from <= i <= |requested|
    ensures i < |requested| ==> !PartFits(requested, stored, minPartSize, i)
    ensures forall j :: from <= j < i ==> PartFits(requested, stored, minPartSize, j)
    decreases |requested| - from
  {
    if from == |requested| || !PartFits(requested, stored, minPartSize, from) then from
    else FirstMisfit(requested, stored, minPartSize, from + 1)
  }

  /** The first position that does not fit decides the error. */
  function Matched<P>(requested: seq<CompletePart>, stored: map<int, StoredPart<P>>, minPartSize: int)
    : (r: Result<seq<StoredPart<P>>, PartsError>)
    ensures r.Ok? <==> AllFit(requested, stored, minPartSize)
    ensures r.Ok? ==> |r.value| == |requested|
                      && forall i :: 0 <= i < |requested| ==>
                           requested[i].number in stored && r.value[i] == stored[requested[i].number]
  {
    var i := FirstMisfit(requested, stored, minPartSize, 0);
    assert i == |requested| ==> forall j :: 0 <= j < i ==> PartFits(requested, stored, minPartSize, j);
    assert i == |requested| ==> forall j :: 0 <= j < |requested| ==> PartKnown(requested, stored, j) by {
      forall j | 0 <= j < |requested| && i == |requested| ensures PartKnown(requested, stored, j) {
        assert PartFits(requested, stored, minPartSize, j);
      }
    }
    if i == |requested| then Ok(Selected(requested, stored))
    else if !PartKnown(requested, stored, i) then Err(UnknownPart)
    else Err(PartTooSmall)
  }

  /** The first requested part that is unknown, has another tag or is too small decides, in this order for each part. */
  lemma MatchedMeaning<P>(requested: seq<CompletePart>, stored: map<int, StoredPart<P>>, minPartSize: int, i: nat)
    requires i < |requested|
    requires forall j :: 0 <= j < i ==>
               && requested[j].number in stored && ETags.Equal(requested[j].etag, stored[requested[j].number].etag)
               && stored[requested[j].number].size >= minPartSize
    ensures requested[i].number !in stored || !ETags.Equal(requested[i].etag, stored[requested[i].number].etag) ==>
              Matched(requested, stored, minPartSize) == Err(UnknownPart)
    ensures requested[i].number in stored && ETags.Equal(requested[i].etag, stored[requested[i].number].etag) ==>
              && (i < |requested| - 1 && stored[requested[i].number].size < minPartSize ==>
                    Matched(requested, stored, minPartSize) == Err(PartTooSmall))
              && (i == |requested| - 1 ==> Matched(requested, stored, minPartSize).Ok?)
  {
    forall j | 0 <= j < i ensures PartFits(requested, stored, minPartSize, j) {
    }
    if !PartFits(requested, stored, minPartSize, i) {
      FirstMisfitIs(requested, stored, minPartSize, i);
    } else if i == |requested| - 1 {
      assert AllFit(requested, stored, minPartSize);
    }
  }

  /** The rows of a query, keyed by part number; a later row wins, as in the loop that builds the index. */
  function ByNumber<P>(rows: seq<(int, StoredPart<P>)>): map<int, StoredPart<P>>
  {
    if rows == [] then map[]
    else ByNumber(rows[..|rows| - 1])[rows[|rows| - 1].0 := rows[|rows| - 1].1]
  }

  /** The second loop of matchStoredParts. */
  method MatchIndexed<P>(requested: seq<CompletePart>, byNumber: map<int, StoredPart<P>>, minPartSize: int)
    returns (r: Result<seq<StoredPart<P>>, PartsError>)
    ensures r == Matched(requested, byNumber, minPartSize)
  {
    var matched: seq<StoredPart<P>> := [];
    for i := 0 to |requested|
      invariant |matched| == i
      invariant forall j :: 0 <= j < i ==> PartFits(requested, byNumber, minPartSize, j)
                                           && matched[j] == byNumber[requested[j].number]
    {
      var want := requested[i];
      if want.number !in byNumber || !ETags.Equal(want.etag, byNumber[want.number].etag) {
        FirstMisfitIs(requested, byNumber, minPartSize, i);
        return Err(UnknownPart);
      }
      var part := byNumber[want.number];
      if i < |requested| - 1 && part.size < minPartSize {
        FirstMisfitIs(requested, byNumber, minPartSize, i);
        return Err(PartTooSmall);
      }
      matched := matched + [part];
    }
    assert AllFit(requested, byNumber, minPartSize);
    assert matched == Matched(requested, byNumber, minPartSize).value;
    return Ok(matched);
  }

  lemma FirstMisfitIs<P>(requested: seq<CompletePart>, stored: map<int, StoredPart<P>>, minPartSize: int, i: nat)
    requires i < |requested| && !PartFits(requested, stored, minPartSize, i)
    requires forall j :: 0 <= j < i ==> PartFits(requested, stored, minPartSize, j)
    ensures FirstMisfit(requested, stored, minPartSize, 0) == i
  {
  }

  /** matchStoredParts: build the index, then match. */
  method MatchStoredParts<P>(requested: seq<CompletePart>, rows: seq<(int, StoredPart<P>)>, minPartSize: int)
    returns (r: Result<seq<StoredPart<P>>, PartsError>)
    ensures r == Matched(requested, ByNumber(rows), minPartSize)
  {
    var byNumber: map<int, StoredPart<P>> := map[];
    for k := 0 to |rows|
      invariant byNumber == ByNumber(rows[..k])
    {
      assert rows[..k + 1][..k] == rows[..k];
      byNumber := byNumber[rows[k].0 := rows[k].1];
    }
    assert rows[..|rows|] == rows;
    r := MatchIndexed(requested, byNumber, minPartSize);
  }

  function TotalSize<P>(parts: seq<StoredPart<P>>): nat
  {
    if parts == [] then 0 else TotalSize(parts[..|parts| - 1]) + parts[|parts| - 1].size
  }

  lemma {:induction false} TotalSizeBound<P>(parts: seq<StoredPart<P>>, minPartSize: int)
    requires forall i :: 0 <= i < |parts| ==> parts[i].size >= minPartSize
    ensures TotalSize(parts) >= |parts| * minPartSize
  {
    if parts == [] {
    } else {
      var init := parts[..|parts| - 1];
      TotalSizeBound(init, minPartSize);
      assert |parts| * minPartSize == |init| * minPartSize + minPartSize;
    }
  }

  /** An accepted request of n distinct parts holds at least n - 1 times the minimum size. */
  lemma AcceptedSize<P>(parts: seq<CompletePart>, stored: map<int, StoredPart<P>>, minPartSize: int)
    requires Normalize(parts).Ok? && Matched(Normalize(parts).value, stored, minPartSize).Ok?
    ensures var chosen := Matched(Normalize(parts).value, stored, minPartSize).value;
            |chosen| >= 1 && TotalSize(chosen) >= (|chosen| - 1) * minPartSize
  {
    NormalizedMeaning(parts);
    var requested := Normalize(parts).value;
    var chosen := Matched(requested, stored, minPartSize).value;
    var init := chosen[..|chosen| - 1];
    forall i | 0 <= i < |init| ensures init[i].size >= minPartSize {
      assert PartFits(requested, stored, minPartSize, i);
    }
    TotalSizeBound(init, minPartSize);
  }
}
