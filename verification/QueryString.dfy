/** The canonical query string of a SigV4 request. Strings are sequences of bytes. */
module QueryString {
  import opened Wrappers

  type Byte = x: int | 0 <= x < 256

  type Bytes = seq<Byte>

  const PERCENT: Byte := '%' as int

  const AMPERSAND: Byte := '&' as int

  const EQUALS: Byte := '=' as int

  // ---- Percent encoding ----

  predicate Alphanumeric(c: Byte)
  {
    65 <= c <= 90 || 97 <= c <= 122 || 48 <= c <= 57
  }

  /** Everything but the unreserved characters of section 2.3 of RFC 3986: "-", "_", "." and "~" stay too. */
  predicate ShouldEscape(c: Byte)
  {
    !Alphanumeric(c) && c != 45 && c != 95 && c != 46 && c != 126
  }

  function HexDigit(n: nat): (r: Byte)
    requires n < 16
    ensures Alphanumeric(r)
  {
    if n < 10 then 48 + n else 55 + n
  }

  function HexValue(c: Byte): (r: Option<nat>)
    ensures r.Some? ==> r.value < 16
  {
    if 48 <= c <= 57 then Some(c - 48)
    else if 65 <= c <= 70 then Some(c - 55)
    else if 97 <= c <= 102 then Some(c - 87)
    else None
  }

  /** Section 2.1 of RFC 3986. */
  function Escaped(c: Byte): Bytes
  {
    if ShouldEscape(c) then [PERCENT, HexDigit(c / 16), HexDigit(c % 16)] else [c]
  }

  /** n characters in a row. */
  function Row(first: Byte, n: nat): Bytes
    requires first + n <= 256
  {
    seq(n, i requires 0 <= i < n => first + i)
  }

  const DIGITS: Bytes := Row('0' as int, 10)

  const HEX: Bytes := DIGITS + Row('A' as int, 6)

  /** ALPHA, DIGIT, "-", ".", "_" and "~", as section 2.3 of RFC 3986 lists them. */
  const UNRESERVED: Bytes :=
    Row('A' as int, 26) + Row('a' as int, 26) + DIGITS + ['-' as int, '.' as int, '_' as int, '~' as int]

  lemma RowMeaning(first: Byte, n: nat, c: Byte)
    requires first + n <= 256
    ensures c in Row(first, n) <==> first <= c < first + n
  {
    if first <= c < first + n {
      assert Row(first, n)[c - first] == c;
    }
  }

  /** The unreserved characters stay. Every other byte is a percent sign and its two digits in upper-case hexadecimal. */
  lemma EscapedMeaning(c: Byte)
    ensures Escaped(c) == if c in UNRESERVED then [c] else ['%' as int, HEX[c / 16], HEX[c % 16]]
  {
    RowMeaning('A' as int, 26, c);
    RowMeaning('a' as int, 26, c);
    RowMeaning('0' as int, 10, c);
  }

  function Encoded(s: Bytes): Bytes
  {
    if s == [] then [] else Escaped(s[0]) + Encoded(s[1..])
  }

  function Escapes(s: Bytes): nat
  {
    if s == [] then 0 else (if ShouldEscape(s[0]) then 1 else 0) + Escapes(s[1..])
  }

  lemma {:induction false} EncodedLength(s: Bytes)
    ensures |Encoded(s)| == |s| + 2 * Escapes(s)
    ensures Escapes(s) == 0 ==> Encoded(s) == s
  {
    if s == [] {
    } else {
      EncodedLength(s[1..]);
      if !ShouldEscape(s[0]) {
        assert s == [s[0]] + s[1..];
      }
    }
  }

  /** One more byte of the source moves from what is left to what is written. */
  lemma TakeOne(s: Bytes, i: nat, done: Bytes)
    requires i < |s|
    ensures done + Encoded(s[i..]) == done + Escaped(s[i]) + Encoded(s[i + 1..])
    ensures Escapes(s[i..]) == (if ShouldEscape(s[i]) then 1 else 0) + Escapes(s[i + 1..])
  {
    assert s[i..][1..] == s[i + 1..];
  }

  /** The buffer is sized by counting first, and the second pass fills it exactly. */
  method UriEncode(s: Bytes) returns (r: Bytes)
    ensures r == Encoded(s)
  {
    var spaceCount := 0;
    for i := 0 to |s|
      invariant spaceCount + Escapes(s[i..]) == Escapes(s)
    {
      TakeOne(s, i, []);
      if ShouldEscape(s[i]) {
        spaceCount := spaceCount + 1;
      }
    }
    EncodedLength(s);
    if spaceCount == 0 {
      return s;
    }
    var t := new Byte[|s| + 2 * spaceCount];
    var j := 0;
    for i := 0 to |s|
      invariant 0 <= j <= t.Length
      invariant t[..j] + Encoded(s[i..]) == Encoded(s)
    {
      TakeOne(s, i, t[..j]);
      j := Put(t, j, s[i]);
    }
    assert s[|s|..] == [] && t[..j] == t[..];
    r := t[..];
  }

  /** One character of the second pass. */
  method Put(t: array<Byte>, at: nat, c: Byte) returns (j: nat)
    requires at + |Escaped(c)| <= t.Length
    modifies t
    ensures j == at + |Escaped(c)| && t[..j] == old(t[..at]) + Escaped(c)
  {
    j := at;
    if ShouldEscape(c) {
      t[j] := PERCENT;
      t[j + 1] := HexDigit(c / 16);
      t[j + 2] := HexDigit(c % 16);
      j := j + 3;
    } else {
      t[j] := c;
      j := j + 1;
    }
  }

  /** Percent-decoding, in upper or lower case. */
  function Decoded(s: Bytes): Option<Bytes>
  {
    if s == [] then Some([])
    else if s[0] != PERCENT then
      var rest := Decoded(s[1..]);
      if rest.None? then None else Some([s[0]] + rest.value)
    else if |s| < 3 || HexValue(s[1]).None? || HexValue(s[2]).None? then None
    else
      var rest := Decoded(s[3..]);
      if rest.None? then None else Some([HexValue(s[1]).value * 16 + HexValue(s[2]).value] + rest.value)
  }

  lemma {:induction false} DecodingUndoes(s: Bytes)
    ensures Decoded(Encoded(s)) == Some(s)
  {
    if s == [] {
    } else {
      DecodingUndoes(s[1..]);
      var rest := Encoded(s[1..]);
      assert s == [s[0]] + s[1..];
      if ShouldEscape(s[0]) {
        assert Encoded(s)[3..] == rest;
      } else {
        assert Encoded(s)[1..] == rest;
      }
    }
  }

  lemma EncodedInjective(s: Bytes, t: Bytes)
    requires Encoded(s) == Encoded(t)
    ensures s == t
  {
    DecodingUndoes(s);
    DecodingUndoes(t);
  }

  lemma {:induction false} EncodedAlphabet(s: Bytes)
    ensures forall c :: c in Encoded(s) ==> c != AMPERSAND && c != EQUALS
  {
    if s == [] {
    } else {
      EncodedAlphabet(s[1..]);
    }
  }

  // ---- Pairs joined into one string ----

  datatype Pair = Pair(name: Bytes, value: Bytes)

  function Part(p: Pair): Bytes
  {
    Encoded(p.name) + [EQUALS] + Encoded(p.value)
  }

  function Joined(pairs: seq<Pair>): Bytes
  {
    if pairs == [] then []
    else if |pairs| == 1 then Part(pairs[0])
    else Part(pairs[0]) + [AMPERSAND] + Joined(pairs[1..])
  }

  /** Name and value are joined by "=", pairs by "&". */
  lemma JoinedMeaning(p: Pair, rest: seq<Pair>)
    ensures Joined([p]) == Encoded(p.name) + ['=' as int] + Encoded(p.value)
    ensures rest != [] ==> Joined([p] + rest) == Joined([p]) + ['&' as int] + Joined(rest)
  {
    assert ([p] + rest)[1..] == rest;
  }

  /** strings.Join. */
  function Join(parts: seq<Bytes>): Bytes
  {
    if parts == [] then []
    else if |parts| == 1 then parts[0]
    else parts[0] + [AMPERSAND] + Join(parts[1..])
  }

  function Parts(pairs: seq<Pair>): seq<Bytes>
  {
    seq(|pairs|, i requires 0 <= i < |pairs| => Part(pairs[i]))
  }

  lemma {:induction false} JoinParts(pairs: seq<Pair>)
    ensures Join(Parts(pairs)) == Joined(pairs)
  {
    if |pairs| > 1 {
      JoinParts(pairs[1..]);
      assert Parts(pairs)[1..] == Parts(pairs[1..]);
    }
  }

  /** The first separator splits a string in one way only. */
  lemma SplitOnce(a: Bytes, x: Bytes, b: Bytes, y: Bytes, separator: Byte)
    requires separator !in a && separator !in b
    requires a + [separator] + x == b + [separator] + y
    ensures a == b && x == y
  {
    var s := a + [separator] + x;
    assert s == b + [separator] + y;
    assert s[|a|] == separator && s[|b|] == separator;
    assert forall i :: 0 <= i < |a| ==> s[i] == a[i];
    assert forall i :: 0 <= i < |b| ==> s[i] == b[i];
    assert a == s[..|a|] && b == s[..|b|];
    assert x == s[|a| + 1..] && y == s[|b| + 1..];
  }

  lemma PartInjective(p: Pair, q: Pair)
    requires Part(p) == Part(q)
    ensures p == q
  {
    EncodedAlphabet(p.name);
    EncodedAlphabet(q.name);
    SplitOnce(Encoded(p.name), Encoded(p.value), Encoded(q.name), Encoded(q.value), EQUALS);
    EncodedInjective(p.name, q.name);
    EncodedInjective(p.value, q.value);
  }

  lemma PartAlphabet(p: Pair)
    ensures AMPERSAND !in Part(p) && Part(p) != []
  {
    EncodedAlphabet(p.name);
    EncodedAlphabet(p.value);
  }

  lemma JoinedShape(pairs: seq<Pair>)
    ensures Joined(pairs) == [] <==> pairs == []
    ensures AMPERSAND in Joined(pairs) <==> |pairs| > 1
  {
    if pairs != [] {
      PartAlphabet(pairs[0]);
    }
  }

  lemma {:induction false} JoinedInjective(ps: seq<Pair>, qs: seq<Pair>)
    requires Joined(ps) == Joined(qs)
    ensures ps == qs
  {
    JoinedShape(ps);
    JoinedShape(qs);
    if |ps| == 1 {
      PartInjective(ps[0], qs[0]);
    } else if |ps| > 1 {
      PartAlphabet(ps[0]);
      PartAlphabet(qs[0]);
      SplitOnce(Part(ps[0]), Joined(ps[1..]), Part(qs[0]), Joined(qs[1..]), AMPERSAND);
      PartInjective(ps[0], qs[0]);
      JoinedInjective(ps[1..], qs[1..]);
      assert ps == [ps[0]] + ps[1..] && qs == [qs[0]] + qs[1..];
    }
  }

  // ---- Order ----

  predicate AtMost(a: Bytes, b: Bytes)
  {
    a == [] || (b != [] && (a[0] < b[0] || (a[0] == b[0] && AtMost(a[1..], b[1..]))))
  }

  /** A prefix comes first; otherwise the first byte in which the strings differ decides. */
  lemma {:induction false} AtMostMeaning(a: Bytes, b: Bytes, n: nat)
    requires n <= |a| && n <= |b| && a[..n] == b[..n]
    ensures n == |a| ==> AtMost(a, b)
    ensures n < |a| && n == |b| ==> !AtMost(a, b)
    ensures n < |a| && n < |b| && a[n] != b[n] ==> (AtMost(a, b) <==> a[n] < b[n])
  {
    if n > 0 {
      assert a[0] == a[..n][0] && b[0] == b[..n][0];
      assert a[1..][..n - 1] == a[..n][1..] && b[1..][..n - 1] == b[..n][1..];
      AtMostMeaning(a[1..], b[1..], n - 1);
    }
  }

  lemma {:induction false} AtMostIsTotal(a: Bytes, b: Bytes)
    ensures AtMost(a, b) || AtMost(b, a)
    ensures AtMost(a, b) && AtMost(b, a) ==> a == b
  {
    if a != [] && b != [] {
      AtMostIsTotal(a[1..], b[1..]);
      if a[0] == b[0] {
        assert a == [a[0]] + a[1..] && b == [b[0]] + b[1..];
      }
    }
  }

  lemma {:induction false} AtMostTransitive(a: Bytes, b: Bytes, c: Bytes)
    requires AtMost(a, b) && AtMost(b, c)
    ensures AtMost(a, c)
  {
    if a != [] && a[0] == b[0] && b[0] == c[0] {
      AtMostTransitive(a[1..], b[1..], c[1..]);
    }
  }

  predicate PairAtMost(p: Pair, q: Pair)
  {
    if p.name == q.name then AtMost(p.value, q.value) else AtMost(p.name, q.name)
  }

  ghost predicate TotalOrder<T(!new)>(le: (T, T) -> bool)
  {
    && (forall a, b :: le(a, b) || le(b, a))
    && (forall a, b :: le(a, b) && le(b, a) ==> a == b)
    && (forall a, b, c :: le(a, b) && le(b, c) ==> le(a, c))
  }

  lemma OrdersAreTotal()
    ensures TotalOrder(AtMost) && TotalOrder(PairAtMost)
  {
    forall a, b ensures AtMost(a, b) || AtMost(b, a)
      ensures AtMost(a, b) && AtMost(b, a) ==> a == b
    {
      AtMostIsTotal(a, b);
    }
    forall a, b, c | AtMost(a, b) && AtMost(b, c) ensures AtMost(a, c) {
      AtMostTransitive(a, b, c);
    }
  }

  ghost predicate Sorted<T(!new)>(le: (T, T) -> bool, s: seq<T>)
  {
    forall i, j :: 0 <= i < j < |s| ==> le(s[i], s[j])
  }

  function Insert<T>(le: (T, T) -> bool, x: T, s: seq<T>): seq<T>
  {
    if s == [] || le(x, s[0]) then [x] + s else [s[0]] + Insert(le, x, s[1..])
  }

  /** slices.Sort. */
  function Sort<T>(le: (T, T) -> bool, s: seq<T>): seq<T>
  {
    if s == [] then [] else Insert(le, s[0], Sort(le, s[1..]))
  }

  lemma {:induction false} InsertElements<T>(le: (T, T) -> bool, x: T, s: seq<T>)
    ensures multiset(Insert(le, x, s)) == multiset(s) + multiset{x}
    ensures forall y :: y in Insert(le, x, s) ==> y == x || y in s
  {
    if s != [] && !le(x, s[0]) {
      InsertElements(le, x, s[1..]);
      assert s == [s[0]] + s[1..];
    }
  }

  lemma {:induction false} InsertSorts<T(!new)>(le: (T, T) -> bool, x: T, s: seq<T>)
    requires TotalOrder(le) && Sorted(le, s)
    ensures Sorted(le, Insert(le, x, s))
  {
    if s != [] && !le(x, s[0]) {
      InsertSorts(le, x, s[1..]);
      InsertElements(le, x, s[1..]);
      assert le(s[0], x);
      assert forall y :: y in s[1..] ==> le(s[0], y);
    } else if s != [] {
      assert forall y :: y in s[1..] ==> le(s[0], y);
    }
  }

  lemma {:induction false} SortSorts<T(!new)>(le: (T, T) -> bool, s: seq<T>)
    requires TotalOrder(le)
    ensures Sorted(le, Sort(le, s)) && multiset(Sort(le, s)) == multiset(s)
  {
    if s == [] {
    } else {
      SortSorts(le, s[1..]);
      InsertSorts(le, s[0], Sort(le, s[1..]));
      InsertElements(le, s[0], Sort(le, s[1..]));
      assert s == [s[0]] + s[1..];
    }
  }

  lemma FirstIsLeast<T(!new)>(le: (T, T) -> bool, a: seq<T>, x: T)
    requires TotalOrder(le) && Sorted(le, a) && x in multiset(a)
    ensures a != [] && le(a[0], x)
  {
    var i :| 0 <= i < |a| && a[i] == x;
    assert le(x, x);
  }

  /** There is one way to put a multiset in order. */
  lemma {:induction false} SortedUnique<T(!new)>(le: (T, T) -> bool, a: seq<T>, b: seq<T>)
    requires TotalOrder(le) && Sorted(le, a) && Sorted(le, b) && multiset(a) == multiset(b)
    ensures a == b
  {
    assert |a| == |multiset(a)| == |multiset(b)| == |b|;
    if a == [] {
    } else {
      FirstIsLeast(le, b, a[0]);
      FirstIsLeast(le, a, b[0]);
      assert a == [a[0]] + a[1..] && b == [b[0]] + b[1..];
      assert multiset(a[1..]) == multiset(a) - multiset{a[0]};
      assert multiset(b[1..]) == multiset(b) - multiset{b[0]};
      SortedUnique(le, a[1..], b[1..]);
    }
  }
}
