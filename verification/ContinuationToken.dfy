/** Continuation tokens: unpadded base64url (sections 3.2 and 5 of RFC 4648) with length limits. */
module ContinuationToken {
  import opened Wrappers
  import KeyOrder
  import opened Listing

  const MAX_TOKEN_LEN := 1500
  const MAX_KEY_LEN := 1024

  type Byte = x: int | 0 <= x < 256

  type Digit = x: int | 0 <= x < 64

  datatype TokenError = TokenTooLong | Corrupt | KeyTooLong

  function DigitChar(d: Digit): char
  {
    if d < 26 then ('A' as int + d) as char
    else if d < 52 then ('a' as int + d - 26) as char
    else if d < 62 then ('0' as int + d - 52) as char
    else if d == 62 then '-'
    else '_'
  }

  function CharDigit(c: char): Option<Digit>
  {
    if 'A' <= c <= 'Z' then Some(c as int - 'A' as int)
    else if 'a' <= c <= 'z' then Some(c as int - 'a' as int + 26)
    else if '0' <= c <= '9' then Some(c as int - '0' as int + 52)
    else if c == '-' then Some(62)
    else if c == '_' then Some(63)
    else None
  }

  lemma DigitRoundTrip(d: Digit)
    ensures CharDigit(DigitChar(d)) == Some(d)
    ensures DigitChar(d) != '\n' && DigitChar(d) != '\r'
  {
  }

  /** The URL-safe alphabet of section 5 of RFC 4648. */
  const ALPHABET: string := Row('A', 26) + Row('a', 26) + Row('0', 10) + "-_"

  /** n characters in a row. */
  function Row(first: char, n: nat): string
    requires first as int + n <= 128
  {
    seq(n, i requires 0 <= i < n => (first as int + i) as char)
  }

  lemma DigitsAreTheAlphabet(d: Digit)
    ensures DigitChar(d) == ALPHABET[d]
  {
  }

  // ---- Three bytes are four digits ----

  function Digits(bytes: seq<Byte>): seq<Digit>
  {
    if bytes == [] then []
    else if |bytes| == 1 then [bytes[0] / 4, bytes[0] % 4 * 16]
    else if |bytes| == 2 then [bytes[0] / 4, bytes[0] % 4 * 16 + bytes[1] / 16, bytes[1] % 16 * 4]
    else [bytes[0] / 4, bytes[0] % 4 * 16 + bytes[1] / 16, bytes[1] % 16 * 4 + bytes[2] / 64, bytes[2] % 64]
         + Digits(bytes[3..])
  }

  /** The number that these figures write in a base. */
  function Number(figures: seq<int>, base: nat): int
  {
    if figures == [] then 0 else Number(figures[..|figures| - 1], base) * base + figures[|figures| - 1]
  }

  /**
   Three bytes and their four digits write the same number of 24 bits. One or two bytes at the end are filled up with
   zero bits to two or three digits.
   */
  lemma DigitsAreBits(bytes: seq<Byte>)
    requires bytes != []
    ensures |bytes| >= 3 ==> |Digits(bytes)| == 4 + |Digits(bytes[3..])| && Digits(bytes)[4..] == Digits(bytes[3..])
    ensures |bytes| >= 3 ==> Number(Digits(bytes)[..4], 64) == Number(bytes[..3], 256)
    ensures |bytes| == 1 ==> |Digits(bytes)| == 2 && Number(Digits(bytes), 64) == Number(bytes, 256) * 16
    ensures |bytes| == 2 ==> |Digits(bytes)| == 3 && Number(Digits(bytes), 64) == Number(bytes, 256) * 4
  {
    if |bytes| >= 3 {
      NumberOfFour(Digits(bytes)[..4], 64);
      NumberOfThree(bytes[..3], 256);
    } else if |bytes| == 2 {
      NumberOfThree(Digits(bytes), 64);
      NumberOfTwo(bytes, 256);
    } else {
      NumberOfTwo(Digits(bytes), 64);
      assert Number(bytes[..0], 256) == 0;
    }
  }

  lemma NumberOfTwo(f: seq<int>, base: nat)
    requires |f| == 2
    ensures Number(f, base) == f[0] * base + f[1]
  {
    assert f[..1][..0] == [];
    assert Number(f[..1], base) == f[0];
  }

  lemma NumberOfThree(f: seq<int>, base: nat)
    requires |f| == 3
    ensures Number(f, base) == (f[0] * base + f[1]) * base + f[2]
  {
    NumberOfTwo(f[..2], base);
  }

  lemma NumberOfFour(f: seq<int>, base: nat)
    requires |f| == 4
    ensures Number(f, base) == ((f[0] * base + f[1]) * base + f[2]) * base + f[3]
  {
    NumberOfThree(f[..3], base);
  }

  /** A trailing group of one digit is corrupt; unused trailing bits are ignored. */
  function Bytes(digits: seq<Digit>): Result<seq<Byte>, TokenError>
  {
    if digits == [] then Ok([])
    else if |digits| == 1 then Err(Corrupt)
    else
      var group := BytesOf(digits);
      if |digits| < 4 then Ok(group)
      else
        var rest := Bytes(digits[4..]);
        if rest.Err? then rest else Ok(group + rest.value)
  }

  function BytesOf(digits: seq<Digit>): seq<Byte>
    requires |digits| >= 2
  {
    var d: seq<int> := digits;
    var first: Byte := d[0] * 4 + d[1] / 16;
    if |d| == 2 then [first]
    else
      var second: Byte := d[1] % 16 * 16 + d[2] / 4;
      if |d| == 3 then [first, second] else [first, second, d[2] % 4 * 64 + d[3]]
  }

  lemma {:induction false} DigitsRoundTrip(bytes: seq<Byte>)
    ensures Bytes(Digits(bytes)) == Ok(bytes)
    ensures 3 * |Digits(bytes)| <= 4 * |bytes| + 2
  {
    if |bytes| >= 3 {
      DigitsRoundTrip(bytes[3..]);
      assert Digits(bytes)[4..] == Digits(bytes[3..]);
      assert BytesOf(Digits(bytes)) == bytes[..3];
      assert bytes == bytes[..3] + bytes[3..];
    } else if bytes != [] {
      assert BytesOf(Digits(bytes)) == bytes;
    }
  }

  // ---- Text ----

  function Encode(bytes: seq<Byte>): string
  {
    Text(Digits(bytes))
  }

  function Text(digits: seq<Digit>): (r: string)
    ensures |r| == |digits|
  {
    seq(|digits|, i requires 0 <= i < |digits| => DigitChar(digits[i]))
  }

  /** Line breaks are skipped; any other character outside the alphabet is corrupt. */
  function ReadDigits(token: string): Result<seq<Digit>, TokenError>
  {
    if token == "" then Ok([])
    else
      var rest := ReadDigits(token[1..]);
      if token[0] == '\n' || token[0] == '\r' then rest
      else if CharDigit(token[0]).None? then Err(Corrupt)
      else if rest.Err? then rest
      else Ok([CharDigit(token[0]).value] + rest.value)
  }

  function DecodeContinuationToken(token: string): Result<seq<Byte>, TokenError>
  {
    if |token| > MAX_TOKEN_LEN then Err(TokenTooLong)
    else
      var digits := ReadDigits(token);
      if digits.Err? then Err(digits.error)
      else
        var bytes := Bytes(digits.value);
        if bytes.Err? then bytes
        else if |bytes.value| > MAX_KEY_LEN then Err(KeyTooLong)
        else bytes
  }

  lemma {:induction false} TextRoundTrip(digits: seq<Digit>)
    ensures ReadDigits(Text(digits)) == Ok(digits)
  {
    if digits == [] {
    } else {
      DigitRoundTrip(digits[0]);
      TextRoundTrip(digits[1..]);
      assert Text(digits)[1..] == Text(digits[1..]);
      assert digits == [digits[0]] + digits[1..];
    }
  }

  /** Every token issued for a key within the key limit is accepted and decodes to that key. */
  lemma TokenRoundTrip(key: seq<Byte>)
    requires |key| <= 1024
    ensures |Encode(key)| <= 1500
    ensures DecodeContinuationToken(Encode(key)) == Ok(key)
  {
    DigitsRoundTrip(key);
    TextRoundTrip(Digits(key));
  }

  /** Whatever is accepted is a key within the limit, and re-encoding it gives a token for the same key. */
  lemma AcceptedTokens(token: string)
    requires DecodeContinuationToken(token).Ok?
    ensures |token| <= 1500 && |DecodeContinuationToken(token).value| <= 1024
    ensures DecodeContinuationToken(Encode(DecodeContinuationToken(token).value)) == DecodeContinuationToken(token)
  {
    TokenRoundTrip(DecodeContinuationToken(token).value);
  }

  /** Different keys get different bytes, so the cursor of a page survives the token unchanged. */
  lemma KeysHaveTheirOwnBytes(a: string, b: string)
    requires KeyOrder.Utf8(a) == KeyOrder.Utf8(b)
    ensures a == b
  {
    KeyOrder.Total(a, b);
    KeyOrder.Utf8KeepsOrder(a, b);
    KeyOrder.Utf8KeepsOrder(b, a);
    if KeyOrder.Less(a, b) {
      KeyOrder.Asymmetric(a, b);
    }
  }

  // ---- Paging with tokens ----

  function KeyBytes(key: string): seq<Byte>
  {
    KeyOrder.Utf8(key)
  }

  /** Keys are strings of bytes in the store; a token whose bytes spell no key is some other marker. */
  ghost function KeyOf(bytes: seq<Byte>, other: string): string
  {
    if exists k :: KeyBytes(k) == bytes then
      var k :| KeyBytes(k) == bytes;
      k
    else other
  }

  ghost predicate KeysFit(keys: set<string>)
  {
    forall k :: k in keys ==> |KeyBytes(k)| <= MAX_KEY_LEN
  }

  lemma KeySurvivesToken(key: string, other: string)
    requires |KeyBytes(key)| <= MAX_KEY_LEN
    ensures DecodeContinuationToken(Encode(KeyBytes(key))).Ok?
    ensures KeyOf(DecodeContinuationToken(Encode(KeyBytes(key))).value, other) == key
  {
    TokenRoundTrip(KeyBytes(key));
    KeysHaveTheirOwnBytes(KeyOf(KeyBytes(key), other), key);
  }

  /** The cursor of a truncated page is a stored key. */
  lemma CursorIsKey(keys: set<string>, prefix: string, marker: string, delimiter: string, maxKeys: nat)
    requires maxKeys > 0 && ListPage(keys, prefix, marker, delimiter, maxKeys).isTruncated
    ensures |ListPage(keys, prefix, marker, delimiter, maxKeys).entries| == maxKeys
    ensures ListPage(keys, prefix, marker, delimiter, maxKeys).entries[maxKeys - 1].cursorKey in keys
  {
    PageMeaning(keys, prefix, marker, delimiter, maxKeys);
    var v := Remaining(keys, prefix, delimiter, marker)[maxKeys - 1];
    var k := GroupMember(keys, prefix, delimiter, v);
    assert EntryOf(keys, prefix, delimiter, v).cursorKey in Group(keys, prefix, delimiter, v);
  }

  /** The marker the server reads from the token it issued for a cursor. */
  ghost function NextMarker(cursor: string): Result<string, TokenError>
  {
    var decoded := DecodeContinuationToken(Encode(KeyBytes(cursor)));
    if decoded.Err? then Err(decoded.error) else Ok(KeyOf(decoded.value, ""))
  }

  /** The cursor of a truncated page comes back unchanged, and less remains behind it. */
  lemma NextMarkerIsCursor(keys: set<string>, prefix: string, marker: string, delimiter: string, maxKeys: nat)
    requires maxKeys > 0 && KeysFit(keys) && ListPage(keys, prefix, marker, delimiter, maxKeys).isTruncated
    ensures |ListPage(keys, prefix, marker, delimiter, maxKeys).entries| == maxKeys
    ensures var cursor := ListPage(keys, prefix, marker, delimiter, maxKeys).entries[maxKeys - 1].cursorKey;
            && NextMarker(cursor) == Ok(cursor)
            && |Remaining(keys, prefix, delimiter, cursor)| < |Remaining(keys, prefix, delimiter, marker)|
  {
    CursorIsKey(keys, prefix, marker, delimiter, maxKeys);
    var cursor := ListPage(keys, prefix, marker, delimiter, maxKeys).entries[maxKeys - 1].cursorKey;
    KeySurvivesToken(cursor, "");
    PageMeaning(keys, prefix, marker, delimiter, maxKeys);
    CursorContinues(keys, prefix, delimiter, marker, maxKeys - 1);
  }

  /** A V2 client: each next page is asked for with the token of the page before. */
  ghost function FollowTokens(keys: set<string>, prefix: string, marker: string, delimiter: string, maxKeys: nat)
    : Result<seq<Entry>, TokenError>
    requires maxKeys > 0 && KeysFit(keys)
    decreases |Remaining(keys, prefix, delimiter, marker)|
  {
    var page := ListPage(keys, prefix, marker, delimiter, maxKeys);
    if !page.isTruncated then Ok(page.entries)
    else
      NextMarkerIsCursor(keys, prefix, marker, delimiter, maxKeys);
      var next := NextMarker(page.entries[maxKeys - 1].cursorKey);
      if next.Err? then Err(next.error)
      else
        var rest := FollowTokens(keys, prefix, next.value, delimiter, maxKeys);
        if rest.Err? then rest else Ok(page.entries + rest.value)
  }

  /** No token is ever refused, and the client sees exactly what the cursors give: every entry once. */
  lemma {:induction false} TokensEnumerate(keys: set<string>, prefix: string, marker: string, delimiter: string, maxKeys: nat)
    requires maxKeys > 0 && KeysFit(keys)
    ensures FollowTokens(keys, prefix, marker, delimiter, maxKeys) == Ok(Follow(keys, prefix, marker, delimiter, maxKeys))
    decreases |Remaining(keys, prefix, delimiter, marker)|
  {
    var page := ListPage(keys, prefix, marker, delimiter, maxKeys);
    if page.isTruncated {
      NextMarkerIsCursor(keys, prefix, marker, delimiter, maxKeys);
      TokensEnumerate(keys, prefix, page.entries[maxKeys - 1].cursorKey, delimiter, maxKeys);
    }
  }
}
