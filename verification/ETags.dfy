/** Comparison of entity tags: optional surrounding quotes and letter case do not matter. */
module ETags {

  function Unquote(etag: string): string
  {
    if |etag| >= 2 && etag[0] == '"' && etag[|etag| - 1] == '"' then etag[1..|etag| - 1] else etag
  }

  function LowerChar(c: char): char
  {
    if 'A' <= c <= 'Z' then (c as int + 32) as char else c
  }

  function Lower(s: string): (r: string)
    ensures |r| == |s|
    ensures forall i :: 0 <= i < |s| ==> r[i] == LowerChar(s[i])
  {
    seq(|s|, i requires 0 <= i < |s| => LowerChar(s[i]))
  }

  predicate Equal(a: string, b: string)
  {
    Lower(Unquote(a)) == Lower(Unquote(b))
  }

  function Quote(etag: string): string
  {
    "\"" + etag + "\""
  }

  /** Quoting a tag changes no comparison if and only if the tag is not itself quoted. */
  lemma EqualIgnoresQuotes(a: string)
    ensures (forall b :: Equal(Quote(a), b) <==> Equal(a, b)) <==> Unquote(a) == a
  {
    assert Unquote(Quote(a)) == a by {
      assert Quote(a)[1..|Quote(a)| - 1] == a;
    }
    if Unquote(a) != a {
      assert Equal(Quote(a), Quote(a));
      assert |Lower(Unquote(a))| != |Lower(a)|;
      assert !Equal(a, Quote(a));
    }
  }

  // ---- What the comparison means ----

  predicate Quoted(etag: string)
  {
    |etag| >= 2 && etag[0] == '"' && etag[|etag| - 1] == '"'
  }

  /** The same character, or one ASCII letter in its two cases. */
  predicate SameLetter(c: char, d: char)
  {
    || c == d
    || ('A' <= c <= 'Z' && d as int == c as int + 32)
    || ('A' <= d <= 'Z' && c as int == d as int + 32)
  }

  predicate SameText(a: string, b: string)
  {
    |a| == |b| && forall i :: 0 <= i < |a| ==> SameLetter(a[i], b[i])
  }

  lemma LowerDecides(a: string, b: string)
    ensures Lower(a) == Lower(b) <==> SameText(a, b)
  {
    if Lower(a) == Lower(b) {
      forall i | 0 <= i < |a| ensures SameLetter(a[i], b[i]) {
        assert Lower(a)[i] == Lower(b)[i];
      }
    }
  }

  lemma QuoteUnquoted(a: string)
    ensures Unquote(Quote(a)) == a && Quoted(Quote(a))
  {
    assert Quote(a)[1..|Quote(a)| - 1] == a;
  }

  /**
   Two tags are equal exactly when, without one pair of surrounding quotes each, they have the same letters in either
   case. Every tag is either unquoted or the quoting of some text.
   */
  lemma EqualMeaning(a: string, b: string)
    ensures !Quoted(a) && !Quoted(b) ==> (Equal(a, b) <==> SameText(a, b))
    ensures !Quoted(b) ==> (Equal(Quote(a), b) <==> SameText(a, b))
    ensures !Quoted(a) ==> (Equal(a, Quote(b)) <==> SameText(a, b))
    ensures Equal(Quote(a), Quote(b)) <==> SameText(a, b)
    ensures Quoted(a) <==> exists text :: a == Quote(text)
  {
    LowerDecides(a, b);
    QuoteUnquoted(a);
    QuoteUnquoted(b);
    if Quoted(a) {
      assert a == Quote(a[1..|a| - 1]);
    }
  }

  lemma EqualIsEquivalence(a: string, b: string, c: string)
    ensures Equal(a, a)
    ensures Equal(a, b) ==> Equal(b, a)
    ensures Equal(a, b) && Equal(b, c) ==> Equal(a, c)
  {
  }
}
