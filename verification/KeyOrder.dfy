/** The order of keys: code point by code point, which is also the order of their UTF-8 bytes. */
module KeyOrder {

  predicate Less(a: string, b: string)
  {
    if b == "" then false
    else if a == "" then true
    else a[0] < b[0] || (a[0] == b[0] && Less(a[1..], b[1..]))
  }

  predicate AtMost(a: string, b: string)
  {
    a == b || Less(a, b)
  }

  lemma {:induction false} Irreflexive(a: string)
    ensures !Less(a, a)
  {
    if a == "" {
    } else {
      Irreflexive(a[1..]);
    }
  }

  lemma {:induction false} Transitive(a: string, b: string, c: string)
    requires Less(a, b) && Less(b, c)
    ensures Less(a, c)
  {
    if a != "" && a[0] == b[0] == c[0] {
      Transitive(a[1..], b[1..], c[1..]);
    }
  }

  lemma {:induction false} Total(a: string, b: string)
    ensures Less(a, b) || a == b || Less(b, a)
  {
    if a != "" && b != "" && a[0] == b[0] {
      Total(a[1..], b[1..]);
      if a[1..] == b[1..] {
        assert a == [a[0]] + a[1..] == b;
      }
    }
  }

  lemma Asymmetric(a: string, b: string)
    requires Less(a, b)
    ensures !Less(b, a) && a != b
  {
    Irreflexive(a);
    if Less(b, a) {
      Transitive(a, b, a);
    }
  }

  /** A prefix comes first. */
  lemma {:induction false} PrefixAtMost(p: string, a: string)
    requires p <= a
    ensures AtMost(p, a)
  {
    if p == "" {
    } else {
      PrefixAtMost(p[1..], a[1..]);
      if p[1..] == a[1..] {
        assert p == [p[0]] + p[1..] == a;
      }
    }
  }

  /** The strings that start with p form an interval: whatever is above p and outside it is above all of it. */
  lemma {:induction false} AboveInterval(p: string, a: string, b: string)
    requires p <= a && Less(p, b) && !(p <= b)
    ensures Less(a, b)
  {
    if p != "" && p[0] == b[0] {
      assert p[1..] <= b[1..] ==> p <= b;
      AboveInterval(p[1..], a[1..], b[1..]);
    }
  }

  // ---- Sorted enumeration of a finite set of keys ----

  predicate Sorted(s: seq<string>)
  {
    forall i, j :: 0 <= i < j < |s| ==> Less(s[i], s[j])
  }

  predicate IsLeast(m: string, keys: set<string>)
  {
    m in keys && forall k :: k in keys ==> AtMost(m, k)
  }

  predicate IsGreatest(m: string, keys: set<string>)
  {
    m in keys && forall k :: k in keys ==> AtMost(k, m)
  }

  lemma LeastExists(keys: set<string>)
    requires keys != {}
    ensures exists m :: IsLeast(m, keys)
    decreases |keys|
  {
    var k :| k in keys;
    if keys == {k} {
      assert IsLeast(k, keys);
    } else {
      LeastExists(keys - {k});
      var m :| IsLeast(m, keys - {k});
      Total(k, m);
      if Less(k, m) {
        forall x | x in keys ensures AtMost(k, x) {
          if x != k && x != m {
            assert x in keys - {k} && AtMost(m, x);
            Transitive(k, m, x);
          }
        }
        assert IsLeast(k, keys);
      } else {
        assert IsLeast(m, keys);
      }
    }
  }

  lemma GreatestExists(keys: set<string>)
    requires keys != {}
    ensures exists m :: IsGreatest(m, keys)
    decreases |keys|
  {
    var k :| k in keys;
    if keys == {k} {
      assert IsGreatest(k, keys);
    } else {
      GreatestExists(keys - {k});
      var m :| IsGreatest(m, keys - {k});
      Total(k, m);
      if Less(m, k) {
        forall x | x in keys ensures AtMost(x, k) {
          if x != k && x != m {
            assert x in keys - {k} && AtMost(x, m);
            Transitive(x, m, k);
          }
        }
        assert IsGreatest(k, keys);
      } else {
        assert IsGreatest(m, keys);
      }
    }
  }

  ghost function Least(keys: set<string>): (m: string)
    requires keys != {}
    ensures IsLeast(m, keys)
  {
    LeastExists(keys);
    var m :| IsLeast(m, keys);
    m
  }

  /** SQL max(key) over a non-empty group. */
  ghost function Greatest(keys: set<string>): (m: string)
    requires keys != {}
    ensures IsGreatest(m, keys)
  {
    GreatestExists(keys);
    var m :| IsGreatest(m, keys);
    m
  }

  /** ORDER BY: every key once, in order. */
  ghost function InOrder(keys: set<string>): (s: seq<string>)
    ensures |s| == |keys|
    decreases |keys|
  {
    if keys == {} then [] else [Least(keys)] + InOrder(keys - {Least(keys)})
  }

  lemma {:induction false} InOrderElements(keys: set<string>)
    ensures forall k :: k in InOrder(keys) <==> k in keys
    decreases |keys|
  {
    if keys != {} {
      InOrderElements(keys - {Least(keys)});
    }
  }

  lemma {:induction false} InOrderSorted(keys: set<string>)
    ensures Sorted(InOrder(keys))
    decreases |keys|
  {
    if keys != {} {
      var m := Least(keys);
      var rest := InOrder(keys - {m});
      InOrderSorted(keys - {m});
      InOrderElements(keys - {m});
      var s := InOrder(keys);
      forall i, j | 0 <= i < j < |s| ensures Less(s[i], s[j]) {
        assert s[j] == rest[j - 1];
        if i == 0 {
          assert rest[j - 1] in rest;
        } else {
          assert s[i] == rest[i - 1];
        }
      }
    }
  }

  ghost function Above(keys: set<string>, marker: string): set<string>
  {
    set k | k in keys && Less(marker, k)
  }

  /** What follows the n-th key in order is exactly what lies above it. */
  lemma {:induction false} TailIsAbove(keys: set<string>, n: nat)
    requires n < |keys|
    ensures InOrder(keys)[n + 1..] == InOrder(Above(keys, InOrder(keys)[n]))
    decreases |keys|
  {
    var m, rest := Least(keys), keys - {Least(keys)};
    var tail := InOrder(rest);
    InOrderUnfolds(keys);
    if n == 0 {
      AboveLeast(keys, m);
      assert ([m] + tail)[1..] == tail;
    } else {
      var x := tail[n - 1];
      TailIsAbove(rest, n - 1);
      InOrderElements(rest);
      assert x in tail;
      AboveLater(keys, m, x);
      Behind(m, tail, n);
    }
  }

  lemma InOrderUnfolds(keys: set<string>)
    requires keys != {}
    ensures InOrder(keys) == [Least(keys)] + InOrder(keys - {Least(keys)})
    ensures |keys - {Least(keys)}| == |keys| - 1
  {
  }

  lemma Behind(m: string, tail: seq<string>, n: nat)
    requires 0 < n <= |tail|
    ensures ([m] + tail)[n] == tail[n - 1] && ([m] + tail)[n + 1..] == tail[n..]
  {
  }

  lemma AboveLeast(keys: set<string>, m: string)
    requires IsLeast(m, keys)
    ensures Above(keys, m) == keys - {m}
  {
    Irreflexive(m);
  }

  lemma AboveLater(keys: set<string>, m: string, x: string)
    requires IsLeast(m, keys) && x in keys && x != m
    ensures Above(keys, x) == Above(keys - {m}, x)
  {
    Asymmetric(m, x);
  }

  // ---- SQLite compares the UTF-8 bytes ----

  /** Section 3 of RFC 3629. */
  function Utf8Char(c: char): (r: seq<int>)
    ensures 1 <= |r| <= 4
    ensures forall i :: 0 <= i < |r| ==> 0 <= r[i] < 256
  {
    var n := c as int;
    if n < 0x80 then [n]
    else if n < 0x800 then [0xC0 + n / 64, 0x80 + n % 64]
    else if n < 0x10000 then [0xE0 + n / 64 / 64, 0x80 + n / 64 % 64, 0x80 + n % 64]
    else [0xF0 + n / 64 / 64 / 64, 0x80 + n / 64 / 64 % 64, 0x80 + n / 64 % 64, 0x80 + n % 64]
  }

  function Utf8(s: string): (r: seq<int>)
    ensures forall i :: 0 <= i < |r| ==> 0 <= r[i] < 256
  {
    if s == "" then [] else Utf8Char(s[0]) + Utf8(s[1..])
  }

  predicate BytesLess(a: seq<int>, b: seq<int>)
  {
    if b == [] then false
    else if a == [] then true
    else a[0] < b[0] || (a[0] == b[0] && BytesLess(a[1..], b[1..]))
  }

  /** The first byte in which two sequences differ decides. */
  lemma {:induction false} FirstDifference(a: seq<int>, b: seq<int>, i: nat)
    requires i < |a| && i < |b| && a[..i] == b[..i] && a[i] < b[i]
    ensures BytesLess(a, b) && !BytesLess(b, a)
  {
    if i > 0 {
      assert a[0] == a[..i][0] && b[0] == b[..i][0];
      assert a[1..][..i - 1] == a[..i][1..] && b[1..][..i - 1] == b[..i][1..];
      FirstDifference(a[1..], b[1..], i - 1);
    }
  }

  lemma DigitOrder(m: int, n: int)
    requires 0 <= m < n
    ensures m / 64 < n / 64 || (m / 64 == n / 64 && m % 64 < n % 64)
  {
  }

  /** Longer encodings start with larger bytes. */
  lemma WidthOrder(c: char, d: char)
    requires c < d && |Utf8Char(c)| != |Utf8Char(d)|
    ensures Utf8Char(c)[0] < Utf8Char(d)[0]
  {
    var m, n := c as int, d as int;
    assert m < 0x80 ==> Utf8Char(c)[0] < 0x80;
    assert 0x80 <= m < 0x800 ==> 0xC0 <= Utf8Char(c)[0] < 0xE0;
    assert 0x800 <= m < 0x10000 ==> 0xE0 <= Utf8Char(c)[0] < 0xF0;
    assert 0x80 <= n < 0x800 ==> 0xC0 <= Utf8Char(d)[0];
    assert 0x800 <= n < 0x10000 ==> 0xE0 <= Utf8Char(d)[0];
    assert 0x10000 <= n ==> 0xF0 <= Utf8Char(d)[0];
  }

  /** Some byte of the encodings of two different characters differs, in the same direction. */
  lemma CharDifference(c: char, d: char) returns (i: nat)
    requires c < d
    ensures i < |Utf8Char(c)| && i < |Utf8Char(d)|
    ensures Utf8Char(c)[..i] == Utf8Char(d)[..i] && Utf8Char(c)[i] < Utf8Char(d)[i]
  {
    var m, n, width := c as int, d as int, |Utf8Char(c)|;
    if width != |Utf8Char(d)| {
      WidthOrder(c, d);
      i := 0;
    } else if width == 1 {
      i := 0;
    } else {
      DigitOrder(m, n);
      if m / 64 == n / 64 {
        i := width - 1;
      } else if width == 2 {
        i := 0;
      } else {
        DigitOrder(m / 64, n / 64);
        if m / 64 / 64 == n / 64 / 64 {
          i := width - 2;
        } else if width == 3 {
          i := 0;
        } else {
          DigitOrder(m / 64 / 64, n / 64 / 64);
          i := if m / 64 / 64 / 64 == n / 64 / 64 / 64 then 1 else 0;
        }
      }
    }
  }

  lemma {:induction false} CommonBytes(p: seq<int>, a: seq<int>, b: seq<int>)
    ensures BytesLess(p + a, p + b) <==> BytesLess(a, b)
  {
    if p == [] {
      assert p + a == a && p + b == b;
    } else {
      assert (p + a)[1..] == p[1..] + a && (p + b)[1..] == p[1..] + b;
      CommonBytes(p[1..], a, b);
    }
  }

  /** Comparing bytes is comparing keys. */
  lemma {:induction false} Utf8KeepsOrder(a: string, b: string)
    ensures BytesLess(Utf8(a), Utf8(b)) <==> Less(a, b)
  {
    if a != "" && b != "" {
      var x, y := Utf8(a), Utf8(b);
      if a[0] == b[0] {
        Utf8KeepsOrder(a[1..], b[1..]);
        CommonBytes(Utf8Char(a[0]), Utf8(a[1..]), Utf8(b[1..]));
      } else if a[0] < b[0] {
        var i := CharDifference(a[0], b[0]);
        assert x[..i] == Utf8Char(a[0])[..i] && y[..i] == Utf8Char(b[0])[..i];
        FirstDifference(x, y, i);
      } else {
        var i := CharDifference(b[0], a[0]);
        assert x[..i] == Utf8Char(a[0])[..i] && y[..i] == Utf8Char(b[0])[..i];
        FirstDifference(y, x, i);
      }
    }
  }
}
