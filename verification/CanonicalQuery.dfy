/** buildCanonicalQueryString decides equality of queries, whatever the order of their parameters. */
module CanonicalQuery {
  import opened QueryString

  type Values = map<Bytes, seq<Bytes>>

  // ---- Specification ----

  /** The pairs of a multiset in order. */
  ghost function Arranged(pairs: multiset<Pair>): (r: seq<Pair>)
    ensures Sorted(PairAtMost, r) && multiset(r) == pairs
  {
    if pairs == multiset{} then []
    else
      var p :| p in pairs;
      var rest := Arranged(pairs - multiset{p});
      OrdersAreTotal();
      InsertSorts(PairAtMost, p, rest);
      InsertElements(PairAtMost, p, rest);
      Insert(PairAtMost, p, rest)
  }

  ghost function Canonical(pairs: multiset<Pair>): Bytes
  {
    Joined(Arranged(pairs))
  }

  /** The canonical string names the multiset of pairs: equal strings mean equal pairs. */
  lemma CanonicalDecidesEquality(p: multiset<Pair>, q: multiset<Pair>)
    ensures Canonical(p) == Canonical(q) <==> p == q
  {
    if Canonical(p) == Canonical(q) {
      JoinedInjective(Arranged(p), Arranged(q));
    }
  }

  // ---- The query as a map of values ----

  /** url.Values, filled in the order of the raw query. */
  function Grouped(query: seq<Pair>): Values
  {
    if query == [] then map[]
    else
      var before := Grouped(query[..|query| - 1]);
      var p := query[|query| - 1];
      before[p.name := (if p.name in before then before[p.name] else []) + [p.value]]
  }

  /** The pairs that count. */
  function Kept(query: seq<Pair>, exclude: set<Bytes>): seq<Pair>
  {
    if query == [] then []
    else
      var p := query[|query| - 1];
      Kept(query[..|query| - 1], exclude) + if p.name in exclude then [] else [p]
  }

  /** A pair counts as often as the query has it, unless its name is excluded. */
  lemma {:induction false} KeptMeaning(query: seq<Pair>, exclude: set<Bytes>, p: Pair)
    ensures multiset(Kept(query, exclude))[p] == if p.name in exclude then 0 else multiset(query)[p]
  {
    if query == [] {
    } else {
      var init := query[..|query| - 1];
      KeptMeaning(init, exclude, p);
      assert query == init + [query[|query| - 1]];
    }
  }

  function Occurrences(values: Values, exclude: set<Bytes>, p: Pair): nat
  {
    if p.name in values && p.name !in exclude then multiset(values[p.name])[p.value] else 0
  }

  lemma {:induction false} GroupingKeepsPairs(query: seq<Pair>, exclude: set<Bytes>, p: Pair)
    ensures multiset(Kept(query, exclude))[p] == Occurrences(Grouped(query), exclude, p)
  {
    if query == [] {
    } else {
      GroupingKeepsPairs(query[..|query| - 1], exclude, p);
    }
  }

  // ---- The string built key by key ----

  function WithName(name: Bytes, values: seq<Bytes>): seq<Pair>
  {
    seq(|values|, i requires 0 <= i < |values| => Pair(name, values[i]))
  }

  /** The pairs in the order of the two loops. */
  function Listed(values: Values, keys: seq<Bytes>): seq<Pair>
    requires forall k :: k in keys ==> k in values
  {
    if keys == [] then []
    else
      var k := keys[|keys| - 1];
      Listed(values, keys[..|keys| - 1]) + WithName(k, Sort(AtMost, values[k]))
  }

  lemma {:induction false} WithNameCounts(name: Bytes, values: seq<Bytes>, p: Pair)
    ensures multiset(WithName(name, values))[p] == if p.name == name then multiset(values)[p.value] else 0
  {
    if values == [] {
    } else {
      var before := values[..|values| - 1];
      WithNameCounts(name, before, p);
      assert values == before + [values[|values| - 1]];
      assert WithName(name, values) == WithName(name, before) + [Pair(name, values[|values| - 1])];
    }
  }

  lemma {:induction false} ListedCounts(values: Values, keys: seq<Bytes>, p: Pair)
    requires forall k :: k in keys ==> k in values
    requires multiset(keys)[p.name] <= 1
    ensures multiset(Listed(values, keys))[p] == if p.name in keys then multiset(values[p.name])[p.value] else 0
  {
    if keys == [] {
    } else {
      var before, k := keys[..|keys| - 1], keys[|keys| - 1];
      assert keys == before + [k];
      ListedCounts(values, before, p);
      OrdersAreTotal();
      SortSorts(AtMost, values[k]);
      WithNameCounts(k, Sort(AtMost, values[k]), p);
      assert p.name in before ==> multiset(before)[p.name] >= 1;
    }
  }

  lemma {:induction false} ListedNames(values: Values, keys: seq<Bytes>)
    requires forall k :: k in keys ==> k in values
    ensures forall p :: p in Listed(values, keys) ==> p.name in keys
  {
    if keys == [] {
    } else {
      ListedNames(values, keys[..|keys| - 1]);
    }
  }

  lemma {:induction false} ListedSorted(values: Values, keys: seq<Bytes>)
    requires forall k :: k in keys ==> k in values
    requires Sorted(AtMost, keys) && forall k :: k in keys ==> multiset(keys)[k] == 1
    ensures Sorted(PairAtMost, Listed(values, keys))
  {
    if keys == [] {
    } else {
      var before, k := keys[..|keys| - 1], keys[|keys| - 1];
      assert keys == before + [k];
      assert multiset(keys) == multiset(before) + multiset{k} && multiset(keys)[k] == 1;
      assert multiset(before)[k] == 0;
      forall x | x in before ensures multiset(before)[x] == 1 {
        assert multiset(keys)[x] == 1;
      }
      ListedSorted(values, before);
      ListedNames(values, before);
      OrdersAreTotal();
      SortSorts(AtMost, values[k]);
      AppendSorted(Listed(values, before), before, k, Sort(AtMost, values[k]));
    }
  }

  lemma AppendSorted(pairs: seq<Pair>, keys: seq<Bytes>, k: Bytes, values: seq<Bytes>)
    requires Sorted(PairAtMost, pairs) && forall p :: p in pairs ==> p.name in keys
    requires Sorted(AtMost, keys + [k]) && k !in keys && Sorted(AtMost, values)
    ensures Sorted(PairAtMost, pairs + WithName(k, values))
  {
    forall p | p in pairs ensures p.name != k && AtMost(p.name, k) {
      var i :| 0 <= i < |keys| && keys[i] == p.name;
      assert AtMost((keys + [k])[i], (keys + [k])[|keys|]);
    }
  }

  /** Any way of listing the keys once and in order gives the canonical string of the pairs that count. */
  lemma ListedIsArranged(query: seq<Pair>, exclude: set<Bytes>, keys: seq<Bytes>)
    requires multiset(keys) == multiset(Grouped(query).Keys - exclude) && Sorted(AtMost, keys)
    ensures forall k :: k in keys ==> k in Grouped(query)
    ensures Listed(Grouped(query), keys) == Arranged(multiset(Kept(query, exclude)))
  {
    var values := Grouped(query);
    var wanted := values.Keys - exclude;
    forall k ensures (k in keys <==> k in wanted) && multiset(keys)[k] <= 1 {
      assert k in keys <==> k in multiset(keys);
    }
    forall p: Pair ensures multiset(Listed(values, keys))[p] == multiset(Kept(query, exclude))[p] {
      ListedCounts(values, keys, p);
      GroupingKeepsPairs(query, exclude, p);
    }
    assert multiset(Listed(values, keys)) == multiset(Kept(query, exclude));
    ListedSorted(values, keys);
    OrdersAreTotal();
    SortedUnique(PairAtMost, Listed(values, keys), Arranged(multiset(Kept(query, exclude))));
  }

  /** The result depends on the multiset of pairs only. An absent set of exclusions is an empty one. */
  method BuildCanonicalQueryString(query: seq<Pair>, exclude: set<Bytes>) returns (r: Bytes)
    ensures r == Canonical(multiset(Kept(query, exclude)))
  {
    var values := Grouped(query);
    var keys := SortedKeys(values, exclude);
    ListedIsArranged(query, exclude, keys);
    var parts: seq<Bytes> := [];
    for i := 0 to |keys|
      invariant parts == Parts(Listed(values, keys[..i]))
    {
      ListedNext(values, keys, i);
      parts := AppendParts(parts, Listed(values, keys[..i]), keys[i], Sort(AtMost, values[keys[i]]));
    }
    assert keys[..|keys|] == keys;
    JoinParts(Listed(values, keys));
    return Join(parts);
  }

  lemma ListedNext(values: Values, keys: seq<Bytes>, i: nat)
    requires i < |keys| && forall k :: k in keys ==> k in values
    ensures Listed(values, keys[..i + 1]) == Listed(values, keys[..i]) + WithName(keys[i], Sort(AtMost, values[keys[i]]))
  {
    assert keys[..i + 1][..i] == keys[..i];
  }

  method SortedKeys(values: Values, exclude: set<Bytes>) returns (keys: seq<Bytes>)
    ensures multiset(keys) == multiset(values.Keys - exclude) && Sorted(AtMost, keys)
  {
    keys := CollectKeys(values, exclude);
    OrdersAreTotal();
    SortSorts(AtMost, keys);
    keys := Sort(AtMost, keys);
  }

  /** The map is walked in any order. */
  method CollectKeys(values: Values, exclude: set<Bytes>) returns (keys: seq<Bytes>)
    ensures multiset(keys) == multiset(values.Keys - exclude)
  {
    keys := [];
    var rest := values.Keys;
    while rest != {}
      invariant rest <= values.Keys
      invariant multiset(keys) == multiset(values.Keys - rest - exclude)
      decreases rest
    {
      var k :| k in rest;
      if k !in exclude {
        assert values.Keys - (rest - {k}) - exclude == values.Keys - rest - exclude + {k};
        keys := keys + [k];
      } else {
        assert values.Keys - (rest - {k}) - exclude == values.Keys - rest - exclude;
      }
      rest := rest - {k};
    }
    assert values.Keys - rest - exclude == values.Keys - exclude;
  }

  /** The inner loop: one part per value of a name. */
  method AppendParts(before: seq<Bytes>, ghost pairs: seq<Pair>, k: Bytes, vals: seq<Bytes>) returns (parts: seq<Bytes>)
    requires before == Parts(pairs)
    ensures parts == Parts(pairs + WithName(k, vals))
  {
    parts := before;
    for j := 0 to |vals|
      invariant parts == Parts(pairs + WithName(k, vals[..j]))
    {
      var name := UriEncode(k);
      var value := UriEncode(vals[j]);
      assert WithName(k, vals[..j + 1]) == WithName(k, vals[..j]) + [Pair(k, vals[j])];
      parts := parts + [name + [EQUALS] + value];
    }
    assert vals[..|vals|] == vals;
  }
}
