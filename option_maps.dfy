/**
 * The options mapping a caller passes last: a Ruby Hash, modelled as a
 * sequence of key/value pairs with unique keys, in insertion order, and
 * the alias resolution that moves a deprecated key's value to its
 * replacement key.
 */
module OptionMaps {
  import opened Wrappers

  /** An option name (a Ruby symbol, written without its leading colon). */
  type Key = string

  predicate UniqueKeys<V>(m: seq<(Key, V)>) {
    forall i, j :: 0 <= i < j < |m| ==> m[i].0 != m[j].0
  }

  type Mapping<V> = m: seq<(Key, V)> | UniqueKeys(m) witness []

  /** Hash#keys: the keys in insertion order. */
  function Keys<V>(m: seq<(Key, V)>): (ks: seq<Key>)
    ensures |ks| == |m| && forall i :: 0 <= i < |m| ==> ks[i] == m[i].0
  {
    if m == [] then [] else [m[0].0] + Keys(m[1..])
  }

  /** Hash#[]: the value stored under k, None when k is absent. */
  function Lookup<V>(m: Mapping<V>, k: Key): (r: Option<V>)
    ensures r.Some? <==> k in Keys(m)
    ensures r.Some? ==> (k, r.value) in m
  {
    if m == [] then None else if m[0].0 == k then Some(m[0].1) else Lookup(m[1..], k)
  }

  lemma ConsUnique<V>(p: (Key, V), rest: Mapping<V>)
    requires p.0 !in Keys(rest)
    ensures UniqueKeys([p] + rest)
  {
    var m := [p] + rest;
    forall i, j | 0 <= i < j < |m| ensures m[i].0 != m[j].0 {
      if i == 0 {
        assert m[j] == rest[j - 1];
        assert Keys(rest)[j - 1] == rest[j - 1].0;
      } else {
        assert m[i] == rest[i - 1] && m[j] == rest[j - 1];
      }
    }
  }

  /** The first key of a mapping does not occur again in the rest. */
  lemma HeadNotInTail<V>(m: Mapping<V>)
    requires |m| > 0
    ensures m[0].0 !in Keys(m[1..])
  {
    forall i | 0 <= i < |m| - 1 ensures Keys(m[1..])[i] != m[0].0 {
      assert m[1..][i] == m[i + 1];
    }
  }

  lemma LookupCons<V>(p: (Key, V), rest: Mapping<V>, j: Key)
    requires UniqueKeys([p] + rest)
    ensures Lookup([p] + rest, j) == if p.0 == j then Some(p.1) else Lookup(rest, j)
  {
    assert ([p] + rest)[1..] == rest;
  }

  /** Hash#delete: the mapping without k, every other entry in its place. */
  function Remove<V>(m: Mapping<V>, k: Key): (r: Mapping<V>)
    ensures forall j :: j in Keys(r) <==> j in Keys(m) && j != k
    ensures k !in Keys(m) ==> r == m
  {
    if m == [] then []
    else if m[0].0 == k then m[1..]
    else
      var rest := Remove(m[1..], k);
      HeadNotInTail(m);
      ConsUnique(m[0], rest);
      [m[0]] + rest
  }

  /** After Remove, k is absent and every other key has its old value. */
  lemma {:induction false} RemoveLookup<V>(m: Mapping<V>, k: Key, j: Key)
    ensures Lookup(Remove(m, k), j) == if j == k then None else Lookup(m, j)
    decreases |m|
  {
    if m != [] && m[0].0 != k {
      RemoveLookup(m[1..], k, j);
      assert Remove(m, k) == [m[0]] + Remove(m[1..], k);
      LookupCons(m[0], Remove(m[1..], k), j);
    }
  }

  /** Hash#[]=: an existing key keeps its place and takes the new value; a new key goes last. */
  function Put<V>(m: Mapping<V>, k: Key, v: V): (r: Mapping<V>)
    ensures forall j :: j in Keys(r) <==> j in Keys(m) || j == k
    ensures k !in Keys(m) ==> r == m + [(k, v)]
  {
    if m == [] then [(k, v)]
    else if m[0].0 == k then
      HeadNotInTail(m);
      ConsUnique((k, v), m[1..]);
      [(k, v)] + m[1..]
    else
      var rest := Put(m[1..], k, v);
      HeadNotInTail(m);
      ConsUnique(m[0], rest);
      assert k !in Keys(m) ==> [m[0]] + rest == m + [(k, v)] by {
        if k !in Keys(m) {
          assert k !in Keys(m[1..]);
          assert [m[0]] + (m[1..] + [(k, v)]) == m + [(k, v)];
        }
      }
      [m[0]] + rest
  }

  /** After Put, k holds v and every other key has its old value. */
  lemma {:induction false} PutLookup<V>(m: Mapping<V>, k: Key, v: V, j: Key)
    ensures Lookup(Put(m, k, v), j) == if j == k then Some(v) else Lookup(m, j)
    decreases |m|
  {
    if m != [] {
      if m[0].0 == k {
        LookupCons((k, v), m[1..], j);
      } else {
        PutLookup(m[1..], k, v, j);
        assert Put(m, k, v) == [m[0]] + Put(m[1..], k, v);
        LookupCons(m[0], Put(m[1..], k, v), j);
      }
    }
  }

  /** A deprecation rule as alias resolution sees it: (deprecated key, replacement key). */
  type Rule = (Key, Key)

  /**
   * One rule applied to the working options: when the deprecated key is
   * present its value moves to the replacement key (overwriting whatever
   * was there) and the deprecated key is deleted; when it is absent the
   * mapping is left alone, so an existing replacement value survives.
   */
  function Resolve<V>(m: Mapping<V>, rule: Rule): (r: Mapping<V>)
    ensures rule.0 !in Keys(m) ==> r == m
    ensures rule.0 in Keys(m) ==> Lookup(r, rule.1) == Lookup(m, rule.0)
    ensures rule.0 in Keys(m) && rule.0 != rule.1 ==> rule.0 !in Keys(r)
    ensures forall j :: j != rule.0 && j != rule.1 ==> Lookup(r, j) == Lookup(m, j)
  {
    match Lookup(m, rule.0)
    case None => m
    case Some(v) =>
      var r := Put(Remove(m, rule.0), rule.1, v);
      PutLookup(Remove(m, rule.0), rule.1, v, rule.1);
      assert forall j :: Lookup(r, j) == if j == rule.1 then Some(v) else Lookup(Remove(m, rule.0), j) by {
        forall j { PutLookup(Remove(m, rule.0), rule.1, v, j); }
      }
      assert forall j :: j != rule.0 ==> Lookup(Remove(m, rule.0), j) == Lookup(m, j) by {
        forall j { RemoveLookup(m, rule.0, j); }
      }
      r
  }

  /** Every rule applied in registration order. */
  function ResolveAll<V>(m: Mapping<V>, rules: seq<Rule>): Mapping<V>
    decreases |rules|
  {
    if rules == [] then m else ResolveAll(Resolve(m, rules[0]), rules[1..])
  }

  /** k is neither deprecated nor a replacement in any of the rules. */
  predicate Untouched(rules: seq<Rule>, k: Key) {
    forall i :: 0 <= i < |rules| ==> rules[i].0 != k && rules[i].1 != k
  }

  /** No key occurs twice among all the rules' deprecated and replacement keys. */
  predicate Independent(rules: seq<Rule>) {
    (forall i, j :: 0 <= i < |rules| && 0 <= j < |rules| ==> rules[i].0 != rules[j].1) &&
    (forall i, j :: 0 <= i < j < |rules| ==> rules[i].0 != rules[j].0 && rules[i].1 != rules[j].1)
  }

  /** Without chains, no later rule reintroduces the first rule's deprecated key, and the tail has no chains. */
  lemma NoChainsTail(rules: seq<Rule>)
    requires NoChains(rules) && |rules| > 0
    ensures NoChains(rules[1..])
    ensures forall j :: 0 <= j < |rules| - 1 ==> rules[1..][j].1 != rules[0].0
  {
    var rest := rules[1..];
    forall a, b | 0 <= a < |rest| && 0 <= b < |rest| ensures rest[a].1 != rest[b].0 {
      assert rest[a] == rules[a + 1] && rest[b] == rules[b + 1];
    }
    forall j | 0 <= j < |rest| ensures rest[j].1 != rules[0].0 {
      assert rest[j] == rules[j + 1];
    }
  }

  /** A rule leaves every key other than its own two as it was. */
  lemma ResolveElsewhere<V>(m: Mapping<V>, rule: Rule, k: Key)
    requires k != rule.0 && k != rule.1
    ensures Lookup(Resolve(m, rule), k) == Lookup(m, k)
    ensures k in Keys(Resolve(m, rule)) <==> k in Keys(m)
  {
  }

  /** Under independence the later rules touch neither key of the first. */
  lemma FirstRuleUntouched(rules: seq<Rule>)
    requires Independent(rules) && |rules| > 0
    ensures Untouched(rules[1..], rules[0].0) && Untouched(rules[1..], rules[0].1)
  {
    var rest := rules[1..];
    forall j | 0 <= j < |rest|
      ensures rest[j].0 != rules[0].0 && rest[j].1 != rules[0].1
      ensures rest[j].0 != rules[0].1 && rest[j].1 != rules[0].0
    {
      assert rest[j] == rules[j + 1];
    }
  }

  lemma IndependentTail(rules: seq<Rule>)
    requires Independent(rules) && |rules| > 0
    ensures Independent(rules[1..])
  {
    var rest := rules[1..];
    forall a, b | 0 <= a < |rest| && 0 <= b < |rest|
      ensures rest[a].0 != rest[b].1
    {
      assert rest[a] == rules[a + 1] && rest[b] == rules[b + 1];
    }
    forall a, b | 0 <= a < b < |rest|
      ensures rest[a].0 != rest[b].0 && rest[a].1 != rest[b].1
    {
      assert rest[a] == rules[a + 1] && rest[b] == rules[b + 1];
    }
  }

  /** No replacement key is itself deprecated by some rule. */
  predicate NoChains(rules: seq<Rule>) {
    forall i, j :: 0 <= i < |rules| && 0 <= j < |rules| ==> rules[i].1 != rules[j].0
  }

  /** Options no rule mentions come out of alias resolution as they went in. */
  lemma {:induction false} ResolveAllUntouched<V>(m: Mapping<V>, rules: seq<Rule>, k: Key)
    requires Untouched(rules, k)
    ensures Lookup(ResolveAll(m, rules), k) == Lookup(m, k)
    decreases |rules|
  {
    if rules != [] {
      ResolveAllUntouched(Resolve(m, rules[0]), rules[1..], k);
    }
  }

  /**
   * With independent rules, each rule acts as if it were alone: the
   * deprecated key is gone, and the replacement holds the deprecated key's
   * value when the caller supplied it, or the replacement's own value
   * (possibly none) when the caller did not.
   */
  lemma {:induction false} ResolveAllMoves<V>(m: Mapping<V>, rules: seq<Rule>, i: nat)
    requires Independent(rules) && i < |rules|
    ensures Lookup(ResolveAll(m, rules), rules[i].0) == None
    ensures Lookup(ResolveAll(m, rules), rules[i].1) ==
      if rules[i].0 in Keys(m) then Lookup(m, rules[i].0) else Lookup(m, rules[i].1)
    decreases |rules|
  {
    if i == 0 {
      FirstRuleMoves(m, rules);
    } else {
      var m' := Resolve(m, rules[0]);
      var rest := rules[1..];
      IndependentTail(rules);
      assert rest[i - 1] == rules[i];
      ResolveAllMoves(m', rest, i - 1);
      assert rules[i].0 != rules[0].0 && rules[i].0 != rules[0].1;
      assert rules[i].1 != rules[0].0 && rules[i].1 != rules[0].1;
      ResolveElsewhere(m, rules[0], rules[i].0);
      ResolveElsewhere(m, rules[0], rules[i].1);
    }
  }

  /** The first of independent rules moves its key, and the later rules leave the result alone. */
  lemma FirstRuleMoves<V>(m: Mapping<V>, rules: seq<Rule>)
    requires Independent(rules) && |rules| > 0
    ensures Lookup(ResolveAll(m, rules), rules[0].0) == None
    ensures Lookup(ResolveAll(m, rules), rules[0].1) ==
      if rules[0].0 in Keys(m) then Lookup(m, rules[0].0) else Lookup(m, rules[0].1)
  {
    var m' := Resolve(m, rules[0]);
    FirstRuleUntouched(rules);
    ResolveAllUntouched(m', rules[1..], rules[0].0);
    ResolveAllUntouched(m', rules[1..], rules[0].1);
  }

  /** A mapping in which no rule's deprecated key occurs is left as it is. */
  lemma {:induction false} ResolveAllNothingDeprecated<V>(m: Mapping<V>, rules: seq<Rule>)
    requires forall i :: 0 <= i < |rules| ==> rules[i].0 !in Keys(m)
    ensures ResolveAll(m, rules) == m
    decreases |rules|
  {
    if rules != [] {
      ResolveAllNothingDeprecated(m, rules[1..]);
    }
  }

  /** A key absent from the mapping that no rule introduces stays absent. */
  lemma {:induction false} ResolveAllKeepsAbsent<V>(m: Mapping<V>, rules: seq<Rule>, k: Key)
    requires k !in Keys(m)
    requires forall i :: 0 <= i < |rules| ==> rules[i].1 != k
    ensures k !in Keys(ResolveAll(m, rules))
    decreases |rules|
  {
    if rules != [] {
      var m' := Resolve(m, rules[0]);
      assert Lookup(m', k) == None;
      ResolveAllKeepsAbsent(m', rules[1..], k);
    }
  }

  /** Without chains every deprecated key is gone after alias resolution. */
  lemma {:induction false} ResolveAllClearsDeprecated<V>(m: Mapping<V>, rules: seq<Rule>, i: nat)
    requires NoChains(rules) && i < |rules|
    ensures rules[i].0 !in Keys(ResolveAll(m, rules))
    decreases |rules|
  {
    var m' := Resolve(m, rules[0]);
    var rest := rules[1..];
    NoChainsTail(rules);
    if i == 0 {
      assert rules[0].0 != rules[0].1;
      assert rules[0].0 !in Keys(m');
      ResolveAllKeepsAbsent(m', rest, rules[0].0);
    } else {
      assert rest[i - 1] == rules[i];
      ResolveAllClearsDeprecated(m', rest, i - 1);
    }
  }

  /**
   * Resolving again changes nothing, provided no replacement key is
   * itself deprecated (see ResolveAllNotIdempotent for what goes wrong
   * otherwise).
   */
  lemma ResolveAllIdempotent<V>(m: Mapping<V>, rules: seq<Rule>)
    requires NoChains(rules)
    ensures ResolveAll(ResolveAll(m, rules), rules) == ResolveAll(m, rules)
  {
    var once := ResolveAll(m, rules);
    forall i | 0 <= i < |rules| ensures rules[i].0 !in Keys(once) {
      ResolveAllClearsDeprecated(m, rules, i);
    }
    ResolveAllNothingDeprecated(once, rules);
  }

  /**
   * A chain registered backwards (b to c first, then a to b) needs two
   * passes: the first moves a to b, only the second moves b on to c.
   */
  lemma ResolveAllNotIdempotent()
    ensures var m: Mapping<int> := [("a", 1)];
            var rules := [("b", "c"), ("a", "b")];
            ResolveAll(m, rules) == [("b", 1)] &&
            ResolveAll(ResolveAll(m, rules), rules) == [("c", 1)]
  {
    BackwardsChainFirstPass();
    BackwardsChainSecondPass();
  }

  lemma BackwardsChainFirstPass()
    ensures ResolveAll([("a", 1)], [("b", "c"), ("a", "b")]) == [("b", 1)]
  {
    var m: Mapping<int> := [("a", 1)];
    var rules := [("b", "c"), ("a", "b")];
    assert Resolve(m, ("b", "c")) == m;
    var once: Mapping<int> := [("b", 1)];
    assert Resolve(m, ("a", "b")) == once;
    assert rules[1..] == [("a", "b")];
    assert ResolveAll(m, rules) == ResolveAll(m, rules[1..]);
  }

  lemma BackwardsChainSecondPass()
    ensures ResolveAll([("b", 1)], [("b", "c"), ("a", "b")]) == [("c", 1)]
  {
    var once: Mapping<int> := [("b", 1)];
    var rules := [("b", "c"), ("a", "b")];
    var twice: Mapping<int> := [("c", 1)];
    assert Lookup(once, "b") == Some(1);
    assert Remove(once, "b") == [];
    assert Put([], "c", 1) == twice;
    assert Resolve(once, ("b", "c")) == twice;
    assert Lookup(twice, "a") == None by {
      assert twice[1..] == [];
    }
    assert Resolve(twice, ("a", "b")) == twice;
    assert rules[1..] == [("a", "b")];
  }
}
