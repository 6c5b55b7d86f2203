/**
 * The values of a registry, with repetitions and in no particular order:
 * what `dict.values()` yields once the order of iteration is abstracted away.
 */
module MapValues {

  /** The multiset of the values of `m`: one copy per key. */
  ghost function ValuesOf(m: map<string, string>): multiset<string>
    decreases |m|
  {
    if |m| == 0 then multiset{}
    else
      var k :| k in m;
      multiset{m[k]} + ValuesOf(m - {k})
  }

  /** The keys that `m` maps to `v`. */
  function Preimage(m: map<string, string>, v: string): set<string> {
    set k | k in m && m[k] == v
  }

  /** Whichever key the definition picks first, any key can be taken out first. */
  lemma {:induction false} ValuesOfRemove(m: map<string, string>, k: string)
    requires k in m
    ensures ValuesOf(m) == ValuesOf(m - {k}) + multiset{m[k]}
    decreases |m|
  {
    var j :| j in m && ValuesOf(m) == multiset{m[j]} + ValuesOf(m - {j});
    if j != k {
      var rest := m - {j} - {k};
      assert m - {k} - {j} == rest;
      assert (m - {j})[k] == m[k];
      assert (m - {k})[j] == m[j];
      ValuesOfRemove(m - {j}, k);
      ValuesOfRemove(m - {k}, j);
      assert ValuesOf(m - {j}) == ValuesOf(rest) + multiset{m[k]};
      assert ValuesOf(m - {k}) == ValuesOf(rest) + multiset{m[j]};
    }
  }

  lemma PreimageSplit(m: map<string, string>, k: string, v: string)
    requires k in m
    ensures Preimage(m, v) == Preimage(m - {k}, v) + (if m[k] == v then {k} else {})
    ensures k !in Preimage(m - {k}, v)
  {
  }

  /** A value occurs in the multiset once for every key bound to it. */
  lemma {:induction false} ValuesOfCount(m: map<string, string>, v: string)
    ensures ValuesOf(m)[v] == |Preimage(m, v)|
    decreases |m|
  {
    if |m| == 0 {
      assert m == map[];
      assert Preimage(m, v) == {};
    } else {
      var k :| k in m;
      ValuesOfRemove(m, k);
      ValuesOfCount(m - {k}, v);
      PreimageSplit(m, k, v);
    }
  }

  /** There are exactly as many values as keys. */
  lemma {:induction false} ValuesOfSize(m: map<string, string>)
    ensures |ValuesOf(m)| == |m|
    decreases |m|
  {
    if |m| != 0 {
      var k :| k in m;
      ValuesOfRemove(m, k);
      ValuesOfSize(m - {k});
    }
  }

  /** The multiset holds exactly the values of the map. */
  lemma ValuesOfMembership(m: map<string, string>, v: string)
    ensures v in ValuesOf(m) <==> v in m.Values
  {
    ValuesOfCount(m, v);
    if v in m.Values {
      var k :| k in m && m[k] == v;
      assert k in Preimage(m, v);
    } else {
      assert Preimage(m, v) == {};
    }
  }

  /** Binding `k` to `v` trades the copy of the old value of `k`, if any, for one copy of `v`. */
  lemma ValuesOfUpdate(m: map<string, string>, k: string, v: string)
    ensures ValuesOf(m[k := v]) ==
      (if k in m then ValuesOf(m) - multiset{m[k]} else ValuesOf(m)) + multiset{v}
  {
    var rest := m - {k};
    ValuesOfRemove(m[k := v], k);
    assert m[k := v] - {k} == rest;
    assert ValuesOf(m[k := v]) == ValuesOf(rest) + multiset{v};
    if k in m {
      ValuesOfRemove(m, k);
      assert ValuesOf(m) - multiset{m[k]} == ValuesOf(rest);
    } else {
      assert rest == m;
    }
  }

  /** Removing `k` removes exactly one copy of its value. */
  lemma ValuesOfDelete(m: map<string, string>, k: string)
    requires k in m
    ensures ValuesOf(m - {k}) == ValuesOf(m) - multiset{m[k]}
  {
    ValuesOfRemove(m, k);
  }
}
