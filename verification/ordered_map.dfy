/** A Python `dict` with string keys, as the program uses it: an association
    list kept in insertion order. Assigning to a key that is already bound
    replaces its value where it stands; a new key goes to the end. Both the
    decoded JSON objects and the shaped result rows are values of this kind. */
module OrderedMap {
  import opened Wrappers

  type Entries<V> = seq<(string, V)>

  /** The keys, in order (what `d.keys()` iterates). */
  function Keys<V>(m: Entries<V>): (ks: seq<string>)
    ensures |ks| == |m|
    ensures forall i {:trigger ks[i]} :: 0 <= i < |m| ==> ks[i] == m[i].0
  {
    if |m| == 0 then [] else [m[0].0] + Keys(m[1..])
  }

  predicate Distinct(ks: seq<string>) {
    forall i, j :: 0 <= i < j < |ks| ==> ks[i] != ks[j]
  }

  /** Every key bound once, as in any real Python dict. */
  predicate DistinctKeys<V>(m: Entries<V>) {
    Distinct(Keys(m))
  }

  /** `d.get(k)`: the value of the first binding of `k`, or None when `k` is unbound. */
  function Lookup<V>(m: Entries<V>, k: string): (r: Option<V>)
    ensures r.None? <==> k !in Keys(m)
    ensures r.Some? ==> (k, r.value) in m
  {
    if |m| == 0 then None
    else if m[0].0 == k then Some(m[0].1)
    else Lookup(m[1..], k)
  }

  /** A key's first binding is the one `d.get` finds. */
  lemma {:induction false} LookupFirstBinding<V>(m: Entries<V>, i: nat, k: string)
    requires i < |m| && m[i].0 == k && k !in Keys(m[..i])
    ensures Lookup(m, k) == Some(m[i].1)
  {
    if i > 0 {
      assert m[0].0 == Keys(m[..i])[0];
      assert m[1..][..i - 1] == m[1..i];
      assert Keys(m[..i]) == [m[0].0] + Keys(m[1..i]);
      LookupFirstBinding(m[1..], i - 1, k);
    }
  }

  /** In a map whose keys are distinct, every binding is the one `d.get` finds. */
  lemma {:induction false} LookupDistinct<V>(m: Entries<V>, i: nat)
    requires DistinctKeys(m) && i < |m|
    ensures Lookup(m, m[i].0) == Some(m[i].1)
  {
    var pre := Keys(m[..i]);
    assert Keys(m)[i] == m[i].0;
    assert forall j :: 0 <= j < |pre| ==> pre[j] == Keys(m)[j] && Keys(m)[j] != Keys(m)[i];
    LookupFirstBinding(m, i, m[i].0);
  }

  /** `d[k] = v`. */
  function Assign<V>(m: Entries<V>, k: string, v: V): Entries<V> {
    if |m| == 0 then [(k, v)]
    else if m[0].0 == k then [(k, v)] + m[1..]
    else [m[0]] + Assign(m[1..], k, v)
  }

  /** After `d[k] = v`, `k` holds `v` and every other key keeps its value. */
  lemma {:induction false} AssignLookup<V>(m: Entries<V>, k: string, v: V, key: string)
    ensures Lookup(Assign(m, k, v), key) == if key == k then Some(v) else Lookup(m, key)
    decreases |m|
  {
    if |m| > 0 && m[0].0 != k {
      AssignLookup(m[1..], k, v, key);
      assert Assign(m, k, v)[1..] == Assign(m[1..], k, v);
    }
  }

  /** `d[k] = v` keeps an existing key where it stands and appends a new one. */
  lemma {:induction false} AssignKeys<V>(m: Entries<V>, k: string, v: V)
    ensures Keys(Assign(m, k, v)) == if k in Keys(m) then Keys(m) else Keys(m) + [k]
    decreases |m|
  {
    if |m| == 0 {
    } else if m[0].0 == k {
      assert Keys(Assign(m, k, v)) == [k] + Keys(m[1..]);
    } else {
      AssignKeys(m[1..], k, v);
      var rest := Assign(m[1..], k, v);
      assert Assign(m, k, v) == [m[0]] + rest;
      assert Keys(Assign(m, k, v)) == [m[0].0] + Keys(rest);
      assert Keys(m) == [m[0].0] + Keys(m[1..]);
      assert k in Keys(m) <==> k in Keys(m[1..]);
    }
  }

  /** The bindings `ws` assigned one after another, in order, starting from `m`. */
  function AssignAll<V>(m: Entries<V>, ws: Entries<V>): (r: Entries<V>)
    decreases |ws|
  {
    if |ws| == 0 then m
    else Assign(AssignAll(m, ws[..|ws| - 1]), ws[|ws| - 1].0, ws[|ws| - 1].1)
  }

  /** Reference definition: the value of the last binding of `k` in `ws`. */
  function LastWrite<V>(ws: Entries<V>, k: string): Option<V> {
    if |ws| == 0 then None
    else if ws[|ws| - 1].0 == k then Some(ws[|ws| - 1].1)
    else LastWrite(ws[..|ws| - 1], k)
  }

  /** Reference definition: `ks` without repeats, each key where it first occurs. */
  function Dedup(ks: seq<string>): (r: seq<string>)
    ensures Distinct(r)
    ensures forall k :: k in r <==> k in ks
  {
    if |ks| == 0 then []
    else
      var d := Dedup(ks[..|ks| - 1]);
      assert forall k :: k in ks <==> k in ks[..|ks| - 1] || k == ks[|ks| - 1];
      if ks[|ks| - 1] in d then d else d + [ks[|ks| - 1]]
  }

  /** Assigning `a` and then `b` is assigning `a + b`. */
  lemma {:induction false} AssignAllAppend<V>(m: Entries<V>, a: Entries<V>, b: Entries<V>)
    ensures AssignAll(m, a + b) == AssignAll(AssignAll(m, a), b)
    decreases |b|
  {
    if |b| == 0 {
      assert a + b == a;
    } else {
      var ab := a + b;
      assert ab[..|ab| - 1] == a + b[..|b| - 1];
      assert ab[|ab| - 1] == b[|b| - 1];
      AssignAllAppend(m, a, b[..|b| - 1]);
    }
  }

  /** Last write wins: after the assignments, a key holds the value of its last
      binding in `ws`, and a key `ws` never binds keeps its old value. */
  lemma {:induction false} AssignAllLookup<V>(m: Entries<V>, ws: Entries<V>, k: string)
    ensures Lookup(AssignAll(m, ws), k) == if LastWrite(ws, k).Some? then LastWrite(ws, k) else Lookup(m, k)
    decreases |ws|
  {
    if |ws| > 0 {
      var init, w := ws[..|ws| - 1], ws[|ws| - 1];
      AssignAllLookup(m, init, k);
      AssignLookup(AssignAll(m, init), w.0, w.1, k);
    }
  }

  lemma KeysAppend<V>(a: Entries<V>, b: Entries<V>)
    ensures Keys(a + b) == Keys(a) + Keys(b)
  {
    assert forall i :: 0 <= i < |a + b| ==> Keys(a + b)[i] == (Keys(a) + Keys(b))[i];
  }

  lemma {:induction false} DedupOfDistinct(ks: seq<string>)
    requires Distinct(ks)
    ensures Dedup(ks) == ks
  {
    if |ks| > 0 {
      var init := ks[..|ks| - 1];
      DedupOfDistinct(init);
      assert ks[|ks| - 1] !in init;
      assert init + [ks[|ks| - 1]] == ks;
    }
  }

  /** The resulting keys are the old keys followed by the newly assigned ones,
      each placed at its first assignment. */
  lemma {:induction false} AssignAllKeys<V>(m: Entries<V>, ws: Entries<V>)
    requires DistinctKeys(m)
    ensures Keys(AssignAll(m, ws)) == Dedup(Keys(m) + Keys(ws))
    decreases |ws|
  {
    if |ws| == 0 {
      assert Keys(m) + Keys(ws) == Keys(m);
      DedupOfDistinct(Keys(m));
    } else {
      var init, w := ws[..|ws| - 1], ws[|ws| - 1];
      AssignAllKeys(m, init);
      assert ws == init + [w];
      AssignAllKeysSnoc(m, init, w);
    }
  }

  /** One step of the induction above: assigning one more binding. */
  lemma AssignAllKeysSnoc<V>(m: Entries<V>, init: Entries<V>, w: (string, V))
    requires Keys(AssignAll(m, init)) == Dedup(Keys(m) + Keys(init))
    ensures Keys(AssignAll(m, init + [w])) == Dedup(Keys(m) + Keys(init + [w]))
  {
    var a := AssignAll(m, init);
    var before := Keys(m) + Keys(init);
    assert AssignAll(m, init + [w]) == Assign(a, w.0, w.1) by {
      assert (init + [w])[..|init|] == init;
    }
    AssignKeys(a, w.0, w.1);
    KeysSnoc(Keys(m), init, w);
    DedupSnoc(before, w.0);
  }

  lemma KeysSnoc<V>(pre: seq<string>, init: Entries<V>, w: (string, V))
    ensures pre + Keys(init + [w]) == pre + Keys(init) + [w.0]
  {
    KeysAppend(init, [w]);
    assert Keys([w]) == [w.0];
  }

  lemma DedupSnoc(ks: seq<string>, k: string)
    ensures Dedup(ks + [k]) == if k in Dedup(ks) then Dedup(ks) else Dedup(ks) + [k]
  {
    assert (ks + [k])[..|ks|] == ks;
  }

  /** The first key is kept first. */
  lemma {:induction false} DedupHead(ks: seq<string>)
    requires |ks| > 0
    ensures |Dedup(ks)| > 0 && Dedup(ks)[0] == ks[0]
  {
    if |ks| > 1 {
      var init := ks[..|ks| - 1];
      DedupHead(init);
    } else {
      assert ks[..0] == [];
    }
  }
}
