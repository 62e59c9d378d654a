/** A PHP array used as a dictionary: an insertion-ordered map in which
    writing to an existing key keeps that key's position. */
module PhpArray {
  import opened Types

  type OrderedMap<V> = seq<(string, V)>

  /** `array_keys`: the keys in insertion order. */
  function Keys<V>(m: OrderedMap<V>): (ks: seq<string>)
    ensures |ks| == |m|
  {
    if m == [] then [] else [m[0].0] + Keys(m[1..])
  }

  /** The key at each position is the key of the entry there. */
  lemma {:induction false} KeyAt<V>(m: OrderedMap<V>, i: nat)
    requires i < |m|
    ensures Keys(m)[i] == m[i].0
  {
    if i > 0 {
      KeyAt(m[1..], i - 1);
    }
  }

  /** A key carried by no entry is not among the keys. */
  lemma {:induction false} KeysAbsent<V>(m: OrderedMap<V>, k: string)
    requires forall i :: 0 <= i < |m| ==> m[i].0 != k
    ensures k !in Keys(m)
  {
    if m != [] {
      KeysAbsent(m[1..], k);
    }
  }

  /** What every PHP array satisfies: no key occurs twice. */
  ghost predicate UniqueKeys<V>(m: OrderedMap<V>)
  {
    forall i, j :: 0 <= i < j < |m| ==> m[i].0 != m[j].0
  }

  /** `array_key_exists($k, $m) ? $m[$k] : null`. */
  function Lookup<V(==)>(m: OrderedMap<V>, k: string): (r: Option<V>)
    ensures r.Some? <==> k in Keys(m)
    ensures r.Some? ==> (k, r.value) in m
  {
    if m == [] then None
    else if m[0].0 == k then Some(m[0].1)
    else
      assert Keys(m) == [m[0].0] + Keys(m[1..]);
      Lookup(m[1..], k)
  }

  /** `$m[$k] = $v`: overwrite in place when the key exists, append otherwise. */
  function Put<V(==)>(m: OrderedMap<V>, k: string, v: V): (r: OrderedMap<V>)
    ensures |r| == if k in Keys(m) then |m| else |m| + 1
  {
    if m == [] then [(k, v)]
    else
      assert Keys(m) == [m[0].0] + Keys(m[1..]);
      if m[0].0 == k then [(k, v)] + m[1..]
      else [m[0]] + Put(m[1..], k, v)
  }

  /** Writing an existing key keeps the key order; writing a new key appends. */
  lemma {:induction false} PutKeys<V>(m: OrderedMap<V>, k: string, v: V)
    ensures k in Keys(m) ==> Keys(Put(m, k, v)) == Keys(m)
    ensures k !in Keys(m) ==> Put(m, k, v) == m + [(k, v)]
  {
    if m == [] {
    } else if m[0].0 == k {
      assert Keys([(k, v)] + m[1..]) == Keys(m);
    } else {
      assert Keys(m) == [m[0].0] + Keys(m[1..]);
      var rest := Put(m[1..], k, v);
      PutKeys(m[1..], k, v);
      assert Keys([m[0]] + rest) == [m[0].0] + Keys(rest);
      assert m == [m[0]] + m[1..];
    }
  }

  /** `unset($m[$k])`. */
  function Remove<V(==)>(m: OrderedMap<V>, k: string): (r: OrderedMap<V>)
    ensures k !in Keys(r)
    ensures forall i :: 0 <= i < |r| ==> r[i] in m && r[i].0 != k
    ensures forall i :: 0 <= i < |m| && m[i].0 != k ==> m[i] in r
  {
    if m == [] then []
    else
      var rest := Remove(m[1..], k);
      assert Keys(m) == [m[0].0] + Keys(m[1..]);
      if m[0].0 == k then rest
      else
        assert Keys([m[0]] + rest) == [m[0].0] + Keys(rest);
        [m[0]] + rest
  }

  /** `unset` of a key the array lacks changes nothing. */
  lemma {:induction false} RemoveAbsent<V>(m: OrderedMap<V>, k: string)
    requires k !in Keys(m)
    ensures Remove(m, k) == m
  {
    if m != [] {
      assert Keys(m) == [m[0].0] + Keys(m[1..]);
      RemoveAbsent(m[1..], k);
      assert m == [m[0]] + m[1..];
    }
  }

  /** `unset` on one entry: it goes when it carries the key, otherwise it stays. */
  lemma RemoveSingle<V>(k': string, v: V, k: string)
    ensures Remove([(k', v)], k) == if k' == k then [] else [(k', v)]
  {
    assert [(k', v)][1..] == [];
  }

  /** `unset` on a non-empty array: the first entry goes or stays, then the rest. */
  lemma RemoveFirst<V>(m: OrderedMap<V>, k: string)
    requires m != []
    ensures Remove(m, k) == (if m[0].0 == k then [] else [m[0]]) + Remove(m[1..], k)
  {
    if m[0].0 == k {
      assert [] + Remove(m[1..], k) == Remove(m[1..], k);
    }
  }

  /** `unset` on `a + b` with `a` non-empty: the first entry of `a` goes or stays. */
  lemma RemoveFirstOfAppend<V>(a: OrderedMap<V>, b: OrderedMap<V>, k: string)
    requires a != []
    ensures Remove(a + b, k) == (if a[0].0 == k then [] else [a[0]]) + Remove(a[1..] + b, k)
  {
    assert (a + b)[0] == a[0] && (a + b)[1..] == a[1..] + b;
    RemoveFirst(a + b, k);
  }

  lemma AppendAssoc<V>(x: OrderedMap<V>, y: OrderedMap<V>, z: OrderedMap<V>)
    ensures x + (y + z) == (x + y) + z
  {
  }

  /** `unset` works entry by entry and keeps the order of what remains:
      together with `RemoveSingle` this fixes `Remove` as the ordered filter. */
  lemma {:induction false} RemoveAppend<V>(a: OrderedMap<V>, b: OrderedMap<V>, k: string)
    ensures Remove(a + b, k) == Remove(a, k) + Remove(b, k)
  {
    if a == [] {
      assert a + b == b;
    } else {
      var h: OrderedMap<V> := if a[0].0 == k then [] else [a[0]];
      RemoveFirstOfAppend(a, b, k);
      RemoveAppend(a[1..], b, k);
      RemoveFirst(a, k);
      AppendAssoc(h, Remove(a[1..], k), Remove(b, k));
    }
  }

  /** Reading back a written key gives the written value. */
  lemma {:induction false} LookupPutSame<V>(m: OrderedMap<V>, k: string, v: V)
    ensures Lookup(Put(m, k, v), k) == Some(v)
  {
    if m != [] && m[0].0 != k {
      LookupPutSame(m[1..], k, v);
    }
  }

  /** Writing one key leaves every other key's value alone. */
  lemma {:induction false} LookupPutOther<V>(m: OrderedMap<V>, k: string, v: V, k': string)
    requires k' != k
    ensures Lookup(Put(m, k, v), k') == Lookup(m, k')
  {
    if m != [] && m[0].0 != k {
      LookupPutOther(m[1..], k, v, k');
    }
  }

  /** Writing keeps the keys distinct. */
  lemma PutUnique<V>(m: OrderedMap<V>, k: string, v: V)
    requires UniqueKeys(m)
    ensures UniqueKeys(Put(m, k, v))
  {
    var r := Put(m, k, v);
    PutKeys(m, k, v);
    forall i, j | 0 <= i < j < |r| ensures r[i].0 != r[j].0 {
      KeyAt(r, i);
      KeyAt(r, j);
      if k in Keys(m) {
        KeyAt(m, i);
        KeyAt(m, j);
      } else if j < |m| {
        assert r[i] == m[i] && r[j] == m[j];
      } else {
        KeyAt(m, i);
        assert r[i] == m[i] && r[j] == (k, v);
      }
    }
  }

  /** In a map with distinct keys, a lookup finds the one entry with that key. */
  lemma {:induction false} LookupUnique<V>(m: OrderedMap<V>, k: string, v: V)
    requires UniqueKeys(m)
    requires (k, v) in m
    ensures Lookup(m, k) == Some(v)
  {
    if m[0] != (k, v) {
      assert UniqueKeys(m[1..]) by {
        forall i, j | 0 <= i < j < |m[1..]| ensures m[1..][i].0 != m[1..][j].0 {
          assert m[1..][i] == m[i + 1] && m[1..][j] == m[j + 1];
        }
      }
      var p :| 0 <= p < |m| && m[p] == (k, v);
      assert p > 0;
      assert m[0].0 != k;
      assert m[1..][p - 1] == (k, v);
      LookupUnique(m[1..], k, v);
    }
  }
}
