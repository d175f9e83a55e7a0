/** A Python `dict`: a map that remembers the order in which keys were first
    inserted. Re-assigning an existing key replaces its value in place. */
module OrderedMaps {

  datatype OrderedMap<V> = OrderedMap(keys: seq<string>, values: map<string, V>) {

    /** Keys are listed once each, and exactly the keys of the map are listed. */
    ghost predicate Valid() {
      && (forall i, j :: 0 <= i < j < |keys| ==> keys[i] != keys[j])
      && (forall k :: k in values <==> k in keys)
    }

    /** `self[k] = v` */
    function Put(k: string, v: V): (m: OrderedMap<V>)
      ensures Valid() ==> m.Valid()
      ensures k in m.values && m.values[k] == v
      ensures forall k' :: k' != k && k' in values ==> k' in m.values && m.values[k'] == values[k']
      ensures m.values.Keys == values.Keys + {k}
      ensures k in values ==> m.keys == keys
      ensures k !in values ==> m.keys == keys + [k]
    {
      if k in values then OrderedMap(keys, values[k := v])
      else OrderedMap(keys + [k], values[k := v])
    }

    /** `list(self.values())`, in insertion order. */
    function Values(): (vs: seq<V>)
      requires Valid()
      ensures |vs| == |keys|
      ensures forall i :: 0 <= i < |keys| ==> vs[i] == values[keys[i]]
    {
      seq(|keys|, i requires 0 <= i < |keys| => values[keys[i]])
    }
  }

  function Empty<V>(): (m: OrderedMap<V>)
    ensures m.Valid() && m.keys == [] && m.values == map[]
  {
    OrderedMap([], map[])
  }

  /** The map after assigning every entry of `entries`, first to last. */
  function PutAll<V>(m: OrderedMap<V>, entries: seq<(string, V)>): (r: OrderedMap<V>)
    decreases |entries|
  {
    if entries == [] then m
    else
      var last := entries[|entries| - 1];
      PutAll(m, entries[..|entries| - 1]).Put(last.0, last.1)
  }

  /** Assignments keep a map well formed. */
  lemma {:induction false} PutAllValid<V>(m: OrderedMap<V>, entries: seq<(string, V)>)
    requires m.Valid()
    ensures PutAll(m, entries).Valid()
    decreases |entries|
  {
    if entries != [] {
      PutAllValid(m, entries[..|entries| - 1]);
    }
  }

  /** Assigning one more entry is one more `Put`. */
  lemma PutAllSnoc<V>(m: OrderedMap<V>, entries: seq<(string, V)>, k: string, v: V)
    ensures PutAll(m, entries + [(k, v)]) == PutAll(m, entries).Put(k, v)
  {
    assert (entries + [(k, v)])[..|entries|] == entries;
  }

  /** The keys that `entries` assigns, in order. */
  function KeysOf<V>(entries: seq<(string, V)>): (ks: seq<string>)
    ensures |ks| == |entries|
    ensures forall i :: 0 <= i < |entries| ==> ks[i] == entries[i].0
    decreases |entries|
  {
    if entries == [] then []
    else
      var init := entries[..|entries| - 1];
      assert forall i :: 0 <= i < |init| ==> init[i] == entries[i];
      KeysOf(init) + [entries[|entries| - 1].0]
  }

  /** A key is present afterwards exactly when it was present before or was assigned. */
  lemma {:induction false} PutAllKeys<V>(m: OrderedMap<V>, entries: seq<(string, V)>)
    requires m.Valid()
    ensures forall k :: k in PutAll(m, entries).values <==> k in m.values || k in KeysOf(entries)
    decreases |entries|
  {
    if entries != [] {
      var init := entries[..|entries| - 1];
      PutAllKeys(m, init);
    }
  }

  /** A key holds the value of the LAST entry that assigned it. */
  lemma {:induction false} PutAllLast<V>(m: OrderedMap<V>, entries: seq<(string, V)>, i: nat)
    requires m.Valid()
    requires i < |entries|
    requires forall j :: i < j < |entries| ==> entries[j].0 != entries[i].0
    ensures entries[i].0 in PutAll(m, entries).values
    ensures PutAll(m, entries).values[entries[i].0] == entries[i].1
    decreases |entries|
  {
    var init := entries[..|entries| - 1];
    if i < |init| {
      assert init[i] == entries[i];
      forall j | i < j < |init| ensures init[j].0 != init[i].0 {
        assert init[j] == entries[j];
      }
      PutAllLast(m, init, i);
    }
  }

  /** Keys that no entry assigns keep their old value. */
  lemma {:induction false} PutAllUntouched<V>(m: OrderedMap<V>, entries: seq<(string, V)>, k: string)
    requires m.Valid()
    requires k in m.values
    requires k !in KeysOf(entries)
    ensures k in PutAll(m, entries).values
    ensures PutAll(m, entries).values[k] == m.values[k]
    decreases |entries|
  {
    if entries != [] {
      var init := entries[..|entries| - 1];
      PutAllUntouched(m, init, k);
    }
  }

  /** Assigning pairwise distinct new keys appends them, in order. */
  lemma {:induction false} PutAllFreshKeys<V>(m: OrderedMap<V>, entries: seq<(string, V)>)
    requires m.Valid()
    requires forall i :: 0 <= i < |entries| ==> entries[i].0 !in m.values
    requires forall i, j :: 0 <= i < j < |entries| ==> entries[i].0 != entries[j].0
    ensures PutAll(m, entries).keys == m.keys + KeysOf(entries)
    decreases |entries|
  {
    if entries != [] {
      var init := entries[..|entries| - 1];
      var last := entries[|entries| - 1];
      PutAllFreshKeys(m, init);
      PutAllKeys(m, init);
      assert last.0 !in KeysOf(init) by {
        forall i | 0 <= i < |init| ensures KeysOf(init)[i] != last.0 {
          assert init[i] == entries[i];
        }
      }
      assert last.0 !in PutAll(m, init).values;
    }
  }
}
