/**
 * String-keyed collections that remember insertion order, as JavaScript objects and `Map`s do:
 * `Object.entries` and `Map.prototype.values` visit keys in the order they were first set, and
 * setting an existing key replaces its value without moving it.
 */
module OrderedMaps {

  datatype OrderedMap<V> = OrderedMap(order: seq<string>, entries: map<string, V>)

  function Empty<V>(): (m: OrderedMap<V>)
    ensures WellFormed(m) && m.entries == map[]
  {
    OrderedMap([], map[])
  }

  /** Each key is listed once, and the listed keys are exactly the keys that have a value. */
  ghost predicate WellFormed<V>(m: OrderedMap<V>) {
    && (forall i, j :: 0 <= i < j < |m.order| ==> m.order[i] != m.order[j])
    && (forall k :: k in m.entries <==> k in m.order)
  }

  /** The weaker fact every traversal needs: each listed key has a value. */
  predicate Listed<V>(m: OrderedMap<V>) {
    forall k :: k in m.order ==> k in m.entries
  }

  function KeySet(keys: seq<string>): set<string> {
    set k | k in keys
  }

  /** `m[key] = v` / `m.set(key, v)`: an existing key keeps its place, a new key goes last. */
  function Put<V>(m: OrderedMap<V>, key: string, v: V): OrderedMap<V> {
    if key in m.entries then OrderedMap(m.order, m.entries[key := v])
    else OrderedMap(m.order + [key], m.entries[key := v])
  }

  lemma PutSpec<V>(m: OrderedMap<V>, key: string, v: V)
    requires WellFormed(m)
    ensures WellFormed(Put(m, key, v))
    ensures Put(m, key, v).entries == m.entries[key := v]
    ensures |m.order| <= |Put(m, key, v).order| && Put(m, key, v).order[..|m.order|] == m.order
    ensures key in m.entries ==> Put(m, key, v).order == m.order
  {
  }

  /** The values in key order (`[...m.values()]`). */
  function ValuesInOrder<V>(m: OrderedMap<V>): (vs: seq<V>)
    requires Listed(m)
    ensures |vs| == |m.order| && forall i :: 0 <= i < |vs| ==> vs[i] == m.entries[m.order[i]]
    decreases |m.order|
  {
    if m.order == [] then []
    else [m.entries[m.order[0]]] + ValuesInOrder(OrderedMap(m.order[1..], m.entries))
  }

  /** `{...base, ...over}`: every entry of `over`, in its order, is put on a copy of `base`. */
  function Spread<V>(base: OrderedMap<V>, over: OrderedMap<V>): OrderedMap<V>
    requires Listed(over)
    decreases |over.order|
  {
    if over.order == [] then base
    else
      var key := over.order[|over.order| - 1];
      var rest := OrderedMap(over.order[..|over.order| - 1], over.entries);
      Put(Spread(base, rest), key, over.entries[key])
  }

  /**
   * Spreading keeps a well-formed object well formed; the keys of `base` stay first, in their
   * own order.
   */
  lemma {:induction false} SpreadShape<V>(base: OrderedMap<V>, over: OrderedMap<V>)
    requires WellFormed(base) && Listed(over)
    ensures WellFormed(Spread(base, over))
    ensures |base.order| <= |Spread(base, over).order| && Spread(base, over).order[..|base.order|] == base.order
    decreases |over.order|
  {
    if over.order != [] {
      var n := |over.order| - 1;
      var key := over.order[n];
      var rest := OrderedMap(over.order[..n], over.entries);
      SpreadShape(base, rest);
      var prev := Spread(base, rest);
      PutSpec(prev, key, over.entries[key]);
      assert Spread(base, over) == Put(prev, key, over.entries[key]);
    }
  }

  /** Spreading keeps the keys of both sides and adds no other. */
  lemma {:induction false} SpreadKeys<V>(base: OrderedMap<V>, over: OrderedMap<V>)
    requires Listed(over)
    ensures Spread(base, over).entries.Keys == base.entries.Keys + KeySet(over.order)
    decreases |over.order|
  {
    if over.order != [] {
      var n := |over.order| - 1;
      var key := over.order[n];
      var rest := OrderedMap(over.order[..n], over.entries);
      assert over.order == rest.order + [key];
      SpreadKeys(base, rest);
      assert Spread(base, over).entries == Spread(base, rest).entries[key := over.entries[key]];
      assert KeySet(over.order) == KeySet(rest.order) + {key};
    }
  }

  /** After spreading, a key of `over` holds `over`'s value and any other key keeps `base`'s. */
  lemma {:induction false} SpreadEntries<V>(base: OrderedMap<V>, over: OrderedMap<V>)
    requires Listed(over)
    ensures forall k :: k in over.order ==> k in Spread(base, over).entries && Spread(base, over).entries[k] == over.entries[k]
    ensures forall k :: k in base.entries && k !in over.order ==> k in Spread(base, over).entries && Spread(base, over).entries[k] == base.entries[k]
    decreases |over.order|
  {
    if over.order != [] {
      var n := |over.order| - 1;
      var key := over.order[n];
      var rest := OrderedMap(over.order[..n], over.entries);
      SpreadEntries(base, rest);
      var r := Spread(base, over);
      assert r.entries == Spread(base, rest).entries[key := over.entries[key]];
      assert over.order == over.order[..n] + [key];
      forall k | k in over.order ensures k in r.entries && r.entries[k] == over.entries[k] {
        if k != key {
          assert k in over.order[..n];
        }
      }
    }
  }
}
