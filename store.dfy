/** The key/value store the server keeps three of (`./db`, not part of this
    model). It is modelled as an ordered store: `keys` lists the keys in the
    store's order and `vals` holds the entries. Expiry and size-bound
    eviction are not modelled here: they reach the server as external
    eviction events (module Swarm). Recency is not modelled either, so `get`
    and `peek` read the same thing. */
module Store {
  import opened Common

  /** The constructor parameter every store is built with. */
  datatype DbParam = DbParam(max: nat, maxAge: Value)

  datatype Db<V> = Db(keys: seq<string>, vals: map<string, V>, param: DbParam) {

    /** The keys list every entry once and nothing else. */
    ghost predicate Valid() {
      && Distinct(keys)
      && (forall k :: k in vals <==> k in keys)
    }

    /** `db.length`: the number of entries. */
    function Length(): (n: nat)
      requires Valid()
      ensures n == |vals|
    {
      DistinctCardinality(keys);
      assert vals.Keys == set k | k in keys;
      |keys|
    }

    /** `db.get(k)` and `db.peek(k)`. */
    function Get(k: string): (o: Option<V>)
      requires Valid()
      ensures o.Some? <==> k in keys
      ensures o.Some? ==> o.value == vals[k]
    {
      if k in vals then Some(vals[k]) else None
    }

    /** `db.set(k, v)`: a new key joins the end of the order, an existing key
        keeps its place and gets the new value. */
    function Set(k: string, v: V): (r: Db<V>)
      requires Valid()
      ensures r.Valid() && r.param == param
      ensures r.vals == vals[k := v]
      ensures k in vals ==> r.keys == keys
      ensures k !in vals ==> r.keys == keys + [k]
    {
      if k in vals then Db(keys, vals[k := v], param)
      else
        var ks := keys + [k];
        assert Distinct(ks) by {
          forall i, j | 0 <= i < j < |ks| ensures ks[i] != ks[j] {
            if j == |keys| { assert ks[i] == keys[i] && keys[i] in keys; }
          }
        }
        Db(ks, vals[k := v], param)
    }

    /** `db.remove(k)`: removing an absent key changes nothing. */
    function Remove(k: string): (r: Db<V>)
      requires Valid()
      ensures r.Valid() && r.param == param
      ensures r.vals == vals - {k}
      ensures r.keys == Without(keys, k)
      ensures k !in vals ==> r == this
    {
      if k !in vals then
        WithoutAbsent(keys, k);
        assert vals - {k} == vals;
        this
      else
        Db(Without(keys, k), vals - {k}, param)
    }
  }

  /** A fresh store built with parameter p. */
  function Empty<V>(p: DbParam): (d: Db<V>)
    ensures d.Valid() && d.keys == [] && d.vals == map[] && d.param == p
  {
    Db([], map[], p)
  }

  /** Removing the same key from two stores keeps the keys of the first among
      the keys of the second. */
  lemma RemoveKeepsInclusion<V, W>(d: Db<V>, e: Db<W>, k: string)
    requires d.Valid() && e.Valid()
    requires d.vals.Keys <= e.vals.Keys
    ensures d.Remove(k).vals.Keys <= e.Remove(k).vals.Keys
  {
  }

  /** Removal is idempotent: a second eviction of the same key is a no-op. */
  lemma RemoveTwice<V>(d: Db<V>, k: string)
    requires d.Valid()
    ensures d.Remove(k).Remove(k) == d.Remove(k)
  {
  }
}
