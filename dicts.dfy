/** A Python `dict`: a finite map that remembers the order in which its keys
    were first inserted. */
module Dicts {
  import opened Seqs

  datatype Dict<K(==,!new), V> = Dict(keys: seq<K>, entries: map<K, V>) {
    /** The key order lists each key of the map exactly once. */
    predicate Valid() {
      && NoDuplicates(keys)
      && (forall k | k in keys :: k in entries)
      && (forall k | k in entries :: k in keys)
    }
  }

  /** `{}` */
  function Empty<K(==,!new), V>(): (d: Dict<K, V>)
    ensures d.Valid() && d.entries == map[]
  {
    Dict([], map[])
  }

  /** `d[k] = v`: a new key goes to the end of the order, an existing key keeps
      its place and only its value is replaced. */
  function Assign<K(==,!new), V>(d: Dict<K, V>, k: K, v: V): Dict<K, V> {
    if k in d.entries then Dict(d.keys, d.entries[k := v])
    else Dict(d.keys + [k], d.entries[k := v])
  }

  /** Assignment keeps every key listed exactly once. */
  lemma AssignValid<K(!new), V>(d: Dict<K, V>, k: K, v: V)
    requires d.Valid()
    ensures Assign(d, k, v).Valid()
  {
  }

  /** A dict whose keys were assigned in the order of the first `n - 1`
      elements of `s` lists them as `Distinct`; assigning the `n`-th extends that. */
  lemma AssignDistinct<K(!new), V>(d: Dict<K, V>, s: seq<K>, n: nat, v: V)
    requires 0 < n <= |s|
    requires d.Valid() && d.keys == Distinct(s[..n - 1])
    ensures Assign(d, s[n - 1], v).Valid() && Assign(d, s[n - 1], v).keys == Distinct(s[..n])
  {
    AssignValid(d, s[n - 1], v);
    DistinctPrefix(s, n);
    assert s[n - 1] in d.entries <==> s[n - 1] in s[..n - 1];
  }
}
