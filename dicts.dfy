/**
 * A JavaScript object used as a dictionary: string keys in insertion order
 * (`Object.keys`, `Object.values`, `Object.entries` all follow it), and assignment
 * `o[k] = v`, which overwrites in place when `k` is present and appends it otherwise.
 */
module Dicts {

  datatype Dict<V> = Dict(keys: seq<string>, entries: map<string, V>)

  /** Keys are distinct and are exactly the domain of the entries. */
  ghost predicate Valid<V>(d: Dict<V>) {
    && (forall i, j :: 0 <= i < j < |d.keys| ==> d.keys[i] != d.keys[j])
    && (forall k :: k in d.entries <==> k in d.keys)
  }

  type Object<V> = d: Dict<V> | Valid(d) witness Dict([], map[])

  /** `{}` */
  function Empty<V>(): (r: Object<V>)
    ensures r.keys == [] && r.entries == map[]
  {
    Dict([], map[])
  }

  /** `o[k] = v`. */
  function Put<V>(o: Object<V>, k: string, v: V): (r: Object<V>)
    ensures r.entries == o.entries[k := v]
    ensures r.keys == if k in o.entries then o.keys else o.keys + [k]
  {
    if k in o.entries then Dict(o.keys, o.entries[k := v])
    else Dict(o.keys + [k], o.entries[k := v])
  }

  /** `Object.values(o)`. */
  function Values<V>(o: Object<V>): (r: seq<V>)
    ensures |r| == |o.keys|
    ensures forall i :: 0 <= i < |o.keys| ==> r[i] == o.entries[o.keys[i]]
  {
    seq(|o.keys|, i requires 0 <= i < |o.keys| => o.entries[o.keys[i]])
  }

  /** Every entry of `a` is an entry of `b`, with the same value. */
  ghost predicate SubObject<V>(a: Object<V>, b: Object<V>) {
    forall k :: k in a.entries ==> k in b.entries && a.entries[k] == b.entries[k]
  }

  /**
   * The entries-and-order view of a filtered copy built by assignment: keep, in order,
   * the keys of `o` whose entry satisfies `keep`, with the value they have in `o`.
   * This is what a `forEach` over `Object.entries(o)` that copies the kept entries into
   * a fresh `{}` produces.
   */
  function SelectUpTo<V>(o: Object<V>, keep: (string, V) -> bool, n: nat): (r: Object<V>)
    requires n <= |o.keys|
    decreases n
  {
    if n == 0 then Empty()
    else
      var k := o.keys[n - 1];
      var p := SelectUpTo(o, keep, n - 1);
      if keep(k, o.entries[k]) then Put(p, k, o.entries[k]) else p
  }

  function Select<V>(o: Object<V>, keep: (string, V) -> bool): Object<V> {
    SelectUpTo(o, keep, |o.keys|)
  }

  /**
   * The selection keeps exactly the entries satisfying `keep`, with the value they have
   * in `o`, and only keys among the first `n`.
   */
  lemma {:induction false} SelectUpToEntries<V>(o: Object<V>, keep: (string, V) -> bool, n: nat)
    requires n <= |o.keys|
    ensures forall k :: k in SelectUpTo(o, keep, n).entries <==>
      (exists i :: 0 <= i < n && o.keys[i] == k && keep(k, o.entries[k]))
    ensures forall k :: k in SelectUpTo(o, keep, n).entries ==>
      k in o.entries && SelectUpTo(o, keep, n).entries[k] == o.entries[k]
  {
    if n > 0 {
      SelectUpToEntries(o, keep, n - 1);
      var k := o.keys[n - 1];
      var p := SelectUpTo(o, keep, n - 1);
      if keep(k, o.entries[k]) {
        assert SelectUpTo(o, keep, n) == Put(p, k, o.entries[k]);
      } else {
        assert SelectUpTo(o, keep, n) == p;
      }
    }
  }

  /** The kept keys are the keys of `o`, in `o`'s order, whose entry satisfies `keep`. */
  lemma {:induction false} SelectUpToKeys<V>(o: Object<V>, keep: (string, V) -> bool, n: nat)
    requires n <= |o.keys|
    ensures SelectUpTo(o, keep, n).keys == KeptKeys(o, keep, o.keys[..n])
  {
    if n > 0 {
      SelectUpToKeys(o, keep, n - 1);
      SelectUpToEntries(o, keep, n - 1);
      var k := o.keys[n - 1];
      assert o.keys[..n][..n - 1] == o.keys[..n - 1];
    }
  }

  /** The keys of `ks`, in order, whose entry in `o` satisfies `keep`. */
  function KeptKeys<V>(o: Object<V>, keep: (string, V) -> bool, ks: seq<string>): (r: seq<string>)
    requires forall k :: k in ks ==> k in o.entries
    ensures forall k :: k in r ==> k in ks && keep(k, o.entries[k])
    ensures |r| <= |ks|
  {
    if ks == [] then []
    else
      var k := ks[|ks| - 1];
      var p := KeptKeys(o, keep, ks[..|ks| - 1]);
      if keep(k, o.entries[k]) then p + [k] else p
  }

}
