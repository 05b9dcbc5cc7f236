/**
 * Token tables. A table is an object literal of the source; `Object.entries`
 * walks it in a fixed order (integer-like keys ascending, then string keys in
 * insertion order), so the model keeps every table as an ordered sequence of
 * key/value entries, listed in that order.
 */
module Tables {
  import opened Wrappers

  datatype Entry<V> = Entry(key: string, value: V)

  /** The keys of a table, in iteration order. */
  function Keys<V>(t: seq<Entry<V>>): (ks: seq<string>)
    ensures |ks| == |t|
    ensures forall i :: 0 <= i < |t| ==> ks[i] == t[i].key
  {
    seq(|t|, i requires 0 <= i < |t| => t[i].key)
  }

  /** Object literals never repeat a key. */
  predicate DistinctKeys<V>(t: seq<Entry<V>>) {
    forall i, j :: 0 <= i < j < |t| ==> t[i].key != t[j].key
  }

  /** Property access `table[key]`; None stands for `undefined`. */
  function Lookup<V>(t: seq<Entry<V>>, key: string): (r: Option<V>)
    ensures r.None? <==> key !in Keys(t)
    ensures r.Some? ==> exists i :: 0 <= i < |t| && t[i] == Entry(key, r.value)
  {
    if t == [] then None
    else if t[0].key == key then Some(t[0].value)
    else
      assert Keys(t) == [t[0].key] + Keys(t[1..]);
      var r := Lookup(t[1..], key);
      assert r.Some? ==> exists i :: 0 <= i < |t| && t[i] == Entry(key, r.value) by {
        if r.Some? {
          var i :| 0 <= i < |t[1..]| && t[1..][i] == Entry(key, r.value);
          assert t[i + 1] == Entry(key, r.value);
        }
      }
      r
  }

  lemma {:induction false} LookupAt<V>(t: seq<Entry<V>>, i: nat)
    requires DistinctKeys(t) && i < |t|
    ensures Lookup(t, t[i].key) == Some(t[i].value)
  {
    if i > 0 {
      LookupAt(t[1..], i - 1);
    }
  }

  /** Every key of a table looks up its own entry. */
  lemma LookupAll<V>(t: seq<Entry<V>>)
    requires DistinctKeys(t)
    ensures forall i :: 0 <= i < |t| ==> Lookup(t, t[i].key) == Some(t[i].value)
  {
    forall i | 0 <= i < |t| ensures Lookup(t, t[i].key) == Some(t[i].value) {
      LookupAt(t, i);
    }
  }

  /** Two tables with the same keys in the same order: a key of one looks up the same place of the other. */
  lemma PairedLookup<U, V>(a: seq<Entry<U>>, b: seq<Entry<V>>)
    requires |a| == |b| && DistinctKeys(b)
    requires forall i :: 0 <= i < |a| ==> a[i].key == b[i].key
    ensures forall i :: 0 <= i < |a| ==> Lookup(b, a[i].key) == Some(b[i].value)
  {
    LookupAll(b);
  }

  /** A table rebuilt entry by entry under the same keys keeps its keys, so it keeps them distinct. */
  lemma SameKeysDistinct<U, V>(a: seq<Entry<U>>, b: seq<Entry<V>>)
    requires |a| == |b| && DistinctKeys(a)
    requires forall i :: 0 <= i < |a| ==> a[i].key == b[i].key
    ensures DistinctKeys(b) && Keys(b) == Keys(a)
  {
  }

  /** `Object.fromEntries`: a later entry overwrites an earlier one with the same key. */
  function ToMap<V>(t: seq<Entry<V>>): (m: map<string, V>)
    ensures forall k :: k in m <==> k in Keys(t)
    ensures DistinctKeys(t) ==> forall i :: 0 <= i < |t| ==> m[t[i].key] == t[i].value
    decreases |t|
  {
    if t == [] then map[]
    else
      var init := t[..|t| - 1];
      assert Keys(t) == Keys(init) + [t[|t| - 1].key];
      ToMap(init)[t[|t| - 1].key := t[|t| - 1].value]
  }
}
