/** Python dictionaries with string keys, kept as association lists so
    that their insertion order (which the source iterates in) is part of
    the model. */
module Tables {
  import opened Wrappers

  /** The keys of `table`, in insertion order (`list(d.keys())`). */
  function Keys<V>(table: seq<(string, V)>): (ks: seq<string>)
    ensures |ks| == |table|
    ensures forall i :: 0 <= i < |table| ==> ks[i] == table[i].0
  {
    if table == [] then [] else [table[0].0] + Keys(table[1..])
  }

  /** A dictionary holds each key at most once. */
  predicate DistinctKeys<V>(table: seq<(string, V)>) {
    forall i, j :: 0 <= i < j < |table| ==> table[i].0 != table[j].0
  }

  /** `d.get(key)`: the value stored under `key`, or `None` when the key is absent. */
  function Lookup<V>(table: seq<(string, V)>, key: string): (r: Option<V>)
    ensures r.None? <==> key !in Keys(table)
    ensures r.Some? ==> exists i :: 0 <= i < |table| && table[i] == (key, r.value)
  {
    if table == [] then None
    else if table[0].0 == key then Some(table[0].1)
    else
      var rest := Lookup(table[1..], key);
      assert Keys(table) == [table[0].0] + Keys(table[1..]);
      assert rest.Some? ==> exists i :: 0 <= i < |table[1..]| && table[1..][i] == (key, rest.value);
      rest
  }

  /** With distinct keys, looking up the key of any entry finds that entry's value. */
  lemma LookupEntry<V>(table: seq<(string, V)>, i: nat)
    requires DistinctKeys(table)
    requires i < |table|
    ensures Lookup(table, table[i].0) == Some(table[i].1)
  {
    var r := Lookup(table, table[i].0);
    var j :| 0 <= j < |table| && table[j] == (table[i].0, r.value);
    assert j == i;
  }
}
