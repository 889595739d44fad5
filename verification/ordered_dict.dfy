/**
 * A Python dict literal with string keys, kept as the sequence of its
 * entries in insertion order, and the key-to-value map it denotes.
 */
module OrderedDict {

  predicate KeysDistinct<V>(d: seq<(string, V)>) {
    forall i, j :: 0 <= i < j < |d| ==> d[i].0 != d[j].0
  }

  /**
   * The mapping a dict literal builds: entries are inserted left to right,
   * so a repeated key keeps its last value.
   */
  function AsMap<V>(d: seq<(string, V)>): (m: map<string, V>)
    ensures forall k :: k in m <==> exists i :: 0 <= i < |d| && d[i].0 == k
  {
    if d == [] then map[] else AsMap(d[..|d| - 1])[d[|d| - 1].0 := d[|d| - 1].1]
  }

  /** With distinct keys, every entry can be looked up by its key. */
  lemma {:induction false} AsMapLookup<V>(d: seq<(string, V)>, i: nat)
    requires KeysDistinct(d) && i < |d|
    ensures d[i].0 in AsMap(d) && AsMap(d)[d[i].0] == d[i].1
  {
    if i < |d| - 1 {
      var init := d[..|d| - 1];
      assert init[i] == d[i];
      AsMapLookup(init, i);
    }
  }

  /** With distinct keys, the mapping has one key per entry. */
  lemma {:induction false} AsMapSize<V>(d: seq<(string, V)>)
    requires KeysDistinct(d)
    ensures |AsMap(d)| == |d|
  {
    if d != [] {
      var init := d[..|d| - 1];
      AsMapSize(init);
      assert d[|d| - 1].0 !in AsMap(init);
    }
  }
}
