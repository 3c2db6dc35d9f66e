/**
 * The three ways the analysis code reads its static tables by a list of
 * keys (a question's tags): the first key that hits, the concatenation of
 * all hits, and the duplicate-free list a JavaScript `Set` keeps in
 * insertion order.
 */
module Lookup {
  import opened JsValues

  /** The value of the first key of `keys` present in `table`. */
  function FirstHit<V>(keys: seq<string>, table: map<string, V>): (r: Option<V>)
    ensures r.None? <==> forall i :: 0 <= i < |keys| ==> keys[i] !in table
    ensures r.Some? ==>
      exists i :: 0 <= i < |keys| && keys[i] in table && r.value == table[keys[i]] &&
        forall j :: 0 <= j < i ==> keys[j] !in table
    decreases |keys|
  {
    if |keys| == 0 then None
    else if keys[0] in table then Some(table[keys[0]])
    else
      var r := FirstHit(keys[1..], table);
      assert forall j :: 1 <= j < |keys| ==> keys[j] == keys[1..][j - 1];
      r
  }

  /** The first key present in the table decides the result. */
  lemma FirstHitAt<V>(keys: seq<string>, table: map<string, V>, i: nat)
    requires i < |keys| && keys[i] in table
    requires forall j :: 0 <= j < i ==> keys[j] !in table
    ensures FirstHit(keys, table) == Some(table[keys[i]])
  {
    var r := FirstHit(keys, table);
    var i' :| 0 <= i' < |keys| && keys[i'] in table && r.value == table[keys[i']] &&
      forall j :: 0 <= j < i' ==> keys[j] !in table;
  }

  /** The table entry of a key, or the empty list: `table[key] || []`. */
  function EntryOrEmpty<V>(table: map<string, seq<V>>, key: string): seq<V> {
    if key in table then table[key] else []
  }

  /** The entries of all keys present in `table`, concatenated in key order. */
  function AllHits<V(!new)>(keys: seq<string>, table: map<string, seq<V>>): (r: seq<V>)
    ensures forall x :: x in r <==>
      exists i :: 0 <= i < |keys| && keys[i] in table && x in table[keys[i]]
    decreases |keys|
  {
    if |keys| == 0 then []
    else
      var init := keys[..|keys| - 1];
      assert forall i :: 0 <= i < |init| ==> init[i] == keys[i];
      AllHits(init, table) + EntryOrEmpty(table, keys[|keys| - 1])
  }

  predicate Distinct<T(==)>(s: seq<T>) {
    forall i, j :: 0 <= i < j < |s| ==> s[i] != s[j]
  }

  /**
   * The elements of `s` without repetitions, each at the place of its first
   * occurrence: what `Array.from` returns for a `Set` filled from `s`.
   */
  function Dedup<T(==,!new)>(s: seq<T>): (r: seq<T>)
    ensures forall x :: x in r <==> x in s
    ensures Distinct(r)
    decreases |s|
  {
    if |s| == 0 then []
    else
      var d := Dedup(s[..|s| - 1]);
      assert forall x :: x in s <==> x in s[..|s| - 1] || x == s[|s| - 1];
      if s[|s| - 1] in d then d else d + [s[|s| - 1]]
  }

  /** Extending the input by one element extends the result by it exactly when it is new. */
  lemma DedupSnoc<T(!new)>(s: seq<T>, x: T)
    ensures Dedup(s + [x]) == if x in s then Dedup(s) else Dedup(s) + [x]
  {
    assert (s + [x])[..|s + [x]| - 1] == s;
  }
}
