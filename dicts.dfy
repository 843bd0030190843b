/** Insertion-ordered string-keyed dictionaries, the shape of every table the
    experiment scripts build (`ratings[paper_id][dim] = ...`). */
module Dicts {

  /** No key occurs twice. */
  ghost predicate Distinct(s: seq<string>) {
    forall i, j :: 0 <= i < j < |s| ==> s[i] != s[j]
  }

  /** A dictionary: `keys` is the iteration order, `entries` the contents. */
  datatype Dict<V> = Dict(keys: seq<string>, entries: map<string, V>) {

    /** Each key is listed once, and exactly the stored keys are listed. */
    ghost predicate Valid() {
      Distinct(keys) && forall k :: k in keys <==> k in entries
    }

    /** `d[k] = v`: a new key goes to the end of the order, an existing one keeps its place. */
    function Put(k: string, v: V): (d: Dict<V>)
      ensures d.entries == entries[k := v]
      ensures k in entries ==> d.keys == keys
      ensures k !in entries ==> d.keys == keys + [k]
    {
      if k in entries then Dict(keys, entries[k := v]) else Dict(keys + [k], entries[k := v])
    }
  }

  function Empty<V>(): (d: Dict<V>)
    ensures d.Valid() && d.keys == [] && d.entries == map[]
  {
    Dict([], map[])
  }

  /** The dictionary a loop builds by writing `vs[i]` under `ks[i]`, for i in order. */
  function BuildDict<V>(ks: seq<string>, vs: seq<V>): (d: Dict<V>)
    requires |ks| == |vs|
    decreases |ks|
  {
    if ks == [] then Empty() else BuildDict(ks[..|ks| - 1], vs[..|vs| - 1]).Put(ks[|ks| - 1], vs[|vs| - 1])
  }

  /** Writing keeps a dictionary well formed. */
  lemma PutValid<V>(d: Dict<V>, k: string, v: V)
    requires d.Valid()
    ensures d.Put(k, v).Valid()
  {
    if k !in d.entries {
      var ks := d.keys + [k];
      forall i, j | 0 <= i < j < |ks| ensures ks[i] != ks[j] {
        if j == |d.keys| {
          assert ks[i] == d.keys[i];
        }
      }
    }
  }

  /** Writing the next of a list of distinct keys appends it to the order. */
  lemma PutNextKey<V>(d: Dict<V>, ks: seq<string>, i: nat, v: V)
    requires d.Valid() && Distinct(ks) && i < |ks| && d.keys == ks[..i]
    ensures d.Put(ks[i], v).Valid() && d.Put(ks[i], v).keys == ks[..i + 1]
  {
    forall j | 0 <= j < i ensures ks[..i][j] != ks[i] {
      assert ks[..i][j] == ks[j];
    }
    assert ks[i] !in d.entries;
    PutValid(d, ks[i], v);
    assert ks[..i + 1] == ks[..i] + [ks[i]];
  }

  /** Every dictionary a loop of writes builds is well formed. */
  lemma {:induction false} BuildDictValid<V>(ks: seq<string>, vs: seq<V>)
    requires |ks| == |vs|
    ensures BuildDict(ks, vs).Valid()
    decreases |ks|
  {
    if ks != [] {
      var n := |ks| - 1;
      BuildDictValid(ks[..n], vs[..n]);
      PutValid(BuildDict(ks[..n], vs[..n]), ks[n], vs[n]);
    }
  }

  /** One more loop step appends one more write. */
  lemma BuildDictStep<V>(ks: seq<string>, vs: seq<V>, i: nat)
    requires |ks| == |vs| && i < |ks|
    ensures BuildDict(ks[..i + 1], vs[..i + 1]) == BuildDict(ks[..i], vs[..i]).Put(ks[i], vs[i])
  {
    assert ks[..i + 1][..i] == ks[..i];
    assert vs[..i + 1][..i] == vs[..i];
  }

  /** The stored keys are exactly the written keys. */
  lemma {:induction false} BuildDictKeys<V>(ks: seq<string>, vs: seq<V>)
    requires |ks| == |vs|
    ensures forall k :: k in BuildDict(ks, vs).entries <==> k in ks
    decreases |ks|
  {
    if ks != [] {
      var n := |ks| - 1;
      BuildDictKeys(ks[..n], vs[..n]);
      assert ks == ks[..n] + [ks[n]];
    }
  }

  /** Distinctness passes to a prefix. */
  lemma DistinctPrefix(ks: seq<string>, n: nat)
    requires Distinct(ks) && n <= |ks|
    ensures Distinct(ks[..n])
  {
    forall i, j | 0 <= i < j < n ensures ks[..n][i] != ks[..n][j] {
      assert ks[..n][i] == ks[i] && ks[..n][j] == ks[j];
    }
  }

  /** With distinct keys, the last key is new when it is written. */
  lemma LastKeyIsNew<V>(ks: seq<string>, vs: seq<V>)
    requires |ks| == |vs| && Distinct(ks) && ks != []
    ensures ks[|ks| - 1] !in BuildDict(ks[..|ks| - 1], vs[..|vs| - 1]).entries
  {
    var n := |ks| - 1;
    BuildDictKeys(ks[..n], vs[..n]);
    forall i | 0 <= i < n ensures ks[..n][i] != ks[n] {
      assert ks[..n][i] == ks[i];
    }
    assert ks[n] !in ks[..n];
  }

  lemma SnocSplit<T>(s: seq<T>)
    requires s != []
    ensures s == s[..|s| - 1] + [s[|s| - 1]]
  {
  }

  /** With distinct keys, the order is the write order. */
  lemma {:induction false} BuildDictOrder<V>(ks: seq<string>, vs: seq<V>)
    requires |ks| == |vs| && Distinct(ks)
    ensures BuildDict(ks, vs).keys == ks
    decreases |ks|
  {
    if ks != [] {
      var n := |ks| - 1;
      DistinctPrefix(ks, n);
      BuildDictOrder(ks[..n], vs[..n]);
      LastKeyIsNew(ks, vs);
      SnocSplit(ks);
    }
  }

  /** With distinct keys, every key holds the value written under it. */
  lemma {:induction false} BuildDictLookup<V>(ks: seq<string>, vs: seq<V>, i: nat)
    requires |ks| == |vs| && Distinct(ks) && i < |ks|
    ensures ks[i] in BuildDict(ks, vs).entries && BuildDict(ks, vs).entries[ks[i]] == vs[i]
    decreases |ks|
  {
    var n := |ks| - 1;
    if i < n {
      DistinctPrefix(ks, n);
      BuildDictLookup(ks[..n], vs[..n], i);
      assert ks[..n][i] == ks[i] && vs[..n][i] == vs[i];
      assert ks[i] != ks[n];
    }
  }

  /** With distinct keys, the order is the write order and every key holds its own value. */
  lemma BuildDictDistinct<V>(ks: seq<string>, vs: seq<V>)
    requires |ks| == |vs| && Distinct(ks)
    ensures BuildDict(ks, vs).Valid() && BuildDict(ks, vs).keys == ks
    ensures forall i :: 0 <= i < |ks| ==> ks[i] in BuildDict(ks, vs).entries && BuildDict(ks, vs).entries[ks[i]] == vs[i]
  {
    BuildDictValid(ks, vs);
    BuildDictOrder(ks, vs);
    forall i | 0 <= i < |ks| ensures ks[i] in BuildDict(ks, vs).entries && BuildDict(ks, vs).entries[ks[i]] == vs[i] {
      BuildDictLookup(ks, vs, i);
    }
  }

  /** Every stored value is one of the written values. */
  lemma {:induction false} BuildDictValues<V>(ks: seq<string>, vs: seq<V>, k: string)
    requires |ks| == |vs| && k in BuildDict(ks, vs).entries
    ensures exists i :: 0 <= i < |vs| && BuildDict(ks, vs).entries[k] == vs[i]
    decreases |ks|
  {
    var n := |ks| - 1;
    if k == ks[n] {
      assert BuildDict(ks, vs).entries[k] == vs[n];
    } else {
      BuildDictValues(ks[..n], vs[..n], k);
      var i :| 0 <= i < n && BuildDict(ks[..n], vs[..n]).entries[k] == vs[..n][i];
      assert BuildDict(ks, vs).entries[k] == vs[i];
    }
  }
}
