/** The document store's scan of one collection, as `find` performs it. A
    collection is a map from document id to record. */
module Store {

  /** `r` lists the records stored under `keys`, one entry per document: the
      ids are distinct, and they are exactly the ids whose record `keep`
      accepts. The order of `keys` is the store's own. */
  ghost predicate IsListing<T>(m: map<string, T>, keep: T -> bool, r: seq<T>, keys: seq<string>) {
    && |keys| == |r|
    && (forall i :: 0 <= i < |keys| ==> keys[i] in m && r[i] == m[keys[i]])
    && (forall i, j :: 0 <= i < j < |keys| ==> keys[i] != keys[j])
    && (forall k :: k in keys <==> k in m && keep(m[k]))
  }

  /** Every document of `m` that `keep` accepts, each listed once, in an
      order the store chooses; `keys` are the listed documents' ids. */
  method Find<T(==)>(m: map<string, T>, keep: T -> bool) returns (r: seq<T>, ghost keys: seq<string>)
    ensures IsListing(m, keep, r, keys)
    ensures forall x :: x in r <==> x in m.Values && keep(x)
    ensures |r| <= |m|
  {
    var rest := m.Keys;
    r := [];
    keys := [];
    while rest != {}
      invariant rest <= m.Keys
      invariant |keys| == |r|
      invariant forall i :: 0 <= i < |keys| ==>
                  keys[i] in m && keys[i] !in rest && r[i] == m[keys[i]] && keep(m[keys[i]])
      invariant forall i, j :: 0 <= i < j < |keys| ==> keys[i] != keys[j]
      invariant forall k :: k in m && k !in rest && keep(m[k]) ==> k in keys
      invariant |r| + |rest| <= |m|
      decreases rest
    {
      var k :| k in rest;
      if keep(m[k]) {
        r := r + [m[k]];
        keys := keys + [k];
      }
      rest := rest - {k};
    }
    forall x | x in m.Values && keep(x)
      ensures x in r
    {
      var k :| k in m && m[k] == x;
      var i :| 0 <= i < |keys| && keys[i] == k;
      assert r[i] == x;
    }
  }

  /** Distinct ids are as many as the set they form. */
  lemma {:induction false} DistinctKeysCount(keys: seq<string>)
    requires forall i, j :: 0 <= i < j < |keys| ==> keys[i] != keys[j]
    ensures |set k | k in keys| == |keys|
  {
    if |keys| > 0 {
      var init := keys[..|keys| - 1];
      var last := keys[|keys| - 1];
      DistinctKeysCount(init);
      assert (set k | k in keys) == (set k | k in init) + {last};
      assert last !in init;
    }
  }

  /** A listing of every document has exactly one entry per document. */
  lemma {:induction false} FullListingCount<T>(m: map<string, T>, r: seq<T>, keys: seq<string>)
    requires IsListing(m, (x: T) => true, r, keys)
    ensures |r| == |m|
  {
    DistinctKeysCount(keys);
    assert (set k | k in keys) == m.Keys;
  }
}
