/** Python dictionaries with string keys, as the core builds them: the keys in
    first-insertion order beside the key-to-value map. Assigning an existing key replaces its
    value and keeps its position. */
module Dicts {

  datatype Dict = Dict(order: seq<string>, values: map<string, string>)

  const Empty: Dict := Dict([], map[])

  /** The keys are listed once each, and exactly the keys of the map are listed. */
  ghost predicate Valid(d: Dict)
  {
    && (forall a, b :: 0 <= a < b < |d.order| ==> d.order[a] != d.order[b])
    && (forall k :: k in d.values <==> k in d.order)
  }

  /** `d[k] = v`. */
  function Put(d: Dict, k: string, v: string): (r: Dict)
    requires Valid(d)
    ensures Valid(r)
    ensures r.values == d.values[k := v]
    ensures k in d.values ==> r.order == d.order
    ensures k !in d.values ==> r.order == d.order + [k]
  {
    if k in d.values then Dict(d.order, d.values[k := v]) else Dict(d.order + [k], d.values[k := v])
  }

  /** The dictionary filled by assigning the pairs one after the other. */
  function FromPairs(pairs: seq<(string, string)>): (r: Dict)
    ensures Valid(r)
  {
    if pairs == [] then Empty
    else
      var last := pairs[|pairs| - 1];
      Put(FromPairs(pairs[..|pairs| - 1]), last.0, last.1)
  }

  /** Pair `i` is the last one with key `k`. */
  predicate LastWithKey(pairs: seq<(string, string)>, k: string, i: int)
  {
    0 <= i < |pairs| && pairs[i].0 == k && forall j :: i < j < |pairs| ==> pairs[j].0 != k
  }

  /** What `FromPairs` builds: a key is present iff some pair assigns it, and it holds the
      value of the last pair that does. */
  lemma FromPairsLastWins(pairs: seq<(string, string)>)
    ensures forall k :: k in FromPairs(pairs).values <==> exists i :: 0 <= i < |pairs| && pairs[i].0 == k
    ensures forall k, i :: LastWithKey(pairs, k, i) ==> FromPairs(pairs).values[k] == pairs[i].1
  {
    forall k
      ensures k in FromPairs(pairs).values <==> exists i :: 0 <= i < |pairs| && pairs[i].0 == k
    {
      FromPairsKeys(pairs, k);
    }
    forall k, i | LastWithKey(pairs, k, i)
      ensures FromPairs(pairs).values[k] == pairs[i].1
    {
      FromPairsValue(pairs, k, i);
    }
  }

  /** A key is present iff some pair assigns it. */
  lemma FromPairsKeys(pairs: seq<(string, string)>, k: string)
    ensures k in FromPairs(pairs).values <==> exists i :: 0 <= i < |pairs| && pairs[i].0 == k
  {
    if k in FromPairs(pairs).values {
      var i := KeySource(pairs, k);
    }
    if exists i :: 0 <= i < |pairs| && pairs[i].0 == k {
      var i :| 0 <= i < |pairs| && pairs[i].0 == k;
      AssignedKey(pairs, i);
    }
  }

  /** A present key was assigned by some pair. */
  lemma {:induction false} KeySource(pairs: seq<(string, string)>, k: string) returns (i: nat)
    requires k in FromPairs(pairs).values
    ensures i < |pairs| && pairs[i].0 == k
    decreases |pairs|
  {
    var n := |pairs| - 1;
    var front := pairs[..n];
    assert FromPairs(pairs).values == FromPairs(front).values[pairs[n].0 := pairs[n].1];
    if pairs[n].0 == k {
      i := n;
    } else {
      i := KeySource(front, k);
      assert front[i] == pairs[i];
    }
  }

  /** Every assigned key is present. */
  lemma {:induction false} AssignedKey(pairs: seq<(string, string)>, i: nat)
    requires i < |pairs|
    ensures pairs[i].0 in FromPairs(pairs).values
    decreases |pairs|
  {
    var n := |pairs| - 1;
    var front := pairs[..n];
    assert FromPairs(pairs).values == FromPairs(front).values[pairs[n].0 := pairs[n].1];
    if i < n {
      AssignedKey(front, i);
      assert front[i] == pairs[i];
    }
  }

  /** A key holds the value of the last pair that assigns it. */
  lemma {:induction false} FromPairsValue(pairs: seq<(string, string)>, k: string, i: int)
    requires LastWithKey(pairs, k, i)
    ensures k in FromPairs(pairs).values && FromPairs(pairs).values[k] == pairs[i].1
    decreases |pairs|
  {
    var n := |pairs| - 1;
    var front := pairs[..n];
    assert FromPairs(pairs).values == FromPairs(front).values[pairs[n].0 := pairs[n].1];
    if i < n {
      assert LastWithKey(front, k, i);
      FromPairsValue(front, k, i);
    }
  }

  /** The first key of a filled dictionary is the key of the first pair. */
  lemma {:induction false} FromPairsFirstKey(pairs: seq<(string, string)>)
    requires |pairs| > 0
    ensures |FromPairs(pairs).order| > 0 && FromPairs(pairs).order[0] == pairs[0].0
    decreases |pairs|
  {
    if |pairs| > 1 {
      FromPairsFirstKey(pairs[..|pairs| - 1]);
    }
  }
}
