/** A JavaScript object used as a dictionary: an ordered list of entries with
    distinct keys. Assigning `obj[k] = v` replaces the value of an existing key
    in place and appends a new key at the end, so `Object.keys`,
    `Object.values` and `Object.entries` enumerate keys in first-insertion
    order. */
module JsObject {
  import opened Wrappers

  type Entries<V> = seq<(string, V)>

  /** No key occurs twice. */
  predicate DistinctKeys<V>(e: Entries<V>) {
    forall i, j :: 0 <= i < j < |e| ==> e[i].0 != e[j].0
  }

  function Keys<V>(e: Entries<V>): (ks: seq<string>)
    ensures |ks| == |e|
    ensures forall i :: 0 <= i < |e| ==> ks[i] == e[i].0
  {
    if |e| == 0 then [] else [e[0].0] + Keys(e[1..])
  }

  function Values<V>(e: Entries<V>): (vs: seq<V>)
    ensures |vs| == |e|
    ensures forall i :: 0 <= i < |e| ==> vs[i] == e[i].1
  {
    if |e| == 0 then [] else [e[0].1] + Values(e[1..])
  }

  /** `obj[k]`: the value of the first entry with key `k`, if any. */
  function Get<V>(e: Entries<V>, k: string): Option<V> {
    if |e| == 0 then None
    else if e[0].0 == k then Some(e[0].1)
    else Get(e[1..], k)
  }

  /** A key reads as present exactly when it is one of the keys, and then as
      the value of an entry with that key. */
  lemma {:induction false} GetFound<V>(e: Entries<V>, k: string)
    ensures Get(e, k).Some? <==> k in Keys(e)
    ensures Get(e, k).Some? ==> exists i :: 0 <= i < |e| && e[i] == (k, Get(e, k).value)
  {
    if |e| > 0 {
      assert Keys(e) == [e[0].0] + Keys(e[1..]);
      if e[0].0 != k {
        GetFound(e[1..], k);
        if Get(e, k).Some? {
          var i :| 0 <= i < |e[1..]| && e[1..][i] == (k, Get(e, k).value);
          assert e[i + 1] == (k, Get(e, k).value);
        }
      }
    }
  }

  /** A key that no entry has reads as absent. */
  lemma {:induction false} GetAbsent<V>(e: Entries<V>, k: string)
    requires forall i :: 0 <= i < |e| ==> e[i].0 != k
    ensures Get(e, k) == None
  {
    if |e| > 0 {
      GetAbsent(e[1..], k);
    }
  }

  /** A key reads as the value of its first entry. */
  lemma {:induction false} GetAt<V>(e: Entries<V>, k: string, i: nat)
    requires i < |e| && e[i].0 == k
    requires forall j :: 0 <= j < i ==> e[j].0 != k
    ensures Get(e, k) == Some(e[i].1)
  {
    if i > 0 {
      GetAt(e[1..], k, i - 1);
    }
  }

  /** `obj[k] = v`. */
  function Put<V>(e: Entries<V>, k: string, v: V): (r: Entries<V>)
  {
    if |e| == 0 then [(k, v)]
    else if e[0].0 == k then [(k, v)] + e[1..]
    else [e[0]] + Put(e[1..], k, v)
  }

  /** After `obj[k] = v`, reading `k` gives `v` and every other key reads as
      before. */
  lemma {:induction false} PutGet<V>(e: Entries<V>, k: string, v: V, j: string)
    ensures Get(Put(e, k, v), k) == Some(v)
    ensures j != k ==> Get(Put(e, k, v), j) == Get(e, j)
  {
    if |e| > 0 && e[0].0 != k {
      PutGet(e[1..], k, v, j);
      assert Put(e, k, v)[1..] == Put(e[1..], k, v);
    }
  }

  /** `obj[k] = v` keeps the order of the keys already present and appends a
      new key at the end. */
  lemma {:induction false} PutKeys<V>(e: Entries<V>, k: string, v: V)
    ensures Keys(Put(e, k, v)) == if k in Keys(e) then Keys(e) else Keys(e) + [k]
  {
    if |e| > 0 {
      PutKeys(e[1..], k, v);
      assert Keys(e) == [e[0].0] + Keys(e[1..]);
      if e[0].0 != k {
        assert Keys([e[0]] + Put(e[1..], k, v)) == [e[0].0] + Keys(Put(e[1..], k, v));
      }
    }
  }

  /** `obj[k] = v` keeps the keys distinct. */
  lemma PutDistinct<V>(e: Entries<V>, k: string, v: V)
    requires DistinctKeys(e)
    ensures DistinctKeys(Put(e, k, v))
  {
    PutKeys(e, k, v);
    var r := Put(e, k, v);
    assert forall i :: 0 <= i < |r| ==> r[i].0 == Keys(r)[i];
  }
}
