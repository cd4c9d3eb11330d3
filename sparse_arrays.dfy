/** android.util.SparseArray as the chunk extractor uses it: entries kept in
    strictly ascending key order, so that `valueAt(i)` walks the tracks by
    ascending id. */
module SparseArrays {
  import opened Common

  /** Keys strictly ascend, so each key occurs once. */
  ghost predicate Sorted<V>(e: seq<(int, V)>) {
    forall i, j :: 0 <= i < j < |e| ==> e[i].0 < e[j].0
  }

  /** The keys present. */
  function KeySet<V>(e: seq<(int, V)>): set<int> {
    if |e| == 0 then {} else {e[0].0} + KeySet(e[1..])
  }

  /** `get(key)`: the value stored under `key`, or null. */
  function Get<V>(e: seq<(int, V)>, key: int): Option<V> {
    if |e| == 0 then None
    else if e[0].0 == key then Some(e[0].1)
    else Get(e[1..], key)
  }

  /** `put(key, value)`: replaces the entry for `key`, or inserts one at the
      place that keeps the keys ascending. */
  function Put<V>(e: seq<(int, V)>, key: int, v: V): seq<(int, V)> {
    if |e| == 0 then [(key, v)]
    else if key < e[0].0 then [(key, v)] + e
    else if key == e[0].0 then [(key, v)] + e[1..]
    else [e[0]] + Put(e[1..], key, v)
  }

  /** A key is present iff some entry carries it. */
  lemma {:induction false} KeySetMembers<V>(e: seq<(int, V)>)
    ensures forall k :: k in KeySet(e) <==> exists i :: 0 <= i < |e| && e[i].0 == k
  {
    if |e| > 0 {
      KeySetMembers(e[1..]);
      forall k | k in KeySet(e) ensures exists i :: 0 <= i < |e| && e[i].0 == k {
        if k != e[0].0 {
          assert k in KeySet(e[1..]);
          var i :| 0 <= i < |e[1..]| && e[1..][i].0 == k;
          assert e[i + 1].0 == k;
        }
      }
      forall k | (exists i :: 0 <= i < |e| && e[i].0 == k) ensures k in KeySet(e) {
        var i :| 0 <= i < |e| && e[i].0 == k;
        if i > 0 { assert e[1..][i - 1].0 == k; }
      }
    }
  }

  /** `get` finds exactly the keys that are present, and in a sorted array
      it finds the value stored beside the key. */
  lemma {:induction false} GetFindsKeys<V>(e: seq<(int, V)>, key: int)
    requires Sorted(e)
    ensures Get(e, key).Some? <==> key in KeySet(e)
    ensures forall i :: 0 <= i < |e| && e[i].0 == key ==> Get(e, key) == Some(e[i].1)
  {
    if |e| > 0 {
      GetFindsKeys(e[1..], key);
      forall i | 0 <= i < |e| && e[i].0 == key ensures Get(e, key) == Some(e[i].1) {
        if i > 0 { assert e[1..][i - 1] == e[i]; }
      }
    }
  }

  /** Inserting a new key adds exactly that key and one entry. */
  lemma {:induction false} PutNewKeys<V>(e: seq<(int, V)>, key: int, v: V)
    requires key !in KeySet(e)
    ensures |Put(e, key, v)| == |e| + 1
    ensures KeySet(Put(e, key, v)) == KeySet(e) + {key}
  {
    if |e| > 0 && key > e[0].0 {
      PutNewKeys(e[1..], key, v);
    }
  }

  /** Inserting a new key keeps every old entry and adds the new one. */
  lemma {:induction false} PutNewEntries<V>(e: seq<(int, V)>, key: int, v: V)
    requires key !in KeySet(e)
    ensures multiset(Put(e, key, v)) == multiset(e) + multiset{(key, v)}
  {
    if |e| > 0 && key > e[0].0 {
      PutNewEntries(e[1..], key, v);
      assert e == [e[0]] + e[1..];
    } else if |e| > 0 {
      assert Put(e, key, v)[1..] == e;
    }
  }

  /** `put` of a key above `lo` into entries whose keys are all above `lo`
      leaves every key above `lo`. */
  lemma {:induction false} PutKeysAbove<V>(e: seq<(int, V)>, key: int, v: V, lo: int)
    requires forall i :: 0 <= i < |e| ==> lo < e[i].0
    requires lo < key
    ensures forall i :: 0 <= i < |Put(e, key, v)| ==> lo < Put(e, key, v)[i].0
  {
    if |e| > 0 && key > e[0].0 {
      PutKeysAbove(e[1..], key, v, lo);
      var r := Put(e[1..], key, v);
      assert Put(e, key, v) == [e[0]] + r;
      assert forall i :: 1 <= i < |Put(e, key, v)| ==> Put(e, key, v)[i] == r[i - 1];
    }
  }

  /** `put` keeps the keys ascending, whether it replaces or inserts. */
  lemma {:induction false} PutSorted<V>(e: seq<(int, V)>, key: int, v: V)
    requires Sorted(e)
    ensures Sorted(Put(e, key, v))
  {
    if |e| > 0 && key > e[0].0 {
      var t := e[1..];
      PutSorted(t, key, v);
      PutKeysAbove(t, key, v, e[0].0);
      var rt := Put(t, key, v);
      assert Put(e, key, v) == [e[0]] + rt;
      assert forall i :: 1 <= i < |Put(e, key, v)| ==> Put(e, key, v)[i] == rt[i - 1];
    }
  }

  /** After inserting a new key, `get` finds the new value under it and the
      old value under every other key. */
  lemma {:induction false} PutNewGet<V>(e: seq<(int, V)>, key: int, v: V)
    requires key !in KeySet(e)
    ensures Get(Put(e, key, v), key) == Some(v)
    ensures forall k :: k != key ==> Get(Put(e, key, v), k) == Get(e, k)
  {
    if |e| > 0 && key > e[0].0 {
      PutNewGet(e[1..], key, v);
    }
  }
}
