/**
  Association lists keyed by strings: the shape of a serde_json object
  (`serde_json::Map<String, Value>`) and of a `HashMap<String, String>` once
  its iteration order is fixed.  Get finds the first entry with the key,
  Put replaces that entry in place or appends a new one, Delete drops every
  entry with the key.
*/
module Assoc {
  import opened Wrappers

  type Entries<V> = seq<(string, V)>

  /** Concatenation is associative (stated once, generically, for the solver's sake). */
  lemma ConcatAssoc<T>(a: seq<T>, b: seq<T>, c: seq<T>)
    ensures a + (b + c) == (a + b) + c
  {
  }

  /** The keys, in entry order. */
  function Keys<V>(ms: Entries<V>): (ks: seq<string>)
    ensures |ks| == |ms|
    ensures forall i :: 0 <= i < |ms| ==> ks[i] == ms[i].0
  {
    if ms == [] then [] else [ms[0].0] + Keys(ms[1..])
  }

  /** No key occurs twice. */
  predicate UniqueKeys<V>(ms: Entries<V>) {
    forall i, j :: 0 <= i < j < |ms| ==> ms[i].0 != ms[j].0
  }

  /** The value of the first entry whose key is `k`. */
  function Get<V>(ms: Entries<V>, k: string): (r: Option<V>)
    ensures r.Some? <==> k in Keys(ms)
    ensures r.Some? ==> (k, r.value) in ms
  {
    if ms == [] then None
    else if ms[0].0 == k then Some(ms[0].1)
    else
      assert Keys(ms) == [ms[0].0] + Keys(ms[1..]);
      Get(ms[1..], k)
  }

  /** Insert or overwrite: serde's `Map::insert` and `HashMap::insert`. */
  function Put<V>(ms: Entries<V>, k: string, v: V): Entries<V> {
    if ms == [] then [(k, v)]
    else if ms[0].0 == k then [(k, v)] + ms[1..]
    else [ms[0]] + Put(ms[1..], k, v)
  }

  /** After Put the key holds the new value and every other key its old one. */
  lemma {:induction false} PutGet<V>(ms: Entries<V>, k: string, v: V)
    ensures Get(Put(ms, k, v), k) == Some(v)
    ensures forall k' :: k' != k ==> Get(Put(ms, k, v), k') == Get(ms, k')
  {
    if ms != [] {
      KeysCons(ms[0], ms[1..]);
      if ms[0].0 == k {
        KeysCons((k, v), ms[1..]);
      } else {
        PutGet(ms[1..], k, v);
        KeysCons(ms[0], Put(ms[1..], k, v));
      }
    }
  }

  /** Put keeps the key order, appending a key it has not seen. */
  lemma {:induction false} PutKeys<V>(ms: Entries<V>, k: string, v: V)
    ensures Keys(Put(ms, k, v)) == if k in Keys(ms) then Keys(ms) else Keys(ms) + [k]
  {
    if ms != [] {
      KeysCons(ms[0], ms[1..]);
      if ms[0].0 == k {
        KeysCons((k, v), ms[1..]);
      } else {
        PutKeys(ms[1..], k, v);
        KeysCons(ms[0], Put(ms[1..], k, v));
        ConcatAssoc([ms[0].0], Keys(ms[1..]), [k]);
      }
    }
  }

  /** The keys of an entry put in front. */
  lemma KeysCons<V>(x: (string, V), ms: Entries<V>)
    ensures Keys([x] + ms) == [x.0] + Keys(ms)
    ensures ([x] + ms)[0] == x && ([x] + ms)[1..] == ms
  {
    assert ([x] + ms)[1..] == ms;
  }

  /** Remove every entry whose key is `k`: serde's `Map::remove`. */
  function Delete<V>(ms: Entries<V>, k: string): Entries<V> {
    if ms == [] then []
    else if ms[0].0 == k then Delete(ms[1..], k)
    else [ms[0]] + Delete(ms[1..], k)
  }

  /** After Delete the key is gone and every other key keeps its value and place. */
  lemma {:induction false} DeleteGet<V>(ms: Entries<V>, k: string)
    ensures Get(Delete(ms, k), k) == None
    ensures forall k' :: k' != k ==> Get(Delete(ms, k), k') == Get(ms, k')
    ensures forall x :: x in Keys(Delete(ms, k)) <==> x in Keys(ms) && x != k
    ensures k !in Keys(ms) ==> Delete(ms, k) == ms
  {
    if ms != [] {
      DeleteGet(ms[1..], k);
      KeysCons(ms[0], ms[1..]);
      assert ms == [ms[0]] + ms[1..];
      if ms[0].0 != k {
        KeysCons(ms[0], Delete(ms[1..], k));
      }
    }
  }

  lemma {:induction false} PutIdempotent<V>(ms: Entries<V>, k: string, v: V)
    ensures Put(Put(ms, k, v), k, v) == Put(ms, k, v)
  {
    if ms != [] && ms[0].0 != k {
      PutIdempotent(ms[1..], k, v);
      assert Put(ms, k, v)[1..] == Put(ms[1..], k, v);
    }
  }

  lemma {:induction false} DeleteIdempotent<V>(ms: Entries<V>, k: string)
    ensures Delete(Delete(ms, k), k) == Delete(ms, k)
  {
    if ms != [] {
      DeleteIdempotent(ms[1..], k);
      if ms[0].0 != k {
        assert Delete(ms, k)[1..] == Delete(ms[1..], k);
      }
    }
  }

  /** The tail of a list with unique keys has unique keys and lacks the head's key. */
  lemma UniqueTail<V>(ms: Entries<V>)
    requires UniqueKeys(ms) && ms != []
    ensures UniqueKeys(ms[1..]) && ms[0].0 !in Keys(ms[1..])
  {
    var tail := ms[1..];
    forall i | 0 <= i < |tail| ensures tail[i] == ms[i + 1] && Keys(tail)[i] != ms[0].0 {
      assert tail[i] == ms[i + 1];
    }
  }

  /** Adding an entry with a fresh key in front keeps the keys unique. */
  lemma UniqueCons<V>(x: (string, V), ms: Entries<V>)
    requires UniqueKeys(ms) && x.0 !in Keys(ms)
    ensures UniqueKeys([x] + ms)
  {
    var r := [x] + ms;
    forall i, j | 0 <= i < j < |r| ensures r[i].0 != r[j].0 {
      assert r[j] == ms[j - 1] && Keys(ms)[j - 1] == ms[j - 1].0;
      if i > 0 {
        assert r[i] == ms[i - 1];
      }
    }
  }

  lemma {:induction false} PutKeepsUnique<V>(ms: Entries<V>, k: string, v: V)
    requires UniqueKeys(ms)
    ensures UniqueKeys(Put(ms, k, v))
  {
    if ms != [] {
      UniqueTail(ms);
      var tail := ms[1..];
      if ms[0].0 == k {
        UniqueCons((k, v), tail);
        assert Put(ms, k, v) == [(k, v)] + tail;
      } else {
        PutKeepsUnique(tail, k, v);
        var rest := Put(tail, k, v);
        PutKeys(tail, k, v);
        assert ms[0].0 !in Keys(rest);
        UniqueCons(ms[0], rest);
        assert Put(ms, k, v) == [ms[0]] + rest;
      }
    }
  }

  lemma {:induction false} DeleteKeepsUnique<V>(ms: Entries<V>, k: string)
    requires UniqueKeys(ms)
    ensures UniqueKeys(Delete(ms, k))
  {
    if ms != [] {
      UniqueTail(ms);
      DeleteKeepsUnique(ms[1..], k);
      var rest := Delete(ms[1..], k);
      DeleteGet(ms[1..], k);
      if ms[0].0 != k {
        assert ms[0].0 !in Keys(rest);
        UniqueCons(ms[0], rest);
        assert Delete(ms, k) == [ms[0]] + rest;
      }
    }
  }

  /** Putting the value a key already holds changes nothing. */
  lemma {:induction false} PutSame<V>(ms: Entries<V>, k: string, v: V)
    requires Get(ms, k) == Some(v)
    ensures Put(ms, k, v) == ms
  {
    if ms[0].0 != k {
      PutSame(ms[1..], k, v);
      KeysCons(ms[0], ms[1..]);
    }
  }

  /** A second Put of the same key overwrites the first. */
  lemma {:induction false} PutPut<V>(ms: Entries<V>, k: string, a: V, b: V)
    ensures Put(Put(ms, k, a), k, b) == Put(ms, k, b)
  {
    if ms != [] && ms[0].0 != k {
      PutPut(ms[1..], k, a, b);
      KeysCons(ms[0], Put(ms[1..], k, a));
    }
  }

  /** Deleting a key that Put has just added restores the list. */
  lemma {:induction false} DeletePutFresh<V>(ms: Entries<V>, k: string, v: V)
    requires k !in Keys(ms)
    ensures Delete(Put(ms, k, v), k) == ms
  {
    if ms != [] {
      KeysCons(ms[0], ms[1..]);
      DeletePutFresh(ms[1..], k, v);
      KeysCons(ms[0], Put(ms[1..], k, v));
    }
  }
}
