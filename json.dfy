/**
 * The decoded JSON values the gateway receives from the remote service and
 * hands back to its own callers. An object keeps its members in insertion
 * order, as a Python dict does, so that the place where a newly written key
 * ends up is part of the model.
 */
module Json {
  import opened Wrappers

  datatype Json =
    | JNull
    | JBool(b: bool)
    | JInt(i: int)
    | JString(s: string)
    | JArray(items: seq<Json>)
    | JObject(members: seq<(string, Json)>)

  type Members = seq<(string, Json)>

  // Objects, and the form fields of an outgoing request, are string-keyed
  // dictionaries kept as (key, value) pairs in insertion order.

  /** The keys of a dictionary, in insertion order. */
  function Keys<V>(ms: seq<(string, V)>): (ks: seq<string>)
    ensures |ks| == |ms|
    ensures forall i :: 0 <= i < |ms| ==> ks[i] == ms[i].0
  {
    if |ms| == 0 then [] else [ms[0].0] + Keys(ms[1..])
  }

  /** `d.get(k)`: the value stored under `k`, if any. */
  function Get<V>(ms: seq<(string, V)>, k: string): Option<V>
  {
    if |ms| == 0 then None
    else if ms[0].0 == k then Some(ms[0].1)
    else Get(ms[1..], k)
  }

  /** `k in d`. */
  predicate Has<V>(ms: seq<(string, V)>, k: string)
  {
    Get(ms, k).Some?
  }

  /**
   * `d[k] = v`: an existing key keeps its position and gets the new value,
   * a new key is appended at the end; every other key is left alone.
   */
  function Put<V>(ms: seq<(string, V)>, k: string, v: V): (r: seq<(string, V)>)
    ensures Get(r, k) == Some(v)
    ensures forall j :: j != k ==> Get(r, j) == Get(ms, j)
  {
    if |ms| == 0 then [(k, v)]
    else if ms[0].0 == k then [(k, v)] + ms[1..]
    else [ms[0]] + Put(ms[1..], k, v)
  }

  /** `d[k] = v` keeps the order of the keys and appends `k` when it is new. */
  lemma {:induction false} PutKeys<V>(ms: seq<(string, V)>, k: string, v: V)
    ensures Keys(Put(ms, k, v)) == if Has(ms, k) then Keys(ms) else Keys(ms) + [k]
  {
    if |ms| > 0 && ms[0].0 != k {
      PutKeys(ms[1..], k, v);
    }
  }

  /** Writing a key that is not there yet appends it as the last pair. */
  lemma {:induction false} PutNew<V>(ms: seq<(string, V)>, k: string, v: V)
    requires !Has(ms, k)
    ensures Put(ms, k, v) == ms + [(k, v)]
  {
    if |ms| > 0 {
      PutNew(ms[1..], k, v);
      assert ms == [ms[0]] + ms[1..];
    }
  }

  /** The value under a key is the one paired with its first occurrence. */
  lemma {:induction false} GetFirst<V>(ms: seq<(string, V)>, k: string, i: nat)
    requires i < |ms| && ms[i].0 == k
    requires forall j :: 0 <= j < i ==> ms[j].0 != k
    ensures Get(ms, k) == Some(ms[i].1)
  {
    if i > 0 {
      GetFirst(ms[1..], k, i - 1);
    }
  }

  /** A key is in the object exactly when it is among its keys. */
  lemma {:induction false} HasIffInKeys<V>(ms: seq<(string, V)>, k: string)
    ensures Has(ms, k) <==> k in Keys(ms)
  {
    if |ms| > 0 {
      HasIffInKeys(ms[1..], k);
      assert Keys(ms) == [ms[0].0] + Keys(ms[1..]);
    }
  }

  /** Writing the value a key already holds changes nothing. */
  lemma {:induction false} PutSameValue<V>(ms: seq<(string, V)>, k: string, v: V)
    requires Get(ms, k) == Some(v)
    ensures Put(ms, k, v) == ms
  {
    if ms[0].0 != k {
      PutSameValue(ms[1..], k, v);
    }
  }

  /**
   * Writing two different keys one after the other: both hold their new
   * values, every other key keeps its own, the old keys keep their order and
   * only the two written keys can be new, at the end.
   */
  lemma PutTwo<V>(ms: seq<(string, V)>, k1: string, v1: V, k2: string, v2: V)
    requires k1 != k2
    ensures var out := Put(Put(ms, k1, v1), k2, v2);
      && Get(out, k1) == Some(v1)
      && Get(out, k2) == Some(v2)
      && (forall k :: k != k1 && k != k2 ==> Get(out, k) == Get(ms, k))
      && |ms| <= |out| <= |ms| + 2
      && Keys(out)[..|ms|] == Keys(ms)
      && (forall j :: |ms| <= j < |out| ==> Keys(out)[j] == k1 || Keys(out)[j] == k2)
  {
    PutTwoKeys(ms, k1, v1, k2, v2);
  }

  lemma PutTwoKeys<V>(ms: seq<(string, V)>, k1: string, v1: V, k2: string, v2: V)
    ensures var out := Put(Put(ms, k1, v1), k2, v2);
      && |ms| <= |out| <= |ms| + 2
      && Keys(out)[..|ms|] == Keys(ms)
      && (forall j :: |ms| <= j < |out| ==> Keys(out)[j] == k1 || Keys(out)[j] == k2)
  {
    var once := Put(ms, k1, v1);
    var out := Put(once, k2, v2);
    PutKeys(ms, k1, v1);
    PutKeys(once, k2, v2);
    GrowsByAtMostTwo(Keys(ms), Keys(once), Keys(out), k1, k2);
  }

  lemma GrowsByAtMostTwo<T>(a: seq<T>, b: seq<T>, c: seq<T>, x: T, y: T)
    requires b == a || b == a + [x]
    requires c == b || c == b + [y]
    ensures |a| <= |c| <= |a| + 2 && c[..|a|] == a
    ensures forall j :: |a| <= j < |c| ==> c[j] == x || c[j] == y
  {
  }

  /** Writing the same two keys again with the same values changes nothing. */
  lemma PutTwoAgain<V>(ms: seq<(string, V)>, k1: string, v1: V, k2: string, v2: V)
    requires k1 != k2
    ensures var out := Put(Put(ms, k1, v1), k2, v2);
      Put(Put(out, k1, v1), k2, v2) == out
  {
    var out := Put(Put(ms, k1, v1), k2, v2);
    PutTwo(ms, k1, v1, k2, v2);
    PutSameValue(out, k1, v1);
    PutSameValue(out, k2, v2);
  }
}
