/** JSON values as Jackson's tree model holds them, and the insertion-ordered
    maps (LinkedHashMap) that `toMap()` builds from a list of pairs. */
module Values {
  import opened Base

  datatype Json =
    | JNull
    | JBool(b: bool)
    | JNum(n: int)                         // a long or int node
    | JFloat(code: int)                    // a float or double node, kept opaque
    | JString(str: string)
    | JArray(items: seq<Json>)
    | JObject(fields: seq<(string, Json)>) // an object node, in insertion order

  /** An insertion-ordered map from names to JSON values, as a list of entries. */
  type Entries = seq<(string, Json)>

  /** The names of a list of named things. */
  function KeysOf<V>(es: seq<(string, V)>): set<string> {
    if |es| == 0 then {} else {es[0].0} + KeysOf(es[1..])
  }

  /** No name occurs twice. */
  predicate DistinctKeys<V>(es: seq<(string, V)>) {
    |es| == 0 || (es[0].0 !in KeysOf(es[1..]) && DistinctKeys(es[1..]))
  }

  /** Two lists whose names agree position by position have the same names. */
  lemma {:induction false} SameKeys<V, W>(a: seq<(string, V)>, b: seq<(string, W)>)
    requires |a| == |b|
    requires forall i :: 0 <= i < |a| ==> a[i].0 == b[i].0
    ensures KeysOf(a) == KeysOf(b)
  {
    if |a| > 0 { SameKeys(a[1..], b[1..]); }
  }

  /** The names, as the set of every entry's name. */
  lemma {:induction false} KeysOfIsNames<V>(es: seq<(string, V)>)
    ensures KeysOf(es) == set i | 0 <= i < |es| :: es[i].0
  {
    if |es| > 0 {
      KeysOfIsNames(es[1..]);
      var tail := set i | 0 <= i < |es[1..]| :: es[1..][i].0;
      var all := set i | 0 <= i < |es| :: es[i].0;
      forall k | k in all ensures k in {es[0].0} + tail {
        var i :| 0 <= i < |es| && es[i].0 == k;
        if i > 0 { assert es[1..][i - 1].0 == k; }
      }
      forall k | k in tail ensures k in all {
        var i :| 0 <= i < |es[1..]| && es[1..][i].0 == k;
        assert es[i + 1].0 == k;
      }
    }
  }

  lemma KeyInKeysOf<V>(es: seq<(string, V)>, i: int)
    requires 0 <= i < |es|
    ensures es[i].0 in KeysOf(es)
  {
    KeysOfIsNames(es);
  }

  /** The value stored under `k`, looked up from the front. */
  function Get(es: Entries, k: string): (r: Option<Json>)
    ensures r.Some? <==> k in KeysOf(es)
  {
    if |es| == 0 then None
    else if es[0].0 == k then Some(es[0].1)
    else Get(es[1..], k)
  }

  /** LinkedHashMap.put: a present key keeps its position and takes the new value; a new key goes last. */
  function Put(es: Entries, k: string, v: Json): Entries {
    if |es| == 0 then [(k, v)]
    else if es[0].0 == k then [(k, v)] + es[1..]
    else [es[0]] + Put(es[1..], k, v)
  }

  /** A put maps the key to the new value and leaves every other key's value alone; it
      adds the key to the key set, keeps keys distinct, and appends a new key at the end. */
  lemma {:induction false} PutFacts(es: Entries, k: string, v: Json)
    ensures Get(Put(es, k, v), k) == Some(v)
    ensures forall k' :: k' != k ==> Get(Put(es, k, v), k') == Get(es, k')
    ensures KeysOf(Put(es, k, v)) == KeysOf(es) + {k}
    ensures forall e :: e in Put(es, k, v) ==> e in es || e == (k, v)
    ensures DistinctKeys(es) ==> DistinctKeys(Put(es, k, v))
    ensures |Put(es, k, v)| == if k in KeysOf(es) then |es| else |es| + 1
    ensures k !in KeysOf(es) ==> Put(es, k, v) == es + [(k, v)]
  {
    if |es| > 0 {
      var r := Put(es, k, v);
      if es[0].0 == k {
        assert r[1..] == es[1..];
      } else {
        PutFacts(es[1..], k, v);
        assert r[1..] == Put(es[1..], k, v);
        if k !in KeysOf(es) {
          assert es == [es[0]] + es[1..];
        }
      }
    }
  }

  /** The value of the last pair named `k`: the one `toMap()` keeps. */
  function LastValue(ps: Entries, k: string): Option<Json> {
    if |ps| == 0 then None
    else match LastValue(ps[1..], k)
      case Some(v) => Some(v)
      case None => if ps[0].0 == k then Some(ps[0].1) else None
  }

  /** Puts the pairs into `acc` from first to last. */
  function PutAll(acc: Entries, ps: Entries): Entries
    decreases |ps|
  {
    if |ps| == 0 then acc else PutAll(Put(acc, ps[0].0, ps[0].1), ps[1..])
  }

  /** Kotlin's `Iterable<Pair>.toMap()`: a fresh LinkedHashMap filled from the first pair to the last. */
  function ToMap(ps: Entries): Entries {
    PutAll([], ps)
  }

  lemma {:induction false} PutAllFacts(acc: Entries, ps: Entries)
    ensures KeysOf(PutAll(acc, ps)) == KeysOf(acc) + KeysOf(ps)
    ensures DistinctKeys(acc) ==> DistinctKeys(PutAll(acc, ps))
    ensures |PutAll(acc, ps)| <= |acc| + |ps|
    ensures forall k :: Get(PutAll(acc, ps), k) == if k in KeysOf(ps) then LastValue(ps, k) else Get(acc, k)
    ensures forall e :: e in PutAll(acc, ps) ==> e in acc || e in ps
    decreases |ps|
  {
    if |ps| > 0 {
      PutFacts(acc, ps[0].0, ps[0].1);
      PutAllFacts(Put(acc, ps[0].0, ps[0].1), ps[1..]);
      forall k ensures LastValue(ps[1..], k).Some? <==> k in KeysOf(ps[1..]) {
        LastValueSome(ps[1..], k);
      }
    }
  }

  lemma {:induction false} LastValueSome(ps: Entries, k: string)
    ensures LastValue(ps, k).Some? <==> k in KeysOf(ps)
  {
    if |ps| > 0 { LastValueSome(ps[1..], k); }
  }

  /** The keys of `toMap()` are exactly the names of the pairs, each once, and a key maps to its last value. */
  lemma ToMapKeys(ps: Entries)
    ensures KeysOf(ToMap(ps)) == KeysOf(ps)
    ensures DistinctKeys(ToMap(ps))
    ensures |ToMap(ps)| <= |ps|
    ensures forall k :: Get(ToMap(ps), k) == LastValue(ps, k)
    ensures forall e :: e in ToMap(ps) ==> e in ps
  {
    PutAllFacts([], ps);
    forall k ensures Get(ToMap(ps), k) == LastValue(ps, k) {
      LastValueSome(ps, k);
    }
  }

  /** A list of pairs whose names are already distinct comes out of `toMap()` unchanged, order included. */
  lemma ToMapOfDistinct(ps: Entries)
    requires DistinctKeys(ps)
    ensures ToMap(ps) == ps
  {
    PutAllOfDistinct([], ps);
  }

  lemma {:induction false} PutAllOfDistinct(acc: Entries, ps: Entries)
    requires DistinctKeys(ps)
    requires KeysOf(acc) !! KeysOf(ps)
    ensures PutAll(acc, ps) == acc + ps
    decreases |ps|
  {
    if |ps| > 0 {
      PutNewKey(acc, ps);
      PutAllOfDistinct(acc + [ps[0]], ps[1..]);
      assert acc + [ps[0]] + ps[1..] == acc + ps;
    }
  }

  /** One step of `PutAllOfDistinct`: a pair with a new name goes to the end. */
  lemma PutNewKey(acc: Entries, ps: Entries)
    requires |ps| > 0 && DistinctKeys(ps)
    requires KeysOf(acc) !! KeysOf(ps)
    ensures PutAll(acc, ps) == PutAll(acc + [ps[0]], ps[1..])
    ensures KeysOf(acc + [ps[0]]) !! KeysOf(ps[1..]) && DistinctKeys(ps[1..])
  {
    assert KeysOf(ps) == {ps[0].0} + KeysOf(ps[1..]);
    PutFacts(acc, ps[0].0, ps[0].1);
  }
}
