/**
 * A Python dict with string keys, as the triage back end uses it: an
 * insertion-ordered list of key/value pairs. Assigning to a key that is
 * already present keeps its position; assigning to a new key appends it.
 */
module PyDict {
  import opened Wrappers

  datatype Pair<V> = Pair(key: string, val: V)

  function Keys<V>(d: seq<Pair<V>>): (ks: seq<string>)
    ensures |ks| == |d| && forall i :: 0 <= i < |d| ==> ks[i] == d[i].key
  {
    if d == [] then [] else [d[0].key] + Keys(d[1..])
  }

  predicate DistinctKeys<V>(d: seq<Pair<V>>) {
    forall i, j :: 0 <= i < j < |d| ==> d[i].key != d[j].key
  }

  /** `d.get(k)`: the value stored under k, or None when k is absent. */
  function Get<V>(d: seq<Pair<V>>, k: string): Option<V> {
    if d == [] then None
    else if d[0].key == k then Some(d[0].val)
    else Get(d[1..], k)
  }

  /** `d.get(k)` is None exactly when k is not a key. */
  lemma {:induction false} GetNone<V>(d: seq<Pair<V>>, k: string)
    ensures Get(d, k).None? <==> k !in Keys(d)
  {
    if d != [] && d[0].key != k {
      GetNone(d[1..], k);
    }
  }

  /** A value found under k is stored in a pair with key k. */
  lemma {:induction false} GetPair<V>(d: seq<Pair<V>>, k: string)
    requires Get(d, k).Some?
    ensures Pair(k, Get(d, k).value) in d
  {
    if d[0].key != k {
      GetPair(d[1..], k);
    }
  }

  /** `d[k] = v`. */
  function Put<V>(d: seq<Pair<V>>, k: string, v: V): (r: seq<Pair<V>>)
  {
    if d == [] then [Pair(k, v)]
    else if d[0].key == k then [Pair(k, v)] + d[1..]
    else [d[0]] + Put(d[1..], k, v)
  }

  /** A pair of a dict with distinct keys is found by its key. */
  lemma {:induction false} GetMember<V>(d: seq<Pair<V>>, i: nat)
    requires DistinctKeys(d) && i < |d|
    ensures Get(d, d[i].key) == Some(d[i].val)
  {
    if i > 0 {
      assert d[0].key != d[i].key;
      GetMember(d[1..], i - 1);
    }
  }

  /** Assigning a key keeps the other keys in place and appends a new key at the end. */
  lemma {:induction false} PutKeys<V>(d: seq<Pair<V>>, k: string, v: V)
    ensures Keys(Put(d, k, v)) == if k in Keys(d) then Keys(d) else Keys(d) + [k]
  {
    if d != [] && d[0].key != k {
      PutKeys(d[1..], k, v);
      assert k in Keys(d) <==> k in Keys(d[1..]);
    }
  }

  /** After `d[k] = v`, k maps to v and every other key keeps its value. */
  lemma {:induction false} PutGet<V>(d: seq<Pair<V>>, k: string, v: V, k': string)
    ensures Get(Put(d, k, v), k') == if k' == k then Some(v) else Get(d, k')
  {
    if d != [] && d[0].key != k {
      PutGet(d[1..], k, v, k');
    }
  }

  /** Assignment never creates a duplicate key. */
  lemma {:induction false} PutDistinct<V>(d: seq<Pair<V>>, k: string, v: V)
    requires DistinctKeys(d)
    ensures DistinctKeys(Put(d, k, v))
  {
    PutKeys(d, k, v);
    var r := Put(d, k, v);
    var ks := Keys(r);
    if k in Keys(d) {
      assert Keys(r) == Keys(d);
    } else {
      assert Keys(r) == Keys(d) + [k];
    }
    forall i, j | 0 <= i < j < |r| ensures r[i].key != r[j].key {
      assert ks[i] == r[i].key && ks[j] == r[j].key;
    }
  }

  lemma {:induction false} KeysSnoc<V>(s: seq<Pair<V>>, x: Pair<V>)
    ensures Keys(s + [x]) == Keys(s) + [x.key]
  {
    if s != [] {
      KeysSnoc(s[1..], x);
      assert (s + [x])[1..] == s[1..] + [x];
    }
  }

  /** The keys in the order they first appear: the order a dict records them in. */
  function FirstOccurrences(ks: seq<string>): seq<string> {
    if ks == [] then []
    else
      var p := FirstOccurrences(ks[..|ks| - 1]);
      if ks[|ks| - 1] in p then p else p + [ks[|ks| - 1]]
  }

  lemma {:induction false} FirstOccurrencesSame(ks: seq<string>)
    ensures forall k :: k in FirstOccurrences(ks) <==> k in ks
  {
    if ks != [] {
      FirstOccurrencesSame(ks[..|ks| - 1]);
      assert ks == ks[..|ks| - 1] + [ks[|ks| - 1]];
    }
  }

  lemma {:induction false} FirstOccurrencesSnoc(ks: seq<string>, k: string)
    ensures FirstOccurrences(ks + [k]) ==
      if k in FirstOccurrences(ks) then FirstOccurrences(ks) else FirstOccurrences(ks) + [k]
  {
    assert (ks + [k])[..|ks + [k]| - 1] == ks;
  }

  /** Sum of the counts of a counter dict. */
  function Total(d: seq<Pair<nat>>): nat {
    if d == [] then 0 else d[0].val + Total(d[1..])
  }

  function GetOr0(d: seq<Pair<nat>>, k: string): nat {
    match Get(d, k)
    case Some(c) => c
    case None => 0
  }

  /** Replacing the count of k changes the total by the difference. */
  lemma {:induction false} PutTotal(d: seq<Pair<nat>>, k: string, v: nat)
    ensures Total(Put(d, k, v)) + GetOr0(d, k) == Total(d) + v
  {
    if d != [] && d[0].key != k {
      PutTotal(d[1..], k, v);
    }
  }
}
