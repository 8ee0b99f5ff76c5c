/**
 * The hybrid recommendation merge shared by main_combined.py and model.py:
 * a dict accumulates 0.6 x the semantic confidence and 0.4 x the ML
 * confidence per department, its items are sorted by score, descending and
 * stably, and the first three are kept. Also the selection of the
 * classifier's three most probable classes.
 */
module HybridMerge {
  import opened Wrappers
  import opened PyDict

  /** A (department, confidence in percent) item. */
  type Scored = Pair<real>

  const SemanticWeight: real := 0.6
  const MlWeight: real := 0.4

  function Min(a: int, b: int): int {
    if a <= b then a else b
  }

  /** The last semantic confidence listed for d; later items overwrite earlier ones. */
  function LastScore(s: seq<Scored>, d: string): Option<real> {
    if s == [] then None
    else if s[|s| - 1].key == d then Some(s[|s| - 1].val)
    else LastScore(s[..|s| - 1], d)
  }

  /** d has a semantic confidence exactly when it is listed. */
  lemma {:induction false} LastScoreSome(s: seq<Scored>, d: string)
    ensures LastScore(s, d).Some? <==> d in Keys(s)
  {
    if s != [] {
      LastScoreSome(s[..|s| - 1], d);
      KeysSnoc(s[..|s| - 1], s[|s| - 1]);
      assert s == s[..|s| - 1] + [s[|s| - 1]];
    }
  }

  /** The sum of the ML confidences listed for d. */
  function ScoreSum(s: seq<Scored>, d: string): real {
    if s == [] then 0.0
    else ScoreSum(s[..|s| - 1], d) + (if s[|s| - 1].key == d then s[|s| - 1].val else 0.0)
  }

  /** The merged score of d: 0.6 x its semantic confidence (0 if absent) + 0.4 x its ML confidences. */
  function CombinedScore(semantic: seq<Scored>, ml: seq<Scored>, d: string): real {
    (match LastScore(semantic, d)
     case Some(x) => SemanticWeight * x
     case None => 0.0)
    + MlWeight * ScoreSum(ml, d)
  }

  /** What the dict maps a department to once the items of both lists are in. */
  ghost predicate MergedFrom(combined: seq<Scored>, semantic: seq<Scored>, ml: seq<Scored>) {
    && DistinctKeys(combined)
    && Keys(combined) == FirstOccurrences(Keys(semantic) + Keys(ml))
    && forall d :: Get(combined, d) == MergedValue(semantic, ml, d)
  }

  /** The merged dict's entry for d: present exactly when d is listed in either input. */
  function MergedValue(semantic: seq<Scored>, ml: seq<Scored>, d: string): Option<real> {
    if d in Keys(semantic) + Keys(ml) then Some(CombinedScore(semantic, ml, d)) else None
  }

  /** The dict after the semantic items done. */
  ghost predicate SemanticLoop(combined: seq<Scored>, done: seq<Scored>) {
    && DistinctKeys(combined)
    && Keys(combined) == FirstOccurrences(Keys(done))
    && forall d :: Get(combined, d) == SemanticOnly(done, d)
  }

  /** The dict after the semantic loop alone. */
  function SemanticOnly(semantic: seq<Scored>, d: string): Option<real> {
    match LastScore(semantic, d)
    case Some(x) => Some(x * SemanticWeight)
    case None => None
  }

  lemma {:induction false} ScoreSumAbsent(s: seq<Scored>, d: string)
    requires d !in Keys(s)
    ensures ScoreSum(s, d) == 0.0
  {
    if s != [] {
      KeysSnoc(s[..|s| - 1], s[|s| - 1]);
      assert s == s[..|s| - 1] + [s[|s| - 1]];
      ScoreSumAbsent(s[..|s| - 1], d);
    }
  }

  /** Appending an item to a list appends its key to the first occurrences, unless already there. */
  lemma KeysStep(combined: seq<Scored>, before: seq<string>, k: string, v: real)
    requires Keys(combined) == FirstOccurrences(before)
    ensures Keys(Put(combined, k, v)) == FirstOccurrences(before + [k])
  {
    FirstOccurrencesSame(before);
    FirstOccurrencesSnoc(before, k);
    PutKeys(combined, k, v);
  }

  lemma LastScoreSnoc(pre: seq<Scored>, item: Scored, d: string)
    ensures LastScore(pre + [item], d) == if item.key == d then Some(item.val) else LastScore(pre, d)
  {
    assert (pre + [item])[..|pre|] == pre;
  }

  lemma ScoreSumSnoc(pre: seq<Scored>, item: Scored, d: string)
    ensures ScoreSum(pre + [item], d) == ScoreSum(pre, d) + if item.key == d then item.val else 0.0
  {
    assert (pre + [item])[..|pre|] == pre;
  }

  /** `combined[d] = semantic * 0.6` keeps the loop's description true for one more item. */
  lemma SemanticStep(combined: seq<Scored>, done: seq<Scored>, item: Scored)
    requires SemanticLoop(combined, done)
    ensures SemanticLoop(Put(combined, item.key, item.val * SemanticWeight), done + [item])
  {
    var v := item.val * SemanticWeight;
    PutDistinct(combined, item.key, v);
    KeysSnoc(done, item);
    KeysStep(combined, Keys(done), item.key, v);
    SemanticValuesStep(combined, done, item);
  }

  /** The values half of SemanticStep. */
  lemma SemanticValuesStep(combined: seq<Scored>, pre: seq<Scored>, item: Scored)
    requires forall d :: Get(combined, d) == SemanticOnly(pre, d)
    ensures forall d :: Get(Put(combined, item.key, item.val * SemanticWeight), d) == SemanticOnly(pre + [item], d)
  {
    forall d ensures Get(Put(combined, item.key, item.val * SemanticWeight), d) == SemanticOnly(pre + [item], d) {
      SemanticValueAt(combined, pre, item, d);
    }
  }

  lemma SemanticValueAt(combined: seq<Scored>, pre: seq<Scored>, item: Scored, d: string)
    requires Get(combined, d) == SemanticOnly(pre, d)
    ensures Get(Put(combined, item.key, item.val * SemanticWeight), d) == SemanticOnly(pre + [item], d)
  {
    PutGet(combined, item.key, item.val * SemanticWeight, d);
    LastScoreSnoc(pre, item, d);
  }

  /** `combined[d] = combined.get(d, 0) + ml * 0.4` keeps the loop's description true for one more item. */
  lemma MlStep(combined: seq<Scored>, semantic: seq<Scored>, done: seq<Scored>, item: Scored, v: real)
    requires MergedFrom(combined, semantic, done)
    requires v == AddedMl(Get(combined, item.key), item.val)
    ensures MergedFrom(Put(combined, item.key, v), semantic, done + [item])
  {
    PutDistinct(combined, item.key, v);
    MlKeysStep(combined, semantic, done, item, v);
    MlValuesStep(combined, semantic, done, item, v);
  }

  /** The keys half of MlStep. */
  lemma MlKeysStep(combined: seq<Scored>, semantic: seq<Scored>, done: seq<Scored>, item: Scored, v: real)
    requires Keys(combined) == FirstOccurrences(Keys(semantic) + Keys(done))
    ensures Keys(Put(combined, item.key, v)) == FirstOccurrences(Keys(semantic) + Keys(done + [item]))
  {
    KeysSnoc(done, item);
    assert Keys(semantic) + Keys(done + [item]) == (Keys(semantic) + Keys(done)) + [item.key];
    KeysStep(combined, Keys(semantic) + Keys(done), item.key, v);
  }

  /** The values half of MlStep. */
  lemma MlValuesStep(combined: seq<Scored>, semantic: seq<Scored>, done: seq<Scored>, item: Scored, v: real)
    requires forall d :: Get(combined, d) == MergedValue(semantic, done, d)
    requires v == AddedMl(Get(combined, item.key), item.val)
    ensures forall d :: Get(Put(combined, item.key, v), d) == MergedValue(semantic, done + [item], d)
  {
    forall d ensures Get(Put(combined, item.key, v), d) == MergedValue(semantic, done + [item], d) {
      PutGet(combined, item.key, v, d);
      if d == item.key {
        MlValueStep(semantic, done, item, Get(combined, d));
      } else {
        MlOtherStep(semantic, done, item, d);
      }
    }
  }

  /** `combined.get(d, 0) + ml * 0.4`. */
  function AddedMl(current: Option<real>, confidence: real): real {
    match current
    case Some(x) => x + confidence * MlWeight
    case None => confidence * MlWeight
  }

  lemma MlValueStep(semantic: seq<Scored>, pre: seq<Scored>, item: Scored, current: Option<real>)
    requires current == MergedValue(semantic, pre, item.key)
    ensures Some(AddedMl(current, item.val)) == MergedValue(semantic, pre + [item], item.key)
  {
    KeysSnoc(pre, item);
    CombinedSnoc(semantic, pre, item);
    if current.None? {
      ScoreSumAbsent(pre, item.key);
      LastScoreSome(semantic, item.key);
    }
  }

  /** One more ML item for d adds 0.4 x its confidence to d's merged score. */
  lemma CombinedSnoc(semantic: seq<Scored>, pre: seq<Scored>, item: Scored)
    ensures CombinedScore(semantic, pre + [item], item.key) == CombinedScore(semantic, pre, item.key) + item.val * MlWeight
  {
    ScoreSumSnoc(pre, item, item.key);
  }

  lemma MlOtherStep(semantic: seq<Scored>, pre: seq<Scored>, item: Scored, d: string)
    requires d != item.key
    ensures MergedValue(semantic, pre, d) == MergedValue(semantic, pre + [item], d)
  {
    KeysSnoc(pre, item);
    ScoreSumSnoc(pre, item, d);
  }

  lemma TakeOneMore<T>(s: seq<T>, i: nat)
    requires i < |s|
    ensures s[..i + 1] == s[..i] + [s[i]]
  {
  }

  /** After the semantic loop the dict describes the merge of the semantic items with no ML items. */
  lemma SemanticThenMl(combined: seq<Scored>, semantic: seq<Scored>)
    requires SemanticLoop(combined, semantic)
    ensures MergedFrom(combined, semantic, [])
  {
    var none: seq<Scored> := [];
    assert Keys(semantic) + Keys(none) == Keys(semantic);
    forall d ensures Get(combined, d) == MergedValue(semantic, none, d) {
      LastScoreSome(semantic, d);
    }
  }

  /**
   * The two loops of the merge: `combined[d] = semantic * 0.6` for each
   * semantic item, then `combined[d] = combined.get(d, 0) + ml * 0.4` for each
   * ML item.
   */
  method MergeScores(semantic: seq<Scored>, ml: seq<Scored>) returns (combined: seq<Scored>)
    ensures MergedFrom(combined, semantic, ml)
  {
    combined := [];
    assert semantic[..0] == [];
    for i := 0 to |semantic|
      invariant SemanticLoop(combined, semantic[..i])
    {
      TakeOneMore(semantic, i);
      SemanticStep(combined, semantic[..i], semantic[i]);
      combined := Put(combined, semantic[i].key, semantic[i].val * SemanticWeight);
    }
    assert semantic[..|semantic|] == semantic;
    assert ml[..0] == [];
    SemanticThenMl(combined, semantic);
    for j := 0 to |ml|
      invariant MergedFrom(combined, semantic, ml[..j])
    {
      var item := ml[j];
      var v := AddedMl(Get(combined, item.key), item.val);
      TakeOneMore(ml, j);
      MlStep(combined, semantic, ml[..j], item, v);
      combined := Put(combined, item.key, v);
    }
    assert ml[..|ml|] == ml;
  }

  /** Scores never increase along s. */
  predicate NonIncreasing(s: seq<Scored>) {
    forall i, j :: 0 <= i < j < |s| ==> s[i].val >= s[j].val
  }

  /** Inserts x before the first item that does not beat it, so x precedes its ties. */
  function InsertByScore(x: Scored, s: seq<Scored>): (r: seq<Scored>)
    ensures |r| == |s| + 1
  {
    if s == [] || s[0].val <= x.val then [x] + s
    else [s[0]] + InsertByScore(x, s[1..])
  }

  /** `sorted(items, key=score, reverse=True)`: Python's sort is stable also in reverse. */
  function SortByScore(s: seq<Scored>): (r: seq<Scored>)
    ensures |r| == |s|
  {
    if s == [] then [] else InsertByScore(s[0], SortByScore(s[1..]))
  }

  /** The items of s whose score is v, in order. */
  function WithScore(s: seq<Scored>, v: real): seq<Scored> {
    if s == [] then []
    else (if s[0].val == v then [s[0]] else []) + WithScore(s[1..], v)
  }

  lemma {:induction false} InsertPermutes(x: Scored, s: seq<Scored>)
    ensures multiset(InsertByScore(x, s)) == multiset(s) + multiset{x}
  {
    if s != [] && s[0].val > x.val {
      InsertPermutes(x, s[1..]);
      assert s == [s[0]] + s[1..];
    }
  }

  /** A head scoring at least every item of a sorted tail keeps the list sorted. */
  lemma ConsSorted(h: Scored, t: seq<Scored>)
    requires NonIncreasing(t)
    requires forall k :: 0 <= k < |t| ==> t[k].val <= h.val
    ensures NonIncreasing([h] + t)
  {
  }

  lemma {:induction false} InsertSorted(x: Scored, s: seq<Scored>)
    requires NonIncreasing(s)
    ensures NonIncreasing(InsertByScore(x, s))
  {
    if s != [] && s[0].val > x.val {
      var t := InsertByScore(x, s[1..]);
      InsertSorted(x, s[1..]);
      InsertPermutes(x, s[1..]);
      forall k | 0 <= k < |t| ensures t[k].val <= s[0].val {
        assert t[k] in multiset(t);
        if t[k] != x {
          var i :| 0 <= i < |s[1..]| && s[1..][i] == t[k];
          assert s[i + 1] == t[k];
        }
      }
      ConsSorted(s[0], t);
    }
  }

  lemma {:induction false} InsertStable(x: Scored, s: seq<Scored>, v: real)
    ensures WithScore(InsertByScore(x, s), v) == WithScore([x] + s, v)
  {
    if s != [] && s[0].val > x.val {
      InsertStable(x, s[1..], v);
      assert ([x] + s)[1..] == s;
      assert ([x] + s[1..])[1..] == s[1..];
    }
  }

  /** The sort orders by score, permutes its input and keeps tied items in their input order. */
  lemma {:induction false} SortCorrect(s: seq<Scored>)
    ensures NonIncreasing(SortByScore(s))
    ensures multiset(SortByScore(s)) == multiset(s)
    ensures forall v :: WithScore(SortByScore(s), v) == WithScore(s, v)
  {
    SortSorted(s);
    SortPermutes(s);
    forall v ensures WithScore(SortByScore(s), v) == WithScore(s, v) {
      SortStable(s, v);
    }
  }

  lemma {:induction false} SortSorted(s: seq<Scored>)
    ensures NonIncreasing(SortByScore(s))
  {
    if s != [] {
      SortSorted(s[1..]);
      InsertSorted(s[0], SortByScore(s[1..]));
    }
  }

  lemma {:induction false} SortPermutes(s: seq<Scored>)
    ensures multiset(SortByScore(s)) == multiset(s)
  {
    if s != [] {
      SortPermutes(s[1..]);
      InsertPermutes(s[0], SortByScore(s[1..]));
      assert s == [s[0]] + s[1..];
    }
  }

  lemma {:induction false} SortStable(s: seq<Scored>, v: real)
    ensures WithScore(SortByScore(s), v) == WithScore(s, v)
  {
    if s != [] {
      SortStable(s[1..], v);
      InsertStable(s[0], SortByScore(s[1..]), v);
      assert s == [s[0]] + s[1..];
    }
  }

  lemma {:induction false} WithScorePrefix(s: seq<Scored>, n: nat, v: real)
    requires n <= |s|
    ensures WithScore(s[..n], v) <= WithScore(s, v)
  {
    if n > 0 {
      WithScorePrefix(s[1..], n - 1, v);
      assert s[..n][1..] == s[1..][..n - 1];
    }
  }

  /** Dropping the tail of a sorted list drops no item that beats one kept. */
  lemma PrefixDominates(sorted: seq<Scored>, n: nat)
    requires n <= |sorted| && NonIncreasing(sorted)
    ensures forall e :: e in sorted && e !in sorted[..n] ==> forall t :: t in sorted[..n] ==> e.val <= t.val
  {
    forall e | e in sorted && e !in sorted[..n] ensures forall t :: t in sorted[..n] ==> e.val <= t.val {
      var j :| 0 <= j < |sorted| && sorted[j] == e;
      assert forall q :: 0 <= q < n ==> sorted[q] in sorted[..n];
      assert n <= j;
      forall t | t in sorted[..n] ensures e.val <= t.val {
        var i :| 0 <= i < n && sorted[..n][i] == t;
      }
    }
  }

  /** The first n items of the sorted list, with everything Top3 promises. */
  lemma SortedPrefix(s: seq<Scored>, n: nat)
    requires n <= |s|
    ensures NonIncreasing(SortByScore(s)[..n])
    ensures multiset(SortByScore(s)[..n]) <= multiset(s)
    ensures forall e :: e in s && e !in SortByScore(s)[..n] ==> forall t :: t in SortByScore(s)[..n] ==> e.val <= t.val
    ensures forall v :: WithScore(SortByScore(s)[..n], v) <= WithScore(s, v)
  {
    SortCorrect(s);
    PrefixOfPermutation(SortByScore(s), s, n);
    PrefixDominates(SortByScore(s), n);
    forall v ensures WithScore(SortByScore(s)[..n], v) <= WithScore(s, v) {
      WithScorePrefix(SortByScore(s), n, v);
    }
  }

  /** A prefix of a permutation of s takes its items from s, and everything in s is in the permutation. */
  lemma PrefixOfPermutation(sorted: seq<Scored>, s: seq<Scored>, n: nat)
    requires multiset(sorted) == multiset(s) && n <= |sorted|
    ensures multiset(sorted[..n]) <= multiset(s)
    ensures forall e :: e in s ==> e in sorted
  {
    assert sorted == sorted[..n] + sorted[n..];
    assert multiset(sorted) == multiset(sorted[..n]) + multiset(sorted[n..]);
    forall e | e in s ensures e in sorted {
      assert e in multiset(sorted);
    }
  }

  /**
   * `sorted(...)[:3]`: at most three items, highest scores first, taken from
   * s, no item left out beats one kept, and among tied items the earliest
   * ones of s are kept, in their order.
   */
  function Top3(s: seq<Scored>): (r: seq<Scored>)
    ensures |r| == Min(3, |s|)
    ensures NonIncreasing(r)
    ensures multiset(r) <= multiset(s)
    ensures forall e :: e in s && e !in r ==> forall t :: t in r ==> e.val <= t.val
    ensures forall v :: WithScore(r, v) <= WithScore(s, v)
  {
    SortedPrefix(s, Min(3, |s|));
    SortByScore(s)[..Min(3, |s|)]
  }

  /**
   * The properties of the top three of a merged dict: at most three
   * departments, each from one of the two lists with its merged score, in
   * non-increasing order, none of the departments left out scoring higher.
   */
  lemma TopOfMerged(combined: seq<Scored>, semantic: seq<Scored>, ml: seq<Scored>)
    requires MergedFrom(combined, semantic, ml)
    ensures var top := Top3(combined);
      && |top| == Min(3, |FirstOccurrences(Keys(semantic) + Keys(ml))|)
      && NonIncreasing(top)
      && DistinctKeys(top)
      && (forall e :: e in top ==>
            e.key in Keys(semantic) + Keys(ml) && e.val == CombinedScore(semantic, ml, e.key))
      && (forall d :: d in Keys(semantic) + Keys(ml) && d !in Keys(top) ==>
            forall e :: e in top ==> CombinedScore(semantic, ml, d) <= e.val)
  {
    TopScores(combined, semantic, ml);
    TopDistinct(combined, semantic, ml);
    TopDominates(combined, semantic, ml);
  }

  lemma TopScores(combined: seq<Scored>, semantic: seq<Scored>, ml: seq<Scored>)
    requires MergedFrom(combined, semantic, ml)
    ensures forall e :: e in Top3(combined) ==>
      e.key in Keys(semantic) + Keys(ml) && e.val == CombinedScore(semantic, ml, e.key)
  {
    var top := Top3(combined);
    forall e | e in top
      ensures e.key in Keys(semantic) + Keys(ml) && e.val == CombinedScore(semantic, ml, e.key)
    {
      assert e in multiset(combined);
      var i :| 0 <= i < |combined| && combined[i] == e;
      GetMember(combined, i);
    }
  }

  lemma TopDistinct(combined: seq<Scored>, semantic: seq<Scored>, ml: seq<Scored>)
    requires MergedFrom(combined, semantic, ml)
    ensures DistinctKeys(Top3(combined))
  {
    var top := Top3(combined);
    TopScores(combined, semantic, ml);
    forall i, j | 0 <= i < j < |top| ensures top[i].key != top[j].key {
      if top[i].key == top[j].key {
        assert top[i] in top && top[j] in top;
        assert top[i] == top[j];
        TwoCopies(top, i, j);
        assert multiset(top)[top[i]] <= multiset(combined)[top[i]];
        var ii :| 0 <= ii < |combined| && combined[ii] == top[i];
        OneCopy(combined, ii);
      }
    }
  }

  lemma TopDominates(combined: seq<Scored>, semantic: seq<Scored>, ml: seq<Scored>)
    requires MergedFrom(combined, semantic, ml)
    ensures forall d :: d in Keys(semantic) + Keys(ml) && d !in Keys(Top3(combined)) ==>
      forall e :: e in Top3(combined) ==> CombinedScore(semantic, ml, d) <= e.val
  {
    var top := Top3(combined);
    forall d | d in Keys(semantic) + Keys(ml) && d !in Keys(top)
      ensures forall e :: e in top ==> CombinedScore(semantic, ml, d) <= e.val
    {
      assert Get(combined, d).Some?;
      GetPair(combined, d);
      var x := Pair(d, CombinedScore(semantic, ml, d));
      assert x in combined;
      forall k | 0 <= k < |top| ensures top[k] != x {
        assert Keys(top)[k] in Keys(top);
      }
    }
  }

  lemma TwoCopies(s: seq<Scored>, i: nat, j: nat)
    requires i < j < |s| && s[i] == s[j]
    ensures multiset(s)[s[i]] >= 2
  {
    assert s == s[..i] + [s[i]] + s[i + 1..j] + [s[j]] + s[j + 1..];
  }

  lemma OneCopy(s: seq<Scored>, i: nat)
    requires DistinctKeys(s) && i < |s|
    ensures multiset(s)[s[i]] == 1
  {
    assert s == s[..i] + [s[i]] + s[i + 1..];
    assert s[i] !in s[..i] && s[i] !in s[i + 1..];
  }

  /**
   * chosen lists the indices of the k highest probabilities (all of them
   * when there are fewer), distinct, highest first, and every index left out
   * has a probability no higher than any chosen one.
   */
  predicate TopChoice(probs: seq<real>, k: nat, chosen: seq<nat>) {
    && |chosen| == Min(k, |probs|)
    && (forall t :: 0 <= t < |chosen| ==> chosen[t] < |probs|)
    && (forall t, u :: 0 <= t < u < |chosen| ==> chosen[t] != chosen[u])
    && (forall t, u :: 0 <= t < u < |chosen| ==> probs[chosen[t]] >= probs[chosen[u]])
    && (forall i, t :: 0 <= i < |probs| && i !in chosen && 0 <= t < |chosen| ==> probs[i] <= probs[chosen[t]])
  }

  /**
   * `np.argsort(probs)[::-1][:k]`: the indices of the k highest
   * probabilities, highest first; every index left out has a probability no
   * higher than any index chosen. The order among equal probabilities is
   * not fixed by numpy and not promised here.
   */
  method TopIndices(probs: seq<real>, k: nat) returns (chosen: seq<nat>)
    ensures TopChoice(probs, k, chosen)
  {
    chosen := [];
    var rest: seq<nat> := seq(|probs|, i requires 0 <= i < |probs| => i);
    var n := Min(k, |probs|);
    forall i | 0 <= i < |probs| ensures i in rest {
      assert rest[i] == i;
    }
    while |chosen| < n
      invariant |chosen| <= n
      invariant |chosen| + |rest| == |probs|
      invariant forall t :: 0 <= t < |chosen| ==> chosen[t] < |probs|
      invariant forall q :: 0 <= q < |rest| ==> rest[q] < |probs|
      invariant forall q, r :: 0 <= q < r < |rest| ==> rest[q] != rest[r]
      invariant forall i :: 0 <= i < |probs| ==> (i in chosen <==> i !in rest)
      invariant forall t, u :: 0 <= t < u < |chosen| ==> chosen[t] != chosen[u]
      invariant forall t, u :: 0 <= t < u < |chosen| ==> probs[chosen[t]] >= probs[chosen[u]]
      invariant forall i, t :: 0 <= i < |probs| && i !in chosen && 0 <= t < |chosen| ==> probs[i] <= probs[chosen[t]]
      decreases n - |chosen|
    {
      var p := MaxPosition(probs, rest);
      var best := rest[p];
      assert best !in chosen;
      forall q | 0 <= q < |rest| && q != p ensures rest[q] != best {
        if q < p { assert rest[q] != rest[p]; } else { assert rest[p] != rest[q]; }
      }
      rest := rest[..p] + rest[p + 1..];
      chosen := chosen + [best];
    }
  }

  /** The position in rest of the first highest probability among the indices it lists. */
  method MaxPosition(probs: seq<real>, rest: seq<nat>) returns (p: nat)
    requires |rest| > 0
    requires forall q :: 0 <= q < |rest| ==> rest[q] < |probs|
    ensures p < |rest|
    ensures forall q :: 0 <= q < |rest| ==> probs[rest[q]] <= probs[rest[p]]
    ensures forall q :: 0 <= q < p ==> probs[rest[q]] < probs[rest[p]]
  {
    p := 0;
    for q := 1 to |rest|
      invariant p < q
      invariant forall r :: 0 <= r < q ==> probs[rest[r]] <= probs[rest[p]]
      invariant forall r :: 0 <= r < p ==> probs[rest[r]] < probs[rest[p]]
    {
      if probs[rest[q]] > probs[rest[p]] {
        p := q;
      }
    }
  }

  /** One hit of the FAISS query: the position of a stored vector and its normalised confidence in percent. */
  datatype Neighbour = Neighbour(index: int, confidence: real)

  /** The hits all name one of the stored department vectors. */
  predicate HitsInRange(hits: seq<Neighbour>, names: seq<string>) {
    forall i :: 0 <= i < |hits| ==> 0 <= hits[i].index < |names|
  }

  /** The semantic results: each hit's department name with its confidence, in hit order. */
  function SemanticResults(names: seq<string>, hits: seq<Neighbour>): (r: seq<Scored>)
    requires HitsInRange(hits, names)
    ensures |r| == |hits|
    ensures forall i :: 0 <= i < |hits| ==> r[i].key in names
  {
    seq(|hits|, i requires 0 <= i < |hits| => Pair(names[hits[i].index], hits[i].confidence))
  }

  /** The ML candidates: each chosen class with its probability in percent. */
  function MlItems(classes: seq<string>, probs: seq<real>, chosen: seq<nat>): (r: seq<Scored>)
    requires |probs| == |classes|
    requires forall t :: 0 <= t < |chosen| ==> chosen[t] < |probs|
    ensures |r| == |chosen|
    ensures forall t :: 0 <= t < |chosen| ==> r[t].key in classes
  {
    seq(|chosen|, t requires 0 <= t < |chosen| => Pair(classes[chosen[t]], probs[chosen[t]] * 100.0))
  }

  /** The body shared by both hybrid predictors: merge the two lists, then keep the top three. */
  method HybridTop3(semantic: seq<Scored>, ml: seq<Scored>) returns (top: seq<Scored>)
    ensures |top| == Min(3, |FirstOccurrences(Keys(semantic) + Keys(ml))|)
    ensures NonIncreasing(top) && DistinctKeys(top)
    ensures forall e :: e in top ==>
      e.key in Keys(semantic) + Keys(ml) && e.val == CombinedScore(semantic, ml, e.key)
    ensures forall d :: d in Keys(semantic) + Keys(ml) && d !in Keys(top) ==>
      forall e :: e in top ==> CombinedScore(semantic, ml, d) <= e.val
    ensures exists combined :: MergedFrom(combined, semantic, ml) && top == Top3(combined)
    ensures TopOfMerge(semantic, ml, top)
  {
    var combined := MergeScores(semantic, ml);
    TopOfMerged(combined, semantic, ml);
    top := Top3(combined);
  }

  /** Each ranked department carries its merged score, and no department left out scores higher. */
  predicate ScoredAgainst(semantic: seq<Scored>, ml: seq<Scored>, top: seq<Scored>) {
    && (forall e :: e in top ==> e.val == CombinedScore(semantic, ml, e.key))
    && (forall d :: d in Keys(semantic) + Keys(ml) && d !in Keys(top) ==>
          forall e :: e in top ==> CombinedScore(semantic, ml, d) <= e.val)
  }

  /**
   * top is the top three of the dict merged from the two lists: as many
   * entries as there are departments, up to three, each with its merged
   * score, none beaten by a department left out.
   */
  ghost predicate TopOfMerge(semantic: seq<Scored>, ml: seq<Scored>, top: seq<Scored>) {
    && |top| == Min(3, |FirstOccurrences(Keys(semantic) + Keys(ml))|)
    && ScoredAgainst(semantic, ml, top)
    && exists combined :: MergedFrom(combined, semantic, ml) && top == Top3(combined)
  }

  /** top ranks the merge of the semantic items with the ML items of some top-three choice of classes. */
  ghost predicate HybridRanking(semantic: seq<Scored>, classes: seq<string>, probs: seq<real>, top: seq<Scored>) {
    && |probs| == |classes|
    && exists chosen :: TopChoice(probs, 3, chosen) && TopOfMerge(semantic, MlItems(classes, probs, chosen), top)
  }

  /**
   * The ranking with classifier probabilities: the classes of the three
   * highest probabilities become the ML items, which are merged with the
   * semantic ones and cut to the top three.
   */
  method RankHybrid(semantic: seq<Scored>, classes: seq<string>, probs: seq<real>) returns (top: seq<Scored>)
    requires |probs| == |classes|
    ensures |top| <= 3 && NonIncreasing(top) && DistinctKeys(top)
    ensures forall e :: e in top ==> e.key in Keys(semantic) || e.key in classes
    ensures HybridRanking(semantic, classes, probs, top)
  {
    var chosen := TopIndices(probs, 3);
    var ml := MlItems(classes, probs, chosen);
    top := HybridTop3(semantic, ml);
    RankedKeys(semantic, classes, probs, chosen, top);
    RankingWitness(semantic, classes, probs, chosen, top);
  }

  /** Every department of a ranking comes from the semantic list or the classes. */
  lemma RankedKeys(semantic: seq<Scored>, classes: seq<string>, probs: seq<real>, chosen: seq<nat>, top: seq<Scored>)
    requires |probs| == |classes| && TopChoice(probs, 3, chosen)
    requires forall e :: e in top ==> e.key in Keys(semantic) + Keys(MlItems(classes, probs, chosen))
    ensures forall e :: e in top ==> e.key in Keys(semantic) || e.key in classes
  {
    var ml := MlItems(classes, probs, chosen);
    forall e | e in top ensures e.key in Keys(semantic) || e.key in classes {
      assert e.key in Keys(semantic) + Keys(ml);
      if e.key !in Keys(semantic) {
        var t :| 0 <= t < |ml| && Keys(ml)[t] == e.key;
      }
    }
  }

  lemma RankingWitness(semantic: seq<Scored>, classes: seq<string>, probs: seq<real>, chosen: seq<nat>, top: seq<Scored>)
    requires |probs| == |classes| && TopChoice(probs, 3, chosen)
    requires TopOfMerge(semantic, MlItems(classes, probs, chosen), top)
    ensures HybridRanking(semantic, classes, probs, top)
  {
  }

  /** The ranking with no ML items: the semantic departments at 0.6 x their confidence, top three. */
  method RankSemantic(semantic: seq<Scored>) returns (top: seq<Scored>)
    ensures |top| == Min(3, |FirstOccurrences(Keys(semantic))|)
    ensures NonIncreasing(top) && DistinctKeys(top)
    ensures forall e :: e in top ==>
      e.key in Keys(semantic) && LastScore(semantic, e.key).Some? && e.val == SemanticWeight * LastScore(semantic, e.key).value
    ensures forall d :: LastScore(semantic, d).Some? && d !in Keys(top) ==>
      forall e :: e in top ==> SemanticWeight * LastScore(semantic, d).value <= e.val
    ensures TopOfMerge(semantic, [], top)
  {
    var none: seq<Scored> := [];
    top := HybridTop3(semantic, none);
    assert Keys(semantic) + Keys(none) == Keys(semantic);
    forall d {
      LastScoreSome(semantic, d);
    }
  }
}
