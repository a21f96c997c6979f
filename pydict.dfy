/**
 * Python's `dict` as the tools use it: key/value pairs kept in insertion order.
 * Assigning to a present key replaces its value where it stands; a new key goes last.
 */
module PyDict {
  import opened Wrappers

  type Dict<V> = seq<(string, V)>

  /** `list(d.keys())`. */
  function Keys<V>(d: Dict<V>): (ks: seq<string>)
    ensures |ks| == |d|
    ensures forall i :: 0 <= i < |d| ==> ks[i] == d[i].0
  {
    seq(|d|, i requires 0 <= i < |d| => d[i].0)
  }

  /** What every dict satisfies: no key occurs twice. */
  predicate DistinctKeys<V>(d: Dict<V>) {
    forall i, j :: 0 <= i < j < |d| ==> d[i].0 != d[j].0
  }

  function Find<V>(d: Dict<V>, k: string): (r: Option<nat>)
    ensures r.Some? ==> r.value < |d| && d[r.value].0 == k
    ensures r.Some? ==> forall j :: 0 <= j < r.value ==> d[j].0 != k
    ensures r.None? <==> k !in Keys(d)
    decreases |d|
  {
    if |d| == 0 then None
    else if d[0].0 == k then Some(0)
    else
      match Find(d[1..], k)
      case None => None
      case Some(i) => Some(i + 1)
  }

  /** `d.get(k)`: `None` stands for a missing key. */
  function Get<V>(d: Dict<V>, k: string): (r: Option<V>)
    ensures r.Some? <==> k in Keys(d)
  {
    match Find(d, k)
    case None => None
    case Some(i) => Some(d[i].1)
  }

  /** In a dict, the value stored with a key is the one `Get` finds. */
  lemma GetAt<V>(d: Dict<V>, i: nat)
    requires DistinctKeys(d) && i < |d|
    ensures Get(d, d[i].0) == Some(d[i].1)
  {
  }

  lemma GetCons<V>(d: Dict<V>, k: string)
    requires |d| > 0
    ensures Get(d, k) == if d[0].0 == k then Some(d[0].1) else Get(d[1..], k)
  {
  }

  /** `d[k] = v`. */
  function Put<V>(d: Dict<V>, k: string, v: V): (r: Dict<V>)
    ensures Get(r, k) == Some(v)
    ensures forall k' :: k' != k ==> Get(r, k') == Get(d, k')
    ensures Keys(r) == if k in Keys(d) then Keys(d) else Keys(d) + [k]
    ensures DistinctKeys(d) ==> DistinctKeys(r)
  {
    match Find(d, k)
    case Some(i) =>
      var r := d[i := (k, v)];
      assert Keys(r) == Keys(d);
      assert forall k' :: k' != k ==> Find(r, k') == Find(d, k') by {
        forall k' | k' != k ensures Find(r, k') == Find(d, k') {
          FindAfterReplace(d, i, k, v, k');
        }
      }
      r
    case None =>
      var r := d + [(k, v)];
      assert Keys(r) == Keys(d) + [k];
      assert forall k' :: k' != k ==> Find(r, k') == Find(d, k') by {
        forall k' | k' != k ensures Find(r, k') == Find(d, k') {
          FindAfterAppend(d, k, v, k');
        }
      }
      assert Find(r, k) == Some(|d|) by { FindAfterAppend(d, k, v, k); }
      r
  }

  lemma {:induction false} FindAfterReplace<V>(d: Dict<V>, i: nat, k: string, v: V, k': string)
    requires i < |d| && d[i].0 == k && k' != k
    ensures Find(d[i := (k, v)], k') == Find(d, k')
    decreases |d|
  {
    var e := d[i := (k, v)];
    if i == 0 {
      assert e[1..] == d[1..];
    } else if d[0].0 != k' {
      assert e[1..] == d[1..][i - 1 := (k, v)];
      FindAfterReplace(d[1..], i - 1, k, v, k');
    }
  }

  lemma {:induction false} FindAfterAppend<V>(d: Dict<V>, k: string, v: V, k': string)
    ensures Find(d + [(k, v)], k') == if k' in Keys(d) then Find(d, k') else (if k' == k then Some(|d|) else None)
    decreases |d|
  {
    if |d| > 0 && d[0].0 != k' {
      assert (d + [(k, v)])[1..] == d[1..] + [(k, v)];
      FindAfterAppend(d[1..], k, v, k');
      assert k' in Keys(d) <==> k' in Keys(d[1..]);
    }
  }

  /** `del d[k]` for a present key; an absent key leaves `d` as it is. */
  function Remove<V>(d: Dict<V>, k: string): (r: Dict<V>)
    ensures DistinctKeys(d) ==> k !in Keys(r)
    ensures forall k' :: k' != k ==> Get(r, k') == Get(d, k')
    ensures DistinctKeys(d) ==> DistinctKeys(r)
    decreases |d|
  {
    if |d| == 0 then d
    else if d[0].0 == k then
      RemoveHead(d);
      d[1..]
    else
      var rest := Remove(d[1..], k);
      RemoveCons(d, k, rest);
      [d[0]] + rest
  }

  lemma RemoveHead<V>(d: Dict<V>)
    requires |d| > 0
    ensures DistinctKeys(d) ==> d[0].0 !in Keys(d[1..])
    ensures forall k' :: k' != d[0].0 ==> Get(d[1..], k') == Get(d, k')
    ensures DistinctKeys(d) ==> DistinctKeys(d[1..])
  {
    forall k' | k' != d[0].0 ensures Get(d[1..], k') == Get(d, k') {
      GetCons(d, k');
    }
    if DistinctKeys(d) {
      forall i | 0 <= i < |d| - 1 ensures Keys(d[1..])[i] != d[0].0 {
        assert d[1..][i] == d[i + 1];
      }
    }
  }

  lemma RemoveCons<V>(d: Dict<V>, k: string, rest: Dict<V>)
    requires |d| > 0 && d[0].0 != k
    requires DistinctKeys(d[1..]) ==> k !in Keys(rest)
    requires forall k' :: k' != k ==> Get(rest, k') == Get(d[1..], k')
    requires DistinctKeys(d[1..]) ==> DistinctKeys(rest)
    ensures DistinctKeys(d) ==> k !in Keys([d[0]] + rest)
    ensures forall k' :: k' != k ==> Get([d[0]] + rest, k') == Get(d, k')
    ensures DistinctKeys(d) ==> DistinctKeys([d[0]] + rest)
  {
    var r := [d[0]] + rest;
    assert r[1..] == rest;
    forall k' | k' != k ensures Get(r, k') == Get(d, k') {
      GetCons(r, k');
      GetCons(d, k');
    }
    if DistinctKeys(d) {
      assert DistinctKeys(d[1..]);
      forall i | 0 <= i < |r| ensures Keys(r)[i] != k {
        if i > 0 {
          assert Keys(r)[i] == Keys(rest)[i - 1];
        }
      }
      RemoveHead(d);
      forall i, j | 0 <= i < j < |r| ensures r[i].0 != r[j].0 {
        if i == 0 {
          assert r[j].0 == Keys(rest)[j - 1];
          assert r[j].0 != k;
          assert Get(d[1..], r[j].0).Some?;
        }
      }
    }
  }

  /** `d.setdefault(k, v)`: the value stored with `k`, after storing `v` when `k` is missing. */
  function SetDefault<V>(d: Dict<V>, k: string, v: V): (r: (Dict<V>, V))
    ensures Get(r.0, k) == Some(r.1)
    ensures k in Keys(d) ==> r == (d, Get(d, k).value)
    ensures k !in Keys(d) ==> r == (d + [(k, v)], v)
    ensures Keys(r.0) == if k in Keys(d) then Keys(d) else Keys(d) + [k]
    ensures forall k' :: k' != k ==> Get(r.0, k') == Get(d, k')
    ensures DistinctKeys(d) ==> DistinctKeys(r.0)
  {
    match Get(d, k)
    case Some(x) => (d, x)
    case None =>
      FindAfterAppend(d, k, v, k);
      forall k' | k' != k ensures Get(d + [(k, v)], k') == Get(d, k') {
        FindAfterAppend(d, k, v, k');
      }
      assert Keys(d + [(k, v)]) == Keys(d) + [k];
      (d + [(k, v)], v)
  }

  /** `d.update(pairs)`: each pair assigned in turn. */
  function PutAll<V>(d: Dict<V>, pairs: seq<(string, V)>): (r: Dict<V>)
    ensures DistinctKeys(d) ==> DistinctKeys(r)
    decreases |pairs|
  {
    if |pairs| == 0 then d
    else
      var last := pairs[|pairs| - 1];
      Put(PutAll(d, pairs[..|pairs| - 1]), last.0, last.1)
  }

  /** `{k: v for (k, v) in pairs}` and `dict(pairs)`. */
  function FromPairs<V>(pairs: seq<(string, V)>): (r: Dict<V>)
    ensures DistinctKeys(r)
  {
    PutAll([], pairs)
  }

  /** The mapping a dict denotes once order is forgotten. */
  function ToMap<V>(d: Dict<V>): (m: map<string, V>)
    ensures forall k :: k in m <==> k in Keys(d)
    ensures forall k :: k in m ==> Get(d, k) == Some(m[k])
  {
    map k | k in Keys(d) :: Get(d, k).value
  }

  /** A key the update mentions ends up with the value of the LAST pair that names it. */
  lemma {:induction false} PutAllGetMentioned<V>(d: Dict<V>, pairs: seq<(string, V)>, j: nat)
    requires j < |pairs|
    requires forall j' :: j < j' < |pairs| ==> pairs[j'].0 != pairs[j].0
    ensures Get(PutAll(d, pairs), pairs[j].0) == Some(pairs[j].1)
    decreases |pairs|
  {
    if j < |pairs| - 1 {
      PutAllGetMentioned(d, pairs[..|pairs| - 1], j);
    }
  }

  /** A key the update does not mention keeps the value it had. */
  lemma {:induction false} PutAllGetUnmentioned<V>(d: Dict<V>, pairs: seq<(string, V)>, k: string)
    requires forall j :: 0 <= j < |pairs| ==> pairs[j].0 != k
    ensures Get(PutAll(d, pairs), k) == Get(d, k)
    decreases |pairs|
  {
    if |pairs| > 0 {
      PutAllGetUnmentioned(d, pairs[..|pairs| - 1], k);
    }
  }

  predicate Mentions<V>(pairs: seq<(string, V)>, k: string) {
    exists j :: 0 <= j < |pairs| && pairs[j].0 == k
  }

  lemma MentionsLast<V>(pairs: seq<(string, V)>, k: string)
    requires |pairs| > 0
    ensures Mentions(pairs, k) <==> Mentions(pairs[..|pairs| - 1], k) || k == pairs[|pairs| - 1].0
  {
    var init := pairs[..|pairs| - 1];
    if Mentions(init, k) {
      var j :| 0 <= j < |init| && init[j].0 == k;
      assert pairs[j] == init[j];
    }
    if Mentions(pairs, k) && pairs[|pairs| - 1].0 != k {
      var j :| 0 <= j < |pairs| && pairs[j].0 == k;
      assert j < |init|;
      assert pairs[j] == init[j];
    }
  }

  /** After `d.update(pairs)` the keys are the old ones and those the update mentions. */
  lemma {:induction false} PutAllHasKey<V>(d: Dict<V>, pairs: seq<(string, V)>, k: string)
    ensures k in Keys(PutAll(d, pairs)) <==> k in Keys(d) || Mentions(pairs, k)
    decreases |pairs|
  {
    if |pairs| > 0 {
      var init, last := pairs[..|pairs| - 1], pairs[|pairs| - 1];
      var before := PutAll(d, init);
      PutAllHasKey(d, init, k);
      assert k in Keys(PutAll(d, pairs)) <==> k in Keys(before) || k == last.0 by {
        assert PutAll(d, pairs) == Put(before, last.0, last.1);
        var ks := Keys(before);
        if last.0 !in ks {
          assert k in ks + [last.0] <==> k in ks || k == last.0;
        }
      }
      MentionsLast(pairs, k);
    }
  }

  /** `d.update(pairs)` keeps the old keys in their places, at the front. */
  lemma {:induction false} PutAllKeepsOrder<V>(d: Dict<V>, pairs: seq<(string, V)>)
    ensures StartsWithSeq(Keys(PutAll(d, pairs)), Keys(d))
    decreases |pairs|
  {
    if |pairs| > 0 {
      var init := pairs[..|pairs| - 1];
      PutAllKeepsOrder(d, init);
      var before := Keys(PutAll(d, init));
      var after := Keys(PutAll(d, pairs));
      assert StartsWithSeq(after, before);
      assert after[..|Keys(d)|] == before[..|Keys(d)|];
    }
  }

  predicate StartsWithSeq<T(==)>(s: seq<T>, prefix: seq<T>) {
    |prefix| <= |s| && s[..|prefix|] == prefix
  }

  /** `acc.update(d)` for a dict `d`: its keys take its values, every other key keeps its own. */
  lemma PutAllDict<V>(acc: Dict<V>, d: Dict<V>, k: string)
    requires DistinctKeys(d)
    ensures Get(PutAll(acc, d), k) == if k in Keys(d) then Get(d, k) else Get(acc, k)
  {
    if k in Keys(d) {
      var i := Find(d, k).value;
      GetAt(d, i);
      PutAllGetMentioned(acc, d, i);
    } else {
      PutAllGetUnmentioned(acc, d, k);
    }
  }
}
