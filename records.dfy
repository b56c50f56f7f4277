/**
 * A JavaScript `Record<string, number>` as the pages use it: an object whose
 * keys (category ids, none of them integer-like) enumerate in insertion order,
 * which is the order `Object.entries` and `Object.values` report.
 */
module Records {
  import opened Wrappers

  type Entries = seq<(string, real)>

  function Keys(es: Entries): (ks: seq<string>)
    ensures |ks| == |es|
    ensures forall i :: 0 <= i < |es| ==> ks[i] == es[i].0
  {
    seq(|es|, i requires 0 <= i < |es| => es[i].0)
  }

  /** `Object.values(record)`. */
  function Values(es: Entries): (vs: seq<real>)
    ensures |vs| == |es|
    ensures forall i :: 0 <= i < |es| ==> vs[i] == es[i].1
  {
    seq(|es|, i requires 0 <= i < |es| => es[i].1)
  }

  predicate DistinctKeys(es: Entries) {
    forall i, j :: 0 <= i < j < |es| ==> es[i].0 != es[j].0
  }

  /** Position of `k` among the keys, if it is one of them. */
  function KeyIndex(es: Entries, k: string): (r: Option<nat>)
    ensures r.None? <==> k !in Keys(es)
    ensures r.Some? ==> r.value < |es| && es[r.value].0 == k
  {
    if |es| == 0 then None
    else if es[0].0 == k then Some(0)
    else
      assert Keys(es) == [es[0].0] + Keys(es[1..]);
      match KeyIndex(es[1..], k)
      case None => None
      case Some(i) => Some(i + 1)
  }

  /** `record[key]`, with `undefined` as `None`. */
  function Get(es: Entries, k: string): (r: Option<real>)
    ensures r.None? <==> k !in Keys(es)
    ensures r.Some? ==> exists i :: 0 <= i < |es| && es[i] == (k, r.value)
  {
    match KeyIndex(es, k)
    case None => None
    case Some(i) => Some(es[i].1)
  }

  /** `record[key] || 0`: a missing key reads as 0. */
  function GetOrZero(es: Entries, k: string): real {
    Get(es, k).GetOr(0.0)
  }

  /** `record[key] = v`: overwrite in place when the key exists, append otherwise. */
  function Put(es: Entries, k: string, v: real): (r: Entries)
    ensures Keys(r) == if k in Keys(es) then Keys(es) else Keys(es) + [k]
  {
    match KeyIndex(es, k)
    case Some(i) => es[i := (k, v)]
    case None => es + [(k, v)]
  }

  /** Assigning a key the record lacks appends it at the end. */
  lemma PutFresh(es: Entries, k: string, v: real)
    requires k !in Keys(es)
    ensures Put(es, k, v) == es + [(k, v)]
  {
    assert KeyIndex(es, k).None?;
  }

  /** After `record[k] = v`, reading `k` gives `v` and every other key reads as before. */
  lemma GetPut(es: Entries, k: string, v: real, k': string)
    requires DistinctKeys(es)
    ensures Get(Put(es, k, v), k') == if k' == k then Some(v) else Get(es, k')
  {
    PutKeepsDistinct(es, k, v);
    var r := Put(es, k, v);
    KeyIndexOfDistinct(r, k');
    KeyIndexOfDistinct(es, k');
  }

  lemma KeyIndexOfDistinct(es: Entries, k: string)
    requires DistinctKeys(es)
    ensures forall i :: 0 <= i < |es| && es[i].0 == k ==> KeyIndex(es, k) == Some(i)
  {
  }

  /** Assigning a key keeps the keys of a record distinct. */
  lemma PutKeepsDistinct(es: Entries, k: string, v: real)
    requires DistinctKeys(es)
    ensures DistinctKeys(Put(es, k, v))
  {
    var r := Put(es, k, v);
    assert Keys(r) == if k in Keys(es) then Keys(es) else Keys(es) + [k];
    forall i, j | 0 <= i < j < |r| ensures r[i].0 != r[j].0 {
      assert Keys(r)[i] == r[i].0 && Keys(r)[j] == r[j].0;
    }
  }
}
