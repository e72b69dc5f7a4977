/** Python dictionaries with string keys, as the application uses them: the
    section-name to image map. A dictionary remembers insertion order; `d[k] = v`
    on a key already present replaces the value and keeps the key where it was. */
module Dicts {
  import opened Base

  /** The entries in iteration order. */
  type Dict<V> = seq<(string, V)>

  /** `list(d.keys())`. */
  function Keys<V>(d: Dict<V>): (ks: seq<string>)
    ensures |ks| == |d|
    ensures forall i | 0 <= i < |d| :: ks[i] == d[i].0
  {
    seq(|d|, i requires 0 <= i < |d| => d[i].0)
  }

  /** No key is listed twice, as in every real dictionary. */
  predicate UniqueKeys<V>(d: Dict<V>) {
    forall i, j | 0 <= i < j < |d| :: d[i].0 != d[j].0
  }

  /** The position of key `k` in iteration order, if present. */
  function IndexOf<V>(d: Dict<V>, k: string): (r: Option<nat>)
    ensures r.Some? ==> r.value < |d| && d[r.value].0 == k
    ensures r.Some? ==> forall j | 0 <= j < r.value :: d[j].0 != k
    ensures r.None? ==> forall j | 0 <= j < |d| :: d[j].0 != k
  {
    if |d| == 0 then None
    else if d[0].0 == k then Some(0)
    else match IndexOf(d[1..], k)
      case None => None
      case Some(i) => Some(i + 1)
  }

  /** `d.get(k)`: the value stored under `k`, or None. */
  function Get<V>(d: Dict<V>, k: string): (r: Option<V>)
    ensures r.Some? <==> k in Keys(d)
    ensures r.Some? ==> exists i | 0 <= i < |d| :: d[i] == (k, r.value)
  {
    match IndexOf(d, k)
    case None => None
    case Some(i) => assert d[i] == (k, d[i].1); Some(d[i].1)
  }

  /** `d[k] = v`: replace in place when `k` is present, append otherwise. */
  function Put<V>(d: Dict<V>, k: string, v: V): Dict<V> {
    match IndexOf(d, k)
    case Some(i) => d[i := (k, v)]
    case None => d + [(k, v)]
  }

  /** An assignment keeps keys unique, stores the value under its key and no
      other key's value changes; a new key goes to the end and an existing key
      keeps its place. */
  lemma PutSpec<V>(d: Dict<V>, k: string, v: V)
    ensures UniqueKeys(d) ==> UniqueKeys(Put(d, k, v))
    ensures Get(Put(d, k, v), k) == Some(v)
    ensures forall k' | k' != k :: Get(Put(d, k, v), k') == Get(d, k')
    ensures Keys(Put(d, k, v)) == if k in Keys(d) then Keys(d) else Keys(d) + [k]
  {
    match IndexOf(d, k)
    case Some(i) => PutReplaces(d, k, v, i);
    case None => PutAppends(d, k, v);
  }

  lemma PutReplaces<V>(d: Dict<V>, k: string, v: V, i: nat)
    requires IndexOf(d, k) == Some(i)
    ensures var r := d[i := (k, v)];
      && (UniqueKeys(d) ==> UniqueKeys(r))
      && Get(r, k) == Some(v)
      && (forall k' | k' != k :: Get(r, k') == Get(d, k'))
      && Keys(r) == Keys(d)
      && k in Keys(d)
  {
    var r := d[i := (k, v)];
    assert IndexOf(r, k) == Some(i) by {
      assert r[i].0 == k;
      var x := IndexOf(r, k);
      assert x.Some? && x.value <= i;
      assert d[x.value].0 == k;
    }
    forall k' | k' != k ensures Get(r, k') == Get(d, k') {
      var x, y := IndexOf(r, k'), IndexOf(d, k');
      if x.Some? {
        assert d[x.value] == r[x.value];
        assert y.Some? && y.value <= x.value;
        assert r[y.value] == d[y.value];
      }
      if y.Some? {
        assert d[y.value] == r[y.value];
        assert x.Some? && x.value <= y.value;
      }
    }
    assert Keys(r) == Keys(d);
    assert Keys(d)[i] == k;
  }

  lemma PutAppends<V>(d: Dict<V>, k: string, v: V)
    requires IndexOf(d, k).None?
    ensures var r := d + [(k, v)];
      && (UniqueKeys(d) ==> UniqueKeys(r))
      && Get(r, k) == Some(v)
      && (forall k' | k' != k :: Get(r, k') == Get(d, k'))
      && Keys(r) == Keys(d) + [k]
      && k !in Keys(d)
  {
    var r := d + [(k, v)];
    assert IndexOf(r, k) == Some(|d|) by {
      assert r[|d|].0 == k;
      var x := IndexOf(r, k);
      assert x.Some? && x.value <= |d|;
    }
    forall k' | k' != k ensures Get(r, k') == Get(d, k') {
      AppendKeepsOther(d, (k, v), k');
    }
    assert Keys(r) == Keys(d) + [k];
    if UniqueKeys(d) {
      forall i, j | 0 <= i < j < |r| ensures r[i].0 != r[j].0 {
        assert r[i] == d[i];
        if j < |d| { assert r[j] == d[j]; }
      }
    }
  }

  lemma AppendKeepsOther<V>(d: Dict<V>, e: (string, V), k': string)
    requires k' != e.0
    ensures IndexOf(d + [e], k') == IndexOf(d, k')
  {
    var r := d + [e];
    var x, y := IndexOf(r, k'), IndexOf(d, k');
    if x.Some? {
      assert x.value < |d| && d[x.value] == r[x.value];
      assert y.Some? && y.value <= x.value;
      assert r[y.value] == d[y.value];
    }
    if y.Some? {
      assert d[y.value] == r[y.value];
      assert x.Some? && x.value <= y.value;
    }
  }

  /** `for (k, v) in entries: d[k] = v`. */
  function PutAll<V>(d: Dict<V>, entries: seq<(string, V)>): Dict<V>
    decreases |entries|
  {
    if |entries| == 0 then d
    else Put(PutAll(d, entries[..|entries| - 1]), entries[|entries| - 1].0, entries[|entries| - 1].1)
  }

  lemma PutAllStep<V>(d: Dict<V>, entries: seq<(string, V)>, n: nat)
    requires n < |entries|
    ensures PutAll(d, entries[..n + 1]) == Put(PutAll(d, entries[..n]), entries[n].0, entries[n].1)
  {
    assert entries[..n + 1][..n] == entries[..n];
  }

  /** The position of the last entry with key `k`. */
  function LastWith<V>(entries: seq<(string, V)>, k: string): (r: Option<nat>)
    ensures r.Some? ==> r.value < |entries| && entries[r.value].0 == k
    ensures r.Some? ==> forall j | r.value < j < |entries| :: entries[j].0 != k
    ensures r.None? ==> forall j | 0 <= j < |entries| :: entries[j].0 != k
    decreases |entries|
  {
    if |entries| == 0 then None
    else if entries[|entries| - 1].0 == k then Some(|entries| - 1)
    else LastWith(entries[..|entries| - 1], k)
  }

  /** Assigning the entries one after another into an empty dictionary leaves,
      under each key, the value of the last entry with that key. */
  lemma {:induction false} PutAllLastWins<V>(entries: seq<(string, V)>, k: string)
    ensures Get(PutAll([], entries), k) ==
              match LastWith(entries, k)
              case None => None
              case Some(i) => Some(entries[i].1)
    decreases |entries|
  {
    if |entries| > 0 {
      var init := entries[..|entries| - 1];
      PutAllLastWins(init, k);
      PutSpec(PutAll([], init), entries[|entries| - 1].0, entries[|entries| - 1].1);
      if entries[|entries| - 1].0 != k {
        var l := LastWith(init, k);
        if l.Some? {
          assert init[l.value] == entries[l.value];
        }
      }
    }
  }

  /** The keys of `ks` in order of their first occurrence, each once. */
  function FirstOccurrences(ks: seq<string>): (r: seq<string>)
    ensures forall i, j | 0 <= i < j < |r| :: r[i] != r[j]
    ensures forall k :: k in r <==> k in ks
    decreases |ks|
  {
    if |ks| == 0 then []
    else
      var f := FirstOccurrences(ks[..|ks| - 1]);
      assert forall k :: k in ks <==> k in ks[..|ks| - 1] || k == ks[|ks| - 1];
      if ks[|ks| - 1] in f then f else f + [ks[|ks| - 1]]
  }

  /** Assigning entries one after another lists each key once, where it was
      first assigned: a later write to the same key does not move it. */
  lemma {:induction false} PutAllKeyOrder<V>(entries: seq<(string, V)>)
    ensures Keys(PutAll([], entries)) == FirstOccurrences(Keys(entries))
    decreases |entries|
  {
    if |entries| > 0 {
      var init := entries[..|entries| - 1];
      PutAllKeyOrder(init);
      assert Keys(entries)[..|entries| - 1] == Keys(init);
      PutSpec(PutAll([], init), entries[|entries| - 1].0, entries[|entries| - 1].1);
    }
  }

  /** The assignments never list a key twice and add at most one entry each. */
  lemma {:induction false} PutAllUnique<V>(entries: seq<(string, V)>)
    ensures UniqueKeys(PutAll([], entries))
    ensures |PutAll([], entries)| <= |entries|
    decreases |entries|
  {
    if |entries| > 0 {
      var init := entries[..|entries| - 1];
      PutAllUnique(init);
      PutSpec(PutAll([], init), entries[|entries| - 1].0, entries[|entries| - 1].1);
    }
  }

  /** Assigning distinct keys one after another into an empty dictionary
      gives exactly those entries, in assignment order. */
  lemma {:induction false} PutAllDistinct<V>(entries: seq<(string, V)>)
    requires UniqueKeys(entries)
    ensures PutAll([], entries) == entries
    decreases |entries|
  {
    if |entries| > 0 {
      var init, last := entries[..|entries| - 1], entries[|entries| - 1];
      assert UniqueKeys(init) by {
        forall i, j | 0 <= i < j < |init| ensures init[i].0 != init[j].0 {
          assert init[i] == entries[i] && init[j] == entries[j];
        }
      }
      PutAllDistinct(init);
      assert IndexOf(init, last.0).None?;
      assert init + [last] == entries;
    }
  }

  /** Two assignments with different keys give a dictionary with those two keys, in order. */
  lemma PutAllTwo<V>(entries: seq<(string, V)>)
    requires |entries| == 2 && entries[0].0 != entries[1].0
    ensures Keys(PutAll([], entries)) == [entries[0].0, entries[1].0]
  {
    assert UniqueKeys(entries);
    PutAllDistinct(entries);
    assert Keys(entries) == [entries[0].0, entries[1].0];
  }
}
