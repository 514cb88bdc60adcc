/** Insertion-ordered dictionaries with string keys: a Python `dict` or a
    JavaScript object, where the order of `keys()` / `Object.values()` is the
    order in which keys were first assigned. */
module Dicts {
  import opened Wrappers

  datatype Entry<V> = Entry(key: string, value: V)

  type Dict<V> = seq<Entry<V>>

  function Keys<V>(d: Dict<V>): seq<string> {
    seq(|d|, i requires 0 <= i < |d| => d[i].key)
  }

  function Values<V>(d: Dict<V>): seq<V> {
    seq(|d|, i requires 0 <= i < |d| => d[i].value)
  }

  lemma KeysCons<V>(d: Dict<V>)
    requires |d| > 0
    ensures Keys(d) == [d[0].key] + Keys(d[1..])
  {
  }

  lemma KeysSnoc<V>(d: Dict<V>, e: Entry<V>)
    ensures Keys(d + [e]) == Keys(d) + [e.key]
  {
  }

  predicate Distinct(ks: seq<string>) {
    forall i, j :: 0 <= i < j < |ks| ==> ks[i] != ks[j]
  }

  /** What every real dictionary satisfies: no key appears twice. */
  predicate UniqueKeys<V>(d: Dict<V>) {
    Distinct(Keys(d))
  }

  /** `d.get(k)` / `d[k]`, `None` for a missing key. */
  function Get<V>(d: Dict<V>, k: string): (r: Option<V>)
    ensures r.Some? <==> k in Keys(d)
  {
    if |d| == 0 then None
    else
      KeysCons(d);
      if d[0].key == k then Some(d[0].value) else Get(d[1..], k)
  }

  /** A key that is found is found with the value of one of the entries. */
  lemma {:induction false} GetEntry<V>(d: Dict<V>, k: string)
    requires Get(d, k).Some?
    ensures Entry(k, Get(d, k).value) in d
    decreases |d|
  {
    if d[0].key != k {
      GetEntry(d[1..], k);
    }
  }

  /** With unique keys, every entry is what its key looks up. */
  lemma {:induction false} EntryGet<V>(d: Dict<V>, i: nat)
    requires UniqueKeys(d) && i < |d|
    ensures Get(d, d[i].key) == Some(d[i].value)
    decreases i
  {
    KeysCons(d);
    if i > 0 {
      assert Keys(d)[0] != Keys(d)[i];
      assert Keys(d[1..]) == Keys(d)[1..];
      EntryGet(d[1..], i - 1);
    }
  }

  /** `d[k] = v`: an existing key keeps its place and takes the new value, a
      new key goes to the end. */
  function Put<V>(d: Dict<V>, k: string, v: V): (r: Dict<V>)
    ensures Get(r, k) == Some(v)
    ensures forall k' :: k' != k ==> Get(r, k') == Get(d, k')
    ensures k in Keys(d) ==> Keys(r) == Keys(d)
    ensures k !in Keys(d) ==> r == d + [Entry(k, v)]
  {
    if |d| == 0 then [Entry(k, v)]
    else
      KeysCons(d);
      if d[0].key == k then
        var r := [Entry(k, v)] + d[1..];
        KeysCons(r);
        assert r[1..] == d[1..];
        r
      else
        var t := Put(d[1..], k, v);
        var r := [d[0]] + t;
        KeysCons(r);
        assert r[1..] == t;
        assert k !in Keys(d[1..]) ==> d + [Entry(k, v)] == [d[0]] + (d[1..] + [Entry(k, v)]);
        r
  }

  lemma PutUnique<V>(d: Dict<V>, k: string, v: V)
    requires UniqueKeys(d)
    ensures UniqueKeys(Put(d, k, v))
  {
    if k !in Keys(d) {
      KeysSnoc(d, Entry(k, v));
    }
  }

  function Min(a: nat, b: nat): nat {
    if a <= b then a else b
  }

  /** The value paired with the last occurrence of `k` among the pairs of
      `zip(ks, vs)`. */
  function LastValue<V>(ks: seq<string>, vs: seq<V>, k: string): (r: Option<V>)
    ensures r.Some? <==> k in ks[..Min(|ks|, |vs|)]
    ensures r.Some? ==> exists i :: 0 <= i < Min(|ks|, |vs|) && ks[i] == k && vs[i] == r.value
    decreases |ks|
  {
    var n := Min(|ks|, |vs|);
    if n == 0 then None
    else
      assert ks[..n - 1][..Min(n - 1, n - 1)] == ks[..n - 1];
      assert ks[..n] == ks[..n - 1] + [ks[n - 1]];
      if ks[n - 1] == k then Some(vs[n - 1])
      else LastValue(ks[..n - 1], vs[..n - 1], k)
  }

  /** `for k, v in zip(ks, vs): d[k] = v`; `dict(zip(ks, vs))` is the case `d == []`. */
  function PutAll<V>(d: Dict<V>, ks: seq<string>, vs: seq<V>): (r: Dict<V>)
    ensures |r| == 0 <==> |d| == 0 && Min(|ks|, |vs|) == 0
    decreases |ks|
  {
    var n := Min(|ks|, |vs|);
    if n == 0 then d
    else Put(PutAll(d, ks[..n - 1], vs[..n - 1]), ks[n - 1], vs[n - 1])
  }

  /** A key assigned by the pairs ends with the value of its last assignment;
      any other key keeps its old value. */
  lemma {:induction false} PutAllGet<V>(d: Dict<V>, ks: seq<string>, vs: seq<V>, k: string)
    ensures Get(PutAll(d, ks, vs), k) == if LastValue(ks, vs, k).Some? then LastValue(ks, vs, k) else Get(d, k)
    decreases |ks|
  {
    var n := Min(|ks|, |vs|);
    if n > 0 && ks[n - 1] != k {
      PutAllGet(d, ks[..n - 1], vs[..n - 1], k);
    }
  }

  lemma {:induction false} PutAllUnique<V>(d: Dict<V>, ks: seq<string>, vs: seq<V>)
    requires UniqueKeys(d)
    ensures UniqueKeys(PutAll(d, ks, vs))
    decreases |ks|
  {
    var n := Min(|ks|, |vs|);
    if n > 0 {
      PutAllUnique(d, ks[..n - 1], vs[..n - 1]);
      PutUnique(PutAll(d, ks[..n - 1], vs[..n - 1]), ks[n - 1], vs[n - 1]);
    }
  }

  /** The value `LastValue` finds is the one paired with the last
      occurrence of the key. */
  lemma {:induction false} LastValueIsLast<V>(ks: seq<string>, vs: seq<V>, k: string, i: nat)
    requires |ks| == |vs| && i < |ks| && ks[i] == k
    requires forall j :: i < j < |ks| ==> ks[j] != k
    ensures LastValue(ks, vs, k) == Some(vs[i])
    decreases |ks|
  {
    var n := |ks|;
    if i < n - 1 {
      LastValueIsLast(ks[..n - 1], vs[..n - 1], k, i);
    }
  }

  function ZipDict<V>(ks: seq<string>, vs: seq<V>): Dict<V> {
    PutAll([], ks, vs)
  }

  function Pairs<V>(ks: seq<string>, vs: seq<V>): (r: Dict<V>)
    requires |ks| == |vs|
    ensures Keys(r) == ks && Values(r) == vs
  {
    seq(|ks|, i requires 0 <= i < |ks| => Entry(ks[i], vs[i]))
  }

  /** With distinct keys none of which is already present, the assignments
      append every pair, in order. */
  lemma {:induction false} PutAllFresh<V>(d: Dict<V>, ks: seq<string>, vs: seq<V>)
    requires |ks| == |vs| && Distinct(ks)
    requires forall k :: k in ks ==> k !in Keys(d)
    ensures PutAll(d, ks, vs) == d + Pairs(ks, vs)
    decreases |ks|
  {
    var n := |ks|;
    if n > 0 {
      var ks', vs' := ks[..n - 1], vs[..n - 1];
      FreshPrefix(d, ks);
      PutAllFresh(d, ks', vs');
      FreshLast(d, ks, vs);
      var e := Entry(ks[n - 1], vs[n - 1]);
      assert PutAll(d, ks, vs) == Put(d + Pairs(ks', vs'), ks[n - 1], vs[n - 1]);
      PairsSnoc(ks, vs);
      assert (d + Pairs(ks', vs')) + [e] == d + (Pairs(ks', vs') + [e]);
    }
  }

  lemma PairsSnoc<V>(ks: seq<string>, vs: seq<V>)
    requires |ks| == |vs| > 0
    ensures Pairs(ks, vs) == Pairs(ks[..|ks| - 1], vs[..|ks| - 1]) + [Entry(ks[|ks| - 1], vs[|ks| - 1])]
  {
  }

  lemma FreshPrefix<V>(d: Dict<V>, ks: seq<string>)
    requires |ks| > 0 && Distinct(ks)
    requires forall k :: k in ks ==> k !in Keys(d)
    ensures Distinct(ks[..|ks| - 1])
    ensures forall k :: k in ks[..|ks| - 1] ==> k !in Keys(d)
  {
    var ks' := ks[..|ks| - 1];
    forall i, j | 0 <= i < j < |ks'| ensures ks'[i] != ks'[j] {
      assert ks'[i] == ks[i] && ks'[j] == ks[j];
    }
  }

  lemma FreshLast<V>(d: Dict<V>, ks: seq<string>, vs: seq<V>)
    requires |ks| == |vs| > 0 && Distinct(ks)
    requires forall k :: k in ks ==> k !in Keys(d)
    ensures ks[|ks| - 1] !in Keys(d + Pairs(ks[..|ks| - 1], vs[..|ks| - 1]))
  {
    var n := |ks|;
    var ks' := ks[..n - 1];
    forall i | 0 <= i < |ks'| ensures ks'[i] != ks[n - 1] {
      assert ks'[i] == ks[i];
    }
    KeysAppend(d, Pairs(ks', vs[..n - 1]));
  }

  lemma KeysAppend<V>(a: Dict<V>, b: Dict<V>)
    ensures Keys(a + b) == Keys(a) + Keys(b)
  {
  }

  /** With distinct keys, `dict(zip(ks, vs))` keeps every pair, in order. */
  lemma ZipDictDistinct<V>(ks: seq<string>, vs: seq<V>)
    requires |ks| == |vs| && Distinct(ks)
    ensures Keys(ZipDict(ks, vs)) == ks && Values(ZipDict(ks, vs)) == vs
  {
    PutAllFresh([], ks, vs);
    assert [] + Pairs(ks, vs) == Pairs(ks, vs);
  }

  /** Looking a key up in a unique-keyed dictionary with its last entry cut off. */
  lemma {:induction false} GetPrefix<V>(d: Dict<V>, k: string)
    requires UniqueKeys(d) && |d| > 0
    ensures Get(d, k) == if d[|d| - 1].key == k then Some(d[|d| - 1].value) else Get(d[..|d| - 1], k)
    decreases |d|
  {
    var n := |d|;
    if n > 1 {
      var p := d[..n - 1];
      KeysCons(d);
      KeysCons(p);
      assert p[0] == d[0];
      if d[0].key == k {
        assert Keys(d)[0] != Keys(d)[n - 1];
      } else {
        assert d[1..][..n - 2] == p[1..];
        assert Keys(d[1..]) == Keys(d)[1..];
        GetPrefix(d[1..], k);
      }
    }
  }

  /** With unique keys, the last occurrence of a key is its only one. */
  lemma {:induction false} LastValueUnique<V>(d: Dict<V>, k: string)
    requires UniqueKeys(d)
    ensures LastValue(Keys(d), Values(d), k) == Get(d, k)
    decreases |d|
  {
    var n := |d|;
    if n > 0 {
      var p := d[..n - 1];
      assert Keys(p) == Keys(d)[..n - 1] && Values(p) == Values(d)[..n - 1];
      LastValueUnique(p, k);
      GetPrefix(d, k);
    }
  }

  /** `{...d, ...e}`: the entries of `e` assigned over those of `d`. */
  function Spread<V>(d: Dict<V>, e: Dict<V>): Dict<V> {
    PutAll(d, Keys(e), Values(e))
  }

  /** In a spread, a key of the right-hand side wins; any other key keeps its
      left-hand value. */
  lemma SpreadGet<V>(d: Dict<V>, e: Dict<V>, k: string)
    requires UniqueKeys(e)
    ensures UniqueKeys(d) ==> UniqueKeys(Spread(d, e))
    ensures Get(Spread(d, e), k) == if Get(e, k).Some? then Get(e, k) else Get(d, k)
  {
    LastValueUnique(e, k);
    PutAllGet(d, Keys(e), Values(e), k);
    if UniqueKeys(d) {
      PutAllUnique(d, Keys(e), Values(e));
    }
  }
}
