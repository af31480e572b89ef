/** Python dicts: insertion-ordered entries with string keys. Assigning to a key
    that is already present keeps its position; a new key goes to the end. */
module Dicts {
  import opened Wrappers

  type Dict<V> = seq<(string, V)>

  function Keys<V>(m: Dict<V>): (ks: seq<string>)
    ensures |ks| == |m|
    ensures forall i :: 0 <= i < |m| ==> ks[i] == m[i].0
  {
    seq(|m|, i requires 0 <= i < |m| => m[i].0)
  }

  predicate Unique(ks: seq<string>)
  {
    forall i, j :: 0 <= i < j < |ks| ==> ks[i] != ks[j]
  }

  /** Every dict the source builds has each key at most once. */
  predicate IsDict<V>(m: Dict<V>)
  {
    Unique(Keys(m))
  }

  /** Position of the first occurrence of `k`. */
  function IndexOf(ks: seq<string>, k: string): (i: nat)
    requires k in ks
    ensures i < |ks| && ks[i] == k
    ensures forall j :: 0 <= j < i ==> ks[j] != k
  {
    if ks[0] == k then 0 else 1 + IndexOf(ks[1..], k)
  }

  /** `d.get(k)`: `None` exactly when the key is absent. */
  function Get<V>(m: Dict<V>, k: string): (r: Option<V>)
    ensures r.Some? <==> k in Keys(m)
  {
    if k in Keys(m) then Some(m[IndexOf(Keys(m), k)].1) else None
  }

  lemma IndexOfIs(ks: seq<string>, k: string, i: nat)
    requires i < |ks| && ks[i] == k
    requires forall j :: 0 <= j < i ==> ks[j] != k
    ensures IndexOf(ks, k) == i
  {
    var n := IndexOf(ks, k);
    assert !(n < i) && !(i < n);
  }

  /** In a dict, the entry at position `i` is what a lookup of its key finds. */
  lemma GetAt<V>(m: Dict<V>, i: nat)
    requires IsDict(m) && i < |m|
    ensures Get(m, m[i].0) == Some(m[i].1)
  {
    IndexOfIs(Keys(m), m[i].0, i);
  }

  /** `d[k] = v`: an upsert that keeps the position of an existing key. */
  function Put<V>(m: Dict<V>, k: string, v: V): (r: Dict<V>)
    ensures Keys(r) == if k in Keys(m) then Keys(m) else Keys(m) + [k]
    ensures IsDict(m) ==> IsDict(r)
  {
    if k in Keys(m) then
      var i := IndexOf(Keys(m), k);
      var r := m[i := (k, v)];
      assert Keys(r) == Keys(m);
      r
    else
      var r := m + [(k, v)];
      assert Keys(r) == Keys(m) + [k];
      r
  }

  /** After `d[k] = v`, `k` holds `v` and every other key what it held. */
  lemma PutGet<V>(m: Dict<V>, k: string, v: V)
    ensures Get(Put(m, k, v), k) == Some(v)
    ensures forall k' :: k' != k ==> Get(Put(m, k, v), k') == Get(m, k')
  {
    var r := Put(m, k, v);
    if k !in Keys(m) {
      forall k' | k' != k && k' in Keys(m)
        ensures IndexOf(Keys(r), k') == IndexOf(Keys(m), k')
      {
        IndexOfIs(Keys(r), k', IndexOf(Keys(m), k'));
      }
      IndexOfIs(Keys(r), k, |m|);
    }
  }

  /** Writing a fresh key appends its entry. */
  lemma PutFresh<V>(m: Dict<V>, k: string, v: V)
    requires k !in Keys(m)
    ensures Put(m, k, v) == m + [(k, v)]
  {
  }

  /** Which keys survive a skip list depends only on the keys. */
  lemma {:induction false} WithoutKeys<V>(es1: Dict<V>, es2: Dict<V>, skip: seq<string>)
    requires Keys(es1) == Keys(es2)
    ensures Keys(Without(es1, skip)) == Keys(Without(es2, skip))
    decreases |es1|
  {
    if es1 != [] {
      var n := |es1| - 1;
      assert Keys(es1[..n]) == Keys(es1)[..n] && Keys(es2[..n]) == Keys(es2)[..n];
      WithoutKeys(es1[..n], es2[..n], skip);
      assert es1[n].0 == Keys(es1)[n] == Keys(es2)[n] == es2[n].0;
      KeysAppend(Without(es1[..n], skip), es1[n]);
      KeysAppend(Without(es2[..n], skip), es2[n]);
    }
  }

  /** An empty skip list keeps every entry. */
  lemma {:induction false} WithoutNothing<V>(es: Dict<V>)
    ensures Without(es, []) == es
    decreases |es|
  {
    if es != [] {
      WithoutNothing(es[..|es| - 1]);
      assert es == es[..|es| - 1] + [es[|es| - 1]];
    }
  }

  /** `Keys(m) == ks`, stated entry by entry. */
  predicate KeysAre<V>(m: Dict<V>, ks: seq<string>)
    decreases |ks|
  {
    |m| == |ks| && (|ks| == 0 || (m[0].0 == ks[0] && KeysAre(m[1..], ks[1..])))
  }

  lemma {:induction false} KeysAreKeys<V>(m: Dict<V>, ks: seq<string>)
    requires KeysAre(m, ks)
    ensures Keys(m) == ks
    decreases |ks|
  {
    if |ks| > 0 {
      KeysAreKeys(m[1..], ks[1..]);
      assert Keys(m) == [ks[0]] + Keys(m[1..]);
    }
  }

  /** A dict less a skip list: still a dict, holding every wanted key that
      is not skipped, and written unchanged into an empty dict. */
  lemma WithoutFacts<V>(m: Dict<V>, skip: seq<string>, wanted: seq<string>)
    requires IsDict(m)
    requires forall k :: k in wanted ==> k in Keys(m) && k !in skip
    ensures IsDict(Without(m, skip))
    ensures forall k :: k in wanted ==> k in Keys(Without(m, skip))
    ensures PutAll([], Without(m, skip)) == Without(m, skip)
  {
    WithoutGet(m, skip, "");
    assert [] + Without(m, skip) == Without(m, skip);
    PutAllFresh([], Without(m, skip));
  }

  /** Writing a key twice keeps only the last value. */
  lemma PutTwice<V>(m: Dict<V>, k: string, v1: V, v2: V)
    ensures Put(Put(m, k, v1), k, v2) == Put(m, k, v2)
  {
    var m1 := Put(m, k, v1);
    if k in Keys(m) {
      assert Keys(m1) == Keys(m);
    } else {
      IndexOfIs(Keys(m1), k, |m|);
    }
  }

  /** Upserting every entry of `es`, first to last. */
  function PutAll<V>(m: Dict<V>, es: Dict<V>): Dict<V>
    decreases |es|
  {
    if es == [] then m
    else
      var n := |es| - 1;
      Put(PutAll(m, es[..n]), es[n].0, es[n].1)
  }

  lemma {:induction false} UniquePrefix(ks: seq<string>, n: nat)
    requires Unique(ks) && n <= |ks|
    ensures Unique(ks[..n])
  {
  }

  /** Upserting fresh keys just appends them, in order. */
  lemma {:induction false} PutAllFresh<V>(m: Dict<V>, es: Dict<V>)
    requires IsDict(m + es)
    ensures PutAll(m, es) == m + es
    decreases |es|
  {
    if es != [] {
      var n := |es| - 1;
      assert (m + es)[..|m| + n] == m + es[..n];
      assert Keys(m + es[..n]) == Keys(m + es)[..|m| + n];
      UniquePrefix(Keys(m + es), |m| + n);
      PutAllFresh(m, es[..n]);
      assert es[n].0 == Keys(m + es)[|m| + n];
      assert es[n].0 !in Keys(m + es[..n]);
      assert m + es[..n] + [es[n]] == m + es;
    }
  }

  lemma KeysAppend<V>(m: Dict<V>, e: (string, V))
    ensures Keys(m + [e]) == Keys(m) + [e.0]
  {
  }

  lemma UniqueAppend(ks: seq<string>, x: string)
    requires Unique(ks) && x !in ks
    ensures Unique(ks + [x])
  {
  }

  /** Appending an entry with a fresh key adds exactly that lookup. */
  lemma GetAppend<V>(m: Dict<V>, e: (string, V), k: string)
    requires e.0 !in Keys(m)
    ensures Get(m + [e], k) == if k == e.0 then Some(e.1) else Get(m, k)
  {
    KeysAppend(m, e);
    if k == e.0 {
      IndexOfIs(Keys(m + [e]), k, |m|);
    } else if k in Keys(m) {
      IndexOfIs(Keys(m + [e]), k, IndexOf(Keys(m), k));
    }
  }

  /** A dict is its entries before the last one, plus the last one, whose key is fresh. */
  lemma SplitLast<V>(es: Dict<V>)
    requires IsDict(es) && es != []
    ensures es == es[..|es| - 1] + [es[|es| - 1]]
    ensures IsDict(es[..|es| - 1])
    ensures es[|es| - 1].0 !in Keys(es[..|es| - 1])
  {
    var n := |es| - 1;
    assert Keys(es[..n]) == Keys(es)[..n];
    UniquePrefix(Keys(es), n);
  }

  /** After upserting the entries of a dict, a key has its value there if it
      is one of its keys, and its old value otherwise. */
  lemma {:induction false} PutAllGet<V>(m: Dict<V>, es: Dict<V>, k: string)
    requires IsDict(es)
    ensures Get(PutAll(m, es), k) == if k in Keys(es) then Get(es, k) else Get(m, k)
    decreases |es|
  {
    if es != [] {
      var n := |es| - 1;
      SplitLast(es);
      KeysAppend(es[..n], es[n]);
      GetAppend(es[..n], es[n], k);
      PutAllGet(m, es[..n], k);
      PutGet(PutAll(m, es[..n]), es[n].0, es[n].1);
    }
  }

  /** Upserting never loses a key and adds exactly the keys of `es`. */
  lemma {:induction false} PutAllKeys<V>(m: Dict<V>, es: Dict<V>, k: string)
    ensures k in Keys(PutAll(m, es)) <==> k in Keys(m) || k in Keys(es)
    decreases |es|
  {
    if es != [] {
      var n := |es| - 1;
      assert Keys(es) == Keys(es[..n]) + [es[n].0];
      PutAllKeys(m, es[..n], k);
    }
  }

  lemma {:induction false} PutAllIsDict<V>(m: Dict<V>, es: Dict<V>)
    requires IsDict(m)
    ensures IsDict(PutAll(m, es))
    decreases |es|
  {
    if es != [] {
      PutAllIsDict(m, es[..|es| - 1]);
    }
  }

  /** The entries whose keys are not in `skip`, in their original order. */
  function Without<V>(es: Dict<V>, skip: seq<string>): (r: Dict<V>)
    ensures forall k :: k in Keys(r) <==> k in Keys(es) && k !in skip
    decreases |es|
  {
    if es == [] then []
    else
      var n := |es| - 1;
      var init := Without(es[..n], skip);
      assert es == es[..n] + [es[n]];
      KeysAppend(es[..n], es[n]);
      KeysAppend(init, es[n]);
      if es[n].0 in skip then init else init + [es[n]]
  }

  /** Dropping entries keeps a dict a dict, and keeps every remaining lookup. */
  lemma {:induction false} WithoutGet<V>(es: Dict<V>, skip: seq<string>, k: string)
    requires IsDict(es)
    ensures IsDict(Without(es, skip))
    ensures Get(Without(es, skip), k) == if k in skip then None else Get(es, k)
    decreases |es|
  {
    if es != [] {
      var n := |es| - 1;
      var init := Without(es[..n], skip);
      SplitLast(es);
      WithoutGet(es[..n], skip, k);
      GetAppend(es[..n], es[n], k);
      if es[n].0 !in skip {
        assert es[n].0 !in Keys(init);
        KeysAppend(init, es[n]);
        UniqueAppend(Keys(init), es[n].0);
        GetAppend(init, es[n], k);
      }
    }
  }
}
