/**
 * Association lists standing for JavaScript objects and `Map`s: lookup, and
 * assignment that replaces in place or appends, so insertion order is kept.
 */
module Assoc {
  import opened Wrappers
  import opened Seqs

  /** The keys of an object, in insertion order. */
  function Keys<V>(f: seq<(string, V)>): (r: seq<string>)
    ensures |r| == |f| && forall i :: 0 <= i < |f| ==> r[i] == f[i].0
  {
    if |f| == 0 then [] else [f[0].0] + Keys(f[1..])
  }

  lemma KeysSnoc<V>(f: seq<(string, V)>)
    requires |f| > 0
    ensures Keys(f) == Keys(f[..|f| - 1]) + [f[|f| - 1].0]
  {
    var l := Keys(f);
    var r := Keys(f[..|f| - 1]) + [f[|f| - 1].0];
    assert |l| == |r|;
    forall i | 0 <= i < |f| ensures l[i] == r[i] {
      if i < |f| - 1 {
        assert f[..|f| - 1][i] == f[i];
      }
    }
  }

  /** JavaScript objects and Maps never hold the same key twice. */
  predicate DistinctKeys<V>(f: seq<(string, V)>) {
    Distinct(Keys(f))
  }

  lemma DistinctKeysPrefix<V>(f: seq<(string, V)>, n: nat)
    requires n <= |f| && DistinctKeys(f)
    ensures DistinctKeys(f[..n])
  {
    assert Keys(f[..n]) == Keys(f)[..n];
  }

  /** `obj[k]` or `map.get(k)`: the value of the first entry with key `k`, or `None` for `undefined`. */
  function Get<V>(f: seq<(string, V)>, k: string): (r: Option<V>)
    ensures r.None? <==> k !in Keys(f)
    ensures r.Some? ==> (k, r.value) in f
  {
    match IndexOfElem(Keys(f), k)
    case None => None
    case Some(i) => Some(f[i].1)
  }

  /** `obj[k] = v` or `map.set(k, v)`: replaces the value in place when the key exists, else appends it. */
  function Put<V>(f: seq<(string, V)>, k: string, v: V): (r: seq<(string, V)>)
    ensures k in Keys(f) ==> Keys(r) == Keys(f)
    ensures k !in Keys(f) ==> Keys(r) == Keys(f) + [k]
    ensures Get(r, k) == Some(v)
    ensures forall k' {:trigger Get(r, k')} :: k' != k ==> Get(r, k') == Get(f, k')
  {
    match IndexOfElem(Keys(f), k)
    case Some(i) =>
      var r := f[i := (k, v)];
      forall k' {:trigger Get(r, k')} | k' != k ensures Get(r, k') == Get(f, k') {
        ReplaceGet(f, i, v, k');
      }
      ReplaceGet(f, i, v, k);
      r
    case None =>
      var r := f + [(k, v)];
      forall k' {:trigger Get(r, k')} ensures Get(r, k') == if k' == k then Some(v) else Get(f, k') {
        AppendGet(f, k, v, k');
      }
      KeysSnoc(r);
      assert r[..|f|] == f;
      r
  }

  /** Replacing the entry at `i` keeps the keys and changes only that key's value. */
  lemma ReplaceGet<V>(f: seq<(string, V)>, i: nat, v: V, k': string)
    requires i < |f| && IndexOfElem(Keys(f), f[i].0) == Some(i)
    ensures Keys(f[i := (f[i].0, v)]) == Keys(f)
    ensures Get(f[i := (f[i].0, v)], k') == if k' == f[i].0 then Some(v) else Get(f, k')
  {
    var r := f[i := (f[i].0, v)];
    assert Keys(r) == Keys(f);
  }

  /** Appending a new key adds just that key's value. */
  lemma AppendGet<V>(f: seq<(string, V)>, k: string, v: V, k': string)
    requires k !in Keys(f)
    ensures Get(f + [(k, v)], k') == if k' == k then Some(v) else Get(f, k')
  {
    var r := f + [(k, v)];
    KeysSnoc(r);
    assert r[..|f|] == f;
    IndexOfElemSnoc(Keys(f), k, k');
  }

  /** Assigning onto an empty object gives the one-entry object. */
  lemma PutEmpty<V>(k: string, v: V)
    ensures Put([], k, v) == [(k, v)]
  {
  }

  lemma PutMembers<V>(f: seq<(string, V)>, k: string, v: V)
    ensures forall e :: e in Put(f, k, v) ==> e in f || e == (k, v)
  {
  }

  lemma PutDistinct<V>(f: seq<(string, V)>, k: string, v: V)
    requires DistinctKeys(f)
    ensures DistinctKeys(Put(f, k, v))
  {
  }

  /** `{...target, ...source}`: each key of `source`, in order, assigned onto a copy of `target`. */
  function Assign<V>(target: seq<(string, V)>, source: seq<(string, V)>): (r: seq<(string, V)>)
    ensures forall k :: k !in Keys(source) ==> Get(r, k) == Get(target, k)
    decreases |source|
  {
    if |source| == 0 then target
    else
      var init := source[..|source| - 1];
      assert Keys(source) == Keys(init) + [source[|source| - 1].0];
      Put(Assign(target, init), source[|source| - 1].0, source[|source| - 1].1)
  }

  lemma {:induction false} AssignGetIn<V>(target: seq<(string, V)>, source: seq<(string, V)>, i: nat)
    requires i < |source| && DistinctKeys(source)
    ensures Get(Assign(target, source), source[i].0) == Some(source[i].1)
    decreases |source|
  {
    var init := source[..|source| - 1];
    var last := source[|source| - 1];
    assert Assign(target, source) == Put(Assign(target, init), last.0, last.1);
    if i < |source| - 1 {
      assert Keys(source)[i] == source[i].0 != Keys(source)[|source| - 1];
      DistinctKeysPrefix(source, |source| - 1);
      assert init[i] == source[i];
      AssignGetIn(target, init, i);
    }
  }

  /** With distinct source keys, every source key takes the source's value. */
  lemma AssignGet<V>(target: seq<(string, V)>, source: seq<(string, V)>, k: string)
    requires DistinctKeys(source)
    ensures Get(Assign(target, source), k) == if k in Keys(source) then Get(source, k) else Get(target, k)
  {
    if k in Keys(source) {
      var i := IndexOfElem(Keys(source), k).value;
      GetAt(source, i);
      AssignGetIn(target, source, i);
    }
  }

  /** The keys after `{...target, ...source}` are the target's and the source's. */
  lemma {:induction false} AssignKeys<V>(target: seq<(string, V)>, source: seq<(string, V)>, k: string)
    ensures k in Keys(Assign(target, source)) <==> k in Keys(target) || k in Keys(source)
    decreases |source|
  {
    if |source| > 0 {
      var init := source[..|source| - 1];
      var last := source[|source| - 1];
      assert Keys(source) == Keys(init) + [last.0];
      assert Assign(target, source) == Put(Assign(target, init), last.0, last.1);
      AssignKeys(target, init, k);
    }
  }

  /** `{...target, ...source}` onto distinct keys repeats no key. */
  lemma {:induction false} AssignDistinct<V>(target: seq<(string, V)>, source: seq<(string, V)>)
    requires DistinctKeys(target)
    ensures DistinctKeys(Assign(target, source))
    decreases |source|
  {
    if |source| > 0 {
      var init := source[..|source| - 1];
      var last := source[|source| - 1];
      assert Assign(target, source) == Put(Assign(target, init), last.0, last.1);
      AssignDistinct(target, init);
      PutDistinct(Assign(target, init), last.0, last.1);
    }
  }

  /** Entries added after a key's first entry do not change its lookup. */
  lemma GetPrefix<V>(init: seq<(string, V)>, f: seq<(string, V)>, k: string)
    requires |init| <= |f| && init == f[..|init|]
    requires k in Keys(init)
    ensures Get(f, k) == Get(init, k)
  {
    assert Keys(init) == Keys(f)[..|init|];
    IndexOfElemPrefix(Keys(init), Keys(f), k);
  }

  /** Without repeated keys, every entry is what its key looks up. */
  lemma GetAt<V>(f: seq<(string, V)>, i: nat)
    requires i < |f| && DistinctKeys(f)
    ensures Get(f, f[i].0) == Some(f[i].1)
  {
    assert Keys(f)[i] == f[i].0;
    var j := IndexOfElem(Keys(f), f[i].0).value;
    assert Keys(f)[j] == Keys(f)[i];
  }

  /** Without repeated keys, the last entry is what its key looks up. */
  lemma GetLast<V>(f: seq<(string, V)>, k: string)
    requires |f| > 0 && DistinctKeys(f) && f[|f| - 1].0 == k
    ensures Get(f, k) == Some(f[|f| - 1].1)
  {
    assert Keys(f)[|f| - 1] == k;
    var i := IndexOfElem(Keys(f), k).value;
    assert Keys(f)[i] == Keys(f)[|f| - 1];
  }
}
