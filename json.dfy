/**
 * JSON-like values as produced by YAML and JSON parsing, and the object
 * operations the source performs on them: key lookup, assignment that keeps
 * insertion order, object spread and the two recursive deep merges.
 */
module Json {
  import opened Wrappers
  import opened Seqs
  import opened Assoc

  /** A parsed YAML/JSON value. Objects are association lists in insertion order. */
  datatype Json =
    | JNull
    | JBool(b: bool)
    | JInt(n: int)
    | JStr(s: string)
    | JArr(items: seq<Json>)
    | JObj(fields: seq<(string, Json)>)

  type Fields = seq<(string, Json)>

  /** The object spread used for metadata: a missing or non-object value contributes no keys. */
  function SpreadFields(v: Option<Json>): (r: Fields)
    ensures v.Some? && v.value.JObj? ==> r == v.value.fields
    ensures !(v.Some? && v.value.JObj?) ==> r == []
  {
    if v.Some? && v.value.JObj? then v.value.fields else []
  }

  /** JavaScript truthiness of a present value (`undefined` is `None`, see TruthyOpt). */
  predicate Truthy(v: Json) {
    match v
    case JNull => false
    case JBool(b) => b
    case JInt(n) => n != 0
    case JStr(s) => s != ""
    case JArr(_) => true
    case JObj(_) => true
  }

  predicate TruthyOpt(v: Option<Json>) {
    v.Some? && Truthy(v.value)
  }

  /** `typeof v === 'object' && v !== null && !Array.isArray(v)`. */
  predicate IsPlainObject(v: Option<Json>) {
    v.Some? && v.value.JObj?
  }

  predicate IsArray(v: Option<Json>) {
    v.Some? && v.value.JArr?
  }

  /** How a deep merge treats two arrays under the same key. */
  datatype ArrayPolicy =
    | Concatenate  // overlay resolver: `[...target, ...source]`
    | Replace      // config loader: the source array wins

  /**
   * The value a deep merge stores under one key, given the target's value (if
   * any) and the source's value.
   */
  function MergeValue(policy: ArrayPolicy, t: Option<Json>, s: Json): (r: Json)
    ensures IsPlainObject(t) && s.JObj? ==> r.JObj?
    ensures !(IsPlainObject(t) && s.JObj?) && !(policy == Concatenate && IsArray(t) && s.JArr?) ==> r == s
    ensures policy == Concatenate && IsArray(t) && s.JArr? ==> r == JArr(t.value.items + s.items)
    decreases s, 2
  {
    if IsPlainObject(t) && s.JObj? then JObj(DeepMerge(policy, t.value.fields, s.fields))
    else if policy == Concatenate && IsArray(t) && s.JArr? then JArr(t.value.items + s.items)
    else s
  }

  /**
   * The first `n` source entries, each with the value the merge stores under
   * its key; the value merges the target's original value at that key.
   */
  function MergedEntries(policy: ArrayPolicy, target: Fields, source: Fields, n: nat): (r: Fields)
    requires n <= |source|
    ensures |r| == n
    ensures forall i :: 0 <= i < n ==> r[i].0 == source[i].0
    decreases JObj(source), 0, n
  {
    if n == 0 then []
    else
      assert source[n - 1] in source;
      var k := source[n - 1].0;
      MergedEntries(policy, target, source, n - 1) + [(k, MergeValue(policy, Get(target, k), source[n - 1].1))]
  }

  /** `deepMerge(target, source)`: each source key, in order, assigned its merged value onto a copy of `target`. */
  function DeepMerge(policy: ArrayPolicy, target: Fields, source: Fields): Fields
    decreases JObj(source), 1
  {
    Assign(target, MergedEntries(policy, target, source, |source|))
  }

  /** Each merged entry holds the merge of the target's value and the source entry's value. */
  lemma {:induction false} MergedEntryAt(policy: ArrayPolicy, target: Fields, source: Fields, n: nat, i: nat)
    requires i < n <= |source|
    ensures MergedEntries(policy, target, source, n)[i].1 == MergeValue(policy, Get(target, source[i].0), source[i].1)
  {
    if i < n - 1 {
      MergedEntryAt(policy, target, source, n - 1, i);
    }
  }

  /** The merged entries carry exactly the source's keys. */
  lemma MergedKeys(policy: ArrayPolicy, target: Fields, source: Fields)
    ensures Keys(MergedEntries(policy, target, source, |source|)) == Keys(source)
  {
  }

  /** A key the source does not have keeps the target's value. */
  lemma DeepMergeGetOut(policy: ArrayPolicy, target: Fields, source: Fields, k: string)
    requires k !in Keys(source)
    ensures Get(DeepMerge(policy, target, source), k) == Get(target, k)
  {
    MergedKeys(policy, target, source);
  }

  /**
   * deepMerge keeps every key that only the target has, and stores under every
   * source key the merge of the two values at that key.
   */
  lemma DeepMergeGet(policy: ArrayPolicy, target: Fields, source: Fields, k: string)
    requires DistinctKeys(source)
    ensures Get(DeepMerge(policy, target, source), k) ==
      if k in Keys(source) then Some(MergeValue(policy, Get(target, k), Get(source, k).value))
      else Get(target, k)
  {
    var merged := MergedEntries(policy, target, source, |source|);
    MergedKeys(policy, target, source);
    AssignGet(target, merged, k);
    if k in Keys(source) {
      var i := IndexOfElem(Keys(source), k).value;
      MergedEntryAt(policy, target, source, |source|, i);
      assert Get(merged, k) == Some(merged[i].1);
      assert Get(source, k) == Some(source[i].1);
    }
  }

  /** Every key of either side is a key of the result; the result repeats no key. */
  lemma DeepMergeKeys(policy: ArrayPolicy, target: Fields, source: Fields)
    ensures forall k :: k in Keys(target) || k in Keys(source) ==> k in Keys(DeepMerge(policy, target, source))
    ensures DistinctKeys(target) ==> DistinctKeys(DeepMerge(policy, target, source))
  {
    var merged := MergedEntries(policy, target, source, |source|);
    MergedKeys(policy, target, source);
    forall k | k in Keys(target) || k in Keys(source) ensures k in Keys(DeepMerge(policy, target, source)) {
      AssignKeys(target, merged, k);
    }
    if DistinctKeys(target) {
      AssignDistinct(target, merged);
    }
  }
}
