/**
 * OverlayUtils: whether any overlay was resolved, how many overlay contexts
 * there are, which overlay contexts collide with base contexts, and the three
 * strategies for combining a colliding pair.
 */
module OverlayUtils {
  import opened Wrappers
  import opened Assoc
  import opened Json
  import opened FileSystem
  import opened Contexts
  import opened ContextLoader
  import opened OverlayResolver

  /** `hasOverlays`: the organization has contexts, or some record has an entry. */
  predicate HasOverlays(o: Overlays) {
    || |o.organization.contexts| > 0
    || |o.platforms| > 0
    || |o.roles| > 0
    || |o.teams| > 0
    || |o.workflows| > 0
  }

  /** Without overlays there is nothing to collect; the converse fails for entries without contexts. */
  lemma NoOverlaysNoContexts(o: Overlays)
    ensures !HasOverlays(o) ==> CollectedContexts(o) == []
    ensures HasOverlays(o) && |CollectedContexts(o)| == 0 ==> |o.organization.contexts| == 0
  {
  }

  /** A resolved role, team or workflow always has overlays, even when every directory is missing. */
  lemma ResolvedConceptHasOverlays(fs: Snapshot, parse: Parser, overlayPath: string, conceptType: string, conceptName: string, platform: Option<string>)
    requires conceptType == "role" || conceptType == "team" || conceptType == "workflow"
    ensures HasOverlays(ResolvedOverlays(fs, parse, overlayPath, conceptType, conceptName, platform))
  {
  }

  /** Adds the context counts of one record's entries to `count`. */
  method CountLayer(count: nat, layer: Layer) returns (r: nat)
    ensures r == count + LayerCount(layer)
  {
    r := count;
    var i := 0;
    while i < |layer|
      invariant 0 <= i <= |layer|
      invariant r == count + LayerCount(layer[..i])
    {
      assert layer[..i + 1][..i] == layer[..i];
      r := r + |layer[i].1.contexts|;
      i := i + 1;
    }
    assert layer[..i] == layer;
  }

  /** `countContexts`: the number of contexts `collectContexts` returns. */
  method CountContexts(o: Overlays) returns (r: nat)
    ensures r == |CollectedContexts(o)|
  {
    r := |o.organization.contexts|;
    r := CountLayer(r, o.platforms);
    r := CountLayer(r, o.roles);
    r := CountLayer(r, o.teams);
    r := CountLayer(r, o.workflows);
    CollectedLength(o);
  }

  /** Two contexts collide when they share category and name. */
  predicate SameIdentity(a: Context, b: Context) {
    a.category == b.category && a.name == b.name
  }

  /** `baseContexts.find(...)`: the first base context with the overlay's category and name. */
  function FindBase(base: seq<Context>, overlay: Context): (r: Option<Context>)
    ensures r.None? <==> forall b :: b in base ==> !SameIdentity(b, overlay)
    ensures r.Some? ==> r.value in base && SameIdentity(r.value, overlay)
  {
    if |base| == 0 then None
    else if SameIdentity(base[0], overlay) then Some(base[0])
    else FindBase(base[1..], overlay)
  }

  /** The first match comes before every other match. */
  lemma {:induction false} FindBaseFirst(base: seq<Context>, overlay: Context, i: nat)
    requires i < |base| && SameIdentity(base[i], overlay)
    requires forall j :: 0 <= j < i ==> !SameIdentity(base[j], overlay)
    ensures FindBase(base, overlay) == Some(base[i])
  {
    if i > 0 {
      FindBaseFirst(base[1..], overlay, i - 1);
    }
  }

  datatype Conflict = Conflict(base: Context, overlay: Context)

  /** What `findConflicts` returns: one pair per overlay context that has a base match, in overlay order. */
  function Conflicts(base: seq<Context>, overlays: seq<Context>): (r: seq<Conflict>)
    ensures |r| <= |overlays|
    ensures forall p :: p in r ==> SameIdentity(p.base, p.overlay) && p.base in base && p.overlay in overlays
  {
    if |overlays| == 0 then []
    else
      var init := overlays[..|overlays| - 1];
      var last := overlays[|overlays| - 1];
      var found := FindBase(base, last);
      assert forall c :: c in init ==> c in overlays;
      Conflicts(base, init) + (if found.Some? then [Conflict(found.value, last)] else [])
  }

  /** The overlay contexts that have a base match, in order. */
  function Matched(base: seq<Context>, overlays: seq<Context>): seq<Context> {
    if |overlays| == 0 then []
    else
      var init := overlays[..|overlays| - 1];
      var last := overlays[|overlays| - 1];
      Matched(base, init) + (if FindBase(base, last).Some? then [last] else [])
  }

  function OverlaysOf(cs: seq<Conflict>): (r: seq<Context>)
    ensures |r| == |cs| && forall i :: 0 <= i < |cs| ==> r[i] == cs[i].overlay
  {
    if |cs| == 0 then [] else [cs[0].overlay] + OverlaysOf(cs[1..])
  }

  lemma OverlaysOfAppend(a: seq<Conflict>, b: seq<Conflict>)
    ensures OverlaysOf(a + b) == OverlaysOf(a) + OverlaysOf(b)
  {
  }

  /** The pairs' overlays are the matched overlay contexts, in overlay order. */
  lemma {:induction false} ConflictOverlays(base: seq<Context>, overlays: seq<Context>)
    ensures OverlaysOf(Conflicts(base, overlays)) == Matched(base, overlays)
  {
    if |overlays| > 0 {
      var init := overlays[..|overlays| - 1];
      var last := overlays[|overlays| - 1];
      ConflictOverlays(base, init);
      var found := FindBase(base, last);
      OverlaysOfAppend(Conflicts(base, init), if found.Some? then [Conflict(found.value, last)] else []);
    }
  }

  /** Each pair's base is the first base context matching its overlay. */
  lemma {:induction false} ConflictBases(base: seq<Context>, overlays: seq<Context>, p: Conflict)
    requires p in Conflicts(base, overlays)
    ensures Some(p.base) == FindBase(base, p.overlay)
  {
    var init := overlays[..|overlays| - 1];
    var last := overlays[|overlays| - 1];
    var found := FindBase(base, last);
    var tail := if found.Some? then [Conflict(found.value, last)] else [];
    assert Conflicts(base, overlays) == Conflicts(base, init) + tail;
    if p in Conflicts(base, init) {
      ConflictBases(base, init, p);
    } else {
      assert p in tail;
    }
  }

  /**
   * The pairs' overlays are exactly the matched overlay contexts in overlay
   * order, so an overlay without a base match gives no pair; each pair's base
   * is the first base context matching its overlay.
   */
  lemma ConflictsExact(base: seq<Context>, overlays: seq<Context>)
    ensures OverlaysOf(Conflicts(base, overlays)) == Matched(base, overlays)
    ensures forall p :: p in Conflicts(base, overlays) ==> Some(p.base) == FindBase(base, p.overlay)
  {
    ConflictOverlays(base, overlays);
    forall p | p in Conflicts(base, overlays) ensures Some(p.base) == FindBase(base, p.overlay) {
      ConflictBases(base, overlays, p);
    }
  }

  /** `findConflicts`. */
  method FindConflicts(base: seq<Context>, overlays: seq<Context>) returns (r: seq<Conflict>)
    ensures r == Conflicts(base, overlays)
  {
    r := [];
    var i := 0;
    while i < |overlays|
      invariant 0 <= i <= |overlays|
      invariant r == Conflicts(base, overlays[..i])
    {
      assert overlays[..i + 1][..i] == overlays[..i];
      var found := FindBase(base, overlays[i]);
      if found.Some? {
        r := r + [Conflict(found.value, overlays[i])];
      }
      i := i + 1;
    }
    assert overlays[..i] == overlays;
  }

  const MergeHeading := "\n\n## Overlay Additions\n\n"
  const AppendHeading := "\n\n## Additional Requirements (from overlay)\n\n"

  /**
   * `mergeConflicts(base, overlay, strategy)`. The default strategy is
   * "override", which returns the overlay, as does every unknown strategy.
   */
  function MergeConflicts(base: Context, overlay: Context, strategy: string): (r: Context)
    ensures strategy != "merge" && strategy != "append" ==> r == overlay
    ensures strategy == "merge" || strategy == "append" ==>
      r.category == base.category && r.name == base.name && r.path == base.path
    ensures strategy == "merge" ==>
      && r.content == base.content + MergeHeading + overlay.content
      && r.metadata == Some(JObj(Assign(SpreadFields(base.metadata), SpreadFields(overlay.metadata))))
    ensures strategy == "append" ==>
      r.content == base.content + AppendHeading + overlay.content && r.metadata == base.metadata
  {
    if strategy == "override" then overlay
    else if strategy == "merge" then
      base.(content := base.content + MergeHeading + overlay.content,
            metadata := Some(JObj(Assign(SpreadFields(base.metadata), SpreadFields(overlay.metadata)))))
    else if strategy == "append" then
      base.(content := base.content + AppendHeading + overlay.content)
    else overlay
  }

  /** Under "merge" the overlay's metadata keys take precedence; base-only keys survive. */
  lemma MergedMetadata(base: Context, overlay: Context, k: string)
    requires DistinctKeys(SpreadFields(overlay.metadata))
    ensures var m := MergeConflicts(base, overlay, "merge").metadata.value.fields;
      Get(m, k) == if k in Keys(SpreadFields(overlay.metadata)) then Get(SpreadFields(overlay.metadata), k)
        else Get(SpreadFields(base.metadata), k)
  {
    AssignGet(SpreadFields(base.metadata), SpreadFields(overlay.metadata), k);
  }
}
