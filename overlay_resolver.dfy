/**
 * OverlayResolver: overlay layers (organization, platform, role, team,
 * workflow) read from an overlay directory, their configuration fragments
 * folded by a deep merge in precedence order, and their contexts collected in
 * the same order.
 */
module OverlayResolver {
  import opened Wrappers
  import opened Seqs
  import opened Assoc
  import opened Json
  import opened FileSystem
  import opened Contexts
  import opened ContextLoader

  /** One layer: its contexts and its `config.yml`, if one was read and parsed. */
  datatype OverlayContent = OverlayContent(contexts: seq<Context>, config: Option<Json>)

  /** The records are keyed by platform, role, team or workflow name, in insertion order. */
  type Layer = seq<(string, OverlayContent)>

  datatype Overlays = Overlays(
    organization: OverlayContent,
    platforms: Layer,
    roles: Layer,
    teams: Layer,
    workflows: Layer)

  const EmptyContent := OverlayContent([], None)

  /** `loadOverlayContexts`: every category directory, in enum order, when the directory exists. */
  function OverlayContexts(fs: Snapshot, parse: Parser, contextsPath: string): (r: seq<Context>)
    ensures !Exists(fs, contextsPath) ==> r == []
  {
    if !Exists(fs, contextsPath) then [] else CategoriesContexts(fs, parse, contextsPath, AllCategories)
  }

  /** The parsed `config.yml` of a layer, or None when it cannot be read or parsed. */
  function LayerConfig(fs: Snapshot, parse: Parser, overlayDir: string): (r: Option<Json>)
    ensures ReadFile(fs, Join(overlayDir, "config.yml")).None? ==> r.None?
  {
    match ReadFile(fs, Join(overlayDir, "config.yml"))
    case None => None
    case Some(text) => parse(text)
  }

  /** `loadOverlayContent`. */
  function OverlayContentAt(fs: Snapshot, parse: Parser, overlayDir: string): (r: OverlayContent)
    ensures !Exists(fs, overlayDir) ==> r == EmptyContent
    ensures Exists(fs, overlayDir) ==>
      r.contexts == OverlayContexts(fs, parse, Join(overlayDir, "contexts"))
      && r.config == LayerConfig(fs, parse, overlayDir)
  {
    if !Exists(fs, overlayDir) then EmptyContent
    else OverlayContent(OverlayContexts(fs, parse, Join(overlayDir, "contexts")), LayerConfig(fs, parse, overlayDir))
  }

  /** `loadOverlayContexts`. */
  method LoadOverlayContexts(fs: Snapshot, parse: Parser, contextsPath: string) returns (r: seq<Context>)
    ensures r == OverlayContexts(fs, parse, contextsPath)
  {
    r := [];
    if !Exists(fs, contextsPath) {
      return;
    }
    r := LoadCategories(fs, parse, contextsPath, AllCategories);
  }

  /** `loadOverlayContent`. */
  method LoadOverlayContent(fs: Snapshot, parse: Parser, overlayDir: string) returns (r: OverlayContent)
    ensures r == OverlayContentAt(fs, parse, overlayDir)
  {
    r := EmptyContent;
    if !Exists(fs, overlayDir) {
      return;
    }
    var contexts := LoadOverlayContexts(fs, parse, Join(overlayDir, "contexts"));
    r := r.(contexts := contexts);
    var text := ReadFile(fs, Join(overlayDir, "config.yml"));
    if text.Some? {
      r := r.(config := parse(text.value));
    }
  }

  /** A missing config.yml leaves the config undefined, and the contexts are still loaded. */
  lemma MissingConfigKeepsContexts(fs: Snapshot, parse: Parser, overlayDir: string)
    requires Exists(fs, overlayDir) && ReadFile(fs, Join(overlayDir, "config.yml")).None?
    ensures OverlayContentAt(fs, parse, overlayDir) ==
      OverlayContent(OverlayContexts(fs, parse, Join(overlayDir, "contexts")), None)
  {
  }

  function OrganizationDir(overlayPath: string): string { Join(overlayPath, "organization") }
  function PlatformDir(overlayPath: string, platform: string): string { Join(Join(overlayPath, "platforms"), platform) }
  function RoleDir(overlayPath: string, name: string): string { Join(Join(overlayPath, "roles"), name) }
  function TeamDir(overlayPath: string, name: string): string { Join(Join(overlayPath, "teams"), name) }
  function WorkflowDir(overlayPath: string, name: string): string { Join(Join(overlayPath, "workflows"), name) }

  /** What `resolveOverlays(conceptType, conceptName, platform)` returns. */
  function ResolvedOverlays(fs: Snapshot, parse: Parser, overlayPath: string, conceptType: string, conceptName: string, platform: Option<string>): Overlays {
    var org := OverlayContentAt(fs, parse, OrganizationDir(overlayPath));
    var platforms :=
      if platform.Some? && platform.value != "" then [(platform.value, OverlayContentAt(fs, parse, PlatformDir(overlayPath, platform.value)))]
      else [];
    var base := Overlays(org, platforms, [], [], []);
    if conceptType == "role" then base.(roles := [(conceptName, OverlayContentAt(fs, parse, RoleDir(overlayPath, conceptName)))])
    else if conceptType == "team" then base.(teams := [(conceptName, OverlayContentAt(fs, parse, TeamDir(overlayPath, conceptName)))])
    else if conceptType == "workflow" then base.(workflows := [(conceptName, OverlayContentAt(fs, parse, WorkflowDir(overlayPath, conceptName)))])
    else base
  }

  /** `resolveOverlays`. */
  method ResolveOverlays(fs: Snapshot, parse: Parser, overlayPath: string, conceptType: string, conceptName: string, platform: Option<string>)
    returns (r: Overlays)
    ensures r == ResolvedOverlays(fs, parse, overlayPath, conceptType, conceptName, platform)
  {
    var org := LoadOverlayContent(fs, parse, OrganizationDir(overlayPath));
    r := Overlays(org, [], [], [], []);
    if platform.Some? && platform.value != "" {
      var content := LoadOverlayContent(fs, parse, PlatformDir(overlayPath, platform.value));
      PutEmpty(platform.value, content);
      r := r.(platforms := Put(r.platforms, platform.value, content));
    }
    if conceptType == "role" {
      var content := LoadOverlayContent(fs, parse, RoleDir(overlayPath, conceptName));
      PutEmpty(conceptName, content);
      r := r.(roles := Put(r.roles, conceptName, content));
    } else if conceptType == "team" {
      var content := LoadOverlayContent(fs, parse, TeamDir(overlayPath, conceptName));
      PutEmpty(conceptName, content);
      r := r.(teams := Put(r.teams, conceptName, content));
    } else if conceptType == "workflow" {
      var content := LoadOverlayContent(fs, parse, WorkflowDir(overlayPath, conceptName));
      PutEmpty(conceptName, content);
      r := r.(workflows := Put(r.workflows, conceptName, content));
    }
  }

  /**
   * The organization layer is always loaded; `platforms` holds exactly the
   * given platform, or nothing; exactly one of roles, teams and workflows holds
   * `conceptName` for the types "role", "team" and "workflow", and any other
   * type adds nothing.
   */
  lemma ResolvedOverlaysShape(fs: Snapshot, parse: Parser, overlayPath: string, conceptType: string, conceptName: string, platform: Option<string>)
    ensures var o := ResolvedOverlays(fs, parse, overlayPath, conceptType, conceptName, platform);
      && o.organization == OverlayContentAt(fs, parse, OrganizationDir(overlayPath))
      && Keys(o.platforms) == (if platform.Some? && platform.value != "" then [platform.value] else [])
      && Keys(o.roles) == (if conceptType == "role" then [conceptName] else [])
      && Keys(o.teams) == (if conceptType == "team" then [conceptName] else [])
      && Keys(o.workflows) == (if conceptType == "workflow" then [conceptName] else [])
  {
  }

  /** The configs of a layer's entries, in insertion order. */
  function LayerConfigs(layer: Layer): (r: seq<Option<Json>>)
    ensures |r| == |layer| && forall i :: 0 <= i < |layer| ==> r[i] == layer[i].1.config
  {
    if |layer| == 0 then [] else [layer[0].1.config] + LayerConfigs(layer[1..])
  }

  /** Every config in precedence order: organization, platforms, roles, teams, workflows. */
  function AllConfigs(o: Overlays): seq<Option<Json>> {
    [o.organization.config] + LayerConfigs(o.platforms) + LayerConfigs(o.roles)
      + LayerConfigs(o.teams) + LayerConfigs(o.workflows)
  }

  /** One step of the fold: a present, truthy config is deep-merged; anything else is skipped. */
  function MergeStep(merged: Fields, config: Option<Json>): (r: Fields)
    ensures !TruthyOpt(config) ==> r == merged
  {
    if TruthyOpt(config) then DeepMerge(Concatenate, merged, SpreadFields(config)) else merged
  }

  /** The configs folded onto `base`, first to last. */
  function MergedConfig(base: Fields, configs: seq<Option<Json>>): (r: Fields)
    ensures |configs| == 0 ==> r == base
  {
    if |configs| == 0 then base
    else MergeStep(MergedConfig(base, configs[..|configs| - 1]), configs[|configs| - 1])
  }

  lemma {:induction false} MergedConfigAppend(base: Fields, a: seq<Option<Json>>, b: seq<Option<Json>>)
    ensures MergedConfig(base, a + b) == MergedConfig(MergedConfig(base, a), b)
    decreases |b|
  {
    if |b| == 0 {
      assert a + b == a;
    } else {
      assert (a + b)[..|a + b| - 1] == a + b[..|b| - 1];
      MergedConfigAppend(base, a, b[..|b| - 1]);
    }
  }

  lemma MergedConfigSnoc(base: Fields, configs: seq<Option<Json>>, i: nat)
    requires i < |configs|
    ensures MergedConfig(base, configs[..i + 1]) == MergeStep(MergedConfig(base, configs[..i]), configs[i])
  {
    assert configs[..i + 1][..i] == configs[..i];
  }

  /** Folds the configs of one record's entries onto `merged`. */
  method MergeLayer(merged: Fields, layer: Layer) returns (r: Fields)
    ensures r == MergedConfig(merged, LayerConfigs(layer))
  {
    r := merged;
    var i := 0;
    while i < |layer|
      invariant 0 <= i <= |layer|
      invariant r == MergedConfig(merged, LayerConfigs(layer)[..i])
    {
      MergedConfigSnoc(merged, LayerConfigs(layer), i);
      var config := layer[i].1.config;
      if TruthyOpt(config) {
        r := DeepMerge(Concatenate, r, SpreadFields(config));
      }
      i := i + 1;
    }
    assert LayerConfigs(layer)[..i] == LayerConfigs(layer);
  }

  /** `mergeConfigurations`. */
  method MergeConfigurations(base: Fields, overlays: Overlays) returns (r: Fields)
    ensures r == MergedConfig(base, AllConfigs(overlays))
  {
    var orgConfigs := [overlays.organization.config];
    r := base;
    if TruthyOpt(overlays.organization.config) {
      r := DeepMerge(Concatenate, r, SpreadFields(overlays.organization.config));
    }
    assert r == MergedConfig(base, orgConfigs) by {
      assert orgConfigs[..0] == [];
    }
    var p := LayerConfigs(overlays.platforms);
    var ro := LayerConfigs(overlays.roles);
    var t := LayerConfigs(overlays.teams);
    var w := LayerConfigs(overlays.workflows);
    r := MergeLayer(r, overlays.platforms);
    MergedConfigAppend(base, orgConfigs, p);
    r := MergeLayer(r, overlays.roles);
    MergedConfigAppend(base, orgConfigs + p, ro);
    r := MergeLayer(r, overlays.teams);
    MergedConfigAppend(base, orgConfigs + p + ro, t);
    r := MergeLayer(r, overlays.workflows);
    MergedConfigAppend(base, orgConfigs + p + ro + t, w);
  }

  /** The object a config fragment contributes, seen as object keys. */
  predicate ObjectConfig(config: Option<Json>) {
    TruthyOpt(config) && config.value.JObj? && DistinctKeys(config.value.fields)
  }

  /** A config that does not mention `k` leaves the merged value at `k` alone. */
  lemma MergeStepOther(merged: Fields, config: Option<Json>, k: string)
    requires k !in Keys(SpreadFields(config))
    ensures Get(MergeStep(merged, config), k) == Get(merged, k)
  {
    if TruthyOpt(config) {
      var src := SpreadFields(config);
      DeepMergeGetOut(Concatenate, merged, src, k);
    }
  }

  /** A config that sets `k` to a scalar leaves exactly that scalar at `k`. */
  lemma MergeStepScalar(merged: Fields, config: Option<Json>, k: string, v: Json)
    requires ObjectConfig(config)
    requires Get(config.value.fields, k) == Some(v) && !v.JObj? && !v.JArr?
    ensures Get(MergeStep(merged, config), k) == Some(v)
  {
    var src := config.value.fields;
    assert SpreadFields(config) == src;
    DeepMergeGet(Concatenate, merged, src, k);
    assert k in Keys(src);
    assert MergeValue(Concatenate, Get(merged, k), v) == v;
  }

  /**
   * A scalar (neither object nor array) that the last layer mentioning `k`
   * sets is the merged value at `k`: later layers win.
   */
  lemma MergedScalarLatest(base: Fields, configs: seq<Option<Json>>, i: nat, k: string, v: Json)
    requires i < |configs| && ObjectConfig(configs[i])
    requires Get(configs[i].value.fields, k) == Some(v) && !v.JObj? && !v.JArr?
    requires forall j :: i < j < |configs| ==> k !in Keys(SpreadFields(configs[j]))
    ensures Get(MergedConfig(base, configs), k) == Some(v)
  {
    var upto := configs[..i + 1];
    var later := configs[i + 1..];
    assert configs == upto + later;
    MergedConfigAppend(base, upto, later);
    MergedConfigSnoc(base, configs, i);
    MergeStepScalar(MergedConfig(base, configs[..i]), configs[i], k, v);
    forall j | 0 <= j < |later| ensures k !in Keys(SpreadFields(later[j])) {
      assert later[j] == configs[i + 1 + j];
    }
    MergedUntouched(MergedConfig(base, upto), later, k);
  }

  /** Configs that never mention `k` leave the merged value at `k` alone. */
  lemma {:induction false} MergedUntouched(merged: Fields, configs: seq<Option<Json>>, k: string)
    requires forall j :: 0 <= j < |configs| ==> k !in Keys(SpreadFields(configs[j]))
    ensures Get(MergedConfig(merged, configs), k) == Get(merged, k)
    decreases |configs|
  {
    if |configs| > 0 {
      var init := configs[..|configs| - 1];
      forall j | 0 <= j < |init| ensures k !in Keys(SpreadFields(init[j])) {
        assert init[j] == configs[j];
      }
      MergedUntouched(merged, init, k);
      MergeStepOther(MergedConfig(merged, init), configs[|configs| - 1], k);
    }
  }

  /** The array items a config holds under `k`, or none. */
  function ItemsAt(config: Option<Json>, k: string): seq<Json> {
    var v: Option<Json> := if TruthyOpt(config) then Get(SpreadFields(config), k) else None;
    if v.Some? && v.value.JArr? then v.value.items else []
  }

  /** The items the configs add under `k`: each array found there, first to last. */
  function ArrayItems(configs: seq<Option<Json>>, k: string): seq<Json> {
    if |configs| == 0 then []
    else ArrayItems(configs[..|configs| - 1], k) + ItemsAt(configs[|configs| - 1], k)
  }

  /** At `k`, a truthy config either says nothing or is an object holding an array. */
  predicate ArrayOrAbsent(config: Option<Json>, k: string) {
    TruthyOpt(config) && k in Keys(SpreadFields(config)) ==>
      ObjectConfig(config) && Get(SpreadFields(config), k).value.JArr?
  }

  predicate ArraysAt(configs: seq<Option<Json>>, k: string) {
    forall j :: 0 <= j < |configs| ==> ArrayOrAbsent(configs[j], k)
  }

  /** One layer of the array accumulation. */
  lemma MergeStepItems(prev: Fields, config: Option<Json>, k: string, x: seq<Json>)
    requires Get(prev, k) == Some(JArr(x)) && ArrayOrAbsent(config, k)
    ensures Get(MergeStep(prev, config), k) == Some(JArr(x + ItemsAt(config, k)))
  {
    if TruthyOpt(config) && k in Keys(SpreadFields(config)) {
      MergeStepArray(prev, config, k, x, Get(SpreadFields(config), k).value.items);
    } else {
      assert x + [] == x;
      MergeStepOther(prev, config, k);
    }
  }

  /** A layer holding an array at `k` appends its items to the merged array there. */
  lemma MergeStepArray(prev: Fields, config: Option<Json>, k: string, x: seq<Json>, b: seq<Json>)
    requires Get(prev, k) == Some(JArr(x))
    requires ObjectConfig(config) && Get(config.value.fields, k) == Some(JArr(b))
    ensures Get(MergeStep(prev, config), k) == Some(JArr(x + b))
  {
    DeepMergeGet(Concatenate, prev, config.value.fields, k);
  }

  lemma ArraysAtSplit(configs: seq<Option<Json>>, k: string)
    requires |configs| > 0 && ArraysAt(configs, k)
    ensures ArraysAt(configs[..|configs| - 1], k) && ArrayOrAbsent(configs[|configs| - 1], k)
  {
    assert forall j :: 0 <= j < |configs| - 1 ==> configs[..|configs| - 1][j] == configs[j];
  }

  /** The induction step of MergedArraysAccumulate. */
  lemma MergedArraysStep(base: Fields, configs: seq<Option<Json>>, k: string, a: seq<Json>)
    requires |configs| > 0 && ArrayOrAbsent(configs[|configs| - 1], k)
    requires Get(MergedConfig(base, configs[..|configs| - 1]), k) == Some(JArr(a + ArrayItems(configs[..|configs| - 1], k)))
    ensures Get(MergedConfig(base, configs), k) ==
      Some(JArr((a + ArrayItems(configs[..|configs| - 1], k)) + ItemsAt(configs[|configs| - 1], k)))
  {
    var n := |configs|;
    var prev := MergedConfig(base, configs[..n - 1]);
    var before := ArrayItems(configs[..n - 1], k);
    var items := ItemsAt(configs[n - 1], k);
    assert MergedConfig(base, configs) == MergeStep(prev, configs[n - 1]);
    MergeStepItems(prev, configs[n - 1], k, a + before);
  }

  lemma ArrayItemsSnoc(a: seq<Json>, configs: seq<Option<Json>>, k: string)
    requires |configs| > 0
    ensures (a + ArrayItems(configs[..|configs| - 1], k)) + ItemsAt(configs[|configs| - 1], k) == a + ArrayItems(configs, k)
  {
    var before := ArrayItems(configs[..|configs| - 1], k);
    var items := ItemsAt(configs[|configs| - 1], k);
    assert ArrayItems(configs, k) == before + items;
    assert (a + before) + items == a + (before + items);
  }

  /** Arrays under one key accumulate from the base through every layer, lowest precedence first. */
  lemma {:induction false} MergedArraysAccumulate(base: Fields, configs: seq<Option<Json>>, k: string, a: seq<Json>)
    requires Get(base, k) == Some(JArr(a))
    requires ArraysAt(configs, k)
    ensures Get(MergedConfig(base, configs), k) == Some(JArr(a + ArrayItems(configs, k)))
    decreases |configs|
  {
    if |configs| == 0 {
      assert a + [] == a;
    } else {
      ArraysAtSplit(configs, k);
      MergedArraysAccumulate(base, configs[..|configs| - 1], k, a);
      MergedArraysStep(base, configs, k, a);
      ArrayItemsSnoc(a, configs, k);
    }
  }

  /** Contexts of a record's entries, in insertion order. */
  function LayerContexts(layer: Layer): (r: seq<Context>)
    ensures |r| == LayerCount(layer)
  {
    if |layer| == 0 then [] else LayerContexts(layer[..|layer| - 1]) + layer[|layer| - 1].1.contexts
  }

  /** The sum of the context counts of a record's entries. */
  function LayerCount(layer: Layer): nat {
    if |layer| == 0 then 0 else LayerCount(layer[..|layer| - 1]) + |layer[|layer| - 1].1.contexts|
  }

  /** What `collectContexts` returns: organization, platforms, roles, teams, workflows. */
  function CollectedContexts(o: Overlays): seq<Context> {
    o.organization.contexts + LayerContexts(o.platforms) + LayerContexts(o.roles)
      + LayerContexts(o.teams) + LayerContexts(o.workflows)
  }

  /** The number of contexts over every layer. */
  function TotalCount(o: Overlays): nat {
    |o.organization.contexts| + LayerCount(o.platforms) + LayerCount(o.roles) + LayerCount(o.teams) + LayerCount(o.workflows)
  }

  /** collectContexts has as many contexts as all layers together. */
  lemma CollectedLength(o: Overlays)
    ensures |CollectedContexts(o)| == TotalCount(o)
  {
  }

  method PushLayer(acc: seq<Context>, layer: Layer) returns (r: seq<Context>)
    ensures r == acc + LayerContexts(layer)
  {
    r := acc;
    var i := 0;
    while i < |layer|
      invariant 0 <= i <= |layer|
      invariant r == acc + LayerContexts(layer[..i])
    {
      assert layer[..i + 1][..i] == layer[..i];
      r := r + layer[i].1.contexts;
      i := i + 1;
    }
    assert layer[..i] == layer;
  }

  /** `collectContexts`. */
  method CollectContexts(o: Overlays) returns (r: seq<Context>)
    ensures r == CollectedContexts(o)
  {
    r := o.organization.contexts;
    r := PushLayer(r, o.platforms);
    r := PushLayer(r, o.roles);
    r := PushLayer(r, o.teams);
    r := PushLayer(r, o.workflows);
  }
}
