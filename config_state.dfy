/**
 * The process-wide configuration: a stored config that `getConfig` loads on
 * first use, `initConfig` reloads and `updateConfig` merges into, and the
 * accessors that read entries of it. The project search that `load` performs
 * is a parameter `found` (the config the search found, if any).
 */
module ConfigState {
  import opened Wrappers
  import opened Seqs
  import opened Assoc
  import opened Json
  import opened ConfigLoader

  /** `config.platforms?.[roleName] || null`. */
  function PlatformFor(config: Fields, roleName: string): (r: Option<Json>)
    ensures r.Some? <==> (IsPlainObject(Get(config, "platforms")) &&
      TruthyOpt(Get(Get(config, "platforms").value.fields, roleName)))
    ensures r.Some? ==> r == Get(Get(config, "platforms").value.fields, roleName)
  {
    Entry(config, "platforms", roleName)
  }

  /** `config.mcp_servers?.[serverName] || null`. */
  function McpServerFor(config: Fields, serverName: string): (r: Option<Json>)
    ensures r.Some? <==> (IsPlainObject(Get(config, "mcp_servers")) &&
      TruthyOpt(Get(Get(config, "mcp_servers").value.fields, serverName)))
    ensures r.Some? ==> r == Get(Get(config, "mcp_servers").value.fields, serverName)
  {
    Entry(config, "mcp_servers", serverName)
  }

  /** A truthy entry `key` of the object section `section`, or `null`. */
  function Entry(config: Fields, section: string, key: string): Option<Json> {
    var s := Get(config, section);
    if IsPlainObject(s) && TruthyOpt(Get(s.value.fields, key)) then Get(s.value.fields, key) else None
  }

  /** `config.overlays?.[field]`: `undefined` unless `overlays` is an object holding `field`. */
  function OverlaysField(config: Fields, field: string): Option<Json> {
    var o := Get(config, "overlays");
    if IsPlainObject(o) then Get(o.value.fields, field) else None
  }

  /** `config.overlays?.enabled !== false`. */
  function OverlaysEnabled(config: Fields): (r: bool)
    ensures !r <==> OverlaysField(config, "enabled") == Some(JBool(false))
  {
    OverlaysField(config, "enabled") != Some(JBool(false))
  }

  /** The overlay search paths when `overlays.paths` is not set. */
  const DefaultOverlayPaths := JArr([JStr(DefaultOverlayPath)])

  /** `config.overlays?.paths || ['.faber/overlays']`. */
  function OverlayPaths(config: Fields): (r: Json)
    ensures TruthyOpt(OverlaysField(config, "paths")) ==> r == OverlaysField(config, "paths").value
    ensures !TruthyOpt(OverlaysField(config, "paths")) ==> r == DefaultOverlayPaths
  {
    var p := OverlaysField(config, "paths");
    if TruthyOpt(p) then p.value else DefaultOverlayPaths
  }

  lemma DefaultOverlaysSection()
    ensures Get(DefaultConfig, "overlays") ==
      Some(JObj([("enabled", JBool(true)), ("paths", JArr([JStr(DefaultOverlayPath)]))]))
  {
    assert Keys(DefaultConfig)[..2] == ["platforms", "mcp_servers"];
    assert "platforms"[0] != "overlays"[0] && "mcp_servers"[0] != "overlays"[0];
    IndexOfElemFirst(Keys(DefaultConfig), "overlays", 2);
  }

  lemma DefaultOverlaysFields()
    ensures var o := [("enabled", JBool(true)), ("paths", JArr([JStr(DefaultOverlayPath)]))];
      Get(o, "enabled") == Some(JBool(true)) && Get(o, "paths") == Some(JArr([JStr(DefaultOverlayPath)]))
  {
    var o := [("enabled", JBool(true)), ("paths", JArr([JStr(DefaultOverlayPath)]))];
    assert Keys(o)[..1] == ["enabled"];
    assert "enabled"[0] != "paths"[0];
    IndexOfElemFirst(Keys(o), "paths", 1);
  }

  /** The default configuration enables overlays and lists the default overlay path. */
  lemma DefaultOverlays()
    ensures OverlaysEnabled(DefaultConfig)
    ensures OverlayPaths(DefaultConfig) == DefaultOverlayPaths
  {
    DefaultOverlaysSection();
    DefaultOverlaysFields();
  }

  /**
   * A config without an `overlays` section is given `{enabled: true}` by
   * validation: overlays are then enabled and searched for in the default path.
   */
  lemma MissingOverlaysSection(config: Fields)
    requires Get(config, "overlays").None? && ValidatedConfig(config).Ok?
    ensures OverlaysEnabled(ValidatedConfig(config).value)
    ensures OverlayPaths(ValidatedConfig(config).value) == DefaultOverlayPaths
  {
    var c := ValidatedConfig(config).value;
    WithSectionsGet(config, "overlays");
    assert Get(c, "overlays") == Some(JObj([("enabled", JBool(true))]));
    EnabledOnlyFields();
    assert OverlaysField(c, "enabled") == Some(JBool(true));
    assert OverlaysField(c, "paths").None?;
  }

  lemma EnabledOnlyFields()
    ensures Get([("enabled", JBool(true))], "enabled") == Some(JBool(true))
    ensures Get([("enabled", JBool(true))], "paths").None?
  {
    assert Keys([("enabled", JBool(true))]) == ["enabled"];
    assert "enabled"[0] != "paths"[0];
  }

  /** Only an explicit `enabled: false` switches overlays off; any other value, or none, leaves them on. */
  lemma OverlaysEnabledUnlessFalse(config: Fields, v: Json)
    requires IsPlainObject(Get(config, "overlays")) && Get(Get(config, "overlays").value.fields, "enabled") == Some(v)
    ensures OverlaysEnabled(config) <==> v != JBool(false)
  {
  }

  /** After `updateConfig(updates)`, a non-object value that `updates` sets is the stored value. */
  lemma UpdateWins(current: Fields, updates: Fields, k: string)
    requires DistinctKeys(updates) && k in Keys(updates) && !Get(updates, k).value.JObj?
    ensures Get(MergeAll([current, updates]), k) == Get(updates, k)
  {
    MergeLastWins([current, updates], k);
  }

  /** What `getConfig()` returns in a state: the stored config, or a fresh load. */
  function Current(stored: Option<Fields>, found: Option<Json>): Result<Fields> {
    if stored.Some? then Ok(stored.value) else Load(found)
  }

  /**
   * The module state: `globalConfig` (None until first loaded) and whether the
   * `configLoader` instance has been created.
   */
  class GlobalConfig {
    var stored: Option<Fields>
    var loaderCreated: bool

    /** The state at module load: nothing stored, no loader. */
    constructor()
      ensures stored == None && !loaderCreated
    {
      stored := None;
      loaderCreated := false;
    }

    /** `initConfig(startPath)`: always loads again and overwrites what is stored; a throw leaves it as it was. */
    method InitConfig(found: Option<Json>) returns (r: Result<Fields>)
      modifies this
      ensures r == Load(found)
      ensures loaderCreated
      ensures r.Ok? ==> stored == Some(r.value)
      ensures r.Err? ==> stored == old(stored)
    {
      if !loaderCreated {
        loaderCreated := true;
      }
      r := Load(found);
      if r.Ok? {
        stored := Some(r.value);
      }
    }

    /** `getConfig()`: loads only when nothing is stored yet; otherwise returns the stored config unchanged. */
    method GetConfig(found: Option<Json>) returns (r: Result<Fields>)
      modifies this
      ensures r == Current(old(stored), found)
      ensures r.Ok? ==> stored == Some(r.value)
      ensures r.Err? ==> stored == old(stored)
      ensures loaderCreated == (old(loaderCreated) || old(stored).None?)
    {
      if stored.None? {
        r := InitConfig(found);
      } else {
        r := Ok(stored.value);
      }
    }

    /** `updateConfig(updates)`: stores `merge(current, updates)` on top of the (lazily loaded) current config. */
    method UpdateConfig(updates: Fields, found: Option<Json>) returns (r: Result<Fields>)
      modifies this
      ensures r.Ok? <==> Current(old(stored), found).Ok?
      ensures r.Ok? ==> r.value == MergeAll([Current(old(stored), found).value, updates])
      ensures r.Ok? ==> stored == Some(r.value)
      ensures r.Err? ==> r == Current(old(stored), found) && stored == old(stored)
      ensures loaderCreated
    {
      if !loaderCreated {
        loaderCreated := true;
      }
      var current := GetConfig(found);
      if current.Err? {
        return current;
      }
      var merged := Merge([current.value, updates]);
      stored := Some(merged);
      r := Ok(merged);
    }

    /** `getPlatformForRole(roleName)`: the accessor applied to the current config. */
    method GetPlatformForRole(roleName: string, found: Option<Json>) returns (r: Result<Option<Json>>)
      modifies this
      ensures r.Ok? <==> Current(old(stored), found).Ok?
      ensures r.Ok? ==> r.value == PlatformFor(Current(old(stored), found).value, roleName)
      ensures old(stored).Some? ==> stored == old(stored)
    {
      var config := GetConfig(found);
      if config.Err? {
        return Err(config.error);
      }
      var c := config.value;
      r := Ok(PlatformFor(c, roleName));
    }

    /** `getMCPServerConfig(serverName)`: the accessor applied to the current config. */
    method GetMcpServerConfig(serverName: string, found: Option<Json>) returns (r: Result<Option<Json>>)
      modifies this
      ensures r.Ok? <==> Current(old(stored), found).Ok?
      ensures r.Ok? ==> r.value == McpServerFor(Current(old(stored), found).value, serverName)
      ensures old(stored).Some? ==> stored == old(stored)
    {
      var config := GetConfig(found);
      if config.Err? {
        return Err(config.error);
      }
      var c := config.value;
      r := Ok(McpServerFor(c, serverName));
    }

    /** `overlaysEnabled()`: the accessor applied to the current config. */
    method OverlaysEnabledNow(found: Option<Json>) returns (r: Result<bool>)
      modifies this
      ensures r.Ok? <==> Current(old(stored), found).Ok?
      ensures r.Ok? ==> r.value == OverlaysEnabled(Current(old(stored), found).value)
      ensures old(stored).Some? ==> stored == old(stored)
    {
      var config := GetConfig(found);
      if config.Err? {
        return Err(config.error);
      }
      var c := config.value;
      r := Ok(OverlaysEnabled(c));
    }

    /** `getOverlayPaths()`: the accessor applied to the current config. */
    method OverlayPathsNow(found: Option<Json>) returns (r: Result<Json>)
      modifies this
      ensures r.Ok? <==> Current(old(stored), found).Ok?
      ensures r.Ok? ==> r.value == OverlayPaths(Current(old(stored), found).value)
      ensures old(stored).Some? ==> stored == old(stored)
    {
      var config := GetConfig(found);
      if config.Err? {
        return Err(config.error);
      }
      var c := config.value;
      r := Ok(OverlayPaths(c));
    }
  }

  /** Two `getConfig()` calls in a row load at most once and return the same config. */
  method GetConfigTwice(g: GlobalConfig, found1: Option<Json>, found2: Option<Json>)
    returns (a: Result<Fields>, b: Result<Fields>)
    modifies g
    ensures a.Ok? ==> b == a
  {
    a := g.GetConfig(found1);
    b := g.GetConfig(found2);
  }
}
