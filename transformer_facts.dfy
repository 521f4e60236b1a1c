/**
 * What a Claude Code deployment holds: which paths the files map has and in
 * which order, what each path ends up containing, which directories are
 * listed, which overlay contexts the agent file sees and which MCP servers it
 * names.
 */
module ClaudeCodeFacts {
  import opened Wrappers
  import opened Seqs
  import opened Assoc
  import opened Json
  import opened FileSystem
  import opened Contexts
  import opened OverlayResolver
  import opened ConfigState
  import opened ConceptTypes
  import opened ClaudeCode

  // ---------------------------------------------------------------------------
  // The files map

  /** A `Map` lists its keys in the order they were first set. */
  lemma {:induction false} FileKeysInWriteOrder(ws: seq<Write>)
    ensures Keys(ApplyWrites([], ws)) == Dedup(Keys(ws))
    decreases |ws|
  {
    if |ws| > 0 {
      var init := ws[..|ws| - 1];
      FileKeysInWriteOrder(init);
      assert Keys(ws)[..|ws| - 1] == Keys(init);
    }
  }

  /**
   * The artifact's files: every written path once, in first-write order, each
   * holding the content of the last write to it.
   */
  lemma ArtifactFiles(bc: BindingConfig, rd: Renderers, role: Role, config: Fields, o: Overlays, p: string)
    ensures Keys(Transformed(bc, rd, role, config, o).files) == Dedup(Keys(AllWrites(bc, rd, role, config, o)))
    ensures DistinctKeys(Transformed(bc, rd, role, config, o).files)
    ensures Get(Transformed(bc, rd, role, config, o).files, p) == LastWrite(AllWrites(bc, rd, role, config, o), p)
  {
    var ws := AllWrites(bc, rd, role, config, o);
    FileKeysInWriteOrder(ws);
    ApplyWritesGet([], ws, p);
  }

  /** A write that no later step overwrites is what the artifact holds at its path. */
  lemma SurvivingWrite(bc: BindingConfig, rd: Renderers, role: Role, config: Fields, o: Overlays, i: nat)
    requires i < |AllWrites(bc, rd, role, config, o)|
    requires forall j :: i < j < |AllWrites(bc, rd, role, config, o)| ==>
      AllWrites(bc, rd, role, config, o)[j].0 != AllWrites(bc, rd, role, config, o)[i].0
    ensures Get(Transformed(bc, rd, role, config, o).files, AllWrites(bc, rd, role, config, o)[i].0) ==
      Some(AllWrites(bc, rd, role, config, o)[i].1)
  {
    var ws := AllWrites(bc, rd, role, config, o);
    LastWriteAt(ws, i);
    ArtifactFiles(bc, rd, role, config, o, ws[i].0);
  }

  /** The config is written last, so `config_path` always holds `yaml.dump(config)`. */
  lemma ConfigFileWritten(bc: BindingConfig, rd: Renderers, role: Role, config: Fields, o: Overlays)
    ensures Get(Transformed(bc, rd, role, config, o).files, bc.configPath) == Some(rd.dump(JObj(config)))
  {
    var ws := AllWrites(bc, rd, role, config, o);
    assert ws[|ws| - 1] == ConfigWrite(bc, rd, config);
    ArtifactFiles(bc, rd, role, config, o, bc.configPath);
  }

  /** The agent file is written first: it is in the artifact unless a later write reuses its path. */
  lemma AgentFileWritten(bc: BindingConfig, rd: Renderers, role: Role, config: Fields, o: Overlays)
    requires ResolvePath(bc.rolePath, role.metadata) !in Keys(AllWrites(bc, rd, role, config, o)[1..])
    ensures Get(Transformed(bc, rd, role, config, o).files, ResolvePath(bc.rolePath, role.metadata)) ==
      Some(AgentContent(bc, rd, role, config, o))
  {
    var ws := AllWrites(bc, rd, role, config, o);
    assert ws[0] == AgentWrite(bc, rd, role, config, o);
    NotRewritten(ws);
    SurvivingWrite(bc, rd, role, config, o, 0);
  }

  /** A first path missing from the later writes is written by no later step. */
  lemma NotRewritten(ws: seq<Write>)
    requires |ws| > 0 && ws[0].0 !in Keys(ws[1..])
    ensures forall j :: 0 < j < |ws| ==> ws[j].0 != ws[0].0
  {
    forall j | 0 < j < |ws| ensures ws[j].0 != ws[0].0 {
      assert Keys(ws[1..])[j - 1] == ws[j].0;
    }
  }

  // ---------------------------------------------------------------------------
  // The directories

  lemma {:induction false} DirsMembers(ws: seq<Write>, d: string)
    ensures d in Dirs(ws) <==> exists i :: 0 <= i < |ws| && Dirname(ws[i].0) == d
    decreases |ws|
  {
    if |ws| > 0 {
      var init := ws[..|ws| - 1];
      DirsMembers(init, d);
      if exists i :: 0 <= i < |ws| && Dirname(ws[i].0) == d {
        var i :| 0 <= i < |ws| && Dirname(ws[i].0) == d;
        if i < |ws| - 1 {
          assert init[i] == ws[i];
        }
      }
      if exists i :: 0 <= i < |init| && Dirname(init[i].0) == d {
        var i :| 0 <= i < |init| && Dirname(init[i].0) == d;
        assert ws[i] == init[i];
      }
    }
  }

  /** `[...new Set(directories)]`: the parent directory of every written path, each once. */
  lemma ArtifactDirectories(bc: BindingConfig, rd: Renderers, role: Role, config: Fields, o: Overlays, d: string)
    ensures Distinct(Transformed(bc, rd, role, config, o).directories)
    ensures d in Transformed(bc, rd, role, config, o).directories <==>
      exists i :: 0 <= i < |AllWrites(bc, rd, role, config, o)| && Dirname(AllWrites(bc, rd, role, config, o)[i].0) == d
  {
    DirsMembers(AllWrites(bc, rd, role, config, o), d);
  }

  // ---------------------------------------------------------------------------
  // Overlay copies

  lemma JoinUnder(a: string, b: string)
    ensures a + "/" <= Join(a, b)
  {
    assert Join(a, b)[..|a| + 1] == a + "/";
  }

  lemma PrefixJoin(p: string, a: string, b: string)
    requires p <= a
    ensures p <= Join(a, b)
  {
    assert Join(a, b)[..|a|] == a;
    PrefixTrans(p, a, Join(a, b));
  }

  /** Every copy of an entry's contexts lies under `<dir>/`. */
  lemma EntryWritesUnder(dir: string, cs: seq<Context>)
    ensures forall w :: w in EntryWrites(dir, cs) ==> dir + "/" <= w.0
  {
    forall w | w in EntryWrites(dir, cs) ensures dir + "/" <= w.0 {
      var i :| 0 <= i < |cs| && EntryWrites(dir, cs)[i] == w;
      var c := cs[i];
      assert w == OverlayWrite(dir, c);
      JoinUnder(dir, CategoryName(c.category));
      PrefixJoin(dir + "/", Join(dir, CategoryName(c.category)), c.name + ".md");
    }
  }

  /** Every copy made for one record of layers lies under `<overlays>/<kind>/`. */
  lemma {:induction false} LayerWritesUnder(ov: string, kind: string, layer: Layer)
    ensures forall w :: w in LayerWrites(ov, kind, layer) ==> Join(ov, kind) + "/" <= w.0
    decreases |layer|
  {
    if |layer| > 0 {
      var last := layer[|layer| - 1];
      var dir := Join(Join(ov, kind), last.0);
      LayerWritesUnder(ov, kind, layer[..|layer| - 1]);
      EntryWritesUnder(dir, last.1.contexts);
      forall w | w in EntryWrites(dir, last.1.contexts) ensures Join(ov, kind) + "/" <= w.0 {
        JoinUnder(Join(ov, kind), last.0);
        assert dir + "/" <= w.0;
        assert dir <= dir + "/";
        PrefixTrans(Join(ov, kind) + "/", dir, dir + "/");
        PrefixTrans(Join(ov, kind) + "/", dir + "/", w.0);
      }
    }
  }

  lemma PrefixTrans(a: string, b: string, c: string)
    requires a <= b && b <= c
    ensures a <= c
  {
    assert c[..|b|][..|a|] == c[..|a|];
  }

  /** The character right after `<overlays>/` tells which kind a path under `<overlays>/<kind>/` belongs to. */
  lemma KindChar(ov: string, kind: string, p: string)
    requires kind != "" && Join(ov, kind) + "/" <= p
    ensures |ov| + 1 < |p| && p[|ov| + 1] == kind[0]
  {
    assert (Join(ov, kind) + "/")[|ov| + 1] == kind[0];
  }

  lemma KeyOf(ws: seq<Write>, p: string) returns (w: Write)
    requires p in Keys(ws)
    ensures w in ws && w.0 == p
  {
    var i :| 0 <= i < |Keys(ws)| && Keys(ws)[i] == p;
    w := ws[i];
  }

  /**
   * Organization, platform and role overlays go to separate directories: no
   * overlay file of one kind overwrites one of another kind.
   */
  lemma OverlayKindsDisjoint(bc: BindingConfig, role: Role, o: Overlays, p: string)
    ensures var ov := OverlaysPath(bc, role);
      p in Keys(OrganizationWrites(ov, o)) ==>
        p !in Keys(LayerWrites(ov, "platforms", o.platforms)) && p !in Keys(LayerWrites(ov, "roles", o.roles))
    ensures var ov := OverlaysPath(bc, role);
      p in Keys(LayerWrites(ov, "platforms", o.platforms)) ==> p !in Keys(LayerWrites(ov, "roles", o.roles))
  {
    var ov := OverlaysPath(bc, role);
    var org := OrganizationWrites(ov, o);
    var plat := LayerWrites(ov, "platforms", o.platforms);
    var roles := LayerWrites(ov, "roles", o.roles);
    EntryWritesUnder(Join(ov, "organization"), o.organization.contexts);
    LayerWritesUnder(ov, "platforms", o.platforms);
    LayerWritesUnder(ov, "roles", o.roles);
    if p in Keys(org) {
      var w := KeyOf(org, p);
      KindChar(ov, "organization", p);
    }
    if p in Keys(plat) {
      var w := KeyOf(plat, p);
      KindChar(ov, "platforms", p);
    }
    if p in Keys(roles) {
      var w := KeyOf(roles, p);
      KindChar(ov, "roles", p);
    }
  }

  // ---------------------------------------------------------------------------
  // The agent file's template data

  /** One record's contexts as the agent file sees them: the same contexts, in order, each given a path. */
  lemma {:induction false} LayerTaggedMatches(kind: string, layer: Layer)
    ensures |LayerTagged(kind, layer)| == LayerCount(layer)
    ensures forall i :: 0 <= i < |LayerTagged(kind, layer)| ==>
      LayerTagged(kind, layer)[i].path.Some? &&
      LayerTagged(kind, layer)[i] == LayerContexts(layer)[i].(path := LayerTagged(kind, layer)[i].path)
    decreases |layer|
  {
    if |layer| > 0 {
      var init := layer[..|layer| - 1];
      var last := layer[|layer| - 1];
      LayerTaggedMatches(kind, init);
      var a: seq<Context> := LayerTagged(kind, init);
      var b: seq<Context> := TaggedAll(kind + "/" + last.0, last.1.contexts);
      assert LayerTagged(kind, layer) == a + b;
      assert LayerContexts(layer) == LayerContexts(init) + last.1.contexts;
      forall i | 0 <= i < |a + b|
        ensures (a + b)[i].path.Some? && (a + b)[i] == LayerContexts(layer)[i].(path := (a + b)[i].path)
      {
        if i >= |a| {
          assert (a + b)[i] == b[i - |a|];
          assert LayerContexts(layer)[i] == last.1.contexts[i - |a|];
        } else {
          assert (a + b)[i] == a[i];
          assert LayerContexts(layer)[i] == LayerContexts(init)[i];
        }
      }
    }
  }

  /** The overlay directory, below the overlays root, each of a record's contexts is deployed from. */
  function LayerDirs(kind: string, layer: Layer): (r: seq<string>)
    ensures |r| == LayerCount(layer)
    decreases |layer|
  {
    if |layer| == 0 then []
    else
      var last := layer[|layer| - 1];
      LayerDirs(kind, layer[..|layer| - 1]) + MapSeq(last.1.contexts, (_: Context) => kind + "/" + last.0)
  }

  /** The directories of `collectOverlayContexts`: `organization`, then `platforms/<name>`, then `roles/<name>`. */
  function OverlayDirs(o: Overlays): (r: seq<string>)
    ensures |r| == |o.organization.contexts| + LayerCount(o.platforms) + LayerCount(o.roles)
  {
    MapSeq(o.organization.contexts, (_: Context) => "organization") + LayerDirs("platforms", o.platforms)
      + LayerDirs("roles", o.roles)
  }

  /** Each of a record's contexts gets the path of its own entry's directory. */
  lemma {:induction false} LayerTaggedDirs(kind: string, layer: Layer)
    ensures |LayerTagged(kind, layer)| == LayerCount(layer)
    ensures forall i :: 0 <= i < |LayerTagged(kind, layer)| ==>
      LayerTagged(kind, layer)[i] == Tagged(LayerDirs(kind, layer)[i], LayerContexts(layer)[i])
    decreases |layer|
  {
    if |layer| > 0 {
      var init := layer[..|layer| - 1];
      var last := layer[|layer| - 1];
      LayerTaggedDirs(kind, init);
      var a: seq<Context> := LayerTagged(kind, init);
      var b: seq<Context> := TaggedAll(kind + "/" + last.0, last.1.contexts);
      var da := LayerDirs(kind, init);
      var db := MapSeq(last.1.contexts, (_: Context) => kind + "/" + last.0);
      assert LayerTagged(kind, layer) == a + b;
      assert LayerDirs(kind, layer) == da + db;
      assert LayerContexts(layer) == LayerContexts(init) + last.1.contexts;
      forall i | 0 <= i < |a + b|
        ensures (a + b)[i] == Tagged((da + db)[i], LayerContexts(layer)[i])
      {
        if i >= |a| {
          assert (a + b)[i] == b[i - |a|] && (da + db)[i] == db[i - |a|];
          assert LayerContexts(layer)[i] == last.1.contexts[i - |a|];
        } else {
          assert (a + b)[i] == a[i] && (da + db)[i] == da[i];
          assert LayerContexts(layer)[i] == LayerContexts(init)[i];
        }
      }
    }
  }

  /**
   * `collectOverlayContexts`: the organization, platform and role contexts, in
   * that order and none other, each with the path it is deployed under.
   */
  lemma OverlayContextsCollected(o: Overlays)
    ensures |TemplateOverlayContexts(o)| == |o.organization.contexts| + LayerCount(o.platforms) + LayerCount(o.roles)
    ensures var c := o.organization.contexts + LayerContexts(o.platforms) + LayerContexts(o.roles);
      forall i :: 0 <= i < |TemplateOverlayContexts(o)| ==>
        TemplateOverlayContexts(o)[i].path.Some? &&
        TemplateOverlayContexts(o)[i] == c[i].(path := TemplateOverlayContexts(o)[i].path)
    ensures var c := o.organization.contexts + LayerContexts(o.platforms) + LayerContexts(o.roles);
      forall i :: 0 <= i < |TemplateOverlayContexts(o)| ==>
        TemplateOverlayContexts(o)[i].path ==
          Some("/.faber/overlays/" + OverlayDirs(o)[i] + "/contexts/" + CategoryName(c[i].category) + "/" + c[i].name + ".md")
  {
    var a := TaggedAll("organization", o.organization.contexts);
    var b := LayerTagged("platforms", o.platforms);
    var d := LayerTagged("roles", o.roles);
    var c := o.organization.contexts + LayerContexts(o.platforms) + LayerContexts(o.roles);
    LayerTaggedMatches("platforms", o.platforms);
    LayerTaggedMatches("roles", o.roles);
    var t := TemplateOverlayContexts(o);
    assert t == a + b + d;
    forall i | 0 <= i < |t| ensures t[i].path.Some? && t[i] == c[i].(path := t[i].path) {
      if i < |a| {
        assert t[i] == a[i] && c[i] == o.organization.contexts[i];
      } else if i < |a| + |b| {
        assert t[i] == b[i - |a|] && c[i] == LayerContexts(o.platforms)[i - |a|];
      } else {
        assert t[i] == d[i - |a| - |b|] && c[i] == LayerContexts(o.roles)[i - |a| - |b|];
      }
    }
    OverlayPathsCollected(o);
  }

  /** Each collected overlay context's path names its own layer directory, category and name. */
  lemma OverlayPathsCollected(o: Overlays)
    ensures |TemplateOverlayContexts(o)| == |o.organization.contexts| + LayerCount(o.platforms) + LayerCount(o.roles)
    ensures var c := o.organization.contexts + LayerContexts(o.platforms) + LayerContexts(o.roles);
      forall i :: 0 <= i < |TemplateOverlayContexts(o)| ==>
        TemplateOverlayContexts(o)[i] == Tagged(OverlayDirs(o)[i], c[i])
  {
    var a := TaggedAll("organization", o.organization.contexts);
    var b := LayerTagged("platforms", o.platforms);
    var d := LayerTagged("roles", o.roles);
    var da := MapSeq(o.organization.contexts, (_: Context) => "organization");
    var db := LayerDirs("platforms", o.platforms);
    var dd := LayerDirs("roles", o.roles);
    var c := o.organization.contexts + LayerContexts(o.platforms) + LayerContexts(o.roles);
    LayerTaggedDirs("platforms", o.platforms);
    LayerTaggedDirs("roles", o.roles);
    var t := TemplateOverlayContexts(o);
    assert t == a + b + d;
    assert OverlayDirs(o) == da + db + dd;
    forall i | 0 <= i < |t| ensures t[i] == Tagged(OverlayDirs(o)[i], c[i]) {
      if i < |a| {
        assert t[i] == a[i] && c[i] == o.organization.contexts[i] && OverlayDirs(o)[i] == da[i];
      } else if i < |a| + |b| {
        assert t[i] == b[i - |a|] && c[i] == LayerContexts(o.platforms)[i - |a|];
        assert OverlayDirs(o)[i] == db[i - |a|];
      } else {
        assert t[i] == d[i - |a| - |b|] && c[i] == LayerContexts(o.roles)[i - |a| - |b|];
        assert OverlayDirs(o)[i] == dd[i - |a| - |b|];
      }
    }
  }

  /** The MCP servers named by the role's contexts: exactly the referenced servers the config defines. */
  lemma {:induction false} ServerMapGet(cs: seq<(string, Context)>, config: Fields, n: string)
    ensures Get(ServerMap(cs, config), n) == if NamesServer(cs, n) then McpServerFor(config, n) else None
    decreases |cs|
  {
    if |cs| > 0 {
      var init := cs[..|cs| - 1];
      ServerMapGet(init, config, n);
      NamesServerSnoc(cs, n);
    }
  }

  lemma NamesServerSnoc(cs: seq<(string, Context)>, n: string)
    requires |cs| > 0
    ensures NamesServer(cs, n) <==> NamesServer(cs[..|cs| - 1], n) || ServerRef(cs[|cs| - 1].1) == Some(n)
  {
    NamesServerGrows(cs, n);
    NamesServerSplits(cs, n);
  }

  lemma NamesServerGrows(cs: seq<(string, Context)>, n: string)
    requires |cs| > 0
    ensures NamesServer(cs[..|cs| - 1], n) || ServerRef(cs[|cs| - 1].1) == Some(n) ==> NamesServer(cs, n)
  {
    var init := cs[..|cs| - 1];
    if NamesServer(init, n) {
      var i :| 0 <= i < |init| && ServerRef(init[i].1) == Some(n);
      assert cs[i] == init[i];
    } else if ServerRef(cs[|cs| - 1].1) == Some(n) {
      assert 0 <= |cs| - 1 < |cs|;
    }
  }

  lemma NamesServerSplits(cs: seq<(string, Context)>, n: string)
    requires |cs| > 0
    ensures NamesServer(cs, n) ==> NamesServer(cs[..|cs| - 1], n) || ServerRef(cs[|cs| - 1].1) == Some(n)
  {
    var init := cs[..|cs| - 1];
    if NamesServer(cs, n) {
      var i :| 0 <= i < |cs| && ServerRef(cs[i].1) == Some(n);
      if i < |cs| - 1 {
        assert init[i] == cs[i];
      }
    }
  }

  lemma {:induction false} ServerMapDistinct(cs: seq<(string, Context)>, config: Fields)
    ensures DistinctKeys(ServerMap(cs, config))
    decreases |cs|
  {
    if |cs| > 0 {
      var init := cs[..|cs| - 1];
      var ref := ServerRef(cs[|cs| - 1].1);
      ServerMapDistinct(init, config);
      if ref.Some? && McpServerFor(config, ref.value).Some? {
        PutDistinct(ServerMap(init, config), ref.value, McpServerFor(config, ref.value).value);
      }
    }
  }

  /**
   * `getMCPServers` gives `null` exactly when no referenced server is defined
   * in the config, and otherwise an object holding each defined referenced
   * server once.
   */
  lemma McpServersExact(cs: seq<(string, Context)>, config: Fields)
    ensures McpServers(cs, config).None? <==> forall n :: NamesServer(cs, n) ==> McpServerFor(config, n).None?
    ensures McpServers(cs, config).Some? ==> DistinctKeys(McpServers(cs, config).value)
    ensures McpServers(cs, config).Some? ==> forall n ::
      Get(McpServers(cs, config).value, n) == if NamesServer(cs, n) then McpServerFor(config, n) else None
  {
    var m := ServerMap(cs, config);
    ServerMapDistinct(cs, config);
    forall n ensures Get(m, n) == if NamesServer(cs, n) then McpServerFor(config, n) else None {
      ServerMapGet(cs, config, n);
    }
    if |m| > 0 {
      assert Keys(m)[0] in Keys(m);
      assert Get(m, m[0].0).Some?;
    }
  }

  /** Team and workflow overlays play no part in a Claude Code deployment. */
  lemma TeamsAndWorkflowsIgnored(bc: BindingConfig, rd: Renderers, role: Role, config: Fields, o: Overlays, o': Overlays)
    requires o.organization == o'.organization && o.platforms == o'.platforms && o.roles == o'.roles
    ensures Transformed(bc, rd, role, config, o) == Transformed(bc, rd, role, config, o')
  {
    assert TemplateOverlayContexts(o) == TemplateOverlayContexts(o');
    assert OrganizationWrites(OverlaysPath(bc, role), o) == OrganizationWrites(OverlaysPath(bc, role), o');
  }
}
