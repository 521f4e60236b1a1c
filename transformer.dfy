/**
 * The Claude Code transformer: turns a loaded role, the config and the
 * resolved overlays into a deployment artifact, a map from output paths to
 * file contents plus the list of directories those files go into.
 *
 * The binding's `binding.yml` (output paths and path prefixes) and the two
 * compiled Handlebars templates are parameters: BindingConfig and Renderers.
 */
module ClaudeCode {
  import opened Wrappers
  import opened Text
  import opened Seqs
  import opened Assoc
  import opened Json
  import opened FileSystem
  import opened Contexts
  import opened ConceptTypes
  import opened OverlayResolver
  import opened ConfigState

  /** `output_structure` and `path_resolution` of `binding.yml`, as path templates. */
  datatype BindingConfig = BindingConfig(
    rolePath: string,
    docsPath: string,
    configPath: string,
    contextPrefix: string,
    taskPrefix: string,
    flowPrefix: string)

  /** What the agent-file templates see. */
  datatype TemplateData = TemplateData(
    metadata: Fields,
    prompt: string,
    tasks: seq<Document>,
    flows: seq<Document>,
    contextCategories: seq<Category>,
    overlayContexts: seq<Context>,
    mcpServers: Option<Fields>,
    contextPrefix: string,
    taskPrefix: string,
    flowPrefix: string)

  /** The compiled frontmatter and body templates, and `yaml.dump`. */
  datatype Renderers = Renderers(
    frontmatter: TemplateData -> string,
    body: TemplateData -> string,
    dump: Json -> string)

  /** The artifact's metadata without its timestamp: the role reference, the binding name and the config. */
  datatype DeploymentMetadata = DeploymentMetadata(concept: (ConceptType, Option<string>), binding: string, config: Fields)

  /** `files` in insertion order (a `Map`), and the de-duplicated directories. */
  datatype Artifact = Artifact(files: seq<(string, string)>, directories: seq<string>, metadata: DeploymentMetadata)

  /** One `files.set(path, content)`. */
  type Write = (string, string)

  // ---------------------------------------------------------------------------
  // Path templates

  /**
   * `role.metadata[key]` as the replacement argument of `String.prototype.replace`:
   * a string is inserted as it is, and a missing value is converted to "undefined".
   * Every non-string value is treated here as missing.
   */
  function Placeholder(meta: Fields, key: string): (r: string)
    ensures StrField(meta, key).Some? ==> r == StrField(meta, key).value
    ensures StrField(meta, key).None? ==> r == "undefined"
  {
    match StrField(meta, key)
    case Some(s) => s
    case None => "undefined"
  }

  /** `resolvePath`: the first `{org}`, then the first `{system}`, then the first `{name}` replaced. */
  function ResolvePath(template: string, meta: Fields): (r: string)
    ensures !Contains(template, "{org}") && !Contains(template, "{system}") && !Contains(template, "{name}") ==>
      r == template
  {
    var a := ReplaceFirst(template, "{org}", Placeholder(meta, "org"));
    var b := ReplaceFirst(a, "{system}", Placeholder(meta, "system"));
    ReplaceFirst(b, "{name}", Placeholder(meta, "name"))
  }

  /**
   * A template that starts with `{name}` and holds no `{org}` or `{system}`
   * gets the role name in front; only that first `{name}` is replaced, so a
   * later one in `rest` stays as it is.
   */
  lemma ResolveLeadingName(rest: string, meta: Fields)
    requires !Contains("{name}" + rest, "{org}") && !Contains("{name}" + rest, "{system}")
    ensures ResolvePath("{name}" + rest, meta) == Placeholder(meta, "name") + rest
  {
    var t := "{name}" + rest;
    assert OccursAt(t, "{name}", 0);
    ReplaceFirstAtStart(t, "{name}", Placeholder(meta, "name"));
    assert t[|"{name}"|..] == rest;
  }

  // ---------------------------------------------------------------------------
  // The files map and the directories list

  /** The files map after a run of `files.set` calls. */
  function ApplyWrites(files: seq<Write>, ws: seq<Write>): seq<Write>
    decreases |ws|
  {
    if |ws| == 0 then files
    else Put(ApplyWrites(files, ws[..|ws| - 1]), ws[|ws| - 1].0, ws[|ws| - 1].1)
  }

  function WriteDir(w: Write): string {
    Dirname(w.0)
  }

  /** The `directories.push(path.dirname(p))` that follows each write. */
  function Dirs(ws: seq<Write>): (r: seq<string>)
    ensures |r| == |ws|
    decreases |ws|
  {
    if |ws| == 0 then [] else Dirs(ws[..|ws| - 1]) + [WriteDir(ws[|ws| - 1])]
  }

  /** The content of the last write to `p`, if any. */
  function LastWrite(ws: seq<Write>, p: string): Option<string>
    decreases |ws|
  {
    if |ws| == 0 then None
    else if ws[|ws| - 1].0 == p then Some(ws[|ws| - 1].1)
    else LastWrite(ws[..|ws| - 1], p)
  }

  lemma {:induction false} LastWriteNone(ws: seq<Write>, p: string)
    ensures LastWrite(ws, p).None? <==> p !in Keys(ws)
    decreases |ws|
  {
    if |ws| > 0 {
      KeysInit(ws, p);
      LastWriteNone(ws[..|ws| - 1], p);
    }
  }

  lemma KeysInit(ws: seq<Write>, p: string)
    requires |ws| > 0
    ensures p in Keys(ws) <==> p in Keys(ws[..|ws| - 1]) || p == ws[|ws| - 1].0
  {
    KeysSnoc(ws);
  }

  /** A write that no later write overwrites is the last write to its path. */
  lemma {:induction false} LastWriteAt(ws: seq<Write>, i: nat)
    requires i < |ws|
    requires forall j :: i < j < |ws| ==> ws[j].0 != ws[i].0
    ensures LastWrite(ws, ws[i].0) == Some(ws[i].1)
    decreases |ws|
  {
    if i < |ws| - 1 {
      var init := ws[..|ws| - 1];
      assert init[i] == ws[i];
      LastWriteAt(init, i);
    }
  }

  /** A later run of writes decides the content of a path it writes. */
  lemma {:induction false} LastWriteAppend(a: seq<Write>, b: seq<Write>, p: string)
    ensures LastWrite(a + b, p) == if LastWrite(b, p).Some? then LastWrite(b, p) else LastWrite(a, p)
    decreases |b|
  {
    if |b| == 0 {
      assert a + b == a;
    } else {
      assert (a + b)[..|a + b| - 1] == a + b[..|b| - 1];
      LastWriteAppend(a, b[..|b| - 1], p);
    }
  }

  /** The files map holds, for each path, the last content written to it. */
  lemma {:induction false} ApplyWritesGet(files: seq<Write>, ws: seq<Write>, p: string)
    ensures Get(ApplyWrites(files, ws), p) == if LastWrite(ws, p).Some? then LastWrite(ws, p) else Get(files, p)
    decreases |ws|
  {
    if |ws| > 0 {
      ApplyWritesGet(files, ws[..|ws| - 1], p);
    }
  }

  /** Its keys are the keys it had and the written paths, each once. */
  lemma ApplyWritesKeys(files: seq<Write>, ws: seq<Write>)
    requires DistinctKeys(files)
    ensures DistinctKeys(ApplyWrites(files, ws))
    ensures forall p :: p in Keys(ApplyWrites(files, ws)) <==> p in Keys(files) || p in Keys(ws)
  {
    ApplyWritesDistinct(files, ws);
    forall p ensures p in Keys(ApplyWrites(files, ws)) <==> p in Keys(files) || p in Keys(ws) {
      ApplyWritesGet(files, ws, p);
      LastWriteNone(ws, p);
    }
  }

  lemma {:induction false} ApplyWritesDistinct(files: seq<Write>, ws: seq<Write>)
    requires DistinctKeys(files)
    ensures DistinctKeys(ApplyWrites(files, ws))
    decreases |ws|
  {
    if |ws| > 0 {
      ApplyWritesDistinct(files, ws[..|ws| - 1]);
      PutDistinct(ApplyWrites(files, ws[..|ws| - 1]), ws[|ws| - 1].0, ws[|ws| - 1].1);
    }
  }

  lemma {:induction false} ApplyWritesAppend(files: seq<Write>, a: seq<Write>, b: seq<Write>)
    ensures ApplyWrites(files, a + b) == ApplyWrites(ApplyWrites(files, a), b)
    decreases |b|
  {
    if |b| == 0 {
      assert a + b == a;
    } else {
      assert (a + b)[..|a + b| - 1] == a + b[..|b| - 1];
      ApplyWritesAppend(files, a, b[..|b| - 1]);
    }
  }

  lemma {:induction false} DirsAppend(a: seq<Write>, b: seq<Write>)
    ensures Dirs(a + b) == Dirs(a) + Dirs(b)
    decreases |b|
  {
    if |b| == 0 {
      assert a + b == a;
    } else {
      assert (a + b)[..|a + b| - 1] == a + b[..|b| - 1];
      DirsAppend(a, b[..|b| - 1]);
    }
  }

  /** One more element of a loop's writes. */
  lemma FilesStep(files: seq<Write>, ws: seq<Write>, i: nat)
    requires i < |ws|
    ensures ApplyWrites(files, ws[..i + 1]) == Put(ApplyWrites(files, ws[..i]), ws[i].0, ws[i].1)
  {
    assert ws[..i + 1][..i] == ws[..i];
  }

  lemma DirsStep(before: seq<string>, ws: seq<Write>, i: nat)
    requires i < |ws|
    ensures before + Dirs(ws[..i + 1]) == before + Dirs(ws[..i]) + [Dirname(ws[i].0)]
  {
    assert ws[..i + 1][..i] == ws[..i];
  }

  /** The files and directories a deployment under construction holds. */
  class Deployment {
    var files: seq<Write>
    var directories: seq<string>

    constructor()
      ensures files == [] && directories == []
    {
      files := [];
      directories := [];
    }

    /** `files.set(p, content); directories.push(path.dirname(p))`. */
    method Record(p: string, content: string)
      modifies this
      ensures files == Put(old(files), p, content)
      ensures directories == old(directories) + [Dirname(p)]
    {
      files := Put(files, p, content);
      directories := directories + [Dirname(p)];
    }

    /** The writes of one copy step, recorded in order. */
    method RecordAll(ws: seq<Write>)
      modifies this
      ensures files == ApplyWrites(old(files), ws)
      ensures directories == old(directories) + Dirs(ws)
    {
      for i := 0 to |ws|
        invariant files == ApplyWrites(old(files), ws[..i])
        invariant directories == old(directories) + Dirs(ws[..i])
      {
        FilesStep(old(files), ws, i);
        DirsStep(old(directories), ws, i);
        Record(ws[i].0, ws[i].1);
      }
      assert ws[..|ws|] == ws;
    }
  }

  // ---------------------------------------------------------------------------
  // What each copy step writes

  /** The resolved `docs_path`. */
  function DocsPath(bc: BindingConfig, role: Role): string {
    ResolvePath(bc.docsPath, role.metadata)
  }

  function ContextsPath(bc: BindingConfig, role: Role): string {
    Join(DocsPath(bc, role), "contexts")
  }

  function OverlaysPath(bc: BindingConfig, role: Role): string {
    Join(Join(DocsPath(bc, role), "contexts"), "_overlays")
  }

  /** A role context's file: its content, behind a YAML frontmatter block when it has truthy metadata. */
  function ContextFile(c: Context, dump: Json -> string): (r: string)
    ensures !TruthyOpt(c.metadata) ==> r == c.content
    ensures TruthyOpt(c.metadata) ==> r == "---\n" + dump(c.metadata.value) + "---\n\n" + c.content
  {
    if TruthyOpt(c.metadata) then "---\n" + dump(c.metadata.value) + "---\n\n" + c.content else c.content
  }

  function ContextWrite(contextsPath: string, dump: Json -> string, e: (string, Context)): Write {
    (Join(contextsPath, e.0 + ".md"), ContextFile(e.1, dump))
  }

  /** `copyContexts`: one file per entry of `role.contexts`, named after its key. */
  function ContextWrites(bc: BindingConfig, rd: Renderers, role: Role): seq<Write> {
    ContextWritesIn(ContextsPath(bc, role), rd.dump, role.contexts)
  }

  function ContextWritesIn(contextsPath: string, dump: Json -> string, cs: seq<(string, Context)>): seq<Write> {
    MapSeq(cs, e => ContextWrite(contextsPath, dump, e))
  }

  lemma ContextWritesStep(contextsPath: string, dump: Json -> string, cs: seq<(string, Context)>, i: nat)
    requires i < |cs|
    ensures ContextWritesIn(contextsPath, dump, cs[..i + 1]) ==
      ContextWritesIn(contextsPath, dump, cs[..i]) + [ContextWrite(contextsPath, dump, cs[i])]
  {
    var a := ContextWritesIn(contextsPath, dump, cs[..i + 1]);
    var b := ContextWritesIn(contextsPath, dump, cs[..i]) + [ContextWrite(contextsPath, dump, cs[i])];
    assert |a| == |b|;
    forall k | 0 <= k < |a| ensures a[k] == b[k] {
      assert cs[..i + 1][k] == if k < i then cs[..i][k] else cs[i];
    }
  }

  /** An overlay context copied verbatim to `<dir>/<category>/<name>.md`. */
  function OverlayWrite(dir: string, c: Context): Write {
    (Join(Join(dir, CategoryName(c.category)), c.name + ".md"), c.content)
  }

  function EntryWrites(dir: string, cs: seq<Context>): seq<Write> {
    MapSeq(cs, c => OverlayWrite(dir, c))
  }

  /** The writes of one record of layers (platforms or roles), entry by entry. */
  function LayerWrites(overlaysPath: string, kind: string, layer: Layer): seq<Write>
    decreases |layer|
  {
    if |layer| == 0 then []
    else
      var last := layer[|layer| - 1];
      LayerWrites(overlaysPath, kind, layer[..|layer| - 1]) + EntryWrites(Join(Join(overlaysPath, kind), last.0), last.1.contexts)
  }

  function OrganizationWrites(overlaysPath: string, o: Overlays): seq<Write> {
    EntryWrites(Join(overlaysPath, "organization"), o.organization.contexts)
  }

  /** `copyOverlayContexts`: organization, then platforms, then roles; teams and workflows are not copied. */
  function OverlayWrites(bc: BindingConfig, role: Role, o: Overlays): seq<Write> {
    var ov := OverlaysPath(bc, role);
    OrganizationWrites(ov, o) + LayerWrites(ov, "platforms", o.platforms) + LayerWrites(ov, "roles", o.roles)
  }

  /** A task or flow copied verbatim to `<dir>/<name>.md`; the file is named after the document, not its key. */
  function DocumentWrite(dir: string, e: (string, Document)): Write {
    (Join(dir, e.1.name + ".md"), e.1.content)
  }

  function TasksPath(bc: BindingConfig, role: Role): string {
    Join(DocsPath(bc, role), "tasks")
  }

  function FlowsPath(bc: BindingConfig, role: Role): string {
    Join(DocsPath(bc, role), "flows")
  }

  /** `copyTasks`. */
  function TaskWrites(bc: BindingConfig, role: Role): seq<Write> {
    DocumentWrites(TasksPath(bc, role), role.tasks)
  }

  function DocumentWrites(dir: string, docs: seq<(string, Document)>): seq<Write> {
    MapSeq(docs, e => DocumentWrite(dir, e))
  }

  /** `copyFlows`. */
  function FlowWrites(bc: BindingConfig, role: Role): seq<Write> {
    DocumentWrites(FlowsPath(bc, role), role.flows)
  }

  // ---------------------------------------------------------------------------
  // The agent file

  /** `Array.from(map.values())`. */
  function DocumentValues(docs: seq<(string, Document)>): (r: seq<Document>)
    ensures |r| == |docs| && forall i :: 0 <= i < |docs| ==> r[i] == docs[i].1
  {
    MapSeq(docs, (e: (string, Document)) => e.1)
  }

  /** The `/.faber/overlays/...` path an overlay context is shown under in the agent file. */
  function TaggedPath(layerDir: string, c: Context): string {
    "/.faber/overlays/" + layerDir + "/contexts/" + CategoryName(c.category) + "/" + c.name + ".md"
  }

  /** `{...context, path}`. */
  function Tagged(layerDir: string, c: Context): Context {
    c.(path := Some(TaggedPath(layerDir, c)))
  }

  function TaggedAll(layerDir: string, cs: seq<Context>): seq<Context> {
    MapSeq(cs, c => Tagged(layerDir, c))
  }

  function LayerTagged(kind: string, layer: Layer): seq<Context>
    decreases |layer|
  {
    if |layer| == 0 then []
    else
      var last := layer[|layer| - 1];
      LayerTagged(kind, layer[..|layer| - 1]) + TaggedAll(kind + "/" + last.0, last.1.contexts)
  }

  /** What `collectOverlayContexts` returns. */
  function TemplateOverlayContexts(o: Overlays): seq<Context> {
    TaggedAll("organization", o.organization.contexts) + LayerTagged("platforms", o.platforms)
      + LayerTagged("roles", o.roles)
  }

  /** `context.metadata?.mcp_server` when it is a non-empty string. */
  function ServerRef(c: Context): Option<string> {
    if c.metadata.Some? && c.metadata.value.JObj? then
      var v: Option<Json> := Get(c.metadata.value.fields, "mcp_server");
      match v
      case Some(JStr(s)) => if s != "" then Some(s) else None
      case _ => None
    else None
  }

  /** The `servers` object `getMCPServers` builds over the first contexts. */
  function ServerMap(cs: seq<(string, Context)>, config: Fields): Fields
    decreases |cs|
  {
    if |cs| == 0 then []
    else
      var prev := ServerMap(cs[..|cs| - 1], config);
      var ref := ServerRef(cs[|cs| - 1].1);
      if ref.Some? && McpServerFor(config, ref.value).Some? then Put(prev, ref.value, McpServerFor(config, ref.value).value)
      else prev
  }

  /** `getMCPServers`: the servers object, or `null` when it is empty. */
  function McpServers(cs: seq<(string, Context)>, config: Fields): Option<Fields> {
    var m := ServerMap(cs, config);
    if |m| > 0 then Some(m) else None
  }

  /** Some context of the role names server `n`. */
  predicate NamesServer(cs: seq<(string, Context)>, n: string) {
    exists i :: 0 <= i < |cs| && ServerRef(cs[i].1) == Some(n)
  }

  function TemplateDataFor(bc: BindingConfig, role: Role, config: Fields, o: Overlays): TemplateData {
    TemplateData(
      role.metadata, role.prompt, DocumentValues(role.tasks), DocumentValues(role.flows), AllCategories,
      TemplateOverlayContexts(o), McpServers(role.contexts, config),
      ResolvePath(bc.contextPrefix, role.metadata), ResolvePath(bc.taskPrefix, role.metadata),
      ResolvePath(bc.flowPrefix, role.metadata))
  }

  /** `generateAgentFile`: the rendered frontmatter, a newline and the rendered body. */
  function AgentContent(bc: BindingConfig, rd: Renderers, role: Role, config: Fields, o: Overlays): string {
    var data := TemplateDataFor(bc, role, config, o);
    rd.frontmatter(data) + "\n" + rd.body(data)
  }

  function AgentWrite(bc: BindingConfig, rd: Renderers, role: Role, config: Fields, o: Overlays): Write {
    (ResolvePath(bc.rolePath, role.metadata), AgentContent(bc, rd, role, config, o))
  }

  /** The config file: `yaml.dump(config)` at `config_path`, taken literally. */
  function ConfigWrite(bc: BindingConfig, rd: Renderers, config: Fields): Write {
    (bc.configPath, rd.dump(JObj(config)))
  }

  /** Every write of `transform`, in order. */
  function AllWrites(bc: BindingConfig, rd: Renderers, role: Role, config: Fields, o: Overlays): seq<Write> {
    [AgentWrite(bc, rd, role, config, o)] + ContextWrites(bc, rd, role) + OverlayWrites(bc, role, o)
      + TaskWrites(bc, role) + FlowWrites(bc, role) + [ConfigWrite(bc, rd, config)]
  }

  /** What `transform` returns, without the timestamp. */
  function Transformed(bc: BindingConfig, rd: Renderers, role: Role, config: Fields, o: Overlays): Artifact {
    var ws := AllWrites(bc, rd, role, config, o);
    Artifact(ApplyWrites([], ws), Dedup(Dirs(ws)),
             DeploymentMetadata((RoleType, StrField(role.metadata, "name")), "claude-code", config))
  }

  /** Recording runs of writes one after the other records their concatenation. */
  lemma FilesChain(files: seq<Write>, a: seq<Write>, b: seq<Write>, c: seq<Write>, d: seq<Write>, e: seq<Write>, g: seq<Write>)
    ensures ApplyWrites(files, a + b + c + d + e + g) ==
      ApplyWrites(ApplyWrites(ApplyWrites(ApplyWrites(ApplyWrites(ApplyWrites(files, a), b), c), d), e), g)
  {
    ApplyWritesAppend(files, a + b + c + d + e, g);
    ApplyWritesAppend(files, a + b + c + d, e);
    ApplyWritesAppend(files, a + b + c, d);
    ApplyWritesAppend(files, a + b, c);
    ApplyWritesAppend(files, a, b);
  }

  /** Their directories are the runs' directories, in order. */
  lemma DirsChain(a: seq<Write>, b: seq<Write>, c: seq<Write>, d: seq<Write>, e: seq<Write>, g: seq<Write>)
    ensures Dirs(a + b + c + d + e + g) == Dirs(a) + Dirs(b) + Dirs(c) + Dirs(d) + Dirs(e) + Dirs(g)
  {
    DirsAppend(a + b + c + d + e, g);
    DirsAppend(a + b + c + d, e);
    DirsAppend(a + b + c, d);
    DirsAppend(a + b, c);
    DirsAppend(a, b);
  }

  // ---------------------------------------------------------------------------
  // The transformer

  /** The copies of one layer entry's contexts, to `<dir>/<category>/<name>.md`. */
  method CopyEntry(dir: string, cs: seq<Context>) returns (ws: seq<Write>)
    ensures ws == EntryWrites(dir, cs)
  {
    ws := [];
    var i := 0;
    while i < |cs|
      invariant 0 <= i <= |cs|
      invariant ws == EntryWrites(dir, cs[..i])
    {
      var context := cs[i];
      var contextPath := Join(Join(dir, CategoryName(context.category)), context.name + ".md");
      assert cs[..i + 1][..i] == cs[..i];
      ws := ws + [(contextPath, context.content)];
      i := i + 1;
    }
    assert cs[..i] == cs;
  }

  /** The copies of the contexts of every entry of a record of layers, in insertion order. */
  method CopyLayer(overlaysPath: string, kind: string, layer: Layer) returns (ws: seq<Write>)
    ensures ws == LayerWrites(overlaysPath, kind, layer)
  {
    ws := [];
    var i := 0;
    while i < |layer|
      invariant 0 <= i <= |layer|
      invariant ws == LayerWrites(overlaysPath, kind, layer[..i])
    {
      var dir := Join(Join(overlaysPath, kind), layer[i].0);
      var entry := CopyEntry(dir, layer[i].1.contexts);
      LayerWritesSnoc(overlaysPath, kind, layer, i);
      ws := ws + entry;
      i := i + 1;
    }
    assert layer[..i] == layer;
  }

  lemma LayerWritesSnoc(overlaysPath: string, kind: string, layer: Layer, i: nat)
    requires i < |layer|
    ensures LayerWrites(overlaysPath, kind, layer[..i + 1]) ==
      LayerWrites(overlaysPath, kind, layer[..i]) + EntryWrites(Join(Join(overlaysPath, kind), layer[i].0), layer[i].1.contexts)
  {
    assert layer[..i + 1][..i] == layer[..i];
  }

  /** Appends one layer entry's contexts, each with its `/.faber/overlays/...` path. */
  method TagEntry(acc: seq<Context>, layerDir: string, cs: seq<Context>) returns (r: seq<Context>)
    ensures r == acc + TaggedAll(layerDir, cs)
  {
    r := acc;
    var i := 0;
    while i < |cs|
      invariant 0 <= i <= |cs|
      invariant r == acc + TaggedAll(layerDir, cs[..i])
    {
      var context := cs[i];
      var tag := "/.faber/overlays/" + layerDir + "/contexts/" + CategoryName(context.category) + "/" + context.name + ".md";
      assert cs[..i + 1][..i] == cs[..i];
      r := r + [context.(path := Some(tag))];
      i := i + 1;
    }
    assert cs[..i] == cs;
  }

  method TagLayer(acc: seq<Context>, kind: string, layer: Layer) returns (r: seq<Context>)
    ensures r == acc + LayerTagged(kind, layer)
  {
    r := acc;
    var i := 0;
    while i < |layer|
      invariant 0 <= i <= |layer|
      invariant r == acc + LayerTagged(kind, layer[..i])
    {
      ghost var before := LayerTagged(kind, layer[..i]);
      ghost var entry := TaggedAll(kind + "/" + layer[i].0, layer[i].1.contexts);
      r := TagEntry(r, kind + "/" + layer[i].0, layer[i].1.contexts);
      LayerTaggedStep(kind, layer, i);
      assert acc + before + entry == acc + LayerTagged(kind, layer[..i + 1]);
      i := i + 1;
    }
    assert layer[..i] == layer;
  }

  lemma LayerTaggedStep(kind: string, layer: Layer, i: nat)
    requires i < |layer|
    ensures LayerTagged(kind, layer[..i + 1]) ==
      LayerTagged(kind, layer[..i]) + TaggedAll(kind + "/" + layer[i].0, layer[i].1.contexts)
  {
    assert layer[..i + 1][..i] == layer[..i];
  }

  /** `collectOverlayContexts`. */
  method CollectOverlayContexts(o: Overlays) returns (r: seq<Context>)
    ensures r == TemplateOverlayContexts(o)
  {
    r := TagEntry([], "organization", o.organization.contexts);
    r := TagLayer(r, "platforms", o.platforms);
    r := TagLayer(r, "roles", o.roles);
  }

  /** `getMCPServers`. */
  method GetMcpServers(role: Role, config: Fields) returns (r: Option<Fields>)
    ensures r == McpServers(role.contexts, config)
  {
    var servers: Fields := [];
    var i := 0;
    while i < |role.contexts|
      invariant 0 <= i <= |role.contexts|
      invariant servers == ServerMap(role.contexts[..i], config)
    {
      assert role.contexts[..i + 1][..i] == role.contexts[..i];
      var serverName := ServerRef(role.contexts[i].1);
      if serverName.Some? {
        var serverConfig := McpServerFor(config, serverName.value);
        if serverConfig.Some? {
          servers := Put(servers, serverName.value, serverConfig.value);
        }
      }
      i := i + 1;
    }
    assert role.contexts[..i] == role.contexts;
    r := if |servers| > 0 then Some(servers) else None;
  }

  /** The transformer, with its loaded binding config and compiled templates. */
  class Transformer {
    const binding: BindingConfig
    const render: Renderers

    constructor(binding: BindingConfig, render: Renderers)
      ensures this.binding == binding && this.render == render
    {
      this.binding := binding;
      this.render := render;
    }

    /** `generateAgentFile`. */
    method GenerateAgentFile(role: Role, config: Fields, o: Overlays) returns (content: string)
      ensures content == AgentContent(binding, render, role, config, o)
    {
      var overlayContexts := CollectOverlayContexts(o);
      var mcpServers := GetMcpServers(role, config);
      var data := TemplateData(
        role.metadata, role.prompt, DocumentValues(role.tasks), DocumentValues(role.flows), AllCategories,
        overlayContexts, mcpServers,
        ResolvePath(binding.contextPrefix, role.metadata), ResolvePath(binding.taskPrefix, role.metadata),
        ResolvePath(binding.flowPrefix, role.metadata));
      content := render.frontmatter(data) + "\n" + render.body(data);
    }

    /** `copyContexts`. */
    method CopyContexts(role: Role, out: Deployment)
      modifies out
      ensures out.files == ApplyWrites(old(out.files), ContextWrites(binding, render, role))
      ensures out.directories == old(out.directories) + Dirs(ContextWrites(binding, render, role))
    {
      var docsPath := ResolvePath(binding.docsPath, role.metadata);
      var contextsPath := Join(docsPath, "contexts");
      var ws: seq<Write> := [];
      var i := 0;
      while i < |role.contexts|
        invariant 0 <= i <= |role.contexts|
        invariant ws == ContextWritesIn(contextsPath, render.dump, role.contexts[..i])
        invariant unchanged(out)
      {
        var key := role.contexts[i].0;
        var context := role.contexts[i].1;
        var contextPath := Join(contextsPath, key + ".md");
        var content := context.content;
        if TruthyOpt(context.metadata) {
          content := "---\n" + render.dump(context.metadata.value) + "---\n\n" + content;
        }
        assert (contextPath, content) == ContextWrite(contextsPath, render.dump, role.contexts[i]);
        ContextWritesStep(contextsPath, render.dump, role.contexts, i);
        ws := ws + [(contextPath, content)];
        i := i + 1;
      }
      assert role.contexts[..i] == role.contexts;
      assert ws == ContextWrites(binding, render, role);
      out.RecordAll(ws);
    }

    /** `copyOverlayContexts`. */
    method CopyOverlayContexts(o: Overlays, role: Role, out: Deployment)
      modifies out
      ensures out.files == ApplyWrites(old(out.files), OverlayWrites(binding, role, o))
      ensures out.directories == old(out.directories) + Dirs(OverlayWrites(binding, role, o))
    {
      var docsPath := ResolvePath(binding.docsPath, role.metadata);
      var overlaysPath := Join(Join(docsPath, "contexts"), "_overlays");
      var organization := CopyEntry(Join(overlaysPath, "organization"), o.organization.contexts);
      var platforms := CopyLayer(overlaysPath, "platforms", o.platforms);
      var roles := CopyLayer(overlaysPath, "roles", o.roles);
      out.RecordAll(organization + platforms + roles);
    }

    /** The copies of a role's tasks or flows, to `<dir>/<name>.md`. */
    method CopyDocuments(dir: string, docs: seq<(string, Document)>, out: Deployment)
      modifies out
      ensures out.files == ApplyWrites(old(out.files), DocumentWrites(dir, docs))
      ensures out.directories == old(out.directories) + Dirs(DocumentWrites(dir, docs))
    {
      var ws: seq<Write> := [];
      var i := 0;
      while i < |docs|
        invariant 0 <= i <= |docs|
        invariant ws == DocumentWrites(dir, docs[..i])
      {
        var doc := docs[i].1;
        var docPath := Join(dir, doc.name + ".md");
        assert docs[..i + 1][..i] == docs[..i];
        ws := ws + [(docPath, doc.content)];
        i := i + 1;
      }
      assert docs[..i] == docs;
      out.RecordAll(ws);
    }

    /** `copyTasks`. */
    method CopyTasks(role: Role, out: Deployment)
      modifies out
      ensures out.files == ApplyWrites(old(out.files), TaskWrites(binding, role))
      ensures out.directories == old(out.directories) + Dirs(TaskWrites(binding, role))
    {
      var docsPath := ResolvePath(binding.docsPath, role.metadata);
      CopyDocuments(Join(docsPath, "tasks"), role.tasks, out);
    }

    /** `copyFlows`. */
    method CopyFlows(role: Role, out: Deployment)
      modifies out
      ensures out.files == ApplyWrites(old(out.files), FlowWrites(binding, role))
      ensures out.directories == old(out.directories) + Dirs(FlowWrites(binding, role))
    {
      var docsPath := ResolvePath(binding.docsPath, role.metadata);
      CopyDocuments(Join(docsPath, "flows"), role.flows, out);
    }

    /** `transform`: the agent file, the copied documents and the config, and the distinct directories. */
    method Transform(role: Role, config: Fields, o: Overlays) returns (a: Artifact)
      ensures a == Transformed(binding, render, role, config, o)
    {
      var out := Deploy(role, config, o);
      a := Artifact(out.files, Dedup(out.directories),
                    DeploymentMetadata((RoleType, StrField(role.metadata, "name")), "claude-code", config));
    }

    /** The body of `transform` up to the returned artifact: every write recorded in order. */
    method Deploy(role: Role, config: Fields, o: Overlays) returns (out: Deployment)
      ensures fresh(out)
      ensures out.files == ApplyWrites([], AllWrites(binding, render, role, config, o))
      ensures out.directories == Dirs(AllWrites(binding, render, role, config, o))
    {
      out := new Deployment();
      var agentContent := GenerateAgentFile(role, config, o);
      var agentPath := ResolvePath(binding.rolePath, role.metadata);
      out.RecordAll([(agentPath, agentContent)]);
      CopyContexts(role, out);
      CopyOverlayContexts(o, role, out);
      CopyTasks(role, out);
      CopyFlows(role, out);
      var configPath := binding.configPath;
      out.RecordAll([(configPath, render.dump(JObj(config)))]);
      ghost var agent := [AgentWrite(binding, render, role, config, o)];
      ghost var tail := [ConfigWrite(binding, render, config)];
      FilesChain([], agent, ContextWrites(binding, render, role), OverlayWrites(binding, role, o),
                 TaskWrites(binding, role), FlowWrites(binding, role), tail);
      DirsChain(agent, ContextWrites(binding, render, role), OverlayWrites(binding, role, o),
                TaskWrites(binding, role), FlowWrites(binding, role), tail);
      assert [] + Dirs(agent) == Dirs(agent);
    }
  }
}
