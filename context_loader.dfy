/**
 * ContextLoader and ContextResolver: reading context documents from a role's
 * directory tree and from overlay directories, and choosing which contexts a
 * role receives.
 */
module ContextLoader {
  import opened Wrappers
  import opened Text
  import opened Seqs
  import opened Assoc
  import opened Json
  import opened FileSystem
  import opened Contexts
  import opened Frontmatter
  import opened ConceptTypes

  /** `yaml.load`, with `None` for a thrown parse error. */
  type Parser = string -> Option<Json>

  /** `loadContext`: fails (None) exactly when the file cannot be read. */
  function LoadContext(fs: Snapshot, parse: Parser, filePath: string, category: Category): (r: Option<Context>)
    ensures r.None? <==> ReadFile(fs, filePath).None?
    ensures r.Some? ==>
      var parsed := ParseFrontmatter(parse, ReadFile(fs, filePath).value);
      r.value == Context(category, Basename(filePath, ".md"), parsed.body, parsed.metadata, Some(filePath))
  {
    match ReadFile(fs, filePath)
    case None => None
    case Some(content) =>
      var parsed := ParseFrontmatter(parse, content);
      Some(Context(category, Basename(filePath, ".md"), parsed.body, parsed.metadata, Some(filePath)))
  }

  /** The contexts of `files` in order, stopping at the first file that cannot be read. */
  function LoadUntilFailure(fs: Snapshot, parse: Parser, dir: string, files: seq<string>, category: Category): (r: seq<Context>)
    ensures |r| <= |files|
  {
    if |files| == 0 then []
    else match LoadContext(fs, parse, Join(dir, files[0]), category)
      case None => []
      case Some(c) => [c] + LoadUntilFailure(fs, parse, dir, files[1..], category)
  }

  /** The i-th loaded context is the one loaded from the i-th file. */
  lemma {:induction false} LoadedAt(fs: Snapshot, parse: Parser, dir: string, files: seq<string>, category: Category, i: nat)
    requires i < |LoadUntilFailure(fs, parse, dir, files, category)|
    ensures LoadContext(fs, parse, Join(dir, files[i]), category) == Some(LoadUntilFailure(fs, parse, dir, files, category)[i])
  {
    if i > 0 {
      var tail := files[1..];
      LoadedAt(fs, parse, dir, tail, category, i - 1);
      assert tail[i - 1] == files[i];
    }
  }

  /** Loading stops only at a file that cannot be loaded. */
  lemma {:induction false} StoppedAt(fs: Snapshot, parse: Parser, dir: string, files: seq<string>, category: Category)
    ensures var n := |LoadUntilFailure(fs, parse, dir, files, category)|;
      n < |files| ==> LoadContext(fs, parse, Join(dir, files[n]), category).None?
  {
    if |files| > 0 && LoadContext(fs, parse, Join(dir, files[0]), category).Some? {
      var tail := files[1..];
      StoppedAt(fs, parse, dir, tail, category);
      var n := |LoadUntilFailure(fs, parse, dir, tail, category)|;
      if n < |tail| {
        assert tail[n] == files[n + 1];
      }
    }
  }

  /**
   * The loaded contexts are those of a prefix of the files, each at its file's
   * position, and the loading stopped at a file that cannot be loaded.
   */
  lemma LoadUntilFailureFacts(fs: Snapshot, parse: Parser, dir: string, files: seq<string>, category: Category)
    ensures var r := LoadUntilFailure(fs, parse, dir, files, category);
      && (forall i :: 0 <= i < |r| ==> LoadContext(fs, parse, Join(dir, files[i]), category) == Some(r[i]))
      && (|r| < |files| ==> LoadContext(fs, parse, Join(dir, files[|r|]), category).None?)
  {
    var r := LoadUntilFailure(fs, parse, dir, files, category);
    forall i | 0 <= i < |r| ensures LoadContext(fs, parse, Join(dir, files[i]), category) == Some(r[i]) {
      LoadedAt(fs, parse, dir, files, category, i);
    }
    StoppedAt(fs, parse, dir, files, category);
  }

  /**
   * What `loadCategoryContexts(dir, category)` returns: the ".md" entries of the
   * directory, in listing order, up to the first unreadable one; [] when the
   * directory cannot be listed.
   */
  function CategoryContexts(fs: Snapshot, parse: Parser, dir: string, category: Category): seq<Context> {
    match ReadDir(fs, dir)
    case None => []
    case Some(entries) => LoadUntilFailure(fs, parse, dir, FilterExt(entries, ".md"), category)
  }

  /** One step of loading: an unreadable file ends the list, a readable one heads it. */
  lemma LoadUntilFailureStep(fs: Snapshot, parse: Parser, dir: string, files: seq<string>, i: nat, category: Category)
    requires i < |files|
    ensures LoadContext(fs, parse, Join(dir, files[i]), category).None? ==>
      LoadUntilFailure(fs, parse, dir, files[i..], category) == []
    ensures LoadContext(fs, parse, Join(dir, files[i]), category).Some? ==>
      LoadUntilFailure(fs, parse, dir, files[i..], category) ==
        [LoadContext(fs, parse, Join(dir, files[i]), category).value] + LoadUntilFailure(fs, parse, dir, files[i + 1..], category)
  {
    assert files[i..][0] == files[i];
    assert files[i..][1..] == files[i + 1..];
  }

  /** The loop's step, with the contexts loaded so far in front. */
  lemma LoadedSoFarStep(fs: Snapshot, parse: Parser, dir: string, files: seq<string>, i: nat, category: Category,
                        done: seq<Context>, c: Context)
    requires i < |files| && LoadContext(fs, parse, Join(dir, files[i]), category) == Some(c)
    ensures done + LoadUntilFailure(fs, parse, dir, files[i..], category) ==
      (done + [c]) + LoadUntilFailure(fs, parse, dir, files[i + 1..], category)
  {
    LoadUntilFailureStep(fs, parse, dir, files, i, category);
  }

  /** `loadCategoryContexts`: a read failure ends the loop; the contexts loaded so far are kept. */
  method LoadCategoryContexts(fs: Snapshot, parse: Parser, dir: string, category: Category) returns (r: seq<Context>)
    ensures r == CategoryContexts(fs, parse, dir, category)
  {
    r := [];
    var listing := ReadDir(fs, dir);
    if listing.None? {
      return;
    }
    var files := FilterExt(listing.value, ".md");
    ghost var all := LoadUntilFailure(fs, parse, dir, files, category);
    assert files[0..] == files;
    var i := 0;
    while i < |files|
      invariant 0 <= i <= |files|
      invariant all == r + LoadUntilFailure(fs, parse, dir, files[i..], category)
    {
      var loaded := LoadContext(fs, parse, Join(dir, files[i]), category);
      if loaded.None? {
        LoadUntilFailureStep(fs, parse, dir, files, i, category);
        assert all == r + [];
        break;
      }
      LoadedSoFarStep(fs, parse, dir, files, i, category, r, loaded.value);
      r := r + [loaded.value];
      i := i + 1;
    }
  }

  /**
   * Every context loaded from a category directory belongs to that category,
   * is named after a ".md" entry of the directory minus ".md", and comes from
   * the entry at the same position among the ".md" entries; an unlistable
   * directory gives none.
   */
  lemma CategoryContextsFacts(fs: Snapshot, parse: Parser, dir: string, category: Category)
    ensures ReadDir(fs, dir).None? ==> CategoryContexts(fs, parse, dir, category) == []
    ensures ReadDir(fs, dir).Some? ==>
      var files := FilterExt(ReadDir(fs, dir).value, ".md");
      var r := CategoryContexts(fs, parse, dir, category);
      && |r| <= |files|
      && forall i :: 0 <= i < |r| ==>
          && EndsWith(files[i], ".md")
          && r[i].category == category
          && r[i].path == Some(Join(dir, files[i]))
          && ('/' !in files[i] ==> r[i].name == StripSuffix(files[i], ".md"))
  {
    if ReadDir(fs, dir).Some? {
      var files := FilterExt(ReadDir(fs, dir).value, ".md");
      var r := CategoryContexts(fs, parse, dir, category);
      LoadUntilFailureFacts(fs, parse, dir, files, category);
      forall i | 0 <= i < |r|
        ensures '/' !in files[i] ==> r[i].name == StripSuffix(files[i], ".md")
        ensures EndsWith(files[i], ".md")
      {
        assert files[i] in files;
        if '/' !in files[i] {
          BasenameJoin(dir, files[i], ".md");
        }
      }
    }
  }

  /** When every ".md" entry is readable, each of them yields one context. */
  lemma {:induction false} AllReadableLoaded(fs: Snapshot, parse: Parser, dir: string, files: seq<string>, category: Category)
    requires forall f :: f in files ==> ReadFile(fs, Join(dir, f)).Some?
    ensures |LoadUntilFailure(fs, parse, dir, files, category)| == |files|
  {
    if |files| > 0 {
      assert files[0] in files;
      AllReadableLoaded(fs, parse, dir, files[1..], category);
    }
  }

  /** The contexts of several category directories under `base`, one after another. */
  function CategoriesContexts(fs: Snapshot, parse: Parser, base: string, categories: seq<Category>): seq<Context> {
    if |categories| == 0 then []
    else
      var last := categories[|categories| - 1];
      CategoriesContexts(fs, parse, base, categories[..|categories| - 1])
        + CategoryContexts(fs, parse, Join(base, CategoryName(last)), last)
  }

  /** Loads `<base>/<category>` for each category in order and concatenates the results. */
  method LoadCategories(fs: Snapshot, parse: Parser, base: string, categories: seq<Category>) returns (r: seq<Context>)
    ensures r == CategoriesContexts(fs, parse, base, categories)
  {
    r := [];
    var i := 0;
    while i < |categories|
      invariant 0 <= i <= |categories|
      invariant r == CategoriesContexts(fs, parse, base, categories[..i])
    {
      var part := LoadCategoryContexts(fs, parse, Join(base, CategoryName(categories[i])), categories[i]);
      assert categories[..i + 1][..i] == categories[..i];
      r := r + part;
      i := i + 1;
    }
    assert categories[..i] == categories;
  }

  /** Every context from a category sweep has one of the swept categories. */
  lemma {:induction false} CategoriesContextsCategory(fs: Snapshot, parse: Parser, base: string, categories: seq<Category>)
    ensures forall x :: x in CategoriesContexts(fs, parse, base, categories) ==> x.category in categories
  {
    if |categories| > 0 {
      var init := categories[..|categories| - 1];
      var last := categories[|categories| - 1];
      CategoriesContextsCategory(fs, parse, base, init);
      CategoryContextsFacts(fs, parse, Join(base, CategoryName(last)), last);
      assert forall c :: c in init ==> c in categories;
    }
  }

  /** The key a role's context map uses: "category/name". */
  function ContextKey(c: Context): string {
    CategoryName(c.category) + "/" + c.name
  }

  /** `map.set(key(c), c)` for each context in order. */
  function KeyContexts(m: seq<(string, Context)>, cs: seq<Context>): (r: seq<(string, Context)>)
    ensures forall k :: k in Keys(m) ==> k in Keys(r)
    ensures forall c :: c in cs ==> ContextKey(c) in Keys(r)
  {
    if |cs| == 0 then m
    else
      var init := cs[..|cs| - 1];
      var last := cs[|cs| - 1];
      assert forall c :: c in cs ==> c in init || c == last;
      Put(KeyContexts(m, init), ContextKey(last), last)
  }

  lemma KeyContextsSnoc(m: seq<(string, Context)>, cs: seq<Context>, i: nat)
    requires i < |cs|
    ensures KeyContexts(m, cs[..i + 1]) == Put(KeyContexts(m, cs[..i]), ContextKey(cs[i]), cs[i])
  {
    assert cs[..i + 1][..i] == cs[..i];
  }

  predicate KeyedByCategoryAndName(m: seq<(string, Context)>) {
    forall e :: e in m ==> e.0 == ContextKey(e.1)
  }

  lemma {:induction false} KeyContextsKeyed(m: seq<(string, Context)>, cs: seq<Context>)
    requires KeyedByCategoryAndName(m)
    ensures KeyedByCategoryAndName(KeyContexts(m, cs))
  {
    if |cs| > 0 {
      var init := cs[..|cs| - 1];
      KeyContextsKeyed(m, init);
      PutMembers(KeyContexts(m, init), ContextKey(cs[|cs| - 1]), cs[|cs| - 1]);
    }
  }

  /**
   * What `loadRoleContexts(rolePath)` builds: every context of
   * `<rolePath>/contexts/<category>`, for each category in enum order, stored
   * under "category/name".
   */
  function RoleContexts(fs: Snapshot, parse: Parser, rolePath: string): seq<(string, Context)> {
    KeyContexts([], CategoriesContexts(fs, parse, Join(rolePath, "contexts"), AllCategories))
  }

  /** `loadRoleContexts`. */
  method LoadRoleContexts(fs: Snapshot, parse: Parser, rolePath: string) returns (m: seq<(string, Context)>)
    ensures m == RoleContexts(fs, parse, rolePath)
  {
    var contextsDir := Join(rolePath, "contexts");
    var loaded := LoadCategories(fs, parse, contextsDir, AllCategories);
    m := [];
    var i := 0;
    while i < |loaded|
      invariant 0 <= i <= |loaded|
      invariant m == KeyContexts([], loaded[..i])
    {
      var c := loaded[i];
      KeyContextsSnoc([], loaded, i);
      m := Put(m, ContextKey(c), c);
      i := i + 1;
    }
    assert loaded[..i] == loaded;
  }

  /** Each entry of a loaded role context map is keyed "category/name", and every loaded context has its key. */
  lemma RoleContextsKeyed(fs: Snapshot, parse: Parser, rolePath: string)
    ensures KeyedByCategoryAndName(RoleContexts(fs, parse, rolePath))
    ensures forall c :: c in CategoriesContexts(fs, parse, Join(rolePath, "contexts"), AllCategories) ==>
      ContextKey(c) in Keys(RoleContexts(fs, parse, rolePath))
  {
    KeyContextsKeyed([], CategoriesContexts(fs, parse, Join(rolePath, "contexts"), AllCategories));
  }

  /** `loadPlatformContext`: the context stored under "platforms/platform-<p>", or null. */
  function LoadPlatformContext(role: Role, platform: string): (r: Option<Context>)
    ensures r.Some? <==> "platforms/platform-" + platform in Keys(role.contexts)
    ensures r.Some? ==> ("platforms/platform-" + platform, r.value) in role.contexts
  {
    Get(role.contexts, "platforms/platform-" + platform)
  }

  /** `loadSpecialistContext`: the context stored under "specialists/specialist-<s>", or null. */
  function LoadSpecialistContext(role: Role, specialist: string): (r: Option<Context>)
    ensures r.Some? <==> "specialists/specialist-" + specialist in Keys(role.contexts)
    ensures r.Some? ==> ("specialists/specialist-" + specialist, r.value) in role.contexts
  {
    Get(role.contexts, "specialists/specialist-" + specialist)
  }

  /** `config.platforms[key]` when it is a non-empty string. */
  function ConfiguredPlatform(config: Fields, key: string): Option<string> {
    var platforms: Option<Json> := Get(config, "platforms");
    if platforms.Some? && platforms.value.JObj? then NonEmptyStr(platforms.value.fields, key) else None
  }

  /**
   * `detectPlatform`: with `config.platforms` set and a platform_config_key,
   * the configured entry or null; otherwise the default platform or null.
   */
  function DetectPlatform(role: Role, config: Fields): (r: Option<string>)
    ensures TruthyOpt(Get(config, "platforms")) && NonEmptyStr(role.metadata, "platform_config_key").Some? ==>
      r == ConfiguredPlatform(config, NonEmptyStr(role.metadata, "platform_config_key").value)
    ensures !(TruthyOpt(Get(config, "platforms")) && NonEmptyStr(role.metadata, "platform_config_key").Some?) ==>
      r == NonEmptyStr(role.metadata, "default_platform")
    ensures r.Some? ==> r.value != ""
  {
    var key := NonEmptyStr(role.metadata, "platform_config_key");
    if TruthyOpt(Get(config, "platforms")) && key.Some? then ConfiguredPlatform(config, key.value)
    else NonEmptyStr(role.metadata, "default_platform")
  }

  /**
   * There is no fallback: when the config has platforms and the role a
   * platform_config_key, a missing entry gives no platform even though a
   * default platform is declared.
   */
  lemma DetectPlatformNoFallback(role: Role, config: Fields, key: string, fallback: string)
    requires TruthyOpt(Get(config, "platforms")) && NonEmptyStr(role.metadata, "platform_config_key") == Some(key)
    requires ConfiguredPlatform(config, key).None?
    requires NonEmptyStr(role.metadata, "default_platform") == Some(fallback)
    ensures DetectPlatform(role, config).None?
  {
  }

  /** The role contexts whose key starts with `prefix`, in map order. */
  function WithKeyPrefix(entries: seq<(string, Context)>, prefix: string): (r: seq<Context>)
    ensures forall c :: c in r ==> exists k :: (k, c) in entries && StartsWith(k, prefix)
  {
    if |entries| == 0 then []
    else if StartsWith(entries[0].0, prefix) then
      assert entries[0] in entries;
      [entries[0].1] + WithKeyPrefix(entries[1..], prefix)
    else WithKeyPrefix(entries[1..], prefix)
  }

  /** The resolver's private `loadCategoryContexts(role, category)`: role contexts keyed "<category>/…". */
  method RoleCategoryContexts(role: Role, category: Category) returns (r: seq<Context>)
    ensures r == WithKeyPrefix(role.contexts, CategoryName(category) + "/")
  {
    var prefix := CategoryName(category) + "/";
    r := [];
    var i := |role.contexts|;
    while i > 0
      invariant 0 <= i <= |role.contexts|
      invariant r == WithKeyPrefix(role.contexts[i..], prefix)
    {
      i := i - 1;
      assert role.contexts[i..][1..] == role.contexts[i + 1..];
      if StartsWith(role.contexts[i].0, prefix) {
        r := [role.contexts[i].1] + r;
      }
    }
  }

  /** `loadOrganizationOverlays`: organization standards, then references. */
  function OrganizationOverlays(fs: Snapshot, parse: Parser, overlayPath: string): seq<Context> {
    var orgPath := Join(Join(overlayPath, "organization"), "contexts");
    CategoryContexts(fs, parse, Join(orgPath, "standards"), Standards)
      + CategoryContexts(fs, parse, Join(orgPath, "references"), References)
  }

  /** `loadPlatformOverlays`: every category of the platform's overlay directory. */
  function PlatformOverlays(fs: Snapshot, parse: Parser, overlayPath: string, platform: string): seq<Context> {
    CategoriesContexts(fs, parse, Join(Join(Join(overlayPath, "platforms"), platform), "contexts"), AllCategories)
  }

  /** `loadRoleOverlays`: every category of the role's overlay directory. */
  function RoleOverlays(fs: Snapshot, parse: Parser, overlayPath: string, roleName: string): seq<Context> {
    CategoriesContexts(fs, parse, Join(Join(Join(overlayPath, "roles"), roleName), "contexts"), AllCategories)
  }

  /** The platform context picked for the role, as a list of zero or one context. */
  function PlatformPart(role: Role, config: Fields): seq<Context> {
    var platform := DetectPlatform(role, config);
    if platform.None? then []
    else match LoadPlatformContext(role, platform.value)
      case None => []
      case Some(c) => [c]
  }

  /** `overlayPath` is given and not the empty string. */
  predicate UsesOverlays(overlayPath: Option<string>) {
    overlayPath.Some? && overlayPath.value != ""
  }

  function OrganizationPart(fs: Snapshot, parse: Parser, overlayPath: Option<string>): seq<Context> {
    if UsesOverlays(overlayPath) then OrganizationOverlays(fs, parse, overlayPath.value) else []
  }

  function PlatformOverlayPart(fs: Snapshot, parse: Parser, role: Role, config: Fields, overlayPath: Option<string>): seq<Context> {
    var platform := DetectPlatform(role, config);
    if UsesOverlays(overlayPath) && platform.Some? then PlatformOverlays(fs, parse, overlayPath.value, platform.value) else []
  }

  /**
   * What `resolveContexts` returns, in this order: the platform context, the
   * organization overlays, the platform overlays, the role's standards and
   * the role overlays. Overlay parts need an overlay path; platform overlays
   * also need a platform. Building the role overlay path from `metadata.name`
   * throws when the name is not a string.
   */
  function ResolvedContexts(fs: Snapshot, parse: Parser, role: Role, config: Fields, overlayPath: Option<string>): Result<seq<Context>> {
    var name := StrField(role.metadata, "name");
    var base := PlatformPart(role, config) + OrganizationPart(fs, parse, overlayPath)
      + PlatformOverlayPart(fs, parse, role, config, overlayPath) + WithKeyPrefix(role.contexts, CategoryName(Standards) + "/");
    if !UsesOverlays(overlayPath) then Ok(base)
    else if name.None? then Err("The \"path\" argument must be of type string")
    else Ok(base + RoleOverlays(fs, parse, overlayPath.value, name.value))
  }

  method LoadPlatformPart(role: Role, config: Fields) returns (r: seq<Context>)
    ensures r == PlatformPart(role, config)
  {
    r := [];
    var platform := DetectPlatform(role, config);
    if platform.Some? {
      var platformContext := LoadPlatformContext(role, platform.value);
      if platformContext.Some? {
        r := [platformContext.value];
      }
    }
  }

  /** `loadOrganizationOverlays`. */
  method LoadOrganizationOverlays(fs: Snapshot, parse: Parser, overlayPath: string) returns (r: seq<Context>)
    ensures r == OrganizationOverlays(fs, parse, overlayPath)
  {
    var orgPath := Join(Join(overlayPath, "organization"), "contexts");
    var standards := LoadCategoryContexts(fs, parse, Join(orgPath, "standards"), Standards);
    var references := LoadCategoryContexts(fs, parse, Join(orgPath, "references"), References);
    r := standards + references;
  }

  /** `loadPlatformOverlays`. */
  method LoadPlatformOverlays(fs: Snapshot, parse: Parser, overlayPath: string, platform: string) returns (r: seq<Context>)
    ensures r == PlatformOverlays(fs, parse, overlayPath, platform)
  {
    r := LoadCategories(fs, parse, Join(Join(Join(overlayPath, "platforms"), platform), "contexts"), AllCategories);
  }

  /** `loadRoleOverlays`. */
  method LoadRoleOverlays(fs: Snapshot, parse: Parser, overlayPath: string, roleName: string) returns (r: seq<Context>)
    ensures r == RoleOverlays(fs, parse, overlayPath, roleName)
  {
    r := LoadCategories(fs, parse, Join(Join(Join(overlayPath, "roles"), roleName), "contexts"), AllCategories);
  }

  /** `resolveContexts`. */
  method ResolveContexts(fs: Snapshot, parse: Parser, role: Role, config: Fields, overlayPath: Option<string>)
    returns (r: Result<seq<Context>>)
    ensures r == ResolvedContexts(fs, parse, role, config, overlayPath)
  {
    var useOverlays := overlayPath.Some? && overlayPath.value != "";
    var platform := DetectPlatform(role, config);
    var contexts := LoadPlatformPart(role, config);
    var orgContexts: seq<Context> := [];
    if useOverlays {
      orgContexts := LoadOrganizationOverlays(fs, parse, overlayPath.value);
    }
    assert orgContexts == OrganizationPart(fs, parse, overlayPath);
    contexts := contexts + orgContexts;
    var platformOverlays: seq<Context> := [];
    if useOverlays && platform.Some? {
      platformOverlays := LoadPlatformOverlays(fs, parse, overlayPath.value, platform.value);
    }
    assert platformOverlays == PlatformOverlayPart(fs, parse, role, config, overlayPath);
    contexts := contexts + platformOverlays;
    var standards := RoleCategoryContexts(role, Standards);
    contexts := contexts + standards;
    if useOverlays {
      var name := StrField(role.metadata, "name");
      if name.None? {
        return Err("The \"path\" argument must be of type string");
      }
      var roleOverlays := LoadRoleOverlays(fs, parse, overlayPath.value, name.value);
      contexts := contexts + roleOverlays;
    }
    r := Ok(contexts);
  }

  /** Without an overlay path, a role receives its platform context (if any) followed by its standards. */
  lemma ResolvedWithoutOverlays(fs: Snapshot, parse: Parser, role: Role, config: Fields)
    ensures ResolvedContexts(fs, parse, role, config, None) ==
      Ok(PlatformPart(role, config) + WithKeyPrefix(role.contexts, CategoryName(Standards) + "/"))
  {
    assert OrganizationPart(fs, parse, None) == [];
    assert PlatformOverlayPart(fs, parse, role, config, None) == [];
    assert PlatformPart(role, config) + [] + [] == PlatformPart(role, config);
  }

  /** The role's own standards always appear, whatever overlays are configured. */
  lemma ResolvedKeepsStandards(fs: Snapshot, parse: Parser, role: Role, config: Fields, overlayPath: Option<string>, c: Context)
    requires ResolvedContexts(fs, parse, role, config, overlayPath).Ok?
    requires c in WithKeyPrefix(role.contexts, CategoryName(Standards) + "/")
    ensures c in ResolvedContexts(fs, parse, role, config, overlayPath).value
  {
  }

  /** The specialist table: keywords and the specialist they select, in table order. */
  const SpecialistTable: seq<(seq<string>, string)> := [
    (["sprint", "iteration", "planning"], "sprint-planning"),
    (["security", "vulnerability", "audit"], "security"),
    (["performance", "optimization", "latency"], "performance"),
    (["monorepo", "multi-package"], "monorepo"),
    (["microservice", "micro-service"], "microservices"),
    (["docker", "container", "kubernetes"], "containers"),
    (["ci", "cd", "pipeline", "deployment"], "cicd"),
    (["test", "testing", "tdd", "bdd"], "testing")
  ]

  /** Some keyword occurs in the (lower-cased) request. */
  predicate AnyKeyword(text: string, keywords: seq<string>) {
    exists i :: 0 <= i < |keywords| && Contains(text, keywords[i])
  }

  /** The specialists of table rows `rows` that have a keyword in `text`, in table order. */
  function MatchingSpecialists(text: string, rows: seq<(seq<string>, string)>): (r: seq<string>)
    ensures forall s :: s in r <==> exists i :: 0 <= i < |rows| && rows[i].1 == s && AnyKeyword(text, rows[i].0)
  {
    if |rows| == 0 then []
    else
      var rest := MatchingSpecialists(text, rows[1..]);
      assert forall i :: 1 <= i < |rows| ==> rows[i] == rows[1..][i - 1];
      if AnyKeyword(text, rows[0].0) then [rows[0].1] + rest else rest
  }

  /** `mapping.keywords.some(k => text.includes(k))`. */
  method SomeKeyword(text: string, keywords: seq<string>) returns (found: bool)
    ensures found <==> AnyKeyword(text, keywords)
  {
    found := false;
    var i := 0;
    while i < |keywords|
      invariant 0 <= i <= |keywords|
      invariant !exists j :: 0 <= j < i && Contains(text, keywords[j])
    {
      if Contains(text, keywords[i]) {
        return true;
      }
      i := i + 1;
    }
  }

  /** The specialists of `rows` whose keywords occur in `text`, checked row by row. */
  method MatchRows(text: string, rows: seq<(seq<string>, string)>) returns (specialists: seq<string>)
    ensures specialists == MatchingSpecialists(text, rows)
  {
    specialists := [];
    var i := 0;
    while i < |rows|
      invariant 0 <= i <= |rows|
      invariant specialists + MatchingSpecialists(text, rows[i..]) == MatchingSpecialists(text, rows)
    {
      assert rows[i..][1..] == rows[i + 1..];
      var hit := SomeKeyword(text, rows[i].0);
      if hit {
        specialists := specialists + [rows[i].1];
      }
      i := i + 1;
    }
  }

  /** `analyzeRequestForSpecialists`. */
  method AnalyzeRequestForSpecialists(request: string) returns (r: seq<string>)
    ensures r == Dedup(MatchingSpecialists(ToLower(request), SpecialistTable))
  {
    var specialists := MatchRows(ToLower(request), SpecialistTable);
    r := Dedup(specialists);
  }

  /**
   * analyzeRequestForSpecialists returns each specialist once, exactly those
   * with some keyword in the lower-cased request; since the table names each
   * specialist once, they come in table order.
   */
  lemma AnalyzeRequestFacts(request: string)
    ensures Distinct(Dedup(MatchingSpecialists(ToLower(request), SpecialistTable)))
    ensures Dedup(MatchingSpecialists(ToLower(request), SpecialistTable)) == MatchingSpecialists(ToLower(request), SpecialistTable)
    ensures forall s :: s in Dedup(MatchingSpecialists(ToLower(request), SpecialistTable)) <==>
      exists i :: 0 <= i < |SpecialistTable| && SpecialistTable[i].1 == s && AnyKeyword(ToLower(request), SpecialistTable[i].0)
  {
    TableNamesDistinct();
    MatchingDistinct(ToLower(request), SpecialistTable);
    DedupDistinct(MatchingSpecialists(ToLower(request), SpecialistTable));
  }

  /** The table names each specialist once. */
  lemma TableNamesDistinct()
    ensures Distinct(SpecialistNames(SpecialistTable))
  {
    var names := SpecialistNames(SpecialistTable);
    var lit := ["sprint-planning", "security", "performance", "monorepo", "microservices", "containers", "cicd", "testing"];
    forall i | 0 <= i < |lit| ensures names[i] == lit[i] {
      assert names[i] == SpecialistTable[i].1;
    }
    assert names == lit;
    LiteralNamesDistinct();
  }

  lemma LiteralNamesDistinct()
    ensures Distinct(["sprint-planning", "security", "performance", "monorepo", "microservices", "containers", "cicd", "testing"])
  {
  }

  lemma {:induction false} MatchingDistinct(text: string, rows: seq<(seq<string>, string)>)
    requires Distinct(SpecialistNames(rows))
    ensures Distinct(MatchingSpecialists(text, rows))
  {
    if |rows| > 0 {
      assert SpecialistNames(rows) == [rows[0].1] + SpecialistNames(rows[1..]);
      MatchingDistinct(text, rows[1..]);
      assert rows[0].1 !in SpecialistNames(rows[1..]);
      NamesCover(text, rows[1..]);
    }
  }

  function SpecialistNames(rows: seq<(seq<string>, string)>): (r: seq<string>)
    ensures |r| == |rows| && forall i :: 0 <= i < |rows| ==> r[i] == rows[i].1
  {
    if |rows| == 0 then [] else [rows[0].1] + SpecialistNames(rows[1..])
  }

  lemma NamesCover(text: string, rows: seq<(seq<string>, string)>)
    ensures forall s :: s in MatchingSpecialists(text, rows) ==> s in SpecialistNames(rows)
  {
  }
}
