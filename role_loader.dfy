/**
 * RoleLoader: reading a role's prompt, tasks, flows, contexts and bindings
 * from a directory snapshot, finding the context references in its prompt, and
 * the role-specific validation findings.
 */
module RoleLoader {
  import opened Wrappers
  import opened Text
  import opened Seqs
  import opened Assoc
  import opened Json
  import opened FileSystem
  import opened Contexts
  import opened Frontmatter
  import opened ConceptTypes
  import opened ConceptBase
  import opened ContextLoader
  import opened RoleValidation

  /** The error `fs.readFile` throws for a path that is not a readable file. */
  function ReadError(p: string): string {
    "cannot read file: " + p
  }

  /** `readFile(p)`: the content, or the error thrown. */
  function Read(fs: Snapshot, p: string): (r: Result<string>)
    ensures r.Ok? <==> ReadFile(fs, p).Some?
    ensures r.Ok? ==> r.value == ReadFile(fs, p).value
  {
    match ReadFile(fs, p)
    case None => Err(ReadError(p))
    case Some(c) => Ok(c)
  }

  // ---------------------------------------------------------------------------
  // Filling a Map from a listing

  /** Loading one listed file: an entry to `set`, nothing when the file is skipped, or the error thrown. */
  type Loader<T> = string -> Result<Option<(string, T)>>

  /**
   * The loop `for (const file of files) { ...; map.set(key, value) }` run on
   * `m`: the first thrown error ends it, a skipped file sets nothing.
   */
  function Collect<T>(m: seq<(string, T)>, files: seq<string>, load: Loader<T>): Result<seq<(string, T)>>
    decreases |files|
  {
    if |files| == 0 then Ok(m)
    else match Collect(m, files[..|files| - 1], load)
      case Err(e) => Err(e)
      case Ok(acc) => match load(files[|files| - 1])
        case Err(e) => Err(e)
        case Ok(None) => Ok(acc)
        case Ok(Some(kv)) => Ok(Put(acc, kv.0, kv.1))
  }

  /** The keys the loop sets, in order, with repetitions. */
  function LoadedKeys<T>(files: seq<string>, load: Loader<T>): seq<string> {
    if |files| == 0 then []
    else
      var last := load(files[|files| - 1]);
      LoadedKeys(files[..|files| - 1], load) + (if last.Ok? && last.value.Some? then [last.value.value.0] else [])
  }

  /** The value last set under `k`, or what `m` held. */
  function Latest<T>(m: seq<(string, T)>, files: seq<string>, load: Loader<T>, k: string): Option<T> {
    if |files| == 0 then Get(m, k)
    else
      var last := load(files[|files| - 1]);
      if last.Ok? && last.value.Some? && last.value.value.0 == k then Some(last.value.value.1)
      else Latest(m, files[..|files| - 1], load, k)
  }

  predicate AllLoad<T>(files: seq<string>, load: Loader<T>) {
    forall i :: 0 <= i < |files| ==> load(files[i]).Ok?
  }

  lemma AllLoadPrefix<T>(files: seq<string>, load: Loader<T>)
    requires |files| > 0
    ensures AllLoad(files, load) <==> AllLoad(files[..|files| - 1], load) && load(files[|files| - 1]).Ok?
  {
    assert forall i :: 0 <= i < |files| - 1 ==> files[..|files| - 1][i] == files[i];
  }

  /** The loop completes exactly when no file's load throws. */
  lemma {:induction false} CollectOk<T>(m: seq<(string, T)>, files: seq<string>, load: Loader<T>)
    ensures Collect(m, files, load).Ok? <==> AllLoad(files, load)
  {
    if |files| > 0 {
      CollectOk(m, files[..|files| - 1], load);
      AllLoadPrefix(files, load);
    }
  }

  /** A thrown error is that of the first file whose load throws. */
  lemma {:induction false} CollectFirstError<T>(m: seq<(string, T)>, files: seq<string>, load: Loader<T>, i: nat)
    requires i < |files| && load(files[i]).Err?
    requires forall j :: 0 <= j < i ==> load(files[j]).Ok?
    ensures Collect(m, files, load) == Err(load(files[i]).error)
  {
    var init := files[..|files| - 1];
    if i < |files| - 1 {
      assert init[i] == files[i];
      assert forall j :: 0 <= j < i ==> init[j] == files[j];
      CollectFirstError(m, init, load, i);
    } else {
      assert forall j :: 0 <= j < i ==> init[j] == files[j];
      CollectOk(m, init, load);
    }
  }

  /** The map's keys are its old keys, then each newly set key at its first setting. */
  lemma {:induction false} CollectKeys<T>(m: seq<(string, T)>, files: seq<string>, load: Loader<T>)
    requires DistinctKeys(m) && Collect(m, files, load).Ok?
    ensures Keys(Collect(m, files, load).value) == Dedup(Keys(m) + LoadedKeys(files, load))
  {
    if |files| == 0 {
      AppendNil(Keys(m));
      DedupDistinct(Keys(m));
    } else {
      var init := files[..|files| - 1];
      var acc := Collect(m, init, load).value;
      CollectKeys(m, init, load);
      var last := load(files[|files| - 1]);
      var prefix := Keys(m) + LoadedKeys(init, load);
      if last.value.Some? {
        var k := last.value.value.0;
        assert Collect(m, files, load).value == Put(acc, k, last.value.value.1);
        assert LoadedKeys(files, load) == LoadedKeys(init, load) + [k];
        AppendAssoc(Keys(m), LoadedKeys(init, load), [k]);
        KeysPutDedup(acc, prefix, k, last.value.value.1);
      } else {
        assert Collect(m, files, load).value == acc;
        assert LoadedKeys(files, load) == LoadedKeys(init, load) + [];
        AppendNil(LoadedKeys(init, load));
      }
    }
  }

  lemma KeysPutDedup<T>(acc: seq<(string, T)>, prefix: seq<string>, k: string, v: T)
    requires Keys(acc) == Dedup(prefix)
    ensures Keys(Put(acc, k, v)) == Dedup(prefix + [k])
  {
    DedupSnoc(prefix, k);
  }

  lemma AppendAssoc<X>(a: seq<X>, b: seq<X>, c: seq<X>)
    ensures a + (b + c) == (a + b) + c
  {
  }

  lemma AppendNil<X>(a: seq<X>)
    ensures a + [] == a
  {
  }

  /** Looking a key up after the loop gives the value set last under it, or the old one. */
  lemma {:induction false} CollectGet<T>(m: seq<(string, T)>, files: seq<string>, load: Loader<T>, k: string)
    requires Collect(m, files, load).Ok?
    ensures Get(Collect(m, files, load).value, k) == Latest(m, files, load, k)
  {
    if |files| > 0 {
      CollectGet(m, files[..|files| - 1], load, k);
    }
  }

  /** Every entry of the result was in `m` or was set by loading one of the files. */
  lemma {:induction false} CollectEntries<T>(m: seq<(string, T)>, files: seq<string>, load: Loader<T>)
    requires Collect(m, files, load).Ok?
    ensures forall e :: e in Collect(m, files, load).value ==> e in m || exists f :: f in files && load(f) == Ok(Some(e))
  {
    if |files| > 0 {
      var init := files[..|files| - 1];
      CollectEntries(m, init, load);
      var last := load(files[|files| - 1]);
      assert forall f :: f in init ==> f in files;
      if last.value.Some? {
        PutMembers(Collect(m, init, load).value, last.value.value.0, last.value.value.1);
      }
    }
  }

  /** The loop as a method: `set` after each load, stop at the first error. */
  method CollectLoop<T>(m: seq<(string, T)>, files: seq<string>, load: Loader<T>) returns (r: Result<seq<(string, T)>>)
    ensures r == Collect(m, files, load)
  {
    var acc := m;
    var i := 0;
    while i < |files|
      invariant 0 <= i <= |files|
      invariant Collect(m, files[..i], load) == Ok(acc)
    {
      assert files[..i + 1][..i] == files[..i];
      var item := load(files[i]);
      if item.Err? {
        CollectStop(m, files, load, i);
        return Err(item.error);
      }
      if item.value.Some? {
        acc := Put(acc, item.value.value.0, item.value.value.1);
      }
      i := i + 1;
    }
    assert files[..i] == files;
    r := Ok(acc);
  }

  /** An error at `files[i]` after a clean prefix is the loop's result. */
  lemma CollectStop<T>(m: seq<(string, T)>, files: seq<string>, load: Loader<T>, i: nat)
    requires i < |files| && Collect(m, files[..i], load).Ok? && load(files[i]).Err?
    ensures Collect(m, files, load) == Err(load(files[i]).error)
  {
    CollectOk(m, files[..i], load);
    assert forall j :: 0 <= j < i ==> files[..i][j] == files[j];
    CollectFirstError(m, files, load, i);
  }

  // ---------------------------------------------------------------------------
  // Prompt, tasks and flows

  /** `loadPrompt`: the file's content when it exists, '' when it does not. */
  function Prompt(fs: Snapshot, promptPath: string): (r: Result<string>)
    ensures !Exists(fs, promptPath) ==> r == Ok("")
    ensures Exists(fs, promptPath) ==> r == Read(fs, promptPath)
  {
    if Exists(fs, promptPath) then Read(fs, promptPath) else Ok("")
  }

  /** Loading one task or flow file of `dir`: keyed by its name minus ".md"; an unreadable file throws. */
  function LoadDocument(fs: Snapshot, dir: string, file: string): Result<Option<(string, Document)>> {
    match Read(fs, Join(dir, file))
    case Err(e) => Err(e)
    case Ok(content) =>
      var name := Basename(file, ".md");
      Ok(Some((name, Document(name, content, Join(dir, file)))))
  }

  function DocumentLoader(fs: Snapshot, dir: string): Loader<Document> {
    (file: string) => LoadDocument(fs, dir, file)
  }

  /** `loadTasks(dir)` and `loadFlows(dir)`: the ".md" entries of the directory, in listing order. */
  function Documents(fs: Snapshot, dir: string): Result<seq<(string, Document)>> {
    Collect([], ListFiles(fs, dir, ".md"), DocumentLoader(fs, dir))
  }

  method LoadDocuments(fs: Snapshot, dir: string) returns (r: Result<seq<(string, Document)>>)
    ensures r == Documents(fs, dir)
  {
    r := CollectLoop([], ListFiles(fs, dir, ".md"), DocumentLoader(fs, dir));
  }

  /** The names of listed files, each minus `ext`. */
  function Names(files: seq<string>, ext: string): (r: seq<string>)
    ensures |r| == |files|
    ensures forall i :: 0 <= i < |files| ==> r[i] == Basename(files[i], ext)
  {
    if |files| == 0 then [] else Names(files[..|files| - 1], ext) + [Basename(files[|files| - 1], ext)]
  }

  lemma {:induction false} DocumentKeys(fs: Snapshot, dir: string, files: seq<string>)
    requires AllLoad(files, DocumentLoader(fs, dir))
    ensures LoadedKeys(files, DocumentLoader(fs, dir)) == Names(files, ".md")
  {
    if |files| > 0 {
      AllLoadPrefix(files, DocumentLoader(fs, dir));
      DocumentKeys(fs, dir, files[..|files| - 1]);
    }
  }

  /** Tasks and flows: loading fails exactly when a listed ".md" file cannot be read. */
  lemma DocumentsOk(fs: Snapshot, dir: string)
    ensures Documents(fs, dir).Ok? <==> forall f :: f in ListFiles(fs, dir, ".md") ==> ReadFile(fs, Join(dir, f)).Some?
  {
    var files := ListFiles(fs, dir, ".md");
    var load := DocumentLoader(fs, dir);
    CollectOk([], files, load);
    assert AllLoad(files, load) <==> forall f :: f in files ==> ReadFile(fs, Join(dir, f)).Some?;
  }

  /** Loaded tasks and flows are keyed by file name minus ".md", in listing order. */
  lemma DocumentsKeys(fs: Snapshot, dir: string)
    requires Documents(fs, dir).Ok?
    ensures Keys(Documents(fs, dir).value) == Dedup(Names(ListFiles(fs, dir, ".md"), ".md"))
  {
    var files := ListFiles(fs, dir, ".md");
    var load := DocumentLoader(fs, dir);
    CollectOk([], files, load);
    DocumentKeys(fs, dir, files);
    CollectKeys([], files, load);
    assert Keys<Document>([]) + Names(files, ".md") == Names(files, ".md");
  }

  /** Each loaded task or flow is the document of a listed ".md" file, named after it. */
  lemma DocumentsEntries(fs: Snapshot, dir: string)
    requires Documents(fs, dir).Ok?
    ensures forall e :: e in Documents(fs, dir).value ==>
      exists f :: f in ListFiles(fs, dir, ".md") && EndsWith(f, ".md") && ReadFile(fs, Join(dir, f)).Some? &&
        e == (Basename(f, ".md"), Document(Basename(f, ".md"), ReadFile(fs, Join(dir, f)).value, Join(dir, f)))
  {
    var files := ListFiles(fs, dir, ".md");
    var load := DocumentLoader(fs, dir);
    CollectEntries([], files, load);
    forall e | e in Documents(fs, dir).value
      ensures exists f :: (f in files && EndsWith(f, ".md") && ReadFile(fs, Join(dir, f)).Some? &&
        e == (Basename(f, ".md"), Document(Basename(f, ".md"), ReadFile(fs, Join(dir, f)).value, Join(dir, f))))
    {
      var f :| f in files && load(f) == Ok(Some(e));
      assert LoadDocument(fs, dir, f) == Ok(Some(e));
      assert ReadFile(fs, Join(dir, f)).Some?;
      assert e == (Basename(f, ".md"), Document(Basename(f, ".md"), ReadFile(fs, Join(dir, f)).value, Join(dir, f)));
      assert EndsWith(f, ".md");
    }
  }

  // ---------------------------------------------------------------------------
  // Contexts

  /** Loading one context file of a category directory: keyed "category/name"; an unreadable file throws. */
  function LoadContextFile(fs: Snapshot, parse: Parser, categoryDir: string, category: Category, file: string): Result<Option<(string, Context)>> {
    var filePath := Join(categoryDir, file);
    match Read(fs, filePath)
    case Err(e) => Err(e)
    case Ok(content) =>
      var name := Basename(file, ".md");
      var parsed := ParseFrontmatter(parse, content);
      Ok(Some((CategoryName(category) + "/" + name, Context(category, name, parsed.body, parsed.metadata, Some(filePath)))))
  }

  function ContextFileLoader(fs: Snapshot, parse: Parser, categoryDir: string, category: Category): Loader<Context> {
    (file: string) => LoadContextFile(fs, parse, categoryDir, category, file)
  }

  /** The loop over one category's ".md" files, continuing the map `m`. */
  function CategoryInto(fs: Snapshot, parse: Parser, contextsDir: string, m: seq<(string, Context)>, category: Category): Result<seq<(string, Context)>> {
    var categoryDir := Join(contextsDir, CategoryName(category));
    Collect(m, ListFiles(fs, categoryDir, ".md"), ContextFileLoader(fs, parse, categoryDir, category))
  }

  /** The role's `loadContexts` over the given categories, in order. */
  function ContextsOf(fs: Snapshot, parse: Parser, contextsDir: string, categories: seq<Category>): Result<seq<(string, Context)>> {
    if |categories| == 0 then Ok([])
    else match ContextsOf(fs, parse, contextsDir, categories[..|categories| - 1])
      case Err(e) => Err(e)
      case Ok(m) => CategoryInto(fs, parse, contextsDir, m, categories[|categories| - 1])
  }

  /** `loadContexts(contextsDir)`: every category in enum order. */
  function RoleContextMap(fs: Snapshot, parse: Parser, contextsDir: string): Result<seq<(string, Context)>> {
    ContextsOf(fs, parse, contextsDir, AllCategories)
  }

  method LoadContexts(fs: Snapshot, parse: Parser, contextsDir: string) returns (r: Result<seq<(string, Context)>>)
    ensures r == RoleContextMap(fs, parse, contextsDir)
  {
    var m: seq<(string, Context)> := [];
    var i := 0;
    while i < |AllCategories|
      invariant 0 <= i <= |AllCategories|
      invariant ContextsOf(fs, parse, contextsDir, AllCategories[..i]) == Ok(m)
    {
      var next := LoadCategoryInto(fs, parse, contextsDir, m, AllCategories[i]);
      ContextsOfStep(fs, parse, contextsDir, AllCategories, i, m);
      if next.Err? {
        ContextsOfErrStays(fs, parse, contextsDir, AllCategories, i + 1);
        return next;
      }
      m := next.value;
      i := i + 1;
    }
    assert AllCategories[..i] == AllCategories;
    r := Ok(m);
  }

  /** One category's loop. */
  method LoadCategoryInto(fs: Snapshot, parse: Parser, contextsDir: string, m: seq<(string, Context)>, category: Category)
    returns (r: Result<seq<(string, Context)>>)
    ensures r == CategoryInto(fs, parse, contextsDir, m, category)
  {
    var categoryDir := Join(contextsDir, CategoryName(category));
    r := CollectLoop(m, ListFiles(fs, categoryDir, ".md"), ContextFileLoader(fs, parse, categoryDir, category));
  }

  lemma ContextsOfStep(fs: Snapshot, parse: Parser, contextsDir: string, categories: seq<Category>, i: nat, m: seq<(string, Context)>)
    requires i < |categories| && ContextsOf(fs, parse, contextsDir, categories[..i]) == Ok(m)
    ensures ContextsOf(fs, parse, contextsDir, categories[..i + 1]) == CategoryInto(fs, parse, contextsDir, m, categories[i])
  {
    assert categories[..i + 1][..i] == categories[..i];
  }

  /** Once a category fails, the loading ends with that error. */
  lemma {:induction false} ContextsOfErrStays(fs: Snapshot, parse: Parser, contextsDir: string, categories: seq<Category>, i: nat)
    requires i <= |categories| && ContextsOf(fs, parse, contextsDir, categories[..i]).Err?
    ensures ContextsOf(fs, parse, contextsDir, categories) == ContextsOf(fs, parse, contextsDir, categories[..i])
    decreases |categories|
  {
    if i < |categories| {
      var init := categories[..|categories| - 1];
      assert init[..i] == categories[..i];
      ContextsOfErrStays(fs, parse, contextsDir, init, i);
    } else {
      assert categories[..i] == categories;
    }
  }

  /** Every entry a category loop sets is keyed "category/name" of its own context, which carries its file path. */
  lemma ContextLoaderKeyed(fs: Snapshot, parse: Parser, categoryDir: string, category: Category, f: string)
    requires ContextFileLoader(fs, parse, categoryDir, category)(f).Ok?
    requires ContextFileLoader(fs, parse, categoryDir, category)(f).value.Some?
    ensures var e := ContextFileLoader(fs, parse, categoryDir, category)(f).value.value;
      e.0 == ContextKey(e.1) && e.1.category == category && e.1.path == Some(Join(categoryDir, f))
  {
  }

  lemma CategoryIntoKeyed(fs: Snapshot, parse: Parser, contextsDir: string, m: seq<(string, Context)>, category: Category)
    requires KeyedByCategoryAndName(m) && CategoryInto(fs, parse, contextsDir, m, category).Ok?
    ensures KeyedByCategoryAndName(CategoryInto(fs, parse, contextsDir, m, category).value)
  {
    var categoryDir := Join(contextsDir, CategoryName(category));
    var load := ContextFileLoader(fs, parse, categoryDir, category);
    var files := ListFiles(fs, categoryDir, ".md");
    CollectEntries(m, files, load);
    forall e | e in CategoryInto(fs, parse, contextsDir, m, category).value
      ensures e.0 == ContextKey(e.1)
    {
      if e !in m {
        var f :| f in files && load(f) == Ok(Some(e));
        ContextLoaderKeyed(fs, parse, categoryDir, category, f);
      }
    }
  }

  /** The role's context map is keyed `category/name` throughout. */
  lemma {:induction false} ContextsOfKeyed(fs: Snapshot, parse: Parser, contextsDir: string, categories: seq<Category>)
    requires ContextsOf(fs, parse, contextsDir, categories).Ok?
    ensures KeyedByCategoryAndName(ContextsOf(fs, parse, contextsDir, categories).value)
  {
    if |categories| > 0 {
      var init := categories[..|categories| - 1];
      ContextsOfKeyed(fs, parse, contextsDir, init);
      CategoryIntoKeyed(fs, parse, contextsDir, ContextsOf(fs, parse, contextsDir, init).value, categories[|categories| - 1]);
    }
  }

  // ---------------------------------------------------------------------------
  // Bindings

  /** Loading one binding file: keyed by framework name; an unparsable file is skipped, an unreadable one throws. */
  function LoadBinding(fs: Snapshot, parse: Parser, dir: string, file: string): Result<Option<(string, Json)>> {
    match Read(fs, Join(dir, file))
    case Err(e) => Err(e)
    case Ok(content) =>
      match parse(content)
      case None => Ok(None)
      case Some(config) => Ok(Some((Basename(file, ".binding.yml"), config)))
  }

  function BindingLoader(fs: Snapshot, parse: Parser, dir: string): Loader<Json> {
    (file: string) => LoadBinding(fs, parse, dir, file)
  }

  /** `loadBindings(dir)`: undefined without "*.binding.yml" files, else the map of parsed bindings. */
  function Bindings(fs: Snapshot, parse: Parser, dir: string): (r: Result<Option<seq<(string, Json)>>>)
    ensures ListFiles(fs, dir, ".binding.yml") == [] <==> r == Ok(None)
  {
    var files := ListFiles(fs, dir, ".binding.yml");
    if |files| == 0 then Ok(None)
    else match Collect([], files, BindingLoader(fs, parse, dir))
      case Err(e) => Err(e)
      case Ok(m) => Ok(Some(m))
  }

  method LoadBindings(fs: Snapshot, parse: Parser, dir: string) returns (r: Result<Option<seq<(string, Json)>>>)
    ensures r == Bindings(fs, parse, dir)
  {
    var files := ListFiles(fs, dir, ".binding.yml");
    if |files| == 0 {
      return Ok(None);
    }
    var m := CollectLoop([], files, BindingLoader(fs, parse, dir));
    if m.Err? {
      return Err(m.error);
    }
    r := Ok(Some(m.value));
  }

  /** The framework names of the parsable binding files, in listing order. */
  function ParsedNames(fs: Snapshot, parse: Parser, dir: string, files: seq<string>): seq<string> {
    if |files| == 0 then []
    else
      var f := files[|files| - 1];
      var content := ReadFile(fs, Join(dir, f));
      ParsedNames(fs, parse, dir, files[..|files| - 1]) +
        (if content.Some? && parse(content.value).Some? then [Basename(f, ".binding.yml")] else [])
  }

  lemma {:induction false} BindingKeys(fs: Snapshot, parse: Parser, dir: string, files: seq<string>)
    ensures LoadedKeys(files, BindingLoader(fs, parse, dir)) == ParsedNames(fs, parse, dir, files)
  {
    if |files| > 0 {
      BindingKeys(fs, parse, dir, files[..|files| - 1]);
    }
  }

  /**
   * Bindings: when every binding file can be read, the map holds exactly the
   * parsable ones, keyed by file name minus ".binding.yml", in listing order;
   * unparsable files are skipped rather than failing the load.
   */
  lemma BindingsFacts(fs: Snapshot, parse: Parser, dir: string)
    requires forall f :: f in ListFiles(fs, dir, ".binding.yml") ==> ReadFile(fs, Join(dir, f)).Some?
    requires ListFiles(fs, dir, ".binding.yml") != []
    ensures Bindings(fs, parse, dir).Ok? && Bindings(fs, parse, dir).value.Some?
    ensures Keys(Bindings(fs, parse, dir).value.value) ==
      Dedup(ParsedNames(fs, parse, dir, ListFiles(fs, dir, ".binding.yml")))
  {
    var files := ListFiles(fs, dir, ".binding.yml");
    var load := BindingLoader(fs, parse, dir);
    assert AllLoad(files, load) by {
      forall i | 0 <= i < |files| ensures load(files[i]).Ok? {
        assert files[i] in files;
      }
    }
    CollectOk([], files, load);
    CollectKeys([], files, load);
    BindingKeys(fs, parse, dir, files);
    assert Keys<Json>([]) + ParsedNames(fs, parse, dir, files) == ParsedNames(fs, parse, dir, files);
  }

  // ---------------------------------------------------------------------------
  // load

  /** `load(conceptPath)` for a role: the shared checks, then `loadConceptContent`. */
  function RoleOf(fs: Snapshot, parse: Parser, conceptPath: string): (r: Result<Role>)
    ensures r.Ok? ==> r.value.path == conceptPath && LoadedMetadata(fs, parse, conceptPath, RoleType) == Ok(JObj(r.value.metadata))
    ensures LoadedMetadata(fs, parse, conceptPath, RoleType).Err? ==> r == Err(LoadedMetadata(fs, parse, conceptPath, RoleType).error)
  {
    match LoadedMetadata(fs, parse, conceptPath, RoleType)
    case Err(e) => Err(e)
    case Ok(metadata) =>
      match Prompt(fs, Join(conceptPath, "prompt.md"))
      case Err(e) => Err(e)
      case Ok(prompt) =>
        match Documents(fs, Join(conceptPath, "tasks"))
        case Err(e) => Err(e)
        case Ok(tasks) =>
          match Documents(fs, Join(conceptPath, "flows"))
          case Err(e) => Err(e)
          case Ok(flows) =>
            match RoleContextMap(fs, parse, Join(conceptPath, "contexts"))
            case Err(e) => Err(e)
            case Ok(contexts) =>
              match Bindings(fs, parse, Join(conceptPath, "bindings"))
              case Err(e) => Err(e)
              case Ok(bindings) => Ok(Role(metadata.fields, conceptPath, prompt, tasks, flows, contexts, bindings))
  }

  /** `RoleLoader.load`. */
  method LoadRole(fs: Snapshot, parse: Parser, conceptPath: string) returns (r: Result<Role>)
    ensures r == RoleOf(fs, parse, conceptPath)
  {
    if !IsDirectory(fs, conceptPath) {
      return Err("Concept path does not exist or is not a directory: " + conceptPath);
    }
    var metadata := LoadMetadata(fs, parse, conceptPath);
    if metadata.Err? {
      return Err(metadata.error);
    }
    if !HasType(metadata.value, RoleType) {
      return Err("Expected " + TypeName(RoleType) + " but found " + RenderType(metadata.value) + " at " + conceptPath);
    }
    var prompt := Prompt(fs, Join(conceptPath, "prompt.md"));
    if prompt.Err? {
      return Err(prompt.error);
    }
    var tasks := LoadDocuments(fs, Join(conceptPath, "tasks"));
    if tasks.Err? {
      return Err(tasks.error);
    }
    var flows := LoadDocuments(fs, Join(conceptPath, "flows"));
    if flows.Err? {
      return Err(flows.error);
    }
    var contexts := LoadContexts(fs, parse, Join(conceptPath, "contexts"));
    if contexts.Err? {
      return Err(contexts.error);
    }
    var bindings := LoadBindings(fs, parse, Join(conceptPath, "bindings"));
    if bindings.Err? {
      return Err(bindings.error);
    }
    r := Ok(Role(metadata.value.fields, conceptPath, prompt.value, tasks.value, flows.value, contexts.value, bindings.value));
  }

  /**
   * A role without prompt.md still loads, with an empty prompt, and its
   * validation then reports the missing prompt.
   */
  lemma MissingPromptLoads(fs: Snapshot, parse: Parser, conceptPath: string)
    requires !Exists(fs, Join(conceptPath, "prompt.md")) && RoleOf(fs, parse, conceptPath).Ok?
    ensures RoleOf(fs, parse, conceptPath).value.prompt == ""
    ensures PromptMissing in RoleFindings(RoleOf(fs, parse, conceptPath).value)
  {
    var role := RoleOf(fs, parse, conceptPath).value;
    RoleOfPrompt(fs, parse, conceptPath);
    PromptErrorIff(role);
  }

  /** A loaded role's prompt is what `prompt.md` gave. */
  lemma RoleOfPrompt(fs: Snapshot, parse: Parser, conceptPath: string)
    requires RoleOf(fs, parse, conceptPath).Ok?
    ensures Prompt(fs, Join(conceptPath, "prompt.md")) == Ok(RoleOf(fs, parse, conceptPath).value.prompt)
  {
  }

  /** The loaded role's context map is keyed "category/name". */
  lemma LoadedRoleKeyed(fs: Snapshot, parse: Parser, conceptPath: string)
    requires RoleOf(fs, parse, conceptPath).Ok?
    ensures KeyedByCategoryAndName(RoleOf(fs, parse, conceptPath).value.contexts)
  {
    ContextsOfKeyed(fs, parse, Join(conceptPath, "contexts"), AllCategories);
  }
}
