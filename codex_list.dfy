/**
 * The `list` command's selection: the scanned files whose frontmatter parses
 * and whose metadata passes the `--system`, `--tag` and `--visibility`
 * filters, in scan order. Console and JSON output are not part of this model.
 */
module CodexList {
  import opened Wrappers
  import opened CodexMetadata
  import FileSystem

  /** The filter options; an option that is missing or empty filters nothing. */
  datatype ListFilters = ListFilters(system: Option<string>, tag: Option<string>, visibility: Option<string>)

  /** An entry of `filesWithMetadata`. */
  datatype Listed = Listed(path: string, metadata: Metadata)

  /** The metadata of a readable file with parsable frontmatter. */
  function MetadataOf(lib: Library, read: string -> Result<string>, cwd: string, file: string): Option<Metadata> {
    match ReadFileContent(read, FileSystem.Join(cwd, file))
    case Err(_) => None
    case Ok(content) => if !lib.hasFrontmatter(content) then None else lib.parseMetadata(content)
  }

  /** The three filter checks, each applying only when its option is set. */
  predicate PassesFilters(m: Metadata, f: ListFilters) {
    (Truthy(f.system) ==> m.system == f.system)
    && (Truthy(f.tag) ==> m.tags.Some? && f.tag.value in m.tags.value)
    && (Truthy(f.visibility) ==> m.visibility == f.visibility)
  }

  /** The entry a file contributes: one when it has metadata that passes the filters, none otherwise. */
  function Entry(lib: Library, read: string -> Result<string>, cwd: string, file: string, f: ListFilters): seq<Listed> {
    match MetadataOf(lib, read, cwd, file)
    case None => []
    case Some(m) => if PassesFilters(m, f) then [Listed(file, m)] else []
  }

  /** The kept entries, in scan order. */
  function Selection(lib: Library, read: string -> Result<string>, cwd: string, files: seq<string>,
                     f: ListFilters): (r: seq<Listed>)
    ensures |r| <= |files|
  {
    if |files| == 0 then []
    else Selection(lib, read, cwd, files[..|files| - 1], f) + Entry(lib, read, cwd, files[|files| - 1], f)
  }

  /** The per-file loop of the `list` action. */
  method ListFiles(lib: Library, read: string -> Result<string>, cwd: string, files: seq<string>,
                   filters: ListFilters) returns (filesWithMetadata: seq<Listed>)
    ensures filesWithMetadata == Selection(lib, read, cwd, files, filters)
  {
    filesWithMetadata := [];
    for i := 0 to |files|
      invariant filesWithMetadata == Selection(lib, read, cwd, files[..i], filters)
    {
      var file := files[i];
      assert files[..i + 1][..i] == files[..i];
      var contentOrError := ReadFileContent(read, FileSystem.Join(cwd, file));
      if contentOrError.Err? {
        continue;
      }
      var content := contentOrError.value;
      if !lib.hasFrontmatter(content) {
        continue;
      }
      var result := lib.parseMetadata(content);
      if result.None? {
        continue;
      }
      var m := result.value;
      if Truthy(filters.system) && m.system != filters.system {
        continue;
      }
      if Truthy(filters.tag) && (m.tags.None? || filters.tag.value !in m.tags.value) {
        continue;
      }
      if Truthy(filters.visibility) && m.visibility != filters.visibility {
        continue;
      }
      filesWithMetadata := filesWithMetadata + [Listed(file, m)];
    }
    assert files[..|files|] == files;
  }

  /** Selecting from two runs of files is selecting from each in turn: scan order is kept. */
  lemma {:induction false} SelectionConcat(lib: Library, read: string -> Result<string>, cwd: string,
                                           a: seq<string>, b: seq<string>, f: ListFilters)
    ensures Selection(lib, read, cwd, a + b, f) == Selection(lib, read, cwd, a, f) + Selection(lib, read, cwd, b, f)
    decreases |b|
  {
    if |b| == 0 {
      assert a + b == a;
    } else {
      var b', last := b[..|b| - 1], b[|b| - 1];
      var ab := a + b;
      assert ab[..|ab| - 1] == a + b';
      assert ab[|ab| - 1] == last;
      assert Selection(lib, read, cwd, ab, f) == Selection(lib, read, cwd, a + b', f) + Entry(lib, read, cwd, last, f);
      SelectionConcat(lib, read, cwd, a, b', f);
    }
  }

  /** An entry is listed exactly when its path is a scanned file whose metadata it carries and passes the filters. */
  lemma {:induction false} SelectionMembership(lib: Library, read: string -> Result<string>, cwd: string,
                                               files: seq<string>, f: ListFilters, e: Listed)
    ensures e in Selection(lib, read, cwd, files, f) <==>
      e.path in files && MetadataOf(lib, read, cwd, e.path) == Some(e.metadata) && PassesFilters(e.metadata, f)
    decreases |files|
  {
    if |files| > 0 {
      var init := files[..|files| - 1];
      var last := files[|files| - 1];
      SelectionMembership(lib, read, cwd, init, f, e);
      assert files == init + [last];
      assert e.path in files <==> e.path in init || e.path == last;
    }
  }

  /** Without any filter, every file with metadata is listed. */
  lemma NoFiltersKeepAll(lib: Library, read: string -> Result<string>, cwd: string, files: seq<string>,
                         file: string, m: Metadata)
    requires file in files && MetadataOf(lib, read, cwd, file) == Some(m)
    ensures Listed(file, m) in Selection(lib, read, cwd, files, ListFilters(None, None, None))
  {
    SelectionMembership(lib, read, cwd, files, ListFilters(None, None, None), Listed(file, m));
  }

  /** Under `--tag`, a file without tags is never listed. */
  lemma TagFilterNeedsTags(lib: Library, read: string -> Result<string>, cwd: string, files: seq<string>,
                           f: ListFilters, e: Listed)
    requires Truthy(f.tag) && e.metadata.tags.None?
    ensures e !in Selection(lib, read, cwd, files, f)
  {
    SelectionMembership(lib, read, cwd, files, f, e);
  }

  /** Under `--system s`, every listed entry's system is exactly `s`. */
  lemma SystemFilterExact(lib: Library, read: string -> Result<string>, cwd: string, files: seq<string>,
                          f: ListFilters, e: Listed)
    requires Truthy(f.system) && e in Selection(lib, read, cwd, files, f)
    ensures e.metadata.system == f.system
  {
    SelectionMembership(lib, read, cwd, files, f, e);
  }
}
