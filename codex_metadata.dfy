/**
 * What the Codex commands read from a markdown file: its frontmatter
 * metadata, and the Codex library calls that detect, parse and validate it.
 * The library is a parameter (its functions are not part of this model), and
 * reading a file is a function from path to content or error message.
 */
module CodexMetadata {
  import opened Wrappers

  /** The frontmatter fields the commands use; absent fields are `None`. */
  datatype Metadata = Metadata(
    org: Option<string>,
    system: Option<string>,
    title: Option<string>,
    description: Option<string>,
    syncInclude: Option<seq<string>>,
    syncExclude: Option<seq<string>>,
    visibility: Option<string>,
    tags: Option<seq<string>>,
    created: Option<string>,
    updated: Option<string>)

  /** `validateMetadata`'s answer: validity and, possibly, the error messages. */
  datatype MetadataCheck = MetadataCheck(valid: bool, errors: Option<seq<string>>)

  /** The Codex library: `hasFrontmatter`, `parseMetadata(content).metadata` and `validateMetadata`. */
  datatype Library = Library(
    hasFrontmatter: string -> bool,
    parseMetadata: string -> Option<Metadata>,
    validateMetadata: Metadata -> MetadataCheck)

  /** A string field used as a condition: present and not empty. */
  predicate Truthy(s: Option<string>) {
    s.Some? && s.value != ""
  }

  /** `list || []`: a missing pattern or tag list reads as empty. */
  function OrEmpty(list: Option<seq<string>>): (r: seq<string>)
    ensures list.None? ==> r == []
    ensures list.Some? ==> r == list.value
  {
    if list.Some? then list.value else []
  }

  /** `readFileContent(path)`: the content, or the read error wrapped with the path. */
  function ReadFileContent(read: string -> Result<string>, path: string): (r: Result<string>)
    ensures read(path).Ok? ==> r == read(path)
    ensures read(path).Err? ==> r == Err("Failed to read file " + path + ": " + read(path).error)
  {
    match read(path)
    case Ok(content) => Ok(content)
    case Err(m) => Err("Failed to read file " + path + ": " + m)
  }
}
