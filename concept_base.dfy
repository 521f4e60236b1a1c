/**
 * BaseConceptLoader: the checks every concept loader shares (directory,
 * metadata file, declared type), metadata validation against a field schema,
 * the combined validation result, file listing, and concept references of the
 * form "type:name".
 */
module ConceptBase {
  import opened Wrappers
  import opened Text
  import opened Seqs
  import opened Assoc
  import opened Json
  import opened FileSystem
  import opened Frontmatter
  import opened ConceptTypes

  datatype Severity = SevError | SevWarning

  /** A `ValidationError`: where, what, and whether it is an error or a warning. */
  datatype Finding = Finding(path: string, message: string, severity: Severity)

  datatype ValidationResult = ValidationResult(valid: bool, errors: seq<Finding>)

  /** The characters of `^[a-z0-9-]+$`. */
  predicate SlugChar(c: char) {
    IsLower(c) || IsDigit(c) || c == '-'
  }

  /** `/^[a-z0-9-]+$/.test(s)`. */
  predicate IsSlug(s: string) {
    |s| > 0 && forall i :: 0 <= i < |s| ==> SlugChar(s[i])
  }

  /** What a schema field admits. */
  datatype Kind =
    | SlugString            // z.string().regex(/^[a-z0-9-]+$/)
    | AnyString             // z.string()
    | OneOf(values: seq<string>)  // z.enum / z.nativeEnum over strings
    | Literal(value: string)      // z.literal
    | StringArray           // z.array(z.string())

  datatype Rule = Rule(kind: Kind, required: bool)

  /** An object schema: its fields in declaration order. */
  type Schema = seq<(string, Rule)>

  const ConceptTypeNames: seq<string> := ["role", "tool", "eval", "team", "workflow"]

  /** BaseMetadataSchema. */
  const BaseSchema: Schema := [
    ("org", Rule(SlugString, true)),
    ("system", Rule(SlugString, true)),
    ("name", Rule(SlugString, true)),
    ("type", Rule(OneOf(ConceptTypeNames), true)),
    ("description", Rule(AnyString, true)),
    ("created", Rule(AnyString, false)),
    ("updated", Rule(AnyString, false)),
    ("visibility", Rule(OneOf(["public", "internal", "private"]), false)),
    ("tags", Rule(StringArray, false))
  ]

  /** The fields RoleMetadataSchema adds to, or overrides in, the base schema. */
  const RoleExtension: Schema := [
    ("type", Rule(Literal("role"), true)),
    ("platforms", Rule(StringArray, true)),
    ("default_platform", Rule(AnyString, false)),
    ("platform_config_key", Rule(AnyString, false)),
    ("color", Rule(AnyString, false)),
    ("agent_type", Rule(OneOf(["autonomous", "interactive", "batch"]), false))
  ]

  /** `BaseMetadataSchema.extend(...)`: overridden fields keep their position, new ones follow. */
  function RoleSchema(): Schema {
    Assign(BaseSchema, RoleExtension)
  }

  function Issue(path: string, message: string): Finding {
    Finding(path, message, SevError)
  }

  /** One finding per array element that is not a string, at path "key.index". */
  function ElementFindings(key: string, items: seq<Json>, from: nat): (r: seq<Finding>)
    ensures |r| <= |items|
    ensures r == [] <==> forall i :: 0 <= i < |items| ==> items[i].JStr?
    decreases |items|
  {
    if |items| == 0 then []
    else
      var rest := ElementFindings(key, items[1..], from + 1);
      assert forall i :: 1 <= i < |items| ==> items[i] == items[1..][i - 1];
      (if items[0].JStr? then [] else [Issue(key + "." + NatToString(from), "Expected string")]) + rest
  }

  /** The findings for a present value of a field. */
  function KindFindings(key: string, kind: Kind, v: Json): (r: seq<Finding>)
    ensures r == [] <==> Admits(kind, v)
  {
    match kind
    case SlugString =>
      if !v.JStr? then [Issue(key, "Expected string")]
      else if IsSlug(v.s) then [] else [Issue(key, "Invalid")]
    case AnyString => if v.JStr? then [] else [Issue(key, "Expected string")]
    case OneOf(values) => if v.JStr? && v.s in values then [] else [Issue(key, "Invalid enum value")]
    case Literal(l) => if v == JStr(l) then [] else [Issue(key, "Invalid literal value")]
    case StringArray => if v.JArr? then ElementFindings(key, v.items, 0) else [Issue(key, "Expected array")]
  }

  /** The value satisfies the kind: the independent reading of the schema. */
  predicate Admits(kind: Kind, v: Json) {
    match kind
    case SlugString => v.JStr? && IsSlug(v.s)
    case AnyString => v.JStr?
    case OneOf(values) => v.JStr? && v.s in values
    case Literal(l) => v == JStr(l)
    case StringArray => v.JArr? && forall i :: 0 <= i < |v.items| ==> v.items[i].JStr?
  }

  /** The findings for one field: a missing required field is "Required". */
  function FieldFindings(key: string, rule: Rule, v: Option<Json>): (r: seq<Finding>)
    ensures r == [] <==> (v.None? ==> !rule.required) && (v.Some? ==> Admits(rule.kind, v.value))
  {
    match v
    case None => if rule.required then [Issue(key, "Required")] else []
    case Some(x) => KindFindings(key, rule.kind, x)
  }

  /** The findings for the schema's fields, in schema order. */
  function SchemaFindings(schema: Schema, fields: Fields): seq<Finding>
  {
    if |schema| == 0 then []
    else
      var init := schema[..|schema| - 1];
      var (key, rule) := schema[|schema| - 1];
      SchemaFindings(init, fields) + FieldFindings(key, rule, Get(fields, key))
  }

  /** The metadata meets every field rule of the schema. */
  predicate Conforms(schema: Schema, fields: Fields) {
    forall i :: 0 <= i < |schema| ==> FieldOk(schema[i], fields)
  }

  /** One field of the metadata meets its rule. */
  predicate FieldOk(entry: (string, Rule), fields: Fields) {
    var v := Get(fields, entry.0);
    (v.None? ==> !entry.1.required) && (v.Some? ==> Admits(entry.1.kind, v.value))
  }

  /** `validateMetadata`: a non-object value is one issue at the empty path. */
  function MetadataFindings(schema: Schema, metadata: Json): (r: seq<Finding>)
    ensures !metadata.JObj? ==> r == [Issue("", "Expected object")]
    ensures metadata.JObj? ==> r == SchemaFindings(schema, metadata.fields)
  {
    if metadata.JObj? then SchemaFindings(schema, metadata.fields) else [Issue("", "Expected object")]
  }

  /** Metadata validation reports nothing exactly when every field conforms. */
  lemma {:induction false} SchemaFindingsExact(schema: Schema, fields: Fields)
    ensures SchemaFindings(schema, fields) == [] <==> Conforms(schema, fields)
  {
    if |schema| > 0 {
      var init := schema[..|schema| - 1];
      var last := schema[|schema| - 1];
      SchemaFindingsExact(init, fields);
      ConformsSnoc(schema, fields);
      FieldFindingsOk(last, fields);
    }
  }

  lemma FieldFindingsOk(entry: (string, Rule), fields: Fields)
    ensures FieldFindings(entry.0, entry.1, Get(fields, entry.0)) == [] <==> FieldOk(entry, fields)
  {
  }

  lemma ConformsSnoc(schema: Schema, fields: Fields)
    requires |schema| > 0
    ensures Conforms(schema, fields) <==>
      Conforms(schema[..|schema| - 1], fields) && FieldOk(schema[|schema| - 1], fields)
  {
    assert forall i :: 0 <= i < |schema| - 1 ==> schema[..|schema| - 1][i] == schema[i];
  }

  /** Metadata validation only ever reports errors, never warnings. */
  lemma {:induction false} SchemaFindingsErrors(schema: Schema, fields: Fields)
    ensures forall f :: f in SchemaFindings(schema, fields) ==> f.severity == SevError
  {
    if |schema| > 0 {
      SchemaFindingsErrors(schema[..|schema| - 1], fields);
      KindFindingsErrors(schema[|schema| - 1].0, schema[|schema| - 1].1.kind, fields);
    }
  }

  lemma KindFindingsErrors(key: string, kind: Kind, fields: Fields)
    ensures forall v :: forall f :: f in KindFindings(key, kind, v) ==> f.severity == SevError
  {
    forall v ensures forall f :: f in KindFindings(key, kind, v) ==> f.severity == SevError {
      if kind.StringArray? && v.JArr? {
        ElementFindingsErrors(key, v.items, 0);
      }
    }
  }

  lemma {:induction false} ElementFindingsErrors(key: string, items: seq<Json>, from: nat)
    ensures forall f :: f in ElementFindings(key, items, from) ==> f.severity == SevError
    decreases |items|
  {
    if |items| > 0 {
      ElementFindingsErrors(key, items[1..], from + 1);
    }
  }

  /** org, system and name must be slugs: a non-slug string there is an "Invalid" error at that field. */
  lemma SlugFieldRejected(fields: Fields, key: string, s: string)
    requires key == "org" || key == "system" || key == "name"
    requires Get(fields, key) == Some(JStr(s)) && !IsSlug(s)
    ensures Issue(key, "Invalid") in SchemaFindings(BaseSchema, fields)
  {
    var i := if key == "org" then 0 else if key == "system" then 1 else 2;
    assert BaseSchema[i] == (key, Rule(SlugString, true));
    SchemaFindingsAt(BaseSchema, fields, i);
  }

  /** Each field's findings appear among the schema findings. */
  lemma {:induction false} SchemaFindingsAt(schema: Schema, fields: Fields, i: nat)
    requires i < |schema|
    ensures forall f :: f in FieldFindings(schema[i].0, schema[i].1, Get(fields, schema[i].0)) ==> f in SchemaFindings(schema, fields)
  {
    var init := schema[..|schema| - 1];
    if i < |schema| - 1 {
      assert init[i] == schema[i];
      SchemaFindingsAt(init, fields, i);
    }
  }

  /** `validate`: metadata findings, then concept-specific ones; valid exactly when there are none. */
  function Validate(metadataFindings: seq<Finding>, specificFindings: seq<Finding>): (r: ValidationResult)
    ensures r.errors == metadataFindings + specificFindings
    ensures r.valid <==> metadataFindings == [] && specificFindings == []
  {
    var errors := metadataFindings + specificFindings;
    ValidationResult(|errors| == 0, errors)
  }

  /** A warning alone already makes the result invalid. */
  lemma WarningOnlyInvalid(path: string, message: string)
    ensures !Validate([], [Finding(path, message, SevWarning)]).valid
  {
  }

  /** The metadata files tried, in order. */
  const MetadataFiles: seq<string> := ["agent.yml", "tool.yml", "eval.yml", "team.yml", "workflow.yml"]

  /** The first of `files` readable in `dir`, with its content. */
  function FirstReadable(fs: Snapshot, dir: string, files: seq<string>): (r: Option<(string, string)>)
    ensures r.None? ==> forall f :: f in files ==> ReadFile(fs, Join(dir, f)).None?
    ensures r.Some? ==> exists i :: (0 <= i < |files| && files[i] == r.value.0 &&
      ReadFile(fs, Join(dir, files[i])) == Some(r.value.1) &&
      forall j :: 0 <= j < i ==> ReadFile(fs, Join(dir, files[j])).None?)
  {
    if |files| == 0 then None
    else match ReadFile(fs, Join(dir, files[0]))
      case Some(content) => Some((files[0], content))
      case None =>
        var rest := FirstReadable(fs, dir, files[1..]);
        assert forall j :: 1 <= j < |files| ==> files[j] == files[1..][j - 1];
        rest
  }

  /** What `loadMetadata(conceptPath)` returns or throws. */
  function MetadataResult(fs: Snapshot, parse: string -> Option<Json>, dir: string): (r: Result<Json>)
    ensures FirstReadable(fs, dir, MetadataFiles).None? ==> r == Err("No metadata file found in " + dir)
  {
    match FirstReadable(fs, dir, MetadataFiles)
    case None => Err("No metadata file found in " + dir)
    case Some((file, content)) =>
      if content == "" then Err("No metadata file found in " + dir)
      else match parse(content)
        case None => Err("Failed to parse " + file)
        case Some(m) => Ok(m)
  }

  /** `loadMetadata`: the loop stops at the first readable metadata file. */
  method LoadMetadata(fs: Snapshot, parse: string -> Option<Json>, dir: string) returns (r: Result<Json>)
    ensures r == MetadataResult(fs, parse, dir)
  {
    var content: Option<string> := None;
    var file := "";
    var i := 0;
    while i < |MetadataFiles|
      invariant 0 <= i <= |MetadataFiles|
      invariant FirstReadable(fs, dir, MetadataFiles) == FirstReadable(fs, dir, MetadataFiles[i..])
      invariant content.None?
    {
      var read := ReadFile(fs, Join(dir, MetadataFiles[i]));
      if read.Some? {
        content := read;
        file := MetadataFiles[i];
        break;
      }
      assert MetadataFiles[i..][1..] == MetadataFiles[i + 1..];
      i := i + 1;
    }
    assert content.Some? ==> FirstReadable(fs, dir, MetadataFiles) == Some((file, content.value));
    assert content.None? ==> MetadataFiles[i..] == [];
    if content.None? || content.value == "" {
      return Err("No metadata file found in " + dir);
    }
    var parsed := parse(content.value);
    if parsed.None? {
      return Err("Failed to parse " + file);
    }
    r := Ok(parsed.value);
  }

  /** How a template literal renders the `type` field in the mismatch message. */
  function RenderType(metadata: Json): string {
    if metadata.JObj? && StrField(metadata.fields, "type").Some? then StrField(metadata.fields, "type").value
    else "undefined"
  }

  /** The metadata declares the loader's concept type. */
  predicate HasType(metadata: Json, t: ConceptType) {
    metadata.JObj? && StrField(metadata.fields, "type") == Some(TypeName(t))
  }

  /**
   * What `load(conceptPath)` yields before the concept-specific content is
   * read: the metadata, or the error it throws.
   */
  function LoadedMetadata(fs: Snapshot, parse: string -> Option<Json>, conceptPath: string, t: ConceptType): (r: Result<Json>)
    ensures !IsDirectory(fs, conceptPath) ==> r == Err("Concept path does not exist or is not a directory: " + conceptPath)
    ensures r.Ok? ==> HasType(r.value, t) && MetadataResult(fs, parse, conceptPath) == Ok(r.value)
    ensures IsDirectory(fs, conceptPath) && MetadataResult(fs, parse, conceptPath).Err? ==> r == MetadataResult(fs, parse, conceptPath)
  {
    if !IsDirectory(fs, conceptPath) then Err("Concept path does not exist or is not a directory: " + conceptPath)
    else match MetadataResult(fs, parse, conceptPath)
      case Err(e) => Err(e)
      case Ok(m) =>
        if HasType(m, t) then Ok(m)
        else Err("Expected " + TypeName(t) + " but found " + RenderType(m) + " at " + conceptPath)
  }

  /** `listFiles(dir, ext)`: entries ending with `ext` ("" lists all), [] when unreadable. */
  function ListFiles(fs: Snapshot, dir: string, ext: string): (r: seq<string>)
    ensures ReadDir(fs, dir).None? ==> r == []
    ensures ReadDir(fs, dir).Some? && ext == "" ==> r == ReadDir(fs, dir).value
    ensures ReadDir(fs, dir).Some? && ext != "" ==>
      forall f :: f in r <==> f in ReadDir(fs, dir).value && EndsWith(f, ext)
  {
    match ReadDir(fs, dir)
    case None => []
    case Some(files) => if ext == "" then files else FilterExt(files, ext)
  }

  /** `ConceptReferenceImpl.toString`. */
  function ReferenceString(t: ConceptType, name: string): string {
    TypeName(t) + ":" + name
  }

  /**
   * `ConceptReferenceImpl.parse`: the text before the first ':' is the type and
   * the text up to the next ':' the name; both must be non-empty and the type
   * one of the five concept types.
   */
  function ParseReference(ref: string): (r: Result<(ConceptType, string)>)
    ensures r.Ok? ==> r.value.1 != "" && ':' !in r.value.1
  {
    var parts := Split(ref, ':');
    var typeText := parts[0];
    var name := if |parts| > 1 then parts[1] else "";
    if typeText == "" || name == "" then Err("Invalid concept reference: " + ref)
    else match TypeFromName(typeText)
      case None => Err("Unknown concept type: " + typeText)
      case Some(t) => Ok((t, name))
  }

  lemma SplitAtFirst(head: string, tail: string)
    requires ':' !in head
    ensures Split(head + ":" + tail, ':') == [head] + Split(tail, ':')
  {
    var s := head + ":" + tail;
    HeadIndex(head, ':', tail);
    assert s[..|head|] == head;
    assert s[|head| + 1..] == tail;
  }

  /** parse inverts toString for a non-empty name without ':'. */
  lemma ParseReferenceString(t: ConceptType, name: string)
    requires name != "" && ':' !in name
    ensures ParseReference(ReferenceString(t, name)) == Ok((t, name))
  {
    SplitAtFirst(TypeName(t), name);
    assert IndexOfChar(name, ':').None?;
    TypeNameRoundTrip(t);
  }

  /** Text after a second ':' is dropped. */
  lemma ParseReferenceDropsRest(t: ConceptType, name: string, rest: string)
    requires name != "" && ':' !in name
    ensures ParseReference(ReferenceString(t, name) + ":" + rest) == Ok((t, name))
  {
    assert ReferenceString(t, name) + ":" + rest == TypeName(t) + ":" + (name + ":" + rest);
    SplitAtFirst(TypeName(t), name + ":" + rest);
    SplitAtFirst(name, rest);
    TypeNameRoundTrip(t);
  }

  /** An empty type or name is rejected as an invalid reference. */
  lemma ParseReferenceEmpty(name: string)
    requires ':' !in name
    ensures ParseReference(":" + name) == Err("Invalid concept reference: :" + name)
    ensures ParseReference(name) == Err("Invalid concept reference: " + name)
  {
    SplitAtFirst("", name);
    assert "" + ":" + name == ":" + name;
    assert IndexOfChar(name, ':').None?;
  }
}
