/**
 * A read-only snapshot of the disk, standing for the `fs` and `path` calls
 * the loaders make. Directory listings keep the order the snapshot gives.
 */
module FileSystem {
  import opened Wrappers
  import opened Text

  datatype Node = File(content: string) | Dir(entries: seq<string>)

  type Snapshot = map<string, Node>

  /** `path.join(a, b)` without normalisation. */
  function Join(a: string, b: string): string {
    a + "/" + b
  }

  /** `fs.readFile`: fails (None) unless the path is a file. */
  function ReadFile(fs: Snapshot, p: string): (r: Option<string>)
    ensures r.Some? <==> p in fs && fs[p].File?
  {
    if p in fs && fs[p].File? then Some(fs[p].content) else None
  }

  /** `fs.readdir`: fails (None) unless the path is a directory. */
  function ReadDir(fs: Snapshot, p: string): (r: Option<seq<string>>)
    ensures r.Some? <==> p in fs && fs[p].Dir?
  {
    if p in fs && fs[p].Dir? then Some(fs[p].entries) else None
  }

  /** `fs.access`: the path exists, as a file or as a directory. */
  predicate Exists(fs: Snapshot, p: string) {
    p in fs
  }

  predicate IsDirectory(fs: Snapshot, p: string) {
    p in fs && fs[p].Dir?
  }

  /** The index of the last `c` in `s`, if any. */
  function LastIndexOfChar(s: string, c: char): (r: Option<nat>)
    ensures r.Some? ==> r.value < |s| && s[r.value] == c && c !in s[r.value + 1..]
    ensures r.None? ==> c !in s
  {
    if |s| == 0 then None
    else if s[|s| - 1] == c then Some(|s| - 1)
    else
      var r := LastIndexOfChar(s[..|s| - 1], c);
      assert s == s[..|s| - 1] + [s[|s| - 1]];
      r
  }

  /** `path.basename(p, ext)`: the last segment, without `ext` when it carries it. */
  function Basename(p: string, ext: string): (r: string)
    ensures '/' !in p ==> r == StripSuffix(p, ext)
  {
    match LastIndexOfChar(p, '/')
    case None => StripSuffix(p, ext)
    case Some(i) => StripSuffix(p[i + 1..], ext)
  }

  /** `path.dirname(p)`: everything before the last '/', "/" for a root entry, "." without one. */
  function Dirname(p: string): (r: string)
    ensures '/' !in p ==> r == "."
  {
    match LastIndexOfChar(p, '/')
    case None => "."
    case Some(i) => if i == 0 then "/" else p[..i]
  }

  lemma {:induction false} LastIndexSuffix(x: string, c: char, y: string)
    requires c !in y
    ensures LastIndexOfChar(x + [c] + y, c) == Some(|x|)
    decreases |y|
  {
    var s := x + [c] + y;
    if |y| > 0 {
      assert s[|s| - 1] == y[|y| - 1];
      assert s[..|s| - 1] == x + [c] + y[..|y| - 1];
      LastIndexSuffix(x, c, y[..|y| - 1]);
    }
  }

  lemma DirnameJoin(a: string, b: string)
    requires a != "" && '/' !in b
    ensures Dirname(Join(a, b)) == a
  {
    LastIndexSuffix(a, '/', b);
    assert Join(a, b)[..|a|] == a;
  }

  lemma BasenameJoin(a: string, b: string, ext: string)
    requires '/' !in b
    ensures Basename(Join(a, b), ext) == StripSuffix(b, ext)
  {
    LastIndexSuffix(a, '/', b);
    assert Join(a, b)[|a| + 1..] == b;
  }

  /** `files.filter(f => f.endsWith(ext))`. */
  function FilterExt(files: seq<string>, ext: string): (r: seq<string>)
    ensures forall f :: f in r <==> f in files && EndsWith(f, ext)
    ensures |r| <= |files|
    ensures forall i :: 0 <= i < |r| ==> EndsWith(r[i], ext)
  {
    if |files| == 0 then []
    else if EndsWith(files[0], ext) then [files[0]] + FilterExt(files[1..], ext)
    else FilterExt(files[1..], ext)
  }
}
