/**
 * The `check` command's analysis: each scanned file is read, its frontmatter
 * parsed, and the file sorted into one of three buckets: ready to sync (with
 * its targets), without sync rules, or without metadata. Unreadable files are
 * skipped. Console and JSON output are not part of this model.
 */
module CodexCheck {
  import opened Wrappers
  import opened CodexMetadata
  import opened CodexRoute
  import FileSystem

  /** An entry of `readyToSync`. */
  datatype Ready = Ready(path: string, targets: seq<string>)

  /** The three bucket arrays. */
  datatype Buckets = Buckets(readyToSync: seq<Ready>, withoutRules: seq<string>, noMetadata: seq<string>)

  /** The counts of the JSON summary. */
  datatype CheckSummary = CheckSummary(readyToSync: nat, withoutRules: nat, noMetadata: nat)

  /** Where one file ends up. */
  datatype Verdict = Unreadable | NoMetadata | WithoutRules | ReadyWith(targets: seq<string>) | NotForTarget

  /** The targets shown for a file with rules. */
  function Targets(includes: seq<string>): (r: seq<string>)
    ensures "*" in includes ==> r == ["all repositories"]
    ensures "*" !in includes ==> r == includes
  {
    if "*" in includes then ["all repositories"] else includes
  }

  /** `matchesTarget`: some include is `*` or matches the target. */
  predicate MatchesTarget(includes: seq<string>, t: string) {
    exists i :: 0 <= i < |includes| && (includes[i] == "*" || GlobMatch(t, includes[i]))
  }

  /** `excludedFromTarget`: some exclude matches the target (no `*` shortcut). */
  predicate ExcludedFromTarget(excludes: seq<string>, t: string) {
    exists i :: 0 <= i < |excludes| && GlobMatch(t, excludes[i])
  }

  /** The fate of `file` under the library, the reader, the working directory and the `--target` option. */
  function Classify(lib: Library, read: string -> Result<string>, cwd: string, file: string,
                    target: Option<string>): Verdict
  {
    match ReadFileContent(read, FileSystem.Join(cwd, file))
    case Err(_) => Unreadable
    case Ok(content) =>
      if !lib.hasFrontmatter(content) then NoMetadata
      else match lib.parseMetadata(content)
        case None => NoMetadata
        case Some(m) =>
          var includes := OrEmpty(m.syncInclude);
          var excludes := OrEmpty(m.syncExclude);
          if |includes| == 0 then WithoutRules
          else if Truthy(target) then
            (if MatchesTarget(includes, target.value) && !ExcludedFromTarget(excludes, target.value)
             then ReadyWith([target.value]) else NotForTarget)
          else ReadyWith(Targets(includes))
  }

  /** Adds one file to the bucket its verdict names. */
  function Place(b: Buckets, file: string, v: Verdict): Buckets {
    match v
    case NoMetadata => b.(noMetadata := b.noMetadata + [file])
    case WithoutRules => b.(withoutRules := b.withoutRules + [file])
    case ReadyWith(ts) => b.(readyToSync := b.readyToSync + [Ready(file, ts)])
    case _ => b
  }

  /** The buckets after the files, in order. */
  function Analyze(lib: Library, read: string -> Result<string>, cwd: string, files: seq<string>,
                   target: Option<string>): Buckets
  {
    if |files| == 0 then Buckets([], [], [])
    else
      var last := files[|files| - 1];
      Place(Analyze(lib, read, cwd, files[..|files| - 1], target), last, Classify(lib, read, cwd, last, target))
  }

  /** The per-file loop of the `check` action, and the counts its JSON summary shows. */
  method CheckFiles(lib: Library, read: string -> Result<string>, cwd: string, files: seq<string>,
                    target: Option<string>) returns (b: Buckets, summary: CheckSummary)
    ensures b == Analyze(lib, read, cwd, files, target)
    ensures summary == CheckSummary(|b.readyToSync|, |b.withoutRules|, |b.noMetadata|)
  {
    var readyToSync: seq<Ready> := [];
    var withoutRules: seq<string> := [];
    var noMetadata: seq<string> := [];
    for i := 0 to |files|
      invariant Buckets(readyToSync, withoutRules, noMetadata) == Analyze(lib, read, cwd, files[..i], target)
    {
      var file := files[i];
      assert files[..i + 1][..i] == files[..i];
      var contentOrError := ReadFileContent(read, FileSystem.Join(cwd, file));
      if contentOrError.Err? {
        continue;
      }
      var content := contentOrError.value;
      if !lib.hasFrontmatter(content) {
        noMetadata := noMetadata + [file];
        continue;
      }
      var result := lib.parseMetadata(content);
      if result.None? {
        noMetadata := noMetadata + [file];
        continue;
      }
      var includes := OrEmpty(result.value.syncInclude);
      var excludes := OrEmpty(result.value.syncExclude);
      if |includes| == 0 {
        withoutRules := withoutRules + [file];
        continue;
      }
      var targets: seq<string> := [];
      if "*" in includes {
        targets := targets + ["all repositories"];
      } else {
        targets := targets + includes;
      }
      assert targets == Targets(includes);
      if Truthy(target) {
        var matchesTarget := MatchesTarget(includes, target.value);
        var excludedFromTarget := ExcludedFromTarget(excludes, target.value);
        if matchesTarget && !excludedFromTarget {
          readyToSync := readyToSync + [Ready(file, [target.value])];
        }
      } else {
        readyToSync := readyToSync + [Ready(file, targets)];
      }
    }
    assert files[..|files|] == files;
    b := Buckets(readyToSync, withoutRules, noMetadata);
    summary := CheckSummary(|readyToSync|, |withoutRules|, |noMetadata|);
  }

  /** Whether a verdict puts the file in some bucket. */
  function Placed(v: Verdict): nat {
    match v
    case NoMetadata => 1
    case WithoutRules => 1
    case ReadyWith(_) => 1
    case _ => 0
  }

  /** The number of files that land in some bucket. */
  function PlacedCount(lib: Library, read: string -> Result<string>, cwd: string, files: seq<string>,
                       target: Option<string>): (n: nat)
    ensures n <= |files|
  {
    if |files| == 0 then 0
    else (PlacedCount(lib, read, cwd, files[..|files| - 1], target)
          + Placed(Classify(lib, read, cwd, files[|files| - 1], target)))
  }

  /** Every placed file is counted once: the bucket sizes add up to the placed files. */
  lemma {:induction false} BucketSizes(lib: Library, read: string -> Result<string>, cwd: string,
                                       files: seq<string>, target: Option<string>)
    ensures var b := Analyze(lib, read, cwd, files, target);
      |b.readyToSync| + |b.withoutRules| + |b.noMetadata| == PlacedCount(lib, read, cwd, files, target)
    ensures var b := Analyze(lib, read, cwd, files, target);
      |b.readyToSync| + |b.withoutRules| + |b.noMetadata| <= |files|
    decreases |files|
  {
    if |files| > 0 {
      BucketSizes(lib, read, cwd, files[..|files| - 1], target);
    }
  }

  /**
   * Bucket membership: a path is in a bucket exactly when it is one of the
   * files and its verdict names that bucket; a ready entry carries the
   * verdict's targets.
   */
  lemma {:induction false} Membership(lib: Library, read: string -> Result<string>, cwd: string,
                                      files: seq<string>, target: Option<string>, f: string)
    ensures var b := Analyze(lib, read, cwd, files, target);
      f in b.noMetadata <==> f in files && Classify(lib, read, cwd, f, target) == NoMetadata
    ensures var b := Analyze(lib, read, cwd, files, target);
      f in b.withoutRules <==> f in files && Classify(lib, read, cwd, f, target) == WithoutRules
    ensures var b := Analyze(lib, read, cwd, files, target);
      forall e :: e in b.readyToSync && e.path == f ==>
        f in files && Classify(lib, read, cwd, f, target) == ReadyWith(e.targets)
    ensures var b := Analyze(lib, read, cwd, files, target);
      f in files && Classify(lib, read, cwd, f, target).ReadyWith? ==>
        Ready(f, Classify(lib, read, cwd, f, target).targets) in b.readyToSync
    decreases |files|
  {
    if |files| > 0 {
      var init := files[..|files| - 1];
      var last := files[|files| - 1];
      Membership(lib, read, cwd, init, target, f);
      assert files == init + [last];
      assert f in files <==> f in init || f == last;
      PlaceMembership(Analyze(lib, read, cwd, init, target), last, Classify(lib, read, cwd, last, target), f);
    }
  }

  /** Placing one file adds it to the bucket its verdict names and to no other. */
  lemma PlaceMembership(b: Buckets, file: string, v: Verdict, f: string)
    ensures f in Place(b, file, v).noMetadata <==> f in b.noMetadata || (f == file && v == NoMetadata)
    ensures f in Place(b, file, v).withoutRules <==> f in b.withoutRules || (f == file && v == WithoutRules)
    ensures forall e :: e in Place(b, file, v).readyToSync <==> e in b.readyToSync || (v.ReadyWith? && e == Ready(file, v.targets))
  {
  }

  /** No path is in two buckets. */
  lemma AtMostOneBucket(lib: Library, read: string -> Result<string>, cwd: string,
                        files: seq<string>, target: Option<string>, f: string)
    ensures var b := Analyze(lib, read, cwd, files, target);
      !(f in b.noMetadata && f in b.withoutRules)
    ensures var b := Analyze(lib, read, cwd, files, target);
      forall e :: e in b.readyToSync && e.path == f ==> f !in b.noMetadata && f !in b.withoutRules
  {
    Membership(lib, read, cwd, files, target, f);
  }

  /**
   * The `*` shortcut among the includes changes nothing, since a lone `*`
   * matches every target anyway: both tests are `matchesPattern` tests.
   */
  lemma TargetTestsArePatternMatches(includes: seq<string>, excludes: seq<string>, t: string)
    ensures MatchesTarget(includes, t) <==> exists i :: 0 <= i < |includes| && MatchesPattern(t, includes[i])
    ensures ExcludedFromTarget(excludes, t) <==> exists i :: 0 <= i < |excludes| && MatchesPattern(t, excludes[i])
  {
    StarMatchesAll(t);
  }

  /**
   * With patterns free of `*`, a file with rules is ready for `--target t`
   * exactly when `t` is one of its includes and none of its excludes.
   */
  lemma LiteralTargetRule(includes: seq<string>, excludes: seq<string>, t: string)
    requires forall i :: 0 <= i < |includes| ==> '*' !in includes[i]
    requires forall i :: 0 <= i < |excludes| ==> '*' !in excludes[i]
    ensures MatchesTarget(includes, t) && !ExcludedFromTarget(excludes, t) <==> t in includes && t !in excludes
  {
    forall i | 0 <= i < |includes| ensures GlobMatch(t, includes[i]) <==> t == includes[i] {
      LiteralPattern(t, includes[i]);
      assert includes[i] != "*" by { assert '*' in "*"; }
    }
    forall i | 0 <= i < |excludes| ensures GlobMatch(t, excludes[i]) <==> t == excludes[i] {
      LiteralPattern(t, excludes[i]);
      assert excludes[i] != "*" by { assert '*' in "*"; }
    }
  }

  /** A file with rules and a `*` include can only be excluded for a target by its excludes. */
  lemma StarIncludeMatchesEveryTarget(includes: seq<string>, t: string)
    requires "*" in includes
    ensures MatchesTarget(includes, t)
  {
    var i :| 0 <= i < |includes| && includes[i] == "*";
  }
}
