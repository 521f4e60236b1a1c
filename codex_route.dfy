/**
 * Routing patterns and the human-readable reason the `route` command prints.
 * A pattern is matched against the whole value, and every `*` stands for any
 * run of characters; all other characters are matched literally.
 */
module CodexRoute {
  import opened Wrappers
  import opened CodexMetadata

  /** Whole-value match where `*` matches any, possibly empty, run of characters. */
  function GlobMatch(v: string, p: string): bool
    decreases |v| + |p|
  {
    if |p| == 0 then |v| == 0
    else if p[0] == '*' then GlobMatch(v, p[1..]) || (|v| > 0 && GlobMatch(v[1..], p))
    else |v| > 0 && v[0] == p[0] && GlobMatch(v[1..], p[1..])
  }

  /** `matchesPattern(value, pattern)`. */
  function MatchesPattern(value: string, pattern: string): (r: bool)
    ensures pattern == "*" ==> r
  {
    if pattern == "*" then true else GlobMatch(value, pattern)
  }

  /** A lone `*` matches everything, with or without the shortcut. */
  lemma {:induction false} StarMatchesAll(v: string)
    ensures GlobMatch(v, "*")
    decreases |v|
  {
    assert "*"[1..] == "";
    if |v| > 0 {
      StarMatchesAll(v[1..]);
    }
  }

  /** A pattern without `*` matches exactly itself. */
  lemma {:induction false} LiteralPattern(v: string, p: string)
    requires '*' !in p
    ensures MatchesPattern(v, p) <==> v == p
    decreases |p|
  {
    if |p| > 0 {
      assert p[0] != '*';
      assert forall k :: 0 <= k < |p| - 1 ==> p[1..][k] == p[k + 1];
      if |v| > 0 {
        LiteralPattern(v[1..], p[1..]);
        assert v == p <==> v[0] == p[0] && v[1..] == p[1..];
      }
      assert p != "*";
    }
  }

  /** Matching a concatenated pattern: some split of the value matches the two parts. */
  lemma {:induction false} GlobConcat(v: string, p: string, q: string)
    ensures GlobMatch(v, p + q) <==> exists k :: 0 <= k <= |v| && GlobMatch(v[..k], p) && GlobMatch(v[k..], q)
    decreases |v| + |p|
  {
    if |p| == 0 {
      assert p + q == q;
      assert v[..0] == "" && v[0..] == v;
      assert forall k :: 0 <= k <= |v| && GlobMatch(v[..k], p) ==> k == 0;
    } else if p[0] == '*' {
      assert (p + q)[1..] == p[1..] + q;
      GlobConcat(v, p[1..], q);
      if |v| > 0 {
        GlobConcat(v[1..], p, q);
      }
      StarConcatSplit(v, p, q);
    } else {
      assert (p + q)[0] == p[0] && (p + q)[1..] == p[1..] + q;
      if |v| > 0 {
        GlobConcat(v[1..], p[1..], q);
        LiteralConcatSplit(v, p, q);
      } else {
        assert forall k :: 0 <= k <= |v| ==> !GlobMatch(v[..k], p);
      }
    }
  }

  /** The case of a leading `*`, given the two smaller instances. */
  lemma StarConcatSplit(v: string, p: string, q: string)
    requires |p| > 0 && p[0] == '*'
    requires GlobMatch(v, p[1..] + q) <==>
      exists k :: 0 <= k <= |v| && GlobMatch(v[..k], p[1..]) && GlobMatch(v[k..], q)
    requires |v| > 0 ==> (GlobMatch(v[1..], p + q) <==>
      exists k :: 0 <= k <= |v| - 1 && GlobMatch(v[1..][..k], p) && GlobMatch(v[1..][k..], q))
    ensures (GlobMatch(v, p[1..] + q) || (|v| > 0 && GlobMatch(v[1..], p + q))) <==>
      exists k :: 0 <= k <= |v| && GlobMatch(v[..k], p) && GlobMatch(v[k..], q)
  {
    if exists k :: 0 <= k <= |v| && GlobMatch(v[..k], p) && GlobMatch(v[k..], q) {
      var k :| 0 <= k <= |v| && GlobMatch(v[..k], p) && GlobMatch(v[k..], q);
      StarSplitCases(v, p, q, k);
    }
    if GlobMatch(v, p[1..] + q) {
      var k :| 0 <= k <= |v| && GlobMatch(v[..k], p[1..]) && GlobMatch(v[k..], q);
      assert GlobMatch(v[..k], p);
    }
    if |v| > 0 && GlobMatch(v[1..], p + q) {
      var k :| 0 <= k <= |v| - 1 && GlobMatch(v[1..][..k], p) && GlobMatch(v[1..][k..], q);
      StarEatsOne(v, p, q, k);
    }
  }

  /** A split under a leading `*` either lets `*` match nothing or match the first character too. */
  lemma StarSplitCases(v: string, p: string, q: string, k: nat)
    requires |p| > 0 && p[0] == '*' && k <= |v| && GlobMatch(v[..k], p) && GlobMatch(v[k..], q)
    ensures (GlobMatch(v[..k], p[1..]) && GlobMatch(v[k..], q)) ||
      (k > 0 && GlobMatch(v[1..][..k - 1], p) && GlobMatch(v[1..][k - 1..], q))
  {
    if !GlobMatch(v[..k], p[1..]) {
      assert k > 0 && GlobMatch(v[..k][1..], p);
      assert v[..k][1..] == v[1..][..k - 1] && v[k..] == v[1..][k - 1..];
    }
  }

  /** A split of the rest extends to a split of the whole, the `*` taking the first character. */
  lemma StarEatsOne(v: string, p: string, q: string, k: nat)
    requires |p| > 0 && p[0] == '*' && 0 < |v| && k <= |v| - 1
    requires GlobMatch(v[1..][..k], p) && GlobMatch(v[1..][k..], q)
    ensures GlobMatch(v[..k + 1], p) && GlobMatch(v[k + 1..], q)
  {
    assert v[..k + 1][1..] == v[1..][..k] && v[k + 1..] == v[1..][k..];
  }

  /** The case of a leading literal character, given the smaller instance. */
  lemma LiteralConcatSplit(v: string, p: string, q: string)
    requires |p| > 0 && p[0] != '*' && |v| > 0
    requires GlobMatch(v[1..], p[1..] + q) <==>
      exists k :: 0 <= k <= |v| - 1 && GlobMatch(v[1..][..k], p[1..]) && GlobMatch(v[1..][k..], q)
    ensures (v[0] == p[0] && GlobMatch(v[1..], p[1..] + q)) <==>
      exists k :: 0 <= k <= |v| && GlobMatch(v[..k], p) && GlobMatch(v[k..], q)
  {
    if exists k :: 0 <= k <= |v| && GlobMatch(v[..k], p) && GlobMatch(v[k..], q) {
      var k :| 0 <= k <= |v| && GlobMatch(v[..k], p) && GlobMatch(v[k..], q);
      assert k > 0 && v[..k][0] == v[0];
      assert v[..k][1..] == v[1..][..k - 1] && v[k..] == v[1..][k - 1..];
    }
    if v[0] == p[0] && GlobMatch(v[1..], p[1..] + q) {
      var k :| 0 <= k <= |v| - 1 && GlobMatch(v[1..][..k], p[1..]) && GlobMatch(v[1..][k..], q);
      assert v[..k + 1][1..] == v[1..][..k] && v[k + 1..] == v[1..][k..];
      assert v[..k + 1][0] == v[0];
      assert GlobMatch(v[..k + 1], p);
    }
  }

  /**
   * A `*` between two pattern parts matches whatever lies between a prefix
   * matching the first part and a suffix matching the second.
   */
  lemma StarBetween(v: string, a: string, b: string)
    ensures GlobMatch(v, a + "*" + b) <==>
      exists i, j :: 0 <= i <= j <= |v| && GlobMatch(v[..i], a) && GlobMatch(v[j..], b)
  {
    GlobConcat(v, a, "*" + b);
    assert a + "*" + b == a + ("*" + b);
    if GlobMatch(v, a + "*" + b) {
      var i :| 0 <= i <= |v| && GlobMatch(v[..i], a) && GlobMatch(v[i..], "*" + b);
      GlobConcat(v[i..], "*", b);
      var k :| 0 <= k <= |v| - i && GlobMatch(v[i..][..k], "*") && GlobMatch(v[i..][k..], b);
      assert v[i..][k..] == v[i + k..];
    }
    if exists i, j :: 0 <= i <= j <= |v| && GlobMatch(v[..i], a) && GlobMatch(v[j..], b) {
      var i, j :| 0 <= i <= j <= |v| && GlobMatch(v[..i], a) && GlobMatch(v[j..], b);
      StarMatchesAll(v[i..][..j - i]);
      assert v[i..][j - i..] == v[j..];
      GlobConcat(v[i..], "*", b);
    }
  }

  /** The index of the first pattern matching `target`, if any. */
  function FirstMatching(patterns: seq<string>, target: string): (r: Option<nat>)
    ensures r.Some? ==> (r.value < |patterns| && MatchesPattern(target, patterns[r.value])
      && forall j :: 0 <= j < r.value ==> !MatchesPattern(target, patterns[j]))
    ensures r.None? ==> forall j :: 0 <= j < |patterns| ==> !MatchesPattern(target, patterns[j])
    decreases |patterns|
  {
    if |patterns| == 0 then None
    else if MatchesPattern(target, patterns[0]) then Some(0)
    else match FirstMatching(patterns[1..], target)
      case None => None
      case Some(i) => Some(i + 1)
  }

  /** `getRoutingReason(metadata, targetRepo, willSync)`. */
  function RoutingReason(m: Metadata, target: string, willSync: bool): (r: string)
    ensures willSync ==> var f := FirstMatching(OrEmpty(m.syncInclude), target);
      r == if f.Some? then "Matches include pattern '" + OrEmpty(m.syncInclude)[f.value] + "'" else "Matches sync rules"
    ensures !willSync && |OrEmpty(m.syncInclude)| == 0 ==> r == "No include patterns defined"
    ensures !willSync && |OrEmpty(m.syncInclude)| > 0 ==> var f := FirstMatching(OrEmpty(m.syncExclude), target);
      r == if f.Some? then "Matches exclude pattern '" + OrEmpty(m.syncExclude)[f.value] + "'" else "No matching include patterns"
  {
    var includes := OrEmpty(m.syncInclude);
    var excludes := OrEmpty(m.syncExclude);
    if willSync then
      match FirstMatching(includes, target)
      case Some(i) => "Matches include pattern '" + includes[i] + "'"
      case None => "Matches sync rules"
    else if |includes| == 0 then "No include patterns defined"
    else
      match FirstMatching(excludes, target)
      case Some(i) => "Matches exclude pattern '" + excludes[i] + "'"
      case None => "No matching include patterns"
  }

  /** A `*` among the includes makes a syncing file's reason name the first `*` or earlier match. */
  lemma SyncReasonWithStar(m: Metadata, target: string, k: nat)
    requires k < |OrEmpty(m.syncInclude)| && OrEmpty(m.syncInclude)[k] == "*"
    ensures FirstMatching(OrEmpty(m.syncInclude), target).Some?
    ensures FirstMatching(OrEmpty(m.syncInclude), target).value <= k
    ensures RoutingReason(m, target, true) != "Matches sync rules"
  {
  }
}
