/** The static helpers of ContextUtils: merging, filtering, metadata queries and priority sorting. */
module ContextUtils {
  import opened Wrappers
  import opened Text
  import opened Seqs
  import opened Assoc
  import opened Json
  import opened Contexts

  /** The heading pushed before each context's content. */
  function Heading(c: Context): string {
    "# Context: " + c.name + " (" + CategoryName(c.category) + ")\n"
  }

  /** The three pieces pushed for each context, in order. */
  function Pieces(contexts: seq<Context>): (r: seq<string>)
    ensures |r| == 3 * |contexts|
  {
    if |contexts| == 0 then []
    else [Heading(contexts[0]), contexts[0].content, "\n---\n"] + Pieces(contexts[1..])
  }

  lemma {:induction false} PiecesAppend(a: seq<Context>, b: seq<Context>)
    ensures Pieces(a + b) == Pieces(a) + Pieces(b)
  {
    if |a| == 0 {
      assert a + b == b;
    } else {
      assert (a + b)[0] == a[0];
      assert (a + b)[1..] == a[1..] + b;
      PiecesAppend(a[1..], b);
    }
  }

  /** The text mergeContexts produces. */
  function MergedText(contexts: seq<Context>): string {
    JoinWith(Pieces(contexts), "\n")
  }

  /** `mergeContexts`: pushes three pieces per context, then joins them with "\n". */
  method MergeContexts(contexts: seq<Context>) returns (r: string)
    ensures r == MergedText(contexts)
  {
    var merged: seq<string> := [];
    var i := 0;
    while i < |contexts|
      invariant 0 <= i <= |contexts|
      invariant merged == Pieces(contexts[..i])
    {
      var c := contexts[i];
      merged := merged + [Heading(c)];
      merged := merged + [c.content];
      merged := merged + ["\n---\n"];
      assert contexts[..i + 1] == contexts[..i] + [c];
      PiecesAppend(contexts[..i], [c]);
      assert Pieces([c]) == [Heading(c), c.content, "\n---\n"];
      i := i + 1;
    }
    assert contexts[..i] == contexts;
    r := JoinWith(merged, "\n");
  }

  /** No contexts give the empty string; one context gives header, content and rule on three lines. */
  lemma MergedTextSmall(c: Context)
    ensures MergedText([]) == ""
    ensures MergedText([c]) ==
      "# Context: " + c.name + " (" + CategoryName(c.category) + ")\n" + "\n" + c.content + "\n" + "\n---\n"
  {
    var ps := [Heading(c), c.content, "\n---\n"];
    assert Pieces([c]) == ps;
    assert ps[1..] == [c.content, "\n---\n"];
    assert ps[1..][1..] == ["\n---\n"];
    assert JoinWith(ps[1..][1..], "\n") == "\n---\n";
    assert JoinWith(ps[1..], "\n") == c.content + "\n" + "\n---\n";
  }

  /** Merging two non-empty lists is merging each and joining the results with "\n". */
  lemma MergedTextAppend(a: seq<Context>, b: seq<Context>)
    requires |a| > 0 && |b| > 0
    ensures MergedText(a + b) == MergedText(a) + "\n" + MergedText(b)
  {
    PiecesAppend(a, b);
    JoinWithAppend(Pieces(a), Pieces(b), "\n");
  }

  /** `filterByCategory`: the contexts of one category, in input order. */
  function FilterByCategory(contexts: seq<Context>, category: Category): (r: seq<Context>)
    ensures forall x :: x in r <==> x in contexts && x.category == category
    ensures |r| <= |contexts|
  {
    if |contexts| == 0 then []
    else if contexts[0].category == category then [contexts[0]] + FilterByCategory(contexts[1..], category)
    else FilterByCategory(contexts[1..], category)
  }

  lemma {:induction false} FilterAppend(a: seq<Context>, b: seq<Context>, category: Category)
    ensures FilterByCategory(a + b, category) == FilterByCategory(a, category) + FilterByCategory(b, category)
  {
    if |a| == 0 {
      assert a + b == b;
    } else {
      assert (a + b)[0] == a[0];
      assert (a + b)[1..] == a[1..] + b;
      FilterAppend(a[1..], b, category);
    }
  }

  /** One more context of the input adds itself to the filtered prefix exactly when it has the category. */
  lemma FilterSnoc(s: seq<Context>, i: nat, category: Category)
    requires i < |s|
    ensures FilterByCategory(s[..i + 1], category) ==
      FilterByCategory(s[..i], category) + if s[i].category == category then [s[i]] else []
  {
    assert s[..i + 1] == s[..i] + [s[i]];
    FilterAppend(s[..i], [s[i]], category);
    FilterSingle(s[i], category);
  }

  /** A context of another category is dropped; one of the category is kept. */
  lemma FilterSingle(c: Context, category: Category)
    ensures FilterByCategory([c], category) == if c.category == category then [c] else []
  {
  }

  /** `isPlatformContext`. */
  predicate IsPlatformContext(c: Context) {
    c.category == Platforms
  }

  lemma IsPlatformContextName(c: Context)
    ensures IsPlatformContext(c) <==> CategoryName(c.category) == "platforms"
  {
  }

  /** `context.metadata?.[key]`: a missing or non-object metadata has no fields. */
  function MetadataField(c: Context, key: string): (r: Option<Json>)
    ensures c.metadata.None? || !c.metadata.value.JObj? ==> r.None?
    ensures c.metadata.Some? && c.metadata.value.JObj? ==> r == Get(c.metadata.value.fields, key)
  {
    if c.metadata.Some? && c.metadata.value.JObj? then Get(c.metadata.value.fields, key) else None
  }

  /** `requiresMCPServer`. */
  function RequiresMcpServer(c: Context): (r: bool)
    ensures r <==> MetadataField(c, "mcp_server").Some? && Truthy(MetadataField(c, "mcp_server").value)
                   && MetadataField(c, "mcp_server").value != JStr("null")
  {
    var v := MetadataField(c, "mcp_server");
    TruthyOpt(v) && v.value != JStr("null")
  }

  /** Contexts whose metadata names no MCP server, or names it as the text "null", need none. */
  lemma RequiresMcpServerCases(c: Context)
    ensures c.metadata.None? ==> !RequiresMcpServer(c)
    ensures MetadataField(c, "mcp_server") == Some(JStr("null")) ==> !RequiresMcpServer(c)
    ensures MetadataField(c, "mcp_server") == Some(JStr("")) ==> !RequiresMcpServer(c)
    ensures forall s :: MetadataField(c, "mcp_server") == Some(JStr(s)) && s != "" && s != "null" ==> RequiresMcpServer(c)
  {
  }

  /** `getRequiredTools`: `metadata.required_tools`, or `[]` when it is missing or falsy. */
  function GetRequiredTools(c: Context): (r: Json)
    ensures TruthyOpt(MetadataField(c, "required_tools")) ==> r == MetadataField(c, "required_tools").value
    ensures !TruthyOpt(MetadataField(c, "required_tools")) ==> r == JArr([])
    ensures Truthy(r) || r == JArr([])
  {
    var v := MetadataField(c, "required_tools");
    if TruthyOpt(v) then v.value else JArr([])
  }

  /** The sort priority of each category; lower sorts first. */
  function Rank(c: Category): (r: nat)
    ensures 1 <= r <= 7
  {
    match c
    case Platforms => 1
    case Standards => 2
    case Specialists => 3
    case Playbooks => 4
    case Patterns => 5
    case References => 6
    case Troubleshooting => 7
  }

  /** The categories by increasing rank. */
  const RankOrder: seq<Category> := [Platforms, Standards, Specialists, Playbooks, Patterns, References, Troubleshooting]

  lemma RankOrderIndex(i: nat)
    requires i < |RankOrder|
    ensures Rank(RankOrder[i]) == i + 1
  {
  }

  /** The contexts of the first `n` ranks, each rank in input order. */
  function PriorityPrefix(s: seq<Context>, n: nat): seq<Context>
    requires n <= |RankOrder|
  {
    if n == 0 then [] else PriorityPrefix(s, n - 1) + FilterByCategory(s, RankOrder[n - 1])
  }

  /** The stable sort by rank that `Array.prototype.sort` performs with the rank comparator. */
  function PrioritySorted(s: seq<Context>): seq<Context> {
    PriorityPrefix(s, |RankOrder|)
  }

  predicate RankSorted(s: seq<Context>) {
    forall i, j :: 0 <= i < j < |s| ==> Rank(s[i].category) <= Rank(s[j].category)
  }

  lemma {:induction false} PriorityPrefixRanks(s: seq<Context>, n: nat)
    requires n <= |RankOrder|
    ensures forall x :: x in PriorityPrefix(s, n) ==> Rank(x.category) <= n
    ensures RankSorted(PriorityPrefix(s, n))
  {
    if n > 0 {
      PriorityPrefixRanks(s, n - 1);
      RankOrderIndex(n - 1);
      var p := PriorityPrefix(s, n - 1);
      var f := FilterByCategory(s, RankOrder[n - 1]);
      assert forall x :: x in f ==> Rank(x.category) == n;
      forall i, j | 0 <= i < j < |p + f|
        ensures Rank((p + f)[i].category) <= Rank((p + f)[j].category)
      {
        if j >= |p| {
          assert (p + f)[j] == f[j - |p|];
          if i >= |p| {
            assert (p + f)[i] == f[i - |p|];
          } else {
            assert (p + f)[i] == p[i] && p[i] in p;
          }
        } else {
          assert (p + f)[i] == p[i] && (p + f)[j] == p[j];
        }
      }
    }
  }

  /** sortByPriority's result is ordered by non-decreasing rank. */
  lemma PrioritySortedOrdered(s: seq<Context>)
    ensures RankSorted(PrioritySorted(s))
  {
    PriorityPrefixRanks(s, |RankOrder|);
  }

  lemma {:induction false} FilterOfFilter(s: seq<Context>, a: Category, b: Category)
    ensures FilterByCategory(FilterByCategory(s, a), b) == if a == b then FilterByCategory(s, a) else []
  {
    if |s| > 0 {
      FilterOfFilter(s[1..], a, b);
      if s[0].category == a {
        FilterAppend([s[0]], FilterByCategory(s[1..], a), b);
      }
    }
  }

  lemma RankInjective(a: Category, b: Category)
    ensures Rank(a) == Rank(b) ==> a == b
  {
  }

  /** A category is among the first `n` ranks exactly when its rank is at most `n`. */
  lemma RankStep(n: nat, c: Category)
    requires 0 < n <= |RankOrder|
    ensures Rank(c) <= n <==> Rank(c) <= n - 1 || c == RankOrder[n - 1]
  {
    RankOrderIndex(n - 1);
    RankInjective(c, RankOrder[n - 1]);
  }

  lemma {:induction false} PriorityPrefixFilter(s: seq<Context>, n: nat, c: Category)
    requires n <= |RankOrder|
    ensures FilterByCategory(PriorityPrefix(s, n), c) == if Rank(c) <= n then FilterByCategory(s, c) else []
  {
    if n > 0 {
      PriorityPrefixFilter(s, n - 1, c);
      FilterAppend(PriorityPrefix(s, n - 1), FilterByCategory(s, RankOrder[n - 1]), c);
      FilterOfFilter(s, RankOrder[n - 1], c);
      RankStep(n, c);
      RankOrderIndex(n - 1);
    }
  }

  /**
   * Stability: the contexts of each category keep their relative order, so
   * equal-rank contexts appear as in the input.
   */
  lemma PrioritySortedStable(s: seq<Context>, c: Category)
    ensures FilterByCategory(PrioritySorted(s), c) == FilterByCategory(s, c)
  {
    PriorityPrefixFilter(s, |RankOrder|, c);
  }

  /** The contexts whose rank is at most `n`, in input order. */
  function UpToRank(s: seq<Context>, n: nat): seq<Context> {
    if |s| == 0 then []
    else if Rank(s[0].category) <= n then [s[0]] + UpToRank(s[1..], n)
    else UpToRank(s[1..], n)
  }

  lemma {:induction false} UpToRankStep(s: seq<Context>, n: nat)
    requires 0 < n <= |RankOrder|
    ensures multiset(UpToRank(s, n)) == multiset(UpToRank(s, n - 1)) + multiset(FilterByCategory(s, RankOrder[n - 1]))
  {
    if |s| > 0 {
      UpToRankStep(s[1..], n);
      RankStep(n, s[0].category);
      RankOrderIndex(n - 1);
    }
  }

  lemma {:induction false} UpToRankAll(s: seq<Context>)
    ensures UpToRank(s, |RankOrder|) == s
  {
    if |s| > 0 {
      UpToRankAll(s[1..]);
      assert s == [s[0]] + s[1..];
    }
  }

  lemma {:induction false} UpToRankNone(s: seq<Context>)
    ensures UpToRank(s, 0) == []
  {
    if |s| > 0 {
      UpToRankNone(s[1..]);
    }
  }

  lemma {:induction false} PriorityPrefixMultiset(s: seq<Context>, n: nat)
    requires n <= |RankOrder|
    ensures multiset(PriorityPrefix(s, n)) == multiset(UpToRank(s, n))
  {
    if n == 0 {
      UpToRankNone(s);
    } else {
      PriorityPrefixMultiset(s, n - 1);
      UpToRankStep(s, n);
    }
  }

  /** sortByPriority's result is a permutation of its input. */
  lemma PrioritySortedPermutation(s: seq<Context>)
    ensures multiset(PrioritySorted(s)) == multiset(s)
  {
    PriorityPrefixMultiset(s, |RankOrder|);
    UpToRankAll(s);
  }

  /** `sortByPriority`: sorts the array in place by category rank, keeping ties in order. */
  method SortByPriority(a: array<Context>)
    modifies a
    ensures a[..] == PrioritySorted(old(a[..]))
  {
    var s := a[..];
    var sorted: seq<Context> := [];
    var n := 0;
    while n < |RankOrder|
      invariant 0 <= n <= |RankOrder|
      invariant sorted == PriorityPrefix(s, n)
    {
      var part := CollectCategory(s, RankOrder[n]);
      sorted := sorted + part;
      n := n + 1;
    }
    PrioritySortedPermutation(s);
    assert |sorted| == |s| by {
      assert |multiset(sorted)| == |multiset(s)|;
    }
    CopyInto(a, sorted);
  }

  /** The contexts of one category, in their original order. */
  method CollectCategory(s: seq<Context>, c: Category) returns (part: seq<Context>)
    ensures part == FilterByCategory(s, c)
  {
    part := [];
    var i := 0;
    while i < |s|
      invariant 0 <= i <= |s|
      invariant part == FilterByCategory(s[..i], c)
    {
      FilterSnoc(s, i, c);
      if s[i].category == c {
        part := part + [s[i]];
      }
      i := i + 1;
    }
    assert s[..i] == s;
  }

  /** Writes `sorted` over the array, element by element. */
  method CopyInto(a: array<Context>, sorted: seq<Context>)
    requires |sorted| == a.Length
    modifies a
    ensures a[..] == sorted
  {
    var k := 0;
    while k < a.Length
      invariant 0 <= k <= a.Length
      invariant a[..k] == sorted[..k]
    {
      a[k] := sorted[k];
      assert a[..k + 1] == a[..k] + [a[k]];
      assert sorted[..k + 1] == sorted[..k] + [sorted[k]];
      k := k + 1;
    }
    assert a[..] == a[..k];
    assert sorted == sorted[..k];
  }
}
