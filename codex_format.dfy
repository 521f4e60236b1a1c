/**
 * The Codex output formatter: metadata listings, validation lines, the
 * summary line, routing decisions and content previews. Colouring is the
 * identity, so the strings are the plain text the terminal shows.
 */
module CodexFormat {
  import opened Wrappers
  import opened Text
  import opened CodexMetadata

  // ---------------------------------------------------------------------------
  // Listings of present fields

  /** One shown field: `indent`, the caption (`name: `) and the value when there is a value, nothing otherwise. */
  function Line(caption: string, value: Option<string>): (r: seq<string>)
    ensures |r| == Count(value.Some?)
  {
    if value.Some? then [caption + value.value] else []
  }

  /** A string field is shown when it is truthy. */
  function ShownText(v: Option<string>): (r: Option<string>)
    ensures r.Some? <==> Truthy(v)
    ensures r.Some? ==> r == v
  {
    if Truthy(v) then v else None
  }

  /** A list field is shown, joined by `, `, when it is present and not empty. */
  function NonEmptyList(v: Option<seq<string>>): (r: Option<string>)
    ensures r.Some? <==> v.Some? && |v.value| > 0
    ensures r.Some? ==> r.value == JoinWith(v.value, ", ")
  {
    if v.Some? && |v.value| > 0 then Some(JoinWith(v.value, ", ")) else None
  }

  /** The lines `formatMetadata` shows, in its fixed field order. */
  function MetadataLines(m: Metadata, ind: string): seq<string> {
    Line(ind + "org: ", ShownText(m.org)) + Line(ind + "system: ", ShownText(m.system))
    + Line(ind + "title: ", ShownText(m.title)) + Line(ind + "description: ", ShownText(m.description))
    + Line(ind + "includes: ", NonEmptyList(m.syncInclude)) + Line(ind + "excludes: ", NonEmptyList(m.syncExclude))
    + Line(ind + "visibility: ", ShownText(m.visibility)) + Line(ind + "tags: ", NonEmptyList(m.tags))
    + Line(ind + "created: ", ShownText(m.created)) + Line(ind + "updated: ", ShownText(m.updated))
  }

  function Count(b: bool): nat {
    if b then 1 else 0
  }

  /** How many fields `formatMetadata` shows. */
  function ShownFields(m: Metadata): nat {
    Count(Truthy(m.org)) + Count(Truthy(m.system)) + Count(Truthy(m.title)) + Count(Truthy(m.description))
    + Count(NonEmptyList(m.syncInclude).Some?) + Count(NonEmptyList(m.syncExclude).Some?)
    + Count(Truthy(m.visibility)) + Count(NonEmptyList(m.tags).Some?)
    + Count(Truthy(m.created)) + Count(Truthy(m.updated))
  }

  /**
   * `formatMetadata(metadata, indent)`: one indented line per shown field,
   * joined by newlines. A negative indent makes `repeat` throw.
   */
  method FormatMetadata(m: Metadata, indent: int) returns (r: Result<string>)
    ensures indent < 0 ==> r.Err?
    ensures indent >= 0 ==> r == Ok(JoinWith(MetadataLines(m, Spaces(indent)), "\n"))
  {
    if indent < 0 {
      return Err("RangeError: Invalid count value");
    }
    var ind := Spaces(indent);
    var lines: seq<string> := [];
    lines := PushShown(lines, ind + "org: ", ShownText(m.org));
    lines := PushShown(lines, ind + "system: ", ShownText(m.system));
    lines := PushShown(lines, ind + "title: ", ShownText(m.title));
    lines := PushShown(lines, ind + "description: ", ShownText(m.description));
    lines := PushShown(lines, ind + "includes: ", NonEmptyList(m.syncInclude));
    lines := PushShown(lines, ind + "excludes: ", NonEmptyList(m.syncExclude));
    lines := PushShown(lines, ind + "visibility: ", ShownText(m.visibility));
    lines := PushShown(lines, ind + "tags: ", NonEmptyList(m.tags));
    lines := PushShown(lines, ind + "created: ", ShownText(m.created));
    lines := PushShown(lines, ind + "updated: ", ShownText(m.updated));
    LeadingEmpty10(Line(ind + "org: ", ShownText(m.org)), Line(ind + "system: ", ShownText(m.system)),
      Line(ind + "title: ", ShownText(m.title)), Line(ind + "description: ", ShownText(m.description)),
      Line(ind + "includes: ", NonEmptyList(m.syncInclude)), Line(ind + "excludes: ", NonEmptyList(m.syncExclude)),
      Line(ind + "visibility: ", ShownText(m.visibility)), Line(ind + "tags: ", NonEmptyList(m.tags)),
      Line(ind + "created: ", ShownText(m.created)), Line(ind + "updated: ", ShownText(m.updated)));
    r := Ok(JoinWith(lines, "\n"));
  }

  lemma LeadingEmpty10<T>(l0: seq<T>, l1: seq<T>, l2: seq<T>, l3: seq<T>, l4: seq<T>,
                          l5: seq<T>, l6: seq<T>, l7: seq<T>, l8: seq<T>, l9: seq<T>)
    ensures [] + l0 + l1 + l2 + l3 + l4 + l5 + l6 + l7 + l8 + l9 == l0 + l1 + l2 + l3 + l4 + l5 + l6 + l7 + l8 + l9
  {
    assert [] + l0 == l0;
  }

  lemma LeadingEmpty4<T>(l0: seq<T>, l1: seq<T>, l2: seq<T>, l3: seq<T>)
    ensures [] + l0 + l1 + l2 + l3 == l0 + l1 + l2 + l3
  {
    assert [] + l0 == l0;
  }

  /** Appends the field's line when the field is shown. */
  method PushShown(lines: seq<string>, caption: string, value: Option<string>) returns (r: seq<string>)
    ensures r == lines + Line(caption, value)
  {
    r := lines;
    if value.Some? {
      r := r + [caption + value.value];
    }
  }

  predicate NoNewline(s: string) {
    '\n' !in s
  }

  /** One line per shown field. */
  lemma MetadataLineCount(m: Metadata, ind: string)
    ensures |MetadataLines(m, ind)| == ShownFields(m)
  {
    LengthSum10(Line(ind + "org: ", ShownText(m.org)), Line(ind + "system: ", ShownText(m.system)),
      Line(ind + "title: ", ShownText(m.title)), Line(ind + "description: ", ShownText(m.description)),
      Line(ind + "includes: ", NonEmptyList(m.syncInclude)), Line(ind + "excludes: ", NonEmptyList(m.syncExclude)),
      Line(ind + "visibility: ", ShownText(m.visibility)), Line(ind + "tags: ", NonEmptyList(m.tags)),
      Line(ind + "created: ", ShownText(m.created)), Line(ind + "updated: ", ShownText(m.updated)));
  }

  lemma LengthSum10<T>(l0: seq<T>, l1: seq<T>, l2: seq<T>, l3: seq<T>, l4: seq<T>,
                       l5: seq<T>, l6: seq<T>, l7: seq<T>, l8: seq<T>, l9: seq<T>)
    ensures |l0 + l1 + l2 + l3 + l4 + l5 + l6 + l7 + l8 + l9|
      == |l0| + |l1| + |l2| + |l3| + |l4| + |l5| + |l6| + |l7| + |l8| + |l9|
  {
  }

  /** No line of the list holds a newline. */
  predicate Flat(lines: seq<string>) {
    forall k :: 0 <= k < |lines| ==> NoNewline(lines[k])
  }

  lemma FlatAppend(a: seq<string>, b: seq<string>)
    requires Flat(a) && Flat(b)
    ensures Flat(a + b)
  {
    forall k | 0 <= k < |a + b| ensures NoNewline((a + b)[k]) {
      if k < |a| {
        assert (a + b)[k] == a[k];
      } else {
        assert (a + b)[k] == b[k - |a|];
      }
    }
  }

  lemma Flat10(l0: seq<string>, l1: seq<string>, l2: seq<string>, l3: seq<string>, l4: seq<string>,
               l5: seq<string>, l6: seq<string>, l7: seq<string>, l8: seq<string>, l9: seq<string>)
    requires Flat(l0) && Flat(l1) && Flat(l2) && Flat(l3) && Flat(l4)
    requires Flat(l5) && Flat(l6) && Flat(l7) && Flat(l8) && Flat(l9)
    ensures Flat(l0 + l1 + l2 + l3 + l4 + l5 + l6 + l7 + l8 + l9)
  {
    FlatAppend(l0, l1);
    FlatAppend(l0 + l1, l2);
    FlatAppend(l0 + l1 + l2, l3);
    FlatAppend(l0 + l1 + l2 + l3, l4);
    FlatAppend(l0 + l1 + l2 + l3 + l4, l5);
    FlatAppend(l0 + l1 + l2 + l3 + l4 + l5, l6);
    FlatAppend(l0 + l1 + l2 + l3 + l4 + l5 + l6, l7);
    FlatAppend(l0 + l1 + l2 + l3 + l4 + l5 + l6 + l7, l8);
    FlatAppend(l0 + l1 + l2 + l3 + l4 + l5 + l6 + l7 + l8, l9);
  }

  lemma LineFlat(ind: string, caption: string, value: Option<string>)
    requires NoNewline(ind) && NoNewline(caption) && (value.Some? ==> NoNewline(value.value))
    ensures Flat(Line(ind + caption, value))
  {
    if value.Some? {
      assert Line(ind + caption, value)[0] == ind + caption + value.value;
    }
  }

  /** Shown values without newlines. */
  predicate FlatValues(m: Metadata) {
    (m.org.Some? ==> NoNewline(m.org.value)) && (m.system.Some? ==> NoNewline(m.system.value))
    && (m.title.Some? ==> NoNewline(m.title.value)) && (m.description.Some? ==> NoNewline(m.description.value))
    && (m.visibility.Some? ==> NoNewline(m.visibility.value))
    && (m.created.Some? ==> NoNewline(m.created.value)) && (m.updated.Some? ==> NoNewline(m.updated.value))
    && (NonEmptyList(m.syncInclude).Some? ==> NoNewline(NonEmptyList(m.syncInclude).value))
    && (NonEmptyList(m.syncExclude).Some? ==> NoNewline(NonEmptyList(m.syncExclude).value))
    && (NonEmptyList(m.tags).Some? ==> NoNewline(NonEmptyList(m.tags).value))
  }

  lemma MetadataLinesFlat(m: Metadata, ind: string)
    requires FlatValues(m) && NoNewline(ind)
    ensures Flat(MetadataLines(m, ind))
  {
    TextLinesFlat(m, ind);
    ListLinesFlat(m, ind);
    Flat10(Line(ind + "org: ", ShownText(m.org)), Line(ind + "system: ", ShownText(m.system)),
      Line(ind + "title: ", ShownText(m.title)), Line(ind + "description: ", ShownText(m.description)),
      Line(ind + "includes: ", NonEmptyList(m.syncInclude)), Line(ind + "excludes: ", NonEmptyList(m.syncExclude)),
      Line(ind + "visibility: ", ShownText(m.visibility)), Line(ind + "tags: ", NonEmptyList(m.tags)),
      Line(ind + "created: ", ShownText(m.created)), Line(ind + "updated: ", ShownText(m.updated)));
  }

  lemma TextLinesFlat(m: Metadata, ind: string)
    requires FlatValues(m) && NoNewline(ind)
    ensures Flat(Line(ind + "org: ", ShownText(m.org))) && Flat(Line(ind + "system: ", ShownText(m.system)))
    ensures Flat(Line(ind + "title: ", ShownText(m.title))) && Flat(Line(ind + "description: ", ShownText(m.description)))
    ensures Flat(Line(ind + "visibility: ", ShownText(m.visibility)))
    ensures Flat(Line(ind + "created: ", ShownText(m.created))) && Flat(Line(ind + "updated: ", ShownText(m.updated)))
  {
    LineFlat(ind, "org: ", ShownText(m.org));
    LineFlat(ind, "system: ", ShownText(m.system));
    LineFlat(ind, "title: ", ShownText(m.title));
    LineFlat(ind, "description: ", ShownText(m.description));
    LineFlat(ind, "visibility: ", ShownText(m.visibility));
    LineFlat(ind, "created: ", ShownText(m.created));
    LineFlat(ind, "updated: ", ShownText(m.updated));
  }

  lemma ListLinesFlat(m: Metadata, ind: string)
    requires FlatValues(m) && NoNewline(ind)
    ensures Flat(Line(ind + "includes: ", NonEmptyList(m.syncInclude)))
    ensures Flat(Line(ind + "excludes: ", NonEmptyList(m.syncExclude)))
    ensures Flat(Line(ind + "tags: ", NonEmptyList(m.tags)))
  {
    LineFlat(ind, "includes: ", NonEmptyList(m.syncInclude));
    LineFlat(ind, "excludes: ", NonEmptyList(m.syncExclude));
    LineFlat(ind, "tags: ", NonEmptyList(m.tags));
  }

  /**
   * When no shown value holds a newline, the listing splits back into exactly
   * one line per shown field.
   */
  lemma MetadataListingLines(m: Metadata, indent: nat)
    requires FlatValues(m) && ShownFields(m) > 0
    ensures Split(JoinWith(MetadataLines(m, Spaces(indent)), "\n"), '\n') == MetadataLines(m, Spaces(indent))
    ensures |MetadataLines(m, Spaces(indent))| == ShownFields(m)
  {
    var ind := Spaces(indent);
    assert NoNewline(ind);
    MetadataLinesFlat(m, ind);
    MetadataLineCount(m, ind);
    SplitJoin(MetadataLines(m, ind), '\n');
  }

  /** Metadata without any shown field formats to the empty string. */
  lemma EmptyMetadataListing(m: Metadata, indent: nat)
    requires ShownFields(m) == 0
    ensures JoinWith(MetadataLines(m, Spaces(indent)), "\n") == ""
  {
    MetadataLineCount(m, Spaces(indent));
  }

  /** A list field shown by `formatValidationSuccess`: present, even when empty. */
  function AnyList(v: Option<seq<string>>): (r: Option<string>)
    ensures r.Some? <==> v.Some?
    ensures r.Some? ==> r.value == JoinWith(v.value, ", ")
  {
    if v.Some? then Some(JoinWith(v.value, ", ")) else None
  }

  /** The details `formatValidationSuccess` shows, in order. */
  function SuccessDetails(m: Metadata): seq<string> {
    Line("org: ", ShownText(m.org)) + Line("system: ", ShownText(m.system))
    + Line("includes: ", AnyList(m.syncInclude)) + Line("excludes: ", AnyList(m.syncExclude))
  }

  /** `formatValidationSuccess(filePath, metadata)`: the check line, then the details, each on its own indented line. */
  method FormatValidationSuccess(path: string, m: Option<Metadata>) returns (output: string)
    ensures m.None? ==> output == "✓ " + path
    ensures m.Some? ==> var details := SuccessDetails(m.value);
      output == "✓ " + path + (if |details| > 0 then "\n  " + JoinWith(details, "\n  ") else "")
  {
    output := "✓ " + path;
    if m.Some? {
      var md := m.value;
      var details: seq<string> := [];
      details := PushShown(details, "org: ", ShownText(md.org));
      details := PushShown(details, "system: ", ShownText(md.system));
      details := PushShown(details, "includes: ", AnyList(md.syncInclude));
      details := PushShown(details, "excludes: ", AnyList(md.syncExclude));
      LeadingEmpty4(Line("org: ", ShownText(md.org)), Line("system: ", ShownText(md.system)),
        Line("includes: ", AnyList(md.syncInclude)), Line("excludes: ", AnyList(md.syncExclude)));
      if |details| > 0 {
        output := output + "\n  " + JoinWith(details, "\n  ");
      }
    }
  }

  /** Metadata with neither org, system nor rule lists shows the check line only. */
  lemma BareSuccess(path: string, m: Metadata)
    requires !Truthy(m.org) && !Truthy(m.system) && m.syncInclude.None? && m.syncExclude.None?
    ensures |SuccessDetails(m)| == 0
  {
  }

  // ---------------------------------------------------------------------------
  // Validation and routing lines

  /** `formatValidationError(filePath, error)`. */
  function FormatValidationError(path: string, error: string): string {
    ("✗ " + path) + "\n" + ("  - " + error)
  }

  /** `formatValidationWarning(filePath, warning)`. */
  function FormatValidationWarning(path: string, warning: string): string {
    ("⚠ " + path) + "\n" + ("  - " + warning)
  }

  /** `formatRoutingDecision(repo, willSync, reason)`. */
  function FormatRoutingDecision(repo: string, willSync: bool, reason: string): string {
    ((if willSync then "✓" else "✗") + " " + repo) + "\n" + ("  Reason: " + reason)
  }

  lemma TwoLines(first: string, second: string)
    requires NoNewline(first) && NoNewline(second)
    ensures Split(first + "\n" + second, '\n') == [first, second]
  {
    var lines := [first, second];
    assert lines[1..] == [second];
    assert JoinWith(lines, "\n") == first + "\n" + second;
    SplitJoin(lines, '\n');
  }

  /** An error or warning reads as two lines: symbol and path, then the indented message. */
  lemma ValidationLines(path: string, message: string)
    requires NoNewline(path) && NoNewline(message)
    ensures Split(FormatValidationError(path, message), '\n') == ["✗ " + path, "  - " + message]
    ensures Split(FormatValidationWarning(path, message), '\n') == ["⚠ " + path, "  - " + message]
  {
    assert NoNewline("✗ " + path) && NoNewline("⚠ " + path) && NoNewline("  - " + message);
    TwoLines("✗ " + path, "  - " + message);
    TwoLines("⚠ " + path, "  - " + message);
  }

  /** A routing decision reads as two lines: the mark and repo, then the reason. */
  lemma RoutingDecisionLines(repo: string, willSync: bool, reason: string)
    requires NoNewline(repo) && NoNewline(reason)
    ensures Split(FormatRoutingDecision(repo, willSync, reason), '\n') ==
      [(if willSync then "✓" else "✗") + " " + repo, "  Reason: " + reason]
  {
    var first := (if willSync then "✓" else "✗") + " " + repo;
    assert NoNewline(first) && NoNewline("  Reason: " + reason);
    TwoLines(first, "  Reason: " + reason);
  }

  // ---------------------------------------------------------------------------
  // The summary line

  /** `${n} noun` with an `s` unless the count is exactly one. */
  function CountPhrase(n: nat, noun: string): string {
    NatToString(n) + " " + noun + (if n != 1 then "s" else "")
  }

  /** The phrase is singular exactly when the count is one. */
  lemma PluralUnlessOne(n: nat, noun: string)
    ensures CountPhrase(n, noun) == NatToString(n) + " " + noun <==> n == 1
  {
    assert |CountPhrase(n, noun)| == |NatToString(n) + " " + noun| + (if n != 1 then 1 else 0);
  }

  function Shown(n: int): nat {
    if n > 0 then 1 else 0
  }

  /** The summary parts, each count shown only when positive, in the order valid, errors, warnings. */
  function SummaryParts(valid: int, errors: int, warnings: int): (r: seq<string>)
    ensures |r| == Shown(valid) + Shown(errors) + Shown(warnings)
    ensures valid > 0 ==> r[0] == NatToString(valid) + " valid"
    ensures errors > 0 ==> r[Shown(valid)] == CountPhrase(errors, "error")
    ensures warnings > 0 ==> r[Shown(valid) + Shown(errors)] == CountPhrase(warnings, "warning")
  {
    (if valid > 0 then [NatToString(valid) + " valid"] else [])
    + (if errors > 0 then [CountPhrase(errors, "error")] else [])
    + (if warnings > 0 then [CountPhrase(warnings, "warning")] else [])
  }

  /** `formatSummary(valid, errors, warnings)`: the positive counts, joined by `, `. */
  method FormatSummary(valid: int, errors: int, warnings: int) returns (s: string)
    ensures s == "\nSummary: " + JoinWith(SummaryParts(valid, errors, warnings), ", ")
  {
    var parts: seq<string> := [];
    if valid > 0 { parts := parts + [NatToString(valid) + " valid"]; }
    if errors > 0 { parts := parts + [CountPhrase(errors, "error")]; }
    if warnings > 0 { parts := parts + [CountPhrase(warnings, "warning")]; }
    assert parts == SummaryParts(valid, errors, warnings);
    s := "\nSummary: " + JoinWith(parts, ", ");
  }

  /** With nothing to count the summary line is bare. */
  lemma EmptySummary()
    ensures "\nSummary: " + JoinWith(SummaryParts(0, 0, 0), ", ") == "\nSummary: "
  {
  }

  // ---------------------------------------------------------------------------
  // Content preview

  /** `lines.slice(0, end)`: a negative end counts from the back. */
  function SliceEnd(len: nat, end: int): (r: nat)
    ensures r <= len
  {
    if end < 0 then (if len + end < 0 then 0 else len + end) else if end < len then end else len
  }

  /** The preview text: the first lines, then a note counting the rest when there are more. */
  function ContentPreview(content: string, maxLines: int): string
  {
    var lines := Split(content, '\n');
    var output := JoinWith(lines[..SliceEnd(|lines|, maxLines)], "\n");
    if |lines| > maxLines then output + "\n" + MoreLines(|lines| - maxLines) else output
  }

  /** `formatContentPreview(content, maxLines)`. */
  method FormatContentPreview(content: string, maxLines: int) returns (output: string)
    ensures output == ContentPreview(content, maxLines)
  {
    var lines := Split(content, '\n');
    var preview := lines[..SliceEnd(|lines|, maxLines)];
    output := JoinWith(preview, "\n");
    if |lines| > maxLines {
      output := output + "\n" + MoreLines(|lines| - maxLines);
    }
  }

  function MoreLines(k: nat): string {
    "... (" + NatToString(k) + " more lines)"
  }

  /** Content of at most `maxLines` lines is shown unchanged. */
  lemma ShortContentUnchanged(content: string, maxLines: int)
    requires |Split(content, '\n')| <= maxLines
    ensures ContentPreview(content, maxLines) == content
  {
    var lines := Split(content, '\n');
    assert lines[..|lines|] == lines;
    JoinSplit(content, '\n');
  }

  /** The note about hidden lines is a single line. */
  lemma MoreLinesOneLine(k: nat)
    ensures NoNewline(MoreLines(k))
  {
    var digits := NatToString(k);
    assert forall i :: 0 <= i < |digits| ==> digits[i] != '\n';
    assert MoreLines(k) == "... (" + digits + " more lines)";
  }

  /** Longer content is previewed as its first `maxLines` lines and the note, joined by newlines. */
  lemma LongContentJoin(content: string, maxLines: nat)
    requires maxLines > 0 && |Split(content, '\n')| > maxLines
    ensures var lines := Split(content, '\n');
      ContentPreview(content, maxLines) == JoinWith(lines[..maxLines] + [MoreLines(|lines| - maxLines)], "\n")
  {
    var lines := Split(content, '\n');
    PreviewOfLong(content, maxLines);
    JoinWithSnoc(lines[..maxLines], MoreLines(|lines| - maxLines), "\n");
  }

  lemma PreviewOfLong(content: string, maxLines: nat)
    requires maxLines > 0 && |Split(content, '\n')| > maxLines
    ensures var lines := Split(content, '\n');
      ContentPreview(content, maxLines) == JoinWith(lines[..maxLines], "\n") + "\n" + MoreLines(|lines| - maxLines)
  {
    assert SliceEnd(|Split(content, '\n')|, maxLines) == maxLines;
  }

  /** The shown lines and the note split back into exactly those lines. */
  lemma PreviewLinesSplit(lines: seq<string>, n: nat, k: nat)
    requires n <= |lines| && forall i :: 0 <= i < |lines| ==> '\n' !in lines[i]
    ensures Split(JoinWith(lines[..n] + [MoreLines(k)], "\n"), '\n') == lines[..n] + [MoreLines(k)]
  {
    MoreLinesOneLine(k);
    assert "\n" == ['\n'];
    SplitJoinPrefix(lines, n, MoreLines(k), '\n');
  }

  /**
   * Longer content keeps its first `maxLines` lines, then one line telling how
   * many more there are.
   */
  lemma LongContentPreview(content: string, maxLines: nat)
    requires maxLines > 0 && |Split(content, '\n')| > maxLines
    ensures Split(ContentPreview(content, maxLines), '\n') ==
      Split(content, '\n')[..maxLines] + [MoreLines(|Split(content, '\n')| - maxLines)]
  {
    var lines := Split(content, '\n');
    LongContentJoin(content, maxLines);
    PreviewLinesSplit(lines, maxLines, |lines| - maxLines);
  }
}
