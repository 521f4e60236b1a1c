/**
 * Splitting a Markdown document into YAML frontmatter and body, as the
 * context loader and the concept loader both do with
 * the regular expression `^---\n([\s\S]*?)\n---\n([\s\S]*)$`.
 */
module Frontmatter {
  import opened Wrappers
  import opened Text
  import opened Seqs
  import opened Assoc
  import opened Json

  const Open: string := "---\n"
  const Close: string := "\n---\n"

  /**
   * The two groups of the frontmatter expression: the document must start with
   * "---\n", and the lazy first group ends at the first "\n---\n" after it.
   */
  function Match(content: string): (r: Option<(string, string)>)
    ensures r.Some? ==> content == Open + r.value.0 + Close + r.value.1
    ensures r.Some? ==> forall j: nat :: 4 <= j < 4 + |r.value.0| ==> !OccursAt(content, Close, j)
    ensures r.None? ==> !StartsWith(content, Open) || forall j: nat :: 4 <= j ==> !OccursAt(content, Close, j)
  {
    if !StartsWith(content, Open) then None
    else match IndexOf(content, Close, 4)
      case None => None
      case Some(i) =>
        var yaml := content[4..i];
        var body := content[i + 5..];
        assert content == content[..4] + content[4..i] + content[i..i + 5] + content[i + 5..];
        Some((yaml, body))
  }

  /**
   * Any yaml block that does not itself contain the closing delimiter is
   * recovered together with the body.
   */
  lemma MatchCompose(yaml: string, body: string)
    requires !Contains(yaml + "\n---", Close)
    ensures Match(Open + yaml + Close + body) == Some((yaml, body))
  {
    var c := Open + yaml + Close + body;
    var y := yaml + "\n---";
    assert c[..4] == Open;
    assert OccursAt(c, Close, 4 + |yaml|);
    forall j: nat | 4 <= j < 4 + |yaml|
      ensures !OccursAt(c, Close, j)
    {
      ContainsIff(y, Close);
      assert !OccursAt(y, Close, j - 4);
      assert c[j..j + 5] == y[j - 4..j + 1];
    }
    IndexOfFirst(c, Close, 4, 4 + |yaml|);
    assert c[4..4 + |yaml|] == yaml;
    assert c[4 + |yaml| + 5..] == body;
  }

  /** The parsed frontmatter (if any) and the body. */
  datatype Parsed = Parsed(metadata: Option<Json>, body: string)

  /**
   * `parseFrontmatter`: `parse` stands for `yaml.load`, with `None` for a thrown
   * error. A failed parse, like a missing frontmatter block, yields the whole
   * content as body and no metadata.
   */
  function ParseFrontmatter(parse: string -> Option<Json>, content: string): (r: Parsed)
    ensures Match(content).None? ==> r == Parsed(None, content)
    ensures Match(content).Some? && parse(Match(content).value.0).None? ==> r == Parsed(None, content)
    ensures Match(content).Some? && parse(Match(content).value.0).Some? ==>
      r == Parsed(parse(Match(content).value.0), Match(content).value.1)
    ensures r.metadata.None? ==> r.body == content
  {
    match Match(content)
    case None => Parsed(None, content)
    case Some((yaml, body)) =>
      match parse(yaml)
      case None => Parsed(None, content)
      case Some(m) => Parsed(Some(m), body)
  }
}
