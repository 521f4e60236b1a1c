/** Context categories and the context record shared by loaders, overlays and the transformer. */
module Contexts {
  import opened Wrappers
  import opened Seqs
  import opened Assoc
  import opened Json

  /** The context categories, in the declaration order that `Object.values` enumerates. */
  datatype Category = Specialists | Platforms | Standards | Patterns | Playbooks | References | Troubleshooting

  /** The string values of the categories, in declaration order. */
  const CategoryNames: seq<string> :=
    ["specialists", "platforms", "standards", "patterns", "playbooks", "references", "troubleshooting"]

  function CategoryIndex(c: Category): (r: nat)
    ensures r < |CategoryNames|
  {
    match c
    case Specialists => 0
    case Platforms => 1
    case Standards => 2
    case Patterns => 3
    case Playbooks => 4
    case References => 5
    case Troubleshooting => 6
  }

  /** The string value of each category, which is also its directory name. */
  function CategoryName(c: Category): (r: string)
    ensures r != "" && '/' !in r
  {
    CategoryNames[CategoryIndex(c)]
  }

  /** `Object.values(ContextCategory)`. */
  const AllCategories: seq<Category> :=
    [Specialists, Platforms, Standards, Patterns, Playbooks, References, Troubleshooting]

  lemma CategoryNameInjective(a: Category, b: Category)
    ensures CategoryName(a) == CategoryName(b) ==> a == b
  {
  }

  lemma AllCategoriesComplete(c: Category)
    ensures c in AllCategories
  {
  }

  /** A loaded context document. Metadata is the parsed frontmatter, if any. */
  datatype Context = Context(
    category: Category,
    name: string,
    content: string,
    metadata: Option<Json>,
    path: Option<string>)
}
