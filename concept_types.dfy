/** Concept kinds, loaded role records and typed reads of parsed metadata. */
module ConceptTypes {
  import opened Wrappers
  import opened Seqs
  import opened Assoc
  import opened Json
  import opened Contexts

  datatype ConceptType = RoleType | ToolType | EvalType | TeamType | WorkflowType

  /** The enum's string values. */
  function TypeName(t: ConceptType): (r: string)
    ensures r != "" && ':' !in r
  {
    match t
    case RoleType => "role"
    case ToolType => "tool"
    case EvalType => "eval"
    case TeamType => "team"
    case WorkflowType => "workflow"
  }

  /** `Object.values(ConceptType).includes(s)`, returning the member found. */
  function TypeFromName(s: string): (r: Option<ConceptType>)
    ensures r.Some? ==> TypeName(r.value) == s
    ensures r.None? ==> forall t :: TypeName(t) != s
  {
    if s == "role" then Some(RoleType)
    else if s == "tool" then Some(ToolType)
    else if s == "eval" then Some(EvalType)
    else if s == "team" then Some(TeamType)
    else if s == "workflow" then Some(WorkflowType)
    else None
  }

  lemma TypeNameRoundTrip(t: ConceptType)
    ensures TypeFromName(TypeName(t)) == Some(t)
  {
  }

  /** A task or flow document: its key name, content and path. */
  datatype Document = Document(name: string, content: string, path: string)

  /** A loaded role, with its maps as association lists in insertion order. */
  datatype Role = Role(
    metadata: Fields,
    path: string,
    prompt: string,
    tasks: seq<(string, Document)>,
    flows: seq<(string, Document)>,
    contexts: seq<(string, Context)>,
    bindings: Option<seq<(string, Json)>>)

  /** A string-valued metadata field; a value of another JSON type reads as absent. */
  function StrField(f: Fields, k: string): (r: Option<string>)
    ensures r.Some? <==> Get(f, k).Some? && Get(f, k).value.JStr?
    ensures r.Some? ==> Get(f, k) == Some(JStr(r.value))
  {
    var v: Option<Json> := Get(f, k);
    match v
    case Some(JStr(s)) => Some(s)
    case _ => None
  }

  /** A truthy string field: present and non-empty. */
  function NonEmptyStr(f: Fields, k: string): (r: Option<string>)
    ensures r.Some? <==> StrField(f, k).Some? && StrField(f, k).value != ""
    ensures r.Some? ==> r == StrField(f, k)
  {
    match StrField(f, k)
    case Some(s) => if s != "" then Some(s) else None
    case None => None
  }

  /** All elements are strings. */
  function Strings(items: seq<Json>): (r: Option<seq<string>>)
    ensures r.Some? ==> |r.value| == |items| && forall i :: 0 <= i < |items| ==> items[i] == JStr(r.value[i])
  {
    if |items| == 0 then Some([])
    else match (items[0], Strings(items[1..]))
      case (JStr(s), Some(rest)) => Some([s] + rest)
      case _ => None
  }

  /** A string-array metadata field; any other value reads as absent. */
  function StrListField(f: Fields, k: string): (r: Option<seq<string>>)
    ensures r.Some? ==> Get(f, k).Some? && Get(f, k).value.JArr?
  {
    var v: Option<Json> := Get(f, k);
    match v
    case Some(JArr(items)) => Strings(items)
    case _ => None
  }
}
