/**
 * RoleLoader.validateSpecific: the findings about a loaded role, including
 * the context references found in its prompt.
 */
module RoleValidation {
  import opened Wrappers
  import opened Text
  import opened Seqs
  import opened Assoc
  import opened Json
  import opened Contexts
  import opened ConceptTypes
  import opened ConceptBase

  // ---------------------------------------------------------------------------
  // extractContextReferences: the matches of /\/contexts\/[a-z-]+\/[a-z-]+\.md/g

  /** The class `[a-z-]`. */
  predicate RefChar(c: char) {
    IsLower(c) || c == '-'
  }

  /** The end of the run of `[a-z-]` characters starting at `i`. */
  function RunEnd(s: string, i: nat): (r: nat)
    requires i <= |s|
    ensures i <= r <= |s|
    ensures forall k :: i <= k < r ==> RefChar(s[k])
    ensures r < |s| ==> !RefChar(s[r])
    decreases |s| - i
  {
    if i < |s| && RefChar(s[i]) then RunEnd(s, i + 1) else i
  }

  const RefPrefix: string := "/contexts/"

  /**
   * The end of the match that starts at `i`, if one does. Neither `[a-z-]+`
   * can stop short of its run, since the character that follows it ('/' or
   * '.') is outside the class, so each run is taken whole.
   */
  function MatchAt(s: string, i: nat): (r: Option<nat>)
    ensures r.Some? ==> i < r.value <= |s|
  {
    if !OccursAt(s, RefPrefix, i) then None
    else
      var a := i + |RefPrefix|;
      var b := RunEnd(s, a);
      if b == a || b == |s| || s[b] != '/' then None
      else
        var c := RunEnd(s, b + 1);
        if c == b + 1 || !OccursAt(s, ".md", c) then None
        else Some(c + 3)
  }

  /** The spans start at or after `i`, are matches, and follow one another without overlap. */
  predicate SpansOk(s: string, i: nat, r: seq<(nat, nat)>) {
    SpansMatch(s, i, r) && SpansOrdered(r)
  }

  predicate SpansMatch(s: string, i: nat, r: seq<(nat, nat)>) {
    forall k :: 0 <= k < |r| ==> i <= r[k].0 && MatchAt(s, r[k].0) == Some(r[k].1)
  }

  predicate SpansOrdered(r: seq<(nat, nat)>) {
    forall k :: 0 <= k < |r| - 1 ==> r[k].1 <= r[k + 1].0
  }

  lemma SpansOkCons(s: string, i: nat, e: nat, rest: seq<(nat, nat)>)
    requires MatchAt(s, i) == Some(e) && SpansOk(s, e, rest)
    ensures SpansOk(s, i, [(i, e)] + rest)
  {
    SpansMatchCons(s, i, e, rest);
    SpansOrderedCons(i, e, rest);
  }

  lemma SpansMatchCons(s: string, i: nat, e: nat, rest: seq<(nat, nat)>)
    requires MatchAt(s, i) == Some(e) && SpansMatch(s, e, rest)
    ensures SpansMatch(s, i, [(i, e)] + rest)
  {
    var r := [(i, e)] + rest;
    forall k | 1 <= k < |r| ensures r[k] == rest[k - 1] {}
  }

  lemma SpansOrderedCons(i: nat, e: nat, rest: seq<(nat, nat)>)
    requires SpansOrdered(rest) && forall k :: 0 <= k < |rest| ==> e <= rest[k].0
    ensures SpansOrdered([(i, e)] + rest)
  {
    var r := [(i, e)] + rest;
    forall k | 1 <= k < |r| ensures r[k] == rest[k - 1] {}
  }

  /**
   * The successive matches from `i` on, as (start, end) spans: a match
   * resumes the search at its end, a failed position at the next one.
   */
  function Spans(s: string, i: nat): (r: seq<(nat, nat)>)
    requires i <= |s|
    ensures SpansOk(s, i, r)
    decreases |s| - i
  {
    if i == |s| then []
    else
      var m := MatchAt(s, i);
      if m.Some? then
        var rest := Spans(s, m.value);
        SpansOkCons(s, i, m.value, rest);
        [(i, m.value)] + rest
      else Spans(s, i + 1)
  }

  /** Position `p` is the start of one of the spans or lies inside it. */
  predicate Covered(r: seq<(nat, nat)>, p: nat) {
    exists k :: 0 <= k < |r| && r[k].0 <= p < r[k].1
  }

  lemma CoveredCons(head: (nat, nat), rest: seq<(nat, nat)>, p: nat)
    requires head.0 <= p < head.1 || Covered(rest, p)
    ensures Covered([head] + rest, p)
  {
    var r := [head] + rest;
    if head.0 <= p < head.1 {
      assert r[0] == head;
    } else {
      var k :| 0 <= k < |rest| && rest[k].0 <= p < rest[k].1;
      assert r[k + 1] == rest[k];
    }
  }

  /** Every position where a match could start is the start of a span or lies inside one. */
  lemma {:induction false} SpansComplete(s: string, i: nat, p: nat)
    requires i <= p < |s| && MatchAt(s, p).Some?
    ensures Covered(Spans(s, i), p)
    decreases |s| - i
  {
    var m := MatchAt(s, i);
    if m.Some? {
      if p >= m.value {
        SpansComplete(s, m.value, p);
      }
      CoveredCons((i, m.value), Spans(s, m.value), p);
    } else {
      SpansComplete(s, i + 1, p);
    }
  }

  /** The matched texts. */
  function Texts(s: string, spans: seq<(nat, nat)>): (r: seq<string>)
    requires forall k :: 0 <= k < |spans| ==> spans[k].0 <= spans[k].1 <= |s|
    ensures |r| == |spans|
    ensures forall k :: 0 <= k < |spans| ==> r[k] == s[spans[k].0..spans[k].1]
  {
    if |spans| == 0 then []
    else [s[spans[0].0..spans[0].1]] + Texts(s, spans[1..])
  }

  /** `extractContextReferences(prompt)`: `prompt.match(regex) || []`. */
  function ExtractReferences(prompt: string): seq<string> {
    var spans := Spans(prompt, 0);
    Texts(prompt, spans)
  }

  /** No '/' in a matched text is followed by '.'. */
  predicate NoSlashDot(t: string) {
    forall k :: 0 <= k < |t| - 1 ==> !(t[k] == '/' && t[k + 1] == '.')
  }

  lemma PrefixChars(s: string, i: nat, j: nat)
    requires OccursAt(s, RefPrefix, i) && j < |RefPrefix|
    ensures s[i + j] != '.'
  {
    assert s[i + j] == s[i..i + |RefPrefix|][j];
  }

  /** A match never holds "/.": the only '.' follows a `[a-z-]`. */
  lemma MatchNoSlashDot(s: string, i: nat)
    requires MatchAt(s, i).Some?
    ensures NoSlashDot(s[i..MatchAt(s, i).value])
  {
    var e := MatchAt(s, i).value;
    var a := i + |RefPrefix|;
    var b := RunEnd(s, a);
    var c := RunEnd(s, b + 1);
    assert s[c..c + 3] == ".md";
    assert s[c + 1] == 'm' && s[c + 2] == 'd' by {
      assert s[c + 1] == s[c..c + 3][1] && s[c + 2] == s[c..c + 3][2];
    }
    var t := s[i..e];
    forall k | 0 <= k < |t| - 1
      ensures !(t[k] == '/' && t[k + 1] == '.')
    {
      var q := i + k + 1;
      assert t[k] == s[q - 1] && t[k + 1] == s[q];
      if q < a {
        PrefixChars(s, i, k + 1);
      } else if q == c {
        assert RefChar(s[q - 1]);
      } else {
        assert s[q] != '.';
      }
    }
  }

  lemma MatchStartsWithPrefix(s: string, i: nat)
    requires MatchAt(s, i).Some?
    ensures StartsWith(s[i..MatchAt(s, i).value], RefPrefix)
  {
    var e := MatchAt(s, i).value;
    assert s[i..e][..|RefPrefix|] == s[i..i + |RefPrefix|];
  }

  lemma MarkerStart(t: string, k: nat)
    requires OccursAt(t, "/.faber/overlays/", k)
    ensures k + 1 < |t| && t[k] == '/' && t[k + 1] == '.'
  {
    assert t[k] == t[k..k + 17][0] && t[k + 1] == t[k..k + 17][1];
  }

  /** The `/.faber/overlays/` marker cannot occur in a "/."-free string. */
  lemma NoSlashDotExcludes(t: string)
    requires NoSlashDot(t)
    ensures !Contains(t, "/.faber/overlays/")
  {
    ContainsIff(t, "/.faber/overlays/");
    if Contains(t, "/.faber/overlays/") {
      var k: nat :| OccursAt(t, "/.faber/overlays/", k);
      MarkerStart(t, k);
      assert false;
    }
  }

  /**
   * Every extracted reference is a match of the pattern, and none contains
   * "/.faber/overlays/": the overlay exemption in the warning check never applies.
   */
  lemma ReferencesNeverOverlays(prompt: string)
    ensures forall r :: r in ExtractReferences(prompt) ==> !Contains(r, "/.faber/overlays/") && StartsWith(r, RefPrefix)
  {
    var spans := Spans(prompt, 0);
    var refs := ExtractReferences(prompt);
    forall r | r in refs
      ensures !Contains(r, "/.faber/overlays/") && StartsWith(r, RefPrefix)
    {
      var k :| 0 <= k < |refs| && refs[k] == r;
      MatchNoSlashDot(prompt, spans[k].0);
      MatchStartsWithPrefix(prompt, spans[k].0);
      NoSlashDotExcludes(r);
    }
  }

  // ---------------------------------------------------------------------------
  // validateSpecific

  const PromptMissing: Finding := Finding("prompt.md", "Role must have a prompt.md file", SevError)
  const NoTaskOrFlow: Finding := Finding("tasks|flows", "Role must have at least one task or flow", SevError)
  const DefaultNotDeclared: Finding := Finding("agent.yml", "default_platform must be in platforms list", SevError)

  function MissingPlatform(p: string): Finding {
    Finding("contexts/platforms/platform-" + p + ".md", "Missing platform context for declared platform: " + p, SevError)
  }

  function Unresolved(ref: string): Finding {
    Finding("prompt.md", "Referenced context not found: " + ref, SevWarning)
  }

  /** Some context of the role is the platform context `platform-<p>`. */
  predicate HasPlatformContext(contexts: seq<(string, Context)>, p: string) {
    exists i :: 0 <= i < |contexts| && contexts[i].1.category == Platforms && contexts[i].1.name == "platform-" + p
  }

  /** `ref.replace(/^\//, '')`. */
  function StripLeadingSlash(ref: string): string {
    if |ref| > 0 && ref[0] == '/' then ref[1..] else ref
  }

  /** Some context's path is the reference without its leading '/', or ends with it. */
  predicate Resolves(contexts: seq<(string, Context)>, ref: string) {
    var refPath := StripLeadingSlash(ref);
    exists i :: 0 <= i < |contexts| && contexts[i].1.path.Some? &&
      (contexts[i].1.path.value == refPath || EndsWith(contexts[i].1.path.value, refPath))
  }

  /** The declared platforms; any value but an array of strings reads as none. */
  function DeclaredPlatforms(metadata: Fields): seq<string> {
    match StrListField(metadata, "platforms")
    case Some(ps) => ps
    case None => []
  }

  /** One error per declared platform without its context, in declaration order. */
  function PlatformFindings(platforms: seq<string>, contexts: seq<(string, Context)>): seq<Finding> {
    if |platforms| == 0 then []
    else
      var p := platforms[|platforms| - 1];
      PlatformFindings(platforms[..|platforms| - 1], contexts) +
        (if HasPlatformContext(contexts, p) then [] else [MissingPlatform(p)])
  }

  /** The default platform, when set, must be declared. */
  function DefaultFindings(metadata: Fields, platforms: seq<string>): seq<Finding> {
    var d := NonEmptyStr(metadata, "default_platform");
    if d.Some? && d.value !in platforms then [DefaultNotDeclared] else []
  }

  /** One warning per reference no context resolves, unless it names an overlay. */
  function ReferenceFindings(refs: seq<string>, contexts: seq<(string, Context)>): seq<Finding> {
    if |refs| == 0 then []
    else
      var ref := refs[|refs| - 1];
      ReferenceFindings(refs[..|refs| - 1], contexts) +
        (if !Resolves(contexts, ref) && !Contains(ref, "/.faber/overlays/") then [Unresolved(ref)] else [])
  }

  function PromptFindings(role: Role): seq<Finding> {
    if role.prompt == "" then [PromptMissing] else []
  }

  function DocumentFindings(role: Role): seq<Finding> {
    if |role.tasks| == 0 && |role.flows| == 0 then [NoTaskOrFlow] else []
  }

  function PlatformChecks(role: Role): seq<Finding> {
    var ps := DeclaredPlatforms(role.metadata);
    if |ps| > 0 then PlatformFindings(ps, role.contexts) + DefaultFindings(role.metadata, ps) else []
  }

  /** What `validateSpecific(role)` returns. */
  function RoleFindings(role: Role): seq<Finding> {
    PromptFindings(role) + DocumentFindings(role) + PlatformChecks(role) +
      ReferenceFindings(ExtractReferences(role.prompt), role.contexts)
  }

  /** `validateSpecific`: the checks in order, pushing each finding. */
  method ValidateSpecific(role: Role) returns (errors: seq<Finding>)
    ensures errors == RoleFindings(role)
  {
    var promptPart: seq<Finding> := [];
    if role.prompt == "" {
      promptPart := [PromptMissing];
    }
    var documentPart: seq<Finding> := [];
    if |role.tasks| == 0 && |role.flows| == 0 {
      documentPart := [NoTaskOrFlow];
    }
    var platformPart: seq<Finding> := [];
    var ps := DeclaredPlatforms(role.metadata);
    if |ps| > 0 {
      var missing := CheckPlatforms(ps, role.contexts);
      platformPart := missing + DefaultFindings(role.metadata, ps);
    }
    var warnings := CheckReferences(ExtractReferences(role.prompt), role.contexts);
    errors := promptPart + documentPart + platformPart + warnings;
  }

  /** The loop over the declared platforms. */
  method CheckPlatforms(ps: seq<string>, contexts: seq<(string, Context)>) returns (errors: seq<Finding>)
    ensures errors == PlatformFindings(ps, contexts)
  {
    errors := [];
    var i := 0;
    while i < |ps|
      invariant 0 <= i <= |ps|
      invariant errors == PlatformFindings(ps[..i], contexts)
    {
      assert ps[..i + 1][..i] == ps[..i];
      if !HasPlatformContext(contexts, ps[i]) {
        errors := errors + [MissingPlatform(ps[i])];
      }
      i := i + 1;
    }
    assert ps[..i] == ps;
  }

  /** The loop over the prompt's references. */
  method CheckReferences(refs: seq<string>, contexts: seq<(string, Context)>) returns (errors: seq<Finding>)
    ensures errors == ReferenceFindings(refs, contexts)
  {
    errors := [];
    var j := 0;
    while j < |refs|
      invariant 0 <= j <= |refs|
      invariant errors == ReferenceFindings(refs[..j], contexts)
    {
      assert refs[..j + 1][..j] == refs[..j];
      if !Resolves(contexts, refs[j]) && !Contains(refs[j], "/.faber/overlays/") {
        errors := errors + [Unresolved(refs[j])];
      }
      j := j + 1;
    }
    assert refs[..j] == refs;
  }

  /** Exactly the declared platforms without a context are reported, each by its own error. */
  lemma {:induction false} PlatformFindingsExact(platforms: seq<string>, contexts: seq<(string, Context)>)
    ensures |PlatformFindings(platforms, contexts)| <= |platforms|
    ensures forall f :: f in PlatformFindings(platforms, contexts) <==>
      exists p :: p in platforms && !HasPlatformContext(contexts, p) && f == MissingPlatform(p)
  {
    if |platforms| > 0 {
      var init := platforms[..|platforms| - 1];
      PlatformFindingsExact(init, contexts);
      assert forall p :: p in platforms <==> p in init || p == platforms[|platforms| - 1];
    }
  }

  /** With the exemption unreachable, the warnings are exactly the unresolved references. */
  lemma {:induction false} ReferenceFindingsExact(refs: seq<string>, contexts: seq<(string, Context)>)
    requires forall r :: r in refs ==> !Contains(r, "/.faber/overlays/")
    ensures forall f :: f in ReferenceFindings(refs, contexts) <==>
      exists r :: r in refs && !Resolves(contexts, r) && f == Unresolved(r)
  {
    if |refs| > 0 {
      var init := refs[..|refs| - 1];
      assert forall r :: r in init ==> r in refs;
      ReferenceFindingsExact(init, contexts);
      assert forall r :: r in refs <==> r in init || r == refs[|refs| - 1];
    }
  }

  /** The prompt's warnings are exactly its unresolved references. */
  lemma PromptWarnings(role: Role)
    ensures forall f :: f in ReferenceFindings(ExtractReferences(role.prompt), role.contexts) <==>
      exists r :: r in ExtractReferences(role.prompt) && !Resolves(role.contexts, r) && f == Unresolved(r)
  {
    ReferencesNeverOverlays(role.prompt);
    ReferenceFindingsExact(ExtractReferences(role.prompt), role.contexts);
  }

  lemma {:induction false} ReferenceFindingsWarn(refs: seq<string>, contexts: seq<(string, Context)>)
    ensures forall f :: f in ReferenceFindings(refs, contexts) ==> f.severity == SevWarning && f.path == "prompt.md"
  {
    if |refs| > 0 {
      ReferenceFindingsWarn(refs[..|refs| - 1], contexts);
    }
  }

  lemma {:induction false} PlatformFindingsPaths(platforms: seq<string>, contexts: seq<(string, Context)>)
    ensures forall f :: f in PlatformFindings(platforms, contexts) ==> f.path != "prompt.md" && f.path != "tasks|flows"
  {
    if |platforms| > 0 {
      PlatformFindingsPaths(platforms[..|platforms| - 1], contexts);
      var f := MissingPlatform(platforms[|platforms| - 1]);
      assert f.path[0] == 'c';
    }
  }

  lemma InRoleFindings(role: Role, f: Finding)
    ensures f in RoleFindings(role) <==>
      f in PromptFindings(role) || f in DocumentFindings(role) || f in PlatformChecks(role) ||
      f in ReferenceFindings(ExtractReferences(role.prompt), role.contexts)
  {
  }

  /** An empty prompt, and only that, gives the "prompt.md" error. */
  lemma PromptErrorIff(role: Role)
    ensures PromptMissing in RoleFindings(role) <==> role.prompt == ""
  {
    InRoleFindings(role, PromptMissing);
    ReferenceFindingsWarn(ExtractReferences(role.prompt), role.contexts);
    PlatformFindingsPaths(DeclaredPlatforms(role.metadata), role.contexts);
  }

  /** A role with neither tasks nor flows, and only such a role, gets the "tasks|flows" error. */
  lemma DocumentErrorIff(role: Role)
    ensures NoTaskOrFlow in RoleFindings(role) <==> |role.tasks| == 0 && |role.flows| == 0
  {
    InRoleFindings(role, NoTaskOrFlow);
    NoTaskOrFlowElsewhere(role);
  }

  /** The "tasks|flows" error comes from no check but the document check. */
  lemma NoTaskOrFlowElsewhere(role: Role)
    ensures NoTaskOrFlow !in PromptFindings(role)
    ensures NoTaskOrFlow !in PlatformChecks(role)
    ensures NoTaskOrFlow !in ReferenceFindings(ExtractReferences(role.prompt), role.contexts)
  {
    ReferenceFindingsWarn(ExtractReferences(role.prompt), role.contexts);
    PlatformFindingsPaths(DeclaredPlatforms(role.metadata), role.contexts);
    assert NoTaskOrFlow.path[0] == 't' && DefaultNotDeclared.path[0] == 'a';
  }

  /** The default-platform check applies only when platforms are declared. */
  lemma DefaultCheckedOnlyWithPlatforms(role: Role)
    ensures DefaultNotDeclared in RoleFindings(role) <==>
      |DeclaredPlatforms(role.metadata)| > 0 &&
      NonEmptyStr(role.metadata, "default_platform").Some? &&
      NonEmptyStr(role.metadata, "default_platform").value !in DeclaredPlatforms(role.metadata)
  {
    InRoleFindings(role, DefaultNotDeclared);
    ReferenceFindingsWarn(ExtractReferences(role.prompt), role.contexts);
    PlatformFindingsExact(DeclaredPlatforms(role.metadata), role.contexts);
    forall p ensures MissingPlatform(p) != DefaultNotDeclared {
      assert MissingPlatform(p).path[0] == 'c';
    }
  }

  /** `validate(role)`: schema findings for the role metadata, then these. */
  function ValidateRole(role: Role): (r: ValidationResult)
    ensures r.valid <==> MetadataFindings(RoleSchema(), JObj(role.metadata)) == [] && RoleFindings(role) == []
  {
    Validate(MetadataFindings(RoleSchema(), JObj(role.metadata)), RoleFindings(role))
  }

  /** A conforming role whose only finding is one unresolved reference is still not valid. */
  lemma UnresolvedOnlyInvalid(role: Role, ref: string)
    requires RoleFindings(role) == [Unresolved(ref)]
    ensures !ValidateRole(role).valid
  {
  }
}
