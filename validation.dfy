/**
 * The name, path, e-mail and version predicates and the validation-result
 * constructor. Each regular expression is read by a small matcher that
 * follows its structure, and the matcher is proved equal to a plain
 * description of the strings it accepts.
 */
module Validation {
  import opened Wrappers
  import opened Text
  import opened Json
  import ConceptBase

  // ---------------------------------------------------------------------------
  // Concept and platform names: /^[a-z0-9]+(-[a-z0-9]+)*$/

  predicate NameChar(c: char) {
    IsLower(c) || IsDigit(c)
  }

  /** `[a-z0-9]+(-[a-z0-9]+)*` against the whole of `s`. */
  predicate MatchRuns(s: string)
    decreases |s|, 1
  {
    |s| > 0 && NameChar(s[0]) && MatchRest(s[1..])
  }

  /** What may follow a name character: more of the run, or `-` and a new run, or the end. */
  predicate MatchRest(s: string)
    decreases |s|, 0
  {
    |s| == 0 || (NameChar(s[0]) && MatchRest(s[1..])) || (s[0] == '-' && MatchRuns(s[1..]))
  }

  /** Only `[a-z0-9-]`, no `-` at the end and never two `-` in a row. */
  predicate RestShape(s: string) {
    (forall k :: 0 <= k < |s| ==> ConceptBase.SlugChar(s[k]))
    && (|s| > 0 ==> s[|s| - 1] != '-')
    && (forall k :: 0 <= k < |s| - 1 ==> !(s[k] == '-' && s[k + 1] == '-'))
  }

  /** Kebab case: non-empty, over `[a-z0-9-]`, and no leading, trailing or doubled hyphen. */
  predicate KebabCase(s: string) {
    |s| > 0 && s[0] != '-' && RestShape(s)
  }

  lemma RestShapeCons(s: string)
    requires |s| > 0
    ensures RestShape(s) <==>
      ConceptBase.SlugChar(s[0]) && RestShape(s[1..]) && (|s| == 1 ==> s[0] != '-')
      && (|s| > 1 ==> !(s[0] == '-' && s[1] == '-'))
  {
    var t := s[1..];
    if ConceptBase.SlugChar(s[0]) && RestShape(t) && (|s| == 1 ==> s[0] != '-')
       && (|s| > 1 ==> !(s[0] == '-' && s[1] == '-')) {
      forall k | 0 <= k < |s| ensures ConceptBase.SlugChar(s[k]) {
        if k > 0 { assert s[k] == t[k - 1]; }
      }
      forall k | 0 <= k < |s| - 1 ensures !(s[k] == '-' && s[k + 1] == '-') {
        if k > 0 { assert s[k] == t[k - 1] && s[k + 1] == t[k]; }
      }
    }
    if RestShape(s) {
      forall k | 0 <= k < |t| ensures ConceptBase.SlugChar(t[k]) {
        assert t[k] == s[k + 1];
      }
      forall k | 0 <= k < |t| - 1 ensures !(t[k] == '-' && t[k + 1] == '-') {
        assert t[k] == s[k + 1] && t[k + 1] == s[k + 2];
      }
    }
  }

  lemma {:induction false} MatchShape(s: string)
    ensures MatchRest(s) <==> RestShape(s)
    ensures MatchRuns(s) <==> KebabCase(s)
    decreases |s|
  {
    if |s| > 0 {
      var t := s[1..];
      MatchShape(t);
      RestShapeCons(s);
      if |t| > 0 {
        assert t[0] == s[1];
      }
    }
  }

  /** `validateConceptName`. */
  predicate ValidateConceptName(name: string)
    ensures ValidateConceptName(name) <==> KebabCase(name)
  {
    MatchShape(name);
    MatchRuns(name)
  }

  /** `validatePlatformName`: the same expression as for concept names. */
  predicate ValidatePlatformName(name: string)
    ensures ValidatePlatformName(name) <==> KebabCase(name)
  {
    MatchShape(name);
    MatchRuns(name)
  }

  /** A valid concept name also passes the metadata name rule `^[a-z0-9-]+$`. */
  lemma ConceptNameIsSlug(name: string)
    requires ValidateConceptName(name)
    ensures ConceptBase.IsSlug(name)
  {
  }

  /** The metadata name rule is looser: it admits a leading hyphen and a doubled one. */
  lemma SlugNotConceptName()
    ensures ConceptBase.IsSlug("-a") && !ValidateConceptName("-a")
    ensures ConceptBase.IsSlug("a--b") && !ValidateConceptName("a--b")
  {
    assert "a--b"[1] == '-' && "a--b"[2] == '-';
  }

  // ---------------------------------------------------------------------------
  // File paths

  /** `validateFilePath`: non-empty and without a NUL character. */
  predicate ValidateFilePath(filePath: string)
    ensures ValidateFilePath(filePath) <==> |filePath| > 0 && forall k :: 0 <= k < |filePath| ==> filePath[k] != '\0'
  {
    ContainsIff(filePath, "\0");
    assert forall k: nat :: OccursAt(filePath, "\0", k) <==> k < |filePath| && filePath[k] == '\0' by {
      forall k: nat ensures OccursAt(filePath, "\0", k) <==> k < |filePath| && filePath[k] == '\0' {
        if k < |filePath| {
          assert filePath[k..k + 1] == [filePath[k]];
        }
      }
    }
    |filePath| > 0 && !Contains(filePath, "\0")
  }

  // ---------------------------------------------------------------------------
  // E-mail addresses: /^[^\s@]+@[^\s@]+\.[^\s@]+$/

  /** The characters JavaScript's `\s` matches. */
  predicate IsSpace(c: char) {
    c == ' ' || c == '\t' || c == '\n' || c == '\r' || c == '\U{000B}' || c == '\U{000C}'
    || c == '\U{00A0}' || c == '\U{1680}' || ('\U{2000}' <= c <= '\U{200A}') || c == '\U{2028}'
    || c == '\U{2029}' || c == '\U{202F}' || c == '\U{205F}' || c == '\U{3000}' || c == '\U{FEFF}'
  }


  /** Every character is in `[^\s@]`. */
  predicate Plain(s: string) {
    forall k :: 0 <= k < |s| ==> !IsSpace(s[k]) && s[k] != '@'
  }

  /** The regular expression read as a split: `local@sub.top`, each part a non-empty run of `[^\s@]`. */
  predicate EmailPattern(s: string) {
    exists i, j :: 0 < i && i + 1 < j && j + 1 < |s| && s[i] == '@' && s[j] == '.'
      && Plain(s[..i]) && Plain(s[i + 1..j]) && Plain(s[j + 1..])
  }

  /** The domain has a `.` that is neither its first nor its last character. */
  predicate InnerDot(d: string) {
    exists j :: 0 < j < |d| - 1 && d[j] == '.'
  }

  /** `validateEmail`: one `@` with a non-empty local part before it and a dotted domain after it, no whitespace. */
  predicate ValidateEmail(email: string) {
    match IndexOfChar(email, '@')
    case None => false
    case Some(i) => i > 0 && Plain(email[..i]) && Plain(email[i + 1..]) && InnerDot(email[i + 1..])
  }

  lemma PlainSplit(s: string, a: nat, b: nat, c: nat)
    requires a <= b <= c <= |s|
    ensures Plain(s[a..c]) <==> Plain(s[a..b]) && Plain(s[b..c])
  {
    if Plain(s[a..b]) && Plain(s[b..c]) {
      forall k | 0 <= k < c - a ensures !IsSpace(s[a..c][k]) && s[a..c][k] != '@' {
        if k < b - a { assert s[a..c][k] == s[a..b][k]; } else { assert s[a..c][k] == s[b..c][k - (b - a)]; }
      }
    }
    if Plain(s[a..c]) {
      forall k | 0 <= k < b - a ensures !IsSpace(s[a..b][k]) && s[a..b][k] != '@' {
        assert s[a..b][k] == s[a..c][k];
      }
      forall k | 0 <= k < c - b ensures !IsSpace(s[b..c][k]) && s[b..c][k] != '@' {
        assert s[b..c][k] == s[a..c][k + (b - a)];
      }
    }
  }

  /** Every string the matcher accepts matches the regular expression. */
  lemma EmailSound(email: string)
    requires ValidateEmail(email)
    ensures EmailPattern(email)
  {
    var i := IndexOfChar(email, '@').value;
    var d := email[i + 1..];
    var j :| 0 < j < |d| - 1 && d[j] == '.';
    PlainSplit(email, i + 1, i + 1 + j, |email|);
    PlainSplit(email, i + 1 + j, i + 2 + j, |email|);
    assert email[i + 1 + j] == '.';
  }

  /** Every string of the regular expression is accepted by the matcher. */
  lemma EmailComplete(email: string, i: nat, j: nat)
    requires 0 < i && i + 1 < j && j + 1 < |email| && email[i] == '@' && email[j] == '.'
    requires Plain(email[..i]) && Plain(email[i + 1..j]) && Plain(email[j + 1..])
    ensures ValidateEmail(email)
  {
    PlainSplit(email, j, j + 1, |email|);
    assert email[j..j + 1] == ".";
    PlainSplit(email, i + 1, j, |email|);
    FirstAt(email, i);
    assert email[i + 1..][j - i - 1] == '.';
  }

  /** The matcher accepts exactly the strings of the regular expression. */
  lemma EmailMatches(email: string)
    ensures ValidateEmail(email) <==> EmailPattern(email)
  {
    if ValidateEmail(email) {
      EmailSound(email);
    }
    if EmailPattern(email) {
      var i, j :| 0 < i && i + 1 < j && j + 1 < |email| && email[i] == '@' && email[j] == '.'
        && Plain(email[..i]) && Plain(email[i + 1..j]) && Plain(email[j + 1..]);
      EmailComplete(email, i, j);
    }
  }

  /** What `validateEmail` accepts: no whitespace, exactly one `@`, a local part, and a dot inside the domain. */
  lemma EmailShape(email: string)
    ensures ValidateEmail(email) <==>
      (exists i :: 0 < i < |email| && email[i] == '@' && Plain(email[..i]) && Plain(email[i + 1..])
        && InnerDot(email[i + 1..]))
  {
    if exists i :: 0 < i < |email| && email[i] == '@' && Plain(email[..i]) && Plain(email[i + 1..])
        && InnerDot(email[i + 1..]) {
      var i :| 0 < i < |email| && email[i] == '@' && Plain(email[..i]) && Plain(email[i + 1..])
        && InnerDot(email[i + 1..]);
      FirstAt(email, i);
    }
  }

  /** In a string with one `@`, IndexOfChar finds it. */
  lemma FirstAt(email: string, i: nat)
    requires i < |email| && email[i] == '@' && Plain(email[..i]) && Plain(email[i + 1..])
    ensures IndexOfChar(email, '@') == Some(i)
  {
    assert forall k :: 0 <= k < i ==> email[k] != '@' by {
      forall k | 0 <= k < i ensures email[k] != '@' {
        assert email[k] == email[..i][k];
      }
    }
  }

  // ---------------------------------------------------------------------------
  // Versions: /^\d+\.\d+\.\d+(-[a-z0-9.]+)?(\+[a-z0-9.]+)?$/i

  /** The parts the regular expression splits a version into. */
  datatype Version = Version(major: string, minor: string, patch: string, pre: Option<string>, build: Option<string>)

  /** `[a-z0-9.]` under the `i` flag. */
  predicate TagChar(c: char) {
    IsLower(c) || IsUpper(c) || IsDigit(c) || c == '.'
  }

  predicate AllOf(s: string, f: char -> bool) {
    forall k :: 0 <= k < |s| ==> f(s[k])
  }

  predicate WellFormed(v: Version) {
    |v.major| > 0 && AllOf(v.major, IsDigit) && |v.minor| > 0 && AllOf(v.minor, IsDigit)
    && |v.patch| > 0 && AllOf(v.patch, IsDigit)
    && (v.pre.Some? ==> |v.pre.value| > 0 && AllOf(v.pre.value, TagChar))
    && (v.build.Some? ==> |v.build.value| > 0 && AllOf(v.build.value, TagChar))
  }

  function Tail(mark: string, part: Option<string>): string {
    if part.Some? then mark + part.value else ""
  }

  /** The string a version's parts spell. */
  function Show(v: Version): string {
    v.major + ("." + (v.minor + ("." + (v.patch + (Tail("-", v.pre) + Tail("+", v.build))))))
  }

  /** The length of the longest prefix of `s` whose characters satisfy `f`. */
  function Span(s: string, f: char -> bool): (n: nat)
    ensures n <= |s| && (forall k :: 0 <= k < n ==> f(s[k])) && (n < |s| ==> !f(s[n]))
  {
    if |s| == 0 || !f(s[0]) then 0 else 1 + Span(s[1..], f)
  }

  lemma {:induction false} SpanOf(p: string, rest: string, f: char -> bool)
    requires AllOf(p, f) && (|rest| > 0 ==> !f(rest[0]))
    ensures Span(p + rest, f) == |p|
    decreases |p|
  {
    if |p| > 0 {
      assert (p + rest)[0] == p[0];
      assert (p + rest)[1..] == p[1..] + rest;
      assert AllOf(p[1..], f) by {
        forall k | 0 <= k < |p| - 1 ensures f(p[1..][k]) { assert p[1..][k] == p[k + 1]; }
      }
      SpanOf(p[1..], rest, f);
    } else {
      assert p + rest == rest;
    }
  }

  /** A digit run followed by `.`: the run and what follows the dot. */
  function Number(s: string): Option<(string, string)> {
    var n := Span(s, IsDigit);
    if 0 < n < |s| && s[n] == '.' then Some((s[..n], s[n + 1..])) else None
  }

  /** What may follow the patch number: an optional `-` tag and then an optional `+` tag. */
  function Tags(s: string): Option<(Option<string>, Option<string>)> {
    if |s| == 0 then Some((None, None))
    else if s[0] == '+' then
      (if |s| > 1 && AllOf(s[1..], TagChar) then Some((None, Some(s[1..]))) else None)
    else if s[0] == '-' then
      var t := s[1..];
      var n := Span(t, TagChar);
      if n == 0 then None
      else if n == |t| then Some((Some(t), None))
      else if t[n] == '+' && n + 1 < |t| && AllOf(t[n + 1..], TagChar) then Some((Some(t[..n]), Some(t[n + 1..])))
      else None
    else None
  }

  /** The regular expression as a left-to-right reader: three numbers, then the tags. */
  function ParseVersion(s: string): Option<Version> {
    match Number(s)
    case None => None
    case Some((major, r1)) =>
      match Number(r1)
      case None => None
      case Some((minor, r2)) =>
        var n := Span(r2, IsDigit);
        if n == 0 then None
        else match Tags(r2[n..])
          case None => None
          case Some((pre, build)) => Some(Version(major, minor, r2[..n], pre, build))
  }

  /** `validateSemver`. */
  predicate ValidateSemver(version: string) {
    ParseVersion(version).Some?
  }

  lemma TagsOf(pre: Option<string>, build: Option<string>)
    requires pre.Some? ==> |pre.value| > 0 && AllOf(pre.value, TagChar)
    requires build.Some? ==> |build.value| > 0 && AllOf(build.value, TagChar)
    ensures Tags(Tail("-", pre) + Tail("+", build)) == Some((pre, build))
  {
    if pre.Some? {
      PreTagsOf(pre.value, build);
    } else if build.Some? {
      var s := "+" + build.value;
      assert Tail("-", pre) + Tail("+", build) == s;
      assert s[1..] == build.value;
    }
  }

  lemma PreTagsOf(pre: string, build: Option<string>)
    requires |pre| > 0 && AllOf(pre, TagChar)
    requires build.Some? ==> |build.value| > 0 && AllOf(build.value, TagChar)
    ensures Tags("-" + pre + Tail("+", build)) == Some((Some(pre), build))
  {
    var s := "-" + pre + Tail("+", build);
    var t := s[1..];
    assert t == pre + Tail("+", build);
    SpanOf(pre, Tail("+", build), TagChar);
    if build.Some? {
      assert t[..|pre|] == pre && t[|pre| + 1..] == build.value;
    } else {
      assert t == pre;
    }
  }

  /** Every well-formed version's string is read back into the same parts. */
  lemma ParseShow(v: Version)
    requires WellFormed(v)
    ensures ParseVersion(Show(v)) == Some(v)
  {
    var tags := Tail("-", v.pre) + Tail("+", v.build);
    var r2 := v.patch + tags;
    var r1 := v.minor + ("." + r2);
    NumberOfR(v.major, r1);
    NumberOfR(v.minor, r2);
    assert |tags| > 0 ==> tags[0] == '-' || tags[0] == '+';
    SpanOf(v.patch, tags, IsDigit);
    assert r2[..|v.patch|] == v.patch && r2[|v.patch|..] == tags;
    TagsOf(v.pre, v.build);
  }

  lemma NumberOfR(p: string, rest: string)
    requires |p| > 0 && AllOf(p, IsDigit)
    ensures Number(p + ("." + rest)) == Some((p, rest))
  {
    var s := p + ("." + rest);
    SpanOf(p, "." + rest, IsDigit);
    assert s[..|p|] == p && s[|p| + 1..] == rest;
  }

  /** `pre` and `build` are well-formed tags that spell `s`. */
  predicate TagsSpell(s: string, pre: Option<string>, build: Option<string>) {
    (pre.Some? ==> |pre.value| > 0 && AllOf(pre.value, TagChar))
    && (build.Some? ==> |build.value| > 0 && AllOf(build.value, TagChar))
    && Tail("-", pre) + Tail("+", build) == s
  }

  lemma TagsShowPre(t: string, n: nat)
    requires 0 < n < |t| - 1 && t[n] == '+'
    requires (forall k :: 0 <= k < n ==> TagChar(t[k])) && AllOf(t[n + 1..], TagChar)
    ensures TagsSpell("-" + t, Some(t[..n]), Some(t[n + 1..]))
  {
    SplitAtPlus(t, n);
    assert AllOf(t[..n], TagChar) by {
      forall k | 0 <= k < n ensures TagChar(t[..n][k]) { assert t[..n][k] == t[k]; }
    }
  }

  lemma SplitAtPlus(t: string, n: nat)
    requires n < |t| && t[n] == '+'
    ensures "-" + t[..n] + ("+" + t[n + 1..]) == "-" + t
  {
    assert t[n..] == "+" + t[n + 1..];
    assert t[..n] + t[n..] == t;
  }

  lemma TagsShow(s: string)
    requires Tags(s).Some?
    ensures TagsSpell(s, Tags(s).value.0, Tags(s).value.1)
  {
    if |s| > 0 && s[0] == '-' {
      var t := s[1..];
      var n := Span(t, TagChar);
      assert s == "-" + t;
      if n < |t| {
        TagsShowPre(t, n);
      }
    } else if |s| > 0 {
      assert s == "+" + s[1..];
    }
  }

  lemma NumberShow(s: string)
    requires Number(s).Some?
    ensures var (p, rest) := Number(s).value; |p| > 0 && AllOf(p, IsDigit) && s == p + ("." + rest)
  {
    var n := Span(s, IsDigit);
    assert AllOf(s[..n], IsDigit) by {
      forall k | 0 <= k < n ensures IsDigit(s[..n][k]) { assert s[..n][k] == s[k]; }
    }
    assert s == s[..n] + ("." + s[n + 1..]);
  }

  /** The part after the minor number: the patch digits and then the tags it was read as. */
  lemma PatchShow(r2: string)
    requires Span(r2, IsDigit) > 0 && Tags(r2[Span(r2, IsDigit)..]).Some?
    ensures var n := Span(r2, IsDigit); var (pre, build) := Tags(r2[n..]).value;
      AllOf(r2[..n], IsDigit)
      && (pre.Some? ==> |pre.value| > 0 && AllOf(pre.value, TagChar))
      && (build.Some? ==> |build.value| > 0 && AllOf(build.value, TagChar))
      && r2 == r2[..n] + (Tail("-", pre) + Tail("+", build))
  {
    var n := Span(r2, IsDigit);
    SpanPrefix(r2, IsDigit);
    TagsShow(r2[n..]);
    SplitAt(r2, n);
  }

  lemma SpanPrefix(s: string, f: char -> bool)
    ensures AllOf(s[..Span(s, f)], f)
  {
    var n := Span(s, f);
    forall k | 0 <= k < n ensures f(s[..n][k]) { assert s[..n][k] == s[k]; }
  }

  lemma SplitAt(s: string, n: nat)
    requires n <= |s|
    ensures s == s[..n] + s[n..]
  {
  }

  /** Whatever the reader accepts is well formed and spells the input. */
  lemma ShowParse(s: string)
    requires ParseVersion(s).Some?
    ensures WellFormed(ParseVersion(s).value) && Show(ParseVersion(s).value) == s
  {
    var (major, r1) := Number(s).value;
    NumberShow(s);
    var (minor, r2) := Number(r1).value;
    NumberShow(r1);
    PatchShow(r2);
  }

  /** `validateSemver` accepts exactly the strings some well-formed version spells. */
  lemma SemverMatches(version: string)
    ensures ValidateSemver(version) <==> exists v :: WellFormed(v) && Show(v) == version
  {
    if ValidateSemver(version) {
      ShowParse(version);
    }
    if exists v :: WellFormed(v) && Show(v) == version {
      var v :| WellFormed(v) && Show(v) == version;
      ParseShow(v);
    }
  }

  /** Unlike Semantic Versioning 2.0.0 (section 2), leading zeros pass. */
  lemma LeadingZerosAccepted()
    ensures ValidateSemver("01.02.003")
  {
    var v := Version("01", "02", "003", None, None);
    ParseShow(v);
    assert Show(v) == "01.02.003";
  }

  // ---------------------------------------------------------------------------
  // Validation results

  datatype ValidationError = ValidationError(path: string, message: string, code: Option<string>)

  datatype ValidationResult = ValidationResult(valid: bool, errors: seq<ValidationError>, warnings: seq<Json>)

  /** `createValidationResult(valid, errors = [], warnings = [])`: an omitted list is empty. */
  function CreateValidationResult(valid: bool, errors: Option<seq<ValidationError>>, warnings: Option<seq<Json>>): (r: ValidationResult)
    ensures r.valid == valid
    ensures r.errors == (if errors.Some? then errors.value else [])
    ensures r.warnings == (if warnings.Some? then warnings.value else [])
  {
    ValidationResult(valid, if errors.Some? then errors.value else [], if warnings.Some? then warnings.value else [])
  }
}
