/**
 * The template utilities: the case-conversion, list and indent helpers the
 * templates call, and the cache of compiled templates. Handlebars itself
 * (compiling a template text, applying it to data) is a parameter: `compile`
 * maps a template text to a compiled template, and `render` applies one.
 * Letters are ASCII letters; `toLowerCase`/`toUpperCase` on other characters
 * are not modelled.
 */
module Template {
  import opened Wrappers
  import opened Text
  import opened Seqs
  import opened FileSystem

  // ---------------------------------------------------------------------------
  // The building blocks of snake_case and UPPER_SNAKE_CASE

  /** `s.replace(/([A-Z])/g, '_$1')`: an underscore before every capital. */
  function MarkCapitals(s: string): (r: string)
    ensures |r| >= |s|
    ensures |s| > 0 && IsUpper(s[0]) ==> |r| >= 2 && r[..2] == "_" + [s[0]]
    ensures |s| > 0 && !IsUpper(s[0]) ==> |r| >= 1 && r[0] == s[0]
  {
    if |s| == 0 then ""
    else (if IsUpper(s[0]) then "_" + [s[0]] else [s[0]]) + MarkCapitals(s[1..])
  }

  /** `s.replace(/^_/, '')`: one leading underscore dropped. */
  function DropLeadingUnderscore(s: string): (r: string)
    ensures |s| > 0 && s[0] == '_' ==> r == s[1..]
    ensures !(|s| > 0 && s[0] == '_') ==> r == s
  {
    if |s| > 0 && s[0] == '_' then s[1..] else s
  }

  /** `s.replace(/-/g, '_')`. */
  function DashesToUnderscores(s: string): (r: string)
    ensures |r| == |s|
    ensures forall k :: 0 <= k < |s| ==> r[k] == if s[k] == '-' then '_' else s[k]
  {
    if |s| == 0 then "" else [if s[0] == '-' then '_' else s[0]] + DashesToUnderscores(s[1..])
  }

  predicate NoUpper(s: string) {
    forall k :: 0 <= k < |s| ==> !IsUpper(s[k])
  }

  predicate NoLower(s: string) {
    forall k :: 0 <= k < |s| ==> !IsLower(s[k])
  }

  predicate NoDash(s: string) {
    forall k :: 0 <= k < |s| ==> s[k] != '-'
  }

  // ---------------------------------------------------------------------------
  // snake_case

  /** The `snake_case` helper: every ASCII capital and every `-` becomes `_`-separated lower case. */
  function SnakeCase(s: string): (r: string)
    ensures NoDash(r) && NoUpper(r)
  {
    DashesToUnderscores(DropLeadingUnderscore(ToLower(MarkCapitals(s))))
  }

  /** What one character of the input contributes to snake_case. */
  function SnakeChar(c: char): string {
    if IsUpper(c) then "_" + [LowerChar(c)]
    else if c == '-' then "_"
    else [c]
  }

  function SnakeChars(s: string): (r: string)
    decreases |s|
  {
    if |s| == 0 then "" else SnakeChar(s[0]) + SnakeChars(s[1..])
  }

  /**
   * snake_case character by character: a leading `_` or the underscore before
   * a leading capital is dropped, but a leading `-` still becomes `_`, since
   * the dashes are replaced only after the leading underscore is stripped.
   */
  function SnakeSpec(s: string): string {
    if |s| == 0 then ""
    else if s[0] == '_' then SnakeChars(s[1..])
    else if IsUpper(s[0]) then [LowerChar(s[0])] + SnakeChars(s[1..])
    else SnakeChars(s)
  }

  /** The three string rewrites end in the character-by-character conversion. */
  lemma {:induction false} SnakeCharsRewrites(s: string)
    ensures DashesToUnderscores(ToLower(MarkCapitals(s))) == SnakeChars(s)
    decreases |s|
  {
    if |s| > 0 {
      SnakeCharsRewrites(s[1..]);
      var head := if IsUpper(s[0]) then "_" + [s[0]] else [s[0]];
      LowerAppend(head, MarkCapitals(s[1..]));
      DashesAppend(ToLower(head), ToLower(MarkCapitals(s[1..])));
      assert DashesToUnderscores(ToLower(head)) == SnakeChar(s[0]);
    }
  }

  lemma LowerAppend(a: string, b: string)
    ensures ToLower(a + b) == ToLower(a) + ToLower(b)
  {
    var l, r := ToLower(a + b), ToLower(a) + ToLower(b);
    forall k | 0 <= k < |l| ensures l[k] == r[k] {
      if k < |a| {
        assert (a + b)[k] == a[k];
      } else {
        assert (a + b)[k] == b[k - |a|];
      }
    }
  }

  lemma UpperAppend(a: string, b: string)
    ensures ToUpper(a + b) == ToUpper(a) + ToUpper(b)
  {
    var ua, ub := ToUpper(a), ToUpper(b);
    var l, r := ToUpper(a + b), ua + ub;
    forall k | 0 <= k < |l| ensures l[k] == r[k] {
      if k < |a| {
        assert (a + b)[k] == a[k] && r[k] == ua[k];
      } else {
        assert (a + b)[k] == b[k - |a|] && r[k] == ub[k - |a|];
      }
    }
    assert |l| == |r|;
  }

  lemma DashesAppend(a: string, b: string)
    ensures DashesToUnderscores(a + b) == DashesToUnderscores(a) + DashesToUnderscores(b)
  {
    var da, db := DashesToUnderscores(a), DashesToUnderscores(b);
    var l, r := DashesToUnderscores(a + b), da + db;
    forall k | 0 <= k < |l| ensures l[k] == r[k] {
      if k < |a| {
        assert (a + b)[k] == a[k] && r[k] == da[k];
      } else {
        assert (a + b)[k] == b[k - |a|] && r[k] == db[k - |a|];
      }
    }
    assert |l| == |r|;
  }

  /** snake_case agrees with its character-by-character description. */
  lemma SnakeCaseByCharacter(s: string)
    ensures SnakeCase(s) == SnakeSpec(s)
  {
    if |s| > 0 {
      var head := if IsUpper(s[0]) then "_" + [s[0]] else [s[0]];
      var m := MarkCapitals(s);
      assert m == head + MarkCapitals(s[1..]);
      LowerAppend(head, MarkCapitals(s[1..]));
      var lowered := ToLower(m);
      SnakeCharsRewrites(s[1..]);
      if s[0] == '_' || IsUpper(s[0]) {
        assert lowered[0] == '_';
        if s[0] == '_' {
          assert lowered[1..] == ToLower(MarkCapitals(s[1..]));
        } else {
          assert lowered[1..] == [LowerChar(s[0])] + ToLower(MarkCapitals(s[1..]));
          DashesAppend([LowerChar(s[0])], ToLower(MarkCapitals(s[1..])));
        }
      } else {
        SnakeCharsRewrites(s);
      }
    }
  }

  /** snake_case leaves words that are already lower case, dash-free and not `_`-led as they are. */
  lemma {:induction false} SnakeCaseFixed(s: string)
    requires NoUpper(s) && NoDash(s) && (|s| > 0 ==> s[0] != '_')
    ensures SnakeCase(s) == s
  {
    SnakeCaseByCharacter(s);
    SnakeCharsIdentity(s);
  }

  lemma {:induction false} SnakeCharsIdentity(s: string)
    requires NoUpper(s) && NoDash(s)
    ensures SnakeChars(s) == s
    decreases |s|
  {
    if |s| > 0 {
      assert NoUpper(s[1..]) && NoDash(s[1..]) by {
        forall k | 0 <= k < |s| - 1 ensures !IsUpper(s[1..][k]) && s[1..][k] != '-' {
          assert s[1..][k] == s[k + 1];
        }
      }
      SnakeCharsIdentity(s[1..]);
      assert s == [s[0]] + s[1..];
    }
  }

  /** A word that needs no change: lower case, without dashes. */
  predicate PlainWord(w: string) {
    NoUpper(w) && NoDash(w)
  }

  /**
   * snake_case is not idempotent: a leading dash survives as an underscore,
   * which a second pass strips like any leading underscore.
   */
  lemma SnakeCaseLeading(w: string)
    requires PlainWord(w)
    ensures SnakeCase("-" + w) == "_" + w
    ensures SnakeCase("_" + w) == w
  {
    SnakeCaseByCharacter("-" + w);
    SnakeCaseByCharacter("_" + w);
    SnakeCharsIdentity(w);
    assert ("-" + w)[1..] == w && ("_" + w)[1..] == w;
  }

  /** A capital inside a word starts a new `_`-separated word in lower case. */
  lemma SnakeCaseCapital(a: string, c: char, b: string)
    requires PlainWord(a) && PlainWord(b) && |a| > 0 && a[0] != '_' && IsLower(c)
    ensures SnakeCase(a + [UpperChar(c)] + b) == a + "_" + [c] + b
  {
    var s := a + ([UpperChar(c)] + b);
    assert s == a + [UpperChar(c)] + b;
    assert s[0] == a[0];
    SnakeCaseByCharacter(s);
    SnakeCharsAppend(a, [UpperChar(c)] + b);
    SnakeCharsIdentity(a);
    CapitalChars(c, b);
  }

  lemma CapitalChars(c: char, b: string)
    requires PlainWord(b) && IsLower(c)
    ensures SnakeChars([UpperChar(c)] + b) == "_" + [c] + b
  {
    assert ([UpperChar(c)] + b)[1..] == b;
    SnakeCharsIdentity(b);
  }

  lemma {:induction false} SnakeCharsAppend(a: string, b: string)
    ensures SnakeChars(a + b) == SnakeChars(a) + SnakeChars(b)
    decreases |a|
  {
    if |a| > 0 {
      assert (a + b)[0] == a[0] && (a + b)[1..] == a[1..] + b;
      SnakeCharsAppend(a[1..], b);
    } else {
      assert a + b == b;
    }
  }

  // ---------------------------------------------------------------------------
  // UPPER_SNAKE_CASE

  /** The `upper_snake_case` helper. */
  function UpperSnakeCase(s: string): (r: string)
    ensures NoDash(r) && NoLower(r)
  {
    DashesToUnderscores(DropLeadingUnderscore(ToUpper(MarkCapitals(s))))
  }

  /** UPPER_SNAKE_CASE is snake_case in capitals. */
  lemma UpperSnakeIsUpperSnake(s: string)
    ensures UpperSnakeCase(s) == ToUpper(SnakeCase(s))
  {
    var m := MarkCapitals(s);
    var l := ToLower(m);
    UpperDashes(DropLeadingUnderscore(l));
    UpperDrop(l);
    UpperLower(m);
  }

  lemma UpperLower(m: string)
    ensures ToUpper(ToLower(m)) == ToUpper(m)
  {
  }

  lemma UpperDrop(l: string)
    ensures ToUpper(DropLeadingUnderscore(l)) == DropLeadingUnderscore(ToUpper(l))
  {
    var u := ToUpper(l);
    assert |l| > 0 ==> (l[0] == '_' <==> u[0] == '_');
    if |l| > 0 && l[0] == '_' {
      assert ToUpper(l[1..]) == u[1..];
    }
  }

  lemma UpperDashes(x: string)
    ensures ToUpper(DashesToUnderscores(x)) == DashesToUnderscores(ToUpper(x))
  {
  }

  // ---------------------------------------------------------------------------
  // camelCase and PascalCase

  /** `s.replace(/-([a-z])/g, g => g[1].toUpperCase())`, scanning left to right. */
  function CamelCase(s: string): (r: string)
    ensures |r| <= |s|
    ensures |s| > 0 ==> |r| > 0 && r[0] == CamelHead(s)
    decreases |s|
  {
    if |s| == 0 then ""
    else if |s| >= 2 && s[0] == '-' && IsLower(s[1]) then [UpperChar(s[1])] + CamelCase(s[2..])
    else [s[0]] + CamelCase(s[1..])
  }

  function CamelHead(s: string): char
    requires |s| > 0
  {
    if |s| >= 2 && s[0] == '-' && IsLower(s[1]) then UpperChar(s[1]) else s[0]
  }

  /** No dash is directly followed by a lower-case letter. */
  predicate NoDashLower(s: string) {
    forall k :: 0 <= k < |s| - 1 && s[k] == '-' ==> !IsLower(s[k + 1])
  }

  /** camelCase leaves no dash before a lower-case letter. */
  lemma {:induction false} CamelNoDashLower(s: string)
    ensures NoDashLower(CamelCase(s))
    decreases |s|
  {
    if |s| >= 2 && s[0] == '-' && IsLower(s[1]) {
      CamelNoDashLower(s[2..]);
      ConsNoDashLower(UpperChar(s[1]), CamelCase(s[2..]));
    } else if |s| > 0 {
      CamelNoDashLower(s[1..]);
      ConsNoDashLower(s[0], CamelCase(s[1..]));
    }
  }

  lemma ConsNoDashLower(c: char, t: string)
    requires NoDashLower(t)
    requires c == '-' && |t| > 0 ==> !IsLower(t[0])
    ensures NoDashLower([c] + t)
  {
    var s := [c] + t;
    forall k | 0 <= k < |s| - 1 && s[k] == '-' ensures !IsLower(s[k + 1]) {
      assert s[k + 1] == t[k];
      if k > 0 {
        assert s[k] == t[k - 1];
      }
    }
  }

  /** camelCase changes nothing in a string with no dash before a lower-case letter. */
  lemma {:induction false} CamelFixed(s: string)
    requires NoDashLower(s)
    ensures CamelCase(s) == s
    decreases |s|
  {
    if |s| > 0 {
      assert NoDashLower(s[1..]) by {
        forall k | 0 <= k < |s| - 2 && s[1..][k] == '-' ensures !IsLower(s[1..][k + 1]) {
          assert s[1..][k] == s[k + 1] && s[1..][k + 1] == s[k + 2];
        }
      }
      CamelFixed(s[1..]);
    }
  }

  /** Converting to camelCase twice is the same as once. */
  lemma CamelIdempotent(s: string)
    ensures CamelCase(CamelCase(s)) == CamelCase(s)
  {
    CamelNoDashLower(s);
    CamelFixed(CamelCase(s));
  }

  /** The reverse conversion: every capital becomes `-` and its lower-case letter. */
  function Kebab(s: string): (r: string)
    decreases |s|
  {
    if |s| == 0 then ""
    else (if IsUpper(s[0]) then "-" + [LowerChar(s[0])] else [s[0]]) + Kebab(s[1..])
  }

  /** Lower-case text in which every dash starts a new lower-case word. */
  predicate DashedWords(s: string) {
    NoUpper(s) && forall k :: 0 <= k < |s| && s[k] == '-' ==> k + 1 < |s| && IsLower(s[k + 1])
  }

  /** Undoing camelCase gives back the dashed words. */
  lemma {:induction false} KebabCamel(s: string)
    requires DashedWords(s)
    ensures Kebab(CamelCase(s)) == s
    decreases |s|
  {
    if |s| > 0 {
      var k := if s[0] == '-' then 2 else 1;
      DashedWordsSuffix(s, k);
      KebabCamel(s[k..]);
      if s[0] == '-' {
        KebabCamelDash(s);
      } else {
        assert s == [s[0]] + s[1..];
      }
    }
  }

  /** A dash and its lower-case letter come back from the capital camelCase made of them. */
  lemma KebabCamelDash(s: string)
    requires DashedWords(s) && |s| > 0 && s[0] == '-' && Kebab(CamelCase(s[2..])) == s[2..]
    ensures Kebab(CamelCase(s)) == s
  {
    assert CamelCase(s) == [UpperChar(s[1])] + CamelCase(s[2..]);
    assert s == "-" + [s[1]] + s[2..];
  }

  /** Every tail of dashed words is dashed words. */
  lemma DashedWordsSuffix(s: string, k: nat)
    requires DashedWords(s) && k <= |s|
    ensures DashedWords(s[k..])
  {
    forall j | 0 <= j < |s| - k
      ensures !IsUpper(s[k..][j])
      ensures s[k..][j] == '-' ==> j + 1 < |s| - k && IsLower(s[k..][j + 1])
    {
      assert s[k..][j] == s[j + k];
      if j + 1 < |s| - k {
        assert s[k..][j + 1] == s[j + k + 1];
      }
    }
  }

  /** camelCase undoes the reverse conversion on text without dashes. */
  lemma {:induction false} CamelKebab(t: string)
    requires NoDash(t)
    ensures CamelCase(Kebab(t)) == t
    decreases |t|
  {
    if |t| > 0 {
      assert NoDash(t[1..]) by {
        forall j | 0 <= j < |t| - 1 ensures t[1..][j] != '-' { assert t[1..][j] == t[j + 1]; }
      }
      CamelKebab(t[1..]);
      var rest := Kebab(t[1..]);
      if IsUpper(t[0]) {
        var s := "-" + [LowerChar(t[0])] + rest;
        assert s[2..] == rest;
      } else {
        var s := [t[0]] + rest;
        assert s[1..] == rest;
      }
      assert t == [t[0]] + t[1..];
    }
  }

  /** The `pascal_case` helper: camelCase with the first character in upper case. */
  function PascalCase(s: string): (r: string)
    ensures |r| == |CamelCase(s)|
    ensures |r| > 0 ==> r[0] == UpperChar(CamelCase(s)[0]) && r[1..] == CamelCase(s)[1..]
  {
    var camel := CamelCase(s);
    if |camel| == 0 then "" else [UpperChar(camel[0])] + camel[1..]
  }

  /** PascalCase leaves no dash before a lower-case letter and does not start with one. */
  lemma PascalShape(s: string)
    ensures NoDashLower(PascalCase(s))
    ensures |PascalCase(s)| > 0 ==> !IsLower(PascalCase(s)[0])
  {
    var c := CamelCase(s);
    CamelNoDashLower(s);
    if |c| > 0 {
      assert NoDashLower(c[1..]) by {
        forall k | 0 <= k < |c| - 2 && c[1..][k] == '-' ensures !IsLower(c[1..][k + 1]) {
          assert c[1..][k] == c[k + 1] && c[1..][k + 1] == c[k + 2];
        }
      }
      ConsNoDashLower(UpperChar(c[0]), c[1..]);
      assert PascalCase(s) == [UpperChar(c[0])] + c[1..];
    }
  }

  /** Converting to PascalCase twice is the same as once. */
  lemma PascalIdempotent(s: string)
    ensures PascalCase(PascalCase(s)) == PascalCase(s)
  {
    var p := PascalCase(s);
    PascalShape(s);
    CamelFixed(p);
    if |p| > 0 {
      assert p == [p[0]] + p[1..];
    }
  }

  // ---------------------------------------------------------------------------
  // python_list

  function Quote(s: string): string {
    "\"" + s + "\""
  }

  /** `arr.map(s => `"${s}"`)`. */
  function QuoteAll(items: seq<string>): (r: seq<string>)
    ensures |r| == |items|
  {
    if |items| == 0 then [] else [Quote(items[0])] + QuoteAll(items[1..])
  }

  /** The `python_list` helper: `[` and the double-quoted items separated by `, ` and `]`. */
  function PythonList(items: seq<string>): (r: string)
    ensures |r| >= 2 && r[0] == '[' && r[|r| - 1] == ']'
  {
    "[" + JoinWith(QuoteAll(items), ", ") + "]"
  }

  /** Reads quoted items separated by `, `, the inverse of the list body. */
  function ReadItems(s: string): Option<seq<string>>
    decreases |s|
  {
    if |s| == 0 || s[0] != '"' then None
    else match IndexOfChar(s[1..], '"')
      case None => None
      case Some(j) =>
        var rest := s[j + 2..];
        if |rest| == 0 then Some([s[1..][..j]])
        else if |rest| >= 2 && rest[..2] == ", " then
          match ReadItems(rest[2..])
          case None => None
          case Some(more) => Some([s[1..][..j]] + more)
        else None
  }

  /** Reads a `python_list` rendering back into its items. */
  function ReadPythonList(s: string): Option<seq<string>> {
    if |s| >= 2 && s[0] == '[' && s[|s| - 1] == ']' then
      var body := s[1..|s| - 1];
      if |body| == 0 then Some([]) else ReadItems(body)
    else None
  }

  predicate NoQuotes(items: seq<string>) {
    forall i :: 0 <= i < |items| ==> '"' !in items[i]
  }

  lemma QuotedHead(x: string, tail: string)
    requires '"' !in x
    ensures var s := Quote(x) + tail;
      IndexOfChar(s[1..], '"') == Some(|x|) && s[1..][..|x|] == x && s[|x| + 2..] == tail
  {
    var s := Quote(x) + tail;
    assert s[1..] == x + ['"'] + tail;
    HeadIndex(x, '"', tail);
  }

  lemma ReadItemsLast(x: string)
    requires '"' !in x
    ensures ReadItems(Quote(x)) == Some([x])
  {
    QuotedHead(x, "");
    assert Quote(x) + "" == Quote(x);
  }

  lemma ReadItemsCons(x: string, tail: string)
    requires '"' !in x
    ensures ReadItems(Quote(x) + (", " + tail)) ==
      if ReadItems(tail).Some? then Some([x] + ReadItems(tail).value) else None
  {
    QuotedHead(x, ", " + tail);
    assert (", " + tail)[..2] == ", " && (", " + tail)[2..] == tail;
  }

  lemma JoinQuotedCons(items: seq<string>)
    requires |items| > 1
    ensures JoinWith(QuoteAll(items), ", ") == Quote(items[0]) + (", " + JoinWith(QuoteAll(items[1..]), ", "))
  {
  }

  lemma {:induction false} ReadItemsJoin(items: seq<string>)
    requires |items| > 0 && NoQuotes(items)
    ensures ReadItems(JoinWith(QuoteAll(items), ", ")) == Some(items)
    decreases |items|
  {
    var q := QuoteAll(items);
    if |items| == 1 {
      ReadItemsLast(items[0]);
      assert JoinWith(q, ", ") == Quote(items[0]);
      assert items == [items[0]];
    } else {
      assert NoQuotes(items[1..]) by {
        forall i | 0 <= i < |items| - 1 ensures '"' !in items[1..][i] { assert items[1..][i] == items[i + 1]; }
      }
      ReadItemsJoin(items[1..]);
      ReadItemsJoinCons(items);
    }
  }

  /** The first item is read off the front of the rendering, the rest as before. */
  lemma ReadItemsJoinCons(items: seq<string>)
    requires |items| > 1 && NoQuotes(items)
    requires ReadItems(JoinWith(QuoteAll(items[1..]), ", ")) == Some(items[1..])
    ensures ReadItems(JoinWith(QuoteAll(items), ", ")) == Some(items)
  {
    JoinQuotedCons(items);
    ReadItemsCons(items[0], JoinWith(QuoteAll(items[1..]), ", "));
    assert items == [items[0]] + items[1..];
  }

  /** A list whose items contain no double quote is read back from its rendering. */
  lemma PythonListReadBack(items: seq<string>)
    requires NoQuotes(items)
    ensures ReadPythonList(PythonList(items)) == Some(items)
  {
    var s := PythonList(items);
    var body := JoinWith(QuoteAll(items), ", ");
    assert s[1..|s| - 1] == body;
    if |items| > 0 {
      ReadItemsJoin(items);
      assert body[0] == '"';
    }
  }

  /** An empty list renders as `[]`. */
  lemma PythonListEmpty()
    ensures PythonList([]) == "[]"
  {
    assert QuoteAll([]) == [];
  }

  // ---------------------------------------------------------------------------
  // indent

  function Prefixed(indent: string, lines: seq<string>): (r: seq<string>)
    ensures |r| == |lines| && forall i :: 0 <= i < |lines| ==> r[i] == indent + lines[i]
  {
    MapSeq(lines, (line: string) => indent + line)
  }

  /**
   * The `indent` helper: every `\n`-separated line prefixed with `spaces`
   * blanks. A negative count makes `repeat` throw a RangeError.
   */
  function Indent(text: string, spaces: int): (r: Result<string>)
    ensures r.Err? <==> spaces < 0
  {
    if spaces < 0 then Err("RangeError: Invalid count value")
    else Ok(JoinWith(Prefixed(Spaces(spaces), Split(text, '\n')), "\n"))
  }

  /** Indenting keeps the lines: the same number, each one the blanks and the original line. */
  lemma IndentLines(text: string, n: nat)
    ensures Split(Indent(text, n).value, '\n') == Prefixed(Spaces(n), Split(text, '\n'))
    ensures |Split(Indent(text, n).value, '\n')| == |Split(text, '\n')|
  {
    var lines := Split(text, '\n');
    var p := Prefixed(Spaces(n), lines);
    forall i | 0 <= i < |p| ensures '\n' !in p[i] {
      assert p[i] == Spaces(n) + lines[i];
    }
    SplitJoin(p, '\n');
  }

  /** Indenting by zero gives the text back. */
  lemma IndentZero(text: string)
    ensures Indent(text, 0) == Ok(text)
  {
    var lines := Split(text, '\n');
    var p := Prefixed(Spaces(0), lines);
    assert forall i :: 0 <= i < |lines| ==> p[i] == "" + lines[i] == lines[i];
    assert p == lines;
    JoinSplit(text, '\n');
  }

  // ---------------------------------------------------------------------------
  // The compiled-template cache

  /** `templateCache`: compiled templates by file path. */
  class TemplateCache<T> {
    var cache: map<string, T>

    /** The empty cache at module load. */
    constructor()
      ensures cache == map[]
    {
      cache := map[];
    }

    /**
     * `loadTemplate(filePath)`: a path already loaded is answered from the
     * cache without reading; otherwise the file is read, compiled and cached.
     * None when the read fails, which leaves the cache as it was.
     */
    method LoadTemplate(fs: Snapshot, path: string, compile: string -> T) returns (r: Option<T>)
      modifies this
      ensures path in old(cache) ==> r == Some(old(cache)[path]) && cache == old(cache)
      ensures path !in old(cache) && ReadFile(fs, path).None? ==> r.None? && cache == old(cache)
      ensures path !in old(cache) && ReadFile(fs, path).Some? ==>
        r == Some(compile(ReadFile(fs, path).value)) && cache == old(cache)[path := r.value]
    {
      if path in cache {
        return Some(cache[path]);
      }
      var content := ReadFile(fs, path);
      if content.None? {
        return None;
      }
      var compiled := compile(content.value);
      cache := cache[path := compiled];
      r := Some(compiled);
    }

    /** `renderTemplateFile(filePath, data)`: load (through the cache), then render. */
    method RenderTemplateFile<D>(fs: Snapshot, path: string, compile: string -> T, render: (T, D) -> string, data: D)
      returns (r: Option<string>)
      modifies this
      ensures path in old(cache) ==> r == Some(render(old(cache)[path], data)) && cache == old(cache)
      ensures path !in old(cache) && ReadFile(fs, path).None? ==> r.None? && cache == old(cache)
      ensures path !in old(cache) && ReadFile(fs, path).Some? ==>
        var t := compile(ReadFile(fs, path).value);
        r == Some(render(t, data)) && cache == old(cache)[path := t]
    {
      var t := LoadTemplate(fs, path, compile);
      if t.None? {
        return None;
      }
      r := Some(render(t.value, data));
    }

    /** `clearTemplateCache()`. */
    method ClearTemplateCache()
      modifies this
      ensures cache == map[]
    {
      cache := map[];
    }
  }

  /** A second load of the same path returns the first result, whatever the file holds by then. */
  method LoadTwice<T>(c: TemplateCache<T>, fs1: Snapshot, fs2: Snapshot, path: string, compile: string -> T)
    returns (a: Option<T>, b: Option<T>)
    modifies c
    ensures a.Some? ==> b == a
  {
    a := c.LoadTemplate(fs1, path, compile);
    b := c.LoadTemplate(fs2, path, compile);
  }
}
