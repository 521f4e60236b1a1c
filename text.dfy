/** String helpers with the meaning of the JavaScript string methods the source uses. */
module Text {
  import opened Wrappers

  predicate StartsWith(s: string, p: string) {
    |p| <= |s| && s[..|p|] == p
  }

  predicate EndsWith(s: string, p: string) {
    |p| <= |s| && s[|s| - |p|..] == p
  }

  /** `p` occurs in `s` starting at index `i`. */
  predicate OccursAt(s: string, p: string, i: nat) {
    i + |p| <= |s| && s[i..i + |p|] == p
  }


  /** `s.indexOf(p, from)`: the first occurrence of `p` at or after `from`. */
  function IndexOf(s: string, p: string, from: nat): (r: Option<nat>)
    ensures r.Some? ==> from <= r.value && OccursAt(s, p, r.value)
    ensures r.Some? ==> forall j: nat :: from <= j < r.value ==> !OccursAt(s, p, j)
    ensures r.None? ==> forall j: nat :: from <= j ==> !OccursAt(s, p, j)
    decreases |s| - from
  {
    if from + |p| > |s| then None
    else if OccursAt(s, p, from) then Some(from)
    else IndexOf(s, p, from + 1)
  }

  /** The first occurrence at or after `from` is what IndexOf finds. */
  lemma {:induction false} IndexOfFirst(s: string, p: string, from: nat, i: nat)
    requires from <= i && OccursAt(s, p, i)
    requires forall j: nat :: from <= j < i ==> !OccursAt(s, p, j)
    ensures IndexOf(s, p, from) == Some(i)
    decreases i - from
  {
    if from < i {
      IndexOfFirst(s, p, from + 1, i);
    }
  }

  /** `s.includes(p)`. */
  predicate Contains(s: string, p: string) {
    IndexOf(s, p, 0).Some?
  }

  lemma ContainsIff(s: string, p: string)
    ensures Contains(s, p) <==> exists i: nat :: OccursAt(s, p, i)
  {
    if Contains(s, p) {
      assert OccursAt(s, p, IndexOf(s, p, 0).value);
    }
  }

  /** `s.replace(p, rep)` with a string pattern: only the first occurrence is replaced. */
  function ReplaceFirst(s: string, p: string, rep: string): (r: string)
    ensures !Contains(s, p) ==> r == s
    ensures Contains(s, p) ==> exists i: nat ::
              && OccursAt(s, p, i)
              && (forall j: nat :: j < i ==> !OccursAt(s, p, j))
              && r == s[..i] + rep + s[i + |p|..]
  {
    match IndexOf(s, p, 0)
    case None => s
    case Some(i) => s[..i] + rep + s[i + |p|..]
  }

  /** A pattern found at the very start is the one replaced. */
  lemma ReplaceFirstAtStart(s: string, p: string, rep: string)
    requires OccursAt(s, p, 0)
    ensures ReplaceFirst(s, p, rep) == rep + s[|p|..]
  {
    IndexOfFirst(s, p, 0, 0);
    assert s[..0] + rep == rep;
  }

  /** `parts.join(sep)`. */
  function JoinWith(parts: seq<string>, sep: string): string
  {
    if |parts| == 0 then ""
    else if |parts| == 1 then parts[0]
    else parts[0] + sep + JoinWith(parts[1..], sep)
  }

  lemma {:induction false} JoinWithAppend(a: seq<string>, b: seq<string>, sep: string)
    requires |a| > 0 && |b| > 0
    ensures JoinWith(a + b, sep) == JoinWith(a, sep) + sep + JoinWith(b, sep)
  {
    if |a| == 1 {
      assert (a + b)[1..] == b;
    } else {
      assert (a + b)[1..] == a[1..] + b;
      JoinWithAppend(a[1..], b, sep);
    }
  }

  lemma JoinWithSnoc(a: seq<string>, x: string, sep: string)
    requires |a| > 0
    ensures JoinWith(a + [x], sep) == JoinWith(a, sep) + sep + x
  {
    JoinWithAppend(a, [x], sep);
    assert JoinWith([x], sep) == x;
  }

  /** The index of the first `c` in `s`, if any. */
  function IndexOfChar(s: string, c: char): (r: Option<nat>)
    ensures r.Some? ==> r.value < |s| && s[r.value] == c && c !in s[..r.value]
    ensures r.None? ==> c !in s
  {
    if |s| == 0 then None
    else if s[0] == c then Some(0)
    else match IndexOfChar(s[1..], c)
      case None => None
      case Some(i) =>
        assert s[..i + 1] == [s[0]] + s[1..][..i];
        Some(i + 1)
  }

  /** `s.split(c)` for a one-character separator. */
  function Split(s: string, c: char): (r: seq<string>)
    ensures |r| > 0
    ensures forall k :: 0 <= k < |r| ==> c !in r[k]
    decreases |s|
  {
    match IndexOfChar(s, c)
    case None => [s]
    case Some(i) => [s[..i]] + Split(s[i + 1..], c)
  }

  lemma {:induction false} JoinSplit(s: string, c: char)
    ensures JoinWith(Split(s, c), [c]) == s
    decreases |s|
  {
    match IndexOfChar(s, c)
    case None =>
    case Some(i) =>
      var rest := Split(s[i + 1..], c);
      JoinSplit(s[i + 1..], c);
      assert Split(s, c) == [s[..i]] + rest;
      JoinWithAppend([s[..i]], rest, [c]);
      assert s == s[..i] + [c] + s[i + 1..];
  }

  lemma {:induction false} SplitJoin(lines: seq<string>, c: char)
    requires |lines| > 0
    requires forall k :: 0 <= k < |lines| ==> c !in lines[k]
    ensures Split(JoinWith(lines, [c]), c) == lines
  {
    if |lines| == 1 {
      assert IndexOfChar(lines[0], c).None?;
    } else {
      var rest := JoinWith(lines[1..], [c]);
      assert JoinWith(lines, [c]) == lines[0] + [c] + rest;
      SplitCons(lines[0], c, rest);
      SplitJoin(lines[1..], c);
      assert [lines[0]] + lines[1..] == lines;
    }
  }

  /** A first part without `c`, followed by `c`, splits off as the first piece. */
  lemma SplitCons(head: string, c: char, tail: string)
    requires c !in head
    ensures Split(head + [c] + tail, c) == [head] + Split(tail, c)
  {
    var s := head + [c] + tail;
    HeadIndex(head, c, tail);
    assert s[|head| + 1..] == tail;
    assert s[..|head|] == head;
  }

  /** Lines without `c`, cut after `n` and followed by one more such line, split back after joining. */
  lemma SplitJoinPrefix(lines: seq<string>, n: nat, last: string, c: char)
    requires n <= |lines| && c !in last
    requires forall k :: 0 <= k < |lines| ==> c !in lines[k]
    ensures Split(JoinWith(lines[..n] + [last], [c]), c) == lines[..n] + [last]
  {
    var all := lines[..n] + [last];
    forall k | 0 <= k < |all| ensures c !in all[k] {
      if k < n {
        assert all[k] == lines[k];
      }
    }
    SplitJoin(all, c);
  }

  lemma {:induction false} HeadIndex(head: string, c: char, tail: string)
    requires c !in head
    ensures IndexOfChar(head + [c] + tail, c) == Some(|head|)
  {
    var s := head + [c] + tail;
    if |head| > 0 {
      assert s[0] == head[0];
      assert s[1..] == head[1..] + [c] + tail;
      HeadIndex(head[1..], c, tail);
    }
  }

  function LowerChar(c: char): char {
    if 'A' <= c <= 'Z' then (c as int + 32) as char else c
  }

  function UpperChar(c: char): char {
    if 'a' <= c <= 'z' then (c as int - 32) as char else c
  }

  predicate IsUpper(c: char) { 'A' <= c <= 'Z' }
  predicate IsLower(c: char) { 'a' <= c <= 'z' }
  predicate IsDigit(c: char) { '0' <= c <= '9' }

  /** `s.toLowerCase()` on ASCII letters. */
  function ToLower(s: string): (r: string)
    ensures |r| == |s|
    ensures forall k :: 0 <= k < |s| ==> r[k] == LowerChar(s[k])
  {
    if |s| == 0 then "" else [LowerChar(s[0])] + ToLower(s[1..])
  }

  /** `s.toUpperCase()` on ASCII letters. */
  function ToUpper(s: string): (r: string)
    ensures |r| == |s|
    ensures forall k :: 0 <= k < |s| ==> r[k] == UpperChar(s[k])
  {
    if |s| == 0 then "" else [UpperChar(s[0])] + ToUpper(s[1..])
  }

  /** `' '.repeat(n)`. */
  function Spaces(n: nat): (r: string)
    ensures |r| == n && forall k :: 0 <= k < n ==> r[k] == ' '
  {
    if n == 0 then "" else " " + Spaces(n - 1)
  }

  function DigitChar(d: nat): char
    requires d < 10
  {
    "0123456789"[d]
  }

  /** The decimal rendering of a count, as a template literal prints it. */
  function NatToString(n: nat): (r: string)
    ensures |r| > 0
    ensures forall k :: 0 <= k < |r| ==> IsDigit(r[k])
  {
    if n < 10 then [DigitChar(n)] else NatToString(n / 10) + [DigitChar(n % 10)]
  }

  /** Each digit's character, and back. */
  lemma DigitCharValue(d: nat)
    requires d < 10
    ensures IsDigit(DigitChar(d)) && DigitChar(d) as int - '0' as int == d
  {
    if d == 0 {} else if d == 1 {} else if d == 2 {} else if d == 3 {} else if d == 4 {}
    else if d == 5 {} else if d == 6 {} else if d == 7 {} else if d == 8 {} else {}
  }

  lemma CharDigitValue(c: char)
    requires IsDigit(c)
    ensures DigitChar(c as int - '0' as int) == c
  {
    var d := c as int - '0' as int;
    DigitCharValue(d);
    assert DigitChar(d) as int == c as int;
  }

  /** The value of a run of decimal digits. */
  function DigitsValue(s: string): nat
    requires forall k :: 0 <= k < |s| ==> IsDigit(s[k])
  {
    if |s| == 0 then 0
    else
      assert IsDigit(s[|s| - 1]);
      DigitsValue(s[..|s| - 1]) * 10 + (s[|s| - 1] as int - '0' as int)
  }

  /** Digits without a leading zero (a lone "0" aside): the form `String(n)` gives a count. */
  predicate CanonicalDigits(s: string) {
    |s| > 0 && (forall k :: 0 <= k < |s| ==> IsDigit(s[k])) && (|s| == 1 || s[0] != '0')
  }

  /**
   * The count an array index key names: JavaScript treats a property key as
   * an index exactly when it is the decimal rendering of a count.
   */
  function ParseIndex(s: string): (r: Option<nat>)
    ensures r.Some? ==> NatToString(r.value) == s
  {
    if CanonicalDigits(s) then
      DigitsRender(s);
      Some(DigitsValue(s))
    else None
  }

  lemma {:induction false} DigitsPositive(s: string)
    requires CanonicalDigits(s) && s[0] != '0'
    ensures DigitsValue(s) >= 1
    decreases |s|
  {
    if |s| > 1 {
      var init := s[..|s| - 1];
      assert init[0] == s[0];
      DigitsPositive(init);
    }
  }

  lemma {:induction false} DigitsRender(s: string)
    requires CanonicalDigits(s)
    ensures NatToString(DigitsValue(s)) == s
    decreases |s|
  {
    var last := s[|s| - 1];
    var d := last as int - '0' as int;
    CharDigitValue(last);
    if |s| == 1 {
      assert s[..0] == [];
      assert s == [last];
    } else {
      var init := s[..|s| - 1];
      assert init[0] == s[0];
      DigitsRender(init);
      DigitsPositive(init);
      var v := DigitsValue(s);
      assert v == DigitsValue(init) * 10 + d;
      assert v / 10 == DigitsValue(init) && v % 10 == d;
      assert s == init + [last];
    }
  }

  /** Reading the decimal rendering of a count gives the count back. */
  lemma ParseIndexRoundTrip(n: nat)
    ensures ParseIndex(NatToString(n)) == Some(n)
  {
    RenderCanonical(n);
    RenderValue(n);
  }

  lemma {:induction false} RenderCanonical(n: nat)
    ensures CanonicalDigits(NatToString(n))
    ensures n >= 1 ==> NatToString(n)[0] != '0'
    decreases n
  {
    if n < 10 {
      DigitCharValue(n);
    } else {
      RenderCanonical(n / 10);
      var init := NatToString(n / 10);
      assert NatToString(n)[0] == init[0];
    }
  }

  lemma {:induction false} RenderValue(n: nat)
    ensures DigitsValue(NatToString(n)) == n
    decreases n
  {
    var r := NatToString(n);
    DigitCharValue(n % 10);
    if n < 10 {
      assert r[..0] == [];
    } else {
      RenderValue(n / 10);
      assert r[..|r| - 1] == NatToString(n / 10) && r[|r| - 1] == DigitChar(n % 10);
    }
  }

  /** Removes `ext` from the end of `name` when `name` is longer than `ext` and ends with it. */
  function StripSuffix(name: string, ext: string): (r: string)
    ensures EndsWith(name, ext) && |name| > |ext| ==> r + ext == name
    ensures !(EndsWith(name, ext) && |name| > |ext|) ==> r == name
  {
    if EndsWith(name, ext) && |name| > |ext| then name[..|name| - |ext|] else name
  }
}
