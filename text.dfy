/**
 * The JavaScript string operations the application relies on, over Dafny
 * strings (sequences of Unicode scalar values): searching, splitting,
 * first-occurrence replacement, decimal printing and parsing, padding,
 * ASCII lower-casing and UTF-16 length.
 */
module Text {
  import opened Wrappers

  /** `s.startsWith(prefix)` */
  predicate StartsWith(s: string, prefix: string) {
    |prefix| <= |s| && s[..|prefix|] == prefix
  }

  /** `pat` occurs in `s` starting at index `i`. */
  predicate OccursAt(s: string, pat: string, i: nat) {
    i + |pat| <= |s| && s[i..i + |pat|] == pat
  }

  lemma OccursAtShift(s: string, pat: string)
    requires s != []
    ensures forall j: nat :: 1 <= j ==> OccursAt(s, pat, j) == OccursAt(s[1..], pat, j - 1)
  {
    forall j: nat | 1 <= j
      ensures OccursAt(s, pat, j) == OccursAt(s[1..], pat, j - 1)
    {
      if j + |pat| <= |s| {
        assert s[1..][j - 1..j - 1 + |pat|] == s[j..j + |pat|];
      }
    }
  }

  /** `s.indexOf(pat)`: the first index at which `pat` occurs, if any. */
  function IndexOf(s: string, pat: string): (r: Option<nat>)
    ensures r.Some? ==> OccursAt(s, pat, r.value)
    ensures r.Some? ==> forall j: nat :: j < r.value ==> !OccursAt(s, pat, j)
    ensures r.None? ==> forall j: nat :: !OccursAt(s, pat, j)
    decreases |s|
  {
    if OccursAt(s, pat, 0) then Some(0)
    else if s == [] then None
    else
      OccursAtShift(s, pat);
      match IndexOf(s[1..], pat)
      case None => None
      case Some(i) => Some(i + 1)
  }

  /** `s.includes(pat)` */
  predicate Contains(s: string, pat: string) {
    IndexOf(s, pat).Some?
  }

  /** The first occurrence is at the end of `pre` when no occurrence starts inside `pre`. */
  lemma IndexOfAfter(pre: string, pat: string, post: string)
    requires forall j: nat :: j < |pre| ==> !OccursAt(pre + pat + post, pat, j)
    ensures IndexOf(pre + pat + post, pat) == Some(|pre|)
  {
    var s := pre + pat + post;
    assert s[|pre|..|pre| + |pat|] == pat;
    assert OccursAt(s, pat, |pre|);
  }

  /** An occurrence that starts inside `pre` lies inside `pre` followed by all but the last character of `pat`. */
  lemma NoOccurrenceBefore(pre: string, pat: string, post: string)
    requires pat != []
    requires !Contains(pre + pat[..|pat| - 1], pat)
    ensures forall j: nat :: j < |pre| ==> !OccursAt(pre + pat + post, pat, j)
  {
    var s := pre + pat + post;
    var t := pre + pat[..|pat| - 1];
    forall j: nat | j < |pre|
      ensures !OccursAt(s, pat, j)
    {
      if OccursAt(s, pat, j) {
        assert t[j..j + |pat|] == s[j..j + |pat|];
        assert OccursAt(t, pat, j);
      }
    }
  }

  /** `s.split(sep)` for a non-empty separator. */
  function Split(s: string, sep: string): (r: seq<string>)
    requires sep != []
    ensures |r| >= 1
    ensures |r| == 1 <==> IndexOf(s, sep).None?
    decreases |s|
  {
    match IndexOf(s, sep)
    case None => [s]
    case Some(i) => [s[..i]] + Split(s[i + |sep|..], sep)
  }

  /** Splitting at the first occurrence: the text before it, then the split of the text after it. */
  lemma SplitFirst(pre: string, sep: string, post: string)
    requires sep != []
    requires forall j: nat :: j < |pre| ==> !OccursAt(pre + sep + post, sep, j)
    ensures Split(pre + sep + post, sep) == [pre] + Split(post, sep)
  {
    IndexOfAfter(pre, sep, post);
    var s := pre + sep + post;
    assert s[..|pre|] == pre;
    assert s[|pre| + |sep|..] == post;
  }

  lemma NoCharOccurrence(s: string, c: char)
    requires c !in s
    ensures !Contains(s, [c])
  {
    forall j: nat | j + 1 <= |s|
      ensures !OccursAt(s, [c], j)
    {
      assert s[j] in s;
      assert s[j..j + 1] == [s[j]];
    }
  }

  /** A string without the separator character splits to itself. */
  lemma SplitWithout(s: string, c: char)
    requires c !in s
    ensures Split(s, [c]) == [s]
  {
    NoCharOccurrence(s, c);
  }

  /** Splitting on a character at its first occurrence. */
  lemma SplitAtChar(a: string, c: char, b: string)
    requires c !in a
    ensures Split(a + [c] + b, [c]) == [a] + Split(b, [c])
  {
    forall j: nat | j < |a|
      ensures !OccursAt(a + [c] + b, [c], j)
    {
      assert (a + [c] + b)[j] == a[j];
    }
    SplitFirst(a, [c], b);
  }

  /** `parts.join(sep)` */
  function Join(parts: seq<string>, sep: string): string
    requires |parts| >= 1
    decreases |parts|
  {
    if |parts| == 1 then parts[0] else parts[0] + sep + Join(parts[1..], sep)
  }

  /** Splitting a join of separator-free parts on that separator gives the parts back. */
  lemma {:induction false} SplitJoin(parts: seq<string>, c: char)
    requires |parts| >= 1
    requires forall i :: 0 <= i < |parts| ==> c !in parts[i]
    ensures Split(Join(parts, [c]), [c]) == parts
    decreases |parts|
  {
    if |parts| == 1 {
      SplitWithout(parts[0], c);
    } else {
      SplitJoin(parts[1..], c);
      SplitAtChar(parts[0], c, Join(parts[1..], [c]));
      assert parts == [parts[0]] + parts[1..];
    }
  }

  /** No occurrence of `pat` can start inside a prefix that lacks the first character of `pat`. */
  lemma NoOccurrenceWithoutHead(pre: string, pat: string, post: string)
    requires pat != [] && pat[0] !in pre
    ensures forall j: nat :: j < |pre| ==> !OccursAt(pre + pat + post, pat, j)
  {
    var s := pre + pat + post;
    forall j: nat | j < |pre|
      ensures !OccursAt(s, pat, j)
    {
      assert s[j] == pre[j];
      assert pre[j] in pre;
    }
  }

  /** A string that lacks the first character of `pat` does not contain `pat`. */
  lemma NotContainsWithoutHead(s: string, pat: string)
    requires pat != [] && pat[0] !in s
    ensures !Contains(s, pat)
    ensures Split(s, pat) == [s]
  {
    forall j: nat | j + |pat| <= |s|
      ensures !OccursAt(s, pat, j)
    {
      assert s[j] in s;
      assert s[j..j + |pat|][0] == s[j];
    }
  }

  /**
   * The text `String.prototype.replace` inserts for a string pattern: the
   * replacement with `$$`, `$&`, `` $` `` and `$'` expanded (a string
   * pattern has no capture groups, so every other `$` stays literal).
   */
  function Substitution(matched: string, before: string, after: string, template: string): string
    decreases |template|
  {
    if template == [] then []
    else if template[0] == '$' && |template| >= 2 && template[1] == '$' then
      "$" + Substitution(matched, before, after, template[2..])
    else if template[0] == '$' && |template| >= 2 && template[1] == '&' then
      matched + Substitution(matched, before, after, template[2..])
    else if template[0] == '$' && |template| >= 2 && template[1] == '`' then
      before + Substitution(matched, before, after, template[2..])
    else if template[0] == '$' && |template| >= 2 && template[1] == '\'' then
      after + Substitution(matched, before, after, template[2..])
    else
      [template[0]] + Substitution(matched, before, after, template[1..])
  }

  /** A replacement without `$` is inserted verbatim. */
  lemma {:induction false} SubstitutionPlain(matched: string, before: string, after: string, template: string)
    requires '$' !in template
    ensures Substitution(matched, before, after, template) == template
    decreases |template|
  {
    if template != [] {
      assert template[0] != '$';
      assert '$' !in template[1..];
      SubstitutionPlain(matched, before, after, template[1..]);
      assert template == [template[0]] + template[1..];
    }
  }

  /** `s.replace(pat, replacement)` with a string pattern: only the first occurrence is replaced. */
  function ReplaceFirst(s: string, pat: string, replacement: string): (r: string)
    ensures IndexOf(s, pat).None? ==> r == s
  {
    match IndexOf(s, pat)
    case None => s
    case Some(i) => s[..i] + Substitution(pat, s[..i], s[i + |pat|..], replacement) + s[i + |pat|..]
  }

  /** Replacing the first occurrence keeps the text before it and everything after it. */
  lemma ReplaceFirstAt(pre: string, pat: string, post: string, value: string)
    requires '$' !in value
    requires forall j: nat :: j < |pre| ==> !OccursAt(pre + pat + post, pat, j)
    ensures ReplaceFirst(pre + pat + post, pat, value) == pre + value + post
  {
    var s := pre + pat + post;
    IndexOfAfter(pre, pat, post);
    assert s[..|pre|] == pre;
    assert s[|pre| + |pat|..] == post;
    SubstitutionPlain(pat, pre, post, value);
  }

  predicate IsDigit(c: char) {
    '0' <= c <= '9'
  }

  predicate AllDigits(s: string) {
    forall i :: 0 <= i < |s| ==> IsDigit(s[i])
  }

  function DigitChar(d: nat): (c: char)
    requires d < 10
    ensures IsDigit(c) && c as int - '0' as int == d
  {
    ('0' as int + d) as char
  }

  /** The number a string of decimal digits denotes (leading zeros allowed). */
  function DigitsValue(s: string): nat
    requires AllDigits(s)
    decreases |s|
  {
    if s == [] then 0
    else DigitsValue(s[..|s| - 1]) * 10 + (s[|s| - 1] as int - '0' as int)
  }

  /** `n.toString()` for a non-negative integer. */
  function DecimalString(n: nat): (r: string)
    ensures |r| >= 1 && AllDigits(r)
    ensures DigitsValue(r) == n
    ensures r[0] == '0' ==> n == 0
    ensures n < 10 <==> |r| == 1
    ensures n < 100 ==> |r| <= 2
    decreases n
  {
    if n < 10 then [DigitChar(n)]
    else
      var r := DecimalString(n / 10) + [DigitChar(n % 10)];
      assert r[..|r| - 1] == DecimalString(n / 10);
      r
  }

  /** Leading zeros do not change the value of a digit string. */
  lemma {:induction false} DigitsValueLeadingZeros(zeros: string, s: string)
    requires forall i :: 0 <= i < |zeros| ==> zeros[i] == '0'
    requires AllDigits(s)
    ensures AllDigits(zeros + s) && DigitsValue(zeros + s) == DigitsValue(s)
    decreases |zeros| + |s|
  {
    assert AllDigits(zeros + s);
    if s == [] {
      assert zeros + s == zeros;
      if zeros != [] {
        DigitsValueLeadingZeros(zeros[..|zeros| - 1], []);
        assert zeros[..|zeros| - 1] + [] == zeros[..|zeros| - 1];
      }
    } else {
      var t := zeros + s;
      assert t[..|t| - 1] == zeros + s[..|s| - 1];
      DigitsValueLeadingZeros(zeros, s[..|s| - 1]);
    }
  }

  /** `s.padStart(width, fill)` with a one-character fill. */
  function PadStart(s: string, width: nat, fill: char): (r: string)
    ensures |r| == if |s| >= width then |s| else width
    ensures r[|r| - |s|..] == s
    ensures forall i :: 0 <= i < |r| - |s| ==> r[i] == fill
  {
    if |s| >= width then s else seq(width - |s|, _ => fill) + s
  }

  /** The characters `parseInt` skips before a number (ECMAScript white space and line terminators). */
  predicate IsJsWhiteSpace(c: char) {
    c == '\t' || c == '\n' || c == '\U{000B}' || c == '\U{000C}' || c == '\r' || c == ' '
    || c == '\U{00A0}' || c == '\U{1680}' || ('\U{2000}' <= c <= '\U{200A}')
    || c == '\U{2028}' || c == '\U{2029}' || c == '\U{202F}' || c == '\U{205F}'
    || c == '\U{3000}' || c == '\U{FEFF}'
  }

  function TrimStart(s: string): (r: string)
    ensures r == [] || !IsJsWhiteSpace(r[0])
    decreases |s|
  {
    if s != [] && IsJsWhiteSpace(s[0]) then TrimStart(s[1..]) else s
  }

  /** The longest prefix of decimal digits. */
  function LeadingDigits(s: string): (r: string)
    ensures AllDigits(r) && |r| <= |s| && r == s[..|r|]
    ensures |r| < |s| ==> !IsDigit(s[|r|])
    decreases |s|
  {
    if s != [] && IsDigit(s[0]) then [s[0]] + LeadingDigits(s[1..]) else []
  }

  /** `parseInt(s, 10)`; `None` stands for `NaN`. */
  function ParseInt(s: string): Option<int> {
    var t := TrimStart(s);
    var unsigned := if t != [] && (t[0] == '-' || t[0] == '+') then t[1..] else t;
    var digits := LeadingDigits(unsigned);
    var value: int := DigitsValue(digits);
    if digits == [] then None
    else if t[0] == '-' then Some(-value)
    else Some(value)
  }

  lemma {:induction false} LeadingDigitsOfDigits(s: string)
    requires AllDigits(s)
    ensures LeadingDigits(s) == s
    decreases |s|
  {
    if s != [] {
      LeadingDigitsOfDigits(s[1..]);
      assert s == [s[0]] + s[1..];
    }
  }

  /** `parseInt` reads back what `toString` printed. */
  lemma ParseIntDecimal(n: nat)
    ensures ParseInt(DecimalString(n)) == Some(n)
  {
    var s := DecimalString(n);
    assert !IsJsWhiteSpace(s[0]);
    assert TrimStart(s) == s;
    LeadingDigitsOfDigits(s);
  }

  /**
   * The lower-case letter of a capital with a one-to-one, context-free
   * mapping: ASCII and Latin-1 capitals, Greek capitals other than sigma,
   * and the basic Cyrillic capitals. Every other character is kept.
   */
  function ToLowerChar(c: char): (r: char)
    ensures r == c || r as int == c as int + 32 || r as int == c as int + 80
  {
    if 'A' <= c <= 'Z' then (c as int + 32) as char
    else if '\U{00C0}' <= c <= '\U{00DE}' && c != '\U{00D7}' then (c as int + 32) as char
    else if '\U{0391}' <= c <= '\U{03A9}' && c != '\U{03A2}' && c != '\U{03A3}' then (c as int + 32) as char
    else if '\U{0410}' <= c <= '\U{042F}' then (c as int + 32) as char
    else if '\U{0400}' <= c <= '\U{040F}' then (c as int + 80) as char
    else c
  }

  /** `s.toLowerCase()` for the capitals `ToLowerChar` maps, character by character. */
  function ToLower(s: string): (r: string)
    ensures |r| == |s|
    ensures forall i :: 0 <= i < |s| ==> r[i] == ToLowerChar(s[i])
  {
    seq(|s|, i requires 0 <= i < |s| => ToLowerChar(s[i]))
  }

  /** A JavaScript optional string is truthy when it is present and non-empty. */
  predicate Truthy(s: Option<string>) {
    s.Some? && s.value != []
  }

  /** `s || fallback` for an optional string: `undefined` and `''` both fall back. */
  function OrElse(s: Option<string>, fallback: string): (r: string)
    ensures Truthy(s) ==> r == s.value
    ensures !Truthy(s) ==> r == fallback
  {
    if Truthy(s) then s.value else fallback
  }

  /** Lowercasing twice is lowercasing once. */
  lemma ToLowerIdempotent(s: string)
    ensures ToLower(ToLower(s)) == ToLower(s)
  {
  }

  /** Every string contains the empty string (`s.includes("")`). */
  lemma ContainsEmpty(s: string)
    ensures Contains(s, "")
  {
    assert OccursAt(s, "", 0);
  }

  /** The number of UTF-16 code units a character takes in a JavaScript string. */
  function Utf16Units(c: char): nat {
    if c as int >= 0x10000 then 2 else 1
  }

  /** `s.length` in JavaScript. */
  function Utf16Length(s: string): nat
    decreases |s|
  {
    if s == [] then 0 else Utf16Units(s[0]) + Utf16Length(s[1..])
  }

  /** `s.slice(0, n)`: the longest prefix of at most `n` UTF-16 code units. */
  function SliceUnits(s: string, n: nat): (r: string)
    ensures |r| <= |s| && r == s[..|r|]
    ensures Utf16Length(r) <= n
    ensures |r| < |s| ==> Utf16Length(r) + Utf16Units(s[|r|]) > n
    decreases |s|
  {
    if s == [] || Utf16Units(s[0]) > n then []
    else
      var rest := SliceUnits(s[1..], n - Utf16Units(s[0]));
      assert ([s[0]] + rest)[1..] == rest;
      [s[0]] + rest
  }

  /** Without characters outside the Basic Multilingual Plane, `slice(0, n)` keeps the first `n` characters. */
  lemma {:induction false} SliceUnitsBmp(s: string, n: nat)
    requires forall i :: 0 <= i < |s| ==> Utf16Units(s[i]) == 1
    ensures SliceUnits(s, n) == s[..if n < |s| then n else |s|]
    decreases |s|
  {
    if s != [] && n > 0 {
      SliceUnitsBmp(s[1..], n - 1);
      assert s[..if n < |s| then n else |s|] == [s[0]] + s[1..][..if n - 1 < |s| - 1 then n - 1 else |s| - 1];
    }
  }

  /** `n.toString()` for any integer. */
  function IntString(n: int): (r: string)
    ensures |r| >= 1
  {
    if n < 0 then "-" + DecimalString(-n) else DecimalString(n)
  }

  /** `parseInt` reads back what `toString` printed, negative numbers included. */
  lemma ParseIntString(n: int)
    ensures ParseInt(IntString(n)) == Some(n)
  {
    if n < 0 {
      var d := DecimalString(-n);
      var s := "-" + d;
      assert !IsJsWhiteSpace(s[0]);
      assert TrimStart(s) == s;
      assert s[1..] == d;
      LeadingDigitsOfDigits(d);
    } else {
      ParseIntDecimal(n);
    }
  }
}
