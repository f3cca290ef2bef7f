/** JavaScript string operations used by the core, written as explicit
    character-level definitions: `trim`, `\s` deletion, `toLowerCase` (on ASCII
    letters), `includes`, `startsWith`/`endsWith`, `join`, `split` on one
    character, `replace` of the first occurrence, `Number.prototype.toString`
    on integers and `parseInt` with no radix argument. */
module Strings {
  import opened Wrappers

  /** The characters matched by `\s` and stripped by `trim` (the WhiteSpace and
      LineTerminator productions of ECMA-262). */
  predicate IsWhitespace(c: char) {
    || c == ' ' || c == '\t' || c == '\n' || c == '\r'
    || c == '\U{000B}' || c == '\U{000C}' || c == '\U{00A0}' || c == '\U{1680}'
    || ('\U{2000}' <= c <= '\U{200A}')
    || c == '\U{2028}' || c == '\U{2029}' || c == '\U{202F}' || c == '\U{205F}'
    || c == '\U{3000}' || c == '\U{FEFF}'
  }

  predicate NoWhitespace(s: string) {
    forall k :: 0 <= k < |s| ==> !IsWhitespace(s[k])
  }

  /** Drops leading white space (`trimStart`). */
  function TrimStart(s: string): string {
    if s != [] && IsWhitespace(s[0]) then TrimStart(s[1..]) else s
  }

  /** `trimStart` keeps a suffix, drops only white space, and stops at a
      character that is not white space. */
  lemma {:induction false} TrimStartFacts(s: string)
    ensures var r := TrimStart(s);
      && |r| <= |s| && r == s[|s| - |r|..]
      && (forall k :: 0 <= k < |s| - |r| ==> IsWhitespace(s[k]))
      && (r != [] ==> !IsWhitespace(r[0]))
  {
    if s != [] && IsWhitespace(s[0]) {
      var t := s[1..];
      TrimStartFacts(t);
      var r := TrimStart(t);
      assert TrimStart(s) == r;
      assert t[|t| - |r|..] == s[|s| - |r|..];
      forall k | 0 <= k < |s| - |r| ensures IsWhitespace(s[k]) {
        if k > 0 {
          assert s[k] == t[k - 1];
        }
      }
    }
  }

  /** Drops trailing white space (`trimEnd`). */
  function TrimEnd(s: string): string {
    if s != [] && IsWhitespace(s[|s| - 1]) then TrimEnd(s[..|s| - 1]) else s
  }

  /** `trimEnd` keeps a prefix, drops only white space, and stops at a
      character that is not white space. */
  lemma {:induction false} TrimEndFacts(s: string)
    ensures var r := TrimEnd(s);
      && |r| <= |s| && r == s[..|r|]
      && (forall k :: |r| <= k < |s| ==> IsWhitespace(s[k]))
      && (r != [] ==> !IsWhitespace(r[|r| - 1]))
  {
    if s != [] && IsWhitespace(s[|s| - 1]) {
      var t := s[..|s| - 1];
      TrimEndFacts(t);
      var r := TrimEnd(t);
      assert TrimEnd(s) == r;
      assert t[..|r|] == s[..|r|];
      forall k | |r| <= k < |s| ensures IsWhitespace(s[k]) {
        if k < |s| - 1 {
          assert s[k] == t[k];
        }
      }
    }
  }

  /** `String.prototype.trim`. */
  function Trim(s: string): string {
    TrimEnd(TrimStart(s))
  }

  /** A trimmed string neither starts nor ends with white space, and a string
      that does neither is its own trim. */
  lemma TrimFacts(s: string)
    ensures Trim(s) != [] ==> !IsWhitespace(Trim(s)[0]) && !IsWhitespace(Trim(s)[|Trim(s)| - 1])
    ensures (s == [] || (!IsWhitespace(s[0]) && !IsWhitespace(s[|s| - 1]))) ==> Trim(s) == s
  {
    TrimStartFacts(s);
    TrimEndFacts(TrimStart(s));
    var t := TrimStart(s);
    if Trim(s) != [] {
      assert Trim(s)[0] == t[0];
    }
  }

  /** A string is blank exactly when it trims to the empty string. */
  lemma {:induction false} TrimEmptyIffBlank(s: string)
    ensures Trim(s) == [] <==> (forall k :: 0 <= k < |s| ==> IsWhitespace(s[k]))
  {
    var t := TrimStart(s);
    TrimStartFacts(s);
    TrimEndFacts(t);
    if t != [] {
      assert !IsWhitespace(t[0]);
      assert TrimEnd(t) != [];
      assert !IsWhitespace(s[|s| - |t|]);
    }
  }

  function ToLowerChar(c: char): char {
    if 'A' <= c <= 'Z' then ((c as int) + 32) as char else c
  }

  /** `toLowerCase`, on the ASCII letters. */
  function ToLower(s: string): (r: string)
    ensures |r| == |s|
    ensures forall k :: 0 <= k < |s| ==> r[k] == ToLowerChar(s[k])
  {
    seq(|s|, k requires 0 <= k < |s| => ToLowerChar(s[k]))
  }

  /** Lower-casing twice is lower-casing once. */
  lemma ToLowerIdempotent(s: string)
    ensures ToLower(ToLower(s)) == ToLower(s)
  {
  }

  /** The UTF-16 code units of one character: two for a character above U+FFFF
      (a surrogate pair), one otherwise. */
  function CodeUnits(c: char): nat {
    if c as int > 0xFFFF then 2 else 1
  }

  /** JavaScript's `s.length`, which counts UTF-16 code units, not characters. */
  function JsLength(s: string): (n: nat)
    ensures |s| <= n <= 2 * |s|
    ensures (forall k :: 0 <= k < |s| ==> s[k] as int <= 0xFFFF) ==> n == |s|
  {
    if s == [] then 0 else CodeUnits(s[0]) + JsLength(s[1..])
  }

  /** The longest prefix of `s` that fits in `n` UTF-16 code units: the text
      `s.substring(0, n)` keeps, less the lone half of a surrogate pair when
      the cut falls inside one. */
  function JsPrefix(s: string, n: nat): (r: string)
    ensures |r| <= |s| && r == s[..|r|]
    ensures JsLength(r) <= n
    ensures |r| < |s| ==> JsLength(r) + CodeUnits(s[|r|]) > n
    ensures JsLength(s) <= n ==> r == s
  {
    if s == [] || CodeUnits(s[0]) > n then []
    else [s[0]] + JsPrefix(s[1..], n - CodeUnits(s[0]))
  }

  /** On text without characters above U+FFFF, the prefix is the first `n`
      characters. */
  lemma {:induction false} JsPrefixBmp(s: string, n: nat)
    requires forall k :: 0 <= k < |s| ==> s[k] as int <= 0xFFFF
    ensures JsPrefix(s, n) == if |s| <= n then s else s[..n]
  {
    if s != [] && n > 0 {
      assert CodeUnits(s[0]) == 1;
      forall k | 0 <= k < |s[1..]|
        ensures s[1..][k] as int <= 0xFFFF
      {
        assert s[1..][k] == s[k + 1];
      }
      JsPrefixBmp(s[1..], n - 1);
      assert JsPrefix(s, n) == [s[0]] + JsPrefix(s[1..], n - 1);
      if |s| > n {
        assert s[..n] == [s[0]] + s[1..][..n - 1];
      } else {
        assert s == [s[0]] + s[1..];
      }
    }
  }

  /** Three emoji are six code units long: JavaScript accepts them where six
      characters are required. */
  lemma EmojiLength()
    ensures |"\U{1F600}\U{1F600}\U{1F600}"| == 3
    ensures JsLength("\U{1F600}\U{1F600}\U{1F600}") == 6
  {
  }

  /** `sub` occurs in `s` starting at index `i`. */
  predicate OccursAt(s: string, sub: string, i: int) {
    0 <= i <= |s| - |sub| && s[i..i + |sub|] == sub
  }

  /** `s.includes(sub)`: `sub` occurs in `s` at some index. */
  predicate Contains(s: string, sub: string) {
    exists i | 0 <= i <= |s| - |sub| :: OccursAt(s, sub, i)
  }

  /** `s.startsWith(p)`. */
  predicate StartsWith(s: string, p: string) {
    |p| <= |s| && s[..|p|] == p
  }

  /** `s.endsWith(p)`. */
  predicate EndsWith(s: string, p: string) {
    |p| <= |s| && s[|s| - |p|..] == p
  }

  lemma ContainsEmpty(s: string)
    ensures Contains(s, [])
  {
    assert OccursAt(s, [], 0);
  }

  lemma ContainsSelf(s: string)
    ensures Contains(s, s)
  {
    assert OccursAt(s, s, 0);
  }

  /** An occurrence inside a part is an occurrence inside the whole. */
  lemma ContainsInConcat(a: string, b: string, c: string, sub: string)
    requires Contains(b, sub)
    ensures Contains(a + b + c, sub)
  {
    var i :| 0 <= i <= |b| - |sub| && OccursAt(b, sub, i);
    var s := a + b + c;
    assert s[|a| + i..|a| + i + |sub|] == b[i..i + |sub|];
    assert OccursAt(s, sub, |a| + i);
  }

  /** Deletes every character of `bad` (`replace(/[..]/g, '')`). */
  function RemoveChars(s: string, bad: set<char>): (r: string)
    ensures |r| <= |s|
    ensures forall k :: 0 <= k < |r| ==> r[k] !in bad
    ensures (forall k :: 0 <= k < |s| ==> s[k] !in bad) ==> r == s
  {
    if s == [] then []
    else (if s[0] in bad then [] else [s[0]]) + RemoveChars(s[1..], bad)
  }

  /** Deletes every white-space character (`replace(/\s/g, '')`). */
  function RemoveWhitespace(s: string): (r: string)
    ensures |r| <= |s|
  {
    if s == [] then []
    else (if IsWhitespace(s[0]) then [] else [s[0]]) + RemoveWhitespace(s[1..])
  }

  /** What is left has no white space. */
  lemma {:induction false} RemoveWhitespaceClean(s: string)
    ensures NoWhitespace(RemoveWhitespace(s))
  {
    if s != [] {
      var t := s[1..];
      RemoveWhitespaceClean(t);
      var head: string := if IsWhitespace(s[0]) then [] else [s[0]];
      var r := RemoveWhitespace(s);
      assert r == head + RemoveWhitespace(t);
      forall k | 0 <= k < |r| ensures !IsWhitespace(r[k]) {
        if k >= |head| {
          assert r[k] == RemoveWhitespace(t)[k - |head|];
        }
      }
    }
  }

  /** A string without white space is kept as it is. */
  lemma {:induction false} RemoveWhitespaceKeeps(s: string)
    requires NoWhitespace(s)
    ensures RemoveWhitespace(s) == s
  {
    if s != [] {
      var t := s[1..];
      assert NoWhitespace(t) by {
        forall k | 0 <= k < |t| ensures !IsWhitespace(t[k]) {
          assert t[k] == s[k + 1];
        }
      }
      RemoveWhitespaceKeeps(t);
      assert !IsWhitespace(s[0]);
      assert s == [s[0]] + t;
    }
  }

  /** `parts.join(sep)`. */
  function Join(sep: string, parts: seq<string>): string {
    if |parts| == 0 then []
    else if |parts| == 1 then parts[0]
    else parts[0] + sep + Join(sep, parts[1..])
  }

  /** Index of the first `c` in `s`, or `|s|` when there is none. */
  function IndexOf(s: string, c: char): (i: nat)
    ensures i <= |s|
    ensures forall k :: 0 <= k < i ==> s[k] != c
    ensures i < |s| ==> s[i] == c
    ensures i == |s| <==> c !in s
  {
    if s == [] then 0 else if s[0] == c then 0 else 1 + IndexOf(s[1..], c)
  }

  /** `s.split(c)` for a one-character separator. */
  function Split(s: string, c: char): (r: seq<string>)
    ensures |r| >= 1
    decreases |s|
  {
    var i := IndexOf(s, c);
    if i == |s| then [s] else [s[..i]] + Split(s[i + 1..], c)
  }

  lemma IndexOfAfterPart(a: string, c: char, b: string)
    requires c !in a
    ensures IndexOf(a + [c] + b, c) == |a|
  {
    var s := a + [c] + b;
    assert s[|a|] == c;
  }

  /** Splitting at a first separator after `a` gives `a` and the split of the
      rest. */
  lemma SplitCons(a: string, c: char, rest: string)
    requires c !in a
    ensures Split(a + [c] + rest, c) == [a] + Split(rest, c)
  {
    var s := a + [c] + rest;
    IndexOfAfterPart(a, c, rest);
    assert s[..|a|] == a;
    assert s[|a| + 1..] == rest;
  }

  /** Splitting a join on the separator gives back the parts, provided no
      part contains the separator (there is no escaping). */
  lemma {:induction false} SplitJoin(parts: seq<string>, c: char)
    requires |parts| >= 1
    requires forall k :: 0 <= k < |parts| ==> c !in parts[k]
    ensures Split(Join([c], parts), c) == parts
  {
    if |parts| == 1 {
      assert IndexOf(parts[0], c) == |parts[0]|;
    } else {
      var rest := Join([c], parts[1..]);
      var s := parts[0] + [c] + rest;
      assert Join([c], parts) == s;
      SplitCons(parts[0], c, rest);
      assert forall k :: 0 <= k < |parts[1..]| ==> c !in parts[1..][k] by {
        forall k | 0 <= k < |parts[1..]| ensures c !in parts[1..][k] {
          assert parts[1..][k] == parts[k + 1];
        }
      }
      SplitJoin(parts[1..], c);
      assert parts == [parts[0]] + parts[1..];
    }
  }

  /** A part holding the separator joins to the same text as its two halves. */
  lemma {:induction false} JoinSplitsPart(sep: string, pre: seq<string>, x: string, y: string, post: seq<string>)
    ensures Join(sep, pre + [x + sep + y] + post) == Join(sep, pre + [x, y] + post)
    decreases |pre|
  {
    var a, b := pre + [x + sep + y] + post, pre + [x, y] + post;
    if pre == [] {
      assert a == [x + sep + y] + post && b == [x, y] + post;
      assert b[1..] == [y] + post && b[1..][1..] == post;
      if post != [] {
        assert a[1..] == post;
      }
    } else {
      JoinSplitsPart(sep, pre[1..], x, y, post);
      assert a[1..] == pre[1..] + [x + sep + y] + post;
      assert b[1..] == pre[1..] + [x, y] + post;
    }
  }

  /** The separator occurs in a join of two or more parts. */
  lemma JoinContainsSeparator(sep: string, parts: seq<string>)
    requires |parts| >= 2
    ensures Contains(Join(sep, parts), sep)
  {
    ContainsInConcat(parts[0], sep, Join(sep, parts[1..]), sep) by {
      ContainsSelf(sep);
    }
    assert Join(sep, parts) == parts[0] + sep + Join(sep, parts[1..]);
  }

  /** A character of one of the parts is a character of the join. */
  lemma {:induction false} JoinContainsPartChar(sep: string, parts: seq<string>, k: nat, c: char)
    requires k < |parts| && c in parts[k]
    ensures c in Join(sep, parts)
  {
    if k > 0 {
      JoinContainsPartChar(sep, parts[1..], k - 1, c);
    }
  }

  /** `replace(pat, rep)` with a string pattern: only the first occurrence. */
  function ReplaceFirst(s: string, pat: string, rep: string): string
    decreases |s|
  {
    if StartsWith(s, pat) then rep + s[|pat|..]
    else if s == [] then s
    else [s[0]] + ReplaceFirst(s[1..], pat, rep)
  }

  /** An occurrence one character in is an occurrence of the whole. */
  lemma OccursAtTail(s: string, pat: string, i: int)
    requires |s| > 0 && OccursAt(s[1..], pat, i)
    ensures OccursAt(s, pat, i + 1)
  {
    assert s[i + 1..i + 1 + |pat|] == s[1..][i..i + |pat|];
  }

  lemma StartsWithContains(s: string, pat: string)
    requires StartsWith(s, pat)
    ensures Contains(s, pat)
  {
    assert OccursAt(s, pat, 0);
  }

  /** Without an occurrence of the pattern, `replace` changes nothing. */
  lemma {:induction false} ReplaceFirstNoMatch(s: string, pat: string, rep: string)
    ensures !Contains(s, pat) ==> ReplaceFirst(s, pat, rep) == s
    decreases |s|
  {
    if StartsWith(s, pat) {
      StartsWithContains(s, pat);
    } else if s != [] {
      if Contains(s[1..], pat) {
        var i :| 0 <= i <= |s[1..]| - |pat| && OccursAt(s[1..], pat, i);
        OccursAtTail(s, pat, i);
      }
      ReplaceFirstNoMatch(s[1..], pat, rep);
    }
  }

  /** When the pattern's first character does not occur before it, the first
      occurrence is the one right after the prefix. */
  lemma {:induction false} ReplaceFirstAfterPrefix(a: string, pat: string, b: string, rep: string)
    requires |pat| > 0 && pat[0] !in a
    ensures ReplaceFirst(a + pat + b, pat, rep) == a + rep + b
    decreases |a|
  {
    if a == [] {
      assert a + pat + b == pat + b;
      ReplaceFirstAtStart(pat + b, pat, rep);
      assert (pat + b)[|pat|..] == b;
    } else {
      var s := a + pat + b;
      assert s[0] == a[0];
      ReplaceFirstSkip(s, pat, rep);
      assert s[1..] == a[1..] + pat + b;
      ReplaceFirstAfterPrefix(a[1..], pat, b, rep);
      assert a == [a[0]] + a[1..];
    }
  }

  lemma ReplaceFirstAtStart(s: string, pat: string, rep: string)
    requires StartsWith(s, pat)
    ensures ReplaceFirst(s, pat, rep) == rep + s[|pat|..]
  {
  }

  lemma ReplaceFirstSkip(s: string, pat: string, rep: string)
    requires |s| > 0 && |pat| > 0 && s[0] != pat[0]
    ensures ReplaceFirst(s, pat, rep) == [s[0]] + ReplaceFirst(s[1..], pat, rep)
  {
  }

  predicate IsDigit(c: char) {
    '0' <= c <= '9'
  }

  predicate AllDigits(s: string) {
    forall k :: 0 <= k < |s| ==> IsDigit(s[k])
  }

  function DigitChar(d: nat): char
    requires d < 10
  {
    ('0' as int + d) as char
  }

  /** Decimal rendering of a natural number (`n.toString()`). */
  function NatToString(n: nat): (r: string)
    ensures |r| >= 1 && AllDigits(r)
    ensures r[0] == '0' ==> n == 0 && r == "0"
  {
    if n < 10 then [DigitChar(n)] else NatToString(n / 10) + [DigitChar(n % 10)]
  }

  /** Decimal rendering of an integer, with a leading `-` when negative. */
  function IntToString(i: int): string {
    if i < 0 then "-" + NatToString(-i) else NatToString(i)
  }

  /** The value of a digit in base 10 or 16, or -1 when it is not one. */
  function DigitValue(c: char, radix: nat): (v: int)
    requires radix == 10 || radix == 16
    ensures -1 <= v < radix as int
  {
    if '0' <= c <= '9' then (c as int) - ('0' as int)
    else if radix == 16 && 'a' <= c <= 'f' then (c as int) - ('a' as int) + 10
    else if radix == 16 && 'A' <= c <= 'F' then (c as int) - ('A' as int) + 10
    else -1
  }

  /** `parseInt(s)` with no radix, read left to right from index `i` in one
      of three phases: 0 skips leading white space, 1 has just read a sign, 2
      is inside the digits. A `0x`/`0X` before the digits selects base 16; the
      first character that is not a digit of the base ends the number. The
      result is `None` (`NaN`) when no digit was read. */
  function Scan(s: string, i: nat, phase: nat, neg: bool, radix: nat, acc: nat, any: bool): Option<int>
    requires radix == 10 || radix == 16
    decreases |s| - i
  {
    if i >= |s| then (if any then Some(if neg then -(acc as int) else acc) else None)
    else if phase == 0 && IsWhitespace(s[i]) then Scan(s, i + 1, 0, neg, radix, acc, any)
    else if phase == 0 && (s[i] == '-' || s[i] == '+') then Scan(s, i + 1, 1, s[i] == '-', radix, acc, any)
    else if phase <= 1 && s[i] == '0' && i + 1 < |s| && (s[i + 1] == 'x' || s[i + 1] == 'X') then
      Scan(s, i + 2, 2, neg, 16, 0, false)
    else if DigitValue(s[i], radix) >= 0 then
      Scan(s, i + 1, 2, neg, radix, acc * radix + DigitValue(s[i], radix), true)
    else if any then Some(if neg then -(acc as int) else acc)
    else None
  }

  /** `parseInt(s)`; `None` is `NaN`. */
  function JsParseInt(s: string): Option<int> {
    Scan(s, 0, 0, false, 10, 0, false)
  }

  /** `parseInt(s) || 0`: `NaN` (and zero) become 0. */
  function ParseIntOrZero(s: string): int {
    match JsParseInt(s)
    case None => 0
    case Some(v) => v
  }

  /** The value of the decimal digits `ds` read after the value `acc`. */
  function DecimalFrom(acc: nat, ds: string): nat
    requires AllDigits(ds)
    decreases |ds|
  {
    if ds == [] then acc else DecimalFrom(acc * 10 + DigitValue(ds[0], 10), ds[1..])
  }

  lemma {:induction false} DecimalFromAppend(acc: nat, ds: string, c: char)
    requires AllDigits(ds) && IsDigit(c)
    ensures AllDigits(ds + [c])
    ensures DecimalFrom(acc, ds + [c]) == DecimalFrom(acc, ds) * 10 + DigitValue(c, 10)
    decreases |ds|
  {
    if ds != [] {
      assert (ds + [c])[1..] == ds[1..] + [c];
      DecimalFromAppend(acc * 10 + DigitValue(ds[0], 10), ds[1..], c);
    }
  }

  lemma {:induction false} DecimalFromNatToString(n: nat)
    ensures DecimalFrom(0, NatToString(n)) == n
  {
    if n >= 10 {
      DecimalFromNatToString(n / 10);
      DecimalFromAppend(0, NatToString(n / 10), DigitChar(n % 10));
    }
  }

  /** Inside the digits, the scan reads every remaining decimal digit. */
  lemma {:induction false} ScanDigits(s: string, i: nat, acc: nat)
    requires i <= |s| && AllDigits(s)
    ensures AllDigits(s[i..])
    ensures Scan(s, i, 2, false, 10, acc, true) == Some(DecimalFrom(acc, s[i..]))
    decreases |s| - i
  {
    if i < |s| {
      assert s[i..][1..] == s[i + 1..];
      ScanDigits(s, i + 1, acc * 10 + DigitValue(s[i], 10));
    }
  }

  /** Reading back a rendered natural number gives the number. */
  lemma ParseIntOfNatToString(n: nat)
    ensures JsParseInt(NatToString(n)) == Some(n)
  {
    var s := NatToString(n);
    assert !IsWhitespace(s[0]);
    ScanDigits(s, 1, DigitValue(s[0], 10));
    assert s[1..] == s[0..][1..];
    DecimalFromNatToString(n);
  }
}
