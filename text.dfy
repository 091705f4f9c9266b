/** The JavaScript string and number primitives the engine relies on:
    `split`, `trim`, `includes`, `startsWith`, `padStart`, `toLowerCase`,
    `parseInt`, `Number`, number-to-string conversion, and the default
    (code-unit) order used by `Array.prototype.sort`. */
module Text {
  import opened Common

  predicate IsDigit(c: char) { '0' <= c <= '9' }

  function DigitValue(c: char): (v: nat)
    requires IsDigit(c)
    ensures v < 10
  { (c as int) - ('0' as int) }

  function DigitChar(d: nat): (c: char)
    requires d < 10
    ensures IsDigit(c) && DigitValue(c) == d
  { ('0' as int + d) as char }

  predicate AllDigits(s: string) { forall i :: 0 <= i < |s| ==> IsDigit(s[i]) }

  /** The value of a decimal digit string, most significant digit first. */
  function DigitsValue(s: string): nat
    requires AllDigits(s)
  {
    if |s| == 0 then 0 else DigitsValue(s[..|s| - 1]) * 10 + DigitValue(s[|s| - 1])
  }

  function Pow10(k: nat): (p: nat)
    ensures p >= 1
  { if k == 0 then 1 else 10 * Pow10(k - 1) }

  /** The decimal rendering of a natural number (`String(n)`). */
  function NatToString(n: nat): (s: string)
    ensures |s| >= 1 && AllDigits(s)
    ensures |s| > 1 ==> s[0] != '0'
  {
    if n < 10 then [DigitChar(n)] else NatToString(n / 10) + [DigitChar(n % 10)]
  }

  /** The decimal rendering of an integer, with a leading `-` when negative. */
  function IntToString(n: int): string {
    if n < 0 then "-" + NatToString(-n) else NatToString(n)
  }

  /** Reading back a rendered number gives the number. */
  lemma {:induction false} NatToStringValue(n: nat)
    ensures DigitsValue(NatToString(n)) == n
  {
    if n >= 10 {
      NatToStringValue(n / 10);
      var s := NatToString(n);
      assert s[..|s| - 1] == NatToString(n / 10);
    }
  }

  /** A number below 10^k renders in at most k digits. */
  lemma {:induction false} NatToStringLength(n: nat, k: nat)
    requires 1 <= k && n < Pow10(k)
    ensures |NatToString(n)| <= k
  {
    if n >= 10 {
      NatToStringLength(n / 10, k - 1);
    }
  }

  /** A number of at least 10^k renders in more than k digits. */
  lemma {:induction false} NatToStringLongEnough(n: nat, k: nat)
    requires n >= Pow10(k)
    ensures |NatToString(n)| > k
  {
    if k > 0 {
      NatToStringLongEnough(n / 10, k - 1);
    }
  }

  /** Rendering is injective. */
  lemma NatToStringInjective(a: nat, b: nat)
    requires NatToString(a) == NatToString(b)
    ensures a == b
  {
    NatToStringValue(a);
    NatToStringValue(b);
  }

  function Repeat(c: char, n: nat): (s: string)
    ensures |s| == n && forall i :: 0 <= i < n ==> s[i] == c
  { if n == 0 then [] else [c] + Repeat(c, n - 1) }

  /** `s.padStart(width, '0')`. */
  function PadZeros(s: string, width: nat): (r: string)
    ensures |r| == if |s| < width then width else |s|
    ensures r[|r| - |s|..] == s
    ensures forall i :: 0 <= i < |r| - |s| ==> r[i] == '0'
  {
    if |s| < width then Repeat('0', width - |s|) + s else s
  }

  /** A natural number zero-padded to `width` digits. */
  function PadNat(n: nat, width: nat): (r: string)
    ensures AllDigits(r)
  {
    PadZeros(NatToString(n), width)
  }

  /** Leading zeros do not change a digit string's value. */
  lemma {:induction false} LeadingZerosValue(z: nat, s: string)
    requires AllDigits(s)
    ensures AllDigits(Repeat('0', z) + s)
    ensures DigitsValue(Repeat('0', z) + s) == DigitsValue(s)
    decreases |s|
  {
    var t := Repeat('0', z) + s;
    if |s| == 0 {
      assert t == Repeat('0', z);
      ZerosValue(z);
    } else {
      var p := s[..|s| - 1];
      LeadingZerosValue(z, p);
      assert t[..|t| - 1] == Repeat('0', z) + p;
    }
  }

  lemma {:induction false} ZerosValue(z: nat)
    ensures DigitsValue(Repeat('0', z)) == 0
  {
    if z > 0 {
      var t := Repeat('0', z);
      assert t[..|t| - 1] == Repeat('0', z - 1);
      ZerosValue(z - 1);
    }
  }

  /** A zero-padded number reads back as the number. */
  lemma PadNatValue(n: nat, width: nat)
    ensures DigitsValue(PadNat(n, width)) == n
  {
    NatToStringValue(n);
    var s := NatToString(n);
    if |s| < width {
      LeadingZerosValue(width - |s|, s);
    }
  }

  /** A number below 10^w pads to exactly w digits. */
  lemma PadNatLength(n: nat, w: nat)
    requires 1 <= w && n < Pow10(w)
    ensures |PadNat(n, w)| == w
  {
    NatToStringLength(n, w);
  }

  /** Two zero-padded numbers of the same width are equal only when the numbers are. */
  lemma PadNatInjective(a: nat, b: nat, w: nat)
    requires PadNat(a, w) == PadNat(b, w)
    ensures a == b
  {
    PadNatValue(a, w);
    PadNatValue(b, w);
  }

  predicate StartsWith(s: string, p: string) { |p| <= |s| && s[..|p|] == p }

  predicate EndsWith(s: string, p: string) { |p| <= |s| && s[|s| - |p|..] == p }

  /** `s.includes(sub)`: some position of `s` starts a copy of `sub`. */
  ghost predicate Contains(s: string, sub: string) {
    exists i :: 0 <= i && OccursAt(s, sub, i)
  }

  /** `sub` occurs in `s` starting at position `i`. */
  predicate OccursAt(s: string, sub: string, i: int) {
    0 <= i && i + |sub| <= |s| && s[i..i + |sub|] == sub
  }

  /** A decision procedure for `Contains`, scanning from the left. */
  function ContainsFrom(s: string, sub: string, i: nat): (b: bool)
    requires i <= |s|
    ensures b <==> exists j :: i <= j && OccursAt(s, sub, j)
    decreases |s| - i
  {
    if i + |sub| > |s| then
      assert forall j :: i <= j ==> !OccursAt(s, sub, j);
      false
    else if s[i..i + |sub|] == sub then
      assert OccursAt(s, sub, i);
      true
    else
      var b := ContainsFrom(s, sub, i + 1);
      assert forall j :: i <= j && OccursAt(s, sub, j) ==> i + 1 <= j;
      b
  }

  function Includes(s: string, sub: string): (b: bool)
    ensures b <==> Contains(s, sub)
  {
    ContainsFrom(s, sub, 0)
  }

  /** A string without the first character of `sub` cannot include `sub`. */
  lemma NotIncludes(s: string, sub: string)
    requires |sub| > 0 && sub[0] !in s
    ensures !Includes(s, sub)
  {
    forall i | OccursAt(s, sub, i) ensures false {
    }
  }

  /** `s.split(sep)` for a non-empty separator: the pieces between the
      non-overlapping occurrences of `sep`, found left to right. */
  function Split(s: string, sep: string): (parts: seq<string>)
    requires |sep| > 0
    ensures |parts| >= 1
    decreases |s|
  {
    if |s| == 0 then [""]
    else if StartsWith(s, sep) then [""] + Split(s[|sep|..], sep)
    else
      var rest := Split(s[1..], sep);
      [[s[0]] + rest[0]] + rest[1..]
  }

  /** Joining the pieces with the separator: the inverse of `Split`. */
  function Join(parts: seq<string>, sep: string): string
    requires |parts| >= 1
  {
    if |parts| == 1 then parts[0] else parts[0] + sep + Join(parts[1..], sep)
  }

  /** Splitting loses nothing: joining the pieces back gives the input. */
  lemma {:induction false} SplitJoin(s: string, sep: string)
    requires |sep| > 0
    ensures Join(Split(s, sep), sep) == s
    decreases |s|
  {
    if |s| == 0 {
    } else if StartsWith(s, sep) {
      SplitJoin(s[|sep|..], sep);
      SplitJoinAtSep(s, sep);
    } else {
      SplitJoin(s[1..], sep);
      SplitJoinAtChar(s, sep);
    }
  }

  /** The step of `SplitJoin` where `s` opens with the separator. */
  lemma SplitJoinAtSep(s: string, sep: string)
    requires |sep| > 0 && |s| > 0 && StartsWith(s, sep)
    requires Join(Split(s[|sep|..], sep), sep) == s[|sep|..]
    ensures Join(Split(s, sep), sep) == s
  {
    var tail := Split(s[|sep|..], sep);
    var parts := [""] + tail;
    assert Split(s, sep) == parts;
    assert Join(parts, sep) == sep + Join(tail, sep) by {
      assert parts[1..] == tail;
      assert "" + sep == sep;
    }
    assert s == sep + s[|sep|..] by {
      assert s[..|sep|] == sep;
    }
  }

  /** The step of `SplitJoin` where `s` does not open with the separator. */
  lemma SplitJoinAtChar(s: string, sep: string)
    requires |sep| > 0 && |s| > 0 && !StartsWith(s, sep)
    requires Join(Split(s[1..], sep), sep) == s[1..]
    ensures Join(Split(s, sep), sep) == s
  {
    var rest := Split(s[1..], sep);
    calc {
      Join(Split(s, sep), sep);
      Join([[s[0]] + rest[0]] + rest[1..], sep);
      { JoinConsHead(s[0], rest, sep); }
      [s[0]] + Join(rest, sep);
      [s[0]] + s[1..];
      { assert s == [s[0]] + s[1..]; }
      s;
    }
  }

  /** Prefixing the first piece prefixes the joined string. */
  lemma JoinConsHead(c: char, rest: seq<string>, sep: string)
    requires |rest| >= 1
    ensures Join([[c] + rest[0]] + rest[1..], sep) == [c] + Join(rest, sep)
  {
    var parts := [[c] + rest[0]] + rest[1..];
    if |rest| > 1 {
      assert parts[1..] == rest[1..];
    }
  }

  /** No piece of a split on one character contains that character. */
  lemma {:induction false} SplitCharFree(s: string, c: char)
    ensures forall i :: 0 <= i < |Split(s, [c])| ==> c !in Split(s, [c])[i]
    decreases |s|
  {
    if |s| > 0 {
      SplitCharFree(s[1..], c);
      if !StartsWith(s, [c]) {
        assert s[..1] == [s[0]];
      }
    }
  }

  /** A split on one character has a single piece iff the character is absent. */
  lemma {:induction false} SplitSingle(s: string, c: char)
    ensures |Split(s, [c])| == 1 <==> c !in s
    ensures c !in s ==> Split(s, [c]) == [s]
    decreases |s|
  {
    if |s| > 0 {
      SplitSingle(s[1..], c);
      assert s == [s[0]] + s[1..];
      if StartsWith(s, [c]) {
        assert s[0] == c;
      } else {
        assert s[..1] == [s[0]];
        assert s[0] != c;
      }
    }
  }

  /** With the separator present, the first piece is the text before its
      first occurrence. */
  lemma SplitHead(s: string, c: char)
    requires c in s
    ensures |Split(s, [c])| >= 2
    ensures StartsWith(s, Split(s, [c])[0] + [c])
    ensures c !in Split(s, [c])[0]
  {
    var parts := Split(s, [c]);
    SplitSingle(s, c);
    SplitCharFree(s, c);
    SplitJoin(s, [c]);
    assert s == parts[0] + [c] + Join(parts[1..], [c]);
  }

  /** Splitting at a first separator peels off the text before it. */
  lemma {:induction false} SplitAt(a: string, c: char, b: string)
    requires c !in a
    ensures Split(a + [c] + b, [c]) == [a] + Split(b, [c])
    decreases |a|
  {
    var s := a + [c] + b;
    if |a| == 0 {
      assert s[..1] == [c];
      assert s[1..] == b;
    } else {
      SplitAt(a[1..], c, b);
      assert s[1..] == a[1..] + [c] + b;
      assert s[..1] == [a[0]];
      assert a == [a[0]] + a[1..];
    }
  }

  /** `s.split(/\r\n|\n/)`: lines separated by CRLF or LF, CRLF tried first. */
  function SplitLines(s: string): (lines: seq<string>)
    ensures |lines| >= 1
    decreases |s|
  {
    if |s| == 0 then [""]
    else if StartsWith(s, "\r\n") then [""] + SplitLines(s[2..])
    else if s[0] == '\n' then [""] + SplitLines(s[1..])
    else
      var rest := SplitLines(s[1..]);
      [[s[0]] + rest[0]] + rest[1..]
  }

  /** No line of the result contains a line feed. */
  lemma {:induction false} SplitLinesFree(s: string)
    ensures forall i :: 0 <= i < |SplitLines(s)| ==> '\n' !in SplitLines(s)[i]
    decreases |s|
  {
    if |s| > 0 {
      if StartsWith(s, "\r\n") {
        SplitLinesFree(s[2..]);
      } else {
        SplitLinesFree(s[1..]);
      }
    }
  }

  /** The characters `String.prototype.trim` removes: white space and line
      terminators of the ECMAScript grammar. */
  predicate IsSpace(c: char) {
    c == ' ' || c == '\t' || c == '\n' || c == '\r' || c == '\U{000B}' || c == '\U{000C}'
    || c == '\U{00A0}' || c == '\U{1680}' || ('\U{2000}' <= c <= '\U{200A}')
    || c == '\U{2028}' || c == '\U{2029}' || c == '\U{202F}' || c == '\U{205F}'
    || c == '\U{3000}' || c == '\U{FEFF}'
  }

  predicate AllSpace(s: string) { forall i :: 0 <= i < |s| ==> IsSpace(s[i]) }

  /** `s.trimStart()`. */
  function TrimStart(s: string): string {
    if |s| > 0 && IsSpace(s[0]) then TrimStart(s[1..]) else s
  }

  /** `s.trimEnd()`. */
  function TrimEnd(s: string): string {
    if |s| > 0 && IsSpace(s[|s| - 1]) then TrimEnd(s[..|s| - 1]) else s
  }

  /** Trimming the start drops a run of white space and stops at the
      first other character. */
  lemma {:induction false} TrimStartShape(s: string)
    ensures var r := TrimStart(s);
            |r| <= |s| && r == s[|s| - |r|..] && AllSpace(s[..|s| - |r|])
            && (|r| > 0 ==> !IsSpace(r[0]))
  {
    if |s| > 0 && IsSpace(s[0]) {
      TrimStartShape(s[1..]);
      var r := TrimStart(s);
      assert s[1..][|s| - 1 - |r|..] == s[|s| - |r|..];
      assert s[..|s| - |r|] == [s[0]] + s[1..][..|s| - 1 - |r|];
    }
  }

  /** Trimming the end drops a run of white space and stops at the last
      other character. */
  lemma {:induction false} TrimEndShape(s: string)
    ensures var r := TrimEnd(s);
            |r| <= |s| && r == s[..|r|] && AllSpace(s[|r|..])
            && (|r| > 0 ==> !IsSpace(r[|r| - 1]))
  {
    if |s| > 0 && IsSpace(s[|s| - 1]) {
      var u := s[..|s| - 1];
      TrimEndShape(u);
      var r := TrimEnd(s);
      assert u[..|r|] == s[..|r|];
      assert s[|r|..] == u[|r|..] + [s[|s| - 1]];
    }
  }

  /** `s.trim()`. */
  function Trim(s: string): string { TrimEnd(TrimStart(s)) }

  /** Trimming removes only white space, from both ends, and leaves no
      white space at either end. */
  lemma TrimShape(s: string)
    ensures var r := Trim(s);
            exists a, b :: 0 <= a <= b <= |s| && r == s[a..b] && AllSpace(s[..a]) && AllSpace(s[b..])
    ensures |Trim(s)| > 0 ==> !IsSpace(Trim(s)[0]) && !IsSpace(Trim(s)[|Trim(s)| - 1])
  {
    var t := TrimStart(s);
    var r := TrimEnd(t);
    TrimStartShape(s);
    TrimEndShape(t);
    var a := |s| - |t|;
    var b := a + |r|;
    assert r == s[a..b] by {
      assert t == s[a..] && r == t[..|r|];
    }
    assert AllSpace(s[..a]);
    assert AllSpace(s[b..]) by {
      assert s[b..] == t[|r|..];
    }
  }

  /** Trimming twice is trimming once. */
  lemma TrimIdempotent(s: string)
    ensures Trim(Trim(s)) == Trim(s)
  {
    var r := Trim(s);
    TrimShape(s);
    if |r| > 0 {
      assert TrimStart(r) == r;
      assert TrimEnd(r) == r;
    }
  }

  /** `s.toLowerCase()` on the ASCII letters. */
  function ToLower(s: string): (r: string)
    ensures |r| == |s|
    ensures forall i :: 0 <= i < |s| ==> r[i] == LowerChar(s[i])
  {
    if |s| == 0 then [] else [LowerChar(s[0])] + ToLower(s[1..])
  }

  function LowerChar(c: char): char {
    if 'A' <= c <= 'Z' then (c as int + 32) as char else c
  }

  /** The longest run of digits at the start of `s`. */
  function DigitPrefix(s: string): (p: string)
    ensures AllDigits(p) && StartsWith(s, p)
    ensures |p| < |s| ==> !IsDigit(s[|p|])
  {
    if |s| > 0 && IsDigit(s[0]) then [s[0]] + DigitPrefix(s[1..]) else []
  }

  /** An optional sign and the string after it. */
  function SignOf(s: string): (r: (int, string)) {
    if |s| > 0 && s[0] == '-' then (-1, s[1..])
    else if |s| > 0 && s[0] == '+' then (1, s[1..])
    else (1, s)
  }

  /** `v` under the sign `sign` (-1 or 1). */
  function Signed(sign: int, v: int): int {
    if sign < 0 then -v else v
  }

  /** `parseInt(s, 10)`: leading white space skipped, an optional sign, then
      the longest digit prefix; `None` stands for NaN (no digit). */
  function ParseInt(s: string): (r: Option<int>)
    ensures r.Some? <==> |DigitPrefix(SignOf(TrimStart(s)).1)| > 0
  {
    var (sign, rest) := SignOf(TrimStart(s));
    var ds := DigitPrefix(rest);
    if |ds| == 0 then None else Some(Signed(sign, DigitsValue(ds)))
  }

  /** `parseInt` reads back any rendered integer. */
  lemma ParseIntIntToString(n: int)
    ensures ParseInt(IntToString(n)) == Some(n)
  {
    var m: nat := if n < 0 then -n else n;
    var s := NatToString(m);
    NatToStringValue(m);
    DigitPrefixAll(s);
    if n < 0 {
      ParseIntSigned(-1, "-" + s, s);
    } else {
      ParseIntSigned(1, s, s);
    }
  }

  lemma ParseIntSigned(sign: int, t: string, s: string)
    requires AllDigits(s) && |s| > 0 && DigitPrefix(s) == s
    requires (sign == -1 && t == "-" + s) || (sign == 1 && t == s)
    ensures ParseInt(t) == Some(Signed(sign, DigitsValue(s)))
  {
    var c := t[0];
    assert c == '-' || IsDigit(c) by {
      if sign == 1 {
        assert IsDigit(s[0]);
      }
    }
    assert TrimStart(t) == t by {
      assert !IsSpace(c);
    }
    assert SignOf(t) == (sign, s) by {
      if sign == -1 {
        assert t[1..] == s;
      } else {
        SignOfDigit(t);
      }
    }
  }

  lemma {:induction false} DigitPrefixAll(s: string)
    requires AllDigits(s)
    ensures DigitPrefix(s) == s
  {
    if |s| > 0 {
      DigitPrefixAll(s[1..]);
    }
  }

  /** `parseInt` of a single digit is that digit. */
  lemma ParseIntDigit(c: char)
    requires IsDigit(c)
    ensures ParseInt([c]) == Some(DigitValue(c))
  {
    DigitPrefixAll([c]);
    ParseIntSigned(1, [c], [c]);
    assert DigitsValue([c]) == DigitValue(c) by {
      assert [c][..0] == [];
    }
  }

  /** `Number(s)` on an integer literal: white space trimmed, the empty string
      is 0, otherwise an optional sign followed by at least one digit and
      nothing else; `None` stands for NaN. */
  function ToNumber(s: string): (r: Option<int>)
    ensures Trim(s) == "" ==> r == Some(0)
    ensures r.Some? && Trim(s) != "" ==> AllDigits(SignOf(Trim(s)).1) && |SignOf(Trim(s)).1| > 0
  {
    var t := Trim(s);
    if t == "" then Some(0)
    else
      var (sign, rest) := SignOf(t);
      if |rest| > 0 && AllDigits(rest) then Some(Signed(sign, DigitsValue(rest))) else None
  }

  /** A plain run of digits has no white space to trim. */
  lemma TrimDigits(s: string)
    requires |s| > 0 && AllDigits(s)
    ensures Trim(s) == s
  {
    var c, d := s[0], s[|s| - 1];
    assert !IsSpace(c) && !IsSpace(d) by {
      assert IsDigit(c) && IsDigit(d);
    }
    assert TrimStart(s) == s;
    assert TrimEnd(s) == s;
  }

  /** A string opening with a digit carries no sign. */
  lemma SignOfDigit(s: string)
    requires |s| > 0 && IsDigit(s[0])
    ensures SignOf(s) == (1, s)
  {
  }

  /** `Number` of a plain run of digits is its decimal value. */
  lemma ToNumberDigits(s: string)
    requires |s| > 0 && AllDigits(s)
    ensures ToNumber(s) == Some(DigitsValue(s))
  {
    TrimDigits(s);
    SignOfDigit(s);
  }

  /** `Number` reads back any rendered natural number. */
  lemma ToNumberNat(n: nat)
    ensures ToNumber(NatToString(n)) == Some(n)
  {
    NatToStringValue(n);
    ToNumberDigits(NatToString(n));
  }

  /** The order of `Array.prototype.sort` with no comparator: strings compared
      character by character, a proper prefix first. */
  predicate LexLess(a: string, b: string)
    decreases |a|
  {
    if |a| == 0 then |b| > 0
    else |b| > 0 && (a[0] < b[0] || (a[0] == b[0] && LexLess(a[1..], b[1..])))
  }

  lemma {:induction false} LexLessIrreflexive(a: string)
    ensures !LexLess(a, a)
    decreases |a|
  {
    if |a| > 0 {
      LexLessIrreflexive(a[1..]);
    }
  }

  lemma {:induction false} LexLessTransitive(a: string, b: string, c: string)
    requires LexLess(a, b) && LexLess(b, c)
    ensures LexLess(a, c)
    decreases |a|
  {
    if |a| > 0 && a[0] == b[0] && b[0] == c[0] {
      LexLessTransitive(a[1..], b[1..], c[1..]);
    }
  }

  /** Distinct strings are always ordered one way or the other. */
  lemma {:induction false} LexLessTotal(a: string, b: string)
    requires a != b
    ensures LexLess(a, b) || LexLess(b, a)
    decreases |a|
  {
    if |a| > 0 && |b| > 0 && a[0] == b[0] {
      assert a == [a[0]] + a[1..] && b == [b[0]] + b[1..];
      LexLessTotal(a[1..], b[1..]);
    }
  }

  lemma {:induction false} LexLessAsymmetric(a: string, b: string)
    requires LexLess(a, b)
    ensures !LexLess(b, a)
    decreases |a|
  {
    if |a| > 0 && |b| > 0 && a[0] == b[0] {
      LexLessAsymmetric(a[1..], b[1..]);
    }
  }

  /** Strictly increasing in the default sort order. */
  predicate StrictlySorted(s: seq<string>) {
    forall i, j :: 0 <= i < j < |s| ==> LexLess(s[i], s[j])
  }

  /** Inserts `x` before the first element not below it. */
  function Insert(x: string, s: seq<string>): (r: seq<string>)
    ensures |r| == |s| + 1
  {
    if |s| == 0 || !LexLess(s[0], x) then [x] + s
    else [s[0]] + Insert(x, s[1..])
  }

  /** Inserting adds `x` once and keeps every other element. */
  lemma {:induction false} InsertPerm(x: string, s: seq<string>)
    ensures multiset(Insert(x, s)) == multiset(s) + multiset{x}
  {
    if |s| > 0 && LexLess(s[0], x) {
      InsertPerm(x, s[1..]);
      assert s == [s[0]] + s[1..];
    }
  }

  lemma {:induction false} InsertSorted(x: string, s: seq<string>)
    requires StrictlySorted(s) && x !in s
    ensures StrictlySorted(Insert(x, s))
  {
    if |s| > 0 {
      if !LexLess(s[0], x) {
        assert s[0] != x;
        LexLessTotal(x, s[0]);
        forall j | 0 <= j < |s| ensures LexLess(x, s[j]) {
          if j > 0 {
            LexLessTransitive(x, s[0], s[j]);
          }
        }
      } else {
        InsertSorted(x, s[1..]);
        InsertPerm(x, s[1..]);
        var r := Insert(x, s);
        var t := Insert(x, s[1..]);
        forall j | 0 <= j < |t| ensures LexLess(s[0], t[j]) {
          assert t[j] in multiset(t);
          if t[j] != x {
            assert t[j] in multiset(s[1..]);
            var k :| 0 <= k < |s[1..]| && s[1..][k] == t[j];
            assert s[k + 1] == t[j];
          }
        }
      }
    }
  }

  /** `Array.from(set).sort()`: the default sort of distinct strings. */
  function SortStrings(s: seq<string>): (r: seq<string>)
    ensures |r| == |s|
  {
    if |s| == 0 then []
    else Insert(s[|s| - 1], SortStrings(s[..|s| - 1]))
  }

  /** Sorting rearranges the elements and keeps each as often as given. */
  lemma {:induction false} SortStringsPerm(s: seq<string>)
    ensures multiset(SortStrings(s)) == multiset(s)
  {
    if |s| > 0 {
      SortStringsPerm(s[..|s| - 1]);
      InsertPerm(s[|s| - 1], SortStrings(s[..|s| - 1]));
      assert s == s[..|s| - 1] + [s[|s| - 1]];
    }
  }

  /** Sorting distinct strings yields them in strictly increasing order. */
  lemma {:induction false} SortStringsSorted(s: seq<string>)
    requires NoDups(s)
    ensures StrictlySorted(SortStrings(s))
  {
    if |s| > 0 {
      var p := s[..|s| - 1];
      var x := s[|s| - 1];
      assert NoDups(p);
      SortStringsSorted(p);
      SortStringsPerm(p);
      assert x !in SortStrings(p) by {
        assert x !in p by {
          forall i | 0 <= i < |p| ensures p[i] != x {
            assert s[i] != s[|s| - 1];
          }
        }
        assert x !in multiset(SortStrings(p));
      }
      InsertSorted(x, SortStrings(p));
    }
  }

  /** A strictly sorted list has no repeats, and its last element is its largest. */
  lemma StrictlySortedLast(s: seq<string>)
    requires StrictlySorted(s) && |s| > 0
    ensures NoDups(s)
    ensures forall i :: 0 <= i < |s| - 1 ==> LexLess(s[i], s[|s| - 1])
  {
    forall i, j | 0 <= i < j < |s| ensures s[i] != s[j] {
      if s[i] == s[j] {
        LexLessIrreflexive(s[i]);
      }
    }
  }

  /** In a strictly sorted list, the last element but one is below the
      last and above every other element. */
  lemma StrictlySortedLastTwo(s: seq<string>)
    requires StrictlySorted(s) && |s| >= 2
    ensures LexLess(s[|s| - 2], s[|s| - 1])
    ensures forall k :: k in s && k != s[|s| - 2] && k != s[|s| - 1] ==> LexLess(k, s[|s| - 2])
  {
    var n := |s|;
    forall k | k in s && k != s[n - 2] && k != s[n - 1]
      ensures LexLess(k, s[n - 2])
    {
      var j :| 0 <= j < n && s[j] == k;
      assert j < n - 2;
    }
  }

  /** Sorting keeps exactly the same elements. */
  lemma SortStringsSameElements(s: seq<string>, x: string)
    ensures x in SortStrings(s) <==> x in s
  {
    SortStringsPerm(s);
    assert x in SortStrings(s) <==> x in multiset(SortStrings(s));
  }
}
