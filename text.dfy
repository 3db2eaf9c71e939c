/** The string operations the backend relies on, over ASCII: `str.lower`,
    `str.upper`, `str.strip()`, `str.split(sep)`, `in` on strings, and the
    decimal rendering of `str(int)` and `%0Nd`. */
module Text {

  // ---------------------------------------------------------------------------
  // Case mapping.

  predicate IsUpper(c: char) { 'A' <= c <= 'Z' }
  predicate IsLowerLetter(c: char) { 'a' <= c <= 'z' }

  function LowerChar(c: char): char {
    if IsUpper(c) then (c as int + 32) as char else c
  }

  function UpperChar(c: char): char {
    if IsLowerLetter(c) then (c as int - 32) as char else c
  }

  /** `s.lower()` on ASCII text. */
  function Lower(s: string): (r: string)
    ensures |r| == |s|
    ensures forall i :: 0 <= i < |s| ==> r[i] == LowerChar(s[i])
  {
    seq(|s|, i requires 0 <= i < |s| => LowerChar(s[i]))
  }

  /** `s.upper()` on ASCII text. */
  function Upper(s: string): (r: string)
    ensures |r| == |s|
    ensures forall i :: 0 <= i < |s| ==> r[i] == UpperChar(s[i])
  {
    seq(|s|, i requires 0 <= i < |s| => UpperChar(s[i]))
  }

  predicate NoUpper(s: string) { forall i :: 0 <= i < |s| ==> !IsUpper(s[i]) }
  predicate NoLower(s: string) { forall i :: 0 <= i < |s| ==> !IsLowerLetter(s[i]) }

  /** Lower-casing leaves no upper-case letter, and lower-case text is a fixed point. */
  lemma LowerIsLower(s: string)
    ensures NoUpper(Lower(s))
    ensures NoUpper(s) ==> Lower(s) == s
    ensures Lower(Lower(s)) == Lower(s)
  {
  }

  lemma UpperIsUpper(s: string)
    ensures NoLower(Upper(s))
    ensures NoLower(s) ==> Upper(s) == s
    ensures Upper(Upper(s)) == Upper(s)
  {
  }

  // ---------------------------------------------------------------------------
  // Whitespace stripping, as `str.strip()` with no argument on ASCII input.

  /** The ASCII characters for which `str.isspace()` is true. */
  predicate IsSpace(c: char) {
    c == ' ' || c == '\t' || c == '\n' || c == '\r' || c == '\U{000B}' || c == '\U{000C}'
    || c == '\U{001C}' || c == '\U{001D}' || c == '\U{001E}' || c == '\U{001F}'
  }

  predicate AllSpace(s: string) { forall i :: 0 <= i < |s| ==> IsSpace(s[i]) }

  function LStrip(s: string): string {
    if |s| > 0 && IsSpace(s[0]) then LStrip(s[1..]) else s
  }

  function RStrip(s: string): string {
    if |s| > 0 && IsSpace(s[|s| - 1]) then RStrip(s[..|s| - 1]) else s
  }

  function Strip(s: string): string { RStrip(LStrip(s)) }

  /** Neither end of a stripped string is whitespace. */
  predicate Trimmed(s: string) {
    s == [] || (!IsSpace(s[0]) && !IsSpace(s[|s| - 1]))
  }

  lemma {:induction false} LStripSplits(s: string)
    ensures exists k :: 0 <= k <= |s| && AllSpace(s[..k]) && LStrip(s) == s[k..]
    ensures LStrip(s) == [] || !IsSpace(LStrip(s)[0])
    decreases |s|
  {
    if |s| > 0 && IsSpace(s[0]) {
      LStripSplits(s[1..]);
      var k :| 0 <= k <= |s[1..]| && AllSpace(s[1..][..k]) && LStrip(s[1..]) == s[1..][k..];
      var p := s[..k + 1];
      assert AllSpace(p) by {
        forall i | 0 <= i < k + 1 ensures IsSpace(p[i]) {
          if i > 0 { assert p[i] == s[1..][..k][i - 1]; }
        }
      }
      assert s[k + 1..] == s[1..][k..];
    } else {
      assert s[..0] == [] && s[0..] == s;
    }
  }

  lemma {:induction false} RStripSplits(s: string)
    ensures exists k :: 0 <= k <= |s| && AllSpace(s[k..]) && RStrip(s) == s[..k]
    ensures RStrip(s) == [] || !IsSpace(RStrip(s)[|RStrip(s)| - 1])
    decreases |s|
  {
    RStripEnd(s);
    if |s| > 0 && IsSpace(s[|s| - 1]) {
      var t := s[..|s| - 1];
      RStripSplits(t);
      var k :| 0 <= k <= |t| && AllSpace(t[k..]) && RStrip(t) == t[..k];
      SpaceSuffixGrows(s, k);
      assert s[..k] == t[..k];
    } else {
      assert s[|s|..] == [] && s[..|s|] == s;
    }
  }

  lemma SpaceSuffixGrows(s: string, k: nat)
    requires k < |s| && IsSpace(s[|s| - 1]) && AllSpace(s[..|s| - 1][k..])
    ensures AllSpace(s[k..])
  {
    var t := s[..|s| - 1];
    forall i | 0 <= i < |s| - k ensures IsSpace(s[k..][i]) {
      if i < |t| - k { assert s[k..][i] == t[k..][i]; }
    }
  }

  lemma {:induction false} RStripEnd(s: string)
    ensures RStrip(s) == [] || !IsSpace(RStrip(s)[|RStrip(s)| - 1])
    decreases |s|
  {
    if |s| > 0 && IsSpace(s[|s| - 1]) {
      RStripEnd(s[..|s| - 1]);
    }
  }

  /** The left end of an already left-stripped string survives a right strip. */
  lemma {:induction false} RStripKeepsHead(s: string)
    requires s == [] || !IsSpace(s[0])
    ensures RStrip(s) == [] || RStrip(s)[0] == s[0]
    decreases |s|
  {
    if |s| > 0 && IsSpace(s[|s| - 1]) {
      RStripKeepsHead(s[..|s| - 1]);
    }
  }

  /** `str.strip()` removes a whitespace prefix and a whitespace suffix and nothing
      else, and leaves neither end on whitespace. */
  lemma StripSpec(s: string)
    ensures Trimmed(Strip(s))
    ensures exists i, j :: 0 <= i <= j <= |s| && AllSpace(s[..i]) && AllSpace(s[j..]) && Strip(s) == s[i..j]
  {
    LStripSplits(s);
    var i :| 0 <= i <= |s| && AllSpace(s[..i]) && LStrip(s) == s[i..];
    var t := s[i..];
    RStripSplits(t);
    var k :| 0 <= k <= |t| && AllSpace(t[k..]) && RStrip(t) == t[..k];
    RStripKeepsHead(t);
    assert s[i + k..] == t[k..];
    assert t[..k] == s[i..i + k];
  }

  lemma {:induction false} LStripTrimmedHead(s: string)
    requires s == [] || !IsSpace(s[0])
    ensures LStrip(s) == s
  {
  }

  lemma {:induction false} RStripTrimmed(s: string)
    requires s == [] || !IsSpace(s[|s| - 1])
    ensures RStrip(s) == s
  {
  }

  /** Stripping twice is stripping once. */
  lemma StripIdempotent(s: string)
    ensures Strip(Strip(s)) == Strip(s)
  {
    StripSpec(s);
    var t := Strip(s);
    LStripTrimmedHead(t);
    RStripTrimmed(t);
  }

  // ---------------------------------------------------------------------------
  // Title normalisation: `s.lower().strip()`.

  function Normalize(s: string): string { Strip(Lower(s)) }

  lemma StripNoUpper(s: string)
    requires NoUpper(s)
    ensures NoUpper(Strip(s))
  {
    StripSpec(s);
    var i, j :| 0 <= i <= j <= |s| && AllSpace(s[..i]) && AllSpace(s[j..]) && Strip(s) == s[i..j];
    assert forall k :: 0 <= k < j - i ==> Strip(s)[k] == s[i + k];
  }

  /** A normalised string is lower-case, trimmed, and a fixed point of normalisation. */
  lemma NormalizeIdempotent(s: string)
    ensures NoUpper(Normalize(s)) && Trimmed(Normalize(s))
    ensures Normalize(Normalize(s)) == Normalize(s)
  {
    LowerIsLower(s);
    StripNoUpper(Lower(s));
    StripSpec(Lower(s));
    LowerIsLower(Normalize(s));
    StripIdempotent(Lower(s));
  }

  // ---------------------------------------------------------------------------
  // Substring test: Python's `needle in haystack`.

  predicate OccursAt(needle: string, haystack: string, i: int) {
    0 <= i <= |haystack| - |needle| && haystack[i..i + |needle|] == needle
  }

  predicate IsSubstring(needle: string, haystack: string) {
    exists i :: 0 <= i <= |haystack| - |needle| && OccursAt(needle, haystack, i)
  }

  lemma SubstringReflexive(s: string)
    ensures IsSubstring(s, s)
  {
    assert OccursAt(s, s, 0);
  }

  lemma EmptyIsSubstring(s: string)
    ensures IsSubstring([], s)
  {
    assert OccursAt([], s, 0);
  }

  // ---------------------------------------------------------------------------
  // Splitting and joining on one separator character.

  function Count(s: string, c: char): nat {
    if s == [] then 0 else (if s[0] == c then 1 else 0) + Count(s[1..], c)
  }

  /** `s.split(sep)`: the pieces between separators, always at least one. */
  function Split(s: string, sep: char): (r: seq<string>)
    ensures |r| >= 1
  {
    if s == [] then [[]]
    else
      var rest := Split(s[1..], sep);
      if s[0] == sep then [[]] + rest else [[s[0]] + rest[0]] + rest[1..]
  }

  /** `sep.join(parts)`. */
  function Join(parts: seq<string>, sep: char): string {
    if parts == [] then []
    else if |parts| == 1 then parts[0]
    else parts[0] + [sep] + Join(parts[1..], sep)
  }

  /** There is one more piece than there are separators. */
  lemma {:induction false} SplitCount(s: string, sep: char)
    ensures |Split(s, sep)| == Count(s, sep) + 1
  {
    if s != [] { SplitCount(s[1..], sep); }
  }

  /** No piece contains the separator. */
  lemma {:induction false} SplitPiecesFree(s: string, sep: char)
    ensures forall k :: 0 <= k < |Split(s, sep)| ==> sep !in Split(s, sep)[k]
  {
    if s != [] { SplitPiecesFree(s[1..], sep); }
  }

  /** Joining the pieces back with the separator restores the input: the pieces keep
      the original order and lose nothing. */
  lemma {:induction false} JoinSplit(s: string, sep: char)
    ensures Join(Split(s, sep), sep) == s
  {
    if s != [] {
      var rest := Split(s[1..], sep);
      JoinSplit(s[1..], sep);
      if s[0] == sep {
        assert s == [sep] + s[1..];
      } else {
        var r := Split(s, sep);
        if |rest| == 1 {
          assert r == [[s[0]] + rest[0]];
        } else {
          assert r[1..] == rest[1..];
          assert Join(r, sep) == [s[0]] + rest[0] + [sep] + Join(rest[1..], sep);
        }
        assert s == [s[0]] + s[1..];
      }
    }
  }

  // ---------------------------------------------------------------------------
  // Decimal digits.

  predicate IsDigit(c: char) { '0' <= c <= '9' }
  predicate AllDigits(s: string) { forall i :: 0 <= i < |s| ==> IsDigit(s[i]) }

  function DigitChar(d: nat): char
    requires d < 10
  {
    ('0' as int + d) as char
  }

  function DigitValue(c: char): nat
    requires IsDigit(c)
  {
    c as int - '0' as int
  }

  function Pow10(k: nat): nat {
    if k == 0 then 1 else 10 * Pow10(k - 1)
  }

  /** `str(n)` for a non-negative integer. */
  function NatToString(n: nat): string {
    if n < 10 then [DigitChar(n)] else NatToString(n / 10) + [DigitChar(n % 10)]
  }

  /** The value of a string of decimal digits (the empty string reads as 0). */
  function ParseNat(s: string): nat
    requires AllDigits(s)
  {
    if s == [] then 0 else ParseNat(s[..|s| - 1]) * 10 + DigitValue(s[|s| - 1])
  }

  function Repeat(c: char, k: nat): (r: string)
    ensures |r| == k && forall i :: 0 <= i < k ==> r[i] == c
  {
    if k == 0 then [] else [c] + Repeat(c, k - 1)
  }

  /** `"%0{width}d" % n`: at least `width` digits, padded with leading zeros. */
  function ZeroPad(n: nat, width: nat): string {
    var d := NatToString(n);
    if |d| >= width then d else Repeat('0', width - |d|) + d
  }

  lemma {:induction false} NatToStringDigits(n: nat)
    ensures AllDigits(NatToString(n)) && |NatToString(n)| >= 1
    ensures ParseNat(NatToString(n)) == n
  {
    if n >= 10 {
      NatToStringDigits(n / 10);
      var s := NatToString(n);
      assert s[..|s| - 1] == NatToString(n / 10);
    }
  }

  lemma {:induction false} NatToStringLength(n: nat, w: nat)
    requires n < Pow10(w)
    ensures |NatToString(n)| <= Max1(w)
  {
    if n >= 10 {
      NatToStringLength(n / 10, w - 1);
    }
  }

  function Max1(w: nat): nat { if w == 0 then 1 else w }

  lemma {:induction false} ParseNatAppend(a: string, b: string)
    requires AllDigits(a) && AllDigits(b)
    ensures AllDigits(a + b)
    ensures ParseNat(a + b) == ParseNat(a) * Pow10(|b|) + ParseNat(b)
    decreases |b|
  {
    if b != [] {
      var b' := b[..|b| - 1];
      var d := DigitValue(b[|b| - 1]);
      assert (a + b)[..|a + b| - 1] == a + b';
      ParseNatAppend(a, b');
      assert ParseNat(a + b) == ParseNat(a + b') * 10 + d;
      assert ParseNat(b) == ParseNat(b') * 10 + d;
      ShiftDigit(ParseNat(a), Pow10(|b'|), ParseNat(b'), d);
    } else {
      assert a + b == a;
    }
  }

  /** Appending one digit to a number written as a prefix and a suffix. */
  lemma ShiftDigit(x: int, p: int, y: int, d: int)
    ensures (x * p + y) * 10 + d == x * (p * 10) + (y * 10 + d)
  {
  }

  lemma {:induction false} ParseZeros(k: nat)
    ensures AllDigits(Repeat('0', k)) && ParseNat(Repeat('0', k)) == 0
  {
    if k > 0 {
      var z := Repeat('0', k);
      assert z[..|z| - 1] == Repeat('0', k - 1);
      ParseZeros(k - 1);
    }
  }

  /** `%0Nd` reads back as the number it renders, and is exactly N characters wide
      when the number has at most N digits. */
  lemma ZeroPadSpec(n: nat, width: nat)
    ensures AllDigits(ZeroPad(n, width)) && ParseNat(ZeroPad(n, width)) == n
    ensures |ZeroPad(n, width)| >= width
    ensures width >= 1 && n < Pow10(width) ==> |ZeroPad(n, width)| == width
  {
    var d := NatToString(n);
    NatToStringDigits(n);
    if |d| < width {
      var z := Repeat('0', width - |d|);
      ParseZeros(width - |d|);
      ParseNatAppend(z, d);
    }
    if width >= 1 && n < Pow10(width) {
      NatToStringLength(n, width);
    }
  }
}
