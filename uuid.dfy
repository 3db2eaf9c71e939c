/** Row identifiers. Every primary key in the backend is a UUID; the model keeps
    the 128-bit number and gives its canonical text (`str(uuid)`) and the reading
    of text back into a number (`uuid.UUID(text)`). */
module Uuid {
  import opened Wrappers

  type Id = nat

  const UuidBound: nat := 0x1_0000_0000_0000_0000_0000_0000_0000_0000

  predicate IsHexDigit(c: char) { '0' <= c <= '9' || 'a' <= c <= 'f' || 'A' <= c <= 'F' }

  function HexValue(c: char): nat
    requires IsHexDigit(c)
  {
    if '0' <= c <= '9' then c as int - '0' as int
    else if 'a' <= c <= 'f' then c as int - 'a' as int + 10
    else c as int - 'A' as int + 10
  }

  function HexChar(v: nat): (c: char)
    requires v < 16
    ensures IsHexDigit(c) && HexValue(c) == v
  {
    if v < 10 then ('0' as int + v) as char else ('a' as int + v - 10) as char
  }

  function Pow16(k: nat): nat {
    if k == 0 then 1 else 16 * Pow16(k - 1)
  }

  /** The lowest `width` hexadecimal digits of `n`, most significant first. */
  function HexDigits(n: nat, width: nat): (r: string)
    ensures |r| == width && forall i :: 0 <= i < width ==> IsHexDigit(r[i])
  {
    if width == 0 then [] else HexDigits(n / 16, width - 1) + [HexChar(n % 16)]
  }

  function ParseHex(s: string): nat
    requires forall i :: 0 <= i < |s| ==> IsHexDigit(s[i])
  {
    if s == [] then 0 else ParseHex(s[..|s| - 1]) * 16 + HexValue(s[|s| - 1])
  }

  lemma {:induction false} ParseHexDigits(n: nat, width: nat)
    requires n < Pow16(width)
    ensures ParseHex(HexDigits(n, width)) == n
  {
    if width > 0 {
      ParseHexDigits(n / 16, width - 1);
      var s := HexDigits(n, width);
      assert s[..|s| - 1] == HexDigits(n / 16, width - 1);
    }
  }

  lemma Pow16At32()
    ensures Pow16(32) == UuidBound
  {
    assert Pow16(8) == 0x1_0000_0000;
    assert Pow16(16) == 0x1_0000_0000 * Pow16(8) by { Pow16Add(8, 8); }
    assert Pow16(32) == Pow16(16) * Pow16(16) by { Pow16Add(16, 16); }
  }

  lemma {:induction false} Pow16Add(a: nat, b: nat)
    ensures Pow16(a + b) == Pow16(a) * Pow16(b)
  {
    if a > 0 { Pow16Add(a - 1, b); }
  }

  /** `str(uuid)`: 32 lower-case hex digits grouped 8-4-4-4-12. */
  function UuidText(id: Id): string
    requires id < UuidBound
  {
    Grouped(HexDigits(id, 32))
  }

  /** Thirty-two digits split 8-4-4-4-12 with a hyphen between groups. */
  function Grouped(h: string): string
    requires |h| == 32
  {
    Hyphen(Hyphen(Hyphen(Hyphen(h[0..8], h[8..12]), h[12..16]), h[16..20]), h[20..32])
  }

  function Hyphen(x: string, y: string): string { x + "-" + y }

  function RemoveDashes(s: string): (r: string)
    ensures '-' !in r
  {
    if s == [] then [] else (if s[0] == '-' then [] else [s[0]]) + RemoveDashes(s[1..])
  }

  lemma {:induction false} RemoveDashesAppend(a: string, b: string)
    ensures RemoveDashes(a + b) == RemoveDashes(a) + RemoveDashes(b)
  {
    if a != [] {
      assert (a + b)[1..] == a[1..] + b;
      RemoveDashesAppend(a[1..], b);
    } else {
      assert a + b == b;
    }
  }

  lemma {:induction false} RemoveDashesNone(a: string)
    requires '-' !in a
    ensures RemoveDashes(a) == a
  {
    if a != [] { RemoveDashesNone(a[1..]); }
  }

  /** `uuid.UUID(text)` for the hyphenated and plain hexadecimal spellings: hyphens
      are dropped and exactly 32 hex digits, of either case, must remain. */
  function ParseUuid(s: string): (r: Option<Id>)
    ensures r.Some? ==> r.value < UuidBound
  {
    var h := RemoveDashes(s);
    if |h| == 32 && forall i :: 0 <= i < 32 ==> IsHexDigit(h[i]) then
      ParseHexBound(h);
      Pow16At32();
      Some(ParseHex(h))
    else None
  }

  lemma {:induction false} ParseHexBound(s: string)
    requires forall i :: 0 <= i < |s| ==> IsHexDigit(s[i])
    ensures ParseHex(s) < Pow16(|s|)
  {
    if s != [] { ParseHexBound(s[..|s| - 1]); }
  }

  lemma HyphenDropped(x: string, y: string)
    ensures RemoveDashes(Hyphen(x, y)) == RemoveDashes(x) + RemoveDashes(y)
  {
    assert RemoveDashes("-") == [];
    RemoveDashesAppend(x, "-");
    RemoveDashesAppend(x + "-", y);
  }

  lemma HexRoundTrip32(id: Id)
    requires id < UuidBound
    ensures ParseHex(HexDigits(id, 32)) == id
  {
    Pow16At32();
    ParseHexDigits(id, 32);
  }

  /** The canonical text is the 32 digits with four hyphens inserted. */
  lemma UuidTextDigits(id: Id)
    requires id < UuidBound
    ensures |UuidText(id)| == 36 && RemoveDashes(UuidText(id)) == HexDigits(id, 32)
  {
    var h := HexDigits(id, 32);
    assert '-' !in h by {
      assert forall i :: 0 <= i < |h| ==> h[i] != '-';
    }
    GroupedDashes(h);
  }

  lemma GroupedDashes(h: string)
    requires |h| == 32 && '-' !in h
    ensures |Grouped(h)| == 36 && RemoveDashes(Grouped(h)) == h
  {
    var a1 := Hyphen(h[0..8], h[8..12]);
    var a2 := Hyphen(a1, h[12..16]);
    var a3 := Hyphen(a2, h[16..20]);
    var a4 := Hyphen(a3, h[20..32]);
    assert RemoveDashes(a1) == h[0..12] by {
      HyphenDroppedClean(h[0..8], h[8..12]);
      assert h[0..8] + h[8..12] == h[0..12];
    }
    assert RemoveDashes(a2) == h[0..16] by {
      HyphenDropped(a1, h[12..16]);
      RemoveDashesNone(h[12..16]);
      assert h[0..12] + h[12..16] == h[0..16];
    }
    assert RemoveDashes(a3) == h[0..20] by {
      HyphenDropped(a2, h[16..20]);
      RemoveDashesNone(h[16..20]);
      assert h[0..16] + h[16..20] == h[0..20];
    }
    assert RemoveDashes(a4) == h by {
      HyphenDropped(a3, h[20..32]);
      RemoveDashesNone(h[20..32]);
      assert h[0..20] + h[20..32] == h;
    }
  }

  lemma HyphenDroppedClean(x: string, y: string)
    requires '-' !in x && '-' !in y
    ensures RemoveDashes(Hyphen(x, y)) == x + y
  {
    HyphenDropped(x, y);
    RemoveDashesNone(x);
    RemoveDashesNone(y);
  }

  /** Reading the canonical text of an id gives back that id. */
  lemma UuidRoundTrip(id: Id)
    requires id < UuidBound
    ensures |UuidText(id)| == 36
    ensures ParseUuid(UuidText(id)) == Some(id)
  {
    UuidTextDigits(id);
    HexRoundTrip32(id);
  }
}
