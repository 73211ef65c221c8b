// The textual shapes the services accept: RAMSES device ids (`01:123456`),
// command codes (`1F09`), domain indexes (`FA`) and hex payloads.  Each
// shape is a regular expression in the source; here it is a character
// check, and each is tied to the numbers it spells by a rendering function
// and its inverse.

module Ids {

  predicate IsDigit(c: char)
  {
    '0' <= c <= '9'
  }

  /** `[0-9A-F]` */
  predicate IsUpperHex(c: char)
  {
    IsDigit(c) || 'A' <= c <= 'F'
  }

  /** The value of a digit of base 10 or 16. */
  function GlyphValue(c: char): (d: nat)
    requires IsUpperHex(c)
    ensures d < 16
    ensures IsDigit(c) <==> d < 10
  {
    if IsDigit(c) then c as int - '0' as int else c as int - 'A' as int + 10
  }

  /** The digit for `d`, the inverse of `GlyphValue`. */
  function Glyph(d: nat): (c: char)
    requires d < 16
    ensures IsUpperHex(c) && GlyphValue(c) == d
  {
    if d < 10 then ('0' as int + d) as char else ('A' as int + d - 10) as char
  }

  lemma GlyphOfValue(c: char)
    requires IsUpperHex(c)
    ensures Glyph(GlyphValue(c)) == c
  {
  }

  predicate InBase(c: char, base: nat)
  {
    IsUpperHex(c) && GlyphValue(c) < base
  }

  predicate AllInBase(s: string, base: nat)
  {
    forall i :: 0 <= i < |s| ==> InBase(s[i], base)
  }

  function Pow(base: nat, n: nat): (p: nat)
    ensures base >= 1 ==> p >= 1
  {
    if n == 0 then 1 else base * Pow(base, n - 1)
  }

  /** `n` written with exactly `width` digits of `base`, most significant
    * first, zero-padded (and cut to the low digits if `n` is too large). */
  function Render(n: nat, width: nat, base: nat): (s: string)
    requires base == 10 || base == 16
    ensures |s| == width && AllInBase(s, base)
  {
    if width == 0 then "" else Render(n / base, width - 1, base) + [Glyph(n % base)]
  }

  /** The number a string of digits of `base` spells. */
  function Parse(s: string, base: nat): nat
    requires AllInBase(s, base)
  {
    if s == [] then 0 else Parse(s[..|s| - 1], base) * base + GlyphValue(s[|s| - 1])
  }

  /** Reading back what was rendered gives the number, when it fits. */
  lemma {:induction false} ParseRender(n: nat, width: nat, base: nat)
    requires (base == 10 || base == 16) && n < Pow(base, width)
    ensures Parse(Render(n, width, base), base) == n
  {
    if width > 0 {
      var s := Render(n, width, base);
      assert s[..|s| - 1] == Render(n / base, width - 1, base);
      var p := Pow(base, width - 1);
      if base == 10 {
        assert n / 10 < p;
      } else {
        assert n / 16 < p;
      }
      ParseRender(n / base, width - 1, base);
      assert n == (n / base) * base + n % base;
    }
  }

  /** Rendering what was read gives the string back: a digit string is the
    * rendering of exactly one number below `base^|s|`. */
  lemma {:induction false} RenderParse(s: string, base: nat)
    requires (base == 10 || base == 16) && AllInBase(s, base)
    ensures Parse(s, base) < Pow(base, |s|)
    ensures Render(Parse(s, base), |s|, base) == s
  {
    if s != [] {
      var init := s[..|s| - 1];
      assert AllInBase(init, base);
      RenderParse(init, base);
      var n := Parse(s, base);
      var m := Parse(init, base);
      var d := GlyphValue(s[|s| - 1]);
      assert n == m * base + d && d < base;
      var p := Pow(base, |init|);
      if base == 10 {
        assert n / 10 == m && n % 10 == d;
        assert n < 10 * p;
      } else {
        assert n / 16 == m && n % 16 == d;
        assert n < 16 * p;
      }
      GlyphOfValue(s[|s| - 1]);
      assert s == init + [s[|s| - 1]];
    }
  }

  // ---------------------------------------------------------------------
  // The regular expressions

  /** Python's `re.match` of a pattern `^...$` accepts a string that fits
    * the pattern, and also one that fits it but for a final newline (`$`
    * matches just before one).  `Chomp` is the string without that newline. */
  predicate EndsWithNewline(s: string)
  {
    |s| > 0 && s[|s| - 1] == '\n'
  }

  function Chomp(s: string): (r: string)
    requires EndsWithNewline(s)
    ensures r + "\n" == s
  {
    s[..|s| - 1]
  }

  /** `[0-9]{2}:[0-9]{6}` */
  predicate DeviceIdShape(s: string)
  {
    |s| == 9 && AllInBase(s[..2], 10) && s[2] == ':' && AllInBase(s[3..], 10)
  }

  /** `[0-9A-F]{4}` */
  predicate CmdCodeShape(s: string)
  {
    |s| == 4 && AllInBase(s, 16)
  }

  /** `[0-9A-F]{2}` */
  predicate DomIdxShape(s: string)
  {
    |s| == 2 && AllInBase(s, 16)
  }

  /** `([0-9A-F][0-9A-F]){1,48}`: one to 48 whole bytes. */
  predicate PayloadShape(s: string)
  {
    2 <= |s| <= 96 && |s| % 2 == 0 && AllInBase(s, 16)
  }

  predicate IsDeviceId(s: string)
  {
    DeviceIdShape(s) || (EndsWithNewline(s) && DeviceIdShape(Chomp(s)))
  }

  predicate IsCmdCode(s: string)
  {
    CmdCodeShape(s) || (EndsWithNewline(s) && CmdCodeShape(Chomp(s)))
  }

  predicate IsDomIdx(s: string)
  {
    DomIdxShape(s) || (EndsWithNewline(s) && DomIdxShape(Chomp(s)))
  }

  predicate IsPayload(s: string)
  {
    PayloadShape(s) || (EndsWithNewline(s) && PayloadShape(Chomp(s)))
  }

  // ---------------------------------------------------------------------
  // What the shapes spell

  /** A device id: a two-digit device type, a colon, a six-digit serial. */
  function FormatDeviceId(kind: nat, serial: nat): string
    requires kind < 100 && serial < 1000000
  {
    Render(kind, 2, 10) + ":" + Render(serial, 6, 10)
  }

  /** The accepted device ids (without a trailing newline) are exactly the
    * renderings of a device type below 100 and a serial below 10^6. */
  lemma DeviceIdShapeMeaning(s: string)
    ensures DeviceIdShape(s) <==>
      exists kind: nat, serial: nat :: kind < 100 && serial < 1000000 && s == FormatDeviceId(kind, serial)
  {
    if DeviceIdShape(s) {
      RenderParse(s[..2], 10);
      RenderParse(s[3..], 10);
      assert Pow(10, 2) == 100 && Pow(10, 6) == 1000000;
      var kind, serial := Parse(s[..2], 10), Parse(s[3..], 10);
      assert s == s[..2] + ":" + s[3..];
      assert s == FormatDeviceId(kind, serial);
    }
    if exists kind: nat, serial: nat :: kind < 100 && serial < 1000000 && s == FormatDeviceId(kind, serial) {
      var kind: nat, serial: nat :| kind < 100 && serial < 1000000 && s == FormatDeviceId(kind, serial);
      assert s[..2] == Render(kind, 2, 10);
      assert s[3..] == Render(serial, 6, 10);
    }
  }

  /** The device ids read back as the numbers they were made from. */
  lemma DeviceIdRoundTrip(kind: nat, serial: nat)
    requires kind < 100 && serial < 1000000
    ensures IsDeviceId(FormatDeviceId(kind, serial))
    ensures var s := FormatDeviceId(kind, serial);
      Parse(s[..2], 10) == kind && Parse(s[3..], 10) == serial
  {
    var s := FormatDeviceId(kind, serial);
    assert s[..2] == Render(kind, 2, 10);
    assert s[3..] == Render(serial, 6, 10);
    assert Pow(10, 2) == 100 && Pow(10, 6) == 1000000;
    ParseRender(kind, 2, 10);
    ParseRender(serial, 6, 10);
  }

  /** A command code is the four-digit hex rendering of a 16-bit number. */
  lemma CmdCodeShapeMeaning(s: string)
    ensures CmdCodeShape(s) <==> exists n: nat :: n < 0x1_0000 && s == Render(n, 4, 16)
  {
    if CmdCodeShape(s) {
      RenderParse(s, 16);
      assert Pow(16, 4) == 0x1_0000;
      assert s == Render(Parse(s, 16), 4, 16);
    }
  }

  /** A domain index is the two-digit hex rendering of a byte. */
  lemma DomIdxShapeMeaning(s: string)
    ensures DomIdxShape(s) <==> exists n: nat :: n < 0x100 && s == Render(n, 2, 16)
  {
    if DomIdxShape(s) {
      RenderParse(s, 16);
      assert Pow(16, 2) == 0x100;
      assert s == Render(Parse(s, 16), 2, 16);
    }
  }

  predicate Bytes(bs: seq<nat>)
  {
    forall i :: 0 <= i < |bs| ==> bs[i] < 0x100
  }

  /** Bytes as upper-case hex, two digits each. */
  function HexBytes(bs: seq<nat>): (s: string)
    requires Bytes(bs)
    ensures |s| == 2 * |bs| && AllInBase(s, 16)
  {
    if bs == [] then "" else Render(bs[0], 2, 16) + HexBytes(bs[1..])
  }

  /** The bytes a string of hex digit pairs spells. */
  function ParseBytes(s: string): (bs: seq<nat>)
    requires |s| % 2 == 0 && AllInBase(s, 16)
    ensures |bs| == |s| / 2 && Bytes(bs)
  {
    if s == [] then []
    else
      assert AllInBase(s[..2], 16) && AllInBase(s[2..], 16);
      RenderParse(s[..2], 16);
      assert Pow(16, 2) == 0x100;
      [Parse(s[..2], 16)] + ParseBytes(s[2..])
  }

  lemma {:induction false} HexBytesParse(s: string)
    requires |s| % 2 == 0 && AllInBase(s, 16)
    ensures HexBytes(ParseBytes(s)) == s
    decreases |s|
  {
    if s != [] {
      assert AllInBase(s[..2], 16) && AllInBase(s[2..], 16);
      RenderParse(s[..2], 16);
      HexBytesParse(s[2..]);
      assert s == s[..2] + s[2..];
    }
  }

  lemma {:induction false} ParseHexBytes(bs: seq<nat>)
    requires Bytes(bs)
    ensures ParseBytes(HexBytes(bs)) == bs
  {
    if bs != [] {
      var s := HexBytes(bs);
      assert s[..2] == Render(bs[0], 2, 16);
      assert s[2..] == HexBytes(bs[1..]);
      assert Pow(16, 2) == 0x100;
      ParseRender(bs[0], 2, 16);
      ParseHexBytes(bs[1..]);
    }
  }

  /** A payload is the hex of one to 48 bytes, and every such hex is one. */
  lemma PayloadShapeMeaning(s: string)
    ensures PayloadShape(s) <==> exists bs :: Bytes(bs) && 1 <= |bs| <= 48 && s == HexBytes(bs)
  {
    if PayloadShape(s) {
      HexBytesParse(s);
      var bs := ParseBytes(s);
      assert Bytes(bs) && 1 <= |bs| <= 48 && s == HexBytes(bs);
    }
  }
}
