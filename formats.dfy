/**
 * The small text and number helpers of the VA3C converter: format_uuid,
 * format_color, the String#hex reading that make_material applies to a
 * formatted color, and identity_matrix.
 */
module Formats {
  import opened Numerals

  /** format_uuid: the UUID text with every '{' and every '}' removed. */
  function FormatUuid(uuid: string): (r: string)
    ensures '{' !in r && '}' !in r
    ensures |r| <= |uuid|
  {
    if uuid == [] then []
    else (if uuid[0] == '{' || uuid[0] == '}' then [] else [uuid[0]]) + FormatUuid(uuid[1..])
  }

  /** Every other character of the UUID text survives formatting. */
  lemma {:induction false} FormatUuidKeepsOthers(uuid: string, c: char)
    requires c != '{' && c != '}'
    ensures c in FormatUuid(uuid) <==> c in uuid
    decreases |uuid|
  {
    if uuid != [] {
      FormatUuidKeepsOthers(uuid[1..], c);
      assert uuid == [uuid[0]] + uuid[1..];
    }
  }

  lemma {:induction false} FormatUuidAppend(a: string, b: string)
    ensures FormatUuid(a + b) == FormatUuid(a) + FormatUuid(b)
    decreases |a|
  {
    if a == [] {
      assert a + b == b;
    } else {
      assert (a + b)[1..] == a[1..] + b;
      FormatUuidAppend(a[1..], b);
    }
  }

  /** Text without braces passes through unchanged. */
  lemma {:induction false} FormatUuidKeepsPlainText(s: string)
    requires '{' !in s && '}' !in s
    ensures FormatUuid(s) == s
    decreases |s|
  {
    if s != [] {
      FormatUuidKeepsPlainText(s[1..]);
    }
  }

  /** A braced UUID, as the model library renders one, loses exactly its two braces. */
  lemma FormatUuidOfBraced(inner: string)
    requires '{' !in inner && '}' !in inner
    ensures FormatUuid("{" + inner + "}") == inner
  {
    var braced := "{" + inner;
    FormatUuidAppend(braced, "}");
    FormatUuidAppend("{", inner);
    FormatUuidKeepsPlainText(inner);
    BracesVanish();
    assert FormatUuid(braced) == inner;
  }

  lemma BracesVanish()
    ensures FormatUuid("{") == [] && FormatUuid("}") == []
  {
    assert FormatUuid("{") == [] + FormatUuid("{"[1..]);
    assert FormatUuid("}") == [] + FormatUuid("}"[1..]);
  }

  /** Formatting twice is formatting once. */
  lemma FormatUuidIdempotent(uuid: string)
    ensures FormatUuid(FormatUuid(uuid)) == FormatUuid(uuid)
  {
    FormatUuidKeepsPlainText(FormatUuid(uuid));
  }

  /**
   * format_color: "0x" followed by each channel's lower-case hex digits,
   * red, green, blue, each without padding to two digits.
   */
  function FormatColor(r: nat, g: nat, b: nat): string
  {
    "0x" + Digits(r, 16) + Digits(g, 16) + Digits(b, 16)
  }

  /** The longest prefix of `s` made of digits of `base`. */
  function LeadingDigits(s: string, base: Base): (r: string)
    ensures r <= s && IsDigits(r, base)
    ensures |r| < |s| ==> CharValue(s[|r|]) >= base
  {
    if s == [] || CharValue(s[0]) >= base then [] else [s[0]] + LeadingDigits(s[1..], base)
  }

  /**
   * Ruby's String#hex on the texts this program gives it: an optional "0x"
   * or "0X" prefix, then the longest run of hex digits; 0 when there is none.
   */
  function HexValue(s: string): nat
  {
    var body := if |s| >= 2 && s[0] == '0' && (s[1] == 'x' || s[1] == 'X') then s[2..] else s;
    Value(LeadingDigits(body, 16), 16)
  }

  /** String#hex reads back any run of hex digits written after "0x". */
  lemma HexValueOfPrefixed(ds: string)
    requires IsDigits(ds, 16)
    ensures HexValue("0x" + ds) == Value(ds, 16)
  {
    var s := "0x" + ds;
    assert s[0] == '0' && s[1] == 'x' && s[2..] == ds;
    var r := LeadingDigits(ds, 16);
    if |r| < |ds| {
      assert false;
    }
    assert r == ds;
  }

  /** The integer make_material stores for a formatted color. */
  function ColorValue(r: nat, g: nat, b: nat): nat
  {
    HexValue(FormatColor(r, g, b))
  }

  /** The stored color is the value of the three digit strings written one after the other. */
  lemma ColorValueOfDigits(r: nat, g: nat, b: nat)
    ensures ColorValue(r, g, b) == Value(Digits(r, 16) + Digits(g, 16) + Digits(b, 16), 16)
  {
    var ds := Digits(r, 16) + Digits(g, 16) + Digits(b, 16);
    assert FormatColor(r, g, b) == "0x" + ds;
    DigitsAreDigits(r, 16);
    DigitsAreDigits(g, 16);
    DigitsAreDigits(b, 16);
    HexValueOfPrefixed(ds);
  }

  /** Reading three digit strings written one after the other. */
  lemma ValueOfThree(a: string, b: string, c: string)
    ensures Value(a + b + c, 16) == Scale(Scale(Value(a, 16), |b|, 16) + Value(b, 16), |c|, 16) + Value(c, 16)
  {
    ValueAppend(a, b, 16);
    ValueAppend(a + b, c, 16);
  }

  lemma ValueOfThreeParts(a: string, b: string, c: string, x: nat, y: nat, z: nat)
    requires Value(a, 16) == x && Value(b, 16) == y && Value(c, 16) == z
    ensures Value(a + b + c, 16) == Scale(Scale(x, |b|, 16) + y, |c|, 16) + z
  {
    ValueOfThree(a, b, c);
  }

  lemma ChannelDigitsValue(r: nat, g: nat, b: nat)
    ensures Value(Digits(r, 16) + Digits(g, 16) + Digits(b, 16), 16)
         == Scale(Scale(r, |Digits(g, 16)|, 16) + g, |Digits(b, 16)|, 16) + b
  {
    DigitsRoundTrip(r, 16);
    DigitsRoundTrip(g, 16);
    DigitsRoundTrip(b, 16);
    ValueOfThreeParts(Digits(r, 16), Digits(g, 16), Digits(b, 16), r, g, b);
  }

  /**
   * The stored color concatenates the channels' digit strings: red is
   * shifted by the digits of green and blue, green by the digits of blue.
   */
  lemma ColorValueShifts(r: nat, g: nat, b: nat)
    ensures ColorValue(r, g, b)
         == Scale(Scale(r, |Digits(g, 16)|, 16) + g, |Digits(b, 16)|, 16) + b
  {
    ColorValueOfDigits(r, g, b);
    ChannelDigitsValue(r, g, b);
  }

  /**
   * When green and blue each take two hex digits the stored color is the
   * 24-bit RGB value 0xRRGGBB.
   */
  lemma ColorValueOfTwoDigitChannels(r: nat, g: nat, b: nat)
    requires 16 <= g < 256 && 16 <= b < 256
    ensures ColorValue(r, g, b) == r * 65536 + g * 256 + b
  {
    ColorValueShifts(r, g, b);
    TwoDigitShifts(r, g, b);
  }

  lemma TwoDigitShifts(r: nat, g: nat, b: nat)
    requires 16 <= g < 256 && 16 <= b < 256
    ensures Scale(Scale(r, |Digits(g, 16)|, 16) + g, |Digits(b, 16)|, 16) + b == r * 65536 + g * 256 + b
  {
    DigitsLength(g, 16);
    DigitsLength(b, 16);
    ScaleTwice(r);
    ScaleTwice(r * 256 + g);
  }

  lemma ScaleTwice(x: nat)
    ensures Scale(x, 2, 16) == x * 256
  {
    assert Scale(x, 1, 16) == Scale(x, 0, 16) * 16;
  }

  /** Hex digits of the channel values used below. */
  lemma SomeHexDigits()
    ensures Digits(0, 16) == "0" && Digits(153, 16) == "99" && Digits(255, 16) == "ff"
  {
    assert Digits(153, 16) == "99" by {
      assert 153 / 16 == 9 && 153 % 16 == 9;
      assert Digits(9, 16) == "9";
    }
    assert Digits(255, 16) == "ff" by {
      assert 255 / 16 == 15 && 255 % 16 == 15;
      assert Digits(15, 16) == "f";
    }
  }

  /**
   * Without padding a channel below 16 shifts the others: (0, 153, 0) is
   * written "0x0990" and stored as 0x990, not as 0x009900.
   */
  lemma ColorValueDropsGreenPadding()
    ensures FormatColor(0, 153, 0) == "0x0990"
    ensures ColorValue(0, 153, 0) == 0x990 != 0x009900
  {
    SomeHexDigits();
    ColorValueShifts(0, 153, 0);
    assert |Digits(153, 16)| == 2 && |Digits(0, 16)| == 1;
    ScaleTwice(0);
    assert Scale(153, 1, 16) == Scale(153, 0, 16) * 16;
  }

  /** Likewise (255, 0, 0) is written "0xff00" and stored as 0xff00, a green, not as 0xff0000. */
  lemma ColorValueDropsRedPadding()
    ensures FormatColor(255, 0, 0) == "0xff00"
    ensures ColorValue(255, 0, 0) == 0xff00 != 0xff0000
  {
    SomeHexDigits();
    ColorValueShifts(255, 0, 0);
  }

  /** identity_matrix: the 4x4 identity as a flat list of sixteen numbers. */
  function IdentityMatrix(): (m: seq<int>)
    ensures |m| == 16
    ensures forall i :: 0 <= i < 16 ==> m[i] == if i % 5 == 0 then 1 else 0
  {
    [1, 0, 0, 0, 0, 1, 0, 0, 0, 0, 1, 0, 0, 0, 0, 1]
  }
}
