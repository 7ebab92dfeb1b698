/**
 * Colours: the RGB triple a colour name resolves to, and the `aabbggrr` hex
 * string that KML icon styles carry (alpha first, then blue, green, red).
 */
module Colour {
  import opened Wrappers
  import opened Failures

  type Byte = x: int | 0 <= x < 256

  datatype Rgb = Rgb(red: Byte, green: Byte, blue: Byte)

  /** `webcolors.name_to_rgb`: the names it knows, with their triples. */
  type ColourTable = map<string, Rgb>

  /** The CSS3 colours that the configured lists use. */
  const Css3Colours: ColourTable :=
    map["red" := Rgb(255, 0, 0), "pink" := Rgb(255, 192, 203), "blue" := Rgb(0, 0, 255)]

  /** The lowercase hex digit of `d`: `0`-`9`, then `a`-`f`. */
  function HexDigit(d: nat): char
    requires d < 16
  {
    if d < 10 then ('0' as int + d) as char else ('a' as int + d - 10) as char
  }

  /** `"{:02x}".format(b)`: two lowercase hex digits. */
  function Hex2(b: Byte): (r: string)
    ensures |r| == 2
  {
    [HexDigit(b / 16), HexDigit(b % 16)]
  }

  /** The value of one lowercase hex digit. */
  function HexValue(c: char): (r: Option<nat>)
    ensures r.Some? ==> r.value < 16 && HexDigit(r.value) == c
  {
    if '0' <= c <= '9' then Some(c as int - '0' as int)
    else if 'a' <= c <= 'f' then Some(c as int - 'a' as int + 10)
    else None
  }

  function ParseHex2(s: string): Option<Byte>
  {
    if |s| != 2 then None
    else match (HexValue(s[0]), HexValue(s[1]))
      case (Some(hi), Some(lo)) => Some(hi * 16 + lo)
      case _ => None
  }

  /** Every digit reads back as its value. */
  lemma HexDigitValue(d: nat)
    requires d < 16
    ensures HexValue(HexDigit(d)) == Some(d)
  {
  }

  lemma Hex2RoundTrip(b: Byte)
    ensures ParseHex2(Hex2(b)) == Some(b)
  {
    var hi, lo := b / 16, b % 16;
    HexDigitValue(hi);
    HexDigitValue(lo);
    assert b == hi * 16 + lo;
  }

  lemma ParseHex2RoundTrip(s: string)
    requires ParseHex2(s).Some?
    ensures Hex2(ParseHex2(s).value) == s
  {
    var hi, lo := HexValue(s[0]).value, HexValue(s[1]).value;
    Hex2Digits(hi, lo);
    assert s == [s[0], s[1]];
  }

  /** The byte with hex digits `hi` and `lo` prints as those two digits. */
  lemma Hex2Digits(hi: nat, lo: nat)
    requires hi < 16 && lo < 16
    ensures Hex2(hi * 16 + lo) == [HexDigit(hi), HexDigit(lo)]
  {
    var v: Byte := hi * 16 + lo;
    assert v / 16 == hi && v % 16 == lo by {
      assert v == 16 * hi + lo;
    }
  }

  /** `_get_color` after the name lookup: `"ff{:02x}{:02x}{:02x}".format(bb, gg, rr)`. */
  function Abgr(rgb: Rgb): string
  {
    "ff" + Hex2(rgb.blue) + Hex2(rgb.green) + Hex2(rgb.red)
  }

  /** Eight characters: opaque alpha, then the blue, green and red bytes as two hex digits each. */
  lemma AbgrLayout(rgb: Rgb)
    ensures |Abgr(rgb)| == 8 && Abgr(rgb)[..2] == "ff"
    ensures Abgr(rgb)[2..4] == Hex2(rgb.blue) && Abgr(rgb)[4..6] == Hex2(rgb.green) && Abgr(rgb)[6..8] == Hex2(rgb.red)
  {
  }

  /** Reads an `aabbggrr` string with opaque alpha back into its triple. */
  function ParseAbgr(s: string): Option<Rgb>
  {
    if |s| != 8 || s[..2] != "ff" then None
    else match (ParseHex2(s[2..4]), ParseHex2(s[4..6]), ParseHex2(s[6..8]))
      case (Some(bb), Some(gg), Some(rr)) => Some(Rgb(rr, gg, bb))
      case _ => None
  }

  /** Characters 2..8 decode back to the blue, green and red bytes. */
  lemma AbgrRoundTrip(rgb: Rgb)
    ensures ParseAbgr(Abgr(rgb)) == Some(rgb)
  {
    AbgrLayout(rgb);
    Hex2RoundTrip(rgb.blue);
    Hex2RoundTrip(rgb.green);
    Hex2RoundTrip(rgb.red);
  }

  /** Every string that reads as a colour is the encoding of that colour. */
  lemma ParseAbgrRoundTrip(s: string)
    requires ParseAbgr(s).Some?
    ensures Abgr(ParseAbgr(s).value) == s
  {
    ParseHex2RoundTrip(s[2..4]);
    ParseHex2RoundTrip(s[4..6]);
    ParseHex2RoundTrip(s[6..8]);
    assert s == s[..2] + s[2..4] + s[4..6] + s[6..8];
  }

  /** `KmlMaker._get_color`: fails, as `name_to_rgb` does, on a name the table does not know. */
  function KmlColour(table: ColourTable, name: string): (r: Result<string, Error>)
    ensures r.Err? <==> name !in table
    ensures r.Err? ==> r.error == UnknownColour(name)
  {
    if name in table then Ok(Abgr(table[name])) else Err(UnknownColour(name))
  }

  /** A colour the table knows encodes to a string that decodes back to its triple. */
  lemma KmlColourDecodes(table: ColourTable, name: string)
    requires name in table
    ensures KmlColour(table, name).Ok?
    ensures ParseAbgr(KmlColour(table, name).value) == Some(table[name])
  {
    AbgrRoundTrip(table[name]);
  }

  /** The first of `names` that the table does not know, if any. */
  function FirstUnknown(table: ColourTable, names: seq<string>): (r: Option<string>)
    ensures r.Some? ==> r.value in names && r.value !in table
    ensures r.None? <==> forall i :: 0 <= i < |names| ==> names[i] in table
    ensures r.Some? ==> exists k :: 0 <= k < |names| && names[k] == r.value && forall m :: 0 <= m < k ==> names[m] in table
    decreases |names|
  {
    if names == [] then None
    else
      var init := names[..|names| - 1];
      assert forall m :: 0 <= m < |init| ==> init[m] == names[m];
      var first := FirstUnknown(table, init);
      if first.Some? then first
      else if names[|names| - 1] !in table then Some(names[|names| - 1])
      else None
  }

  lemma FirstUnknownSnoc(table: ColourTable, names: seq<string>, c: string)
    requires FirstUnknown(table, names).None? && c in table
    ensures FirstUnknown(table, names + [c]).None?
  {
    assert (names + [c])[..|names|] == names;
  }

  /** Once a name is unknown, names after it do not change which one is reported. */
  lemma {:induction false} FirstUnknownAppend(table: ColourTable, a: seq<string>, b: seq<string>)
    requires FirstUnknown(table, a).Some?
    ensures FirstUnknown(table, a + b) == FirstUnknown(table, a)
    decreases |b|
  {
    if b == [] {
      assert a + b == a;
    } else {
      var p := b[..|b| - 1];
      FirstUnknownAppend(table, a, p);
      assert (a + b)[..|a + b| - 1] == a + p;
    }
  }

  /** Web-standard blue, (0, 0, 255), comes out with the blue byte first. */
  lemma BlueIsFfff0000()
    ensures KmlColour(Css3Colours, "blue") == Ok("ffff0000")
  {
    assert "blue" in Css3Colours && Css3Colours["blue"] == Rgb(0, 0, 255);
    assert HexDigit(15) == 'f' && HexDigit(0) == '0';
    assert Hex2(255) == "ff" && Hex2(0) == "00";
    assert Abgr(Rgb(0, 0, 255)) == "ff" + "ff" + "00" + "00" == "ffff0000";
  }
}
