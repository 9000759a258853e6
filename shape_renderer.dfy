/** hex_to_psychopy (stimulus/shape_renderer.py): a '#RRGGBB' colour to a
    PsychoPy RGB triple with channels in [-1, 1]. */
module ShapeRendererModel {
  import opened Wrappers

  /** lstrip("#"): drop every leading '#'. */
  function StripHashes(s: string): (r: string)
    ensures |r| <= |s| && r == s[|s| - |r|..]
    ensures forall i :: 0 <= i < |s| - |r| ==> s[i] == '#'
    ensures r == [] || r[0] != '#'
  {
    if |s| > 0 && s[0] == '#' then StripHashes(s[1..]) else s
  }

  /** The value of one hexadecimal digit, either case. */
  function HexDigit(c: char): (d: Option<nat>)
    ensures d.Some? ==> d.value < 16
  {
    if '0' <= c <= '9' then Some(c as nat - '0' as nat)
    else if 'a' <= c <= 'f' then Some(c as nat - 'a' as nat + 10)
    else if 'A' <= c <= 'F' then Some(c as nat - 'A' as nat + 10)
    else None
  }

  /** int(h[i:i+2], 16) on two hexadecimal digits; None for anything else. */
  function HexByte(hi: char, lo: char): (b: Option<nat>)
    ensures b.Some? <==> HexDigit(hi).Some? && HexDigit(lo).Some?
    ensures b.Some? ==> b.value == 16 * HexDigit(hi).value + HexDigit(lo).value
    ensures b.Some? ==> b.value < 256
  {
    match (HexDigit(hi), HexDigit(lo))
    case (Some(h), Some(l)) => Some(16 * h + l)
    case _ => None
  }

  /** One channel: byte / 127.5 - 1. */
  function Channel(b: int): (c: real)
    ensures 0 <= b <= 255 ==> -1.0 <= c <= 1.0
    ensures b == 0 ==> c == -1.0
    ensures b == 255 ==> c == 1.0
  {
    b as real / 127.5 - 1.0
  }

  const White: seq<real> := [1.0, 1.0, 1.0]

  /** The three channels of six remaining characters, None unless all are
      hexadecimal digits (int() raises). */
  function ConvertSix(h: string): (rgb: Option<seq<real>>)
    requires |h| == 6
    ensures rgb.Some? <==> HexByte(h[0], h[1]).Some? && HexByte(h[2], h[3]).Some? &&
                           HexByte(h[4], h[5]).Some?
    ensures rgb.Some? ==>
      rgb.value == [Channel(HexByte(h[0], h[1]).value), Channel(HexByte(h[2], h[3]).value),
                    Channel(HexByte(h[4], h[5]).value)]
  {
    match (HexByte(h[0], h[1]), HexByte(h[2], h[3]), HexByte(h[4], h[5]))
    case (Some(r), Some(g), Some(b)) => Some([Channel(r), Channel(g), Channel(b)])
    case _ => None
  }

  predicate AllHexDigits(h: string) {
    forall i :: 0 <= i < |h| ==> HexDigit(h[i]).Some?
  }

  /** Six characters convert exactly when all six are hexadecimal digits, and
      then every channel lies in [-1, 1]. */
  lemma ConvertSixSpec(h: string)
    requires |h| == 6
    ensures ConvertSix(h).Some? <==> AllHexDigits(h)
    ensures ConvertSix(h).Some? ==>
              (|ConvertSix(h).value| == 3 &&
               forall i :: 0 <= i < 3 ==> -1.0 <= ConvertSix(h).value[i] <= 1.0)
  {
    if !AllHexDigits(h) {
      var i :| 0 <= i < 6 && HexDigit(h[i]).None?;
      assert i == 0 || i == 1 || i == 2 || i == 3 || i == 4 || i == 5;
    }
  }

  /** hex_to_psychopy: White unless exactly six characters remain after the
      '#'s, otherwise the conversion of those six. */
  function HexToPsychopy(hexColor: string): (rgb: Option<seq<real>>)
    ensures |StripHashes(hexColor)| != 6 ==> rgb == Some(White)
    ensures |StripHashes(hexColor)| == 6 ==> rgb == ConvertSix(StripHashes(hexColor))
  {
    var h := StripHashes(hexColor);
    if |h| != 6 then Some(White) else ConvertSix(h)
  }

  /** The lower-case hexadecimal digit for a value below 16. */
  function HexChar(d: nat): char
    requires d < 16
  {
    if d < 10 then ('0' as nat + d) as char else ('a' as nat + d - 10) as char
  }

  /** A byte written as two lower-case hexadecimal digits. */
  function FormatByte(b: nat): (s: string)
    requires b < 256
    ensures |s| == 2
  {
    [HexChar(b / 16), HexChar(b % 16)]
  }

  lemma HexDigitOfHexChar(d: nat)
    requires d < 16
    ensures HexDigit(HexChar(d)) == Some(d)
  {
  }

  /** Parsing a formatted byte gives the byte back. */
  lemma HexByteOfFormatByte(b: nat)
    requires b < 256
    ensures HexByte(FormatByte(b)[0], FormatByte(b)[1]) == Some(b)
  {
    HexDigitOfHexChar(b / 16);
    HexDigitOfHexChar(b % 16);
  }

  /** '#rrggbb' built from three bytes converts to their three channels. */
  lemma HexToPsychopyOfFormatted(r: nat, g: nat, b: nat)
    requires r < 256 && g < 256 && b < 256
    ensures HexToPsychopy("#" + FormatByte(r) + FormatByte(g) + FormatByte(b)) ==
            Some([Channel(r), Channel(g), Channel(b)])
  {
    var fr, fg, fb := FormatByte(r), FormatByte(g), FormatByte(b);
    var body := fr + fg + fb;
    var s := "#" + body;
    assert body == [fr[0], fr[1], fg[0], fg[1], fb[0], fb[1]];
    HexDigitOfHexChar(r / 16);
    assert body[0] != '#';
    assert s[1..] == body;
    assert StripHashes(s) == body;
    HexByteOfFormatByte(r);
    HexByteOfFormatByte(g);
    HexByteOfFormatByte(b);
    assert HexByte(body[0], body[1]) == Some(r);
    assert HexByte(body[2], body[3]) == Some(g);
    assert HexByte(body[4], body[5]) == Some(b);
    assert "#" + fr + fg + fb == s;
  }

  // ------------------------------------------- int(pair, 16) as Python reads it

  /** The characters Python's str.isspace accepts, which int() strips from
      both ends of its argument. */
  predicate IsPythonSpace(c: char) {
    || ('\t' <= c <= '\r') || ('\U{1C}' <= c <= ' ')
    || c == '\U{85}' || c == '\U{A0}' || c == '\U{1680}'
    || ('\U{2000}' <= c <= '\U{200A}') || c == '\U{2028}' || c == '\U{2029}'
    || c == '\U{202F}' || c == '\U{205F}' || c == '\U{3000}'
  }

  /** Python's int(h[i:i+2], 16) on two characters: besides two digits it
      accepts a sign, or white space on either side, around a single digit.
      Digits are the ASCII ones only: int() also reads the decimal digits of
      other scripts (such as '\U{663}' or '\U{FF10}'), which are not modelled. */
  function PythonHexByte(c0: char, c1: char): (v: Option<int>)
    ensures HexByte(c0, c1).Some? ==> v == Some(HexByte(c0, c1).value)
  {
    var d0, d1 := HexDigit(c0), HexDigit(c1);
    if d0.Some? && d1.Some? then Some(16 * d0.value + d1.value)
    else if c0 == '-' && d1.Some? then Some(-(d1.value as int))
    else if (c0 == '+' || IsPythonSpace(c0)) && d1.Some? then Some(d1.value)
    else if d0.Some? && IsPythonSpace(c1) then Some(d0.value)
    else None
  }

  /** hex_to_psychopy as int() evaluates each pair, with ASCII digits. */
  function HexToPsychopyAsWritten(hexColor: string): (rgb: Option<seq<real>>)
    ensures HexToPsychopy(hexColor).Some? ==> rgb == HexToPsychopy(hexColor)
  {
    var h := StripHashes(hexColor);
    if |h| != 6 then Some(White)
    else
      match (PythonHexByte(h[0], h[1]), PythonHexByte(h[2], h[3]), PythonHexByte(h[4], h[5]))
      case (Some(r), Some(g), Some(b)) => Some([Channel(r), Channel(g), Channel(b)])
      case _ => None
  }

  /** A signed pair slips through int(): "#-f0000" gives a red channel below -1,
      where the hexadecimal-only reading rejects the colour. */
  lemma AsWrittenChannelBelowRange()
    ensures HexToPsychopy("#-f0000").None?
    ensures var rgb := HexToPsychopyAsWritten("#-f0000");
      rgb.Some? && rgb.value[0] < -1.0
  {
    var s := "#-f0000";
    assert s[1..] == "-f0000";
    assert StripHashes("-f0000") == "-f0000";
    assert StripHashes(s) == "-f0000";
    assert PythonHexByte('-', 'f') == Some(-15);
  }
}
