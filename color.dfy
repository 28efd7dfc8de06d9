/** Colours as four components in [0, 1], with the hex parsing and printing of the Color class. */
module Colors {
  import opened Wrappers
  import opened Utils

  /**
   * hex2rgba of the Color class: like the shared helper, but always four
   * components, with an alpha of 1 when the string has no alpha digits.
   */
  function Hex2Rgba4(hexstr: string, outType: Option<string>): (r: Result<seq<real>>)
    ensures r.Err? <==> Utils.Hex2Rgba(hexstr, outType).Err?
    ensures r.Ok? ==> |r.value| == 4
    ensures r.Ok? ==> r.value[..3] == Utils.Hex2Rgba(hexstr, outType).value[..3]
    ensures r.Ok? && |Utils.Hex2Rgba(hexstr, outType).value| == 3 ==> r.value[3] == 1.0
    ensures r.Ok? && |Utils.Hex2Rgba(hexstr, outType).value| == 4 ==> r.value == Utils.Hex2Rgba(hexstr, outType).value
  {
    match Utils.Hex2Rgba(hexstr, outType)
    case Err(e) => Err(e)
    case Ok(c) => if |c| == 3 then Ok(c + [1.0]) else Ok(c)
  }

  /** rgba2hex of the Color class: all four components printed, none filtered. */
  function Rgba2Hex4(r: real, g: real, b: real, a: real, inType: Option<string>): (s: string)
    requires !IsFloatMode(inType) ==> AllIntegral([r, g, b, a])
    ensures s == Utils.Rgba2Hex([r, g, b, a], inType)
  {
    "#" + HexPairs(ByteValues([r, g, b, a], inType))
  }

  /** An immutable colour; components are in [0, 1]. */
  datatype Color = Color(r: real, g: real, b: real, a: real)
  {
    /** A new colour with the same r, g, b and the given alpha. */
    function WithOpacity(opacity: real): (c: Color)
      ensures c.r == r && c.g == g && c.b == b && c.a == opacity
    {
      Color(r, g, b, opacity)
    }

    function ToRGBAHex(): (s: string)
    {
      Rgba2Hex4(r, g, b, a, None)
    }

    /** The RGBA hex string with its last two characters removed. */
    function ToRGBHex(): (s: string)
      ensures |ToRGBAHex()| >= 2 ==> s + ToRGBAHex()[|ToRGBAHex()| - 2..] == ToRGBAHex()
    {
      var h := ToRGBAHex();
      if |h| >= 2 then h[..|h| - 2] else []
    }

    function ToRGBATuple(): (t: seq<real>)
      ensures |t| == 4
    {
      [r, g, b, a]
    }
  }

  /** Color.fromHex: the colour of the first hex colour in the string, in float mode; an error when there is none. */
  function FromHex(hex: string): (c: Result<Color>)
    ensures c.Err? <==> Hex2Rgba4(hex, None).Err?
    ensures c.Ok? ==> c.value.ToRGBATuple() == Hex2Rgba4(hex, None).value
  {
    match Hex2Rgba4(hex, None)
    case Err(e) => Err(e)
    case Ok(v) => Ok(Color(v[0], v[1], v[2], v[3]))
  }

  /** Changing the opacity twice keeps only the second. */
  lemma WithOpacityLastWins(c: Color, o1: real, o2: real)
    ensures c.WithOpacity(o1).WithOpacity(o2) == c.WithOpacity(o2)
    ensures c.WithOpacity(c.a) == c
  {
  }

  /** For components in [0, 1] the RGB hex is the RGBA hex of r, g, b alone: '#' and six digits. */
  lemma ToRGBHexIsRgb(c: Color)
    requires 0.0 <= c.r <= 1.0 && 0.0 <= c.g <= 1.0 && 0.0 <= c.b <= 1.0 && 0.0 <= c.a <= 1.0
    ensures c.ToRGBHex() == Utils.Rgba2Hex([c.r, c.g, c.b], None)
    ensures |c.ToRGBHex()| == 7
  {
    var rgb := ByteValues([c.r, c.g, c.b], None);
    var alpha := ByteValues([c.a], None);
    ByteValuesConcat([c.r, c.g, c.b], [c.a], None);
    assert [c.r, c.g, c.b] + [c.a] == [c.r, c.g, c.b, c.a];
    HexPairsConcat(rgb, alpha);
    Rgba2HexShape([c.r, c.g, c.b], None);
    Rgba2HexShape([c.a], None);
    DropLastTwo("#" + HexPairs(rgb), HexPairs(alpha));
  }

  lemma DropLastTwo(p: string, q: string)
    requires |q| == 2
    ensures (p + q)[..|p + q| - 2] == p
  {
    assert (p + q)[..|p|] == p;
  }

  /** A colour read from eight digits prints as those digits upper-cased. */
  lemma FromHexRoundTrip8(hex: string)
    requires FromHex(hex).Ok? && |FindHex(hex, 0).value| == 8
    ensures FromHex(hex).value.ToRGBAHex() == "#" + Upper(FindHex(hex, 0).value)
  {
    HexRoundTrip(hex, None);
    var rgba := Utils.Hex2Rgba(hex, None).value;
    assert FromHex(hex).value.ToRGBATuple() == rgba;
  }

  /** An alpha of 1 prints as 'FF' after the other components. */
  lemma OpaqueHex(rgba: seq<real>)
    ensures "#" + HexPairs(ByteValues(rgba + [1.0], None)) == Utils.Rgba2Hex(rgba, None) + "FF"
  {
    ByteValuesConcat(rgba, [1.0], None);
    assert ByteValues([1.0], None) == [255];
    HexPairsConcat(ByteValues(rgba, None), [255]);
    ByteDigits(255);
  }

  /** A colour read from six digits prints as those digits upper-cased followed by 'FF', the alpha of 1. */
  lemma FromHexRoundTrip6(hex: string)
    requires FromHex(hex).Ok? && |FindHex(hex, 0).value| == 6
    ensures FromHex(hex).value.ToRGBAHex() == "#" + Upper(FindHex(hex, 0).value) + "FF"
  {
    HexRoundTrip(hex, None);
    var rgba := Utils.Hex2Rgba(hex, None).value;
    var c := FromHex(hex).value;
    assert [c.r, c.g, c.b, c.a] == rgba + [1.0];
    OpaqueHex(rgba);
  }
}
