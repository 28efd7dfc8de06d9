/** Colour maps: bands between consecutive levels, each with a colour, and optional overflow and underflow colours. */
module Colormaps {
  import opened Wrappers
  import Colors
  import Utils

  /** A colour as a caller may give it: a Color object or a hex string. */
  datatype ColorSpec = ColorValue(color: Colors.Color) | HexString(hex: string)

  datatype ColorMap = ColorMap(levels: seq<real>, colors: seq<Colors.Color>,
                               overflow: Option<Colors.Color>, underflow: Option<Colors.Color>)
  {
    /** What the constructor establishes: one more level than colours. */
    predicate Valid()
    {
      |levels| == |colors| + 1
    }
  }

  function Normalize(c: ColorSpec): (r: Result<Colors.Color>)
    ensures c.ColorValue? ==> r == Ok(c.color)
    ensures c.HexString? ==> r == Colors.FromHex(c.hex)
  {
    match c
    case ColorValue(v) => Ok(v)
    case HexString(h) => Colors.FromHex(h)
  }

  /** All colours normalised in order; the first failure is the error. */
  function NormalizeAll(cs: seq<ColorSpec>): (r: Result<seq<Colors.Color>>)
    ensures r.Ok? <==> forall k | 0 <= k < |cs| :: Normalize(cs[k]).Ok?
    ensures r.Ok? ==> |r.value| == |cs| && forall k | 0 <= k < |cs| :: r.value[k] == Normalize(cs[k]).value
  {
    if cs == [] then Ok([])
    else
      match Normalize(cs[0])
      case Err(e) => Err(e)
      case Ok(c) =>
        match NormalizeAll(cs[1..])
        case Err(e) =>
          assert forall k | 1 <= k < |cs| :: cs[k] == cs[1..][k - 1];
          Err(e)
        case Ok(rest) =>
          assert forall k | 1 <= k < |cs| :: cs[k] == cs[1..][k - 1];
          Ok([c] + rest)
  }

  function NormalizeOpt(c: Option<ColorSpec>): (r: Result<Option<Colors.Color>>)
    ensures c.None? ==> r == Ok(None)
    ensures c.Some? ==> (r.Ok? <==> Normalize(c.value).Ok?) && (r.Ok? ==> r.value == Some(Normalize(c.value).value))
  {
    match c
    case None => Ok(None)
    case Some(s) =>
      match Normalize(s)
      case Err(e) => Err(e)
      case Ok(v) => Ok(Some(v))
  }

  /** The constructor's message for a level count that is not one more than the colour count. */
  function CountMessage(nLevels: nat, nColors: nat): string
  {
    "Mismatch between number of levels (" + Utils.IntToString(nLevels) + ") and number of colors ("
    + Utils.IntToString(nColors) + "; expected " + Utils.IntToString(nLevels - 1) + ")"
  }

  /**
   * The ColorMap constructor: an error unless there is exactly one more
   * level than colours; then the colours, the overflow colour and the
   * underflow colour are normalised, in that order.
   */
  function MakeColorMap(levels: seq<real>, colors: seq<ColorSpec>, overflow: Option<ColorSpec>, underflow: Option<ColorSpec>)
    : (r: Result<ColorMap>)
    ensures |levels| != |colors| + 1 ==> r == Err(CountMessage(|levels|, |colors|))
    ensures r.Ok? <==> |levels| == |colors| + 1 && NormalizeAll(colors).Ok? && NormalizeOpt(overflow).Ok? && NormalizeOpt(underflow).Ok?
    ensures r.Ok? ==> r.value.Valid() && r.value.levels == levels && r.value.colors == NormalizeAll(colors).value
    ensures r.Ok? ==> (r.value.overflow.None? <==> overflow.None?) && (r.value.underflow.None? <==> underflow.None?)
  {
    if |levels| != |colors| + 1 then Err(CountMessage(|levels|, |colors|))
    else
      match NormalizeAll(colors)
      case Err(e) => Err(e)
      case Ok(cs) =>
        match NormalizeOpt(overflow)
        case Err(e) => Err(e)
        case Ok(over) =>
          match NormalizeOpt(underflow)
          case Err(e) => Err(e)
          case Ok(under) => Ok(ColorMap(levels, cs, over, under))
  }

  function Specs(cs: seq<Colors.Color>): (r: seq<ColorSpec>)
    ensures |r| == |cs| && forall k | 0 <= k < |cs| :: r[k] == ColorValue(cs[k])
  {
    seq(|cs|, k requires 0 <= k < |cs| => ColorValue(cs[k]))
  }

  /** getColors: the RGB hex string of every colour. */
  function GetColors(cm: ColorMap): (r: seq<string>)
    ensures |r| == |cm.colors|
    ensures forall k | 0 <= k < |r| :: r[k] == cm.colors[k].ToRGBHex()
  {
    seq(|cm.colors|, k requires 0 <= k < |cm.colors| => cm.colors[k].ToRGBHex())
  }

  /** getOpacities: the alpha of every colour. */
  function GetOpacities(cm: ColorMap): (r: seq<real>)
    ensures |r| == |cm.colors|
    ensures forall k | 0 <= k < |r| :: r[k] == cm.colors[k].a
  {
    seq(|cm.colors|, k requires 0 <= k < |cm.colors| => cm.colors[k].a)
  }

  // ----- withOpacity -----

  /** The levels after one kept band: its lower level unless it equals the last level kept, then its upper level. */
  function AddBand(ls: seq<real>, lower: real, upper: real): (r: seq<real>)
    ensures |r| == |ls| + (if |ls| > 0 && ls[|ls| - 1] == lower then 1 else 2)
    ensures r[|r| - 1] == upper
  {
    (if |ls| > 0 && ls[|ls| - 1] == lower then ls else ls + [lower]) + [upper]
  }

  /** The new opacity of band ic. */
  function BandOpacity(cm: ColorMap, func: (real, real) -> real, ic: nat): real
    requires cm.Valid() && ic < |cm.colors|
  {
    func(cm.levels[ic], cm.levels[ic + 1])
  }

  /** The new levels after the first n bands of the withOpacity loop. */
  function NewLevels(cm: ColorMap, func: (real, real) -> real, n: nat): seq<real>
    requires cm.Valid() && n <= |cm.colors|
  {
    if n == 0 then []
    else if BandOpacity(cm, func, n - 1) > 0.0 then AddBand(NewLevels(cm, func, n - 1), cm.levels[n - 1], cm.levels[n])
    else NewLevels(cm, func, n - 1)
  }

  /** The new colours after the first n bands: each band with positive opacity, with that opacity. */
  function NewColors(cm: ColorMap, func: (real, real) -> real, n: nat): seq<Colors.Color>
    requires cm.Valid() && n <= |cm.colors|
  {
    if n == 0 then []
    else if BandOpacity(cm, func, n - 1) > 0.0 then NewColors(cm, func, n - 1) + [cm.colors[n - 1].WithOpacity(BandOpacity(cm, func, n - 1))]
    else NewColors(cm, func, n - 1)
  }

  /** The indices of the bands among the first n whose new opacity is positive, in increasing order. */
  function KeptIndices(cm: ColorMap, func: (real, real) -> real, n: nat): (r: seq<nat>)
    requires cm.Valid() && n <= |cm.colors|
    ensures r != [] ==> r[|r| - 1] < n
  {
    if n == 0 then []
    else if BandOpacity(cm, func, n - 1) > 0.0 then KeptIndices(cm, func, n - 1) + [n - 1]
    else KeptIndices(cm, func, n - 1)
  }

  /** The number of places where two consecutive kept bands are not adjacent. */
  function Gaps(idx: seq<nat>): nat
  {
    if |idx| < 2 then 0
    else Gaps(idx[..|idx| - 1]) + (if idx[|idx| - 1] == idx[|idx| - 2] + 1 then 0 else 1)
  }

  /** Consecutive indices: each one more than the one before. */
  predicate Contiguous(idx: seq<nat>)
  {
    forall m | 0 <= m < |idx| :: idx[m] == idx[0] + m
  }

  predicate StrictlyIncreasing(s: seq<real>)
  {
    forall i, j | 0 <= i < j < |s| :: s[i] < s[j]
  }

  /** The kept colours are exactly the kept bands' colours, in order, with their new opacities. */
  lemma {:induction false} KeptColors(cm: ColorMap, func: (real, real) -> real, n: nat)
    requires cm.Valid() && n <= |cm.colors|
    ensures |NewColors(cm, func, n)| == |KeptIndices(cm, func, n)|
    ensures forall m | 0 <= m < |KeptIndices(cm, func, n)| ::
      var ic := KeptIndices(cm, func, n)[m];
      ic < n && NewColors(cm, func, n)[m] == cm.colors[ic].WithOpacity(func(cm.levels[ic], cm.levels[ic + 1]))
  {
    if n > 0 {
      KeptColors(cm, func, n - 1);
    }
  }

  lemma {:induction false} KeptNone(cm: ColorMap, func: (real, real) -> real, n: nat)
    requires cm.Valid() && n <= |cm.colors|
    ensures KeptIndices(cm, func, n) == [] ==> NewLevels(cm, func, n) == []
  {
    if n > 0 {
      KeptNone(cm, func, n - 1);
    }
  }

  /** The last level kept is the upper level of the last kept band. */
  lemma {:induction false} KeptLast(cm: ColorMap, func: (real, real) -> real, n: nat)
    requires cm.Valid() && n <= |cm.colors|
    ensures KeptIndices(cm, func, n) != [] ==>
      var idx := KeptIndices(cm, func, n);
      var ls := NewLevels(cm, func, n);
      ls != [] && ls[|ls| - 1] == cm.levels[idx[|idx| - 1] + 1]
  {
    if n > 0 {
      KeptLast(cm, func, n - 1);
    }
  }

  /**
   * Every kept band adds its upper level, and its lower level unless it
   * equals the last level kept: contiguous kept bands give one level more
   * than bands.
   */
  lemma {:induction false} KeptContiguousCount(cm: ColorMap, func: (real, real) -> real, n: nat)
    requires cm.Valid() && n <= |cm.colors|
    requires KeptIndices(cm, func, n) != [] && Contiguous(KeptIndices(cm, func, n))
    ensures |NewLevels(cm, func, n)| == |KeptIndices(cm, func, n)| + 1
  {
    var idx := KeptIndices(cm, func, n - 1);
    KeptNone(cm, func, n - 1);
    KeptLast(cm, func, n - 1);
    if BandOpacity(cm, func, n - 1) > 0.0 {
      if idx != [] {
        assert KeptIndices(cm, func, n) == idx + [n - 1];
        ContiguousSnoc(idx, n - 1);
        KeptContiguousCount(cm, func, n - 1);
      }
    } else {
      KeptContiguousCount(cm, func, n - 1);
    }
  }

  /** With strictly increasing levels, every gap between kept bands costs exactly one extra level. */
  lemma {:induction false} KeptStrictCount(cm: ColorMap, func: (real, real) -> real, n: nat)
    requires cm.Valid() && n <= |cm.colors| && StrictlyIncreasing(cm.levels)
    requires KeptIndices(cm, func, n) != []
    ensures |NewLevels(cm, func, n)| == |KeptIndices(cm, func, n)| + 1 + Gaps(KeptIndices(cm, func, n))
  {
    var idx := KeptIndices(cm, func, n - 1);
    KeptNone(cm, func, n - 1);
    KeptLast(cm, func, n - 1);
    if BandOpacity(cm, func, n - 1) > 0.0 {
      if idx != [] {
        KeptStrictCount(cm, func, n - 1);
        KeptGapStep(cm, func, n);
      }
    } else {
      KeptStrictCount(cm, func, n - 1);
    }
  }

  /** One more kept band: a gap before it adds a gap and two levels, no gap adds one level. */
  lemma {:induction false} KeptGapStep(cm: ColorMap, func: (real, real) -> real, n: nat)
    requires cm.Valid() && 0 < n <= |cm.colors| && BandOpacity(cm, func, n - 1) > 0.0
    requires KeptIndices(cm, func, n - 1) != []
    requires var idx := KeptIndices(cm, func, n - 1);
      var last := idx[|idx| - 1];
      last + 1 == n - 1 || cm.levels[last + 1] != cm.levels[n - 1]
    requires |NewLevels(cm, func, n - 1)| == |KeptIndices(cm, func, n - 1)| + 1 + Gaps(KeptIndices(cm, func, n - 1))
    ensures |NewLevels(cm, func, n)| == |KeptIndices(cm, func, n)| + 1 + Gaps(KeptIndices(cm, func, n))
  {
    var idx, ls := KeptIndices(cm, func, n - 1), NewLevels(cm, func, n - 1);
    KeptLast(cm, func, n - 1);
    KeptStep(cm, func, n);
    AddBandGap(ls, idx, cm.levels[n - 1], cm.levels[n], n - 1, cm.levels[idx[|idx| - 1] + 1]);
  }

  /** A band with positive opacity adds its index and its levels. */
  lemma {:induction false} KeptStep(cm: ColorMap, func: (real, real) -> real, n: nat)
    requires cm.Valid() && 0 < n <= |cm.colors| && BandOpacity(cm, func, n - 1) > 0.0
    ensures NewLevels(cm, func, n) == AddBand(NewLevels(cm, func, n - 1), cm.levels[n - 1], cm.levels[n])
    ensures KeptIndices(cm, func, n) == KeptIndices(cm, func, n - 1) + [n - 1]
  {
  }

  /**
   * The count of KeptStrictCount for one more band x: its lower level
   * repeats the last level kept exactly when it follows the last kept band.
   */
  lemma {:induction false} AddBandGap(ls: seq<real>, idx: seq<nat>, lower: real, upper: real, x: nat, lastUpper: real)
    requires idx != [] && ls != [] && ls[|ls| - 1] == lastUpper
    requires |ls| == |idx| + 1 + Gaps(idx)
    requires x == idx[|idx| - 1] + 1 <==> lower == lastUpper
    ensures |AddBand(ls, lower, upper)| == |idx + [x]| + 1 + Gaps(idx + [x])
  {
    GapsSnoc(idx, x);
  }

  /** Appending an index adds a gap exactly when it does not follow the last one. */
  lemma {:induction false} GapsSnoc(idx: seq<nat>, x: nat)
    requires idx != []
    ensures Gaps(idx + [x]) == Gaps(idx) + (if x == idx[|idx| - 1] + 1 then 0 else 1)
  {
    var idx' := idx + [x];
    assert idx'[..|idx'| - 1] == idx;
  }

  /** A contiguous run with its last index removed is still contiguous, and the removed index followed the rest. */
  lemma ContiguousSnoc(idx: seq<nat>, x: nat)
    requires idx != [] && Contiguous(idx + [x])
    ensures Contiguous(idx) && x == idx[|idx| - 1] + 1
  {
    var idx' := idx + [x];
    forall m | 0 <= m < |idx| ensures idx[m] == idx[0] + m {
      assert idx[m] == idx'[m] && idx[0] == idx'[0];
    }
    assert idx'[|idx|] == idx'[0] + |idx| && idx'[|idx| - 1] == idx'[0] + (|idx| - 1);
  }

  lemma {:induction false} ContiguousNoGaps(idx: seq<nat>)
    requires Contiguous(idx)
    ensures Gaps(idx) == 0
  {
    if |idx| >= 2 {
      var p := idx[..|idx| - 1];
      forall m | 0 <= m < |p| ensures p[m] == p[0] + m {
        assert p[m] == idx[m] && p[0] == idx[0];
      }
      ContiguousNoGaps(p);
      assert idx[|idx| - 1] == idx[0] + (|idx| - 1) && idx[|idx| - 2] == idx[0] + (|idx| - 2);
    }
  }

  lemma {:induction false} NoGapsContiguous(idx: seq<nat>)
    requires Gaps(idx) == 0
    ensures Contiguous(idx)
  {
    if |idx| >= 2 {
      var p := idx[..|idx| - 1];
      NoGapsContiguous(p);
      forall m | 0 <= m < |idx| ensures idx[m] == idx[0] + m {
        if m < |idx| - 1 {
          assert idx[m] == p[m] && idx[0] == p[0];
        } else {
          assert idx[m - 1] == p[m - 1] == p[0] + (m - 1);
        }
      }
    }
  }

  /** The over- and underflow colour that withOpacity keeps: only when the opacity at the end level is positive. */
  function EndColor(c: Option<Colors.Color>, opacity: real): (r: Option<ColorSpec>)
    ensures r.Some? <==> c.Some? && opacity > 0.0
    ensures r.Some? ==> r.value == ColorValue(c.value.WithOpacity(opacity))
  {
    if c.Some? && opacity > 0.0 then Some(ColorValue(c.value.WithOpacity(opacity))) else None
  }

  /**
   * withOpacity: a new colour map from the bands whose new opacity is
   * positive, then the over- and underflow colours at the end levels; the
   * constructor's count check applies to the result.
   */
  method WithOpacity(cm: ColorMap, func: (real, real) -> real) returns (r: Result<ColorMap>)
    requires cm.Valid()
    ensures r == MakeColorMap(NewLevels(cm, func, |cm.colors|), Specs(NewColors(cm, func, |cm.colors|)),
                              EndColor(cm.overflow, func(cm.levels[|cm.levels| - 1], cm.levels[|cm.levels| - 1])),
                              EndColor(cm.underflow, func(cm.levels[0], cm.levels[0])))
  {
    var newColors: seq<Colors.Color> := [];
    var newLevels: seq<real> := [];
    for ic := 0 to |cm.colors|
      invariant newLevels == NewLevels(cm, func, ic) && newColors == NewColors(cm, func, ic)
    {
      var color := cm.colors[ic];
      var levelLower := cm.levels[ic];
      var levelUpper := cm.levels[ic + 1];
      var newOpacity := func(levelLower, levelUpper);
      var newColor := color.WithOpacity(newOpacity);
      if newOpacity > 0.0 {
        if !(|newLevels| > 0 && newLevels[|newLevels| - 1] == levelLower) {
          newLevels := newLevels + [levelLower];
        }
        newLevels := newLevels + [levelUpper];
        newColors := newColors + [newColor];
      }
    }
    var underflow: Option<ColorSpec> := None;
    if cm.underflow.Some? {
      var underflowOpacity := func(cm.levels[0], cm.levels[0]);
      if underflowOpacity > 0.0 {
        underflow := Some(ColorValue(cm.underflow.value.WithOpacity(underflowOpacity)));
      }
    }
    var overflow: Option<ColorSpec> := None;
    if cm.overflow.Some? {
      var last := cm.levels[|cm.levels| - 1];
      var overflowOpacity := func(last, last);
      if overflowOpacity > 0.0 {
        overflow := Some(ColorValue(cm.overflow.value.WithOpacity(overflowOpacity)));
      }
    }
    r := MakeColorMap(newLevels, Specs(newColors), overflow, underflow);
  }

  lemma NormalizeSpecs(cs: seq<Colors.Color>)
    ensures NormalizeAll(Specs(cs)) == Ok(cs)
  {
    var r := NormalizeAll(Specs(cs));
    assert r.Ok?;
    assert r.value == cs;
  }

  /**
   * The result of withOpacity exists when the kept bands are contiguous and
   * at least one is kept; when the levels strictly increase it exists only
   * then. Its colours are the kept bands' colours with their new opacities.
   */
  lemma WithOpacityDefined(cm: ColorMap, func: (real, real) -> real)
    requires cm.Valid()
    ensures var idx := KeptIndices(cm, func, |cm.colors|);
      var ls := NewLevels(cm, func, |cm.colors|);
      var cs := NewColors(cm, func, |cm.colors|);
      (idx != [] && Contiguous(idx) ==> |ls| == |cs| + 1) &&
      (StrictlyIncreasing(cm.levels) && |ls| == |cs| + 1 ==> idx != [] && Contiguous(idx))
  {
    var n := |cm.colors|;
    KeptColors(cm, func, n);
    KeptNone(cm, func, n);
    var idx := KeptIndices(cm, func, n);
    if idx != [] && Contiguous(idx) {
      KeptContiguousCount(cm, func, n);
    }
    if StrictlyIncreasing(cm.levels) && idx != [] {
      KeptStrictCount(cm, func, n);
      if |NewLevels(cm, func, n)| == |NewColors(cm, func, n)| + 1 {
        NoGapsContiguous(idx);
      }
    }
  }

  /** The over- and underflow colours survive withOpacity only where the opacity at the end level is positive. */
  lemma WithOpacityEnds(cm: ColorMap, func: (real, real) -> real, r: Result<ColorMap>)
    requires cm.Valid()
    requires r == MakeColorMap(NewLevels(cm, func, |cm.colors|), Specs(NewColors(cm, func, |cm.colors|)),
                               EndColor(cm.overflow, func(cm.levels[|cm.levels| - 1], cm.levels[|cm.levels| - 1])),
                               EndColor(cm.underflow, func(cm.levels[0], cm.levels[0])))
    requires r.Ok?
    ensures r.value.underflow.Some? <==> cm.underflow.Some? && func(cm.levels[0], cm.levels[0]) > 0.0
    ensures r.value.overflow.Some? <==> cm.overflow.Some? && func(cm.levels[|cm.levels| - 1], cm.levels[|cm.levels| - 1]) > 0.0
    ensures r.value.underflow.Some? ==> r.value.underflow.value == cm.underflow.value.WithOpacity(func(cm.levels[0], cm.levels[0]))
    ensures r.value.colors == NewColors(cm, func, |cm.colors|)
  {
    NormalizeSpecs(NewColors(cm, func, |cm.colors|));
  }

  // ----- buildColormap and diverging -----

  datatype Overflow = Under | Over | Both | Neither

  /**
   * buildColormap: the last colour becomes the overflow colour for Over
   * and Both, the first the underflow colour for Under and Both. With no
   * colours the index is out of range, the value undefined, and no colour
   * is set.
   */
  function BuildColormap(levels: seq<real>, colors: seq<string>, overflow: Overflow): (r: Result<ColorMap>)
    ensures var hex := seq(|colors|, k requires 0 <= k < |colors| => HexString(colors[k]));
      var over := if (overflow == Over || overflow == Both) && |colors| > 0 then Some(HexString(colors[|colors| - 1])) else None;
      var under := if (overflow == Under || overflow == Both) && |colors| > 0 then Some(HexString(colors[0])) else None;
      r == MakeColorMap(levels, hex, over, under)
    ensures r.Ok? ==> (r.value.overflow.Some? <==> (overflow == Over || overflow == Both) && |colors| > 0)
    ensures r.Ok? ==> (r.value.underflow.Some? <==> (overflow == Under || overflow == Both) && |colors| > 0)
  {
    var hex := seq(|colors|, k requires 0 <= k < |colors| => HexString(colors[k]));
    var over := if (overflow == Over || overflow == Both) && |colors| > 0 then Some(HexString(colors[|colors| - 1])) else None;
    var under := if (overflow == Under || overflow == Both) && |colors| > 0 then Some(HexString(colors[0])) else None;
    MakeColorMap(levels, hex, over, under)
  }

  /** The overflow colour of a built colour map is its last colour, the underflow colour its first. */
  lemma BuildColormapEnds(levels: seq<real>, colors: seq<string>, overflow: Overflow)
    requires BuildColormap(levels, colors, overflow).Ok?
    ensures var cm := BuildColormap(levels, colors, overflow).value;
      (cm.overflow.Some? ==> cm.overflow.value == cm.colors[|colors| - 1]) &&
      (cm.underflow.Some? ==> cm.underflow.value == cm.colors[0])
  {
    var hex := seq(|colors|, k requires 0 <= k < |colors| => HexString(colors[k]));
    var cm := BuildColormap(levels, colors, overflow).value;
    assert cm.colors == NormalizeAll(hex).value;
    if cm.overflow.Some? {
      assert hex[|colors| - 1] == HexString(colors[|colors| - 1]);
      assert cm.overflow.value == Normalize(HexString(colors[|colors| - 1])).value;
    }
    if cm.underflow.Some? {
      assert hex[0] == HexString(colors[0]);
      assert cm.underflow.value == Normalize(HexString(colors[0])).value;
    }
  }

  /**
   * diverging: n stops and n + 1 evenly spaced levels from levelMin to
   * levelMax. The colour of each stop comes from hue/saturation/value
   * interpolation, a parameter here; the two end colours must parse.
   */
  method Diverging(color1: string, color2: string, levelMin: real, levelMax: real, nColors: nat,
                   stopColor: (Colors.Color, Colors.Color, nat) -> Colors.Color)
    returns (r: Result<ColorMap>)
    ensures r.Err? <==> Colors.FromHex(color1).Err? || Colors.FromHex(color2).Err?
    ensures r.Ok? ==> r.value.Valid() && |r.value.colors| == nColors
    ensures r.Ok? ==> forall k | 0 <= k < nColors ::
      r.value.colors[k] == stopColor(Colors.FromHex(color1).value, Colors.FromHex(color2).value, k)
    ensures r.Ok? ==> forall k | 0 <= k <= nColors :: r.value.levels[k] == EvenLevel(levelMin, levelMax, nColors, k)
    ensures r.Ok? ==> r.value.levels[0] == levelMin
    ensures r.Ok? && nColors >= 1 ==> r.value.levels[nColors] == levelMax
    ensures r.Ok? ==> r.value.overflow.None? && r.value.underflow.None?
  {
    var c1 := Colors.FromHex(color1);
    var c2 := Colors.FromHex(color2);
    if c1.Err? {
      return Err(c1.error);
    }
    if c2.Err? {
      return Err(c2.error);
    }
    var stops := StopColors(c1.value, c2.value, nColors, stopColor);
    var levels := EvenLevels(levelMin, levelMax, nColors);
    EvenLevelsEnd(levelMin, levelMax, nColors);
    PlainColorMap(levels, stops);
    r := MakeColorMap(levels, Specs(stops), None, None);
    assert r == Ok(ColorMap(levels, stops, None, None));
  }

  /** A colour map built from parsed colours and no end colours keeps them as they are. */
  lemma PlainColorMap(levels: seq<real>, colors: seq<Colors.Color>)
    requires |levels| == |colors| + 1
    ensures MakeColorMap(levels, Specs(colors), None, None) == Ok(ColorMap(levels, colors, None, None))
  {
    NormalizeSpecs(colors);
  }

  /** The stop loop of diverging. */
  method StopColors(c1: Colors.Color, c2: Colors.Color, nColors: nat, stopColor: (Colors.Color, Colors.Color, nat) -> Colors.Color)
    returns (stops: seq<Colors.Color>)
    ensures |stops| == nColors
    ensures forall k | 0 <= k < nColors :: stops[k] == stopColor(c1, c2, k)
  {
    stops := [];
    for istop := 0 to nColors
      invariant |stops| == istop
      invariant forall k | 0 <= k < istop :: stops[k] == stopColor(c1, c2, k)
    {
      stops := stops + [stopColor(c1, c2, istop)];
    }
  }

  /**
   * Level k of diverging: levelMin plus k steps of (max - min) / n. With no
   * colours the step divides by zero and the one level is not a number;
   * here it is levelMin.
   */
  function EvenLevel(levelMin: real, levelMax: real, nColors: nat, k: nat): real
  {
    if nColors == 0 then levelMin else levelMin + k as real * ((levelMax - levelMin) / nColors as real)
  }

  /** The level loop of diverging. */
  method EvenLevels(levelMin: real, levelMax: real, nColors: nat) returns (levels: seq<real>)
    ensures |levels| == nColors + 1
    ensures forall k | 0 <= k <= nColors :: levels[k] == EvenLevel(levelMin, levelMax, nColors, k)
  {
    levels := [];
    for ilev := 0 to nColors + 1
      invariant |levels| == ilev
      invariant forall k | 0 <= k < ilev :: levels[k] == EvenLevel(levelMin, levelMax, nColors, k)
    {
      var levelStep := if nColors == 0 then 0.0 else (levelMax - levelMin) / nColors as real;
      levels := levels + [levelMin + ilev as real * levelStep];
    }
  }

  /** The levels run from levelMin to levelMax. */
  lemma EvenLevelsEnd(levelMin: real, levelMax: real, nColors: nat)
    ensures EvenLevel(levelMin, levelMax, nColors, 0) == levelMin
    ensures nColors >= 1 ==> EvenLevel(levelMin, levelMax, nColors, nColors) == levelMax
  {
    if nColors >= 1 {
      var step := (levelMax - levelMin) / nColors as real;
      assert nColors as real * step == levelMax - levelMin;
    }
  }
}
