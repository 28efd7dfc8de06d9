/**
 * Station plots: where each element sits around the station, the glyph
 * codes of the weather symbols, and the text drawn for each observation.
 */
module StationPlots {
  import opened Wrappers
  import RF = RawFields

  datatype Position = CL | LL | LC | LR | CR | UR | UC | UL | C

  datatype HorizontalAlign = Left | Center | Right
  datatype VerticalAlign = Top | Middle | Baseline

  datatype Placement = Placement(ha: HorizontalAlign, va: VerticalAlign, offsetX: real, offsetY: real)

  const DEFAULT_OFFSET: real := 10.0

  /**
   * positionToAlignmentAndOffset: the left column is right-aligned and
   * shifted left, the centre column centred, the right column left-aligned
   * and shifted right; the lower row hangs from its top and is shifted
   * down, the centre row is centred, the upper row sits on its baseline and
   * is shifted up. The offset defaults to 10.
   */
  function PositionToAlignmentAndOffset(pos: Position, offSize: Option<real>): (p: Placement)
    ensures var off := if offSize.None? then DEFAULT_OFFSET else offSize.value;
      (pos in {LL, CL, UL} ==> p.ha == Right && p.offsetX == -off) &&
      (pos in {LC, C, UC} ==> p.ha == Center && p.offsetX == 0.0) &&
      (pos in {LR, CR, UR} ==> p.ha == Left && p.offsetX == off) &&
      (pos in {LL, LC, LR} ==> p.va == Top && p.offsetY == -off) &&
      (pos in {CL, C, CR} ==> p.va == Middle && p.offsetY == 0.0) &&
      (pos in {UL, UC, UR} ==> p.va == Baseline && p.offsetY == off)
  {
    var off := if offSize.None? then DEFAULT_OFFSET else offSize.value;
    var (ha, xoff) :=
      if pos == LL || pos == CL || pos == UL then (Right, -off)
      else if pos == LC || pos == C || pos == UC then (Center, 0.0)
      else (Left, off);
    var (va, yoff) :=
      if pos == LL || pos == LC || pos == LR then (Top, -off)
      else if pos == CL || pos == C || pos == CR then (Middle, 0.0)
      else (Baseline, off);
    Placement(ha, va, xoff, yoff)
  }

  /** Every offset is the offset size, its negation or zero, and the placement determines the position. */
  lemma PlacementOffsets(pos: Position, pos': Position, offSize: real)
    requires offSize > 0.0
    ensures var p := PositionToAlignmentAndOffset(pos, Some(offSize));
      (p.offsetX == offSize || p.offsetX == -offSize || p.offsetX == 0.0) &&
      (p.offsetY == offSize || p.offsetY == -offSize || p.offsetY == 0.0)
    ensures PositionToAlignmentAndOffset(pos, Some(offSize)) == PositionToAlignmentAndOffset(pos', Some(offSize)) ==> pos == pos'
  {
  }

  /** The glyph code of each weather symbol in the symbol font; None for a string that is not a symbol. */
  function SymbolCode(s: string): Option<nat>
  {
    match s
    case "0/8" => Some(59658)
    case "1/8" => Some(59659)
    case "2/8" => Some(59660)
    case "3/8" => Some(59661)
    case "4/8" => Some(59662)
    case "5/8" => Some(59663)
    case "6/8" => Some(59664)
    case "7/8" => Some(59665)
    case "8/8" => Some(59666)
    case "clr" => Some(59658)
    case "few" => Some(59660)
    case "sct" => Some(59662)
    case "bkn" => Some(59664)
    case "ovc" => Some(59666)
    case "obsc" => Some(59667)
    case "va" => Some(59810)
    case "fu" => Some(59810)
    case "hz" => Some(59811)
    case "du" => Some(59812)
    case "bldu" => Some(59814)
    case "sa" => Some(59814)
    case "blsa" => Some(59814)
    case "vcblsa" => Some(59814)
    case "vcbldu" => Some(59814)
    case "blpy" => Some(59814)
    case "po" => Some(59816)
    case "vcpo" => Some(59816)
    case "vcds" => Some(59817)
    case "vcss" => Some(59817)
    case "br" => Some(59818)
    case "bcbr" => Some(59818)
    case "bc" => Some(59819)
    case "mifg" => Some(59820)
    case "vcts" => Some(59821)
    case "virga" => Some(59822)
    case "vcsh" => Some(59824)
    case "ts" => Some(59825)
    case "thdr" => Some(59825)
    case "vctshz" => Some(59825)
    case "tsfzfg" => Some(59825)
    case "tsbr" => Some(59825)
    case "tsdz" => Some(59825)
    case "vctsup" => Some(59825)
    case "-tsup" => Some(59825)
    case "tsup" => Some(59825)
    case "+tsup" => Some(59825)
    case "sq" => Some(59826)
    case "fc" => Some(59827)
    case "+fc" => Some(59827)
    case "ds" => Some(59839)
    case "ss" => Some(59839)
    case "drsa" => Some(59839)
    case "drdu" => Some(59839)
    case "+ds" => Some(59842)
    case "+ss" => Some(59842)
    case "drsn" => Some(59844)
    case "+drsn" => Some(59845)
    case "-blsn" => Some(59846)
    case "blsn" => Some(59846)
    case "+blsn" => Some(59847)
    case "vcblsn" => Some(59846)
    case "vcfg" => Some(59848)
    case "bcfg" => Some(59849)
    case "prfg" => Some(59852)
    case "fg" => Some(59853)
    case "fzfg" => Some(59857)
    case "-vctsdz" => Some(59859)
    case "-dz" => Some(59859)
    case "-dzbr" => Some(59859)
    case "vctsdz" => Some(59861)
    case "dz" => Some(59861)
    case "+vctsdz" => Some(59863)
    case "+dz" => Some(59863)
    case "-fzdz" => Some(59864)
    case "-fzdzsn" => Some(59864)
    case "fzdz" => Some(59865)
    case "+fzdz" => Some(59865)
    case "fzdzsn" => Some(59865)
    case "-dzra" => Some(59866)
    case "dzra" => Some(59867)
    case "+dzra" => Some(59867)
    case "-ra" => Some(59869)
    case "-rabr" => Some(59869)
    case "ra" => Some(59871)
    case "rabr" => Some(59871)
    case "rafg" => Some(59871)
    case "vcra" => Some(59871)
    case "+ra" => Some(59873)
    case "-fzra" => Some(59874)
    case "-fzrasn" => Some(59874)
    case "-fzrabr" => Some(59874)
    case "-fzrapl" => Some(59874)
    case "-fzrasnpl" => Some(59874)
    case "tsfzrapl" => Some(59875)
    case "-tsfzra" => Some(59875)
    case "fzra" => Some(59875)
    case "+fzra" => Some(59875)
    case "fzrasn" => Some(59875)
    case "tsfzra" => Some(59875)
    case "-dzsn" => Some(59876)
    case "-rasn" => Some(59876)
    case "-snra" => Some(59876)
    case "-sndz" => Some(59876)
    case "rasn" => Some(59877)
    case "+rasn" => Some(59877)
    case "snra" => Some(59877)
    case "dzsn" => Some(59877)
    case "sndz" => Some(59877)
    case "+dzsn" => Some(59877)
    case "+sndz" => Some(59877)
    case "-sn" => Some(59879)
    case "-snbr" => Some(59879)
    case "sn" => Some(59881)
    case "+sn" => Some(59883)
    case "-snsg" => Some(59885)
    case "sg" => Some(59885)
    case "-sg" => Some(59885)
    case "ic" => Some(59886)
    case "-fzdzpl" => Some(59887)
    case "-fzdzplsn" => Some(59887)
    case "fzdzpl" => Some(59887)
    case "-fzraplsn" => Some(59887)
    case "fzrapl" => Some(59887)
    case "+fzrapl" => Some(59887)
    case "-rapl" => Some(59887)
    case "-rasnpl" => Some(59887)
    case "-raplsn" => Some(59887)
    case "+rapl" => Some(59887)
    case "rapl" => Some(59887)
    case "-snpl" => Some(59887)
    case "snpl" => Some(59887)
    case "-pl" => Some(59887)
    case "pl" => Some(59887)
    case "-plsn" => Some(59887)
    case "-plra" => Some(59887)
    case "plra" => Some(59887)
    case "-pldz" => Some(59887)
    case "+pl" => Some(59887)
    case "plsn" => Some(59887)
    case "plup" => Some(59887)
    case "+plsn" => Some(59887)
    case "-sh" => Some(59888)
    case "-shra" => Some(59888)
    case "sh" => Some(59889)
    case "shra" => Some(59889)
    case "+sh" => Some(59889)
    case "+shra" => Some(59889)
    case "-shrasn" => Some(59891)
    case "-shsnra" => Some(59891)
    case "+shrabr" => Some(59892)
    case "shrasn" => Some(59892)
    case "+shrasn" => Some(59892)
    case "shsnra" => Some(59892)
    case "+shsnra" => Some(59892)
    case "-shsn" => Some(59893)
    case "shsn" => Some(59894)
    case "+shsn" => Some(59894)
    case "-gs" => Some(59895)
    case "-shgs" => Some(59895)
    case "fzraplgs" => Some(59896)
    case "-sngs" => Some(59896)
    case "gsplsn" => Some(59896)
    case "gspl" => Some(59896)
    case "plgssn" => Some(59896)
    case "gs" => Some(59896)
    case "shgs" => Some(59896)
    case "+gs" => Some(59896)
    case "+shgs" => Some(59896)
    case "-gr" => Some(59897)
    case "-shgr" => Some(59897)
    case "-sngr" => Some(59898)
    case "gr" => Some(59898)
    case "shgr" => Some(59898)
    case "+gr" => Some(59898)
    case "+shgr" => Some(59898)
    case "-tsrasn" => Some(59907)
    case "tsrasn" => Some(59907)
    case "-tssnra" => Some(59907)
    case "tssnra" => Some(59907)
    case "-vctsra" => Some(59908)
    case "-tsra" => Some(59908)
    case "tsra" => Some(59908)
    case "-tsdz" => Some(59908)
    case "vctsra" => Some(59908)
    case "tspl" => Some(59909)
    case "-tssn" => Some(59909)
    case "-tspl" => Some(59909)
    case "tssn" => Some(59909)
    case "-vctssn" => Some(59909)
    case "vctssn" => Some(59909)
    case "tsplsn" => Some(59909)
    case "tssnpl" => Some(59909)
    case "-tssnpl" => Some(59909)
    case "-tsragr" => Some(59910)
    case "tsrags" => Some(59910)
    case "tsragr" => Some(59910)
    case "tsgs" => Some(59910)
    case "tsgr" => Some(59910)
    case "+tsfzrapl" => Some(59911)
    case "+vctsra" => Some(59912)
    case "+tsra" => Some(59912)
    case "+tsfzra" => Some(59912)
    case "+tssn" => Some(59913)
    case "+tspl" => Some(59913)
    case "+tsplsn" => Some(59913)
    case "+vctssn" => Some(59913)
    case "tssa" => Some(59914)
    case "tsds" => Some(59914)
    case "tsdu" => Some(59914)
    case "+tsgs" => Some(59915)
    case "+tsgr" => Some(59915)
    case "+tsrags" => Some(59915)
    case "+tsragr" => Some(59915)
    case "in" => Some(59750)
    case "-up" => Some(59750)
    case "up" => Some(59750)
    case "+up" => Some(59751)
    case "-fzup" => Some(59756)
    case "fzup" => Some(59756)
    case "+fzup" => Some(59757)
    case _ => None
  }

  const SYMBOL_FIRST: nat := 59658
  const SYMBOL_LAST: nat := 59915

  /** The sky-cover abbreviations share the codes of the oktas they stand for. */
  lemma SkyCoverAliases()
    ensures SymbolCode("clr") == SymbolCode("0/8") && SymbolCode("few") == SymbolCode("2/8")
    ensures SymbolCode("sct") == SymbolCode("4/8") && SymbolCode("bkn") == SymbolCode("6/8")
    ensures SymbolCode("ovc") == SymbolCode("8/8") && SymbolCode("obsc") == Some(SymbolCode("8/8").value + 1)
  {
  }

  /** Every code lies in the block of the symbol font, so it is one UTF-16 unit and a valid character. */
  lemma SymbolCodesInFont()
    ensures forall s | SymbolCode(s).Some? :: SYMBOL_FIRST <= SymbolCode(s).value <= SYMBOL_LAST
  {
  }

  // ----- the text of each observation -----

  datatype TextSpec = TextSpec(text: string, lat: real, lon: real, minZoom: real)

  /** The grid data every sub-component reads: earth coordinates and the minimum visible zoom of each point. */
  datatype StationGrid = StationGrid(lats: seq<real>, lons: seq<real>, zoom: seq<real>)
  {
    predicate Covers(n: nat)
    {
      |lats| >= n && |lons| >= n && |zoom| >= n
    }
  }

  /** The formatter used when none is configured: 'null' for a missing value, else the number's own text. */
  function DefaultFormatter(toStr: real -> string): (f: Option<real> -> string)
    ensures f(None) == "null"
    ensures forall v :: f(Some(v)) == toStr(v)
  {
    (v: Option<real>) => if v.None? then "null" else toStr(v.value)
  }

  function NumberSpecs(values: seq<Option<real>>, formatter: Option<real> -> string, g: StationGrid): (r: seq<TextSpec>)
    requires g.Covers(|values|)
    ensures |r| == |values|
    ensures forall i | 0 <= i < |values| :: r[i] == TextSpec(formatter(values[i]), g.lats[i], g.lons[i], g.zoom[i])
  {
    seq(|values|, i requires 0 <= i < |values| => TextSpec(formatter(values[i]), g.lats[i], g.lons[i], g.zoom[i]))
  }

  /** A text for a string observation: the empty string for a missing one. */
  function StringText(v: Option<string>): (t: string)
    ensures v.None? ==> t == ""
    ensures v.Some? ==> t == v.value
  {
    if v.None? then "" else v.value
  }

  function StringSpecs(values: seq<Option<string>>, g: StationGrid): (r: seq<TextSpec>)
    requires g.Covers(|values|)
    ensures |r| == |values|
    ensures forall i | 0 <= i < |values| :: r[i] == TextSpec(StringText(values[i]), g.lats[i], g.lons[i], g.zoom[i])
  {
    seq(|values|, i requires 0 <= i < |values| => TextSpec(StringText(values[i]), g.lats[i], g.lons[i], g.zoom[i]))
  }

  /**
   * The text for a symbol observation: empty for a missing one, else the
   * single character of its glyph code; a string that is not a symbol has
   * no code, and String.fromCharCode of the undefined value is the NUL
   * character.
   */
  function SymbolText(v: Option<string>): (t: string)
    ensures v.None? ==> t == ""
    ensures v.Some? ==> |t| == 1
    ensures v.Some? && SymbolCode(v.value).Some? ==> t[0] as int == SymbolCode(v.value).value
  {
    if v.None? then ""
    else match SymbolCode(v.value)
      case None => [0 as char]
      case Some(code) =>
        SymbolCodeInFont(v.value);
        [code as char]
  }

  lemma SymbolCodeInFont(s: string)
    requires SymbolCode(s).Some?
    ensures SYMBOL_FIRST <= SymbolCode(s).value <= SYMBOL_LAST
  {
    SymbolCodesInFont();
  }

  function SymbolSpecs(values: seq<Option<string>>, g: StationGrid): (r: seq<TextSpec>)
    requires g.Covers(|values|)
    ensures |r| == |values|
    ensures forall i | 0 <= i < |values| :: r[i] == TextSpec(SymbolText(values[i]), g.lats[i], g.lons[i], g.zoom[i])
  {
    seq(|values|, i requires 0 <= i < |values| => TextSpec(SymbolText(values[i]), g.lats[i], g.lons[i], g.zoom[i]))
  }

  // ----- sub-components -----

  datatype SPConfig =
    | NumberConfig(pos: Position, color: Option<string>, formatter: Option<Option<real> -> string>)
    | StringConfig(pos: Position, color: Option<string>)
    | BarbConfig(barbColor: Option<string>, barbSize: Option<real>)
    | SymbolConfig(pos: Position, color: Option<string>)
    | OtherConfig(typeName: string)

  datatype Component =
    | TextComponent(specs: seq<TextSpec>, fontUrl: string, placement: Placement, fontSize: real, textColor: string)
    | BarbComponent(color: string, barbSize: real, thinFac: nat)

  const BLACK := "#000000"

  function UnknownConfigMessage(typeName: string): string
  {
    "Unknown station plot configuration type " + typeName
  }

  function ColorOrBlack(color: Option<string>): string
  {
    if color.None? then BLACK else color.value
  }

  /** The formatter a number configuration uses. */
  function NumberFormatter(formatter: Option<Option<real> -> string>, toStr: real -> string): Option<real> -> string
  {
    if formatter.None? then DefaultFormatter(toStr) else formatter.value
  }

  /**
   * The sub-component built for the observations under one key: text for
   * numbers and strings at the configured position, barbs for vectors,
   * glyphs of the symbol font for symbols with the x offset moved 3 to the
   * left, and an error for any other type. Each kind fails exactly when the
   * raw field's getter for it rejects the observations.
   */
  function SubComponent(config: SPConfig, obs: seq<RF.Obs>, key: string, g: StationGrid, fontUrl: string, symbolFontUrl: string,
                        fontSize: real, thinFac: nat, toStr: real -> string): (r: Result<Component>)
    requires g.Covers(|obs|)
    ensures config.OtherConfig? ==> r == Err(UnknownConfigMessage(config.typeName))
    ensures config.NumberConfig? ==> (r.Err? <==> RF.GetScalar(obs, key).Err?)
    ensures (config.StringConfig? || config.SymbolConfig?) ==> (r.Err? <==> RF.GetStrings(obs, key).Err?)
    ensures config.BarbConfig? ==> (r.Err? <==> RF.GetVectorData(obs, key).Err?)
    ensures r.Err? && !config.OtherConfig? ==>
      r.error == (match config
                  case NumberConfig(_, _, _) => RF.NotScalarMessage(key)
                  case BarbConfig(_, _) => RF.NotVectorMessage(key)
                  case _ => RF.NotStringMessage(key))
    ensures config.NumberConfig? && r.Ok? ==>
      r.value == TextComponent(NumberSpecs(RF.GetScalar(obs, key).value, NumberFormatter(config.formatter, toStr), g),
                               fontUrl, PositionToAlignmentAndOffset(config.pos, None), fontSize, ColorOrBlack(config.color))
    ensures config.StringConfig? && r.Ok? ==>
      r.value == TextComponent(StringSpecs(RF.GetStrings(obs, key).value, g),
                               fontUrl, PositionToAlignmentAndOffset(config.pos, None), fontSize, ColorOrBlack(config.color))
    ensures config.SymbolConfig? && r.Ok? ==>
      var p := PositionToAlignmentAndOffset(config.pos, None);
      r.value == TextComponent(SymbolSpecs(RF.GetStrings(obs, key).value, g),
                               symbolFontUrl, p.(offsetX := p.offsetX - 3.0), fontSize, ColorOrBlack(config.color))
    ensures config.BarbConfig? && r.Ok? ==>
      r.value == BarbComponent(ColorOrBlack(config.barbColor), if config.barbSize.None? then 1.0 else config.barbSize.value, thinFac)
  {
    match config
    case NumberConfig(pos, color, formatter) =>
      (match RF.GetScalar(obs, key)
       case Err(e) => Err(e)
       case Ok(vs) =>
         Ok(TextComponent(NumberSpecs(vs, NumberFormatter(formatter, toStr), g), fontUrl, PositionToAlignmentAndOffset(pos, None),
                          fontSize, ColorOrBlack(color))))
    case StringConfig(pos, color) =>
      (match RF.GetStrings(obs, key)
       case Err(e) => Err(e)
       case Ok(vs) =>
         Ok(TextComponent(StringSpecs(vs, g), fontUrl, PositionToAlignmentAndOffset(pos, None), fontSize, ColorOrBlack(color))))
    case BarbConfig(color, size) =>
      (match RF.GetVectorData(obs, key)
       case Err(e) => Err(e)
       case Ok(_) => Ok(BarbComponent(ColorOrBlack(color), if size.None? then 1.0 else size.value, thinFac)))
    case SymbolConfig(pos, color) =>
      (match RF.GetStrings(obs, key)
       case Err(e) => Err(e)
       case Ok(vs) =>
         var p := PositionToAlignmentAndOffset(pos, None);
         Ok(TextComponent(SymbolSpecs(vs, g), symbolFontUrl, p.(offsetX := p.offsetX - 3.0), fontSize, ColorOrBlack(color))))
    case OtherConfig(t) => Err(UnknownConfigMessage(t))
  }

  // ----- font URLs -----

  predicate OccursAt(s: string, pat: string, j: int)
  {
    0 <= j && j + |pat| <= |s| && s[j..j + |pat|] == pat
  }

  /** The first index at or after i where pat occurs in s. */
  function FindFrom(s: string, pat: string, i: nat): (r: Option<nat>)
    requires i <= |s|
    ensures r.Some? ==> i <= r.value && OccursAt(s, pat, r.value)
    ensures r.Some? ==> forall j | i <= j < r.value :: !OccursAt(s, pat, j)
    ensures r.None? ==> forall j | i <= j :: !OccursAt(s, pat, j)
    decreases |s| - i
  {
    if i + |pat| > |s| then None
    else if OccursAt(s, pat, i) then Some(i)
    else FindFrom(s, pat, i + 1)
  }

  /** String.prototype.replace with a string pattern: only the first occurrence is replaced. */
  function ReplaceFirst(s: string, pat: string, rep: string): (r: string)
    ensures FindFrom(s, pat, 0).None? ==> r == s
    ensures FindFrom(s, pat, 0).Some? ==>
      var i := FindFrom(s, pat, 0).value;
      r == s[..i] + rep + s[i + |pat|..]
  {
    match FindFrom(s, pat, 0)
    case None => s
    case Some(i) => s[..i] + rep + s[i + |pat|..]
  }

  const NO_GLYPHS_MESSAGE := "The map style doesn't have any glyph information. Please pass the font_url_template option to StationPlot"

  /**
   * The font URL template: the option's unless it is empty, then the map
   * style's, and an error when the style has none; the font face replaces
   * the first '{fontstack}'.
   */
  function FontUrl(templateOpt: string, styleGlyphs: Option<string>, fontFace: string): (r: Result<string>)
    ensures r.Err? <==> templateOpt == "" && styleGlyphs.None?
    ensures r.Ok? ==> r.value == ReplaceFirst(if templateOpt == "" then styleGlyphs.value else templateOpt, "{fontstack}", fontFace)
  {
    var t := if templateOpt == "" then styleGlyphs else Some(templateOpt);
    if t.None? then Err(NO_GLYPHS_MESSAGE) else Ok(ReplaceFirst(t.value, "{fontstack}", fontFace))
  }

  /** Replacing then finding: when the template has the placeholder, the face appears where it was. */
  lemma ReplaceFirstPlacesFace(t: string, face: string)
    requires FindFrom(t, "{fontstack}", 0).Some?
    ensures var i := FindFrom(t, "{fontstack}", 0).value;
      var r := ReplaceFirst(t, "{fontstack}", face);
      r[..i] == t[..i] && r[i..i + |face|] == face && r[i + |face|..] == t[i + 11..]
  {
    var i := FindFrom(t, "{fontstack}", 0).value;
    var r := ReplaceFirst(t, "{fontstack}", face);
    assert r == t[..i] + face + t[i + 11..];
  }
}
