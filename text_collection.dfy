/**
 * Text labels (src/TextCollection.ts): the glyph records read from a font
 * PBF, the glyph atlas built from them, the font-block URLs requested for a
 * set of labels, and the vertex buffers laid out for each label, with the
 * horizontal and vertical alignment shifts. The rectangle packer (potpack),
 * the fetches and the WebGL objects are outside the model; the packer is a
 * function parameter.
 */
module TextCollections {
  import opened Wrappers
  import SG = StructuredGrids
  import Utils
  import RDF = RawDataFields
  import MC = MapCoords
  import MS = MarchingSquares
  import SP = StationPlots

  type byte = RDF.byte

  /** Padding added on every side of a glyph bitmap. */
  const PADDING: nat := 3

  // ---------------------------------------------------------------------
  // Reading the font PBF
  // ---------------------------------------------------------------------

  /**
   * One field of a glyph message as the pbf reader delivers it: tags 1 to 7
   * are id, bitmap, width, height, left, top and advance; left and top are
   * zig-zag encoded signed varints; any other tag is skipped.
   */
  datatype GlyphField =
    | IdField(id: nat)
    | BitmapField(bytes: seq<byte>)
    | WidthField(width: nat)
    | HeightField(height: nat)
    | LeftField(leftBits: nat)
    | TopField(topBits: nat)
    | AdvanceField(advance: nat)
    | OtherGlyphField

  /** A fontstack message: tag 3 holds a glyph message, other tags are skipped. */
  datatype FontStackField = GlyphMessage(fields: seq<GlyphField>) | OtherFontStackField

  /** The top-level message: tag 1 holds a fontstack message, other tags are skipped. */
  datatype FontStacksField = FontStackMessage(stack: seq<FontStackField>) | OtherFontStacksField

  /** The glyph object as filled in by the reader; a field the message lacks stays undefined. */
  datatype PBFGlyph = PBFGlyph(id: Option<nat>, data: Option<seq<byte>>, width: Option<nat>, height: Option<nat>,
                               left: Option<int>, top: Option<int>, advance: Option<nat>)

  const EMPTY_GLYPH := PBFGlyph(None, None, None, None, None, None, None)

  /** pbf's readSVarint: odd values are negative. */
  function ZigZagDecode(n: nat): (i: int)
  {
    if n % 2 == 1 then -((n + 1) / 2) else n / 2
  }

  /** The varint that readSVarint turns into i. */
  function ZigZagEncode(i: int): (n: nat)
  {
    if i >= 0 then 2 * i else -2 * i - 1
  }

  lemma ZigZagRoundTrip(i: int, n: nat)
    ensures ZigZagDecode(ZigZagEncode(i)) == i
    ensures ZigZagEncode(ZigZagDecode(n)) == n
  {
    if n % 2 == 1 {
      assert n == 2 * ((n + 1) / 2) - 1;
    } else {
      assert n == 2 * (n / 2);
    }
  }

  /** readGlyph: one field updates one member of the glyph; width and height get the padding on both sides. */
  function ApplyGlyphField(g: PBFGlyph, f: GlyphField): PBFGlyph
  {
    match f
    case IdField(id) => g.(id := Some(id))
    case BitmapField(bytes) => g.(data := Some(bytes))
    case WidthField(w) => g.(width := Some(w + 2 * PADDING))
    case HeightField(h) => g.(height := Some(h + 2 * PADDING))
    case LeftField(bits) => g.(left := Some(ZigZagDecode(bits)))
    case TopField(bits) => g.(top := Some(ZigZagDecode(bits)))
    case AdvanceField(a) => g.(advance := Some(a))
    case OtherGlyphField => g
  }

  /** readMessage(readGlyph, {}): the fields applied in order to an empty object. */
  function ReadGlyph(fields: seq<GlyphField>): PBFGlyph
  {
    if |fields| == 0 then EMPTY_GLYPH else ApplyGlyphField(ReadGlyph(fields[..|fields| - 1]), fields[|fields| - 1])
  }

  /** readFontStack: the glyph messages of one fontstack, in order. */
  function ReadFontStack(stack: seq<FontStackField>): (gs: seq<PBFGlyph>)
    ensures |gs| <= |stack|
  {
    if |stack| == 0 then []
    else
      var rest := ReadFontStack(stack[1..]);
      match stack[0]
      case GlyphMessage(fields) => [ReadGlyph(fields)] + rest
      case OtherFontStackField => rest
  }

  /** parseFontPBF: the glyphs of every fontstack, in order. */
  function ParseFontPBF(msgs: seq<FontStacksField>): seq<PBFGlyph>
  {
    if |msgs| == 0 then []
    else
      var rest := ParseFontPBF(msgs[1..]);
      match msgs[0]
      case FontStackMessage(stack) => ReadFontStack(stack) + rest
      case OtherFontStacksField => rest
  }

  predicate IsWidthField(f: GlyphField) { f.WidthField? }
  predicate IsHeightField(f: GlyphField) { f.HeightField? }

  /** A glyph's width is the last width field it carries plus twice the padding. */
  lemma {:induction false} LastWidthIsPadded(pre: seq<GlyphField>, w: nat, post: seq<GlyphField>)
    requires forall k | 0 <= k < |post| :: !IsWidthField(post[k])
    ensures ReadGlyph(pre + [WidthField(w)] + post).width == Some(w + 2 * PADDING)
    decreases |post|
  {
    var fs := pre + [WidthField(w)] + post;
    if |post| == 0 {
      assert fs[..|fs| - 1] == pre;
    } else {
      var init := post[..|post| - 1];
      assert fs[..|fs| - 1] == pre + [WidthField(w)] + init;
      LastWidthIsPadded(pre, w, init);
      assert !IsWidthField(post[|post| - 1]);
    }
  }

  /** A glyph's height is the last height field it carries plus twice the padding. */
  lemma {:induction false} LastHeightIsPadded(pre: seq<GlyphField>, h: nat, post: seq<GlyphField>)
    requires forall k | 0 <= k < |post| :: !IsHeightField(post[k])
    ensures ReadGlyph(pre + [HeightField(h)] + post).height == Some(h + 2 * PADDING)
    decreases |post|
  {
    var fs := pre + [HeightField(h)] + post;
    if |post| == 0 {
      assert fs[..|fs| - 1] == pre;
    } else {
      var init := post[..|post| - 1];
      assert fs[..|fs| - 1] == pre + [HeightField(h)] + init;
      LastHeightIsPadded(pre, h, init);
      assert !IsHeightField(post[|post| - 1]);
    }
  }

  /** Reading two buffers' messages one after the other gives the concatenated glyph lists (the flat() of getFontAtlas). */
  lemma {:induction false} ParseFontPBFConcat(a: seq<FontStacksField>, b: seq<FontStacksField>)
    ensures ParseFontPBF(a + b) == ParseFontPBF(a) + ParseFontPBF(b)
    decreases |a|
  {
    if |a| == 0 {
      assert a + b == b;
    } else {
      assert (a + b)[1..] == a[1..] + b;
      ParseFontPBFConcat(a[1..], b);
    }
  }

  // ---------------------------------------------------------------------
  // The glyph atlas
  // ---------------------------------------------------------------------

  /** A glyph with its place in the atlas. */
  datatype Glyph = Glyph(id: nat, width: nat, height: nat, left: int, top: int, atlasI: nat, atlasJ: nat, advance: nat)

  datatype FontAtlas = FontAtlas(atlas: seq<byte>, atlasWidth: nat, atlasHeight: nat, baseline: int, top: int,
                                 glyphInfo: map<nat, Glyph>)

  /** A box handed to the packer. */
  datatype Box = Box(w: nat, h: nat)

  /** What the packer gives back: the atlas size and each box's corner, None where it left x or y undefined. */
  datatype Packing = Packing(w: nat, h: nat, places: seq<Option<(nat, nat)>>)

  const PACK_MESSAGE := "Potpack couldn't pack this pot, I guess?"

  /** The character code of 'M', whose glyph gives the baseline. */
  const M_CODE: nat := 77

  /** Every member a well-formed glyph message carries (only the bitmap is optional). */
  predicate Complete(g: PBFGlyph)
  {
    g.id.Some? && g.width.Some? && g.height.Some? && g.left.Some? && g.top.Some? && g.advance.Some?
  }

  /** The filter on glyph.data !== undefined. */
  function WithBitmap(gs: seq<PBFGlyph>): (r: seq<PBFGlyph>)
    ensures |r| <= |gs|
    ensures forall g | g in r :: g in gs && g.data.Some?
    ensures forall g | g in gs && g.data.Some? :: g in r
  {
    if |gs| == 0 then []
    else
      var rest := WithBitmap(gs[1..]);
      assert forall g | g in gs[1..] :: g in gs;
      if gs[0].data.Some? then [gs[0]] + rest else rest
  }

  /** The packer's input: one box per glyph, its padded size. */
  function Boxes(gs: seq<PBFGlyph>): (bs: seq<Box>)
    requires forall k | 0 <= k < |gs| :: Complete(gs[k])
    ensures |bs| == |gs|
    ensures forall k | 0 <= k < |gs| :: gs[k].width == Some(bs[k].w) && gs[k].height == Some(bs[k].h)
  {
    seq(|gs|, k requires 0 <= k < |gs| && Complete(gs[k]) => Box(gs[k].width.value, gs[k].height.value))
  }

  /** Where one glyph's bitmap goes: the atlas width, the bitmap, its size and its corner in the atlas. */
  datatype Blit = Blit(atlasWidth: nat, data: seq<byte>, width: nat, height: nat, x: nat, y: nat)

  /** A store into a Uint8Array; an index past the end is ignored. */
  function Store(s: seq<byte>, k: nat, v: byte): (r: seq<byte>)
    ensures |r| == |s|
  {
    if k < |s| then s[k := v] else s
  }

  /** glyph.data[k]; a read past the end is undefined, which a Uint8Array stores as 0. */
  function Texel(data: seq<byte>, k: nat): byte
  {
    if k < |data| then data[k] else 0
  }

  /** The inner loop: rows 0 to n-1 of column i copied. */
  function ColumnBlit(a: seq<byte>, b: Blit, i: nat, n: nat): (r: seq<byte>)
    ensures |r| == |a|
  {
    if n == 0 then a
    else Store(ColumnBlit(a, b, i, n - 1), SG.Cell(b.atlasWidth, b.y + (n - 1), b.x + i), Texel(b.data, SG.Cell(b.width, n - 1, i)))
  }

  /** The outer loop: columns 0 to m-1 copied, each over the whole height. */
  function GlyphBlit(a: seq<byte>, b: Blit, m: nat): (r: seq<byte>)
    ensures |r| == |a|
  {
    if m == 0 then a else ColumnBlit(GlyphBlit(a, b, m - 1), b, m - 1, b.height)
  }

  /** Two pixels of an atlas row-major layout are the same only when their rows and columns are. */
  lemma CellInjective(w: nat, r: nat, c: nat, r2: nat, c2: nat)
    requires c < w && c2 < w && (r != r2 || c != c2)
    ensures SG.Cell(w, r, c) != SG.Cell(w, r2, c2)
  {
    if r < r2 {
      SG.CellBefore(w, r, c, r2, c2);
    } else if r2 < r {
      SG.CellBefore(w, r2, c2, r, c);
    }
  }

  /** Column i of the glyph lands in atlas column x+i, rows y to y+n-1; pixel (c, r) of the atlas is Cell(W, r, c). */
  lemma {:induction false} ColumnBlitAt(a: seq<byte>, b: Blit, i: nat, n: nat, r: nat, c: nat)
    requires b.x + i < b.atlasWidth && c < b.atlasWidth && SG.Cell(b.atlasWidth, r, c) < |a|
    ensures ColumnBlit(a, b, i, n)[SG.Cell(b.atlasWidth, r, c)] ==
      if c == b.x + i && b.y <= r < b.y + n then Texel(b.data, SG.Cell(b.width, r - b.y, i)) else a[SG.Cell(b.atlasWidth, r, c)]
  {
    if n > 0 {
      var w := b.atlasWidth;
      var t := SG.Cell(w, b.y + (n - 1), b.x + i);
      var prev := ColumnBlit(a, b, i, n - 1);
      assert ColumnBlit(a, b, i, n) == Store(prev, t, Texel(b.data, SG.Cell(b.width, n - 1, i)));
      ColumnBlitAt(a, b, i, n - 1, r, c);
      if r != b.y + (n - 1) || c != b.x + i {
        CellInjective(w, r, c, b.y + (n - 1), b.x + i);
      }
    }
  }

  /**
   * Placement: when the glyph's columns fit in the atlas width, after the
   * first m columns pixel (c, r) of the atlas holds byte (c-x) + width*(r-y)
   * of the bitmap if it lies in those columns of the glyph's rectangle, and
   * keeps its value otherwise.
   */
  lemma {:induction false} GlyphBlitAt(a: seq<byte>, b: Blit, m: nat, r: nat, c: nat)
    requires b.x + b.width <= b.atlasWidth && m <= b.width && c < b.atlasWidth && SG.Cell(b.atlasWidth, r, c) < |a|
    ensures GlyphBlit(a, b, m)[SG.Cell(b.atlasWidth, r, c)] ==
      if b.x <= c < b.x + m && b.y <= r < b.y + b.height then Texel(b.data, SG.Cell(b.width, r - b.y, c - b.x))
      else a[SG.Cell(b.atlasWidth, r, c)]
  {
    if m > 0 {
      GlyphBlitAt(a, b, m - 1, r, c);
      ColumnBlitAt(GlyphBlit(a, b, m - 1), b, m - 1, b.height, r, c);
    }
  }

  /** The whole glyph: atlas pixel (i+x) + W*(j+y) receives bitmap byte i + width*j. */
  lemma GlyphPixelPlaced(a: seq<byte>, b: Blit, i: nat, j: nat)
    requires b.x + b.width <= b.atlasWidth && i < b.width && j < b.height
    requires SG.Cell(b.atlasWidth, b.y + j, b.x + i) < |a|
    ensures GlyphBlit(a, b, b.width)[SG.Cell(b.atlasWidth, b.y + j, b.x + i)] == Texel(b.data, SG.Cell(b.width, j, i))
  {
    GlyphBlitAt(a, b, b.width, b.y + j, b.x + i);
  }

  /** What the forEach has built so far. */
  datatype AtlasState = AtlasState(atlas: seq<byte>, glyphs: map<nat, Glyph>, maxHeight: nat)

  /** The blit of a complete glyph placed at (x, y). */
  function BlitOf(w: nat, g: PBFGlyph, x: nat, y: nat): Blit
    requires Complete(g) && g.data.Some?
  {
    Blit(w, g.data.value, g.width.value, g.height.value, x, y)
  }

  /** One forEach step: record the glyph under its id, raise the maximum height, copy the bitmap. */
  function PlaceGlyph(st: AtlasState, w: nat, g: PBFGlyph, x: nat, y: nat): (r: AtlasState)
    requires Complete(g) && g.data.Some?
    ensures |r.atlas| == |st.atlas|
  {
    var info := Glyph(g.id.value, g.width.value, g.height.value, g.left.value, g.top.value, x, y, g.advance.value);
    var b := BlitOf(w, g, x, y);
    AtlasState(GlyphBlit(st.atlas, b, b.width), st.glyphs[g.id.value := info],
               if st.maxHeight >= g.height.value then st.maxHeight else g.height.value)
  }

  /** The forEach over the first k packed glyphs; the first unplaced box throws. */
  function PackAll(st: AtlasState, w: nat, gs: seq<PBFGlyph>, places: seq<Option<(nat, nat)>>, k: nat): (r: Result<AtlasState>)
    requires k <= |gs| && |places| == |gs|
    requires forall g | g in gs :: Complete(g) && g.data.Some?
    ensures r.Ok? ==> |r.value.atlas| == |st.atlas|
  {
    if k == 0 then Ok(st)
    else
      var prev := PackAll(st, w, gs, places, k - 1);
      if prev.Err? then prev
      else if places[k - 1].None? then Err(PACK_MESSAGE)
      else PlaceGlyphOk(prev.value, w, gs[k - 1], places[k - 1].value)
  }

  function PlaceGlyphOk(st: AtlasState, w: nat, g: PBFGlyph, place: (nat, nat)): Result<AtlasState>
    requires Complete(g) && g.data.Some?
  {
    Ok(PlaceGlyph(st, w, g, place.0, place.1))
  }

  /** Baseline and top from the 'M' glyph when there is one, else the tallest glyph and 0. */
  function Finish(st: AtlasState, w: nat, h: nat): (fa: FontAtlas)
    ensures M_CODE in st.glyphs ==> fa.baseline == st.glyphs[M_CODE].height - st.glyphs[M_CODE].top && fa.top == -st.glyphs[M_CODE].top
    ensures M_CODE !in st.glyphs ==> fa.baseline == st.maxHeight && fa.top == 0
    ensures fa.atlas == st.atlas && fa.atlasWidth == w && fa.atlasHeight == h && fa.glyphInfo == st.glyphs
  {
    var baseline := if M_CODE in st.glyphs then st.glyphs[M_CODE].height - st.glyphs[M_CODE].top else st.maxHeight;
    var top := if M_CODE in st.glyphs then -st.glyphs[M_CODE].top else 0;
    FontAtlas(st.atlas, w, h, baseline, top, st.glyphs)
  }

  function Zeros(n: nat): (s: seq<byte>)
    ensures |s| == n && forall k | 0 <= k < n :: s[k] == 0
  {
    seq(n, _ => 0)
  }

  /** The glyphs createAtlas packs and the packer's answer for them. */
  predicate PackableGlyphs(pbfGlyphs: seq<PBFGlyph>, potpack: seq<Box> -> Packing)
  {
    (forall g | g in pbfGlyphs && g.data.Some? :: Complete(g)) &&
    |potpack(BoxesOf(pbfGlyphs)).places| == |WithBitmap(pbfGlyphs)|
  }

  function BoxesOf(pbfGlyphs: seq<PBFGlyph>): seq<Box>
  {
    var fs := WithBitmap(pbfGlyphs);
    if forall g | g in fs :: Complete(g) then Boxes(fs) else []
  }

  /** createAtlas as a function of the glyphs and the packer. */
  function AtlasAsWritten(pbfGlyphs: seq<PBFGlyph>, potpack: seq<Box> -> Packing): Result<FontAtlas>
    requires PackableGlyphs(pbfGlyphs, potpack)
  {
    var fs := WithBitmap(pbfGlyphs);
    var p := potpack(BoxesOf(pbfGlyphs));
    var r := PackAll(AtlasState(Zeros(p.w * p.h), map[], 0), p.w, fs, p.places, |fs|);
    if r.Err? then Err(r.error) else Ok(Finish(r.value, p.w, p.h))
  }

  /** Once a box is unplaced the forEach has thrown. */
  lemma {:induction false} PackAllErrSticky(st: AtlasState, w: nat, gs: seq<PBFGlyph>, places: seq<Option<(nat, nat)>>, k: nat, n: nat)
    requires k <= n <= |gs| && |places| == |gs|
    requires forall g | g in gs :: Complete(g) && g.data.Some?
    requires PackAll(st, w, gs, places, k).Err?
    ensures PackAll(st, w, gs, places, n) == PackAll(st, w, gs, places, k)
    decreases n - k
  {
    if n > k {
      PackAllErrSticky(st, w, gs, places, k, n - 1);
    }
  }

  /** The forEach throws exactly when some box is left unplaced. */
  lemma {:induction false} PackAllErrIff(st: AtlasState, w: nat, gs: seq<PBFGlyph>, places: seq<Option<(nat, nat)>>, k: nat)
    requires k <= |gs| && |places| == |gs|
    requires forall g | g in gs :: Complete(g) && g.data.Some?
    ensures PackAll(st, w, gs, places, k).Err? <==> exists j | 0 <= j < k :: places[j].None?
    ensures PackAll(st, w, gs, places, k).Err? ==> PackAll(st, w, gs, places, k).error == PACK_MESSAGE
  {
    if k > 0 {
      PackAllErrIff(st, w, gs, places, k - 1);
    }
  }

  /** The atlas createAtlas returns: an error iff the packer left a glyph unplaced, else a W*H atlas whose baseline comes from 'M'. */
  lemma AtlasErrors(pbfGlyphs: seq<PBFGlyph>, potpack: seq<Box> -> Packing)
    requires PackableGlyphs(pbfGlyphs, potpack)
    ensures var p := potpack(BoxesOf(pbfGlyphs)); var r := AtlasAsWritten(pbfGlyphs, potpack);
      (r.Err? <==> exists j | 0 <= j < |p.places| :: p.places[j].None?) &&
      (r.Err? ==> r.error == PACK_MESSAGE) &&
      (r.Ok? ==> |r.value.atlas| == p.w * p.h && r.value.atlasWidth == p.w && r.value.atlasHeight == p.h)
  {
    var fs := WithBitmap(pbfGlyphs);
    var p := potpack(BoxesOf(pbfGlyphs));
    PackAllErrIff(AtlasState(Zeros(p.w * p.h), map[], 0), p.w, fs, p.places, |fs|);
  }

  /** The glyph table holds exactly the ids of the packed glyphs. */
  lemma {:induction false} PackAllIds(st: AtlasState, w: nat, gs: seq<PBFGlyph>, places: seq<Option<(nat, nat)>>, k: nat, id: nat)
    requires k <= |gs| && |places| == |gs|
    requires forall g | g in gs :: Complete(g) && g.data.Some?
    requires PackAll(st, w, gs, places, k).Ok?
    ensures id in PackAll(st, w, gs, places, k).value.glyphs <==> id in st.glyphs || exists j | 0 <= j < k :: gs[j].id == Some(id)
  {
    if k > 0 {
      PackAllIds(st, w, gs, places, k - 1, id);
      var g := gs[k - 1];
      assert g in gs;
      assert PackAll(st, w, gs, places, k).value.glyphs == PackAll(st, w, gs, places, k - 1).value.glyphs[g.id.value := PackAll(st, w, gs, places, k).value.glyphs[g.id.value]];
      if exists j | 0 <= j < k :: gs[j].id == Some(id) {
        var j :| 0 <= j < k && gs[j].id == Some(id);
        if j < k - 1 {
          assert exists j' | 0 <= j' < k - 1 :: gs[j'].id == Some(id);
        }
      }
    }
  }

  /** The running maximum: no packed glyph is taller, and it is the starting value or some glyph's height. */
  lemma {:induction false} PackAllMaxHeight(st: AtlasState, w: nat, gs: seq<PBFGlyph>, places: seq<Option<(nat, nat)>>, k: nat)
    requires k <= |gs| && |places| == |gs|
    requires forall g | g in gs :: Complete(g) && g.data.Some?
    requires PackAll(st, w, gs, places, k).Ok?
    ensures var m := PackAll(st, w, gs, places, k).value.maxHeight;
      st.maxHeight <= m &&
      (forall j | 0 <= j < k :: gs[j].height.Some? && gs[j].height.value <= m) &&
      (m == st.maxHeight || exists j | 0 <= j < k :: gs[j].height == Some(m))
  {
    if k > 0 {
      PackAllMaxHeight(st, w, gs, places, k - 1);
      assert gs[k - 1] in gs;
    }
  }

  /** createAtlas: the glyphs with a bitmap are boxed, packed, recorded and copied one after another into a W*H atlas. */
  method CreateAtlas(pbfGlyphs: seq<PBFGlyph>, potpack: seq<Box> -> Packing) returns (r: Result<FontAtlas>)
    requires PackableGlyphs(pbfGlyphs, potpack)
    ensures r == AtlasAsWritten(pbfGlyphs, potpack)
  {
    var fs := WithBitmap(pbfGlyphs);
    var pack := potpack(BoxesOf(pbfGlyphs));
    var atlas := new byte[pack.w * pack.h](_ => 0);
    assert atlas[..] == Zeros(pack.w * pack.h);
    var packed := PackGlyphs(atlas, pack.w, fs, pack.places);
    if packed.Err? {
      return Err(packed.error);
    }
    r := Ok(Finish(packed.value, pack.w, pack.h));
  }

  /** The forEach of createAtlas over the packed glyphs, from an empty table. */
  method PackGlyphs(atlas: array<byte>, w: nat, fs: seq<PBFGlyph>, places: seq<Option<(nat, nat)>>)
    returns (r: Result<AtlasState>)
    requires |places| == |fs|
    requires forall g | g in fs :: Complete(g) && g.data.Some?
    modifies atlas
    ensures r == PackAll(AtlasState(old(atlas[..]), map[], 0), w, fs, places, |fs|)
    ensures r.Ok? ==> r.value.atlas == atlas[..]
  {
    ghost var st0 := AtlasState(atlas[..], map[], 0);
    var glyphs: map<nat, Glyph> := map[];
    var maxHeight: nat := 0;
    var k: nat := 0;
    while k < |fs|
      invariant k <= |fs|
      invariant PackAll(st0, w, fs, places, k) == Ok(AtlasState(atlas[..], glyphs, maxHeight))
    {
      var g := fs[k];
      assert g in fs;
      if places[k].None? {
        PackAllErrSticky(st0, w, fs, places, k + 1, |fs|);
        return Err(PACK_MESSAGE);
      }
      var (x, y) := places[k].value;
      assert PackAll(st0, w, fs, places, k + 1) == Ok(PlaceGlyph(AtlasState(atlas[..], glyphs, maxHeight), w, g, x, y));
      glyphs, maxHeight := PackGlyph(atlas, w, g, x, y, glyphs, maxHeight);
      k := k + 1;
    }
    r := Ok(AtlasState(atlas[..], glyphs, maxHeight));
  }

  /** One forEach step of createAtlas on the atlas array, the glyph table and the running maximum. */
  method PackGlyph(atlas: array<byte>, w: nat, g: PBFGlyph, x: nat, y: nat, glyphs: map<nat, Glyph>, maxHeight: nat)
    returns (glyphs': map<nat, Glyph>, maxHeight': nat)
    requires Complete(g) && g.data.Some?
    modifies atlas
    ensures AtlasState(atlas[..], glyphs', maxHeight') == PlaceGlyph(AtlasState(old(atlas[..]), glyphs, maxHeight), w, g, x, y)
  {
    glyphs' := glyphs[g.id.value := Glyph(g.id.value, g.width.value, g.height.value, g.left.value, g.top.value, x, y, g.advance.value)];
    maxHeight' := if maxHeight >= g.height.value then maxHeight else g.height.value;
    BlitGlyph(atlas, BlitOf(w, g, x, y));
  }

  /** The two nested loops copying one glyph's bitmap. */
  method BlitGlyph(atlas: array<byte>, b: Blit)
    modifies atlas
    ensures atlas[..] == GlyphBlit(old(atlas[..]), b, b.width)
  {
    var i: nat := 0;
    while i < b.width
      invariant i <= b.width
      invariant atlas[..] == GlyphBlit(old(atlas[..]), b, i)
    {
      BlitColumn(atlas, b, i);
      i := i + 1;
    }
  }

  /** The inner loop: column i of the bitmap into column x+i of the atlas. */
  method BlitColumn(atlas: array<byte>, b: Blit, i: nat)
    modifies atlas
    ensures atlas[..] == ColumnBlit(old(atlas[..]), b, i, b.height)
  {
    var j: nat := 0;
    while j < b.height
      invariant j <= b.height
      invariant atlas[..] == ColumnBlit(old(atlas[..]), b, i, j)
    {
      var glyphIdx := SG.Cell(b.width, j, i);
      var atlasIdx := SG.Cell(b.atlasWidth, b.y + j, b.x + i);
      if atlasIdx < atlas.Length {
        atlas[atlasIdx] := Texel(b.data, glyphIdx);
      }
      j := j + 1;
    }
  }

  // ---------------------------------------------------------------------
  // Character codes and font-block URLs (make)
  // ---------------------------------------------------------------------

  /** Characters per font block. */
  const FONT_GROUP_SIZE: nat := 256

  /** charCodeAt(0) of a one-code-point string: the code itself, or the high surrogate past the BMP. */
  function FirstUnit(c: char): (u: nat)
    ensures u < 0x10000
  {
    if c as int < 0x10000 then c as int else 0xD800 + (c as int - 0x10000) / 0x400
  }

  /** The UTF-16 code units of one code point. */
  function Units(c: char): (us: seq<nat>)
    ensures 1 <= |us| <= 2 && us[0] == FirstUnit(c)
  {
    if c as int < 0x10000 then [c as int] else [FirstUnit(c), 0xDC00 + (c as int - 0x10000) % 0x400]
  }

  /** A JavaScript string's code units: what length and charCodeAt(i) see. */
  function Utf16(s: string): (us: seq<nat>)
    ensures |s| <= |us| <= 2 * |s|
  {
    if |s| == 0 then [] else Utf16(s[..|s| - 1]) + Units(s[|s| - 1])
  }

  /** [...text].map(c => c.charCodeAt(0)) for one label. */
  function TextCodes(s: string): (cs: seq<nat>)
    ensures |cs| == |s| && forall k | 0 <= k < |s| :: cs[k] == FirstUnit(s[k])
  {
    seq(|s|, k requires 0 <= k < |s| => FirstUnit(s[k]))
  }

  /** The codes of every label, in order. */
  function Codes(texts: seq<string>): seq<nat>
  {
    if |texts| == 0 then [] else Codes(texts[..|texts| - 1]) + TextCodes(texts[|texts| - 1])
  }

  /** filter((c, i, ary) => ary.indexOf(c) == i): the first occurrence of each code. */
  function Distinct(xs: seq<nat>): (r: seq<nat>)
    ensures forall c :: c in r <==> c in xs
    ensures forall i, j | 0 <= i < j < |r| :: r[i] != r[j]
  {
    if |xs| == 0 then []
    else
      var d := Distinct(xs[..|xs| - 1]);
      assert forall c :: c in xs <==> c in xs[..|xs| - 1] || c == xs[|xs| - 1];
      if xs[|xs| - 1] in xs[..|xs| - 1] then d else d + [xs[|xs| - 1]]
  }

  function SeqMin(xs: seq<nat>): (m: nat)
    requires |xs| > 0
    ensures m in xs && forall k | 0 <= k < |xs| :: m <= xs[k]
  {
    if |xs| == 1 then xs[0]
    else
      var m := SeqMin(xs[1..]);
      assert forall k | 1 <= k < |xs| :: xs[k] == xs[1..][k - 1];
      if xs[0] <= m then xs[0] else m
  }

  function SeqMax(xs: seq<nat>): (m: nat)
    requires |xs| > 0
    ensures m in xs && forall k | 0 <= k < |xs| :: xs[k] <= m
  {
    if |xs| == 1 then xs[0]
    else
      var m := SeqMax(xs[1..]);
      assert forall k | 1 <= k < |xs| :: xs[k] == xs[1..][k - 1];
      if xs[0] >= m then xs[0] else m
  }

  /** Math.floor(c / 256) * 256. */
  function BlockStart(c: nat): nat
  {
    FONT_GROUP_SIZE * (c / FONT_GROUP_SIZE)
  }

  /** The "{range}" text of the block starting at a. */
  function RangeName(a: nat): string
  {
    Utils.NatToString(a) + "-" + Utils.NatToString(a + FONT_GROUP_SIZE - 1)
  }

  function BlockUrl(template: string, a: nat): string
  {
    SP.ReplaceFirst(template, "{range}", RangeName(a))
  }

  /** The URLs of count consecutive blocks, the first of them block number first. */
  function BlockUrls(template: string, first: nat, count: nat): (urls: seq<string>)
    ensures |urls| == count
    ensures forall k | 0 <= k < count :: urls[k] == BlockUrl(template, FONT_GROUP_SIZE * (first + k))
  {
    seq(count, k requires 0 <= k < count => BlockUrl(template, FONT_GROUP_SIZE * (first + k)))
  }

  lemma DivMonotone(x: nat, y: nat)
    requires x <= y
    ensures x / FONT_GROUP_SIZE <= y / FONT_GROUP_SIZE
  {
    assert FONT_GROUP_SIZE * (x / FONT_GROUP_SIZE) <= x;
    assert y < FONT_GROUP_SIZE * (y / FONT_GROUP_SIZE + 1);
  }

  lemma BlockUrlsSnoc(template: string, first: nat, n: nat)
    ensures BlockUrls(template, first, n + 1) == BlockUrls(template, first, n) + [BlockUrl(template, FONT_GROUP_SIZE * (first + n))]
  {
  }

  /** The block numbers of the lowest and highest code. */
  function FirstBlock(codes: seq<nat>): nat
    requires |codes| > 0
  {
    SeqMin(codes) / FONT_GROUP_SIZE
  }

  function LastBlock(codes: seq<nat>): (b: nat)
    requires |codes| > 0
    ensures FirstBlock(codes) <= b
  {
    DivMonotone(SeqMin(codes), SeqMax(codes));
    SeqMax(codes) / FONT_GROUP_SIZE
  }

  /**
   * The URLs make requests for the labels' distinct character codes: the
   * blocks from floor(min/256)*256 to floor(max/256)*256, none when there
   * are no characters (Math.min of no values is Infinity).
   */
  function StackUrls(template: string, codes: seq<nat>): seq<string>
  {
    if |codes| == 0 then [] else BlockUrls(template, FirstBlock(codes), LastBlock(codes) - FirstBlock(codes) + 1)
  }

  /** The characters of make, collected as the map/filter expression does. */
  function CharacterCodes(texts: seq<string>): seq<nat>
  {
    Distinct(Codes(texts))
  }

  /** The for loop of make building the font-block URL list. */
  method FontstackUrls(texts: seq<string>, template: string) returns (urls: seq<string>)
    ensures urls == StackUrls(template, CharacterCodes(texts))
  {
    var characters := CharacterCodes(texts);
    if |characters| == 0 {
      return [];
    }
    var stackStart := BlockStart(SeqMin(characters));
    var stackEnd := BlockStart(SeqMax(characters));
    ghost var first, last := FirstBlock(characters), LastBlock(characters);
    ghost var n: nat := 0;
    urls := [];
    var istack := stackStart;
    while istack <= stackEnd
      invariant istack == FONT_GROUP_SIZE * (first + n) && n <= last - first + 1
      invariant urls == BlockUrls(template, first, n)
      decreases stackEnd + FONT_GROUP_SIZE - istack
    {
      BlockUrlsSnoc(template, first, n);
      urls := urls + [BlockUrl(template, istack)];
      istack := istack + FONT_GROUP_SIZE;
      n := n + 1;
    }
    assert n == last - first + 1;
  }

  /** Every character of every label has its code in the collected codes. */
  lemma {:induction false} CodeCollected(texts: seq<string>, t: nat, k: nat)
    requires t < |texts| && k < |texts[t]|
    ensures FirstUnit(texts[t][k]) in Codes(texts)
    decreases |texts|
  {
    var n := |texts| - 1;
    if t < n {
      assert texts[..n][t] == texts[t];
      CodeCollected(texts[..n], t, k);
    } else {
      assert TextCodes(texts[n])[k] == FirstUnit(texts[t][k]);
    }
  }

  /** Coverage: the block holding each label character's code is among the URLs requested. */
  lemma UrlsCoverCharacters(texts: seq<string>, template: string, t: nat, k: nat)
    requires t < |texts| && k < |texts[t]|
    ensures BlockUrl(template, BlockStart(FirstUnit(texts[t][k]))) in StackUrls(template, CharacterCodes(texts))
  {
    var c := FirstUnit(texts[t][k]);
    CodeCollected(texts, t, k);
    var cs := CharacterCodes(texts);
    assert c in cs;
    var lo, hi := SeqMin(cs), SeqMax(cs);
    assert lo <= c <= hi by {
      var i :| 0 <= i < |cs| && cs[i] == c;
    }
    DivMonotone(lo, c);
    DivMonotone(c, hi);
    var m := c / FONT_GROUP_SIZE - FirstBlock(cs);
    assert StackUrls(template, cs)[m] == BlockUrl(template, BlockStart(c));
  }

  /** Every URL requested is a block between the lowest and highest code's blocks, in increasing order. */
  lemma UrlsAreBlocks(template: string, codes: seq<nat>, k: nat)
    requires |codes| > 0 && k < |StackUrls(template, codes)|
    ensures var a := FONT_GROUP_SIZE * (SeqMin(codes) / FONT_GROUP_SIZE + k);
      BlockStart(SeqMin(codes)) <= a <= BlockStart(SeqMax(codes)) &&
      StackUrls(template, codes)[k] == BlockUrl(template, a)
  {
    var first, last := FirstBlock(codes), LastBlock(codes);
    assert StackUrls(template, codes) == BlockUrls(template, first, last - first + 1);
    assert first + k <= last;
  }

  // ---------------------------------------------------------------------
  // Vertex buffers (the constructor)
  // ---------------------------------------------------------------------

  datatype HorizontalAlign = AlignLeft | AlignCenter | AlignRight
  datatype VerticalAlign = AlignBaseline | AlignMiddle | AlignTop

  /** The options the layout reads, after defaults are filled in. */
  datatype TextOptions = TextOptions(horizontalAlign: HorizontalAlign, verticalAlign: VerticalAlign, offsetX: real, offsetY: real)

  /** The defaults: left, baseline, no offset. */
  const DEFAULT_TEXT_OPTIONS := TextOptions(AlignLeft, AlignBaseline, 0.0, 0.0)

  /** The texture the constructor uploads: the atlas, or a 1x1 image of zeros when the atlas is empty. */
  function AtlasTexture(fa: FontAtlas): (img: (nat, nat, seq<byte>))
    ensures img.0 >= 1 && img.1 >= 1
    ensures fa.atlasWidth == 0 || fa.atlasHeight == 0 || |fa.atlas| == 0 ==> img == (1, 1, [0, 0, 0, 0])
    ensures fa.atlasWidth > 0 && fa.atlasHeight > 0 && |fa.atlas| > 0 ==> img == (fa.atlasWidth, fa.atlasHeight, fa.atlas)
  {
    var empty := fa.atlasWidth == 0 || fa.atlasHeight == 0 || |fa.atlas| == 0;
    if empty then (1, 1, [0, 0, 0, 0]) else (fa.atlasWidth, fa.atlasHeight, fa.atlas)
  }

  /** How far x_offset moves for a glyph that is not in the atlas. */
  const MISSING_GLYPH_ADVANCE: real := 7.0

  datatype TextSpec = TextSpec(lat: real, lon: real, text: string, minZoom: Option<real>)

  /** The three Float32Arrays and the three write cursors. */
  datatype VertexBuffers = VertexBuffers(anchors: seq<real>, offsets: seq<real>, texcoords: seq<MS.Sample>,
                                         iAnch: nat, iOff: nat, iTc: nat)

  /** The position and minimum zoom every vertex of a label carries. */
  datatype Anchor = Anchor(x: real, y: real, minZoom: real)

  /** The number of code units in the first t labels. */
  function UnitsUpTo(texts: seq<TextSpec>, t: nat): nat
    requires t <= |texts|
  {
    if t == 0 then 0 else UnitsUpTo(texts, t - 1) + |Utf16(texts[t - 1].text)|
  }

  /** The total number of code units in the labels. */
  function TotalUnits(texts: seq<TextSpec>): nat
  {
    UnitsUpTo(texts, |texts|)
  }

  /** A block of stores into a typed array starting at at; stores past the end are ignored. */
  function Splice<T>(s: seq<T>, at: nat, block: seq<T>): (r: seq<T>)
    ensures |r| == |s|
  {
    seq(|s|, k requires 0 <= k < |s| => if at <= k < at + |block| then block[k - at] else s[k])
  }

  /** The anchor of each of the six vertices. */
  function AnchorBlock(a: Anchor): (block: seq<real>)
    ensures |block| == 18
  {
    [a.x, a.y, a.minZoom, a.x, a.y, a.minZoom, a.x, a.y, a.minZoom,
     a.x, a.y, a.minZoom, a.x, a.y, a.minZoom, a.x, a.y, a.minZoom]
  }

  /** The six vertex offsets of a glyph quad whose left edge is x and whose upper y value is top. */
  function OffsetBlock(x: real, top: real, g: Glyph): (block: seq<real>)
    ensures |block| == 12
  {
    var bottom := top - g.height as real;
    var right := x + g.width as real;
    [x, bottom, x, bottom, right, bottom, x, top, right, top, right, top]
  }

  /** A texture coordinate: pixel position over atlas size (a zero size gives no number). */
  function TexCoord(p: nat, size: nat): MS.Sample
  {
    if size == 0 then MS.NaN else MS.Num(p as real / size as real)
  }

  /** The six texture coordinates of a glyph's rectangle in the atlas. */
  function TexBlock(g: Glyph, fa: FontAtlas): (block: seq<MS.Sample>)
    ensures |block| == 12
  {
    var u0 := TexCoord(g.atlasI, fa.atlasWidth);
    var u1 := TexCoord(g.atlasI + g.width, fa.atlasWidth);
    var v0 := TexCoord(g.atlasJ, fa.atlasHeight);
    var v1 := TexCoord(g.atlasJ + g.height, fa.atlasHeight);
    [u0, v1, u0, v1, u1, v1, u0, v0, u1, v0, u1, v0]
  }

  /**
   * One code unit of a label: a unit with no glyph only moves x_offset by 7;
   * otherwise the quad is written at x_offset + left and x_offset ends
   * advance further on.
   */
  function GlyphStep(b: VertexBuffers, pen: real, unit: nat, a: Anchor, offsetY: real, fa: FontAtlas): (VertexBuffers, real)
  {
    if unit !in fa.glyphInfo then (b, pen + MISSING_GLYPH_ADVANCE)
    else
      var g := fa.glyphInfo[unit];
      var x := pen + g.left as real;
      (VertexBuffers(Splice(b.anchors, b.iAnch, AnchorBlock(a)),
                     Splice(b.offsets, b.iOff, OffsetBlock(x, offsetY + (fa.baseline + g.top) as real, g)),
                     Splice(b.texcoords, b.iTc, TexBlock(g, fa)),
                     b.iAnch + 18, b.iOff + 12, b.iTc + 12),
       x + (g.advance - g.left) as real)
  }

  /** The inner for loop over the first n code units of a label. */
  function GlyphsAsWritten(b: VertexBuffers, pen: real, units: seq<nat>, n: nat, a: Anchor, offsetY: real, fa: FontAtlas): (VertexBuffers, real)
    requires n <= |units|
  {
    if n == 0 then (b, pen)
    else
      var prev := GlyphsAsWritten(b, pen, units, n - 1, a, offsetY, fa);
      GlyphStep(prev.0, prev.1, units[n - 1], a, offsetY, fa)
  }

  /** Subtract d from every second entry of [lo, hi), starting at lo; entries past the end are left alone. */
  function Shifted(s: seq<real>, lo: nat, hi: nat, d: real): (r: seq<real>)
    ensures |r| == |s|
  {
    seq(|s|, k requires 0 <= k < |s| => if lo <= k < hi && (k - lo) % 2 == 0 then s[k] - d else s[k])
  }

  /** The horizontal shift: none, half or all of the distance x_offset moved. */
  function HorizontalShift(opts: TextOptions, xEnd: real): real
  {
    match opts.horizontalAlign
    case AlignLeft => 0.0
    case AlignCenter => (xEnd - opts.offsetX) / 2.0
    case AlignRight => xEnd - opts.offsetX
  }

  /** The vertical shift: none, half or all of baseline - top. */
  function VerticalShift(opts: TextOptions, fa: FontAtlas): real
  {
    match opts.verticalAlign
    case AlignBaseline => 0.0
    case AlignMiddle => (fa.baseline - fa.top) as real / 2.0
    case AlignTop => (fa.baseline - fa.top) as real
  }

  /** The horizontal alignment loop over [lo, hi): x values are every second entry from lo. */
  function HorizontallyAligned(offsets: seq<real>, lo: nat, hi: nat, xEnd: real, opts: TextOptions): seq<real>
  {
    match opts.horizontalAlign
    case AlignLeft => offsets
    case AlignCenter => Shifted(offsets, lo, hi, (xEnd - opts.offsetX) / 2.0)
    case AlignRight => Shifted(offsets, lo, hi, xEnd - opts.offsetX)
  }

  /** The vertical alignment loop over [lo+1, hi): y values are every second entry from lo+1. */
  function VerticallyAligned(offsets: seq<real>, lo: nat, hi: nat, opts: TextOptions, fa: FontAtlas): seq<real>
  {
    match opts.verticalAlign
    case AlignBaseline => offsets
    case AlignMiddle => Shifted(offsets, lo + 1, hi, (fa.baseline - fa.top) as real / 2.0)
    case AlignTop => Shifted(offsets, lo + 1, hi, (fa.baseline - fa.top) as real)
  }

  /** The alignment loops over a label's span of n*12 offsets from init. */
  function AlignAsWritten(offsets: seq<real>, init: nat, n: nat, xEnd: real, opts: TextOptions, fa: FontAtlas): seq<real>
  {
    VerticallyAligned(HorizontallyAligned(offsets, init, init + n * 12, xEnd, opts), init, init + n * 12, opts, fa)
  }

  /** The anchor of a label: the LngLat checks, the mercator position and the minimum zoom (0 when unset). */
  function LabelAnchor(loc: TextSpec, rawY: real -> real): (r: Result<Anchor>)
    ensures r.Ok? <==> -90.0 <= loc.lat <= 90.0
  {
    var ll := MC.NewLngLat(MS.Num(loc.lon), MS.Num(loc.lat));
    if ll.Err? then Err(ll.error)
    else
      var c := MC.ToMercatorCoord(rawY, ll.value);
      Ok(Anchor(c.x, c.y, if loc.minZoom.None? then 0.0 else loc.minZoom.value))
  }

  /** The body of text_locs.forEach for one label. */
  function TextAsWritten(b: VertexBuffers, loc: TextSpec, opts: TextOptions, fa: FontAtlas, rawY: real -> real): Result<VertexBuffers>
  {
    var a := LabelAnchor(loc, rawY);
    if a.Err? then Err(a.error)
    else
      var units := Utf16(loc.text);
      var run := GlyphsAsWritten(b, opts.offsetX, units, |units|, a.value, opts.offsetY, fa);
      Ok(run.0.(offsets := AlignAsWritten(run.0.offsets, b.iOff, |units|, run.1, opts, fa)))
  }

  /** Zero-filled buffers of six vertices per code unit of every label. */
  function EmptyBuffers(texts: seq<TextSpec>): (b: VertexBuffers)
    ensures |b.anchors| == 18 * TotalUnits(texts) && |b.offsets| == 12 * TotalUnits(texts) && |b.texcoords| == 12 * TotalUnits(texts)
    ensures b.iAnch == 0 && b.iOff == 0 && b.iTc == 0
  {
    var nVerts := TotalUnits(texts) * 6;
    VertexBuffers(seq(nVerts * 3, _ => 0.0), seq(nVerts * 2, _ => 0.0), seq(nVerts * 2, _ => MS.Num(0.0)), 0, 0, 0)
  }

  /** The forEach over the first t labels from buffers b0; a label the LngLat constructor rejects throws. */
  function LabelsAsWritten(b0: VertexBuffers, texts: seq<TextSpec>, t: nat, opts: TextOptions, fa: FontAtlas, rawY: real -> real): Result<VertexBuffers>
    requires t <= |texts|
  {
    if t == 0 then Ok(b0)
    else
      var prev := LabelsAsWritten(b0, texts, t - 1, opts, fa, rawY);
      if prev.Err? then prev else TextAsWritten(prev.value, texts[t - 1], opts, fa, rawY)
  }

  /** The buffers the constructor hands to WebGL. */
  function LayoutAsWritten(texts: seq<TextSpec>, opts: TextOptions, fa: FontAtlas, rawY: real -> real): Result<VertexBuffers>
  {
    LabelsAsWritten(EmptyBuffers(texts), texts, |texts|, opts, fa, rawY)
  }

  /** Once a label has thrown, the forEach has thrown. */
  lemma {:induction false} LabelsErrSticky(b0: VertexBuffers, texts: seq<TextSpec>, t: nat, n: nat, opts: TextOptions, fa: FontAtlas, rawY: real -> real)
    requires t <= n <= |texts| && LabelsAsWritten(b0, texts, t, opts, fa, rawY).Err?
    ensures LabelsAsWritten(b0, texts, n, opts, fa, rawY).Err?
    ensures LabelsAsWritten(b0, texts, n, opts, fa, rawY).error == LabelsAsWritten(b0, texts, t, opts, fa, rawY).error
    decreases n - t
  {
    if n > t {
      LabelsErrSticky(b0, texts, t, n - 1, opts, fa, rawY);
      var prev := LabelsAsWritten(b0, texts, n - 1, opts, fa, rawY);
      assert prev.Err?;
      assert LabelsAsWritten(b0, texts, n, opts, fa, rawY) == prev;
    }
  }

  /** The constructor's vertex buffers: six vertices per code unit, filled label by label. */
  method LayoutLabels(texts: seq<TextSpec>, opts: TextOptions, fa: FontAtlas, rawY: real -> real) returns (r: Result<VertexBuffers>)
    ensures r == LayoutAsWritten(texts, opts, fa, rawY)
  {
    var nVerts := TotalUnits(texts) * 6;
    var anchors := new real[nVerts * 3](_ => 0.0);
    var offsets := new real[nVerts * 2](_ => 0.0);
    var tcs := new MS.Sample[nVerts * 2](_ => MS.Num(0.0));
    assert VertexBuffers(anchors[..], offsets[..], tcs[..], 0, 0, 0) == EmptyBuffers(texts);
    r := FillLabels(anchors, offsets, tcs, texts, opts, fa, rawY);
  }

  /** text_locs.forEach over the allocated buffers. */
  method FillLabels(anchors: array<real>, offsets: array<real>, tcs: array<MS.Sample>,
                    texts: seq<TextSpec>, opts: TextOptions, fa: FontAtlas, rawY: real -> real) returns (r: Result<VertexBuffers>)
    requires anchors != offsets
    modifies anchors, offsets, tcs
    ensures r == LabelsAsWritten(VertexBuffers(old(anchors[..]), old(offsets[..]), old(tcs[..]), 0, 0, 0), texts, |texts|, opts, fa, rawY)
  {
    ghost var b0 := VertexBuffers(anchors[..], offsets[..], tcs[..], 0, 0, 0);
    var iAnch: nat, iOff: nat, iTc: nat := 0, 0, 0;
    var t: nat := 0;
    while t < |texts|
      invariant t <= |texts|
      invariant LabelsAsWritten(b0, texts, t, opts, fa, rawY) == Ok(VertexBuffers(anchors[..], offsets[..], tcs[..], iAnch, iOff, iTc))
    {
      var step := LayoutText(anchors, offsets, tcs, iAnch, iOff, iTc, texts[t], opts, fa, rawY);
      if step.Err? {
        LabelsErrSticky(b0, texts, t + 1, |texts|, opts, fa, rawY);
        return Err(step.error);
      }
      iAnch, iOff, iTc := step.value.0, step.value.1, step.value.2;
      t := t + 1;
    }
    r := Ok(VertexBuffers(anchors[..], offsets[..], tcs[..], iAnch, iOff, iTc));
  }

  /** One label: its anchor, the loop over its code units, then the alignment loops over its span. */
  method LayoutText(anchors: array<real>, offsets: array<real>, tcs: array<MS.Sample>, iAnch: nat, iOff: nat, iTc: nat,
                    loc: TextSpec, opts: TextOptions, fa: FontAtlas, rawY: real -> real) returns (r: Result<(nat, nat, nat)>)
    requires anchors != offsets
    modifies anchors, offsets, tcs
    ensures r.Err? ==> TextAsWritten(VertexBuffers(old(anchors[..]), old(offsets[..]), old(tcs[..]), iAnch, iOff, iTc), loc, opts, fa, rawY) == Err(r.error)
    ensures r.Ok? ==> (TextAsWritten(VertexBuffers(old(anchors[..]), old(offsets[..]), old(tcs[..]), iAnch, iOff, iTc), loc, opts, fa, rawY) ==
                       Ok(VertexBuffers(anchors[..], offsets[..], tcs[..], r.value.0, r.value.1, r.value.2)))
  {
    var a := LabelAnchor(loc, rawY);
    if a.Err? {
      return Err(a.error);
    }
    ghost var b0 := VertexBuffers(anchors[..], offsets[..], tcs[..], iAnch, iOff, iTc);
    var units := Utf16(loc.text);
    var xOffset := opts.offsetX;
    var initIOff := iOff;
    var ia, io, it := iAnch, iOff, iTc;
    var i: nat := 0;
    while i < |units|
      invariant i <= |units|
      invariant (VertexBuffers(anchors[..], offsets[..], tcs[..], ia, io, it), xOffset) ==
        GlyphsAsWritten(b0, opts.offsetX, units, i, a.value, opts.offsetY, fa)
    {
      ia, io, it, xOffset := WriteGlyph(anchors, offsets, tcs, ia, io, it, xOffset, units[i], a.value, opts.offsetY, fa);
      i := i + 1;
    }
    AlignText(offsets, initIOff, |units|, xOffset, opts, fa);
    r := Ok((ia, io, it));
  }

  /** The stores of one code unit: nothing but the x_offset step for a missing glyph, else the three blocks. */
  method WriteGlyph(anchors: array<real>, offsets: array<real>, tcs: array<MS.Sample>, ia: nat, io: nat, it: nat,
                    pen: real, unit: nat, a: Anchor, offsetY: real, fa: FontAtlas)
    returns (ia': nat, io': nat, it': nat, pen': real)
    requires anchors != offsets
    modifies anchors, offsets, tcs
    ensures (VertexBuffers(anchors[..], offsets[..], tcs[..], ia', io', it'), pen') ==
      GlyphStep(VertexBuffers(old(anchors[..]), old(offsets[..]), old(tcs[..]), ia, io, it), pen, unit, a, offsetY, fa)
  {
    if unit !in fa.glyphInfo {
      return ia, io, it, pen + MISSING_GLYPH_ADVANCE;
    }
    var g := fa.glyphInfo[unit];
    var x := pen + g.left as real;
    WriteBlock(anchors, ia, AnchorBlock(a));
    WriteBlock(offsets, io, OffsetBlock(x, offsetY + (fa.baseline + g.top) as real, g));
    WriteBlock(tcs, it, TexBlock(g, fa));
    ia', io', it' := ia + 18, io + 12, it + 12;
    pen' := x + (g.advance - g.left) as real;
  }

  /** Consecutive stores of a block into a typed array (the i_anch++ / i_off++ / i_tc++ runs). */
  method WriteBlock<T>(arr: array<T>, at: nat, block: seq<T>)
    modifies arr
    ensures arr[..] == Splice(old(arr[..]), at, block)
  {
    var t: nat := 0;
    while t < |block|
      invariant t <= |block|
      invariant arr[..] == Splice(old(arr[..]), at, block[..t])
    {
      if at + t < arr.Length {
        arr[at + t] := block[t];
      }
      t := t + 1;
    }
    assert block[..|block|] == block;
  }

  /** The alignment loops after a label's glyphs. */
  method AlignText(offsets: array<real>, init: nat, n: nat, xEnd: real, opts: TextOptions, fa: FontAtlas)
    modifies offsets
    ensures offsets[..] == AlignAsWritten(old(offsets[..]), init, n, xEnd, opts, fa)
  {
    ghost var before := offsets[..];
    var hi := init + n * 12;
    AlignHorizontally(offsets, init, hi, xEnd, opts);
    ghost var mid := offsets[..];
    assert mid == HorizontallyAligned(before, init, hi, xEnd, opts);
    AlignVertically(offsets, init, hi, opts, fa);
    assert offsets[..] == VerticallyAligned(mid, init, hi, opts, fa);
  }

  method AlignHorizontally(offsets: array<real>, lo: nat, hi: nat, xEnd: real, opts: TextOptions)
    modifies offsets
    ensures offsets[..] == HorizontallyAligned(old(offsets[..]), lo, hi, xEnd, opts)
  {
    if opts.horizontalAlign == AlignCenter {
      ShiftEvery(offsets, lo, hi, (xEnd - opts.offsetX) / 2.0);
    } else if opts.horizontalAlign == AlignRight {
      ShiftEvery(offsets, lo, hi, xEnd - opts.offsetX);
    }
  }

  method AlignVertically(offsets: array<real>, lo: nat, hi: nat, opts: TextOptions, fa: FontAtlas)
    modifies offsets
    ensures offsets[..] == VerticallyAligned(old(offsets[..]), lo, hi, opts, fa)
  {
    if opts.verticalAlign == AlignTop {
      ShiftEvery(offsets, lo + 1, hi, (fa.baseline - fa.top) as real);
    } else if opts.verticalAlign == AlignMiddle {
      ShiftEvery(offsets, lo + 1, hi, (fa.baseline - fa.top) as real / 2.0);
    }
  }

  /** for (i = lo; i < hi; i += 2) a[i] -= d. */
  method ShiftEvery(arr: array<real>, lo: nat, hi: nat, d: real)
    modifies arr
    ensures arr[..] == Shifted(old(arr[..]), lo, hi, d)
  {
    var i: nat := lo;
    while i < hi
      invariant lo <= i && (i - lo) % 2 == 0 && (i == lo || i <= hi + 1)
      invariant arr[..] == Shifted(old(arr[..]), lo, i, d)
      decreases hi - i
    {
      if i < arr.Length {
        arr[i] := arr[i] - d;
      }
      i := i + 2;
    }
  }

  // ---------------------------------------------------------------------
  // Properties of the layout
  // ---------------------------------------------------------------------

  /** How far one code unit moves the pen: the glyph's advance, or 7 when the atlas has no glyph for it. */
  function UnitAdvance(fa: FontAtlas, u: nat): real
  {
    if u in fa.glyphInfo then fa.glyphInfo[u].advance as real else MISSING_GLYPH_ADVANCE
  }

  /** The total advance of a run of code units. */
  function Advance(fa: FontAtlas, units: seq<nat>): real
  {
    if |units| == 0 then 0.0 else Advance(fa, units[..|units| - 1]) + UnitAdvance(fa, units[|units| - 1])
  }

  /** The number of code units the atlas has a glyph for, i.e. the quads written. */
  function Drawn(fa: FontAtlas, units: seq<nat>): (n: nat)
    ensures n <= |units|
  {
    if |units| == 0 then 0 else Drawn(fa, units[..|units| - 1]) + (if units[|units| - 1] in fa.glyphInfo then 1 else 0)
  }

  /** The quads written for the first t labels. */
  function DrawnUpTo(fa: FontAtlas, texts: seq<TextSpec>, t: nat): (n: nat)
    requires t <= |texts|
    ensures n <= UnitsUpTo(texts, t)
  {
    if t == 0 then 0 else DrawnUpTo(fa, texts, t - 1) + Drawn(fa, Utf16(texts[t - 1].text))
  }

  /**
   * After the first n code units x_offset has moved by their total advance,
   * the cursors by one six-vertex block per glyph found, and no buffer has
   * changed length.
   */
  lemma {:induction false} GlyphsProgress(b: VertexBuffers, pen: real, units: seq<nat>, n: nat, a: Anchor, offsetY: real, fa: FontAtlas)
    requires n <= |units|
    ensures var run := GlyphsAsWritten(b, pen, units, n, a, offsetY, fa);
      run.1 == pen + Advance(fa, units[..n]) &&
      run.0.iAnch == b.iAnch + 18 * Drawn(fa, units[..n]) &&
      run.0.iOff == b.iOff + 12 * Drawn(fa, units[..n]) &&
      run.0.iTc == b.iTc + 12 * Drawn(fa, units[..n]) &&
      |run.0.anchors| == |b.anchors| && |run.0.offsets| == |b.offsets| && |run.0.texcoords| == |b.texcoords|
  {
    if n > 0 {
      GlyphsProgress(b, pen, units, n - 1, a, offsetY, fa);
      assert units[..n][..n - 1] == units[..n - 1];
    }
  }

  /**
   * The alignment loops as a shift per entry: entries at even distance from
   * init within the span lose the horizontal shift, those at odd distance
   * the vertical one, and everything else is unchanged.
   */
  lemma AlignShifts(offsets: seq<real>, init: nat, n: nat, xEnd: real, opts: TextOptions, fa: FontAtlas, k: nat)
    requires k < |offsets|
    ensures var inSpan := init <= k < init + n * 12;
      AlignAsWritten(offsets, init, n, xEnd, opts, fa)[k] ==
        if inSpan && (k - init) % 2 == 0 then offsets[k] - HorizontalShift(opts, xEnd)
        else if inSpan && k > init then offsets[k] - VerticalShift(opts, fa)
        else offsets[k]
  {
    if init <= k && (k - init) % 2 != 0 {
      assert (k - (init + 1)) % 2 == 0;
    }
  }

  /**
   * Centre alignment moves a label left by half its total advance and right
   * alignment by all of it (glyphs missing from the atlas count 7 each).
   */
  lemma LabelShift(b: VertexBuffers, loc: TextSpec, opts: TextOptions, fa: FontAtlas, a: Anchor)
    ensures var units := Utf16(loc.text);
      var xEnd := GlyphsAsWritten(b, opts.offsetX, units, |units|, a, opts.offsetY, fa).1;
      HorizontalShift(opts, xEnd) ==
        match opts.horizontalAlign
        case AlignLeft => 0.0
        case AlignCenter => Advance(fa, units) / 2.0
        case AlignRight => Advance(fa, units)
  {
    var units := Utf16(loc.text);
    GlyphsProgress(b, opts.offsetX, units, |units|, a, opts.offsetY, fa);
    assert units[..|units|] == units;
  }

  /** Label by label the cursors advance by one block per glyph drawn and the buffers keep their size. */
  lemma {:induction false} LabelsProgress(b0: VertexBuffers, texts: seq<TextSpec>, t: nat, opts: TextOptions, fa: FontAtlas, rawY: real -> real)
    requires t <= |texts| && LabelsAsWritten(b0, texts, t, opts, fa, rawY).Ok?
    ensures var r := LabelsAsWritten(b0, texts, t, opts, fa, rawY).value;
      r.iAnch == b0.iAnch + 18 * DrawnUpTo(fa, texts, t) &&
      r.iOff == b0.iOff + 12 * DrawnUpTo(fa, texts, t) &&
      r.iTc == b0.iTc + 12 * DrawnUpTo(fa, texts, t) &&
      |r.anchors| == |b0.anchors| && |r.offsets| == |b0.offsets| && |r.texcoords| == |b0.texcoords|
  {
    if t > 0 {
      LabelsProgress(b0, texts, t - 1, opts, fa, rawY);
      var prev := LabelsAsWritten(b0, texts, t - 1, opts, fa, rawY);
      assert prev.Ok?;
      TextProgress(prev.value, texts[t - 1], opts, fa, rawY);
    }
  }

  /** One label advances the cursors by one block per glyph drawn and keeps the buffer sizes. */
  lemma TextProgress(b: VertexBuffers, loc: TextSpec, opts: TextOptions, fa: FontAtlas, rawY: real -> real)
    requires TextAsWritten(b, loc, opts, fa, rawY).Ok?
    ensures var r := TextAsWritten(b, loc, opts, fa, rawY).value; var d := Drawn(fa, Utf16(loc.text));
      r.iAnch == b.iAnch + 18 * d && r.iOff == b.iOff + 12 * d && r.iTc == b.iTc + 12 * d &&
      |r.anchors| == |b.anchors| && |r.offsets| == |b.offsets| && |r.texcoords| == |b.texcoords|
  {
    var units := Utf16(loc.text);
    var a := LabelAnchor(loc, rawY);
    GlyphsProgress(b, opts.offsetX, units, |units|, a.value, opts.offsetY, fa);
    assert units[..|units|] == units;
  }

  /**
   * The allocation of six vertices per code unit is enough: when the
   * constructor finishes, every cursor is within its buffer, so no store
   * of any glyph was dropped.
   */
  lemma LayoutFits(texts: seq<TextSpec>, opts: TextOptions, fa: FontAtlas, rawY: real -> real)
    requires LayoutAsWritten(texts, opts, fa, rawY).Ok?
    ensures var r := LayoutAsWritten(texts, opts, fa, rawY).value;
      |r.anchors| == 18 * TotalUnits(texts) && |r.offsets| == 12 * TotalUnits(texts) && |r.texcoords| == 12 * TotalUnits(texts) &&
      r.iAnch <= |r.anchors| && r.iOff <= |r.offsets| && r.iTc <= |r.texcoords|
  {
    LabelsProgress(EmptyBuffers(texts), texts, |texts|, opts, fa, rawY);
  }
}
