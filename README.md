# autumnplot-gl core, modelled in Dafny

This project models the data logic of autumnplot-gl, a library that draws
meteorological fields (contours, filled contours, wind barbs, station plots,
text labels) on web maps with WebGL. Everything that talks to the GPU, the
DOM or a web worker is left out. What is kept is the logic that decides
which numbers end up in which buffer, which inputs are rejected, and which
state a layer or program object is in.

- **Contouring.** The C++ marching-squares extractor `makeContours` is
  modelled as imperative Dafny. A `ContourBuilder` class holds the
  fragments, the `by_start`/`by_end` maps and the finished contours. The
  nested cell loops stitch one table segment at a time, and the proof
  carries the invariant that every fragment end is registered in exactly
  one map. The result is proved to consist of the closed rings followed by
  the flushed open fragments. Its consecutive point pairs are exactly the
  segments the 16-entry case table gives for the grid's cells.
  - `getContourLevels` is modelled with its running-extrema loop exactly
    as written: the maximum is compared against the running minimum.
  - The interpolation pass is modelled as written: it edits copies and so
    changes nothing.
- **Contour bindings.** `checkGridSize`, the level copy and the
  group-by-value loop of the WebAssembly entry points are modelled, as is
  `contourCreator`'s option checking.
- **Colours and colour maps.** Hex colour parsing and printing, `Color`,
  and `ColorMap` are modelled: its count check, `withOpacity` band
  filtering, `diverging` and `buildColormap`.
- **Grids and buffers.** These cover grid thinning (structured,
  unstructured and the legacy `Grid.ts` classes), nearest-point sampling,
  texture padding and the worker functions that fill triangle-strip
  buffers. Each buffer-filling loop is a method proved to fill its buffer
  exactly, against a function that gives every slot's value.
- **Station plots, raw fields and text.** These cover the observation-field
  type checks, the storm-motion grid and profile coordinates, the
  station-plot text specs, and the text collection: glyph parsing, atlas
  blitting, font-block URLs and the label layout loop.
- **Small state machines.** These are the memoising `Cache`, the
  framebuffer ping-pong, `WGLProgram`'s bind/draw checks, the multi-field
  layer key logic, the shader program cache and `LngLat` validation.

Floating-point numbers are modelled as Dafny `real`s. Where the source's
NaN matters, a `Sample` datatype (a number or NaN) stands in for it,
and the running extrema of the contour levels are `Ext` values (a
number or an infinity). Transcendental helpers (Mercator Y, hypot,
trigonometry, HSV conversion) and foreign libraries (potpack, pbf
decoding) are function-typed parameters.

## Model

| member | source | states |
|---|---|---|
| MarchingSquares.CaseCode | src/cpp/marchingsquares.cpp:113 | the code is below 16; bit 1 (sw), 2 (se), 4 (ne) and 8 (nw) is set exactly when that corner is strictly above the value, so a tie counts as below |
| MarchingSquares.Code | src/cpp/marchingsquares.cpp:108-113 | a cell's code is the case code of its four corners, read at i + nx·j from the grid, and is below 16 |
| MarchingSquares.CodeBits | src/cpp/marchingsquares.cpp:108-113 | each bit of a cell's code is set exactly when the corresponding corner sample is above the value |
| MarchingSquares.TableShape | src/cpp/marchingsquares.cpp:79-96 | the table has 16 entries of NSEGS = 2 slots each |
| MarchingSquares.SegmentCounts | src/cpp/marchingsquares.cpp:79-96 | codes 0 and 15 emit no segment, the saddles 5 and 10 emit two, every other code one; the second slot is used only when the first one is |
| MarchingSquares.UsedSlotsJoinMidpoints | src/cpp/marchingsquares.cpp:79-116 | every slot that is not skipped by the negative-x sentinel joins two distinct cell-edge midpoints (one coordinate integral, the other half-integral) |
| MarchingSquares.OffsetIsEdgePoint | src/cpp/marchingsquares.cpp:118-122 | a table point offset by the cell (i, j) is the midpoint of that cell's edge in grid-index coordinates |
| MarchingSquares.TableOriented | src/cpp/marchingsquares.cpp:79-96 | every used slot is oriented the same way: its start edge and its end edge are fixed by which corners are above the value, and the saddles' second slots are told apart by their edges |
| MarchingSquares.SegmentOwners | src/cpp/marchingsquares.cpp:79-122 | the segment of slot k of cell (i, j) is the only one of the whole scan that starts at its start edge and the only one that ends at its end edge |
| MarchingSquares.Emitted | src/cpp/marchingsquares.cpp:188-191 | listing fragments by an enumeration of their identities gives one contour per identity, equal to that fragment |
| MarchingSquares.StitchedMerge | src/cpp/marchingsquares.cpp:132-152 | joining two different fragments frag1 ++ frag2 and re-keying the result by its own front and back keeps every fragment end registered in exactly one map |
| MarchingSquares.StitchedClose | src/cpp/marchingsquares.cpp:136-156 | removing a closed fragment from both maps keeps the map invariant |
| MarchingSquares.AddedMerge | src/cpp/marchingsquares.cpp:127-152 | the merge branch keeps the invariant, adds no key beyond the segment's ends, meets the merge clause of SegmentAdded and drops the number of live fragments by one |
| MarchingSquares.AddedClose | src/cpp/marchingsquares.cpp:136-156 | the close branch appends the fragment followed by its own first point to the contours and removes it from both maps |
| MarchingSquares.AddedAppend | src/cpp/marchingsquares.cpp:158-165 | a hit on by_end only appends end_pt and moves that fragment's end key from start_pt to end_pt |
| MarchingSquares.AddedPrepend | src/cpp/marchingsquares.cpp:166-173 | a hit on by_start only prepends start_pt and moves that fragment's start key from end_pt to start_pt |
| MarchingSquares.AddedNew | src/cpp/marchingsquares.cpp:174-182 | a miss registers a new two-point fragment [start_pt, end_pt] under both maps with a fresh identity |
| MarchingSquares.ContourBuilder.AddSegment | src/cpp/marchingsquares.cpp:124-182 | one stitching step: the new fragments, maps and contours are those SegmentAdded gives for the merge, close, append, prepend or new case; the invariant is kept and a merge drops the fragment count by one |
| MarchingSquares.ContourBuilder.Flush | src/cpp/marchingsquares.cpp:187-194 | every fragment still live is appended to the contours exactly once, in an order that is a bijection with the live fragments |
| MarchingSquares.WalkByStart | src/cpp/marchingsquares.cpp:188-194 | walking by_start lists each live fragment exactly once |
| MarchingSquares.FlushedAreOpen | src/cpp/marchingsquares.cpp:187-194 | every flushed fragment has at least two points and distinct first and last points |
| MarchingSquares.FinalContours | src/cpp/marchingsquares.cpp:187-194 | the output is the closed rings followed by the open flushed fragments, all on the grid (rings are closed at line 139) |
| MarchingSquares.ScanSlot | src/cpp/marchingsquares.cpp:115-122 | one slot of a cell: its segment is stitched when the slot is used and skipped otherwise, keeping the scan invariant |
| MarchingSquares.ScanCell | src/cpp/marchingsquares.cpp:107-122 | one cell: its code is computed from its corners and its used slots are stitched in slot order |
| MarchingSquares.ScanColumn | src/cpp/marchingsquares.cpp:107-184 | the cells (i, 0) .. (i, ny - 2) in order |
| MarchingSquares.ScanGrid | src/cpp/marchingsquares.cpp:106-185 | the columns 0 .. nx - 2 in order, keeping the invariant that the pairs drawn so far are exactly the segments of the slots scanned so far |
| MarchingSquares.AddSegmentStep | src/cpp/marchingsquares.cpp:118-182 | stitching a used slot's segment keeps both the map invariant with the ownership of ends and the scanned-pairs invariant |
| MarchingSquares.PairsAfterAdd | src/cpp/marchingsquares.cpp:124-182 | every stitching case adds exactly the new segment to the point pairs of the fragments and contours |
| MarchingSquares.EmittedPairs | src/cpp/marchingsquares.cpp:188-194 | flushing every fragment once draws exactly the pairs of the fragments, whatever the order |
| MarchingSquares.FinalPairs | src/cpp/marchingsquares.cpp:106-194 | after the last column the rings and the flushed fragments are drawn with exactly the grid's segments |
| MarchingSquares.MakeContours | src/cpp/marchingsquares.cpp:98-221 | every output point is a cell-edge midpoint on the grid; the closed rings come first and the flushed open fragments after; the consecutive point pairs of the output are exactly the segments the table gives for the grid's cells |
| MarchingSquares.ExtremaMinIsTrueMin | src/cpp/marchingsquares.cpp:227-231 | the running minimum of the loop is the true minimum of the numeric samples |
| MarchingSquares.ExtremaMaxBounded | src/cpp/marchingsquares.cpp:227-231 | the running maximum is never +infinity, never above the true maximum and, when finite, strictly above the minimum |
| MarchingSquares.RunningMaxLosesPeak | src/cpp/marchingsquares.cpp:230 | on 1, 3, 2 the loop's maximum is 2 although the true maximum is 3 |
| MarchingSquares.RunningMaxStaysInfinite | src/cpp/marchingsquares.cpp:230 | on 3, 2, 1 the loop's maximum stays -infinity although the true maximum is 3 |
| MarchingSquares.RunningExtrema | src/cpp/marchingsquares.cpp:227-231 | the extrema loop over the first n samples gives the pair Extrema defines |
| MarchingSquares.Levels | src/cpp/marchingsquares.cpp:233-241 | there are floor((hi - lo) / interval) + 1 levels, or none when that count is negative |
| MarchingSquares.LevelsInRange | src/cpp/marchingsquares.cpp:233-241 | every level lies in [lo, hi], level k is (ceil(lo / interval) + k) · interval, and consecutive levels differ by one interval |
| MarchingSquares.LevelsComplete | src/cpp/marchingsquares.cpp:233-241 | every multiple of the interval inside [lo, hi] is a level |
| MarchingSquares.FillLevels | src/cpp/marchingsquares.cpp:236-241 | the level vector has n entries, entry k being lowest + k · interval |
| MarchingSquares.LevelsFromLowest | src/cpp/marchingsquares.cpp:233-241 | levels counted up from the lowest multiple are the levels of [lo, hi] |
| MarchingSquares.GetContourLevels | src/cpp/marchingsquares.cpp:225-244 | the result is GridLevels of the first nx·ny samples: the running extrema as written, then floor((highest - lowest) / interval) + 1 evenly spaced levels, an empty list for a zero count and None where the count is negative or undefined |
| MarchingSquares.GridLevelsDefined | src/cpp/marchingsquares.cpp:233-236 | levels exist exactly for a nonzero interval with both extrema finite and, for a negative interval, a zero count; a negative interval then gives no level |
| MarchingSquares.NegativeIntervalNoLevels | src/cpp/marchingsquares.cpp:233-236 | samples 1, 1.5 with interval -1 give the count 0 and an empty level list |
| MarchingSquares.NegativeIntervalNegativeCount | src/cpp/marchingsquares.cpp:233-236 | samples 1, 3 with interval -1 give a negative count, which the source cannot allocate |
| MarchingSquares.GridLevelsArePrefix | src/cpp/marchingsquares.cpp:230 | for a positive interval the levels as written are a prefix of the levels over the true range; a negative interval gives none |
| MarchingSquares.GridLevelsMissPeak | src/cpp/marchingsquares.cpp:230 | on 1, 3, 2 with interval 1 the levels are [1, 2]; the intended levels are [1, 2, 3] |
| MarchingSquares.IntendedLevelsSpan | src/cpp/marchingsquares.cpp:225-244 | the intended levels lie between the true minimum and maximum, increase strictly and include every multiple of the interval in that range |
| ContourTypes.IsCloseScalarReflexive | src/cpp/marchingsquares.hpp:7-13 | every number is close to itself |
| ContourTypes.IsCloseScalarSymmetric | src/cpp/marchingsquares.hpp:7-13 | closeness is symmetric |
| ContourTypes.IsCloseToZero | src/cpp/marchingsquares.hpp:9-12 | with no absolute tolerance only 0 is close to 0 |
| ContourTypes.PointEqualImpliesClose | src/cpp/marchingsquares.hpp:24-30 | equal points are close |
| ContourTypes.ContourIsClose | src/cpp/marchingsquares.hpp:53-62 | false when the values or the point counts differ; otherwise true exactly when every index pair of points is close |
| ContourTypes.Assign | src/cpp/marchingsquares.hpp:64-67 | the target takes the other contour's points and keeps its own value |
| ContourTypes.AssignThenCompare | src/cpp/marchingsquares.hpp:53-67 | after assignment the target is close to the source exactly when their values already agreed |
| ContourBindings.CheckGridSize | src/cpp/main.cpp:12-17 | an error, with the source's message, exactly when nx·ny differs from the data length |
| ContourBindings.CopyLevels | src/cpp/main.cpp:42-46 | the levels are the input values, in order and unchanged |
| ContourBindings.AddContour | src/cpp/main.cpp:65-79 | one contour: its value's array is created when first seen and the transformed contour is pushed at the counter's index, which then grows by one |
| ContourBindings.GroupByValue | src/cpp/main.cpp:62-80 | one entry per distinct value; under each value, the contours with that value in input order, each point transformed by the grid transformer |
| ContourBindings.FoundAtRank | src/cpp/main.cpp:73-74 | every input contour is found in its value's group at its rank among the contours with that value |
| ContourBindings.MakeContoursWASM | src/cpp/main.cpp:19-91 | Err exactly when |xs|·|ys| differs from the data length; otherwise the grouped contours of the (parameter) contouring at the copied levels |
| ContourBindings.GetContourLevelsWASM | src/cpp/main.cpp:93-114 | Err exactly when nx·ny differs from the grid length; otherwise the levels in the order the level function produced them |
| ContourCreator.ModuleLoader.InitMSModule | src/ContourCreator.ts:10-16 | the first call creates the module promise and every later call returns the same promise without loading again |
| ContourCreator.LoadTwice | src/ContourCreator.ts:10-16 | two calls on a fresh loader load once and return the same handle |
| ContourCreator.PlanContours | src/ContourCreator.ts:35-50 | Err with the source's message exactly when neither interval nor levels is given; Float32 entry points exactly for Float32 data; quad_as_tri defaults to false; explicit levels are used as given, otherwise the grid's levels at the interval |
| ContourCreator.ContourCreatorRun | src/ContourCreator.ts:35-54 | the missing-options error; explicit levels passed through unchanged; otherwise the levels of getContourLevels at the interval; errors exactly when a size check fails (or the generated levels are undefined); the result is the grouped contours |
| Utils.FindHex | src/utils.ts:5 | Some exactly when the string has a match of the case-insensitive pattern `#` plus three or four hex pairs at or after i; the digits are six or eight hex digits taken from the leftmost match |
| Utils.Hex2Rgba | src/utils.ts:2-17 | Err with the source's message exactly when there is no match; otherwise three components without alpha digits and four with them, each in [0, 1] in the default float mode |
| Utils.Components | src/utils.ts:10-14 | one component per matched byte |
| Utils.Rgba2Hex | src/utils.ts:19-28 | the result starts with '#' |
| Utils.Rgba2HexShape | src/utils.ts:19-28 | for components in range, '#' followed by two upper-case hex digits per component |
| Utils.PadStart2 | src/utils.ts:27 | strings of two or more characters are not padded |
| Utils.RoundScaledByte | src/utils.ts:13-24 | rounding a byte scaled by 1/255 and back by 255 gives the byte again |
| Utils.HexRoundTrip | src/utils.ts:2-28 | printing parsed components in the same mode gives '#' and the matched digits upper-cased |
| Utils.Halvings | src/utils.ts:36-39 | the number of halvings is at most the exponent of the base |
| Utils.GetMinZoom | src/utils.ts:30-42 | the loop returns one plus the number of halvings the thin factor needs before it divides both indices |
| Utils.MinZoomBounds | src/utils.ts:30-42 | the zoom lies in [1, e + 1]; it is 1 exactly when 2^e divides both indices; 2^(e - zoom + 1) divides both and no larger power up to 2^e does |
| Utils.MinLength | src/utils.ts:44-53 | the length of the shortest argument |
| Utils.Zip | src/utils.ts:44-53 | as many tuples as the shortest argument has elements; tuple k holds the k-th element of every argument in argument order |
| Utils.ArgMin | src/grids/StructuredGrid.ts:98-99 | an index of a least element, the first one on ties |
| Utils.NatToStringValue | src/Colormap.ts:39 | the decimal string of a number spells that number |
| Utils.NatToStringInjective | src/Colormap.ts:39 | different numbers give different decimal strings |
| Colors.Hex2Rgba4 | src/Color.ts:2-17 | Err exactly when the shared parser fails; otherwise four components: the parsed three and an alpha of 1, or the parsed four |
| Colors.Rgba2Hex4 | src/Color.ts:19-28 | all four components are printed; nothing is filtered |
| Colors.Color.WithOpacity | src/Color.ts:110-112 | the same r, g and b with the given alpha |
| Colors.Color.ToRGBHex | src/Color.ts:114-116 | the RGBA hex string with its last two characters removed |
| Colors.Color.ToRGBATuple | src/Color.ts:122-124 | the four components |
| Colors.FromHex | src/Color.ts:130-132 | Err exactly when parsing fails; otherwise the colour whose components are the parsed four in float mode |
| Colors.WithOpacityLastWins | src/Color.ts:110-112 | setting the opacity twice keeps only the second; setting it to the current alpha changes nothing |
| Colors.ToRGBHexIsRgb | src/Color.ts:114-120 | for components in [0, 1] the RGB hex is '#' and six digits, the hex of r, g and b alone |
| Colors.FromHexRoundTrip8 | src/Color.ts:130-132 | a colour read from eight digits prints as those digits upper-cased (parsed as at lines 12-24) |
| Colors.FromHexRoundTrip6 | src/Color.ts:130-132 | a colour read from six digits prints as those digits upper-cased followed by 'FF' (parsed as at line 16) |
| Colormaps.Normalize | src/Colormap.ts:42 | a colour stays as it is and a string is parsed with fromHex |
| Colormaps.NormalizeAll | src/Colormap.ts:45 | succeeds exactly when every colour normalises, and then keeps them in order |
| Colormaps.NormalizeOpt | src/Colormap.ts:47-49 | an absent end colour stays absent; a given one is normalised |
| Colormaps.MakeColorMap | src/Colormap.ts:37-50 | Err with the message naming both counts unless there is one more level than colours; otherwise succeeds exactly when all colours normalise, keeping the levels, the normalised colours and which end colours were given |
| Colormaps.GetColors | src/Colormap.ts:55-57 | one RGB hex string per colour |
| Colormaps.GetOpacities | src/Colormap.ts:62-64 | one alpha per colour |
| Colormaps.AddBand | src/Colormap.ts:84-86 | a kept band adds its upper level, and its lower level too unless that equals the last level kept |
| Colormaps.KeptColors | src/Colormap.ts:76-89 | the kept colours are exactly the colours of the bands with a positive new opacity, in order, each with that opacity |
| Colormaps.KeptContiguousCount | src/Colormap.ts:76-89 | contiguous kept bands give exactly one level more than bands |
| Colormaps.KeptStrictCount | src/Colormap.ts:76-89 | with strictly increasing levels every gap between kept bands costs one extra level |
| Colormaps.ContiguousNoGaps | src/Colormap.ts:84 | contiguous indices have no gap |
| Colormaps.NoGapsContiguous | src/Colormap.ts:84 | indices without a gap are contiguous |
| Colormaps.EndColor | src/Colormap.ts:91-103 | an end colour is kept exactly when it exists and the opacity at its end level is positive, with that opacity |
| Colormaps.WithOpacity | src/Colormap.ts:71-106 | the result is the constructor applied to the kept levels, the kept colours and the kept end colours, so its count check applies |
| Colormaps.WithOpacityDefined | src/Colormap.ts:76-105 | the counts match when the kept bands are contiguous and not empty; with strictly increasing levels only then |
| Colormaps.WithOpacityEnds | src/Colormap.ts:91-105 | the end colours survive exactly where the opacity at their end level is positive; the colours are the kept ones |
| Colormaps.BuildColormap | src/Colormap.ts:162-174 | the constructor on the data, with the last colour as overflow for 'over' and 'both' and the first as underflow for 'under' and 'both' |
| Colormaps.BuildColormapEnds | src/Colormap.ts:162-174 | a built map's overflow colour is its last colour and its underflow colour its first |
| Colormaps.Diverging | src/Colormap.ts:117-159 | Err exactly when an end colour does not parse; otherwise n colours, one per stop, and level k is levelMin + k·(levelMax - levelMin)/n, from levelMin to levelMax; no end colours |
| Colormaps.StopColors | src/Colormap.ts:129-151 | one stop per colour, stop k being the stop colour of k |
| Colormaps.EvenLevels | src/Colormap.ts:153-156 | n + 1 levels, level k being EvenLevel of k |
| Colormaps.EvenLevelsEnd | src/Colormap.ts:153-156 | the first level is levelMin and, for n ≥ 1, the last is levelMax |
| Colormaps.PlainColorMap | src/Colormap.ts:37-50 | a map built from parsed colours with no end colours keeps them as they are |
| StationPlots.PositionToAlignmentAndOffset | src/StationPlot.ts:194-209 | 'll', 'cl', 'ul' align right with x offset -off; 'lc', 'c', 'uc' centre with 0; the rest align left with +off; 'll', 'lc', 'lr' hang from the top with y offset -off; 'cl', 'c', 'cr' are middle with 0; the rest sit on the baseline with +off; off defaults to 10 |
| StationPlots.PlacementOffsets | src/StationPlot.ts:194-209 | every offset is +off, -off or 0, and different positions give different placements |
| StationPlots.SkyCoverAliases | src/StationPlot.ts:103-104 | 'clr', 'few', 'sct', 'bkn' and 'ovc' share the codes of 0/8, 2/8, 4/8, 6/8 and 8/8; 'obsc' follows 8/8 |
| StationPlots.SymbolCodesInFont | src/StationPlot.ts:101-137 | every symbol code lies in the block 59658 .. 59915 of the symbol font |
| StationPlots.SymbolCodeInFont | src/StationPlot.ts:101-137 | the code of any one symbol lies in that block |
| StationPlots.DefaultFormatter | src/StationPlot.ts:249 | the default formatter prints 'null' for a missing value and the number's own text otherwise |
| StationPlots.NumberSpecs | src/StationPlot.ts:251 | one text spec per value: the formatted value at that station's latitude, longitude and minimum zoom |
| StationPlots.StringText | src/StationPlot.ts:255 | a missing string becomes '' |
| StationPlots.StringSpecs | src/StationPlot.ts:254-255 | one text spec per string at that station |
| StationPlots.SymbolText | src/StationPlot.ts:285 | a missing symbol becomes ''; a symbol becomes the single character of its code |
| StationPlots.SymbolSpecs | src/StationPlot.ts:280-286 | one text spec per symbol at that station |
| StationPlots.SubComponent | src/StationPlot.ts:235-300 | per configuration kind: number, string and symbol fail exactly when getScalar or getStrings rejects the field, and barb exactly when getVector does, each with that getter's message; an unknown type fails with its own message; otherwise the text specs, font URL, placement (symbols 3 further left), font size and colour (black by default), or the barb colour and size multiplier (1 by default) |
| StationPlots.FindFrom | src/StationPlot.ts:233 | the first index at or after i where the pattern occurs, or None when it does not occur |
| StationPlots.ReplaceFirst | src/StationPlot.ts:233 | only the first occurrence of the pattern is replaced; a string without it is unchanged (used again at line 284) |
| StationPlots.FontUrl | src/StationPlot.ts:229-233 | the option's template unless it is empty, then the style's; Err exactly when both are missing; the font face replaces the first '{fontstack}' |
| StationPlots.ReplaceFirstPlacesFace | src/StationPlot.ts:233 | the font face appears where the placeholder was, with the text around it unchanged |
| MapCoords.MercatorXFromLng | src/Map.ts:268-270 | lngFromMercatorX inverts it, and longitudes in [-180, 180] map exactly onto [0, 1] |
| MapCoords.LngFromMercatorX | src/Map.ts:272-274 | x in [0, 1] maps exactly onto [-180, 180] |
| MapCoords.MercatorXRoundTrip | src/Map.ts:268-274 | x to longitude and back is the identity |
| MapCoords.ClampY | src/Map.ts:279 | the result lies in [-0.5, 1.5], equals y inside that range and the nearer bound outside it |
| MapCoords.MercatorYFromLat | src/Map.ts:276-280 | the projected y is clamped into [-0.5, 1.5] and unchanged inside it |
| MapCoords.ClampMonotone | src/Map.ts:279 | clamping keeps the order of two values |
| MapCoords.NewLngLat | src/Map.ts:303-312 | Ok exactly for numeric values with a latitude in [-90, 90]; NaN is rejected first with the invalid-object error, then an out-of-range latitude with the latitude error |
| MapCoords.ToMercatorCoord | src/Map.ts:314-316 | x inverts to the longitude; y is the clamped latitude formula |
| MapCoords.FromMercatorCoord | src/Map.ts:318-320 | Ok exactly when the inverted latitude lies in [-90, 90], with the longitude whose mercator x is the input; otherwise the latitude error |
| MapCoords.MercatorRoundTrip | src/Map.ts:314-320 | where the two latitude formulas invert each other, a mercator coordinate in range survives the trip through LngLat and back |
| MapCoords.LngLatRoundTrip | src/Map.ts:314-320 | a valid coordinate pair whose projected y is in range survives the trip through mercator and back |
| PlotLayers.Rendered | src/PlotLayer.ts:122-127 | a multi-field layer draws a field exactly when it is on a map and its active key names a stored field, and then it draws that field |
| PlotLayers.AddsKeepActive | src/PlotLayer.ts:153-167 | once a key is active, adding fields never changes it |
| PlotLayers.FirstAddedIsActive | src/PlotLayer.ts:164-166 | starting from an empty layer, the active key after a run of adds is the first key added, and none when nothing was added |
| PlotLayers.AddedFields | src/PlotLayer.ts:162 | after a series of adds the stored keys are exactly the old keys and the added ones; the last field added under a key wins and untouched keys keep their fields |
| PlotLayers.AddKeepsActiveWhenFilled | src/PlotLayer.ts:153-167 | an add keeps the active key on a layer that already has one |
| PlotLayers.PlotLayer.constructor | src/PlotLayer.ts:12-16 | a new layer has type 'custom', the given id and field, and is on no map |
| PlotLayers.PlotLayer.OnAdd | src/PlotLayer.ts:54-57 | the layer records the map and hands it to its field |
| PlotLayers.PlotLayer.Render | src/PlotLayer.ts:63-65 | rendering always delegates to the one field |
| PlotLayers.MultiPlotLayer.constructor | src/PlotLayer.ts:92-99 | a new layer has no fields, no active key and no map |
| PlotLayers.MultiPlotLayer.OnAdd | src/PlotLayer.ts:105-116 | every stored field is added to the map, in key order, and a repaint is requested |
| PlotLayers.MultiPlotLayer.Render | src/PlotLayer.ts:122-127 | the drawn field is the one the Rendered function names, and nothing else changes |
| PlotLayers.MultiPlotLayer.SetActiveKey | src/PlotLayer.ts:133-138 | the key becomes active, whether or not a field has it, and a repaint is requested exactly when the layer is on a map |
| PlotLayers.MultiPlotLayer.GetKeys | src/PlotLayer.ts:144-146 | the keys list is distinct and holds exactly the stored keys |
| PlotLayers.MultiPlotLayer.AddField | src/PlotLayer.ts:153-167 | the fields become the old ones with this key set to this field; a new key is appended to the key order; the field is added to the map exactly when the layer is on one; the active key is set only when there was none |
| AutumnFieldLayers.HourKey | src/AutumnFieldLayer.ts:75-76 | the key of a time is the hour its wall-clock time falls in, in the DateTime's own zone |
| AutumnFieldLayers.FromHourKey | src/AutumnFieldLayer.ts:85 | the time parsed from a key starts that key's hour in UTC, and formats back to the same key |
| AutumnFieldLayers.HourKeyMonotone | src/AutumnFieldLayer.ts:84-88 | ordering keys by time is ordering them as hours: earlier wall-clock times never get later keys |
| AutumnFieldLayers.KeyRoundTrip | src/AutumnFieldLayer.ts:84-88 | parsing then formatting a key gives the key back; formatting then parsing a time gives the start of its wall-clock hour read as UTC, which is the start of its own hour exactly for a UTC time |
| AutumnFieldLayers.KeyShiftedByZone | src/AutumnFieldLayer.ts:85 | a New York time at 12:00 (17:00Z) parses back from its key as 12:00Z, five hours early |
| AutumnFieldLayers.Insert | src/AutumnFieldLayer.ts:86 | inserting a new key into an increasing list keeps it increasing and adds just that key |
| AutumnFieldLayers.SortKeys | src/AutumnFieldLayer.ts:86 | distinct keys are sorted into an increasing list with the same elements |
| AutumnFieldLayers.AutumnTimeFieldLayer.constructor | src/AutumnFieldLayer.ts:46-53 | a new layer has no fields, no active key and no map |
| AutumnFieldLayers.AutumnTimeFieldLayer.OnAdd | src/AutumnFieldLayer.ts:55-66 | every stored field is added to the map in ascending key order, and a repaint is requested exactly when a key is active |
| AutumnFieldLayers.AutumnTimeFieldLayer.Render | src/AutumnFieldLayer.ts:68-73 | a field is drawn exactly when the layer is on a map and the active key names a stored field |
| AutumnFieldLayers.AutumnTimeFieldLayer.SetDatetime | src/AutumnFieldLayer.ts:75-111 | the time's hour key becomes active, and a repaint is requested exactly when the layer is on a map and the key changed |
| AutumnFieldLayers.AutumnTimeFieldLayer.GetDatetimes | src/AutumnFieldLayer.ts:84-88 | the times are strictly ascending, each starts the hour of a stored key, and every stored key has its time in the list |
| AutumnFieldLayers.AutumnTimeFieldLayer.AddField | src/AutumnFieldLayer.ts:90-105 | the time's hour key is set to the field; the field is added to the map exactly when the layer is on one; the active key is set only when there was none |
| ShaderManagers.ShaderKey | src/ShaderManager.ts:20 | the cache key is 'default' without shader data and the variant name with it |
| ShaderManagers.Build | src/ShaderManager.ts:27-43 | on a miss the program gets the default prelude without shader data, or the variant's prelude and define joined by a newline with it; the vertex and fragment sources and the defines pass through unchanged |
| ShaderManagers.GetProgram | src/ShaderManager.ts:19-47 | a cached key returns the stored program and leaves the cache alone; a new key builds the program and stores it under that key only |
| ShaderManagers.SecondRequestHits | src/ShaderManager.ts:22-44 | asking twice for the same key returns the same program, and the second request changes nothing |
| ShaderManagers.CacheOnlyGrows | src/ShaderManager.ts:22-46 | a request never drops or replaces a cached program |
| ShaderManagers.ShaderProgramManager.constructor | src/ShaderManager.ts:16 | a new manager has an empty program cache |
| ShaderManagers.ShaderProgramManager.GetShaderProgram | src/ShaderManager.ts:19-47 | the returned program and new cache are those GetProgram gives for the old cache |
| ShaderManagers.IncludesAt | src/ShaderManager.ts:51 | the substring test holds exactly when the text occurs at some position |
| ShaderManagers.GetShaderUniforms | src/ShaderManager.ts:49-71 | the autumn renderer gets just the main matrix; the maplibre renderer gets the five projection uniforms exactly when its define includes "GLOBE", else just the main matrix; the first entry is always u_projection_matrix |
| WGLFramebuffers.Reversed | src/wgl/WGLFramebuffer.ts:154 | the reversed list has the same length and element k is element n-1-k of the original |
| WGLFramebuffers.ReverseInPlace | src/wgl/WGLFramebuffer.ts:154 | the array's new contents are its old contents reversed |
| WGLFramebuffers.Passes | src/wgl/WGLFramebuffer.ts:144-157 | a run of n passes records exactly n passes |
| WGLFramebuffers.AuxAfter | src/wgl/WGLFramebuffer.ts:152-156 | the auxiliary list stays a list of two framebuffers |
| WGLFramebuffers.FlipFlopBuffers | src/wgl/WGLFramebuffer.ts:138-161 | the passes, the returned framebuffer and the final order of the auxiliary array are the ones the pass schedule gives for the old array |
| WGLFramebuffers.AuxAlternates | src/wgl/WGLFramebuffer.ts:152-156 | after at least one pass the auxiliary array holds the previous pass's target and then the last pass's target |
| WGLFramebuffers.PassAt | src/wgl/WGLFramebuffer.ts:144-157 | pass k of any longer run clears and renders into target k, reading source k, with pass index k |
| WGLFramebuffers.PassesChain | src/wgl/WGLFramebuffer.ts:138-161 | the first pass reads the source into the first auxiliary buffer, every later pass reads what the pass before wrote, each destination is cleared before it is rendered to, and the result is the last pass's target, or the source when there are no passes |
| WGLFramebuffers.NoPassReadsItsTarget | src/wgl/WGLFramebuffer.ts:141-157 | with two distinct auxiliary buffers and a separate source, no pass reads the framebuffer it writes |
| WGLPrograms.CommentFrom | src/wgl/WGLProgram.ts:107 | the search finds the first "//" at or after the start position, or reports that there is none |
| WGLPrograms.RemoveComments | src/wgl/WGLProgram.ts:106-112 | the line is cut just before its first "//": the result is a prefix with no "//", followed by one unless it is the whole line, and a line without "//" is unchanged |
| WGLPrograms.Lines | src/wgl/WGLProgram.ts:114 | splitting at newlines gives at least one line, none holding a newline |
| WGLPrograms.UnlinesLines | src/wgl/WGLProgram.ts:114-115 | splitting at newlines and joining with newlines gives the text back |
| WGLPrograms.LinesPrefix | src/wgl/WGLProgram.ts:114 | text without a newline put in front of another text becomes part of its first line |
| WGLPrograms.LinesUnlines | src/wgl/WGLProgram.ts:114-115 | joining newline-free lines and splitting again gives the lines back |
| WGLPrograms.StripLines | src/wgl/WGLProgram.ts:114 | every line is mapped to itself with its comment removed |
| WGLPrograms.StripCommentsByLine | src/wgl/WGLProgram.ts:114-115 | the stripped source keeps the number of lines, and its line k is line k of the source cut at its first "//" |
| WGLPrograms.StripNothing | src/wgl/WGLProgram.ts:106-115 | a source without "//" is left as it is |
| WGLPrograms.NoCommentLines | src/wgl/WGLProgram.ts:114 | a text without "//" has none in any of its lines |
| WGLPrograms.FirstLineAtStart | src/wgl/WGLProgram.ts:114 | the first line of a text is a prefix of it |
| WGLPrograms.LastWord | src/wgl/WGLProgram.ts:124-131 | the uniform type kept is the suffix after the last space, which holds no space |
| WGLPrograms.DeclareAll | src/wgl/WGLProgram.ts:117-144 | the loop over the matches of a declaration pattern builds the declared-names table |
| WGLPrograms.DeclaredLookup | src/wgl/WGLProgram.ts:117-144 | a name is in the table iff it was before or some match declares it; the last declaration of a name wins and undeclared names keep their types |
| WGLPrograms.Known | src/wgl/WGLProgram.ts:179-182 | the kept entries are exactly those whose names the program declares, in order |
| WGLPrograms.Names | src/wgl/WGLProgram.ts:178 | the names of the entries, in order |
| WGLPrograms.BindIgnoresUnknown | src/wgl/WGLProgram.ts:179-182 | buffers for attributes the program lacks change nothing |
| WGLPrograms.BindAgreeing | src/wgl/WGLProgram.ts:184-196 | once the draw state is set, known buffers bind without a throw iff they all have that vertex count and draw mode; the state is never changed, and on success every buffer is bound in order |
| WGLPrograms.FirstBufferFixes | src/wgl/WGLProgram.ts:157-198 | from the reset state the first known buffer fixes the vertex count and draw mode, the call succeeds iff every known buffer agrees with it, and with no known buffer the state stays unset |
| WGLPrograms.AgreeingMismatch | src/wgl/WGLProgram.ts:187-194 | once the draw state is set, a throw names the first known buffer that disagrees with it, with the expected and actual draw mode or vertex count |
| WGLPrograms.FirstMismatchThrown | src/wgl/WGLProgram.ts:184-194 | a throw from the reset state names the first known buffer that disagrees with the first one: "Unexpected draw mode … (expected m, got m')." when the draw modes differ, else the vertex-count message with both counts |
| WGLPrograms.UniformFnFor | src/wgl/WGLProgram.ts:213-236 | a setter exists only for int, float, vec2, vec3, vec4 and mat4; uniform1i exactly for an int with a number, uniform1f exactly for a float with a number, and uniform1fv exactly for a float with an array, uniform2fv, uniform3fv, uniform4fv and uniformMatrix4fv exactly for an array on vec2, vec3, vec4 and mat4, and no setter for any other pair (an int with an array, a vector with a number, an unknown type) |
| WGLPrograms.SetUniforms | src/wgl/WGLProgram.ts:204-238 | every setter call made is for a declared uniform, with the setter its type and value call for |
| WGLPrograms.ValueText | src/wgl/WGLProgram.ts:235 | `String(value)` of the thrown message: a number's text, and an empty array prints as nothing |
| WGLPrograms.SetUniformsSucceeds | src/wgl/WGLProgram.ts:204-238 | setting uniforms succeeds iff every declared uniform given has a supported type and value, and then there is one call per declared uniform, in order |
| WGLPrograms.FirstUnsupportedThrown | src/wgl/WGLProgram.ts:213-236 | a throw is "Could not figure out uniform function for type 't' and value 'v'" for the first declared uniform whose type and value have no setter |
| WGLPrograms.NamesOf | src/wgl/WGLProgram.ts:205 | the uniform names of the calls, in order |
| WGLPrograms.BindTextures | src/wgl/WGLProgram.ts:244-254 | each texture bound is a declared sampler on the unit of its entry index, every declared sampler is bound, and skipped samplers still use up their index |
| WGLPrograms.Program.constructor | src/wgl/WGLProgram.ts:96-145 | the attribute table comes from the vertex shader matches, the uniform table from the vertex and then fragment shader matches with the type's last word, no draw state is set, and the engine's number-to-string conversion is kept for the messages |
| WGLPrograms.Program.BindAttributes | src/wgl/WGLProgram.ts:177-198 | the new draw state, the bound buffers and the throw, with its expected and actual values, are those the binding function gives for the old state |
| WGLPrograms.Program.Use | src/wgl/WGLProgram.ts:154-171 | the draw state is reset and then set by the buffers; uniforms are set only if binding did not throw, and textures only if neither threw; the throw is binding's message, else the uniform message, both in full |
| WGLPrograms.Program.Draw | src/wgl/WGLProgram.ts:259-265 | drawing throws iff no draw mode or vertex count is set, and otherwise draws that many vertices from 0 in that mode |
| WGLPrograms.DrawNeedsKnownBuffer | src/wgl/WGLProgram.ts:177-198 | after use, the draw state is set iff at least one buffer for a declared attribute was given (checked by draw at line 260) |
| RawFields.GetArrayDType | src/RawField.ts:12-20 | the type name is float32 exactly for a Float32Array, uint8 exactly for a Uint8Array and float16 exactly for a Float16Array |
| RawFields.Trunc | src/RawField.ts:93 | a number stored into an integer array is rounded toward zero |
| RawFields.ToUint8 | src/RawField.ts:93 | a number stored into a Uint8Array lands in [0, 256), NaN becomes 0, and a number already in range keeps its integer part |
| RawFields.Stored | src/RawField.ts:91-93 | the aggregated array has the first field's type: a Uint8Array converts each value, the float arrays keep it |
| RawFields.SizeCheck | src/RawField.ts:38-40 | the constructor throws exactly when the data do not have one value per grid point, with the size message |
| RawFields.NewRawScalarField | src/RawField.ts:34-45 | the field is built exactly when the data fill the grid, keeping the grid, data and array type; otherwise the size message is thrown |
| RawFields.DataOf | src/RawField.ts:92 | the data arrays of the fields, in order |
| RawFields.Column | src/RawField.ts:92-93 | the k-th value of every field, in order |
| RawFields.AggregateFields | src/RawField.ts:84-96 | the values are the function applied to each column of the zipped data, as long as the shortest field, stored in the first field's array type on the first field's grid; the size error is thrown exactly when that length does not fill the grid |
| RawFields.NewRawVectorField | src/RawField.ts:128-134 | the vector field is built exactly when both components fill the grid, the u size error taking precedence; the components share grid and type, and the reference frame defaults to the grid |
| RawFields.WrapBearing | src/RawField.ts:192-193 | the bearing is shifted by at most one turn, unchanged in [0, 360], brought into [0, 360] from [-360, 720], and left outside it beyond that |
| RawFields.SampleField | src/RawField.ts:184-196 | NaN in either component gives NaN for both; otherwise the magnitude is the hypotenuse and the bearing is the wrapped direction the wind blows from, rotated by the grid unless the field is Earth-relative |
| RawFields.BearingInRange | src/RawField.ts:188-195 | with the inverse tangent and the grid rotation within a half turn, the sampled bearing always lies in [0, 360] |
| RawFields.StormValue | src/RawField.ts:225-231 | a storm-relative profile contributes its storm motion, any other profile zero |
| RawFields.PutAt | src/RawField.ts:226-231 | a typed-array write changes just the index written and is ignored outside the array |
| RawFields.NaNs | src/RawField.ts:220-221 | the new arrays are all NaN and the size of the grid |
| RawFields.StormGrid | src/RawField.ts:218-233 | the component array keeps the grid size |
| RawFields.LastProfileAt | src/RawField.ts:223-233 | finds the last profile written at a grid index, or reports that none is |
| RawFields.StormGridAt | src/RawField.ts:218-233 | every grid point holds the storm motion of the last profile at it, and NaN where no profile is |
| RawFields.WriteProfile | src/RawField.ts:224-232 | one profile writes its storm motion into both arrays at its grid index and changes nothing else |
| RawFields.GetStormMotionGrid | src/RawField.ts:218-236 | the result is the grid-relative Float16 vector field over the two storm-motion arrays, and building it never throws |
| RawFields.CoordAt | src/RawField.ts:246-247 | a coordinate inside the array is read as is, and an index past it reads NaN |
| RawFields.GetProfileCoords | src/RawField.ts:239-251 | one latitude and one longitude per profile, in profile order, read at the profile's grid index |
| RawFields.ProfileCoordsMatchStormGrid | src/RawField.ts:224-245 | a profile's coordinates are those of the grid point its storm motion is written to |
| RawFields.GetScalar | src/RawField.ts:280-286 | succeeds exactly when every value is a number or null, returning them in order; otherwise the scalar message is thrown |
| RawFields.GetStrings | src/RawField.ts:292-298 | succeeds exactly when every value is a string or null, returning them in order; otherwise the string message is thrown |
| RawFields.GetVectorData | src/RawField.ts:305-309 | succeeds exactly when every value is a pair, returning the pairs in order; otherwise the vector message is thrown |
| RawFields.ObsComponent | src/RawField.ts:311-328 | one value per grid point: the component of the observation at that index, or NaN |
| RawFields.ObsPrefix | src/RawField.ts:317-328 | the arrays keep the grid size while the observations are written |
| RawFields.ObsPrefixStep | src/RawField.ts:320-328 | writing one observation writes its components at its own index, or skips it when a value is null |
| RawFields.WriteObs | src/RawField.ts:320-328 | the loop body writes both components at the observation's index, or leaves both arrays alone for a null value |
| RawFields.ObsComponents | src/RawField.ts:317-328 | the NaN-filled arrays after the loop are the component arrays of all the observations |
| RawFields.GetVector | src/RawField.ts:304-331 | throws the vector message exactly when some value is not a pair; otherwise the result is the Earth-relative Float16 vector field over the two component arrays |
| RawDataFields.CacheStep | src/RawDataField.ts:13-19 | one getValue call: an empty cache computes the value from the arguments and stores it, a throw propagates and leaves the cache empty, and a filled cache returns what it holds and keeps it |
| RawDataFields.CacheKeepsFirstValue | src/RawDataField.ts:13-19 | after a first call that returns, the cache holds its value and every later call returns it whatever its arguments; after one that throws the cache is still empty |
| RawDataFields.CacheRunKeeps | src/RawDataField.ts:14-18 | a filled cache is never changed by any run of calls |
| RawDataFields.Cache.GetValue | src/RawDataField.ts:13-19 | the returned value and the new cached value are those of one cache step on the old cached value |
| RawDataFields.Uint16At | src/RawDataField.ts:73-74 | two bytes read as an unsigned 16-bit value |
| RawDataFields.Uint16Bytes | src/RawDataField.ts:73-74 | a 16-bit value written as two bytes reads back as itself |
| RawDataFields.DimsViewError | src/RawDataField.ts:73 | the two-value Uint16Array view throws exactly when its offset is odd or it runs past the buffer (and line 113) |
| RawDataFields.PlateCarreeFromBuffer | src/RawDataField.ts:72-83 | the header reads exactly when the offset is a multiple of 4 and 20 bytes fit; it gives the dimensions from the two 16-bit values and reports 20 bytes read; an odd offset throws the 16-bit alignment error |
| RawDataFields.LambertFromBuffer | src/RawDataField.ts:112-120 | the header reads exactly when the offset is even and 4 bytes fit, giving the Lambert grid of the two 16-bit values and 4 bytes read |
| RawDataFields.PlateCarreeRoundTrip | src/RawDataField.ts:72-83 | a plate carree header written at an aligned offset is read back as the same grid with 20 bytes read |
| RawDataFields.LambertRoundTrip | src/RawDataField.ts:112-120 | a Lambert header written at an even offset is read back as the same grid with 4 bytes read |
| RawDataFields.Spaced | src/RawDataField.ts:50-62 | n values from the lower to the upper corner in equal steps, ending exactly at both corners; a single value divides by zero and is NaN |
| RawDataFields.GridCoords | src/RawDataField.ts:49-70 | one longitude per column and one latitude per row: evenly spaced between the corners for a plate carree grid, zeros for a Lambert grid (used again at lines 100-110) |
| RawDataFields.PadSize | src/RawDataField.ts:137-138 | the padded size is the least power of two at least the size, and 0 for an empty dimension |
| RawDataFields.PadSizeLeast | src/RawDataField.ts:137-138 | no power of two that holds the size is smaller than the padded size |
| RawDataFields.PadSizeOfPow2 | src/RawDataField.ts:137-138 | a power of two is its own padded size |
| RawDataFields.JsSlice | src/RawDataField.ts:143-146 | a slice inside the array is the subsequence, and one running past the end is cut at the end |
| RawDataFields.Zeros | src/RawDataField.ts:140 | the new padded array is all zeros and has the padded size |
| RawDataFields.FlattenAt | src/RawDataField.ts:140-146 | row r, column c of rows of one width lies at position r times the width plus c |
| RawDataFields.PadRow | src/RawDataField.ts:142-146 | a padded row holds the padding value of each of its columns |
| RawDataFields.PadRows | src/RawDataField.ts:142-146 | the padded rows, all of the padded width |
| RawDataFields.Padded | src/RawDataField.ts:137-148 | the padding as intended has the padded width and height and one value per padded cell |
| RawDataFields.PaddedAt | src/RawDataField.ts:142-146 | each padded cell holds the padding value of its row and column |
| RawDataFields.PaddedKeepsData | src/RawDataField.ts:142-146 | the padding as intended keeps every data value in place, repeats each row's last value in the first padding column and the last row in the first padding row, and zero-fills the rest |
| RawDataFields.SetFrom | src/RawDataField.ts:143-146 | copying into the array from an offset overwrites just those positions |
| RawDataFields.TypedSet | src/RawDataField.ts:143-146 | a typed-array copy succeeds exactly when it fits, and a copy past the end is a RangeError |
| RawDataFields.PadAsWritten | src/RawDataField.ts:136-149 | the padding as written has the padded width and height when it does not throw |
| RawDataFields.PadData | src/RawDataField.ts:136-149 | the in-place row loop and last-row copy on the zeroed array give the padding as written, with its RangeError |
| RawDataFields.RowPass | src/RawDataField.ts:143-144 | one row pass writes the data row and then its last value at column ni, or fails with the copy's RangeError |
| RawDataFields.LastRowPass | src/RawDataField.ts:146 | the copy of the last data row into row nj, or its RangeError |
| RawDataFields.PadInto | src/RawDataField.ts:140-148 | the row loop and last-row copy into an array of the given width and height give the padding as written for those sizes |
| RawDataFields.PaddingThrowsOnPowerOfTwoRows | src/RawDataField.ts:146 | as written, the padding throws for every non-empty grid whose number of rows is a power of two |
| RawDataFields.FullHeightThrows | src/RawDataField.ts:146 | with a padded height of exactly nj rows, the last-row copy throws |
| RawDataFields.LastRowDoesNotFit | src/RawDataField.ts:146 | the copy of the last row into row nj does not fit an array of nj rows |
| RawDataFields.PaddingThrowsFor3By4 | src/RawDataField.ts:146 | a grid of 3 columns and 4 rows throws |
| RawDataFields.RawDataField.constructor | src/RawDataField.ts:132-150 | the field keeps its grid and data and starts with an empty padding cache |
| RawDataFields.RawDataField.GetPaddedData | src/RawDataField.ts:152-154 | the result is the padding as written, with its RangeError; a padding that returns is stored in the cache, and a RangeError leaves the cache empty |
| RawDataFields.DataOf | src/RawDataField.ts:163 | the data arrays of the fields, in order |
| RawDataFields.Column | src/RawDataField.ts:163-164 | the k-th value of every field, in order |
| RawDataFields.AggregateFields | src/RawDataField.ts:156-167 | a new field on the first field's grid, as long as the shortest field, whose value k is the function applied to the k-th values of all fields |
| TextCollections.ZigZagRoundTrip | src/TextCollection.ts:56-59 | the signed varints of the left and top fields decode the zig-zag encoding exactly, both ways round |
| TextCollections.ReadFontStack | src/TextCollection.ts:67-75 | a fontstack yields at most one glyph per field: its glyph messages, in order |
| TextCollections.LastWidthIsPadded | src/TextCollection.ts:49-51 | a glyph's width is its last width field plus twice the padding of 3 |
| TextCollections.LastHeightIsPadded | src/TextCollection.ts:52-54 | a glyph's height is its last height field plus twice the padding of 3 |
| TextCollections.ParseFontPBFConcat | src/TextCollection.ts:77-86 | parsing two runs of fontstack messages one after the other gives the concatenation of their glyph lists (called at line 155) |
| TextCollections.WithBitmap | src/TextCollection.ts:99 | the packed glyphs are exactly those with bitmap data, in order |
| TextCollections.Boxes | src/TextCollection.ts:103-108 | one box per glyph, the glyph's padded width and height |
| TextCollections.Store | src/TextCollection.ts:133 | a store into the atlas array never changes its size |
| TextCollections.ColumnBlit | src/TextCollection.ts:130-134 | the inner copy loop keeps the atlas size |
| TextCollections.GlyphBlit | src/TextCollection.ts:129-135 | the outer copy loop keeps the atlas size |
| TextCollections.CellInjective | src/TextCollection.ts:132 | two atlas pixels in different rows or columns have different indices |
| TextCollections.ColumnBlitAt | src/TextCollection.ts:130-134 | column i of a glyph lands in atlas column x+i, rows y onward, and every other pixel keeps its value |
| TextCollections.GlyphBlitAt | src/TextCollection.ts:129-135 | after the first m columns each atlas pixel in those columns of the glyph's rectangle holds the matching bitmap byte, and every other pixel keeps its value |
| TextCollections.GlyphPixelPlaced | src/TextCollection.ts:131-133 | pixel i, j of a glyph's bitmap ends up at atlas pixel (i + x) + width (j + y) |
| TextCollections.PlaceGlyph | src/TextCollection.ts:122-135 | one glyph's step keeps the atlas size |
| TextCollections.PackAll | src/TextCollection.ts:116-136 | the walk over the packed glyphs keeps the atlas size |
| TextCollections.Finish | src/TextCollection.ts:138-142 | baseline and top come from the 'M' glyph when it is packed, and are the tallest height and 0 otherwise; the atlas, its size and the glyph table pass through |
| TextCollections.Zeros | src/TextCollection.ts:112 | the new atlas is all zeros |
| TextCollections.PackAllErrSticky | src/TextCollection.ts:119-120 | once a glyph is unplaced the walk has thrown, with that error |
| TextCollections.PackAllErrIff | src/TextCollection.ts:116-136 | the walk throws exactly when some box was left unplaced, with the packing message |
| TextCollections.AtlasErrors | src/TextCollection.ts:98-143 | the atlas throws exactly when the packer left a glyph unplaced; otherwise it has the packed width and height and one byte per pixel |
| TextCollections.PackAllIds | src/TextCollection.ts:122-125 | the glyph table holds exactly the ids of the glyphs packed, besides those it started with |
| TextCollections.PackAllMaxHeight | src/TextCollection.ts:127 | the running maximum is at least every packed glyph's height, and it is the start value or one of those heights |
| TextCollections.CreateAtlas | src/TextCollection.ts:98-143 | the atlas the method builds in place is the atlas function's result, error included |
| TextCollections.PackGlyphs | src/TextCollection.ts:116-136 | the loop over the packed glyphs on the atlas array gives the walk's result, and on success the array holds its atlas |
| TextCollections.PackGlyph | src/TextCollection.ts:122-135 | one step on the array, the glyph table and the running maximum is one glyph's placement |
| TextCollections.BlitGlyph | src/TextCollection.ts:129-135 | the two nested loops copy the glyph's bitmap as the blit function says |
| TextCollections.BlitColumn | src/TextCollection.ts:130-134 | the inner loop copies one column as the column blit says |
| TextCollections.FirstUnit | src/TextCollection.ts:306 | charCodeAt(0) of a one-code-point string is a single UTF-16 code unit |
| TextCollections.Units | src/TextCollection.ts:241-242 | a code point is one or two code units, the first being FirstUnit |
| TextCollections.Utf16 | src/TextCollection.ts:224-241 | a string has at least as many code units as code points and at most twice as many |
| TextCollections.TextCodes | src/TextCollection.ts:306 | one code per code point of the label, its first code unit |
| TextCollections.Distinct | src/TextCollection.ts:306 | the filter keeps each code once and keeps every code |
| TextCollections.SeqMin | src/TextCollection.ts:307 | the least code, one of the codes |
| TextCollections.SeqMax | src/TextCollection.ts:308 | the greatest code, one of the codes |
| TextCollections.BlockUrls | src/TextCollection.ts:314-316 | one URL per block, for consecutive 256-code blocks from the first |
| TextCollections.BlockUrlsSnoc | src/TextCollection.ts:314-316 | one more loop pass appends the next block's URL |
| TextCollections.LastBlock | src/TextCollection.ts:311 | the block of the highest code is never before that of the lowest |
| TextCollections.FontstackUrls | src/TextCollection.ts:305-316 | the loop builds the URL list for the characters of all the labels |
| TextCollections.CodeCollected | src/TextCollection.ts:306 | every character of every label has its code among the collected codes |
| TextCollections.UrlsCoverCharacters | src/TextCollection.ts:305-316 | the block holding each label character's code is among the URLs requested |
| TextCollections.UrlsAreBlocks | src/TextCollection.ts:310-316 | every URL is that of a block between the lowest and highest code's blocks, in increasing order |
| TextCollections.AtlasTexture | src/TextCollection.ts:212-215 | the texture is the atlas, or a 1x1 image of zeros when the atlas is empty, so it always has a size of at least 1 |
| TextCollections.Splice | src/TextCollection.ts:252-271 | a run of stores never changes an array's size |
| TextCollections.AnchorBlock | src/TextCollection.ts:252-257 | six anchors of three values each |
| TextCollections.OffsetBlock | src/TextCollection.ts:259-264 | six offsets of two values each |
| TextCollections.TexBlock | src/TextCollection.ts:266-271 | six texture coordinates of two values each |
| TextCollections.Shifted | src/TextCollection.ts:276-296 | an alignment loop never changes the buffer's size |
| TextCollections.LabelAnchor | src/TextCollection.ts:234-235 | a label has an anchor exactly when its latitude is in [-90, 90]; otherwise the LngLat error is thrown |
| TextCollections.EmptyBuffers | src/TextCollection.ts:224-230 | three zeroed buffers of six vertices per code unit of all labels, with cursors at 0 |
| TextCollections.LabelsErrSticky | src/TextCollection.ts:232-297 | once a label throws, the whole forEach has thrown with that error |
| TextCollections.LayoutLabels | src/TextCollection.ts:224-301 | the vertex buffers the method fills are the layout function's result |
| TextCollections.FillLabels | src/TextCollection.ts:232-297 | the forEach over the allocated arrays gives the layout over all labels |
| TextCollections.LayoutText | src/TextCollection.ts:233-296 | one label on the arrays gives that label's layout, error included |
| TextCollections.WriteGlyph | src/TextCollection.ts:242-273 | one code unit on the arrays is a glyph step: only the pen moves by 7 for a missing glyph, else the three blocks are written |
| TextCollections.WriteBlock | src/TextCollection.ts:252-271 | consecutive stores from a cursor are a splice of the block into the array |
| TextCollections.AlignText | src/TextCollection.ts:276-296 | the alignment loops on the array give the aligned offsets |
| TextCollections.AlignHorizontally | src/TextCollection.ts:276-285 | the horizontal loops give the horizontally aligned offsets |
| TextCollections.AlignVertically | src/TextCollection.ts:287-296 | the vertical loops give the vertically aligned offsets |
| TextCollections.ShiftEvery | src/TextCollection.ts:277-279 | the stride-2 loop subtracts the shift from every second entry of the span |
| TextCollections.Drawn | src/TextCollection.ts:243-248 | at most one quad per code unit |
| TextCollections.DrawnUpTo | src/TextCollection.ts:232-297 | at most one quad per code unit of the labels so far |
| TextCollections.GlyphsProgress | src/TextCollection.ts:241-274 | after n code units the pen has moved by their total advance, each cursor by one block per glyph found, and no buffer has changed size |
| TextCollections.AlignShifts | src/TextCollection.ts:276-296 | within a label's span entries at even distance lose the horizontal shift and those at odd distance the vertical one; everything else is unchanged |
| TextCollections.LabelShift | src/TextCollection.ts:276-285 | centre alignment moves a label left by half its total advance and right alignment by all of it, a missing glyph counting 7 |
| TextCollections.LabelsProgress | src/TextCollection.ts:232-297 | label by label the cursors advance by one block per glyph drawn and the buffers keep their size |
| TextCollections.TextProgress | src/TextCollection.ts:233-296 | one label advances the cursors by one block per glyph drawn and keeps the buffer sizes |
| TextCollections.LayoutFits | src/TextCollection.ts:224-297 | the allocation of six vertices per code unit is enough: every cursor ends within its buffer, so no store is dropped |
| StructuredGrids.NewStructuredGrid | src/grids/StructuredGrid.ts:26-31 | the grid keeps its size, and a thinning factor that is not given is 1 |
| StructuredGrids.XyThinFromMaxZoom | src/grids/StructuredGrid.ts:36-42 | the two thinning factors are equal and at least 1, and a map that zooms deeper than the density tiers needs no thinning |
| StructuredGrids.XyThinCoversFactor | src/grids/StructuredGrid.ts:36-42 | where the map cannot reach full density, the thinning times the factor the map can still resolve is the whole thinning factor |
| StructuredGrids.Uint8 | src/grids/StructuredGrid.ts:46-51 | a value stored into the Uint8Array is kept modulo 256, and one already in range is kept as it is |
| StructuredGrids.GetMinVisibleZoom | src/grids/StructuredGrid.ts:45-56 | one zoom per grid point, and every grid point ends with its own minimum zoom, although the loops also write past each row |
| StructuredGrids.ZoomRow | src/grids/StructuredGrid.ts:49-52 | one pass of the outer loop leaves earlier rows alone and gives every point of its row its own zoom |
| StructuredGrids.PointZoomBounds | src/grids/StructuredGrid.ts:51 | each stored zoom lies between 1 and one more than the zoom exponent, and is 1 exactly on points both of whose indices the full stride divides |
| StructuredGrids.ThinDataArray | src/grids/StructuredGrid.ts:59-73 | the thinned array has one value per thinned point, read from the original at column i times thin_x and row j times thin_y, and a read past the end gives the missing value |
| StructuredGrids.ThinnedStep | src/grids/StructuredGrid.ts:63-70 | a finished column extends the thinned columns by one |
| StructuredGrids.ThinColumn | src/grids/StructuredGrid.ts:64-69 | one pass of the outer loop thins column i |
| StructuredGrids.ColumnStart | src/grids/StructuredGrid.ts:64 | before the inner loop no row of the column is written |
| StructuredGrids.ColumnStep | src/grids/StructuredGrid.ts:65-68 | storing row j of column i touches no other point |
| StructuredGrids.SimplifiedDim | src/grids/StructuredGrid.ts:78-79 | the simplified dimension is a twentieth of the size rounded down, but never below 20 |
| StructuredGrids.Distances | src/grids/StructuredGrid.ts:98-99 | the distance of each coordinate from the point |
| StructuredGrids.SampleNearestGridPoint | src/grids/StructuredGrid.ts:83-105 | NaN exactly when the projected point lies more than half a step outside either axis; otherwise the nearest column and row, the sample at their grid index (an index past the data reads undefined) and the inverse-projected position |
| UnstructuredGrids.NewUnstructuredGrid | src/grids/UnstructuredGrid.ts:18-23 | the grid keeps its points and zoom array; its columns are at most 4096 and its dimensions always hold every point, exactly when there are fewer than 4096 |
| UnstructuredGrids.GetMinVisibleZoom | src/grids/UnstructuredGrid.ts:84-88 | the explicit zoom array when one was given, otherwise what the zoom cache holds |
| UnstructuredGrids.KeptCoords | src/grids/UnstructuredGrid.ts:93 | filtering never adds points |
| UnstructuredGrids.KeptZooms | src/grids/UnstructuredGrid.ts:93 | every kept zoom is within the map's maximum zoom |
| UnstructuredGrids.GetThinnedGrid | src/grids/UnstructuredGrid.ts:91-94 | the thinned grid always carries an explicit zoom array |
| UnstructuredGrids.KeptAligned | src/grids/UnstructuredGrid.ts:93 | filtering points and zooms with the same test keeps them aligned |
| UnstructuredGrids.ThinnedGridAligned | src/grids/UnstructuredGrid.ts:91-94 | the thinned grid has one zoom per point, each within the map's maximum zoom |
| UnstructuredGrids.KeptIsSubseq | src/grids/UnstructuredGrid.ts:93 | the kept points occur in the original list, in order |
| UnstructuredGrids.Walk | src/grids/UnstructuredGrid.ts:103-109 | the cursor never passes the thinned list or the number of original points seen |
| UnstructuredGrids.Copied | src/grids/UnstructuredGrid.ts:101-109 | the output array keeps its size |
| UnstructuredGrids.Settled | src/grids/UnstructuredGrid.ts:107 | once the loop has broken or crashed, nothing changes any more |
| UnstructuredGrids.CursorCopy | src/grids/UnstructuredGrid.ts:98-111 | the loop crashes exactly when the walk reads past the thinned list, and otherwise fills the new array as the walk says |
| UnstructuredGrids.ThinDataArray | src/grids/UnstructuredGrid.ts:97-112 | thinning data is the cursor walk with a break at the thinned list's length into ni times nj zeroed slots |
| UnstructuredGrids.UnfilledSlotsKept | src/grids/UnstructuredGrid.ts:101-109 | the cursor stays within the thinned list, and slots past it keep their initial value |
| UnstructuredGrids.CursorMonotone | src/grids/UnstructuredGrid.ts:105 | the cursor never moves backwards |
| UnstructuredGrids.MatchedSlotHolds | src/grids/UnstructuredGrid.ts:104-105 | every copied point keeps the data value it was copied with |
| UnstructuredGrids.SubseqIsMatched | src/grids/UnstructuredGrid.ts:103-109 | a non-empty thinned list that occurs in order in the original is matched completely, and the walk stops with every slot filled |
| UnstructuredGrids.ThinnedGridFilled | src/grids/UnstructuredGrid.ts:91-112 | thinning and then copying loses nothing: every point kept by the thinned grid receives a data value |
| UnstructuredGrids.SquaredDistances | src/grids/UnstructuredGrid.ts:116 | the squared longitude/latitude distance of each point |
| UnstructuredGrids.SampleNearestGridPoint | src/grids/UnstructuredGrid.ts:114-118 | the first point of least squared distance, its position, and its data value, undefined past the data |
| LegacyGrids.Put | src/Grid.ts:155 | a typed-array store changes just its index and drops a write past the end |
| LegacyGrids.RowWrites | src/Grid.ts:153-156 | the writes of one lattice row keep the array size |
| LegacyGrids.AllWrites | src/Grid.ts:151-157 | the writes of the lattice rows keep the array size of one entry per point |
| LegacyGrids.GetMinVisibleZoom | src/Grid.ts:150-160 | the strided loops leave exactly the writes of the thinned lattice on a zeroed array |
| LegacyGrids.RowWritesOther | src/Grid.ts:153-156 | entries no lattice point of a row writes keep their value |
| LegacyGrids.OffLatticeZero | src/Grid.ts:151-157 | entries off the thinned lattice are never written and stay 0 |
| LegacyGrids.UnitRow | src/Grid.ts:153-156 | without thinning, a row writes exactly its own entries, each with its own zoom |
| LegacyGrids.UnitRows | src/Grid.ts:152-157 | without thinning, every point of the rows written holds its own zoom |
| LegacyGrids.UnthinnedZoom | src/Grid.ts:150-160 | without thinning, every point's entry is its getMinZoom value, as in the newer structured grid |
| LegacyGrids.CeilDiv | src/Grid.ts:280-281 | the rounded-up quotient of a positive size is at least 1 |
| LegacyGrids.CeilDivCounts | src/Grid.ts:280-283 | ceil(n / t) counts the lattice points 0, t, 2t, … below n, and the last of them is n - 1 minus the removed remainder |
| LegacyGrids.ThinnedDimsCount | src/Grid.ts:274-290 | the thinned grid has one point per kept lattice column and row, and its thinning factors are the old ones times the new ones |
| LegacyGrids.ThinnedReadsInRange | src/Grid.ts:274-290 | thinning an unthinned grid onto these dimensions reads only existing data (read as at lines 162-176) |
| LegacyGrids.ThinnedPlateCarree | src/Grid.ts:274-290 | the thinned plate carree grid as written: the thinned dimensions and the same lower-left corner, with edges moved back by a spacing of (ur - ll) / n |
| LegacyGrids.ThinnedEastEdgeMisplaced | src/Grid.ts:277-286 | four columns from 0 to 3 thinned by two keep columns 0 and 2, but the thinned east edge is put at 2.25 instead of 2 |
| LegacyGrids.CorrectedThinnedPlateCarree | src/Grid.ts:274-290 | the thinned grid with the spacing (ur - ll) / (n - 1): same dimensions and lower-left corner |
| LegacyGrids.CorrectedEastEdge | src/Grid.ts:282-286 | the corrected east edge is the longitude of the last kept column |
| LegacyGrids.CorrectedEdgeCells | src/Grid.ts:280-286 | the corrected edge is the east edge moved back by the removed columns, which with the kept columns make up the whole width |
| LegacyGrids.IdentityTransform | src/Grid.ts:270-272 | plate carree and unstructured grids work in longitude and latitude: the transform is the identity both ways (and lines 613-615) |
| LegacyGrids.ThinnedUnstructured | src/Grid.ts:621-624 | the thinned grid's points occur in the original in order, and it has no explicit zoom array |
| LegacyGrids.ThinDataArray | src/Grid.ts:626-641 | as written: the cursor walk breaks once the cursor reaches ni times nj, not the number of thinned points, and crashes exactly when it reads past the thinned list |
| LegacyGrids.PrefixWalk | src/Grid.ts:632-637 | a walk over a prefix of the original list matches each of its points in turn |
| LegacyGrids.LegacyThinCrashes | src/Grid.ts:630-636 | a thinned grid holding the first 4096 of 4097 points has 8192 slots, so the walk reads past the thinned list |
| LegacyGrids.CorrectedThinFills | src/Grid.ts:632-637 | with the break at the thinned list's length the same input fills all 4096 slots |
| LegacyGrids.SameWalkBelowCap | src/Grid.ts:636 | two caps above the cursor give the same walk |
| Buffers.Fill | src/PlotLayer.worker.ts:17-53 | a newly allocated typed array: n copies of its fill value |
| Buffers.Put | src/PlotLayer.worker.ts:34-35 | a typed-array store never changes the array's size, and one past the end is dropped |
| Buffers.Written | src/PlotLayer.worker.ts:34-44 | a run of stores from a cursor never changes the array's size |
| Buffers.WrittenAt | src/PlotLayer.worker.ts:34-44 | after a run of stores each element is the value written to it, or its old value where none landed |
| Buffers.WrittenSlice | src/PlotLayer.worker.ts:34-44 | stores that fit replace exactly their slice of the array |
| Buffers.WrittenConcat | src/PlotLayer.worker.ts:43-44 | two runs where the second starts at the first one's end are one run |
| Buffers.WrittenWhole | src/PlotLayer.worker.ts:17-48 | writing a whole array from its start leaves exactly the written values |
| Buffers.WrittenFill | src/PlotLayer.worker.ts:52-53 | writing the fill value over a slice that still holds it changes nothing |
| Buffers.WrittenSnoc | src/PlotLayer.worker.ts:299 | one store more at the end of a run extends the run |
| Buffers.Emit | src/PlotLayer.worker.ts:299-323 | consecutive stores at an advancing cursor: the array is the run written from the cursor, and the cursor moves by the run's length |
| Buffers.NewFill | src/PlotLayer.worker.ts:17-53 | a fresh array of n copies of the fill value |
| Buffers.Emit2 | src/PlotLayer.worker.ts:34-44 | stores into two distinct arrays side by side, each a run from its own cursor |
| Buffers.RowMajorInGrid | src/PlotLayer.worker.ts:25 | every point of an ni by nj grid has an index below the grid size |
| PlotLayerWorker.Ratio | src/PlotLayer.worker.ts:40-67 | a grid index over the axis length minus one is NaN exactly on a one-point axis |
| PlotLayerWorker.RatioBounds | src/PlotLayer.worker.ts:40-41 | on an axis of two or more points the ratio lies in [0, 1] |
| PlotLayerWorker.CountAccessible | src/PlotLayer.worker.ts:13 | the points whose minimum zoom is at most the map's maximum zoom are at most all the points |
| PlotLayerWorker.CountBelow | src/PlotLayer.worker.ts:13 | of the first k zooms at most k are accessible |
| PlotLayerWorker.PackedZoomFloor | src/PlotLayer.worker.ts:37-40 | the zoom packed into the first texture coordinate is a number exactly when the row has two or more points, and its integer part is the zoom, because the column ratio is capped at 0.99999 |
| PlotLayerWorker.MakeBBElements | src/PlotLayer.worker.ts:8-49 | both buffers hold two floats per accessible point, and receive the Mercator position and the packed texture coordinates of each drawn point in row-major order, skipping points above the maximum zoom or without coordinates |
| PlotLayerWorker.BBRow | src/PlotLayer.worker.ts:24-45 | the inner loop writes one row's drawn points from the cursors it starts at |
| PlotLayerWorker.BBPointWrites | src/PlotLayer.worker.ts:25-44 | one pass of the inner loop writes point (ilat, ilon) unless it is skipped, and moves on to the next column |
| PlotLayerWorker.BBPointsCount | src/PlotLayer.worker.ts:13-43 | rows 0 .. r - 1 write two position floats per accessible point among them |
| PlotLayerWorker.BBTexCount | src/PlotLayer.worker.ts:13-44 | rows 0 .. r - 1 write two texture floats per accessible point among them |
| PlotLayerWorker.BBFillsExactly | src/PlotLayer.worker.ts:13-44 | with one coordinate and zoom per grid point the drawn points fill both buffers exactly, leaving no zero tail |
| PlotLayerWorker.DomainPiece | src/PlotLayer.worker.ts:69-91 | one point pair writes four vertex floats, two more on the first row and two more on the last |
| PlotLayerWorker.DomainVertices | src/PlotLayer.worker.ts:58-93 | the strips of the first c columns hold 4 (nj + 1) floats per column |
| PlotLayerWorker.DomainTexCoords | src/PlotLayer.worker.ts:58-93 | the texture strips have the same length as the vertex strips |
| PlotLayerWorker.DomainLengthFormula | src/PlotLayer.worker.ts:52-53 | the strips' length is the allocation 2 * 2 * columns * (nj + 1) |
| PlotLayerWorker.MakeDomainVerticesAndTexCoords | src/PlotLayer.worker.ts:51-96 | fails exactly when the grid has no columns or a coordinate the loop reads is missing; otherwise both zero-filled buffers receive the triangle strips of all column pairs, with the first and last point of each strip doubled |
| PlotLayerWorker.DomainStrips | src/PlotLayer.worker.ts:58-93 | the column loop succeeds exactly when every coordinate it reads exists, and then has written every strip |
| PlotLayerWorker.DomainStripStep | src/PlotLayer.worker.ts:58-92 | one column iteration either finds a missing coordinate or extends the written strips by one column |
| PlotLayerWorker.DomainColumnWrites | src/PlotLayer.worker.ts:59-92 | the row loop of one column writes that column's strip, or reports the missing coordinate |
| PlotLayerWorker.DomainPieceWrites | src/PlotLayer.worker.ts:69-91 | one inner iteration writes its vertex and texture floats at each buffer's cursor |
| PlotLayerWorker.DomainFillsExactly | src/PlotLayer.worker.ts:52-93 | the strips fill the zero-filled allocation exactly, the allocation being the strips' length that DomainLengthFormula equates with 2 * 2 * (ni - 1) * (nj + 1) |
| PlotLayerWorker.DomainColumnStart | src/PlotLayer.worker.ts:69-75 | every column strip starts with the first row's doubled point |
| PlotLayerWorker.DomainStripDegenerate | src/PlotLayer.worker.ts:69-91 | each strip begins and ends with a repeated vertex, the degenerate triangles that join strips |
| PlotLayerWorker.Projected | src/PlotLayer.worker.ts:286-289 | projecting a line's vertices to Mercator keeps their number |
| PlotLayerWorker.DrawableStep | src/PlotLayer.worker.ts:285 | lines are drawn in order: a drawable line after drawable lines keeps them drawable |
| PlotLayerWorker.LineVertices | src/PlotLayer.worker.ts:299-322 | one line writes 3 (4 n - 2) vertex floats: its first vertex, four per segment and its last vertex |
| PlotLayerWorker.LineExtrusion | src/PlotLayer.worker.ts:297-323 | one line writes 2 (4 n - 2) extrusion floats |
| PlotLayerWorker.LineOffsets | src/PlotLayer.worker.ts:325-341 | one line writes 2 (4 n - 2) offset floats |
| PlotLayerWorker.LineDataValues | src/PlotLayer.worker.ts:343-359 | one line writes 4 n - 2 data values, starting with its first value and ending with its last |
| PlotLayerWorker.AllVertices | src/PlotLayer.worker.ts:285-366 | drawable lines write three vertex floats per output vertex |
| PlotLayerWorker.AllExtrusion | src/PlotLayer.worker.ts:285-366 | drawable lines write two extrusion floats per output vertex |
| PlotLayerWorker.TotalVertices | src/PlotLayer.worker.ts:251 | drawable lines have at least one vertex each |
| PlotLayerWorker.OutVertices | src/PlotLayer.worker.ts:252 | drawable lines give at least two output vertices each |
| PlotLayerWorker.OutUpToTotal | src/PlotLayer.worker.ts:251-252 | the vertices the lines write sum to the allocation n_verts * 4 - lines.length * 2 |
| PlotLayerWorker.SegmentWrites | src/PlotLayer.worker.ts:302-320 | one iteration of the segment loop writes that segment's four vertices and four extrusion vectors |
| PlotLayerWorker.LineGeometryWrites | src/PlotLayer.worker.ts:294-323 | the vertex and extrusion writes of one line are exactly its vertex and extrusion layouts |
| PlotLayerWorker.ComponentWrites | src/PlotLayer.worker.ts:325-365 | the offsets, data and zoom of one line are written exactly when the output has that buffer and the line has that component |
| PlotLayerWorker.LineWrites | src/PlotLayer.worker.ts:285-366 | one iteration of the line loop writes everything a drawable line writes, each buffer at its own cursor |
| PlotLayerWorker.DrawLines | src/PlotLayer.worker.ts:285-366 | the line loop succeeds exactly when every line is drawable, and then has written all five buffers |
| PlotLayerWorker.LinesWrittenLayout | src/PlotLayer.worker.ts:252-270 | after the last line the five buffers are the polyline's layout, with a component present exactly when the first line has it (returned at line 368) |
| PlotLayerWorker.MakePolylines | src/PlotLayer.worker.ts:230-369 | no lines, or a first line without vertices, give two empty buffers; otherwise it fails exactly when the first line's empty offsets or data cannot be measured or some line cannot be drawn, and else returns the layout of every line |
| PlotLayerWorker.PolylineFillsExactly | src/PlotLayer.worker.ts:252-258 | the vertex and extrusion writes fill their allocations exactly |
| PlotLayerWorker.CumLenMonotone | src/PlotLayer.worker.ts:296-307 | the cumulative line length starts at 0.0001 and never decreases |
| PlotLayerWorker.SegmentLengths | src/PlotLayer.worker.ts:296-313 | each segment's four vertices carry -L and +L of the previous and of this vertex's cumulative length, over the previous and this position; the first vertex carries 0.0001 |
| PlotLayerWorker.VerticesUpToStart | src/PlotLayer.worker.ts:299 | every line's vertex floats start with its first vertex at length 0.0001 |
| AutumnFieldLayerWorker.Round | src/AutumnFieldLayer.worker.ts:43 | Math.round gives the integer within one half of its argument, halves rounded up |
| AutumnFieldLayerWorker.BarbMag | src/AutumnFieldLayer.worker.ts:43 | the barb magnitude is a multiple of 5 within 2.5 of the wind speed |
| AutumnFieldLayerWorker.JsRem | src/AutumnFieldLayer.worker.ts:60 | JavaScript's remainder agrees with the Euclidean one on a non-negative dividend |
| AutumnFieldLayerWorker.BarbCell | src/AutumnFieldLayer.worker.ts:60-61 | the atlas cell of a magnitude is a column below wrap / 5 and a row, from which the magnitude is recovered as row * wrap + 5 * column |
| AutumnFieldLayerWorker.FloorOfQuotient | src/AutumnFieldLayer.worker.ts:61 | Math.floor of the real quotient is the integer quotient |
| AutumnFieldLayerWorker.CornerPts | src/AutumnFieldLayer.worker.ts:50-55 | each barb corner writes three position floats |
| AutumnFieldLayerWorker.CornerOffsets | src/AutumnFieldLayer.worker.ts:50-57 | each barb corner writes two offset floats |
| AutumnFieldLayerWorker.BarbTex | src/AutumnFieldLayer.worker.ts:63-68 | each barb writes twelve texture floats |
| AutumnFieldLayerWorker.BarbPoint | src/AutumnFieldLayer.worker.ts:39-58 | a point writes 18 position floats |
| AutumnFieldLayerWorker.BarbOffset | src/AutumnFieldLayer.worker.ts:41-58 | a point writes 12 offset floats |
| AutumnFieldLayerWorker.BarbPoints | src/AutumnFieldLayer.worker.ts:37-73 | the first r latitude rows write 18 position floats per point |
| AutumnFieldLayerWorker.BarbOffsets | src/AutumnFieldLayer.worker.ts:37-73 | the first r latitude rows write 12 offset floats per point |
| AutumnFieldLayerWorker.BarbTexes | src/AutumnFieldLayer.worker.ts:37-73 | the first r latitude rows write 12 texture floats per point |
| AutumnFieldLayerWorker.MakeBarbElements | src/AutumnFieldLayer.worker.ts:9-76 | the three buffers have the allocated sizes n_lats * n_lons * 6 * 3 and * 6 * 2, and hold every point's six corners, offsets and atlas cell in the order the loops visit them |
| AutumnFieldLayerWorker.BarbsComplete | src/AutumnFieldLayer.worker.ts:24-29 | after the last row the writes cover the zero-filled buffers exactly (cursors as at lines 70-73) |
| AutumnFieldLayerWorker.BarbRow | src/AutumnFieldLayer.worker.ts:37-73 | one pass of the outer loop writes one latitude row |
| AutumnFieldLayerWorker.BarbPointWrites | src/AutumnFieldLayer.worker.ts:38-72 | one pass of the inner loop writes one point and moves the cursors by 18 and 12 |
| AutumnFieldLayerWorker.CornerWrites | src/AutumnFieldLayer.worker.ts:50-58 | the corner loop writes the six corners, with corner indices 0, 0, 1, 2, 3, 3 |
| AutumnFieldLayerWorker.DomainCorners | src/AutumnFieldLayer.worker.ts:82-86 | each latitude gives two Mercator corners, four floats |
| AutumnFieldLayerWorker.DomainTexRows | src/AutumnFieldLayer.worker.ts:88-91 | each latitude gives two texture coordinates, four floats |
| AutumnFieldLayerWorker.MakeDomainVerticesAndTexCoords | src/AutumnFieldLayer.worker.ts:78-94 | fails exactly when there are latitudes but no longitudes; otherwise both buffers have four floats per latitude |
| AutumnFieldLayerWorker.DomainLatitude | src/AutumnFieldLayer.worker.ts:82-91 | latitude k owns floats 4 k .. 4 k + 3: its western and eastern Mercator corner, and texture coordinates (0, k / texHeight) and (ni / (texWidth + 1), k / texHeight) |
| AutumnFieldLayerWorker.LinesOkEvery | src/AutumnFieldLayer.worker.ts:266-322 | the lines can be drawn up to k exactly when no line before k throws |
| AutumnFieldLayerWorker.PairsLayout | src/AutumnFieldLayer.worker.ts:275-306 | a line's pair list is laid out in 8 n - 4 floats |
| AutumnFieldLayerWorker.NormalsLayout | src/AutumnFieldLayer.worker.ts:273-307 | a line's extrusion is laid out in 8 n - 4 floats |
| AutumnFieldLayerWorker.LineLayout | src/AutumnFieldLayer.worker.ts:275-307 | a line writes 8 n - 4 floats to each of the vertex, texture and extrusion buffers |
| AutumnFieldLayerWorker.Slots | src/AutumnFieldLayer.worker.ts:319-321 | the first k lines own 12 (n - 1) floats each of a two-float buffer (sized as at line 245) |
| AutumnFieldLayerWorker.OriginSlots | src/AutumnFieldLayer.worker.ts:309-313 | each line's origin fills 12 (n - 1) floats |
| AutumnFieldLayerWorker.ZoomSlots | src/AutumnFieldLayer.worker.ts:315-317 | each line's zoom fills 6 (n - 1) floats |
| AutumnFieldLayerWorker.MakePolylines | src/AutumnFieldLayer.worker.ts:228-325 | throws exactly when there are no lines, the first line's vertex or texture list is empty, the allocation is negative, or some line cannot be read, with the error kind of each case; otherwise returns every line's layout |
| AutumnFieldLayerWorker.FillPolylines | src/AutumnFieldLayer.worker.ts:248-322 | the allocation and line loop succeed exactly when every line can be drawn, and then give the layout |
| AutumnFieldLayerWorker.PolylinesComplete | src/AutumnFieldLayer.worker.ts:319-324 | after the last line every slot is in place and the slots fill the buffers exactly |
| AutumnFieldLayerWorker.LineWrites | src/AutumnFieldLayer.worker.ts:266-321 | one pass of the line loop writes that line's strips, origin and zoom, and advances the cursors by (n - 1) * 6 * width |
| AutumnFieldLayerWorker.LineStrips | src/AutumnFieldLayer.worker.ts:270-307 | a line's vertex, texture and extrusion floats are written at the verts cursor |
| AutumnFieldLayerWorker.LineOriginZoom | src/AutumnFieldLayer.worker.ts:309-320 | a line's origin and zoom floats are written at their own cursors |
| AutumnFieldLayerWorker.StripWrites | src/AutumnFieldLayer.worker.ts:270-307 | the strip writes of a line are exactly its three layouts from the cursor |
| AutumnFieldLayerWorker.StripHead | src/AutumnFieldLayer.worker.ts:273-277 | the first vertex, its texture coordinate and the first segment's normal go at the cursor |
| AutumnFieldLayerWorker.SegmentWrites | src/AutumnFieldLayer.worker.ts:279-303 | segment ivt writes its eight floats to each buffer at 2 + 8 (ivt - 1) past the cursor |
| AutumnFieldLayerWorker.StripTail | src/AutumnFieldLayer.worker.ts:305-307 | the writes after the loop complete the line's layouts, the last normal negated |
| AutumnFieldLayerWorker.OriginWrites | src/AutumnFieldLayer.worker.ts:309-313 | the origin loop writes the origin pair over the line's slot |
| AutumnFieldLayerWorker.ZoomWrites | src/AutumnFieldLayer.worker.ts:315-317 | the zoom loop writes the line's zoom over its slot |

## Left out

- Floating point: every float32, float64 and Float16 value is a Dafny `real`. The model has no rounding: `ceilf`/`floorf` of `getContourLevels` act on exact quotients, Float32Array stores keep every value exactly, and Float16 texture data is not rounded. NaN appears only where a `Sample` carries it, and the infinities only as the `Ext` start values of the level computation's running extrema.
- Transcendental functions and foreign code are function-typed parameters: the Mercator projection, `Math.hypot`, `Math.atan2`, the normal vector, the HSV stop colour of `diverging`, the `potpack` packer and the kd-tree thinning of unstructured grids (the `cached` zoom argument of `UnstructuredGrids.GetMinVisibleZoom`).
- WebGL, the DOM, the map libraries, the Comlink web workers, `fetch` and protocol-buffer decoding beyond the glyph fields are not modelled, nor are luxon dates, `console.warn`, `getTextureData`, `getWGLTextureSpec`, `makeDomainBuffers`, the font-atlas loading in `getFontAtlas` and the render, font-size, colour, halo and `normalizeOptions` options of the layers.
- The commented-out `makePolylinesMiter` of both workers is not modelled.
- MarchingSquares.GridLevels: returns None where cpp:226-243 has no result: a zero interval (division by zero), a running minimum or maximum still infinite when the count is converted to `int` (undefined behaviour), and a negative count, which `resize` cannot allocate inside a `noexcept` function, so the program terminates. The running maximum stays infinite on every grid where no sample exceeds the running minimum of its turn: no sample, one sample, a constant grid, or a non-increasing one such as 3, 2, 1 (`RunningMaxStaysInfinite`). A negative interval gives a count of zero or less (`GridLevelsDefined`): zero returns an empty list, as on samples 1, 1.5 with interval -1 (`NegativeIntervalNoLevels`), and a negative count is None, as on 1, 3 (`NegativeIntervalNegativeCount`).
- MarchingSquares.ContourBuilder.Flush: the source emits the open fragments in `unordered_map` iteration order (cpp:188-194). The model emits them in a ghost order, proved to be a bijection with the live fragments; no particular order is promised.
- MarchingSquares.InterpolationPass: the source's pass edits copies of the points, so the method has no postcondition beyond its frame; it changes nothing.
- ContourCreator.ContourCreatorRun: wherever `MarchingSquares.GridLevels` is None (a zero interval, a running minimum or maximum still infinite, or a negative level count; see its line above), the model returns the error "contour levels are undefined for this grid and interval", a message the source does not have.
- ContourBindings.CheckGridSize: the product nx * ny is exact; C++ `int` overflow is not modelled.
- ContourBindings.GroupByValue: the result is a `map` keyed by level, so the insertion order of the JavaScript object's keys (main.cpp:62-72) is not kept.
- PlotLayers.MultiPlotLayer.GetKeys: `Object.keys` lists integer-like keys first, in numeric order; the model keeps the insertion order of every key.
- StructuredGrids.NewStructuredGrid: the thinning factors are stored as power-of-two exponents, so a `thin_x` or `thin_y` that is not a power of two, which the constructor at grids/StructuredGrid.ts:26-31 accepts, cannot be expressed.
- PlotLayers.MultiPlotLayer and AutumnFieldLayers.AutumnTimeFieldLayer: a stored field is never null, so the `!== null` guards on fields in `render` and `addField` (PlotLayer.ts:123-124 and :156, AutumnFieldLayer.ts:69-70 and :94) always pass in the model; a null field is not modelled.
- Utils.GetMinZoom: the thinning base is given as a power-of-two exponent `e`, so bases that are not powers of two, for which the source also returns (for example (3, 3, 6)), are not covered.
- Utils.Zip: requires at least one argument list; with none the source's generator never finishes, since `some` over no iterators is false.
- WGLPrograms.Program.constructor: the WebGL calls are not modelled, so the throws "Could not get vertex shader uniform location for '…'" and its fragment-shader twin (WGLProgram.ts:128, :140), raised when `getUniformLocation` returns null, are not either. The engine's conversion of a number to a string in the thrown messages is a function-typed parameter.
- MapCoords.NewLngLat: the error message leaves out the offending `(lng, lat)` values that Map.ts:305 prints.
- PlotLayerWorker.MakeBBElements: the projection is a parameter, so the RangeError that `new LngLat` throws for a latitude outside [-90, 90] (Map.ts:309-311, reached through PlotLayer.worker.ts:32) is not modelled.
- PlotLayerWorker.MakePolylines: the projection is a parameter, so the RangeError that `new LngLat(...v)` throws for a vertex latitude outside [-90, 90] (PlotLayer.worker.ts:287, Map.ts:309-311) is not modelled; the method fails only for lines that cannot be drawn.
- PlotLayerWorker.MakeDomainVerticesAndTexCoords: the same RangeError of `new LngLat` (PlotLayer.worker.ts:62-63) is not modelled.
- AutumnFieldLayerWorker.MakeBarbElements and AutumnFieldLayerWorker.MakeDomainVerticesAndTexCoords: an invalid latitude passed to `LngLat` is likewise not modelled.
- Colormaps.EvenLevel: with no colours the source divides by zero and its one level is NaN; the model gives `levelMin`.
- StationPlots: the `Barbs` and `TextCollection` objects a station plot builds, its fonts and `Color.normalizeColor` are not modelled; only the text specs, placement and error paths are.
- TextCollections.AtlasAsWritten: requires every glyph with a bitmap to have its width, height and offsets (the source would compute with `undefined` and store NaN), and a packer that returns one place per glyph.
- TextCollections: texture coordinates on an atlas of zero width or height, where the source divides by zero, are not modelled, nor is a protocol-buffer field whose wire type does not match its tag.
- RawDataFields.PaddedKeepsData: states the padded layout only for data of exactly ni * nj values; `PadAsWritten` itself clamps its slices as `slice` does.
- RawDataFields.Padded: the corrected padding; no lemma shows that it equals `PadAsWritten` on the grids where the latter succeeds.
- RawFields.AggregateFields: requires at least one field; the source reads `args[0].data` and throws a TypeError on an empty call.
- RawDataFields.AggregateFields: requires at least one field; with none the source's endless `zip` never lets the call return.

## Findings

| source | as written | input that shows it | evidently intended | confidence | as-written member | corrected member |
|---|---|---|---|---|---|---|
| src/cpp/marchingsquares.cpp:230 | the running maximum is updated when a sample exceeds the running minimum, so a later smaller sample replaces a larger maximum | samples 1, 3, 2 with interval 1 give levels [1, 2] | compare against the running maximum and give [1, 2, 3] | not executed | MarchingSquares.GridLevelsMissPeak | MarchingSquares.IntendedLevelsSpan |
| src/RawDataField.ts:146 | the last data row is copied into row nj of the padded array, which does not exist when nj is already a power of two, so `set` throws a RangeError | a grid of 3 columns and 4 rows | pad every grid, with the last row repeated only where there is a padding row | not executed | RawDataFields.PaddingThrowsOnPowerOfTwoRows | RawDataFields.PaddedKeepsData |
| src/Grid.ts:277 | the thinned east edge is moved back by (ur - ll) / ni per removed column, but the grid's points are ni - 1 such spacings apart | 4 columns from 0 to 3 thinned by 2 keep columns 0 and 2, but the edge is put at 2.25 | the spacing (ur - ll) / (ni - 1), which puts the edge at 2, the last kept column | not executed | LegacyGrids.ThinnedEastEdgeMisplaced | LegacyGrids.CorrectedEastEdge |
| src/Grid.ts:636 | the walk stops only when the cursor reaches the ni * nj slots of the new array, not the number of thinned points, so it reads past the thinned list | 4097 points thinned to the first 4096 give 8192 slots, and the walk reads point 4096 of the thinned list | stop once every thinned point has been matched | not executed | LegacyGrids.LegacyThinCrashes | LegacyGrids.CorrectedThinFills |
