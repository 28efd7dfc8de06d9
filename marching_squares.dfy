/**
 * Single-level marching squares: cells are classified against one iso-value,
 * each case code is looked up in a fixed segment table, and the segments are
 * stitched into polylines through two endpoint-keyed maps. Fragments that meet
 * themselves close into rings; whatever is left after the scan is flushed as
 * open contours. A final interpolation pass edits only local copies, so the
 * returned vertices are the stitched grid-index coordinates.
 */
module MarchingSquares {
  import opened Wrappers
  import opened ContourTypes

  /** A grid sample: a number, or NaN, which compares false against everything. */
  datatype Sample = Num(v: real) | NaN

  /** The corner test of the classification: strictly greater, so ties and NaN count as below. */
  predicate Above(s: Sample, value: real)
  {
    s.Num? && s.v > value
  }

  function Bit(b: bool): nat { if b then 1 else 0 }

  /** Case code of a cell: bit value 1 = sw, 2 = se, 4 = ne, 8 = nw, set when that corner is above the value. */
  function CaseCode(sw: Sample, se: Sample, ne: Sample, nw: Sample, value: real): (code: nat)
    ensures code < 16
    ensures (code % 2 == 1) <==> Above(sw, value)
    ensures (code / 2 % 2 == 1) <==> Above(se, value)
    ensures (code / 4 % 2 == 1) <==> Above(ne, value)
    ensures (code / 8 == 1) <==> Above(nw, value)
  {
    Bit(Above(sw, value)) + 2 * Bit(Above(se, value)) + 4 * Bit(Above(ne, value)) + 8 * Bit(Above(nw, value))
  }

  /** Number of segment slots per case. */
  const NSEGS: nat := 2

  /** The unused-slot marker of the segment table. */
  const UNUSED: Point := Point(-1.0, -1.0)

  /** Midpoints of the four cell edges, in cell-local coordinates. */
  const BOTTOM: Point := Point(0.5, 0.0)
  const TOP: Point := Point(0.5, 1.0)
  const LEFT: Point := Point(0.0, 0.5)
  const RIGHT: Point := Point(1.0, 0.5)

  /**
   * The segment table, indexed by case code and slot: (start, end) in
   * cell-local coordinates. Codes 5 and 10 (saddles) always use the same two
   * segments; there is no saddle resolution.
   */
  const SEGS: seq<seq<(Point, Point)>> := [
    [(UNUSED, UNUSED), (UNUSED, UNUSED)],  // 0
    [(BOTTOM, LEFT), (UNUSED, UNUSED)],    // 1
    [(RIGHT, BOTTOM), (UNUSED, UNUSED)],   // 2
    [(RIGHT, LEFT), (UNUSED, UNUSED)],     // 3
    [(TOP, RIGHT), (UNUSED, UNUSED)],      // 4
    [(BOTTOM, LEFT), (TOP, RIGHT)],        // 5
    [(TOP, BOTTOM), (UNUSED, UNUSED)],     // 6
    [(TOP, LEFT), (UNUSED, UNUSED)],       // 7
    [(LEFT, TOP), (UNUSED, UNUSED)],       // 8
    [(BOTTOM, TOP), (UNUSED, UNUSED)],     // 9
    [(RIGHT, BOTTOM), (LEFT, TOP)],        // 10
    [(RIGHT, TOP), (UNUSED, UNUSED)],      // 11
    [(LEFT, RIGHT), (UNUSED, UNUSED)],     // 12
    [(BOTTOM, RIGHT), (UNUSED, UNUSED)],   // 13
    [(LEFT, BOTTOM), (UNUSED, UNUSED)],    // 14
    [(UNUSED, UNUSED), (UNUSED, UNUSED)]   // 15
  ]

  /** The table has an entry of NSEGS slots for each of the 16 case codes. */
  lemma TableShape()
    ensures |SEGS| == 16 && forall c | 0 <= c < 16 :: |SEGS[c]| == NSEGS
  {
  }

  /** A slot is used unless its first coordinate is negative. */
  predicate SlotUsed(code: nat, slot: nat)
    requires code < 16 && slot < NSEGS
  {
    !(SEGS[code][slot].0.x < 0.0)
  }

  /** Number of segments a case emits. */
  function SegmentCount(code: nat): nat
    requires code < 16
  {
    Bit(SlotUsed(code, 0)) + Bit(SlotUsed(code, 1))
  }

  /** Codes 0 and 15 emit nothing, the saddles 5 and 10 emit two segments, every other code one. */
  lemma SegmentCounts(code: nat)
    requires code < 16
    ensures SegmentCount(code) == (if code == 0 || code == 15 then 0 else if code == 5 || code == 10 then 2 else 1)
    ensures SlotUsed(code, 1) ==> SlotUsed(code, 0)
  {
  }

  /** A used slot joins two distinct edge midpoints. */
  predicate IsMidpoint(t: Point)
  {
    t == BOTTOM || t == TOP || t == LEFT || t == RIGHT
  }

  lemma UsedSlotsJoinMidpoints(code: nat, slot: nat)
    requires code < 16 && slot < NSEGS && SlotUsed(code, slot)
    ensures IsMidpoint(SEGS[code][slot].0) && IsMidpoint(SEGS[code][slot].1)
    ensures SEGS[code][slot].0 != SEGS[code][slot].1
  {
  }

  // ----- grid edges -----

  /**
   * A cell edge of the grid: HEdge(x, y) joins corners (x, y) and (x + 1, y),
   * VEdge(x, y) joins corners (x, y) and (x, y + 1).
   */
  datatype Edge = HEdge(x: int, y: int) | VEdge(x: int, y: int)

  /** The midpoint of an edge: one coordinate an integer, the other an integer plus one half. */
  function EdgePoint(e: Edge): Point
  {
    match e
    case HEdge(x, y) => Point(x as real + 0.5, y as real)
    case VEdge(x, y) => Point(x as real, y as real + 0.5)
  }

  /** The edge a point is the midpoint of, read back from its coordinates. */
  function EdgeOf(p: Point): Edge
  {
    if p.x == p.x.Floor as real then VEdge(p.x.Floor, p.y.Floor) else HEdge(p.x.Floor, p.y.Floor)
  }

  lemma EdgeOfEdgePoint(e: Edge)
    ensures EdgeOf(EdgePoint(e)) == e
  {
    match e
    case HEdge(x, y) =>
      assert (x as real + 0.5).Floor == x;
      assert (y as real).Floor == y;
    case VEdge(x, y) =>
      assert (x as real).Floor == x;
      assert (y as real + 0.5).Floor == y;
  }

  /** The edge of cell (i, j) whose local midpoint is t. */
  function CellEdge(t: Point, i: int, j: int): Edge
  {
    if t == BOTTOM then HEdge(i, j)
    else if t == TOP then HEdge(i, j + 1)
    else if t == LEFT then VEdge(i, j)
    else VEdge(i + 1, j)
  }

  /** A table point offset by its cell is that cell edge's midpoint. */
  lemma OffsetIsEdgePoint(t: Point, i: int, j: int)
    requires IsMidpoint(t)
    ensures Point(t.x + i as real, t.y + j as real) == EdgePoint(CellEdge(t, i, j))
  {
  }

  /** A point that is the midpoint of an edge of an nx-by-ny grid of corners. */
  predicate OnGridEdge(p: Point, nx: int, ny: int)
  {
    p == EdgePoint(EdgeOf(p)) &&
    match EdgeOf(p)
    case HEdge(x, y) => 0 <= x < nx - 1 && 0 <= y < ny
    case VEdge(x, y) => 0 <= x < nx && 0 <= y < ny - 1
  }

  // ----- the classified field -----

  /** The grid, its corner dimensions and the contour value. */
  datatype Field = Field(grid: seq<Sample>, nx: int, ny: int, value: real)
  {
    predicate WellFormed() { 0 <= nx && 0 <= ny && nx * ny <= |grid| }
  }

  lemma IndexInBounds(nx: int, ny: int, x: int, y: int)
    requires 0 <= x < nx && 0 <= y < ny
    ensures 0 <= x + nx * y < nx * ny
  {
    assert nx * y + nx == nx * (y + 1);
    assert nx * (y + 1) <= nx * ny;
  }

  /** The sample at corner (x, y); corners outside the grid read as NaN. */
  function Corner(f: Field, x: int, y: int): Sample
  {
    if 0 <= x < f.nx && 0 <= y < f.ny && 0 <= x + f.nx * y < |f.grid| then f.grid[x + f.nx * y] else NaN
  }

  predicate High(f: Field, x: int, y: int)
  {
    Above(Corner(f, x, y), f.value)
  }

  function Code(f: Field, i: int, j: int): (code: nat)
    ensures code < 16
  {
    CaseCode(Corner(f, i, j), Corner(f, i + 1, j), Corner(f, i + 1, j + 1), Corner(f, i, j + 1), f.value)
  }

  /** A scan position: cell (i, j) and segment slot k, ordered as the nested loops visit them. */
  datatype Pos = Pos(i: int, j: int, k: int)

  predicate Before(a: Pos, b: Pos)
  {
    a.i < b.i || (a.i == b.i && (a.j < b.j || (a.j == b.j && a.k < b.k)))
  }

  /**
   * The one scan position whose segment can start at edge e. A crossing of a
   * horizontal edge starts a segment in the cell above it when its left corner
   * is high, otherwise in the cell below; a vertical edge starts one in the
   * cell to its right when its upper corner is high, otherwise to its left.
   */
  function StartOwner(f: Field, e: Edge): Pos
  {
    var (cx, cy) := match e
      case HEdge(x, y) => if High(f, x, y) then (x, y) else (x, y - 1)
      case VEdge(x, y) => if High(f, x, y + 1) then (x, y) else (x - 1, y);
    var c := Code(f, cx, cy);
    Pos(cx, cy, if (c == 5 && e == HEdge(cx, cy + 1)) || (c == 10 && e == VEdge(cx, cy)) then 1 else 0)
  }

  /** The one scan position whose segment can end at edge e (the mirror image of StartOwner). */
  function EndOwner(f: Field, e: Edge): Pos
  {
    var (cx, cy) := match e
      case HEdge(x, y) => if High(f, x, y) then (x, y - 1) else (x, y)
      case VEdge(x, y) => if High(f, x, y + 1) then (x - 1, y) else (x, y);
    var c := Code(f, cx, cy);
    Pos(cx, cy, if (c == 5 && e == VEdge(cx + 1, cy)) || (c == 10 && e == HEdge(cx, cy + 1)) then 1 else 0)
  }

  /** The corner bits of a cell, read from the case code. */
  lemma CodeBits(f: Field, i: int, j: int)
    ensures var c := Code(f, i, j);
      (High(f, i, j) <==> c % 2 == 1) && (High(f, i + 1, j) <==> c / 2 % 2 == 1) &&
      (High(f, i + 1, j + 1) <==> c / 4 % 2 == 1) && (High(f, i, j + 1) <==> c / 8 == 1)
  {
  }

  /**
   * Orientation of one table slot, in cell-local terms: which corner must be
   * high or low for each start and end midpoint, and which midpoints mark the
   * second slot of the saddles.
   */
  predicate SlotOriented(code: nat, slot: nat)
    requires code < 16 && slot < NSEGS
  {
    var (s, e) := SEGS[code][slot];
    var sw, ne, nw := code % 2 == 1, code / 4 % 2 == 1, code / 8 == 1;
    (s == BOTTOM ==> sw) && (s == TOP ==> !nw) && (s == LEFT ==> nw) && (s == RIGHT ==> !ne) &&
    (e == BOTTOM ==> !sw) && (e == TOP ==> nw) && (e == LEFT ==> !nw) && (e == RIGHT ==> ne) &&
    ((slot == 1) <==> ((code == 5 && s == TOP) || (code == 10 && s == LEFT))) &&
    ((slot == 1) <==> ((code == 5 && e == RIGHT) || (code == 10 && e == TOP)))
  }

  lemma TableOriented(code: nat, slot: nat)
    requires code < 16 && slot < NSEGS && SlotUsed(code, slot)
    ensures SlotOriented(code, slot)
  {
  }

  /**
   * The table is consistently oriented: the segment in slot k of cell (i, j)
   * is the only one of the whole scan that starts at its start edge, and the
   * only one that ends at its end edge.
   */
  lemma SegmentOwners(f: Field, i: int, j: int, k: nat)
    requires k < NSEGS && SlotUsed(Code(f, i, j), k)
    ensures StartOwner(f, CellEdge(SEGS[Code(f, i, j)][k].0, i, j)) == Pos(i, j, k)
    ensures EndOwner(f, CellEdge(SEGS[Code(f, i, j)][k].1, i, j)) == Pos(i, j, k)
  {
    SegmentStartOwner(f, i, j, k);
    SegmentEndOwner(f, i, j, k);
  }

  lemma SegmentStartOwner(f: Field, i: int, j: int, k: nat)
    requires k < NSEGS && SlotUsed(Code(f, i, j), k)
    ensures StartOwner(f, CellEdge(SEGS[Code(f, i, j)][k].0, i, j)) == Pos(i, j, k)
  {
    var c := Code(f, i, j);
    CodeBits(f, i, j);
    TableOriented(c, k);
    UsedSlotsJoinMidpoints(c, k);
  }

  lemma SegmentEndOwner(f: Field, i: int, j: int, k: nat)
    requires k < NSEGS && SlotUsed(Code(f, i, j), k)
    ensures EndOwner(f, CellEdge(SEGS[Code(f, i, j)][k].1, i, j)) == Pos(i, j, k)
  {
    var c := Code(f, i, j);
    CodeBits(f, i, j);
    TableOriented(c, k);
    UsedSlotsJoinMidpoints(c, k);
  }

  // ----- stitching -----

  function Last<T>(s: seq<T>): T
    requires |s| > 0
  {
    s[|s| - 1]
  }

  /** The contours listed by an enumeration of fragment identities, in that order. */
  function Emitted(fr: map<nat, seq<Point>>, order: seq<nat>): (r: seq<seq<Point>>)
    requires forall k | 0 <= k < |order| :: order[k] in fr
    ensures |r| == |order|
    ensures forall k | 0 <= k < |order| :: r[k] == fr[order[k]]
  {
    if order == [] then [] else Emitted(fr, order[..|order| - 1]) + [fr[Last(order)]]
  }

  lemma EmittedSnoc(fr: map<nat, seq<Point>>, order: seq<nat>, id: nat)
    requires forall k | 0 <= k < |order| :: order[k] in fr
    requires id in fr
    ensures Emitted(fr, order + [id]) == Emitted(fr, order) + [fr[id]]
  {
    assert (order + [id])[..|order|] == order;
  }

  predicate Distinct(s: seq<nat>)
  {
    forall a, b | 0 <= a < b < |s| :: s[a] != s[b]
  }

  /**
   * The map invariant of the stitching state: by_start's keys are exactly the
   * first points of the live fragments and by_end's keys exactly their last
   * points, each mapping back to its fragment; every live fragment has at
   * least two points, and no point is both a live start and a live end.
   */
  ghost predicate Stitched(fr: map<nat, seq<Point>>, bs: map<Point, nat>, be: map<Point, nat>, next: nat)
  {
    (forall id | id in fr ::
       id < next && |fr[id]| >= 2 &&
       fr[id][0] in bs && bs[fr[id][0]] == id &&
       Last(fr[id]) in be && be[Last(fr[id])] == id) &&
    (forall p | p in bs :: bs[p] in fr && fr[bs[p]][0] == p) &&
    (forall p | p in be :: be[p] in fr && Last(fr[be[p]]) == p) &&
    (forall p | p in bs :: p !in be)
  }

  lemma StitchedNew(fr: map<nat, seq<Point>>, bs: map<Point, nat>, be: map<Point, nat>, next: nat, s: Point, e: Point)
    requires Stitched(fr, bs, be, next)
    requires s != e && s !in bs && e !in be && s !in be && e !in bs
    ensures next !in fr
    ensures Stitched(fr[next := [s, e]], bs[s := next], be[e := next], next + 1)
  {
  }

  lemma StitchedAppend(fr: map<nat, seq<Point>>, bs: map<Point, nat>, be: map<Point, nat>, next: nat, s: Point, e: Point)
    requires Stitched(fr, bs, be, next)
    requires s in be && e !in bs && e !in be
    ensures Stitched(fr[be[s] := fr[be[s]] + [e]], bs, (be - {s})[e := be[s]], next)
  {
    var id := be[s];
    var fr', be' := fr[id := fr[id] + [e]], (be - {s})[e := id];
    assert Last(fr'[id]) == e;
    forall p | p in be' ensures be'[p] in fr' && Last(fr'[be'[p]]) == p {
      if p != e {
        assert be[p] != id;
      }
    }
  }

  lemma StitchedPrepend(fr: map<nat, seq<Point>>, bs: map<Point, nat>, be: map<Point, nat>, next: nat, s: Point, e: Point)
    requires Stitched(fr, bs, be, next)
    requires e in bs && s !in bs && s !in be
    ensures Stitched(fr[bs[e] := [s] + fr[bs[e]]], (bs - {e})[s := bs[e]], be, next)
  {
    var id := bs[e];
    var fr', bs' := fr[id := [s] + fr[id]], (bs - {e})[s := id];
    assert Last(fr'[id]) == Last(fr[id]);
    forall p | p in bs' ensures bs'[p] in fr' && fr'[bs'[p]][0] == p {
      if p != s {
        assert bs[p] != id;
      }
    }
  }

  lemma StitchedMerge(fr: map<nat, seq<Point>>, bs: map<Point, nat>, be: map<Point, nat>, next: nat, s: Point, e: Point)
    requires Stitched(fr, bs, be, next)
    requires s in be && e in bs && be[s] != bs[e]
    ensures (fr[be[s]] + fr[bs[e]])[0] in bs && Last(fr[be[s]] + fr[bs[e]]) in be
    ensures var id1, id2 := be[s], bs[e];
      var merged := fr[id1] + fr[id2];
      Stitched((fr - {id2})[id1 := merged], (bs - {e})[merged[0] := id1], (be - {s})[Last(merged) := id1], next)
  {
    var id1, id2 := be[s], bs[e];
    var merged := fr[id1] + fr[id2];
    var fr' := (fr - {id2})[id1 := merged];
    var bs' := (bs - {e})[merged[0] := id1];
    var be' := (be - {s})[Last(merged) := id1];
    assert merged[0] == fr[id1][0];
    assert Last(merged) == Last(fr[id2]);
    forall id | id in fr'
      ensures |fr'[id]| >= 2 && fr'[id][0] in bs' && bs'[fr'[id][0]] == id &&
              Last(fr'[id]) in be' && be'[Last(fr'[id])] == id
    {
      if id != id1 {
        assert fr'[id] == fr[id];
        assert fr[id][0] != e && fr[id][0] != merged[0];
        assert Last(fr[id]) != s && Last(fr[id]) != Last(merged);
      }
    }
    forall p | p in bs' ensures bs'[p] in fr' && fr'[bs'[p]][0] == p {
      if p != merged[0] {
        assert bs[p] != id1 && bs[p] != id2;
      }
    }
    forall p | p in be' ensures be'[p] in fr' && Last(fr'[be'[p]]) == p {
      if p != Last(merged) {
        assert be[p] != id1 && be[p] != id2;
      }
    }
  }

  lemma StitchedClose(fr: map<nat, seq<Point>>, bs: map<Point, nat>, be: map<Point, nat>, next: nat, s: Point, e: Point)
    requires Stitched(fr, bs, be, next)
    requires s in be && e in bs && be[s] == bs[e]
    ensures Stitched(fr - {be[s]}, bs - {e}, be - {s}, next)
  {
    var id := be[s];
    forall p | p in bs - {e} ensures bs[p] != id { }
    forall p | p in be - {s} ensures be[p] != id { }
  }

  /**
   * The effect of one segment s -> e on the fragments fr, the contours cs and
   * the next identity, by which of its ends meet a live fragment.
   */
  ghost predicate SegmentAdded(fr: map<nat, seq<Point>>, bs: map<Point, nat>, be: map<Point, nat>, cs: seq<seq<Point>>, next: nat,
                               fr': map<nat, seq<Point>>, cs': seq<seq<Point>>, next': nat, s: Point, e: Point)
    requires Stitched(fr, bs, be, next)
  {
    // both ends join two different fragments: frag1 ++ frag2 survives as one fragment
    (s in be && e in bs && be[s] != bs[e] ==>
       fr' == (fr - {bs[e]})[be[s] := fr[be[s]] + fr[bs[e]]] && cs' == cs && next' == next) &&
    // both ends meet the same fragment: it closes into a ring, is emitted and leaves the maps
    (s in be && e in bs && be[s] == bs[e] ==>
       fr' == fr - {be[s]} && cs' == cs + [fr[be[s]] + [fr[be[s]][0]]] && next' == next) &&
    // only the start continues a fragment's end: e is appended
    (s in be && e !in bs ==> fr' == fr[be[s] := fr[be[s]] + [e]] && cs' == cs && next' == next) &&
    // only the end continues a fragment's start: s is prepended
    (s !in be && e in bs ==> fr' == fr[bs[e] := [s] + fr[bs[e]]] && cs' == cs && next' == next) &&
    // neither: a new two-point fragment
    (s !in be && e !in bs ==> next !in fr && fr' == fr[next := [s, e]] && cs' == cs && next' == next + 1)
  }

  /**
   * Each branch of the stitching step keeps the invariant, adds at most the
   * segment's own ends as keys, and meets its clause of SegmentAdded.
   */
  lemma AddedMerge(fr: map<nat, seq<Point>>, bs: map<Point, nat>, be: map<Point, nat>, cs: seq<seq<Point>>, next: nat, s: Point, e: Point)
    requires Stitched(fr, bs, be, next)
    requires s in be && e in bs && be[s] != bs[e]
    ensures var id1, id2 := be[s], bs[e];
      var merged := fr[id1] + fr[id2];
      var fr', bs', be' := (fr - {id2})[id1 := merged], (bs - {e})[merged[0] := id1], (be - {s})[Last(merged) := id1];
      Stitched(fr', bs', be', next) && bs'.Keys <= bs.Keys + {s} && be'.Keys <= be.Keys + {e} &&
      SegmentAdded(fr, bs, be, cs, next, fr', cs, next, s, e) && |fr'| == |fr| - 1
  {
    StitchedMerge(fr, bs, be, next, s, e);
  }

  lemma AddedClose(fr: map<nat, seq<Point>>, bs: map<Point, nat>, be: map<Point, nat>, cs: seq<seq<Point>>, next: nat, s: Point, e: Point)
    requires Stitched(fr, bs, be, next)
    requires s in be && e in bs && be[s] == bs[e]
    ensures var fr', bs', be' := fr - {be[s]}, bs - {e}, be - {s};
      Stitched(fr', bs', be', next) && bs'.Keys <= bs.Keys + {s} && be'.Keys <= be.Keys + {e} &&
      SegmentAdded(fr, bs, be, cs, next, fr', cs + [fr[be[s]] + [fr[bs[e]][0]]], next, s, e)
  {
    StitchedClose(fr, bs, be, next, s, e);
  }

  lemma AddedAppend(fr: map<nat, seq<Point>>, bs: map<Point, nat>, be: map<Point, nat>, cs: seq<seq<Point>>, next: nat, s: Point, e: Point)
    requires Stitched(fr, bs, be, next)
    requires s in be && e !in bs && e !in be
    ensures var fr', be' := fr[be[s] := fr[be[s]] + [e]], (be - {s})[e := be[s]];
      Stitched(fr', bs, be', next) && be'.Keys <= be.Keys + {e} &&
      SegmentAdded(fr, bs, be, cs, next, fr', cs, next, s, e)
  {
    StitchedAppend(fr, bs, be, next, s, e);
  }

  lemma AddedPrepend(fr: map<nat, seq<Point>>, bs: map<Point, nat>, be: map<Point, nat>, cs: seq<seq<Point>>, next: nat, s: Point, e: Point)
    requires Stitched(fr, bs, be, next)
    requires s !in be && e in bs && s !in bs
    ensures var fr', bs' := fr[bs[e] := [s] + fr[bs[e]]], (bs - {e})[s := bs[e]];
      Stitched(fr', bs', be, next) && bs'.Keys <= bs.Keys + {s} &&
      SegmentAdded(fr, bs, be, cs, next, fr', cs, next, s, e)
  {
    StitchedPrepend(fr, bs, be, next, s, e);
  }

  lemma AddedNew(fr: map<nat, seq<Point>>, bs: map<Point, nat>, be: map<Point, nat>, cs: seq<seq<Point>>, next: nat, s: Point, e: Point)
    requires Stitched(fr, bs, be, next)
    requires s != e && s !in be && e !in bs && s !in bs && e !in be
    ensures Stitched(fr[next := [s, e]], bs[s := next], be[e := next], next + 1)
    ensures SegmentAdded(fr, bs, be, cs, next, fr[next := [s, e]], cs, next + 1, s, e)
  {
    StitchedNew(fr, bs, be, next, s, e);
  }

  /**
   * The stitching state of one contour extraction. Fragment identities stand
   * in for the heap-allocated line strings: frags maps each live identity to
   * its points, and removing an identity is the source's delete.
   */
  class ContourBuilder {
    var frags: map<nat, seq<Point>>
    var byStart: map<Point, nat>
    var byEnd: map<Point, nat>
    var contours: seq<seq<Point>>
    var nextId: nat

    ghost predicate Valid()
      reads this
    {
      Stitched(frags, byStart, byEnd, nextId)
    }

    constructor ()
      ensures Valid()
      ensures frags == map[] && byStart == map[] && byEnd == map[] && contours == []
    {
      frags, byStart, byEnd, contours, nextId := map[], map[], map[], [], 0;
    }

    /**
     * Adds the segment s -> e. The requires are what the consistently oriented
     * table guarantees during a scan: no live fragment already starts at s or
     * ends at e.
     */
    method AddSegment(s: Point, e: Point)
      requires Valid()
      requires s != e && s !in byStart && e !in byEnd
      modifies this
      ensures Valid()
      ensures byStart.Keys <= old(byStart.Keys) + {s} && byEnd.Keys <= old(byEnd.Keys) + {e}
      ensures SegmentAdded(old(frags), old(byStart), old(byEnd), old(contours), old(nextId), frags, contours, nextId, s, e)
      ensures old(s in byEnd && e in byStart && byEnd[s] != byStart[e]) ==> |frags| == old(|frags|) - 1
    {
      var startSeen := s in byEnd;
      var endSeen := e in byStart;
      if startSeen && endSeen {
        var frag1 := byEnd[s];
        var frag2 := byStart[e];
        if frag1 != frag2 {
          // splice frag2 onto frag1, drop the two inner keys, re-key frag1 by its ends, delete frag2
          var merged := frags[frag1] + frags[frag2];
          AddedMerge(frags, byStart, byEnd, contours, nextId, s, e);
          frags, byStart, byEnd := (frags - {frag2})[frag1 := merged],
            (byStart - {e})[merged[0] := frag1], (byEnd - {s})[Last(merged) := frag1];
        } else {
          // close the ring with its own first point, emit it, drop both keys, delete it
          AddedClose(frags, byStart, byEnd, contours, nextId, s, e);
          contours := contours + [frags[frag1] + [frags[frag2][0]]];
          frags, byStart, byEnd := frags - {frag1}, byStart - {e}, byEnd - {s};
        }
      } else if startSeen {
        var frag := byEnd[s];
        AddedAppend(frags, byStart, byEnd, contours, nextId, s, e);
        frags, byEnd := frags[frag := frags[frag] + [e]], (byEnd - {s})[e := frag];
      } else if endSeen {
        var frag := byStart[e];
        AddedPrepend(frags, byStart, byEnd, contours, nextId, s, e);
        frags, byStart := frags[frag := [s] + frags[frag]], (byStart - {e})[s := frag];
      } else {
        var frag := nextId;
        AddedNew(frags, byStart, byEnd, contours, nextId, s, e);
        frags, byStart, byEnd, nextId := frags[frag := [s, e]], byStart[s := frag], byEnd[e := frag], nextId + 1;
      }
    }

    /**
     * Appends every fragment still live after the scan to the contours, by
     * walking byStart in an order the model leaves unspecified (the source's
     * hash order). Each live fragment is emitted exactly once.
     */
    method Flush() returns (ghost order: seq<nat>)
      requires Valid()
      modifies this`contours
      ensures Valid()
      ensures Distinct(order) && forall id :: id in order <==> id in frags
      ensures contours == old(contours) + Emitted(frags, order)
    {
      StitchedKeyed(frags, byStart, byEnd, nextId);
      var emitted;
      emitted, order := WalkByStart(frags, byStart);
      contours := contours + emitted;
    }
  }

  /** Each fragment is keyed in by_start by its first point, and each key leads back to its fragment. */
  ghost predicate KeyedByStart(fr: map<nat, seq<Point>>, bs: map<Point, nat>)
  {
    (forall id | id in fr :: |fr[id]| > 0 && fr[id][0] in bs && bs[fr[id][0]] == id) &&
    (forall p | p in bs :: bs[p] in fr && |fr[bs[p]]| > 0 && fr[bs[p]][0] == p)
  }

  lemma StitchedKeyed(fr: map<nat, seq<Point>>, bs: map<Point, nat>, be: map<Point, nat>, next: nat)
    requires Stitched(fr, bs, be, next)
    ensures KeyedByStart(fr, bs)
  {
  }

  /** The flush loop: visits every by_start entry once, in an unspecified order, and lists its fragment. */
  method WalkByStart(fr: map<nat, seq<Point>>, bs: map<Point, nat>) returns (emitted: seq<seq<Point>>, ghost order: seq<nat>)
    requires KeyedByStart(fr, bs)
    ensures Distinct(order) && forall id :: id in order <==> id in fr
    ensures emitted == Emitted(fr, order)
  {
    emitted, order := [], [];
    var keys := bs.Keys;
    while keys != {}
      invariant keys <= bs.Keys
      invariant forall k | 0 <= k < |order| :: order[k] in fr && fr[order[k]][0] !in keys
      invariant Distinct(order)
      invariant forall p | p in bs && p !in keys :: bs[p] in order
      invariant emitted == Emitted(fr, order)
      decreases |keys|
    {
      var p :| p in keys;
      var frag := bs[p];
      EmittedSnoc(fr, order, frag);
      emitted := emitted + [fr[frag]];
      order := order + [frag];
      keys := keys - {p};
    }
    forall id | id in fr ensures id in order {
      assert fr[id][0] in bs;
    }
  }

  // ----- the extraction -----

  predicate AllOnGrid(c: seq<Point>, nx: int, ny: int)
  {
    forall q | q in c :: OnGridEdge(q, nx, ny)
  }

  /** A closed ring: at least three points and the first point repeated at the end. */
  predicate IsRing(c: seq<Point>)
  {
    |c| >= 3 && c[0] == Last(c)
  }

  lemma AllOnGridConcat(a: seq<Point>, b: seq<Point>, nx: int, ny: int)
    requires AllOnGrid(a, nx, ny) && AllOnGrid(b, nx, ny)
    ensures AllOnGrid(a + b, nx, ny)
  {
  }

  ghost predicate FragsOnGrid(fr: map<nat, seq<Point>>, nx: int, ny: int)
  {
    forall id | id in fr :: AllOnGrid(fr[id], nx, ny)
  }

  ghost predicate RingsOnGrid(cs: seq<seq<Point>>, nx: int, ny: int)
  {
    forall c | c in cs :: IsRing(c) && AllOnGrid(c, nx, ny)
  }

  /** Every live start and end was made by a segment of a scan position before pos. */
  ghost predicate OwnedBefore(f: Field, bs: map<Point, nat>, be: map<Point, nat>, pos: Pos)
  {
    (forall p | p in bs :: Before(StartOwner(f, EdgeOf(p)), pos)) &&
    (forall p | p in be :: Before(EndOwner(f, EdgeOf(p)), pos))
  }

  /** Adding keys made at pos moves the ownership bound one slot on. */
  lemma OwnedAfterStep(f: Field, bs: map<Point, nat>, be: map<Point, nat>, bs': map<Point, nat>, be': map<Point, nat>,
                       s: Point, e: Point, pos: Pos)
    requires OwnedBefore(f, bs, be, pos)
    requires bs'.Keys <= bs.Keys + {s} && be'.Keys <= be.Keys + {e}
    requires StartOwner(f, EdgeOf(s)) == pos && EndOwner(f, EdgeOf(e)) == pos
    ensures OwnedBefore(f, bs', be', pos.(k := pos.k + 1))
  {
    var next := pos.(k := pos.k + 1);
    forall p | p in bs' ensures Before(StartOwner(f, EdgeOf(p)), next) {
      if p != s {
        assert p in bs;
        assert Before(StartOwner(f, EdgeOf(p)), pos);
      }
    }
    forall p | p in be' ensures Before(EndOwner(f, EdgeOf(p)), next) {
      if p != e {
        assert p in be;
        assert Before(EndOwner(f, EdgeOf(p)), pos);
      }
    }
  }

  /** What the scan keeps true before position pos. */
  ghost predicate ScanInvariant(f: Field, b: ContourBuilder, pos: Pos)
    reads b
  {
    ScanState(f, b.frags, b.byStart, b.byEnd, b.contours, b.nextId, pos) && PairsState(f, b.frags, b.contours, pos)
  }

  /** The pairs of the fragments and the emitted contours are the segments of the slots scanned before pos. */
  ghost predicate PairsState(f: Field, fr: map<nat, seq<Point>>, cs: seq<seq<Point>>, pos: Pos)
  {
    pos.k <= NSEGS && FragPairs(fr) + ContourPairs(cs) == ScannedSegments(f, pos)
  }

  /** Stitching the segment of slot pos adds its pair, as the scan order does. */
  lemma PairsStateStep(f: Field, fr: map<nat, seq<Point>>, bs: map<Point, nat>, be: map<Point, nat>, cs: seq<seq<Point>>, next: nat,
                       fr': map<nat, seq<Point>>, cs': seq<seq<Point>>, next': nat, s: Point, e: Point, i: int, j: int, k: nat)
    requires Stitched(fr, bs, be, next) && PairsState(f, fr, cs, Pos(i, j, k))
    requires SegmentAdded(fr, bs, be, cs, next, fr', cs', next', s, e)
    requires k < NSEGS && SlotUsed(Code(f, i, j), k) && (s, e) == CellSegment(f, i, j, k)
    ensures PairsState(f, fr', cs', Pos(i, j, k + 1))
  {
    PairsAfterAdd(fr, bs, be, cs, next, fr', cs', next', s, e);
    ScannedStep(f, i, j, k);
  }

  /** The scan invariant on the builder's state as values. */
  ghost predicate ScanState(f: Field, fr: map<nat, seq<Point>>, bs: map<Point, nat>, be: map<Point, nat>,
                            cs: seq<seq<Point>>, next: nat, pos: Pos)
  {
    Stitched(fr, bs, be, next) && OwnedBefore(f, bs, be, pos) &&
    FragsOnGrid(fr, f.nx, f.ny) && RingsOnGrid(cs, f.nx, f.ny)
  }

  /** Adding a segment owned by pos moves the scan invariant one slot on. */
  lemma ScanStateStep(f: Field, fr: map<nat, seq<Point>>, bs: map<Point, nat>, be: map<Point, nat>, cs: seq<seq<Point>>, next: nat,
                      fr': map<nat, seq<Point>>, bs': map<Point, nat>, be': map<Point, nat>, cs': seq<seq<Point>>, next': nat,
                      s: Point, e: Point, pos: Pos)
    requires ScanState(f, fr, bs, be, cs, next, pos)
    requires Stitched(fr', bs', be', next')
    requires bs'.Keys <= bs.Keys + {s} && be'.Keys <= be.Keys + {e}
    requires SegmentAdded(fr, bs, be, cs, next, fr', cs', next', s, e)
    requires OnGridEdge(s, f.nx, f.ny) && OnGridEdge(e, f.nx, f.ny)
    requires StartOwner(f, EdgeOf(s)) == pos && EndOwner(f, EdgeOf(e)) == pos
    ensures ScanState(f, fr', bs', be', cs', next', pos.(k := pos.k + 1))
  {
    OwnedAfterStep(f, bs, be, bs', be', s, e, pos);
    OnGridAfterAdd(fr, bs, be, cs, next, fr', cs', next', s, e, f.nx, f.ny);
  }

  /** The first nRings contours are closed rings; the rest are open, with distinct end points. */
  predicate RingsThenOpen(contours: seq<seq<Point>>, nRings: int)
  {
    0 <= nRings <= |contours| &&
    (forall k | 0 <= k < nRings :: IsRing(contours[k])) &&
    (forall k | nRings <= k < |contours| :: |contours[k]| >= 2 && contours[k][0] != Last(contours[k]))
  }

  /** The cell-local table point t of cell (i, j), in grid-index coordinates. */
  function Offset(t: Point, i: int, j: int): Point
  {
    Point(t.x + i as real, t.y + j as real)
  }

  /** The value one interpolation step would add, or NaN where the float division has no real value. */
  function InterpolationOffset(value: real, lb: Sample, ub: Sample): Sample
  {
    if lb.Num? && ub.Num? && ub.v != lb.v then Num((value - lb.v) / (ub.v - lb.v)) else NaN
  }

  function AddOffset(a: Sample, d: Sample): Sample
  {
    if a.Num? && d.Num? then Num(a.v + d.v) else NaN
  }

  lemma OwnedBeforeMono(f: Field, bs: map<Point, nat>, be: map<Point, nat>, p: Pos, q: Pos)
    requires OwnedBefore(f, bs, be, p) && Before(p, q)
    ensures OwnedBefore(f, bs, be, q)
  {
  }

  /** The fragments flushed at the end are open: at least two points, first and last distinct. */
  lemma FlushedAreOpen(fr: map<nat, seq<Point>>, bs: map<Point, nat>, be: map<Point, nat>, next: nat, order: seq<nat>)
    requires Stitched(fr, bs, be, next)
    requires forall k | 0 <= k < |order| :: order[k] in fr
    ensures forall k | 0 <= k < |order| ::
      |Emitted(fr, order)[k]| >= 2 && Emitted(fr, order)[k][0] != Last(Emitted(fr, order)[k])
  {
    forall k | 0 <= k < |order|
      ensures |Emitted(fr, order)[k]| >= 2 && Emitted(fr, order)[k][0] != Last(Emitted(fr, order)[k])
    {
      var c := fr[order[k]];
      assert c[0] in bs && Last(c) in be;
    }
  }

  /** Rings on the grid followed by the flushed fragments: rings first, then open contours, all on the grid. */
  lemma FinalContours(rings: seq<seq<Point>>, fr: map<nat, seq<Point>>, bs: map<Point, nat>, be: map<Point, nat>, next: nat,
                      order: seq<nat>, nx: int, ny: int)
    requires RingsOnGrid(rings, nx, ny) && Stitched(fr, bs, be, next) && FragsOnGrid(fr, nx, ny)
    requires forall k | 0 <= k < |order| :: order[k] in fr
    ensures RingsThenOpen(rings + Emitted(fr, order), |rings|)
    ensures forall c | c in rings + Emitted(fr, order) :: AllOnGrid(c, nx, ny)
  {
    var flushed := Emitted(fr, order);
    var all := rings + flushed;
    FlushedAreOpen(fr, bs, be, next, order);
    forall k | 0 <= k < |rings| ensures IsRing(all[k]) {
      assert all[k] == rings[k] && rings[k] in rings;
    }
    forall k | |rings| <= k < |all| ensures |all[k]| >= 2 && all[k][0] != Last(all[k]) {
      assert all[k] == flushed[k - |rings|];
    }
    forall c | c in all ensures AllOnGrid(c, nx, ny) {
      if c !in rings {
        var k :| 0 <= k < |flushed| && flushed[k] == c;
        assert c == fr[order[k]];
      }
    }
  }

  /**
   * Extracts the contours of one level from an nx-by-ny grid (row-major, x
   * fastest). The scan emits rings as they close; the fragments left at the
   * end are open contours touching the grid boundary, appended afterwards.
   * Every vertex is a cell-edge midpoint in grid-index coordinates: the
   * interpolation pass changes nothing.
   */
  method MakeContours(grid: seq<Sample>, nx: int, ny: int, value: real) returns (contours: seq<seq<Point>>)
    requires 0 <= nx && 0 <= ny && nx * ny <= |grid|
    ensures forall c | c in contours :: AllOnGrid(c, nx, ny)
    ensures exists nRings :: RingsThenOpen(contours, nRings)
    ensures ContourPairs(contours) == GridSegments(Field(grid, nx, ny, value))
  {
    var f := Field(grid, nx, ny, value);
    var b := new ContourBuilder();
    ScanStart(f, b);
    ScanGrid(f, b);
    ghost var fr, bs, be, next, rings := b.frags, b.byStart, b.byEnd, b.nextId, b.contours;
    ghost var order := b.Flush();
    contours := b.contours;
    Finished(f, rings, fr, bs, be, next, order);
    InterpolationPass(grid, nx, ny, value, contours);
  }

  /** The state the scan ends in, followed by the flush, meets the extraction's three promises. */
  lemma Finished(f: Field, rings: seq<seq<Point>>, fr: map<nat, seq<Point>>, bs: map<Point, nat>, be: map<Point, nat>, next: nat,
                 order: seq<nat>)
    requires ScanState(f, fr, bs, be, rings, next, Pos(if f.nx >= 1 then f.nx - 1 else 0, 0, 0))
    requires PairsState(f, fr, rings, Pos(if f.nx >= 1 then f.nx - 1 else 0, 0, 0))
    requires Distinct(order) && forall id :: id in order <==> id in fr
    ensures forall c | c in rings + Emitted(fr, order) :: AllOnGrid(c, f.nx, f.ny)
    ensures RingsThenOpen(rings + Emitted(fr, order), |rings|)
    ensures ContourPairs(rings + Emitted(fr, order)) == GridSegments(f)
  {
    FinalContours(rings, fr, bs, be, next, order, f.nx, f.ny);
    FinalPairs(f, rings, fr, order, if f.nx >= 1 then f.nx - 1 else 0);
  }

  /** The fresh builder meets the scan invariant before the first cell. */
  lemma ScanStart(f: Field, b: ContourBuilder)
    requires b.frags == map[] && b.byStart == map[] && b.byEnd == map[] && b.contours == []
    ensures ScanInvariant(f, b, Pos(0, 0, 0))
  {
    assert ScannedSegments(f, Pos(0, 0, 0)) == {};
  }

  /** The columns 0 .. nx - 2 of the scan, in order. */
  method ScanGrid(f: Field, b: ContourBuilder)
    requires f.WellFormed()
    requires ScanInvariant(f, b, Pos(0, 0, 0))
    modifies b
    ensures ScanInvariant(f, b, Pos(if f.nx >= 1 then f.nx - 1 else 0, 0, 0))
  {
    var i := 0;
    while i < f.nx - 1
      invariant 0 <= i <= (if f.nx >= 1 then f.nx - 1 else 0)
      invariant ScanInvariant(f, b, Pos(i, 0, 0))
    {
      ScanColumn(f, b, i);
      i := i + 1;
    }
  }

  /** After the last column, the rings and the flushed fragments are drawn with exactly the grid's segments. */
  lemma FinalPairs(f: Field, rings: seq<seq<Point>>, fr: map<nat, seq<Point>>, order: seq<nat>, i: int)
    requires PairsState(f, fr, rings, Pos(i, 0, 0)) && i == (if f.nx >= 1 then f.nx - 1 else 0)
    requires Distinct(order) && forall id :: id in order <==> id in fr
    ensures ContourPairs(rings + Emitted(fr, order)) == GridSegments(f)
  {
    ScannedAll(f, i);
    ContourPairsConcat(rings, Emitted(fr, order));
    EmittedPairs(fr, order);
  }

  /** The cells (i, 0) .. (i, ny - 2) of the scan, in order. */
  method ScanColumn(f: Field, b: ContourBuilder, i: int)
    requires f.WellFormed() && 0 <= i < f.nx - 1
    requires ScanInvariant(f, b, Pos(i, 0, 0))
    modifies b
    ensures ScanInvariant(f, b, Pos(i + 1, 0, 0))
  {
    var j := 0;
    while j < f.ny - 1
      invariant 0 <= j <= (if f.ny >= 1 then f.ny - 1 else 0)
      invariant ScanInvariant(f, b, Pos(i, j, 0))
    {
      ScanCell(f, b, i, j);
      OwnedBeforeMono(f, b.byStart, b.byEnd, Pos(i, j, NSEGS), Pos(i, j + 1, 0));
      ScannedNextCell(f, i, j);
      j := j + 1;
    }
    OwnedBeforeMono(f, b.byStart, b.byEnd, Pos(i, j, 0), Pos(i + 1, 0, 0));
    ScannedNextColumn(f, i, j);
  }

  /**
   * The scan of cell (i, j): its corner samples, its case code and the used
   * slots of the table entry, each stitched as one segment.
   */
  method ScanCell(f: Field, b: ContourBuilder, i: int, j: int)
    requires f.WellFormed() && 0 <= i < f.nx - 1 && 0 <= j < f.ny - 1
    requires ScanInvariant(f, b, Pos(i, j, 0))
    modifies b
    ensures ScanInvariant(f, b, Pos(i, j, NSEGS))
  {
    var grid, nx := f.grid, f.nx;
    IndexInBounds(nx, f.ny, i, j);
    IndexInBounds(nx, f.ny, i + 1, j);
    IndexInBounds(nx, f.ny, i, j + 1);
    IndexInBounds(nx, f.ny, i + 1, j + 1);
    var esw := grid[i + nx * j];
    var ese := grid[(i + 1) + nx * j];
    var enw := grid[i + nx * (j + 1)];
    var ene := grid[(i + 1) + nx * (j + 1)];
    var code := CaseCode(esw, ese, ene, enw, f.value);
    assert code == Code(f, i, j);
    var iseg := 0;
    while iseg < NSEGS
      invariant 0 <= iseg <= NSEGS
      invariant ScanInvariant(f, b, Pos(i, j, iseg))
    {
      iseg := ScanSlot(f, b, i, j, code, iseg);
    }
  }

  /** Slot iseg of cell (i, j): its segment is stitched when the table entry uses the slot. */
  method ScanSlot(f: Field, b: ContourBuilder, i: int, j: int, code: nat, iseg: nat) returns (next: nat)
    requires 0 <= i < f.nx - 1 && 0 <= j < f.ny - 1 && iseg < NSEGS && code == Code(f, i, j)
    requires ScanInvariant(f, b, Pos(i, j, iseg))
    modifies b
    ensures next == iseg + 1
    ensures ScanInvariant(f, b, Pos(i, j, next))
  {
    if SlotUsed(code, iseg) {
      StitchSlot(f, b, i, j, code, iseg);
    } else {
      SkipSlot(f, b, i, j, iseg);
    }
    next := iseg + 1;
  }

  /** A used slot: its table segment, moved to cell (i, j), is stitched. */
  method StitchSlot(f: Field, b: ContourBuilder, i: int, j: int, code: nat, iseg: nat)
    requires 0 <= i < f.nx - 1 && 0 <= j < f.ny - 1 && iseg < NSEGS && code == Code(f, i, j) && SlotUsed(code, iseg)
    requires ScanInvariant(f, b, Pos(i, j, iseg))
    modifies b
    ensures ScanInvariant(f, b, Pos(i, j, iseg + 1))
  {
    TableShape();
    var (ts, te) := SEGS[code][iseg];
    var startPt := Offset(ts, i, j);
    var endPt := Offset(te, i, j);
    SlotSegment(f, i, j, iseg);
    AddSegmentStep(f, b, i, j, iseg, startPt, endPt);
  }

  /** An unused slot changes nothing but the scan position. */
  lemma SkipSlot(f: Field, b: ContourBuilder, i: int, j: int, iseg: nat)
    requires 0 <= i < f.nx - 1 && 0 <= j < f.ny - 1 && iseg < NSEGS && !SlotUsed(Code(f, i, j), iseg)
    requires ScanInvariant(f, b, Pos(i, j, iseg))
    ensures ScanInvariant(f, b, Pos(i, j, iseg + 1))
  {
    OwnedBeforeMono(f, b.byStart, b.byEnd, Pos(i, j, iseg), Pos(i, j, iseg + 1));
    ScannedStep(f, i, j, iseg);
  }

  /**
   * The segment in a used slot of an inner cell joins two distinct edge
   * midpoints of the grid, and that slot owns both of its ends.
   */
  lemma SlotSegment(f: Field, i: int, j: int, k: nat)
    requires 0 <= i < f.nx - 1 && 0 <= j < f.ny - 1 && k < NSEGS && SlotUsed(Code(f, i, j), k)
    ensures var (ts, te) := SEGS[Code(f, i, j)][k];
      OnGridEdge(Offset(ts, i, j), f.nx, f.ny) && OnGridEdge(Offset(te, i, j), f.nx, f.ny) &&
      Offset(ts, i, j) != Offset(te, i, j) &&
      StartOwner(f, EdgeOf(Offset(ts, i, j))) == Pos(i, j, k) && EndOwner(f, EdgeOf(Offset(te, i, j))) == Pos(i, j, k)
  {
    var (ts, te) := SEGS[Code(f, i, j)][k];
    UsedSlotsJoinMidpoints(Code(f, i, j), k);
    MidpointEdge(ts, i, j);
    MidpointEdge(te, i, j);
    SegmentOwners(f, i, j, k);
  }

  /** A cell-local midpoint offset by its cell is the midpoint of that cell edge, and names it. */
  lemma MidpointEdge(t: Point, i: int, j: int)
    requires IsMidpoint(t)
    ensures Offset(t, i, j) == EdgePoint(CellEdge(t, i, j))
    ensures EdgeOf(Offset(t, i, j)) == CellEdge(t, i, j)
  {
    OffsetIsEdgePoint(t, i, j);
    EdgeOfEdgePoint(CellEdge(t, i, j));
  }

  /**
   * The interpolation pass as the source writes it: every contour and every
   * point is copied first, and the interpolated coordinates are computed on
   * the copies, so the pass has no effect on the contours.
   */
  method InterpolationPass(grid: seq<Sample>, nx: int, ny: int, value: real, contours: seq<seq<Point>>)
    requires 0 <= nx && 0 <= ny && nx * ny <= |grid|
    requires forall c | c in contours :: AllOnGrid(c, nx, ny)
  {
    var ic := 0;
    while ic < |contours|
      invariant 0 <= ic <= |contours|
    {
      var contour := contours[ic];
      assert contour in contours;
      var ip := 0;
      while ip < |contour|
        invariant 0 <= ip <= |contour|
      {
        var pt := contour[ip];
        assert OnGridEdge(pt, nx, ny);
        var xFloor, yFloor := pt.x.Floor, pt.y.Floor;
        var il, iu, jl, ju := xFloor, xFloor, yFloor, yFloor;
        if xFloor as real != pt.x { iu := iu + 1; }
        if yFloor as real != pt.y { ju := ju + 1; }
        IndexInBounds(nx, ny, il, jl);
        IndexInBounds(nx, ny, iu, ju);
        var lb := grid[il + nx * jl];
        var ub := grid[iu + nx * ju];
        var px, py := Num(xFloor as real), Num(yFloor as real);
        if il != iu { px := AddOffset(px, InterpolationOffset(value, lb, ub)); }
        if jl != ju { py := AddOffset(py, InterpolationOffset(value, lb, ub)); }
        ip := ip + 1;
      }
      ic := ic + 1;
    }
  }

  /** A segment between two grid points keeps every fragment on the grid and every emitted contour a ring on the grid. */
  lemma OnGridAfterAdd(fr: map<nat, seq<Point>>, bs: map<Point, nat>, be: map<Point, nat>, cs: seq<seq<Point>>, next: nat,
                       fr': map<nat, seq<Point>>, cs': seq<seq<Point>>, next': nat, s: Point, e: Point, nx: int, ny: int)
    requires Stitched(fr, bs, be, next)
    requires SegmentAdded(fr, bs, be, cs, next, fr', cs', next', s, e)
    requires FragsOnGrid(fr, nx, ny) && RingsOnGrid(cs, nx, ny) && OnGridEdge(s, nx, ny) && OnGridEdge(e, nx, ny)
    ensures FragsOnGrid(fr', nx, ny) && RingsOnGrid(cs', nx, ny)
  {
    if s in be && e in bs && be[s] != bs[e] {
      AllOnGridConcat(fr[be[s]], fr[bs[e]], nx, ny);
    } else if s in be && e in bs {
      var c := fr[be[s]] + [fr[be[s]][0]];
      AllOnGridConcat(fr[be[s]], [fr[be[s]][0]], nx, ny);
      assert IsRing(c);
    } else if s in be {
      AllOnGridConcat(fr[be[s]], [e], nx, ny);
    } else if e in bs {
      AllOnGridConcat([s], fr[bs[e]], nx, ny);
    }
  }

  /** One segment of the scan at position (i, j, k), keeping the scan invariant. */
  method AddSegmentStep(f: Field, b: ContourBuilder, i: int, j: int, k: nat, s: Point, e: Point)
    requires ScanInvariant(f, b, Pos(i, j, k))
    requires OnGridEdge(s, f.nx, f.ny) && OnGridEdge(e, f.nx, f.ny) && s != e
    requires StartOwner(f, EdgeOf(s)) == Pos(i, j, k) && EndOwner(f, EdgeOf(e)) == Pos(i, j, k)
    requires 0 <= i < f.nx - 1 && 0 <= j < f.ny - 1 && k < NSEGS
    requires SlotUsed(Code(f, i, j), k) && (s, e) == CellSegment(f, i, j, k)
    modifies b
    ensures ScanInvariant(f, b, Pos(i, j, k + 1))
  {
    ghost var fr, cs, bs, be, next := b.frags, b.contours, b.byStart, b.byEnd, b.nextId;
    assert s !in bs && e !in be by {
      assert !Before(Pos(i, j, k), Pos(i, j, k));
    }
    b.AddSegment(s, e);
    ScanStateStep(f, fr, bs, be, cs, next, b.frags, b.byStart, b.byEnd, b.contours, b.nextId, s, e, Pos(i, j, k));
    PairsStateStep(f, fr, bs, be, cs, next, b.frags, b.contours, b.nextId, s, e, i, j, k);
  }

  // ----- the segments the contours are drawn with -----

  /** The segment slot k of cell (i, j) draws, in grid-index coordinates. */
  function CellSegment(f: Field, i: int, j: int, k: nat): (Point, Point)
    requires k < NSEGS
  {
    var (ts, te) := SEGS[Code(f, i, j)][k];
    (Offset(ts, i, j), Offset(te, i, j))
  }

  /** The segments of the used slots 0 .. k - 1 of cell (i, j). */
  function SlotSegments(f: Field, i: int, j: int, k: int): set<(Point, Point)>
    requires k <= NSEGS
    decreases k
  {
    if k <= 0 then {}
    else SlotSegments(f, i, j, k - 1) + (if SlotUsed(Code(f, i, j), k - 1) then {CellSegment(f, i, j, k - 1)} else {})
  }

  /** The segments of cells (i, 0) .. (i, m - 1). */
  function CellSegments(f: Field, i: int, m: int): set<(Point, Point)>
    decreases m
  {
    if m <= 0 then {} else CellSegments(f, i, m - 1) + SlotSegments(f, i, m - 1, NSEGS)
  }

  /** The segments of the cells of columns 0 .. n - 1. */
  function ColumnSegments(f: Field, n: int): set<(Point, Point)>
    decreases n
  {
    if n <= 0 then {} else ColumnSegments(f, n - 1) + CellSegments(f, n - 1, f.ny - 1)
  }

  /** The segments the table gives for the cells of the whole grid. */
  function GridSegments(f: Field): set<(Point, Point)>
  {
    ColumnSegments(f, f.nx - 1)
  }

  /** The segments of the used slots the scan visits before pos. */
  function ScannedSegments(f: Field, pos: Pos): set<(Point, Point)>
    requires pos.k <= NSEGS
  {
    ColumnSegments(f, pos.i) + CellSegments(f, pos.i, pos.j) + SlotSegments(f, pos.i, pos.j, pos.k)
  }

  /** The consecutive point pairs of a polyline: the segments it is drawn with. */
  function Pairs(c: seq<Point>): set<(Point, Point)>
  {
    if |c| < 2 then {} else {(c[0], c[1])} + Pairs(c[1..])
  }

  /** The pairs of all live fragments, gathered one fragment at a time. */
  ghost function FragPairs(fr: map<nat, seq<Point>>): set<(Point, Point)>
    decreases |fr|
  {
    if fr == map[] then {}
    else
      var id :| id in fr;
      FragPairs(fr - {id}) + Pairs(fr[id])
  }

  function ContourPairs(cs: seq<seq<Point>>): set<(Point, Point)>
  {
    if cs == [] then {} else ContourPairs(cs[..|cs| - 1]) + Pairs(Last(cs))
  }

  /** Joining two polylines keeps the pairs of both and adds the one across the join. */
  lemma {:induction false} PairsConcat(a: seq<Point>, b: seq<Point>)
    requires a != [] && b != []
    ensures Pairs(a + b) == Pairs(a) + Pairs(b) + {(Last(a), b[0])}
    decreases |a|
  {
    if |a| == 1 {
      assert (a + b)[1..] == b;
    } else {
      assert (a + b)[1..] == a[1..] + b;
      PairsConcat(a[1..], b);
    }
  }

  lemma PairsShort(c: seq<Point>)
    ensures |c| == 1 ==> Pairs(c) == {}
    ensures |c| == 2 ==> Pairs(c) == {(c[0], c[1])}
  {
  }

  /** Gathering the fragments' pairs does not depend on the order the fragments are taken in. */
  lemma {:induction false} FragPairsSplit(fr: map<nat, seq<Point>>, id: nat)
    requires id in fr
    ensures FragPairs(fr) == FragPairs(fr - {id}) + Pairs(fr[id])
    decreases |fr|
  {
    var x :| x in fr && FragPairs(fr) == FragPairs(fr - {x}) + Pairs(fr[x]);
    if x != id {
      var rest := fr - {x} - {id};
      assert fr - {x} - {id} == fr - {id} - {x};
      assert |fr - {x}| < |fr|;
      FragPairsSplit(fr - {x}, id);
      FragPairsSplit(fr - {id}, x);
    }
  }

  lemma FragPairsPut(fr: map<nat, seq<Point>>, id: nat, c: seq<Point>)
    ensures FragPairs(fr[id := c]) == FragPairs(fr - {id}) + Pairs(c)
  {
    FragPairsSplit(fr[id := c], id);
    assert fr[id := c] - {id} == fr - {id};
  }

  lemma {:induction false} ContourPairsConcat(a: seq<seq<Point>>, b: seq<seq<Point>>)
    ensures ContourPairs(a + b) == ContourPairs(a) + ContourPairs(b)
    decreases |b|
  {
    if b == [] {
      assert a + b == a;
    } else {
      var b' := b[..|b| - 1];
      assert (a + b)[..|a + b| - 1] == a + b';
      assert Last(a + b) == Last(b);
      ContourPairsConcat(a, b');
    }
  }

  lemma ContourPairsOne(c: seq<Point>)
    ensures ContourPairs([c]) == Pairs(c)
  {
    assert [c][..0] == [];
  }

  /** An enumeration that only names fragments kept in a smaller map lists the same contours from it. */
  lemma EmittedRestrict(fr: map<nat, seq<Point>>, fr': map<nat, seq<Point>>, order: seq<nat>)
    requires forall k | 0 <= k < |order| :: order[k] in fr' && order[k] in fr && fr'[order[k]] == fr[order[k]]
    ensures Emitted(fr, order) == Emitted(fr', order)
  {
  }

  /** Without its last identity, a duplicate-free enumeration of fr enumerates fr without that identity. */
  lemma DropLast(fr: map<nat, seq<Point>>, order: seq<nat>)
    requires order != [] && Distinct(order)
    requires forall id :: id in order <==> id in fr
    ensures Distinct(order[..|order| - 1])
    ensures forall x :: x in order[..|order| - 1] <==> x in fr - {Last(order)}
  {
    var id, order' := Last(order), order[..|order| - 1];
    forall x ensures x in order' <==> x in fr - {id} {
      if x in order' {
        var k :| 0 <= k < |order'| && order'[k] == x;
        assert order[k] == x && order[|order| - 1] == id;
      }
      if x in fr - {id} {
        assert x in order;
        var k :| 0 <= k < |order| && order[k] == x;
        assert k < |order| - 1 && order'[k] == x;
      }
    }
  }

  /** Listing every fragment once lists exactly the fragments' pairs. */
  lemma {:induction false} EmittedPairs(fr: map<nat, seq<Point>>, order: seq<nat>)
    requires Distinct(order)
    requires forall id :: id in order <==> id in fr
    ensures ContourPairs(Emitted(fr, order)) == FragPairs(fr)
    decreases |order|
  {
    if order == [] {
      assert fr == map[];
    } else {
      var id, order' := Last(order), order[..|order| - 1];
      var fr' := fr - {id};
      assert id in order;
      DropLast(fr, order);
      EmittedRestrict(fr, fr', order');
      EmittedPairs(fr', order');
      EmittedLast(fr, order);
      FragPairsSplit(fr, id);
    }
  }

  lemma EmittedLast(fr: map<nat, seq<Point>>, order: seq<nat>)
    requires order != [] && forall k | 0 <= k < |order| :: order[k] in fr
    ensures ContourPairs(Emitted(fr, order)) == ContourPairs(Emitted(fr, order[..|order| - 1])) + Pairs(fr[Last(order)])
  {
    var em := Emitted(fr, order);
    assert em[..|em| - 1] == Emitted(fr, order[..|order| - 1]);
    assert Last(em) == fr[Last(order)];
  }

  /** Every branch of the stitching step adds exactly the pair s -> e to the fragments and contours. */
  lemma PairsAfterAdd(fr: map<nat, seq<Point>>, bs: map<Point, nat>, be: map<Point, nat>, cs: seq<seq<Point>>, next: nat,
                      fr': map<nat, seq<Point>>, cs': seq<seq<Point>>, next': nat, s: Point, e: Point)
    requires Stitched(fr, bs, be, next)
    requires SegmentAdded(fr, bs, be, cs, next, fr', cs', next', s, e)
    ensures FragPairs(fr') + ContourPairs(cs') == FragPairs(fr) + ContourPairs(cs) + {(s, e)}
  {
    if s in be && e in bs && be[s] != bs[e] {
      MergePairs(fr, be[s], bs[e]);
    } else if s in be && e in bs {
      ClosePairs(fr, cs, be[s]);
    } else if s in be {
      var id := be[s];
      PairsConcat(fr[id], [e]);
      PairsShort([e]);
      FragPairsPut(fr, id, fr[id] + [e]);
      FragPairsSplit(fr, id);
    } else if e in bs {
      var id := bs[e];
      PairsConcat([s], fr[id]);
      PairsShort([s]);
      FragPairsPut(fr, id, [s] + fr[id]);
      FragPairsSplit(fr, id);
    } else {
      FragPairsPut(fr, next, [s, e]);
      assert fr - {next} == fr;
      PairsShort([s, e]);
    }
  }

  /** Splicing fragment id2 onto fragment id1 adds the pair across the join. */
  lemma MergePairs(fr: map<nat, seq<Point>>, id1: nat, id2: nat)
    requires id1 in fr && id2 in fr && id1 != id2 && fr[id1] != [] && fr[id2] != []
    ensures FragPairs((fr - {id2})[id1 := fr[id1] + fr[id2]]) == FragPairs(fr) + {(Last(fr[id1]), fr[id2][0])}
  {
    var a, b := fr[id1], fr[id2];
    PairsConcat(a, b);
    FragPairsPut(fr - {id2}, id1, a + b);
    assert (fr - {id2}) - {id1} == (fr - {id1}) - {id2};
    FragPairsSplit(fr, id1);
    FragPairsSplit(fr - {id1}, id2);
  }

  /** Closing fragment id into a ring moves its pairs to the contours and adds the closing pair. */
  lemma ClosePairs(fr: map<nat, seq<Point>>, cs: seq<seq<Point>>, id: nat)
    requires id in fr && fr[id] != []
    ensures FragPairs(fr - {id}) + ContourPairs(cs + [fr[id] + [fr[id][0]]]) ==
            FragPairs(fr) + ContourPairs(cs) + {(Last(fr[id]), fr[id][0])}
  {
    var a := fr[id];
    PairsConcat(a, [a[0]]);
    PairsShort([a[0]]);
    ContourPairsConcat(cs, [a + [a[0]]]);
    ContourPairsOne(a + [a[0]]);
    FragPairsSplit(fr, id);
  }

  /** One slot adds its segment when the table entry uses it. */
  lemma ScannedStep(f: Field, i: int, j: int, k: nat)
    requires k < NSEGS
    ensures ScannedSegments(f, Pos(i, j, k + 1)) ==
            ScannedSegments(f, Pos(i, j, k)) + (if SlotUsed(Code(f, i, j), k) then {CellSegment(f, i, j, k)} else {})
  {
  }

  /** The last slot of a cell leads to the next cell, and the last cell of a column to the next column. */
  lemma ScannedNextCell(f: Field, i: int, j: int)
    requires 0 <= j
    ensures ScannedSegments(f, Pos(i, j, NSEGS)) == ScannedSegments(f, Pos(i, j + 1, 0))
  {
  }

  lemma ScannedNextColumn(f: Field, i: int, j: int)
    requires 0 <= i && j == (if f.ny >= 1 then f.ny - 1 else 0)
    ensures ScannedSegments(f, Pos(i, j, 0)) == ScannedSegments(f, Pos(i + 1, 0, 0))
  {
    var a, c := ColumnSegments(f, i), CellSegments(f, i, f.ny - 1);
    assert ColumnSegments(f, i + 1) == a + c;
    if f.ny < 1 {
      assert CellSegments(f, i, j) == {} == c;
    }
    UnionEmpty(a + c);
  }

  lemma UnionEmpty<T>(a: set<T>)
    ensures a + {} == a && a + {} + {} == a
  {
  }

  lemma ScannedAll(f: Field, i: int)
    requires i == (if f.nx >= 1 then f.nx - 1 else 0)
    ensures ScannedSegments(f, Pos(i, 0, 0)) == GridSegments(f)
  {
    assert ColumnSegments(f, i) == ColumnSegments(f, f.nx - 1);
  }

  // ----- contour levels -----

  /** A running extremum: the infinities it starts from, or a sample value. */
  datatype Ext = NegInf | Fin(r: real) | PosInf

  /** g < m as the float comparison evaluates it (false for NaN). */
  predicate Less(g: Sample, m: Ext)
  {
    g.Num? && (m.PosInf? || (m.Fin? && g.v < m.r))
  }

  /** g > m as the float comparison evaluates it (false for NaN). */
  predicate Greater(g: Sample, m: Ext)
  {
    g.Num? && (m.NegInf? || (m.Fin? && g.v > m.r))
  }

  /**
   * One step of the extrema loop as written: the minimum is updated first,
   * and the maximum is then replaced when the sample exceeds the updated
   * running MINIMUM.
   */
  function ExtremaStep(acc: (Ext, Ext), g: Sample): (Ext, Ext)
  {
    var mn := if Less(g, acc.0) then Fin(g.v) else acc.0;
    var mx := if Greater(g, mn) then Fin(g.v) else acc.1;
    (mn, mx)
  }

  /** The (minval, maxval) pair the loop leaves after visiting s from left to right. */
  function Extrema(s: seq<Sample>): (Ext, Ext)
  {
    if s == [] then (PosInf, NegInf) else ExtremaStep(Extrema(s[..|s| - 1]), s[|s| - 1])
  }

  /** The least numeric sample, or +infinity when there is none. */
  function TrueMin(s: seq<Sample>): (m: Ext)
    ensures m.NegInf? == false
  {
    if s == [] then PosInf
    else
      var m := TrueMin(s[..|s| - 1]);
      if Less(s[|s| - 1], m) then Fin(s[|s| - 1].v) else m
  }

  /** The greatest numeric sample, or -infinity when there is none. */
  function TrueMax(s: seq<Sample>): (m: Ext)
    ensures m.PosInf? == false
  {
    if s == [] then NegInf
    else
      var m := TrueMax(s[..|s| - 1]);
      if Greater(s[|s| - 1], m) then Fin(s[|s| - 1].v) else m
  }

  predicate ExtLe(a: Ext, b: Ext)
  {
    a.NegInf? || b.PosInf? || (a.Fin? && b.Fin? && a.r <= b.r)
  }

  /** The running minimum of the loop is the true minimum. */
  lemma {:induction false} ExtremaMinIsTrueMin(s: seq<Sample>)
    ensures Extrema(s).0 == TrueMin(s)
  {
    if s != [] {
      ExtremaMinIsTrueMin(s[..|s| - 1]);
    }
  }

  /**
   * The running maximum of the loop is -infinity or some numeric sample at
   * above the final minimum and at most the true maximum, so min < max
   * whenever both are finite: a maximum is only ever taken from a sample
   * that exceeds the running minimum of its turn.
   */
  lemma {:induction false} ExtremaMaxBounded(s: seq<Sample>)
    ensures Extrema(s).1.PosInf? == false
    ensures ExtLe(Extrema(s).1, TrueMax(s))
    ensures Extrema(s).1.Fin? ==> Extrema(s).0.Fin? && Extrema(s).0.r < Extrema(s).1.r
  {
    if s != [] {
      var init := s[..|s| - 1];
      ExtremaMaxBounded(init);
      ExtremaMinIsTrueMin(init);
      ExtremaMinIsTrueMin(s);
      TrueMaxBoundsMin(init);
    }
  }

  lemma {:induction false} TrueMaxBoundsMin(s: seq<Sample>)
    ensures TrueMax(s).Fin? <==> TrueMin(s).Fin?
    ensures TrueMax(s).Fin? ==> TrueMin(s).r <= TrueMax(s).r
  {
    if s != [] {
      TrueMaxBoundsMin(s[..|s| - 1]);
    }
  }

  /** On 1, 3, 2 the running maximum ends at 2: the 2 exceeds the running minimum 1 and overwrites the 3. */
  lemma RunningMaxLosesPeak()
    ensures Extrema([Num(1.0), Num(3.0), Num(2.0)]) == (Fin(1.0), Fin(2.0))
    ensures TrueMax([Num(1.0), Num(3.0), Num(2.0)]) == Fin(3.0)
  {
    assert [Num(1.0), Num(3.0), Num(2.0)][..2] == [Num(1.0), Num(3.0)];
    assert [Num(1.0), Num(3.0)][..1] == [Num(1.0)];
    assert [Num(1.0)][..0] == [];
  }

  /** On 3, 2, 1 no sample exceeds the running minimum, so the running maximum stays -infinity. */
  lemma RunningMaxStaysInfinite()
    ensures Extrema([Num(3.0), Num(2.0), Num(1.0)]).1 == NegInf
    ensures TrueMax([Num(3.0), Num(2.0), Num(1.0)]) == Fin(3.0)
  {
    assert [Num(3.0), Num(2.0), Num(1.0)][..2] == [Num(3.0), Num(2.0)];
    assert [Num(3.0), Num(2.0)][..1] == [Num(3.0)];
    assert [Num(3.0)][..0] == [];
  }

  function Floor(x: real): int { x.Floor }

  /** The m-th multiple of the contour interval. */
  function Multiple(m: int, interval: real): real { m as real * interval }
  function Ceil(x: real): int { -((-x).Floor) }

  /**
   * The levels for a finite range: the multiples of the interval from
   * ceil(lo / interval) * interval to floor(hi / interval) * interval, one
   * interval apart.
   */
  function LevelCount(lo: real, hi: real, interval: real): int
    requires interval != 0.0
  {
    Floor(hi / interval) - Ceil(lo / interval) + 1
  }

  function Levels(lo: real, hi: real, interval: real): (r: seq<real>)
    requires interval != 0.0
    ensures |r| == if LevelCount(lo, hi, interval) < 0 then 0 else LevelCount(lo, hi, interval)
  {
    var c := Ceil(lo / interval);
    var n := LevelCount(lo, hi, interval);
    seq(if n < 0 then 0 else n, k => (c + k) as real * interval)
  }

  lemma MulLe(a: real, b: real, c: real)
    requires a <= b && c > 0.0
    ensures a * c <= b * c
  {
  }

  lemma AddMul(a: real, b: real, c: real)
    ensures a * c + b * c == (a + b) * c
  {
  }

  lemma DivMul(a: real, c: real)
    requires c > 0.0
    ensures (a / c) * c == a
  {
  }

  /** When lo <= hi the count is never negative. */
  lemma LevelCountNonNegative(lo: real, hi: real, interval: real)
    requires interval > 0.0 && lo <= hi
    ensures LevelCount(lo, hi, interval) >= 0
  {
    assert lo / interval <= hi / interval by {
      MulLe(lo, hi, 1.0 / interval);
    }
  }

  /**
   * With a negative interval the quotients reverse their order, so a range
   * with lo < hi has no level: the count is zero or negative.
   */
  lemma LevelCountNonPositive(lo: real, hi: real, interval: real)
    requires interval < 0.0 && lo < hi
    ensures LevelCount(lo, hi, interval) <= 0
  {
    assert hi / interval < lo / interval by {
      assert lo * (1.0 / interval) > hi * (1.0 / interval) by {
        assert (hi - lo) * (1.0 / interval) < 0.0;
      }
    }
  }

  /** Every level is a multiple of the interval inside [lo, hi], and the levels increase by one interval. */
  lemma LevelsInRange(lo: real, hi: real, interval: real)
    requires interval > 0.0
    ensures forall k | 0 <= k < |Levels(lo, hi, interval)| ::
      lo <= Levels(lo, hi, interval)[k] <= hi &&
      Levels(lo, hi, interval)[k] == (Ceil(lo / interval) + k) as real * interval
    ensures forall k | 0 <= k < |Levels(lo, hi, interval)| - 1 ::
      Levels(lo, hi, interval)[k + 1] == Levels(lo, hi, interval)[k] + interval
  {
    var ls := Levels(lo, hi, interval);
    var c := Ceil(lo / interval);
    forall k | 0 <= k < |ls| ensures lo <= ls[k] <= hi {
      assert lo / interval <= (c + k) as real;
      assert ((c + k) as real) <= hi / interval;
      MulLe(lo / interval, (c + k) as real, interval);
      MulLe((c + k) as real, hi / interval, interval);
      DivMul(lo, interval);
      DivMul(hi, interval);
    }
  }

  /** Every multiple of the interval inside [lo, hi] is one of the levels. */
  lemma LevelsComplete(lo: real, hi: real, interval: real, m: int)
    requires interval > 0.0 && lo <= m as real * interval <= hi
    ensures m as real * interval in Levels(lo, hi, interval)
  {
    var c := Ceil(lo / interval);
    var x := m as real * interval;
    assert x / interval == m as real;
    assert lo / interval <= m as real by { MulLe(lo, x, 1.0 / interval); }
    assert m as real <= hi / interval by { MulLe(x, hi, 1.0 / interval); }
    assert c <= m <= Floor(hi / interval);
    assert Levels(lo, hi, interval)[m - c] == x;
  }

  /**
   * The levels the source computes for a grid, or None where the source has
   * no result: a zero interval or a running minimum or maximum that is still
   * infinite (the float-to-int conversion of the count has no defined value
   * then), or a negative count, which `resize` cannot allocate inside a
   * noexcept function, so the program terminates.  The running maximum stays
   * infinite on every grid where no sample exceeds the running minimum of
   * its turn: no sample, one sample, a constant grid, or 3, 2, 1.
   */
  function GridLevels(s: seq<Sample>, interval: real): Option<seq<real>>
  {
    var (mn, mx) := Extrema(s);
    if interval == 0.0 || !mn.Fin? || !mx.Fin? || LevelCount(mn.r, mx.r, interval) < 0 then None
    else Some(Levels(mn.r, mx.r, interval))
  }

  /**
   * When the levels are defined: a positive interval always gives levels
   * once both extrema are finite, and a negative one only when its count
   * is zero, in which case the level list is empty.
   */
  lemma GridLevelsDefined(s: seq<Sample>, interval: real)
    ensures GridLevels(s, interval).Some? <==>
      interval != 0.0 && Extrema(s).0.Fin? && Extrema(s).1.Fin? &&
      (interval > 0.0 || LevelCount(Extrema(s).0.r, Extrema(s).1.r, interval) == 0)
    ensures interval < 0.0 && GridLevels(s, interval).Some? ==> GridLevels(s, interval).value == []
  {
    ExtremaMaxBounded(s);
    var (mn, mx) := Extrema(s);
    if mn.Fin? && mx.Fin? {
      if interval > 0.0 {
        LevelCountNonNegative(mn.r, mx.r, interval);
      } else if interval < 0.0 {
        LevelCountNonPositive(mn.r, mx.r, interval);
      }
    }
  }

  /** Samples 1, 1.5 with interval -1 give the count floor(-1) + 1 = 0: no level at all. */
  lemma NegativeIntervalNoLevels()
    ensures GridLevels([Num(1.0), Num(1.5)], -1.0) == Some([])
  {
    var s := [Num(1.0), Num(1.5)];
    assert s[..1] == [Num(1.0)];
    assert [Num(1.0)][..0] == [];
    assert Extrema(s) == (Fin(1.0), Fin(1.5));
    assert LevelCount(1.0, 1.5, -1.0) == 0;
  }

  /** Samples 1, 3 with interval -1 give the count -1, which the source cannot allocate. */
  lemma NegativeIntervalNegativeCount()
    ensures GridLevels([Num(1.0), Num(3.0)], -1.0) == None
  {
    var s := [Num(1.0), Num(3.0)];
    assert s[..1] == [Num(1.0)];
    assert [Num(1.0)][..0] == [];
    assert Extrema(s) == (Fin(1.0), Fin(3.0));
    assert LevelCount(1.0, 3.0, -1.0) == -1;
  }

  /** The level loop of getContourLevels: running extrema as written, then the evenly spaced levels. */
  method GetContourLevels(grid: seq<Sample>, nx: int, ny: int, interval: real) returns (levels: Option<seq<real>>)
    requires 0 <= nx * ny <= |grid|
    ensures levels == GridLevels(grid[..nx * ny], interval)
  {
    var minval, maxval := RunningExtrema(grid, nx * ny);
    if interval == 0.0 || !minval.Fin? || !maxval.Fin? {
      return None;
    }
    var lowestContour := Ceil(minval.r / interval) as real * interval;
    var highestContour := Floor(maxval.r / interval) as real * interval;
    var nContours := Floor((highestContour - lowestContour) / interval) + 1;
    assert (highestContour - lowestContour) / interval
        == (Floor(maxval.r / interval) - Ceil(minval.r / interval)) as real;
    assert nContours == LevelCount(minval.r, maxval.r, interval);
    if nContours < 0 {
      return None;
    }
    var out := FillLevels(lowestContour, interval, nContours);
    LevelsFromLowest(minval.r, maxval.r, interval, out[..]);
    levels := Some(out[..]);
  }

  /** The extrema loop over the first n samples, with the comparisons as written. */
  method RunningExtrema(grid: seq<Sample>, n: nat) returns (minval: Ext, maxval: Ext)
    requires n <= |grid|
    ensures (minval, maxval) == Extrema(grid[..n])
  {
    minval, maxval := PosInf, NegInf;
    var idx := 0;
    while idx < n
      invariant 0 <= idx <= n
      invariant (minval, maxval) == Extrema(grid[..idx])
    {
      assert grid[..idx + 1][..idx] == grid[..idx];
      minval := if Less(grid[idx], minval) then Fin(grid[idx].v) else minval;
      maxval := if Greater(grid[idx], minval) then Fin(grid[idx].v) else maxval;
      idx := idx + 1;
    }
  }

  /** `contours[icntr] = lowest_contour + icntr * interval` for every level. */
  method FillLevels(lowest: real, interval: real, n: nat) returns (out: array<real>)
    ensures fresh(out) && out.Length == n
    ensures forall k | 0 <= k < n :: out[k] == lowest + k as real * interval
  {
    out := new real[n];
    for icntr := 0 to n
      invariant forall k | 0 <= k < icntr :: out[k] == lowest + k as real * interval
    {
      out[icntr] := lowest + icntr as real * interval;
    }
  }

  /** Levels counted up from the lowest multiple of the interval are the levels of [lo, hi]. */
  lemma LevelsFromLowest(lo: real, hi: real, interval: real, out: seq<real>)
    requires interval != 0.0
    requires |out| == LevelCount(lo, hi, interval)
    requires forall k | 0 <= k < |out| :: out[k] == Ceil(lo / interval) as real * interval + k as real * interval
    ensures out == Levels(lo, hi, interval)
  {
    forall k | 0 <= k < |out|
      ensures out[k] == Levels(lo, hi, interval)[k]
    {
      AddMul(Ceil(lo / interval) as real, k as real, interval);
    }
  }

  /**
   * The levels intended for a grid: the same spacing over the true range of
   * its numeric samples, None when there is no numeric sample or the
   * interval is not positive.
   */
  function IntendedGridLevels(s: seq<Sample>, interval: real): Option<seq<real>>
  {
    var (mn, mx) := (TrueMin(s), TrueMax(s));
    if interval <= 0.0 || !mn.Fin? || !mx.Fin? then None else Some(Levels(mn.r, mx.r, interval))
  }

  /**
   * The intended levels are exactly the multiples of the interval between the
   * least and the greatest numeric sample, in increasing order.
   */
  lemma IntendedLevelsSpan(s: seq<Sample>, interval: real)
    requires IntendedGridLevels(s, interval).Some?
    ensures TrueMin(s).Fin? && TrueMax(s).Fin?
    ensures forall k | 0 <= k < |IntendedGridLevels(s, interval).value| ::
      TrueMin(s).r <= IntendedGridLevels(s, interval).value[k] <= TrueMax(s).r
    ensures forall k | 0 <= k < |IntendedGridLevels(s, interval).value| - 1 ::
      IntendedGridLevels(s, interval).value[k] < IntendedGridLevels(s, interval).value[k + 1]
    ensures forall m: int | TrueMin(s).r <= Multiple(m, interval) <= TrueMax(s).r ::
      Multiple(m, interval) in IntendedGridLevels(s, interval).value
  {
    LevelsInRange(TrueMin(s).r, TrueMax(s).r, interval);
    forall m: int | TrueMin(s).r <= Multiple(m, interval) <= TrueMax(s).r
      ensures Multiple(m, interval) in IntendedGridLevels(s, interval).value
    {
      LevelsComplete(TrueMin(s).r, TrueMax(s).r, interval, m);
    }
  }

  /** A lower upper end only drops levels from the top. */
  lemma LevelsPrefix(lo: real, hi: real, hi': real, interval: real)
    requires interval > 0.0 && hi <= hi'
    ensures Levels(lo, hi, interval) <= Levels(lo, hi', interval)
  {
    MulLe(hi, hi', 1.0 / interval);
  }

  /**
   * The levels as written are a prefix of the intended ones: they start at
   * the same level but may stop short of the true maximum.  A negative
   * interval, which the intended version rejects, gives no level at all.
   */
  lemma GridLevelsArePrefix(s: seq<Sample>, interval: real)
    requires GridLevels(s, interval).Some?
    ensures interval > 0.0 ==>
      IntendedGridLevels(s, interval).Some? && GridLevels(s, interval).value <= IntendedGridLevels(s, interval).value
    ensures interval < 0.0 ==> GridLevels(s, interval).value == []
  {
    ExtremaMinIsTrueMin(s);
    ExtremaMaxBounded(s);
    GridLevelsDefined(s, interval);
    if interval > 0.0 {
      LevelsPrefix(TrueMin(s).r, Extrema(s).1.r, TrueMax(s).r, interval);
    }
  }

  /** On 1, 3, 2 with interval 1 the level 3 is missing. */
  lemma GridLevelsMissPeak()
    ensures GridLevels([Num(1.0), Num(3.0), Num(2.0)], 1.0) == Some([1.0, 2.0])
    ensures IntendedGridLevels([Num(1.0), Num(3.0), Num(2.0)], 1.0) == Some([1.0, 2.0, 3.0])
  {
    RunningMaxLosesPeak();
    var s := [Num(1.0), Num(3.0), Num(2.0)];
    assert s[..2] == [Num(1.0), Num(3.0)];
    assert [Num(1.0), Num(3.0)][..1] == [Num(1.0)];
    assert [Num(1.0)][..0] == [];
    assert TrueMin(s) == Fin(1.0);
    assert Levels(1.0, 2.0, 1.0) == [1.0, 2.0];
    assert Levels(1.0, 3.0, 1.0) == [1.0, 2.0, 3.0];
  }
}
