/**
 * The raw data field: a plate carree or Lambert grid read from a binary
 * header, the field's data, a copy of the data padded to power-of-two
 * dimensions for a texture (computed once and kept in a cache), and the
 * element-wise aggregation of several fields. Data values are real
 * numbers; the rounding of Float32Array storage is not modelled. Typed
 * array views read bytes in little-endian order.
 */
module RawDataFields {
  import opened Wrappers
  import MS = MarchingSquares
  import SG = StructuredGrids
  import Utils

  // ----- the cache -----

  /**
   * One getValue call on a cache holding `cached`: the value returned, or
   * what the computation throws, and what the cache holds afterwards. A
   * throw leaves the cache empty, so the next call computes again.
   */
  function CacheStep<A, R>(cached: Option<R>, compute: A -> Result<R>, args: A): (r: (Result<R>, Option<R>))
    ensures r.0.Ok? ==> r.1 == Some(r.0.value)
    ensures r.0.Err? ==> r.1 == None
    ensures cached.Some? ==> r == (Ok(cached.value), cached)
    ensures cached.None? ==> r.0 == compute(args)
  {
    if cached.Some? then (Ok(cached.value), cached)
    else match compute(args)
      case Ok(v) => (Ok(v), Some(v))
      case Err(e) => (Err(e), None)
  }

  /**
   * After a first call that succeeds every later call returns the first
   * call's value, whatever its arguments; after one that throws the cache
   * is still empty.
   */
  lemma CacheKeepsFirstValue<A, R>(compute: A -> Result<R>, first: A, later: seq<A>)
    ensures compute(first).Ok? ==> CacheRun(CacheStep(None, compute, first).1, compute, later) == Some(compute(first).value)
    ensures compute(first).Ok? ==> forall k | 0 <= k < |later| :: CacheStep(Some(compute(first).value), compute, later[k]).0 == compute(first)
    ensures compute(first).Err? ==> CacheStep(None, compute, first).1 == None
  {
    if compute(first).Ok? {
      CacheRunKeeps(Some(compute(first).value), compute, later);
    }
  }

  /** What the cache holds after a run of getValue calls. */
  function CacheRun<A, R>(cached: Option<R>, compute: A -> Result<R>, calls: seq<A>): Option<R>
    decreases |calls|
  {
    if |calls| == 0 then cached else CacheRun(CacheStep(cached, compute, calls[0]).1, compute, calls[1..])
  }

  lemma {:induction false} CacheRunKeeps<A, R>(cached: Option<R>, compute: A -> Result<R>, calls: seq<A>)
    requires cached.Some?
    ensures CacheRun(cached, compute, calls) == cached
    decreases |calls|
  {
    if |calls| > 0 {
      CacheRunKeeps(CacheStep(cached, compute, calls[0]).1, compute, calls[1..]);
    }
  }

  /** `Cache`: a computation, which may throw, and the value it produced on the first call that returned. */
  class Cache<A, R> {
    const computeValue: A -> Result<R>
    var cachedValue: Option<R>

    constructor(computeValue: A -> Result<R>)
      ensures this.computeValue == computeValue && cachedValue == None
    {
      this.computeValue := computeValue;
      cachedValue := None;
    }

    /** getValue(...args): computes while nothing is stored, afterwards returns the stored value. */
    method GetValue(args: A) returns (v: Result<R>)
      modifies this
      ensures (v, cachedValue) == CacheStep(old(cachedValue), computeValue, args)
    {
      if cachedValue.Some? {
        return Ok(cachedValue.value);
      }
      v := computeValue(args);
      if v.Ok? {
        cachedValue := Some(v.value);
      }
    }
  }

  // ----- grids read from a buffer -----

  datatype DataGrid =
    | PlateCarreeGrid(ni: nat, nj: nat, llLon: real, llLat: real, urLon: real, urLat: real)
    | LambertGrid(ni: nat, nj: nat)

  /** A grid read from a buffer and the number of bytes its header took. */
  datatype GridRead = GridRead(grid: DataGrid, nbytesread: nat)

  const UINT16_ALIGN: string := "start offset of Uint16Array should be a multiple of 2"
  const UINT16_LENGTH: string := "Invalid typed array length: 2"
  const FLOAT32_ALIGN: string := "start offset of Float32Array should be a multiple of 4"
  const FLOAT32_LENGTH: string := "Invalid typed array length: 4"

  newtype byte = b: int | 0 <= b < 0x100

  /** The unsigned 16-bit value of two bytes, low byte first. */
  function Uint16At(buf: seq<byte>, off: nat): (v: nat)
    requires off + 2 <= |buf|
    ensures v < 0x1_0000
  {
    buf[off] as nat + 0x100 * buf[off + 1] as nat
  }

  /** The two bytes of a 16-bit value, low byte first. */
  function Uint16Bytes(v: nat): (b: seq<byte>)
    requires v < 0x1_0000
    ensures |b| == 2 && Uint16At(b, 0) == v
  {
    [(v % 0x100) as byte, (v / 0x100) as byte]
  }

  /** The error of `new Uint16Array(buffer, off, 2)`, if it throws. */
  function DimsViewError(bufLen: nat, off: nat): (e: Option<string>)
    ensures e.None? <==> off % 2 == 0 && off + 4 <= bufLen
  {
    if off % 2 != 0 then Some(UINT16_ALIGN) else if off + 4 > bufLen then Some(UINT16_LENGTH) else None
  }

  /** PlateCarreeGrid.fromBuffer: ni, nj as two uint16 at off, the corners as four float32 at off + 4. */
  function PlateCarreeFromBuffer(buf: seq<byte>, off: nat, float32At: seq<byte> -> real): (r: Result<GridRead>)
    ensures r.Ok? <==> off % 4 == 0 && off + 20 <= |buf|
    ensures r.Ok? ==> r.value.nbytesread == 20 && r.value.grid.PlateCarreeGrid?
    ensures r.Ok? ==> r.value.grid.ni == Uint16At(buf, off) && r.value.grid.nj == Uint16At(buf, off + 2)
    ensures off % 2 != 0 ==> r == Err(UINT16_ALIGN)
  {
    AlignFacts(off);
    var e := DimsViewError(|buf|, off);
    if e.Some? then Err(e.value)
    else if (off + 4) % 4 != 0 then Err(FLOAT32_ALIGN)
    else if off + 4 + 16 > |buf| then Err(FLOAT32_LENGTH)
    else
      var o := off + 4;
      Ok(GridRead(PlateCarreeGrid(Uint16At(buf, off), Uint16At(buf, off + 2),
                                  float32At(buf[o..o + 4]), float32At(buf[o + 4..o + 8]),
                                  float32At(buf[o + 8..o + 12]), float32At(buf[o + 12..o + 16])), 20))
  }

  /** The alignments the two views of PlateCarreeGrid.fromBuffer check. */
  lemma AlignFacts(off: nat)
    ensures (off + 4) % 4 == off % 4
    ensures off % 4 == 0 ==> off % 2 == 0
  {
    var q := off / 4;
    assert off == 4 * q + off % 4;
    assert off + 4 == 4 * (q + 1) + off % 4;
    if off % 4 == 0 {
      assert off == 2 * (2 * q);
    }
  }

  /** LambertGrid.fromBuffer: ni, nj as two uint16 at off. */
  function LambertFromBuffer(buf: seq<byte>, off: nat): (r: Result<GridRead>)
    ensures r.Ok? <==> off % 2 == 0 && off + 4 <= |buf|
    ensures r.Ok? ==> r.value == GridRead(LambertGrid(Uint16At(buf, off), Uint16At(buf, off + 2)), 4)
  {
    var e := DimsViewError(|buf|, off);
    if e.Some? then Err(e.value) else Ok(GridRead(LambertGrid(Uint16At(buf, off), Uint16At(buf, off + 2)), 4))
  }

  /** The 20-byte header PlateCarreeGrid.fromBuffer reads, for a given float32 encoding. */
  function PlateCarreeHeader(g: DataGrid, float32Bytes: real -> seq<byte>): seq<byte>
    requires g.PlateCarreeGrid? && g.ni < 0x1_0000 && g.nj < 0x1_0000
  {
    Uint16Bytes(g.ni) + Uint16Bytes(g.nj)
      + float32Bytes(g.llLon) + float32Bytes(g.llLat) + float32Bytes(g.urLon) + float32Bytes(g.urLat)
  }

  /** A header written at an aligned offset is read back as the grid, and the next read starts after it. */
  lemma PlateCarreeRoundTrip(pre: seq<byte>, g: DataGrid, post: seq<byte>,
                             float32Bytes: real -> seq<byte>, float32At: seq<byte> -> real)
    requires g.PlateCarreeGrid? && g.ni < 0x1_0000 && g.nj < 0x1_0000 && |pre| % 4 == 0
    requires forall x | x in [g.llLon, g.llLat, g.urLon, g.urLat] :: |float32Bytes(x)| == 4 && float32At(float32Bytes(x)) == x
    ensures PlateCarreeFromBuffer(pre + PlateCarreeHeader(g, float32Bytes) + post, |pre|, float32At) == Ok(GridRead(g, 20))
  {
    var b0, b1, b2, b3 := float32Bytes(g.llLon), float32Bytes(g.llLat), float32Bytes(g.urLon), float32Bytes(g.urLat);
    assert g.llLon in [g.llLon, g.llLat, g.urLon, g.urLat];
    assert g.llLat in [g.llLon, g.llLat, g.urLon, g.urLat];
    assert g.urLon in [g.llLon, g.llLat, g.urLon, g.urLat];
    assert g.urLat in [g.llLon, g.llLat, g.urLon, g.urLat];
    var u, v := Uint16Bytes(g.ni), Uint16Bytes(g.nj);
    var buf := pre + PlateCarreeHeader(g, float32Bytes) + post;
    var n := |pre|;
    assert buf == pre + u + v + b0 + b1 + b2 + b3 + post;
    assert buf[n..n + 2] == u && buf[n + 2..n + 4] == v;
    assert buf[n + 4..n + 8] == b0 && buf[n + 8..n + 12] == b1;
    assert buf[n + 12..n + 16] == b2 && buf[n + 16..n + 20] == b3;
    assert Uint16At(buf, n) == Uint16At(u, 0) && Uint16At(buf, n + 2) == Uint16At(v, 0);
  }

  /** The Lambert header read back at an even offset. */
  lemma LambertRoundTrip(pre: seq<byte>, ni: nat, nj: nat, post: seq<byte>)
    requires ni < 0x1_0000 && nj < 0x1_0000 && |pre| % 2 == 0
    ensures LambertFromBuffer(pre + Uint16Bytes(ni) + Uint16Bytes(nj) + post, |pre|) == Ok(GridRead(LambertGrid(ni, nj), 4))
  {
    var u, v := Uint16Bytes(ni), Uint16Bytes(nj);
    var buf := pre + u + v + post;
    var n := |pre|;
    assert buf[n..n + 2] == u && buf[n + 2..n + 4] == v;
    assert Uint16At(buf, n) == Uint16At(u, 0) && Uint16At(buf, n + 2) == Uint16At(v, 0);
  }

  // ----- coordinates -----

  datatype Coords = Coords(lons: seq<MS.Sample>, lats: seq<MS.Sample>)

  /**
   * n evenly spaced values from lo to hi. With one value the spacing
   * divides by zero and the value is NaN.
   */
  function Spaced(lo: real, hi: real, n: nat): (s: seq<MS.Sample>)
    ensures |s| == n
    ensures n == 1 ==> s == [MS.NaN]
    ensures n >= 2 ==> s[0] == MS.Num(lo) && s[n - 1] == MS.Num(hi)
    ensures n >= 2 ==> forall i | 0 <= i < n :: s[i] == MS.Num(lo + i as real * ((hi - lo) / (n - 1) as real))
  {
    if n == 1 then [MS.NaN]
    else
      var d := if n == 0 then 0.0 else (hi - lo) / (n - 1) as real;
      var s := seq(n, i requires 0 <= i < n => MS.Num(lo + i as real * d));
      assert forall i | 0 <= i < n :: s[i] == MS.Num(lo + i as real * d);
      assert n >= 2 ==> s[n - 1] == MS.Num(hi) by {
        if n >= 2 {
          assert (n - 1) as real * ((hi - lo) / (n - 1) as real) == hi - lo;
        }
      }
      s
  }

  /** getCoords: the plate carree grid's evenly spaced longitudes and latitudes; a Lambert grid's are zero-filled. */
  function GridCoords(g: DataGrid): (c: Coords)
    ensures |c.lons| == g.ni && |c.lats| == g.nj
    ensures g.LambertGrid? ==> forall i | 0 <= i < g.ni :: c.lons[i] == MS.Num(0.0)
    ensures g.LambertGrid? ==> forall j | 0 <= j < g.nj :: c.lats[j] == MS.Num(0.0)
    ensures g.PlateCarreeGrid? && g.ni >= 2 ==> c.lons[0] == MS.Num(g.llLon) && c.lons[g.ni - 1] == MS.Num(g.urLon)
    ensures g.PlateCarreeGrid? && g.nj >= 2 ==> c.lats[0] == MS.Num(g.llLat) && c.lats[g.nj - 1] == MS.Num(g.urLat)
  {
    match g
    case PlateCarreeGrid(ni, nj, llLon, llLat, urLon, urLat) => Coords(Spaced(llLon, urLon, ni), Spaced(llLat, urLat, nj))
    case LambertGrid(ni, nj) => Coords(seq(ni, _ => MS.Num(0.0)), seq(nj, _ => MS.Num(0.0)))
  }

  // ----- padding to powers of two -----

  predicate IsPow2(p: nat)
    decreases p
  {
    p == 1 || (p >= 2 && p % 2 == 0 && IsPow2(p / 2))
  }

  /** `2 ** ceil(log2(n))`: the smallest power of two at least n, and 0 for n = 0. */
  function PadSize(n: nat): (p: nat)
    ensures n == 0 ==> p == 0
    ensures n >= 1 ==> IsPow2(p) && n <= p && (p == 1 || p / 2 < n)
    decreases n
  {
    if n <= 1 then n else 2 * PadSize((n + 1) / 2)
  }

  /** Of two powers of two, a smaller one is at most half the larger one. */
  lemma {:induction false} SmallerPow2(q: nat, p: nat)
    requires IsPow2(q) && IsPow2(p) && q < p
    ensures q <= p / 2
    decreases p
  {
    if q > 1 && p / 2 > 1 {
      SmallerPow2(q / 2, p / 2);
    }
  }

  /** PadSize(n) is the least power of two that is at least n. */
  lemma PadSizeLeast(n: nat, q: nat)
    requires n >= 1 && IsPow2(q) && n <= q
    ensures PadSize(n) <= q
  {
    if q < PadSize(n) {
      SmallerPow2(q, PadSize(n));
    }
  }

  /** A power of two is its own pad size. */
  lemma PadSizeOfPow2(n: nat)
    requires IsPow2(n)
    ensures PadSize(n) == n
  {
    PadSizeLeast(n, n);
  }

  /** `array.slice(a, b)`: negative positions count from the end, and both are clamped to the array. */
  function JsSlice<T>(s: seq<T>, a: int, b: int): (r: seq<T>)
    ensures 0 <= a <= b <= |s| ==> r == s[a..b]
    ensures 0 <= a <= b ==> |r| == (if b <= |s| then b - a else if a <= |s| then |s| - a else 0)
    ensures 0 <= a <= b ==> forall k | 0 <= k < |r| :: r[k] == s[a + k]
  {
    var from := if a < 0 then (if |s| + a < 0 then 0 else |s| + a) else (if a < |s| then a else |s|);
    var to := if b < 0 then (if |s| + b < 0 then 0 else |s| + b) else (if b < |s| then b else |s|);
    if from < to then s[from..to] else []
  }

  /**
   * The value at row r, column c of the padded data: the data inside the
   * grid, each row's last value once more at column ni, the last row once
   * more as row nj, and zero elsewhere. A row shorter than ni in the data
   * leaves zeros.
   */
  function PadValue(ni: nat, nj: nat, data: seq<real>, r: nat, c: nat): real
  {
    if r < nj && c < ni then SG.ReadOr(data, SG.Cell(ni, r, c), 0.0)
    else if r < nj && c == ni && ni > 0 then SG.ReadOr(data, SG.Cell(ni, r, ni - 1), 0.0)
    else if r == nj && nj > 0 && c < ni then SG.ReadOr(data, SG.Cell(ni, nj - 1, c), 0.0)
    else 0.0
  }

  /** The padded data the cache holds: its width, height and data. */
  datatype PaddedData = PaddedData(width: nat, height: nat, data: seq<real>)

  /** n zeros: a fresh Float32Array. */
  function Zeros(n: nat): (z: seq<real>)
    ensures |z| == n && forall k | 0 <= k < n :: z[k] == 0.0
  {
    seq(n, _ => 0.0)
  }

  /** Rows concatenated into one row-major array. */
  function Flatten<T>(rows: seq<seq<T>>): seq<T>
    decreases |rows|
  {
    if |rows| == 0 then [] else Flatten(rows[..|rows| - 1]) + rows[|rows| - 1]
  }

  ghost predicate Uniform<T>(rows: seq<seq<T>>, w: nat)
  {
    forall r | 0 <= r < |rows| :: |rows[r]| == w
  }

  lemma {:induction false} FlattenLength<T>(rows: seq<seq<T>>, w: nat)
    requires Uniform(rows, w)
    ensures |Flatten(rows)| == |rows| * w
    decreases |rows|
  {
    if |rows| > 0 {
      FlattenLength(rows[..|rows| - 1], w);
      assert (|rows| - 1) * w + w == |rows| * w;
    }
  }

  /** Row r, column c of rows of width w is at position r * w + c of the flattened array. */
  lemma {:induction false} FlattenAt<T>(rows: seq<seq<T>>, w: nat, r: nat, c: nat)
    requires Uniform(rows, w) && r < |rows| && c < w
    ensures SG.Cell(w, r, c) < |Flatten(rows)| && Flatten(rows)[SG.Cell(w, r, c)] == rows[r][c]
    decreases |rows|
  {
    var n := |rows| - 1;
    var init := rows[..n];
    assert Flatten(rows) == Flatten(init) + rows[n];
    FlattenLength(init, w);
    if r == n {
      assert SG.Cell(w, r, c) == |Flatten(init)| + c;
    } else {
      FlattenAt(init, w, r, c);
      SG.MulMono(r + 1, n, w);
      assert SG.Cell(w, r, c) < |Flatten(init)|;
    }
  }

  /** Row r of the padded data, w columns wide: PadValue for each of its columns. */
  function PadRow(ni: nat, nj: nat, data: seq<real>, w: nat, r: nat): (row: seq<real>)
    ensures |row| == w && forall c | 0 <= c < w :: row[c] == PadValue(ni, nj, data, r, c)
  {
    seq(w, c requires 0 <= c < w => PadValue(ni, nj, data, r, c))
  }

  /** The h rows of the padded data. */
  function PadRows(ni: nat, nj: nat, data: seq<real>, w: nat, h: nat): (rows: seq<seq<real>>)
    ensures |rows| == h && Uniform(rows, w)
    ensures forall r | 0 <= r < h :: rows[r] == PadRow(ni, nj, data, w, r)
  {
    seq(h, r requires 0 <= r < h => PadRow(ni, nj, data, w, r))
  }

  /** The padded copy of the data getPaddedData returns, rows of the padded width one after the other. */
  function Padded(ni: nat, nj: nat, data: seq<real>): (p: PaddedData)
    ensures p.width == PadSize(ni) && p.height == PadSize(nj) && |p.data| == p.width * p.height
  {
    var rows := PadRows(ni, nj, data, PadSize(ni), PadSize(nj));
    FlattenLength(rows, PadSize(ni));
    PaddedData(PadSize(ni), PadSize(nj), Flatten(rows))
  }

  /** Row r, column c of the padded data holds PadValue. */
  lemma PaddedAt(ni: nat, nj: nat, data: seq<real>, r: nat, c: nat)
    requires r < PadSize(nj) && c < PadSize(ni)
    ensures SG.Cell(PadSize(ni), r, c) < |Padded(ni, nj, data).data|
    ensures Padded(ni, nj, data).data[SG.Cell(PadSize(ni), r, c)] == PadValue(ni, nj, data, r, c)
  {
    FlattenAt(PadRows(ni, nj, data, PadSize(ni), PadSize(nj)), PadSize(ni), r, c);
  }

  /**
   * What the padded texture promises a grid of ni x nj values: every data
   * value at its row and column, each row's last value repeated in the
   * first padding column, the last row repeated in the first padding row,
   * and zeros in the rest of the padding.
   */
  lemma PaddedKeepsData(ni: nat, nj: nat, data: seq<real>, r: nat, c: nat)
    requires |data| == ni * nj && r < PadSize(nj) && c < PadSize(ni)
    ensures var p := Padded(ni, nj, data); var k := SG.Cell(p.width, r, c);
      && k < |p.data|
      && (r < nj && c < ni ==> SG.Cell(ni, r, c) < |data| && p.data[k] == data[SG.Cell(ni, r, c)])
      && (r < nj && c == ni ==> SG.Cell(ni, r, ni - 1) < |data| && p.data[k] == data[SG.Cell(ni, r, ni - 1)])
      && (r == nj && c < ni ==> SG.Cell(ni, nj - 1, c) < |data| && p.data[k] == data[SG.Cell(ni, nj - 1, c)])
      && (r > nj || c > ni || (r == nj && c >= ni) ==> p.data[k] == 0.0)
  {
    PaddedAt(ni, nj, data, r, c);
    if r < nj && c < ni {
      SG.CellInRange(ni, nj, r, c);
    } else if r < nj && c == ni {
      SG.CellInRange(ni, nj, r, ni - 1);
    } else if r == nj && c < ni {
      SG.CellInRange(ni, nj, nj - 1, c);
    }
  }

  /** s with src written over it from position off. */
  function Splice(s: seq<real>, src: seq<real>, off: nat): (r: seq<real>)
    requires off + |src| <= |s|
    ensures |r| == |s|
  {
    s[..off] + src + s[off + |src|..]
  }

  /** `data_pad.set(src, off)`: src copied into the array from off; the rest is unchanged. */
  method SetFrom(a: array<real>, src: seq<real>, off: nat)
    requires off + |src| <= a.Length
    modifies a
    ensures a[..] == Splice(old(a[..]), src, off)
  {
    ghost var s := a[..];
    var i := 0;
    while i < |src|
      invariant i <= |src|
      invariant forall k | 0 <= k < a.Length :: a[k] == if off <= k < off + i then src[k - off] else s[k]
    {
      a[off + i] := src[i];
      i := i + 1;
    }
    assert a[..] == Splice(s, src, off);
  }

  // ----- getPaddedData as written -----

  /** `target.set(src, off)` on a typed array: a RangeError when src does not fit. */
  function TypedSet(s: seq<real>, src: seq<real>, off: int): (r: Result<seq<real>>)
    ensures r.Ok? <==> 0 <= off && off + |src| <= |s|
    ensures r.Ok? ==> |r.value| == |s|
  {
    if 0 <= off && off + |src| <= |s| then Ok(Splice(s, src, off)) else Err("offset is out of bounds")
  }

  /** One pass of the row loop as written: the data row at irow * pw, then its last value at column ni. */
  function RowPassAsWritten(ni: nat, pw: nat, data: seq<real>, s: seq<real>, irow: nat): (r: Result<seq<real>>)
    ensures r.Ok? ==> |r.value| == |s|
  {
    match TypedSet(s, JsSlice(data, irow * ni, (irow + 1) * ni), irow * pw)
    case Err(e) => Err(e)
    case Ok(s1) => TypedSet(s1, JsSlice(data, (irow + 1) * ni - 1, (irow + 1) * ni), irow * pw + ni)
  }

  /** The row loop as written: every row's last value is written at column ni, whether or not the row has room. */
  function RowsAsWritten(ni: nat, nj: nat, pw: nat, data: seq<real>, s: seq<real>, irow: nat): (r: Result<seq<real>>)
    ensures r.Ok? ==> |r.value| == |s|
    decreases nj - irow
  {
    if irow >= nj then Ok(s)
    else
      match RowPassAsWritten(ni, pw, data, s, irow)
      case Err(e) => Err(e)
      case Ok(s2) => RowsAsWritten(ni, nj, pw, data, s2, irow + 1)
  }

  /** The copy of the last data row as written: into row nj, whether or not the height has room. */
  function LastRowAsWritten(ni: nat, nj: nat, pw: nat, data: seq<real>, s: seq<real>): (r: Result<seq<real>>)
    ensures r.Ok? ==> |r.value| == |s|
  {
    TypedSet(s, JsSlice(data, (nj - 1) * ni, nj * ni), nj * pw)
  }

  /** getPaddedData as written: the last data row is written as row nj, whether or not the height has room. */
  function PadAsWritten(ni: nat, nj: nat, data: seq<real>): (r: Result<PaddedData>)
    ensures r.Ok? ==> r.value.width == PadSize(ni) && r.value.height == PadSize(nj)
  {
    PadAsWrittenSized(ni, nj, data, PadSize(ni), PadSize(nj))
  }

  /** The padding as written into an array of pw columns and ph rows. */
  function PadAsWrittenSized(ni: nat, nj: nat, data: seq<real>, pw: nat, ph: nat): (r: Result<PaddedData>)
    ensures r.Ok? ==> r.value.width == pw && r.value.height == ph
  {
    match RowsAsWritten(ni, nj, pw, data, Zeros(pw * ph), 0)
    case Err(e) => Err(e)
    case Ok(s) =>
      match LastRowAsWritten(ni, nj, pw, data, s)
      case Err(e) => Err(e)
      case Ok(s1) => Ok(PaddedData(pw, ph, s1))
  }

  /**
   * The padding computation of getPaddedData, in place on a zeroed array
   * of the padded size, with the same row loop and final copy: a RangeError
   * from a copy that does not fit ends it.
   */
  method PadData(ni: nat, nj: nat, data: seq<real>) returns (r: Result<PaddedData>)
    ensures r == PadAsWritten(ni, nj, data)
  {
    var pw, ph := PadSize(ni), PadSize(nj);
    r := PadInto(ni, nj, data, pw, ph);
  }

  /** One pass of the row loop: the data row irow, then its last value at column ni. */
  method RowPass(pad: array<real>, ni: nat, pw: nat, data: seq<real>, irow: nat) returns (e: Option<string>)
    modifies pad
    ensures RowPassAsWritten(ni, pw, data, old(pad[..]), irow) == if e.None? then Ok(pad[..]) else Err(e.value)
  {
    var off := SG.Cell(pw, irow, 0);
    var row := JsSlice(data, irow * ni, (irow + 1) * ni);
    if off + |row| > pad.Length {
      return Some("offset is out of bounds");
    }
    SetFrom(pad, row, off);
    var last := JsSlice(data, (irow + 1) * ni - 1, (irow + 1) * ni);
    if off + ni + |last| > pad.Length {
      return Some("offset is out of bounds");
    }
    SetFrom(pad, last, off + ni);
    e := None;
  }

  /** The copy of the last data row into row nj. */
  method LastRowPass(pad: array<real>, ni: nat, nj: nat, pw: nat, data: seq<real>) returns (e: Option<string>)
    modifies pad
    ensures LastRowAsWritten(ni, nj, pw, data, old(pad[..])) == if e.None? then Ok(pad[..]) else Err(e.value)
  {
    var off := SG.Cell(pw, nj, 0);
    var row := JsSlice(data, (nj - 1) * ni, nj * ni);
    if off + |row| > pad.Length {
      return Some("offset is out of bounds");
    }
    SetFrom(pad, row, off);
    e := None;
  }

  /** The row loop and the last-row copy into an array of pw columns and ph rows. */
  method PadInto(ni: nat, nj: nat, data: seq<real>, pw: nat, ph: nat) returns (r: Result<PaddedData>)
    ensures r == PadAsWrittenSized(ni, nj, data, pw, ph)
  {
    var pad := new real[pw * ph](_ => 0.0);
    ghost var rows := RowsAsWritten(ni, nj, pw, data, Zeros(pw * ph), 0);
    assert pad[..] == Zeros(pw * ph);
    var irow: nat := 0;
    while irow < nj
      invariant irow <= nj
      invariant rows == RowsAsWritten(ni, nj, pw, data, pad[..], irow)
    {
      var e := RowPass(pad, ni, pw, data, irow);
      if e.Some? {
        return Err(e.value);
      }
      irow := irow + 1;
    }
    var e := LastRowPass(pad, ni, nj, pw, data);
    if e.Some? {
      return Err(e.value);
    }
    r := Ok(PaddedData(pw, ph, pad[..]));
  }

  /**
   * As written, getPaddedData throws for every non-empty grid whose number
   * of rows is a power of two: the copy of the last row into row nj does
   * not fit in a height of nj rows.
   */
  lemma PaddingThrowsOnPowerOfTwoRows(ni: nat, nj: nat, data: seq<real>)
    requires ni >= 1 && IsPow2(nj) && |data| == ni * nj
    ensures PadAsWritten(ni, nj, data).Err?
  {
    PadSizeOfPow2(nj);
    FullHeightThrows(ni, nj, data, PadSize(ni));
  }

  /** With a height of exactly nj rows, the copy of the last row into row nj does not fit. */
  lemma FullHeightThrows(ni: nat, nj: nat, data: seq<real>, pw: nat)
    requires ni >= 1 && nj >= 1 && |data| == ni * nj
    ensures PadAsWrittenSized(ni, nj, data, pw, nj).Err?
  {
    var rows := RowsAsWritten(ni, nj, pw, data, Zeros(pw * nj), 0);
    if rows.Ok? {
      LastRowDoesNotFit(ni, nj, pw, data, rows.value);
    }
  }

  lemma LastRowDoesNotFit(ni: nat, nj: nat, pw: nat, data: seq<real>, s: seq<real>)
    requires ni >= 1 && nj >= 1 && |data| == ni * nj && |s| == pw * nj
    ensures LastRowAsWritten(ni, nj, pw, data, s).Err?
  {
    var a, b := (nj - 1) * ni, nj * ni;
    assert a + ni == b;
    assert |JsSlice(data, a, b)| == ni;
  }

  /** The smallest such grid of three columns: ni = 3, nj = 4. */
  lemma PaddingThrowsFor3By4(data: seq<real>)
    requires |data| == 12
    ensures PadAsWritten(3, 4, data).Err?
  {
    assert IsPow2(4) by {
      assert IsPow2(2);
    }
    PaddingThrowsOnPowerOfTwoRows(3, 4, data);
  }

  // ----- the field -----

  /**
   * A raw data field: its grid, its data in row-major order, and the cache
   * of the padded data. The padding is getPaddedData's computation as
   * written; when it throws the cache stays empty (see the README's
   * findings for the corrected padding).
   */
  class RawDataField {
    const grid: DataGrid
    const data: seq<real>
    const padCache: Cache<(), PaddedData>

    /** The cache computes the padding, and holds only a padding that was computed without a throw. */
    ghost predicate Valid()
      reads this, padCache
    {
      && padCache.computeValue(()) == PadAsWritten(grid.ni, grid.nj, data)
      && (padCache.cachedValue.Some? ==> Ok(padCache.cachedValue.value) == PadAsWritten(grid.ni, grid.nj, data))
    }

    constructor(grid: DataGrid, data: seq<real>)
      ensures this.grid == grid && this.data == data && fresh(padCache) && padCache.cachedValue == None
      ensures Valid()
    {
      this.grid := grid;
      this.data := data;
      var g, d := grid, data;
      padCache := new Cache(_ => PadAsWritten(g.ni, g.nj, d));
    }

    /** getPaddedData(): the padded data, or the RangeError its computation throws, computed on the first call only. */
    method GetPaddedData() returns (p: Result<PaddedData>)
      requires Valid()
      modifies padCache
      ensures Valid() && p == PadAsWritten(grid.ni, grid.nj, data)
      ensures padCache.cachedValue == (if p.Ok? then Some(p.value) else None)
    {
      p := padCache.GetValue(());
    }
  }

  /** The data arrays of a list of fields. */
  function DataOf(args: seq<RawDataField>): (d: seq<seq<real>>)
    ensures |d| == |args| && forall i | 0 <= i < |args| :: d[i] == args[i].data
  {
    seq(|args|, i requires 0 <= i < |args| => args[i].data)
  }

  /** The k-th element of every array. */
  function Column(ds: seq<seq<real>>, k: nat): (c: seq<real>)
    requires forall i | 0 <= i < |ds| :: k < |ds[i]|
    ensures |c| == |ds| && forall i | 0 <= i < |ds| :: c[i] == ds[i][k]
  {
    seq(|ds|, i requires 0 <= i < |ds| => ds[i][k])
  }

  /**
   * aggregateFields(func, ...args): element k of the new field is func of
   * the k-th elements of all fields, up to the shortest one; the new field
   * has the first field's grid. With no field at all the source reads the
   * grid of an undefined field, so at least one is required.
   */
  method AggregateFields(func: seq<real> -> real, args: seq<RawDataField>) returns (f: RawDataField)
    requires |args| > 0
    ensures fresh(f) && f.Valid() && f.grid == args[0].grid
    ensures |f.data| == Utils.MinLength(DataOf(args))
    ensures forall k | 0 <= k < |f.data| :: f.data[k] == func(Column(DataOf(args), k))
  {
    var datas := DataOf(args);
    var zipped := Utils.Zip(datas);
    var agg := [];
    var k := 0;
    while k < |zipped|
      invariant k <= |zipped| && |agg| == k
      invariant forall n | 0 <= n < k :: agg[n] == func(zipped[n])
    {
      agg := agg + [func(zipped[k])];
      k := k + 1;
    }
    forall n | 0 <= n < |agg|
      ensures zipped[n] == Column(datas, n)
    {
    }
    f := new RawDataField(args[0].grid, agg);
  }
}
