/**
 * Small helpers shared by the plotting layers: hex colour parsing and
 * printing, the minimum zoom of a thinned grid point, and zip.
 */
module Utils {
  import opened Wrappers

  // ----- hex colours -----

  predicate IsHexDigit(c: char)
  {
    ('0' <= c <= '9') || ('a' <= c <= 'f') || ('A' <= c <= 'F')
  }

  /** The value of a hex digit, either case. */
  function HexValue(c: char): (v: nat)
    requires IsHexDigit(c)
    ensures v < 16
  {
    if '0' <= c <= '9' then (c as int - '0' as int)
    else if 'a' <= c <= 'f' then (c as int - 'a' as int + 10)
    else (c as int - 'A' as int + 10)
  }

  /** The lower-case digit of a value below 16, as toString(16) writes it. */
  function LowerDigit(v: nat): (c: char)
    requires v < 16
    ensures IsHexDigit(c) && HexValue(c) == v
  {
    if v < 10 then ('0' as int + v) as char else ('a' as int + v - 10) as char
  }

  function UpperChar(c: char): char
  {
    if 'a' <= c <= 'z' then (c as int - 'a' as int + 'A' as int) as char else c
  }

  function Upper(s: string): (r: string)
    ensures |r| == |s| && forall k | 0 <= k < |s| :: r[k] == UpperChar(s[k])
  {
    seq(|s|, k requires 0 <= k < |s| => UpperChar(s[k]))
  }

  predicate IsUpperHexDigit(c: char)
  {
    ('0' <= c <= '9') || ('A' <= c <= 'F')
  }

  predicate AllHex(s: string)
  {
    forall k | 0 <= k < |s| :: IsHexDigit(s[k])
  }

  /** The pattern matches at i: a '#' followed by six hex digits. */
  predicate HexAt(s: string, i: int)
  {
    0 <= i && i + 7 <= |s| && s[i] == '#' && AllHex(s[i + 1..i + 7])
  }

  /**
   * The digits the case-insensitive pattern #([a-f\d]{2}){3}([a-f\d]{2})?
   * captures at its leftmost match at or after position i: six digits, or
   * eight when two more hex digits follow.
   */
  function FindHex(s: string, i: nat): (r: Option<string>)
    requires i <= |s|
    ensures r.Some? <==> exists j | i <= j :: HexAt(s, j)
    ensures r.Some? ==> (|r.value| == 6 || |r.value| == 8) && AllHex(r.value)
    ensures r.Some? ==> exists j | i <= j :: HexAt(s, j) && j + 1 + |r.value| <= |s| && r.value == s[j + 1..j + 1 + |r.value|]
    decreases |s| - i
  {
    if i + 7 > |s| then
      assert forall j | i <= j :: !HexAt(s, j);
      None
    else if HexAt(s, i) then
      if i + 9 <= |s| && IsHexDigit(s[i + 7]) && IsHexDigit(s[i + 8]) then
        var t := s[i + 1..i + 9];
        assert AllHex(t) by {
          forall k | 0 <= k < 8 ensures IsHexDigit(t[k]) {
            if k < 6 {
              assert t[k] == s[i + 1..i + 7][k];
            }
          }
        }
        Some(s[i + 1..i + 9])
      else Some(s[i + 1..i + 7])
    else
      var r := FindHex(s, i + 1);
      assert forall j | i <= j :: HexAt(s, j) ==> i + 1 <= j;
      r
  }

  /** The byte values of consecutive digit pairs. */
  function PairValues(d: string): (r: seq<nat>)
    requires AllHex(d) && |d| % 2 == 0
    ensures |r| == |d| / 2
    ensures forall k | 0 <= k < |r| :: r[k] == 16 * HexValue(d[2 * k]) + HexValue(d[2 * k + 1]) && r[k] < 256
  {
    if d == [] then [] else [16 * HexValue(d[0]) + HexValue(d[1])] + PairValues(d[2..])
  }

  function Hex2RgbaMessage(s: string): string
  {
    "Got '" + s + "' in hex2rgba, which does not look like a hex color"
  }

  /** out_type defaults to 'float'; only 'float' divides by 255. */
  predicate IsFloatMode(mode: Option<string>)
  {
    mode.None? || mode.value == "float"
  }

  /** The components of a match in the requested mode. */
  function Components(bytes: seq<nat>, outType: Option<string>): (r: seq<real>)
    ensures |r| == |bytes|
  {
    seq(|bytes|, k requires 0 <= k < |bytes| =>
      if IsFloatMode(outType) then bytes[k] as real / 255.0 else bytes[k] as real)
  }

  /**
   * hex2rgba: the components of the first hex colour in the string, three
   * without alpha digits, four with them; an error when there is none.
   */
  function Hex2Rgba(hexstr: string, outType: Option<string>): (r: Result<seq<real>>)
    ensures r.Err? <==> !exists j | 0 <= j :: HexAt(hexstr, j)
    ensures r.Err? ==> r.error == Hex2RgbaMessage(hexstr)
    ensures r.Ok? ==> |r.value| == 3 || |r.value| == 4
    ensures r.Ok? && IsFloatMode(outType) ==> forall k | 0 <= k < |r.value| :: 0.0 <= r.value[k] <= 1.0
  {
    match FindHex(hexstr, 0)
    case None => Err(Hex2RgbaMessage(hexstr))
    case Some(d) => Ok(Components(PairValues(d), outType))
  }

  /** Number.prototype.toString(16) for an integer: lower-case digits, a '-' for negatives. */
  function ToHexString(n: int): (s: string)
    decreases if n < 0 then 1 - n else n
  {
    if n < 0 then "-" + ToHexString(-n)
    else if n < 16 then [LowerDigit(n)]
    else ToHexString(n / 16) + [LowerDigit(n % 16)]
  }

  function PadStart2(s: string): (r: string)
    ensures |s| >= 2 ==> r == s
  {
    if |s| >= 2 then s else seq(2 - |s|, _ => '0') + s
  }

  /** Math.round: the nearest integer, halves rounded up. */
  function Round(x: real): int
  {
    (x + 0.5).Floor
  }

  predicate AllIntegral(rgba: seq<real>)
  {
    forall k | 0 <= k < |rgba| :: rgba[k] == rgba[k].Floor as real
  }

  /** The integers rgba2hex prints: rounded c * 255 in float mode, the components themselves otherwise. */
  function ByteValues(rgba: seq<real>, inType: Option<string>): (r: seq<int>)
    ensures |r| == |rgba|
  {
    seq(|rgba|, k requires 0 <= k < |rgba| => if IsFloatMode(inType) then Round(rgba[k] * 255.0) else rgba[k].Floor)
  }

  function HexPairs(bytes: seq<int>): string
  {
    if bytes == [] then "" else Upper(PadStart2(ToHexString(bytes[0]))) + HexPairs(bytes[1..])
  }

  /** rgba2hex: '#' and two upper-case digits per component. */
  function Rgba2Hex(rgba: seq<real>, inType: Option<string>): (r: string)
    requires !IsFloatMode(inType) ==> AllIntegral(rgba)
    ensures |r| >= 1 && r[0] == '#'
  {
    "#" + HexPairs(ByteValues(rgba, inType))
  }

  lemma ByteValuesConcat(x: seq<real>, y: seq<real>, mode: Option<string>)
    ensures ByteValues(x + y, mode) == ByteValues(x, mode) + ByteValues(y, mode)
  {
    var l, r := ByteValues(x + y, mode), ByteValues(x, mode) + ByteValues(y, mode);
    forall k | 0 <= k < |l| ensures l[k] == r[k] {
      if k < |x| {
        assert (x + y)[k] == x[k];
      } else {
        assert (x + y)[k] == y[k - |x|];
      }
    }
  }

  lemma {:induction false} HexPairsConcat(x: seq<int>, y: seq<int>)
    ensures HexPairs(x + y) == HexPairs(x) + HexPairs(y)
    decreases |x|
  {
    if x == [] {
      assert x + y == y;
    } else {
      assert (x + y)[0] == x[0];
      assert (x + y)[1..] == x[1..] + y;
      HexPairsConcat(x[1..], y);
    }
  }

  /** A byte is printed as exactly two upper-case hex digits of its value. */
  lemma ByteDigits(b: int)
    requires 0 <= b < 256
    ensures Upper(PadStart2(ToHexString(b))) == [UpperChar(LowerDigit(b / 16)), UpperChar(LowerDigit(b % 16))]
  {
    if b < 16 {
      assert ToHexString(b) == [LowerDigit(b)];
    } else {
      assert ToHexString(b / 16) == [LowerDigit(b / 16)];
    }
  }

  lemma UpperDigitSameValue(c: char)
    requires IsHexDigit(c)
    ensures UpperChar(LowerDigit(HexValue(c))) == UpperChar(c)
    ensures IsUpperHexDigit(UpperChar(c))
  {
  }

  /** Bytes below 256 give two upper-case hex digits each. */
  lemma {:induction false} HexPairsShape(bytes: seq<int>)
    requires forall k | 0 <= k < |bytes| :: 0 <= bytes[k] < 256
    ensures |HexPairs(bytes)| == 2 * |bytes|
    ensures forall k | 0 <= k < |HexPairs(bytes)| :: IsUpperHexDigit(HexPairs(bytes)[k])
  {
    if bytes != [] {
      ByteDigits(bytes[0]);
      HexPairsShape(bytes[1..]);
    }
  }

  /** The pairs printed for the values of a digit string are those digits upper-cased. */
  lemma {:induction false} HexPairsOfDigits(d: string)
    requires AllHex(d) && |d| % 2 == 0
    ensures HexPairs(PairValues(d)) == Upper(d)
  {
    if d != [] {
      assert IsHexDigit(d[0]) && IsHexDigit(d[1]);
      PairDigits(d[0], d[1]);
      HexPairsOfDigits(d[2..]);
      HexPairsCons(16 * HexValue(d[0]) + HexValue(d[1]), PairValues(d[2..]));
      UpperSplit(d);
    }
  }

  /** Printing a leading byte then the rest. */
  lemma HexPairsCons(b: int, bs: seq<int>)
    ensures HexPairs([b] + bs) == Upper(PadStart2(ToHexString(b))) + HexPairs(bs)
  {
    assert ([b] + bs)[1..] == bs;
  }

  /** Upper-casing works character by character, so it splits after the first pair. */
  lemma UpperSplit(d: string)
    requires |d| >= 2
    ensures Upper(d) == [UpperChar(d[0]), UpperChar(d[1])] + Upper(d[2..])
  {
    var r := [UpperChar(d[0]), UpperChar(d[1])] + Upper(d[2..]);
    forall k | 0 <= k < |d|
      ensures Upper(d)[k] == r[k]
    {
      if k >= 2 {
        assert r[k] == Upper(d[2..])[k - 2];
      }
    }
  }

  /** One parsed pair of digits prints as the same two digits, upper-cased. */
  lemma PairDigits(c0: char, c1: char)
    requires IsHexDigit(c0) && IsHexDigit(c1)
    ensures Upper(PadStart2(ToHexString(16 * HexValue(c0) + HexValue(c1)))) == [UpperChar(c0), UpperChar(c1)]
  {
    var b := 16 * HexValue(c0) + HexValue(c1);
    ByteDigits(b);
    assert b / 16 == HexValue(c0) && b % 16 == HexValue(c1);
    UpperDigitSameValue(c0);
    UpperDigitSameValue(c1);
  }

  /** The integers printed for parsed components are the parsed bytes, in either mode. */
  lemma ByteValuesOfComponents(bytes: seq<nat>, mode: Option<string>)
    ensures !IsFloatMode(mode) ==> AllIntegral(Components(bytes, mode))
    ensures ByteValues(Components(bytes, mode), mode) == bytes
  {
    var rgba := Components(bytes, mode);
    forall k | 0 <= k < |rgba| ensures ByteValues(rgba, mode)[k] == bytes[k] {
      var b := bytes[k];
      if IsFloatMode(mode) {
        assert rgba[k] == b as real / 255.0;
        RoundScaledByte(b);
      } else {
        assert rgba[k] == b as real;
      }
    }
  }

  lemma RoundScaledByte(b: nat)
    ensures Round((b as real / 255.0) * 255.0) == b
  {
    assert (b as real / 255.0) * 255.0 == b as real;
  }

  /** Parsing then printing in the same mode gives back '#' and the matched digits upper-cased. */
  lemma HexRoundTrip(hexstr: string, mode: Option<string>)
    requires Hex2Rgba(hexstr, mode).Ok?
    ensures FindHex(hexstr, 0).Some?
    ensures !IsFloatMode(mode) ==> AllIntegral(Hex2Rgba(hexstr, mode).value)
    ensures Rgba2Hex(Hex2Rgba(hexstr, mode).value, mode) == "#" + Upper(FindHex(hexstr, 0).value)
  {
    var d := FindHex(hexstr, 0).value;
    ByteValuesOfComponents(PairValues(d), mode);
    HexPairsOfDigits(d);
  }

  /** Components in [0, 1] (float mode) or in [0, 255] (int mode) print as '#' and two upper-case digits each. */
  lemma Rgba2HexShape(rgba: seq<real>, inType: Option<string>)
    requires !IsFloatMode(inType) ==> AllIntegral(rgba)
    requires IsFloatMode(inType) ==> forall k | 0 <= k < |rgba| :: 0.0 <= rgba[k] <= 1.0
    requires !IsFloatMode(inType) ==> forall k | 0 <= k < |rgba| :: 0.0 <= rgba[k] <= 255.0
    ensures |Rgba2Hex(rgba, inType)| == 1 + 2 * |rgba|
    ensures forall k | 1 <= k < |Rgba2Hex(rgba, inType)| :: IsUpperHexDigit(Rgba2Hex(rgba, inType)[k])
  {
    var bytes := ByteValues(rgba, inType);
    forall k | 0 <= k < |bytes| ensures 0 <= bytes[k] < 256 {
      if IsFloatMode(inType) {
        assert 0.0 <= rgba[k] * 255.0 <= 255.0;
      }
    }
    HexPairsShape(bytes);
  }

  // ----- minimum zoom -----

  function Pow2(e: nat): (p: nat)
    ensures p >= 1
  {
    if e == 0 then 1 else 2 * Pow2(e - 1)
  }

  /** Exponents add: the thinning factors of repeated thinning multiply. */
  lemma {:induction false} Pow2Add(a: nat, b: nat)
    ensures Pow2(a + b) == Pow2(a) * Pow2(b)
  {
    if a > 0 {
      Pow2Add(a - 1, b);
      assert Pow2(a + b) == 2 * Pow2(a - 1 + b);
    }
  }

  predicate DividesBoth(f: nat, jlat: int, ilon: int)
    requires f >= 1
  {
    jlat % f == 0 && ilon % f == 0
  }

  /** The number of halvings of 2^e until it divides both indices. */
  function Halvings(jlat: int, ilon: int, e: nat): (h: nat)
    ensures h <= e
  {
    if e == 0 || DividesBoth(Pow2(e), jlat, ilon) then 0 else 1 + Halvings(jlat, ilon, e - 1)
  }

  /**
   * getMinZoom: starting at zoom 1, halve the thin factor and raise the zoom
   * until the factor divides both indices. The base must be a power of two,
   * 2^e (with any other base the loop does not reach 1).
   */
  method GetMinZoom(jlat: int, ilon: int, e: nat) returns (zoom: int)
    ensures zoom == 1 + Halvings(jlat, ilon, e)
  {
    zoom := 1;
    var k: nat := e;
    var thinFac := Pow2(e);
    while jlat % thinFac != 0 || ilon % thinFac != 0
      invariant k <= e && thinFac == Pow2(k)
      invariant zoom + Halvings(jlat, ilon, k) == 1 + Halvings(jlat, ilon, e)
      decreases k
    {
      assert k != 0;
      zoom := zoom + 1;
      thinFac := thinFac / 2;
      k := k - 1;
    }
  }

  /** A multiple of 2m is a multiple of m. */
  lemma HalfDivides(n: int, m: int)
    requires m >= 1 && n % (2 * m) == 0
    ensures n % m == 0
  {
    var q := n / (2 * m);
    assert n == m * (2 * q);
    var r := n % m;
    var d := n / m;
    assert n == m * d + r && 0 <= r < m;
    assert m * (2 * q - d) == r;
    SmallMultiple(m, 2 * q - d);
  }

  lemma SmallMultiple(m: int, x: int)
    requires m >= 1 && 0 <= m * x < m
    ensures x == 0
  {
  }

  /**
   * The minimum zoom is between 1 and e + 1; it is 1 exactly when 2^e
   * divides both indices; and 2^(e - zoom + 1) is the largest power of two
   * up to 2^e that divides both.
   */
  lemma {:induction false} MinZoomBounds(jlat: int, ilon: int, e: nat)
    ensures 0 <= Halvings(jlat, ilon, e) <= e
    ensures Halvings(jlat, ilon, e) == 0 <==> DividesBoth(Pow2(e), jlat, ilon)
    ensures DividesBoth(Pow2(e - Halvings(jlat, ilon, e)), jlat, ilon)
    ensures forall k | e - Halvings(jlat, ilon, e) < k <= e :: !DividesBoth(Pow2(k), jlat, ilon)
  {
    if e > 0 && !DividesBoth(Pow2(e), jlat, ilon) {
      MinZoomBounds(jlat, ilon, e - 1);
    } else if e == 0 {
      assert Pow2(0) == 1;
    }
  }

  // ----- zip -----

  function MinLength<T>(args: seq<seq<T>>): (m: nat)
    requires |args| > 0
    ensures forall i | 0 <= i < |args| :: m <= |args[i]|
    ensures exists i | 0 <= i < |args| :: m == |args[i]|
  {
    if |args| == 1 then |args[0]|
    else
      var m := MinLength(args[1..]);
      assert forall i | 1 <= i < |args| :: args[i] == args[1..][i - 1];
      if |args[0]| <= m then |args[0]| else m
  }

  /**
   * zip: tuples of the k-th elements of every argument, until the shortest
   * argument is exhausted. With no argument at all the generator never
   * stops, which is why at least one is required.
   */
  method Zip<T>(args: seq<seq<T>>) returns (tuples: seq<seq<T>>)
    requires |args| > 0
    ensures |tuples| == MinLength(args)
    ensures forall k, i | 0 <= k < |tuples| && 0 <= i < |args| :: |tuples[k]| == |args| && tuples[k][i] == args[i][k]
  {
    tuples := [];
    var k := 0;
    while true
      invariant 0 <= k <= MinLength(args) && |tuples| == k
      invariant forall n, i | 0 <= n < k && 0 <= i < |args| :: |tuples[n]| == |args| && tuples[n][i] == args[i][n]
      decreases MinLength(args) - k
    {
      var done := exists i | 0 <= i < |args| :: k >= |args[i]|;
      if done {
        break;
      }
      var current := seq(|args|, i requires 0 <= i < |args| => args[i][k]);
      tuples := tuples + [current];
      k := k + 1;
    }
  }

  // ----- argMin -----

  /**
   * The index of the least element, the first one on ties. The grids
   * import argMin from utils (src/grids/StructuredGrid.ts:98-99,
   * src/grids/UnstructuredGrid.ts:116); its definition lies outside
   * src/utils.ts as modelled here. The nearest-point samplers rely on
   * this behaviour: the index of a smallest distance, the first such
   * index on ties.
   */
  function ArgMin(s: seq<real>): (i: nat)
    requires |s| > 0
    ensures i < |s|
    ensures forall k | 0 <= k < |s| :: s[i] <= s[k]
    ensures forall k | 0 <= k < i :: s[i] < s[k]
  {
    if |s| == 1 then 0
    else
      var j := ArgMin(s[..|s| - 1]);
      if s[|s| - 1] < s[j] then |s| - 1 else j
  }

  // ----- numbers in template strings -----

  /** The decimal digit of a value below ten. */
  function DigitChar(d: nat): (c: char)
    requires d < 10
    ensures '0' <= c <= '9'
  {
    "0123456789"[d]
  }

  /** The value of a decimal digit. */
  function DigitValue(c: char): (d: nat)
    ensures '0' <= c <= '9' ==> d < 10
  {
    if '0' <= c <= '9' then (c as int - '0' as int) else 0
  }

  /** The value of a string of decimal digits: the number they spell. */
  function DecimalValue(s: string): nat
  {
    if |s| == 0 then 0 else DecimalValue(s[..|s| - 1]) * 10 + DigitValue(s[|s| - 1])
  }

  predicate AllDigits(s: string)
  {
    forall k | 0 <= k < |s| :: '0' <= s[k] <= '9'
  }

  /** `${n}` for a whole number n >= 0: its decimal digits, without leading zeros. */
  function NatToString(n: nat): (s: string)
    ensures |s| >= 1 && AllDigits(s)
    ensures |s| > 1 ==> s[0] != '0'
  {
    if n < 10 then [DigitChar(n)] else NatToString(n / 10) + [DigitChar(n % 10)]
  }

  /** `${i}` for a whole number i: a minus sign before the digits of a negative one. */
  function IntToString(i: int): (s: string)
    ensures i >= 0 ==> s == NatToString(i)
    ensures i < 0 ==> s == "-" + NatToString(-i)
  {
    if i < 0 then "-" + NatToString(-i) else NatToString(i)
  }

  lemma DigitRoundTrip(d: nat)
    requires d < 10
    ensures DigitValue(DigitChar(d)) == d
  {
    assert "0123456789"[d] as int == '0' as int + d;
  }

  /** The digits NatToString writes spell the number back. */
  lemma {:induction false} NatToStringValue(n: nat)
    ensures DecimalValue(NatToString(n)) == n
  {
    if n < 10 {
      DigitRoundTrip(n);
      assert NatToString(n)[..0] == [];
    } else {
      var s := NatToString(n / 10);
      NatToStringValue(n / 10);
      DigitRoundTrip(n % 10);
      assert (s + [DigitChar(n % 10)])[..|s|] == s;
    }
  }

  /** Different numbers give different strings. */
  lemma NatToStringInjective(m: nat, n: nat)
    requires NatToString(m) == NatToString(n)
    ensures m == n
  {
    NatToStringValue(m);
    NatToStringValue(n);
  }
}
