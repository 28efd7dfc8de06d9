/**
 * Typed-array writes at an advancing cursor, as the layer workers fill
 * their preallocated Float32Arrays. A write past the end of a typed
 * array is dropped, so the contents after a run of writes are the
 * written values where they fit and the old values everywhere else.
 */
module Buffers {

  /** n copies of z: a freshly allocated typed array, or a value written n times. */
  function Fill<T>(n: nat, z: T): (s: seq<T>)
    ensures |s| == n
    ensures forall k :: 0 <= k < n ==> s[k] == z
  {
    if n == 0 then [] else Fill(n - 1, z) + [z]
  }

  /** `ary[k] = x` on a typed array: a store past the end is dropped. */
  function Put<T>(s: seq<T>, k: nat, x: T): (r: seq<T>)
    ensures |r| == |s|
  {
    if k < |s| then s[k := x] else s
  }

  /** The contents of s after writing w element by element from index c. */
  function Written<T>(s: seq<T>, c: nat, w: seq<T>): (r: seq<T>)
    ensures |r| == |s|
    decreases |w|
  {
    if |w| == 0 then s else Written(Put(s, c, w[0]), c + 1, w[1..])
  }

  /** Each element after the writes: the written value where one landed, else the old one. */
  lemma {:induction false} WrittenAt<T>(s: seq<T>, c: nat, w: seq<T>, k: nat)
    requires k < |s|
    ensures Written(s, c, w)[k] == if c <= k < c + |w| then w[k - c] else s[k]
    decreases |w|
  {
    if |w| > 0 {
      WrittenAt(Put(s, c, w[0]), c + 1, w[1..], k);
      if c < k < c + |w| {
        assert w[1..][k - (c + 1)] == w[k - c];
      }
    }
  }

  /** Writes that fit replace exactly their slice of the array. */
  lemma WrittenSlice<T>(s: seq<T>, c: nat, w: seq<T>)
    requires c + |w| <= |s|
    ensures Written(s, c, w) == s[..c] + w + s[c + |w|..]
  {
    var r := Written(s, c, w);
    var t := s[..c] + w + s[c + |w|..];
    forall k | 0 <= k < |r|
      ensures r[k] == t[k]
    {
      WrittenAt(s, c, w, k);
      ThreePartsAt(s[..c], w, s[c + |w|..], k);
    }
  }

  /** An element of a three-part concatenation, by the part it falls in. */
  lemma ThreePartsAt<T>(x: seq<T>, y: seq<T>, z: seq<T>, k: nat)
    requires k < |x| + |y| + |z|
    ensures (x + y + z)[k] == if k < |x| then x[k] else if k < |x| + |y| then y[k - |x|] else z[k - |x| - |y|]
  {
  }

  /** Two runs of writes where the second starts at the first one's end are one run. */
  lemma {:induction false} WrittenConcat<T>(s: seq<T>, c: nat, u: seq<T>, v: seq<T>)
    ensures Written(Written(s, c, u), c + |u|, v) == Written(s, c, u + v)
    decreases |u|
  {
    if |u| > 0 {
      assert (u + v)[0] == u[0];
      assert (u + v)[1..] == u[1..] + v;
      WrittenConcat(Put(s, c, u[0]), c + 1, u[1..], v);
    } else {
      assert u + v == v;
    }
  }

  /** Writing nothing changes nothing. */
  lemma WrittenNothing<T>(s: seq<T>, c: nat, w: seq<T>)
    requires w == []
    ensures Written(s, c, w) == s
  {
  }

  /** Writing a whole array from its start leaves exactly the written values. */
  lemma WrittenWhole<T>(s: seq<T>, w: seq<T>)
    requires |w| == |s|
    ensures Written(s, 0, w) == w
  {
    WrittenSlice(s, 0, w);
    assert s[..0] + w + s[|w|..] == w;
  }

  /** WrittenConcat from the start of the array, with the second run's start written |u| rather than 0 + |u|. */
  lemma WrittenFromStart<T>(s: seq<T>, u: seq<T>, v: seq<T>)
    ensures Written(Written(s, 0, u), |u|, v) == Written(s, 0, u + v)
  {
    WrittenConcat(s, 0, u, v);
  }

  /** Writing the fill value over a slice that still holds it changes nothing. */
  lemma WrittenFill<T>(n: nat, z: T, p: seq<T>, g: nat)
    ensures Written(Written(Fill(n, z), 0, p), |p|, Fill(g, z)) == Written(Fill(n, z), 0, p)
  {
    var a := Written(Fill(n, z), 0, p);
    var l := Written(a, |p|, Fill(g, z));
    forall k | 0 <= k < n
      ensures l[k] == a[k]
    {
      WrittenAt(a, |p|, Fill(g, z), k);
      WrittenAt(Fill(n, z), 0, p, k);
    }
  }

  /** A run written at the end of earlier runs over a fill, then padding of the fill value: one run over the fill. */
  lemma WrittenPadded<T>(n: nat, z: T, prev: seq<T>, w: seq<T>, g: nat, a1: seq<T>, a2: seq<T>)
    requires a1 == Written(Fill(n, z), 0, prev)
    requires a2 == Written(a1, |prev|, w)
    ensures a2 == Written(Fill(n, z), 0, prev + w + Fill(g, z))
  {
    WrittenConcat(Fill(n, z), 0, prev, w);
    WrittenFill(n, z, prev + w, g);
    WrittenFromStart(Fill(n, z), prev + w, Fill(g, z));
  }

  /** A run written where an earlier run ended extends that run. */
  lemma WrittenAppend<T>(s: seq<T>, c: nat, x: seq<T>, y: seq<T>, m: nat, s1: seq<T>, s2: seq<T>)
    requires s1 == Written(s, c, x) && m == c + |x|
    requires s2 == Written(s1, m, y)
    ensures s2 == Written(s, c, x + y)
  {
    WrittenConcat(s, c, x, y);
  }

  /** A run of four pieces written where an earlier run ended extends that run by the pieces. */
  lemma WrittenAppend4<T>(s: seq<T>, c: nat, x: seq<T>, a: seq<T>, b: seq<T>, d: seq<T>, e: seq<T>, m: nat, s1: seq<T>, s2: seq<T>)
    requires s1 == Written(s, c, x) && m == c + |x|
    requires s2 == Written(s1, m, a + b + d + e)
    ensures s2 == Written(s, c, x + a + b + d + e)
  {
    WrittenConcat(s, c, x, a + b + d + e);
    assert x + (a + b + d + e) == x + a + b + d + e;
  }

  /** One write more at the end of a run. */
  lemma WrittenSnoc<T>(s: seq<T>, c: nat, w: seq<T>, x: T)
    ensures Written(s, c, w + [x]) == Put(Written(s, c, w), c + |w|, x)
  {
    WrittenConcat(s, c, w, [x]);
    assert [x][1..] == [];
  }

  /**
   * The state of a typed array and its cursor after a run of writes: a is
   * a0 with w written from c0, and the cursor c has advanced past w.
   */
  ghost predicate WroteFrom<T>(a: seq<T>, c: nat, a0: seq<T>, c0: nat, w: seq<T>)
  {
    a == Written(a0, c0, w) && c == c0 + |w|
  }

  /** Before any write. */
  lemma WroteNothing<T>(a: seq<T>, c: nat)
    ensures WroteFrom(a, c, a, c, [])
  {
  }

  /** A run followed by a run from where it stopped is one run. */
  lemma WroteChain<T>(a0: seq<T>, c0: nat, a1: seq<T>, c1: nat, a2: seq<T>, c2: nat, u: seq<T>, v: seq<T>)
    requires WroteFrom(a1, c1, a0, c0, u) && WroteFrom(a2, c2, a1, c1, v)
    ensures WroteFrom(a2, c2, a0, c0, u + v)
  {
    WrittenConcat(a0, c0, u, v);
  }

  /** WroteChain for runs from the start of the array. */
  lemma WroteChainFromStart<T>(a0: seq<T>, a1: seq<T>, c1: nat, a2: seq<T>, c2: nat, u: seq<T>, v: seq<T>)
    requires a1 == Written(a0, 0, u) && c1 == |u|
    requires WroteFrom(a2, c2, a1, c1, v)
    ensures WroteFrom(a2, c2, a0, 0, u + v)
  {
    WrittenFromStart(a0, u, v);
  }

  /** `ary[c] = w[0]; ary[c + 1] = w[1]; ...` on a typed array. */
  method Emit<T>(a: array<T>, c: nat, w: seq<T>) returns (next: nat)
    modifies a
    ensures a[..] == Written(old(a[..]), c, w)
    ensures next == c + |w|
  {
    var k := 0;
    while k < |w|
      invariant 0 <= k <= |w|
      invariant a[..] == Written(old(a[..]), c, w[..k])
    {
      WrittenSnoc(old(a[..]), c, w[..k], w[k]);
      assert w[..k + 1] == w[..k] + [w[k]];
      if c + k < a.Length {
        a[c + k] := w[k];
      }
      k := k + 1;
    }
    assert w[..k] == w;
    next := c + |w|;
  }

  /** `new Float32Array(n)`: a fresh typed array of n zeroes, or of n copies of z. */
  method NewFill<T>(n: nat, z: T) returns (a: array<T>)
    ensures fresh(a)
    ensures a[..] == Fill(n, z)
  {
    a := new T[n](_ => z);
  }

  /** Writes to two different typed arrays side by side, each at its own cursor. */
  method Emit2<T>(a: array<T>, b: array<T>, ca: nat, cb: nat, wa: seq<T>, wb: seq<T>) returns (na: nat, nb: nat)
    requires a != b
    modifies a, b
    ensures WroteFrom(a[..], na, old(a[..]), ca, wa)
    ensures WroteFrom(b[..], nb, old(b[..]), cb, wb)
  {
    na := Emit(a, ca, wa);
    nb := Emit(b, cb, wb);
  }

  // ----- row-major indices -----

  /**
   * The index ilat * ni of the first point of row ilat, written as repeated
   * addition so that proofs about cursors stay linear.
   */
  function RowStart(ni: nat, ilat: nat): nat
  {
    if ilat == 0 then 0 else RowStart(ni, ilat - 1) + ni
  }

  /** The row-major index ilat * ni + ilon of the source's loops. */
  function RowMajor(ni: nat, ilat: nat, ilon: nat): nat
  {
    RowStart(ni, ilat) + ilon
  }

  lemma {:induction false} RowStartIsProduct(ni: nat, ilat: nat)
    ensures RowStart(ni, ilat) == ilat * ni
  {
    if ilat > 0 {
      RowStartIsProduct(ni, ilat - 1);
      assert (ilat - 1) * ni + ni == ilat * ni;
    }
  }

  /** Every point of an ni x nj grid has an index below the grid size. */
  lemma {:induction false} RowMajorInGrid(ni: nat, nj: nat, ilat: nat, ilon: nat)
    requires ilat < nj && ilon <= ni
    ensures RowMajor(ni, ilat, ilon) <= RowStart(ni, nj)
    ensures ilon < ni ==> RowMajor(ni, ilat, ilon) < RowStart(ni, nj)
  {
    if ilat + 1 < nj {
      RowMajorInGrid(ni, nj - 1, ilat, ilon);
    }
  }
}

