/**
 * flipFlopBuffers: several rendering passes that alternate between two
 * auxiliary framebuffers. Framebuffers are opaque values of type F; the
 * WebGL calls (clear, texture deactivation) and the caller's do_render
 * callback are recorded as one record per pass, in order.
 */
module WGLFramebuffers {

  /**
   * One rendering pass: the framebuffer cleared (and whose texture is
   * unbound) before the pass, then do_render's source, destination and pass index.
   */
  datatype Pass<F> = Pass(cleared: F, src: F, dst: F, ipass: nat)

  /** `Array.prototype.reverse` as a value. */
  function Reversed<T>(s: seq<T>): (r: seq<T>)
    ensures |r| == |s|
    ensures forall k :: 0 <= k < |s| ==> r[k] == s[|s| - 1 - k]
  {
    if |s| == 0 then [] else [s[|s| - 1]] + Reversed(s[..|s| - 1])
  }

  /** `aux.reverse()`: reverses the array in place. */
  method ReverseInPlace<T>(a: array<T>)
    modifies a
    ensures a[..] == Reversed(old(a[..]))
  {
    var lo, hi := 0, a.Length;
    while lo + 1 < hi
      invariant 0 <= lo <= hi <= a.Length && lo + hi == a.Length
      invariant forall k :: 0 <= k < lo ==> a[k] == old(a[a.Length - 1 - k])
      invariant forall k :: hi <= k < a.Length ==> a[k] == old(a[a.Length - 1 - k])
      invariant forall k :: lo <= k < hi ==> a[k] == old(a[k])
    {
      a[lo], a[hi - 1] := a[hi - 1], a[lo];
      lo, hi := lo + 1, hi - 1;
    }
  }

  /** The framebuffer pass k renders into: aux_fb[0] on even passes, aux_fb[1] on odd ones. */
  function Target<F>(a0: F, a1: F, k: nat): F
  {
    if k % 2 == 0 then a0 else a1
  }

  /** The framebuffer pass k reads: the source on pass 0, otherwise pass k - 1's target. */
  function Source<F>(source: F, a0: F, a1: F, k: nat): F
  {
    if k == 0 then source else Target(a0, a1, k - 1)
  }

  /** The first n passes, in order. */
  function Passes<F>(source: F, a0: F, a1: F, n: nat): (t: seq<Pass<F>>)
    ensures |t| == n
  {
    if n == 0 then []
    else Passes(source, a0, a1, n - 1) + [Pass(Target(a0, a1, n - 1), Source(source, a0, a1, n - 1), Target(a0, a1, n - 1), n - 1)]
  }

  /** The order of aux_fb after n passes: reversed once per pass after the first. */
  function AuxAfter<F>(a0: F, a1: F, n: nat): (s: seq<F>)
    ensures |s| == 2
  {
    if n <= 1 then [a0, a1] else Reversed(AuxAfter(a0, a1, n - 1))
  }

  /** The framebuffer flipFlopBuffers returns after n passes. */
  function Output<F>(source: F, a0: F, a1: F, n: nat): F
  {
    if n == 0 then source else Target(a0, a1, n - 1)
  }

  /**
   * flipFlopBuffers(n_passes, source_fb, aux_fb, do_render), with aux_fb
   * of the two framebuffers its documentation asks for; `passes` lists the
   * clear and the do_render call of each pass.
   */
  method FlipFlopBuffers<F>(nPasses: nat, source: F, aux: array<F>) returns (fb: F, passes: seq<Pass<F>>)
    requires aux.Length == 2
    modifies aux
    ensures passes == Passes(source, old(aux[0]), old(aux[1]), nPasses)
    ensures fb == Output(source, old(aux[0]), old(aux[1]), nPasses)
    ensures aux[..] == AuxAfter(old(aux[0]), old(aux[1]), nPasses)
  {
    ghost var a0, a1 := aux[0], aux[1];
    var fb1, fb2 := source, aux[0];
    passes := [];
    var ipass := 0;
    while ipass < nPasses
      invariant ipass <= nPasses
      invariant passes == Passes(source, a0, a1, ipass)
      invariant aux[..] == AuxAfter(a0, a1, ipass)
      invariant fb1 == Source(source, a0, a1, ipass) && fb2 == Target(a0, a1, ipass)
    {
      passes := passes + [Pass(fb2, fb1, fb2, ipass)];
      assert passes == Passes(source, a0, a1, ipass + 1);
      if ipass > 0 {
        ReverseInPlace(aux);
      }
      AuxAlternates(a0, a1, ipass + 1);
      fb1, fb2 := aux[0], aux[1];
      ipass := ipass + 1;
    }
    fb := fb1;
  }

  /** After n >= 1 passes aux_fb starts with pass n - 1's target and ends with pass n's. */
  lemma {:induction false} AuxAlternates<F>(a0: F, a1: F, n: nat)
    requires n >= 1
    ensures AuxAfter(a0, a1, n) == [Target(a0, a1, n - 1), Target(a0, a1, n)]
  {
    if n > 1 {
      AuxAlternates(a0, a1, n - 1);
    }
  }

  /** Pass k of every longer run. */
  lemma {:induction false} PassAt<F>(source: F, a0: F, a1: F, n: nat, k: nat)
    requires k < n
    ensures Passes(source, a0, a1, n)[k] == Pass(Target(a0, a1, k), Source(source, a0, a1, k), Target(a0, a1, k), k)
  {
    if k < n - 1 {
      PassAt(source, a0, a1, n - 1, k);
    }
  }

  /**
   * What a caller of flipFlopBuffers relies on: pass 0 renders from the
   * source into aux_fb[0], every later pass reads what the previous pass
   * wrote, each destination is cleared before it is rendered into, and
   * the returned framebuffer is the last pass's target (the source when
   * there are no passes).
   */
  lemma PassesChain<F>(source: F, a0: F, a1: F, n: nat)
    ensures var t := Passes(source, a0, a1, n);
      && (n > 0 ==> t[0].src == source && t[0].dst == a0)
      && (forall k :: 0 < k < n ==> t[k].src == t[k - 1].dst)
      && (forall k :: 0 <= k < n ==> t[k].cleared == t[k].dst && t[k].ipass == k)
      && Output(source, a0, a1, n) == (if n == 0 then source else t[n - 1].dst)
  {
    forall k | 0 <= k < n
      ensures Passes(source, a0, a1, n)[k] == Pass(Target(a0, a1, k), Source(source, a0, a1, k), Target(a0, a1, k), k)
    {
      PassAt(source, a0, a1, n, k);
    }
  }

  /** With two distinct auxiliary framebuffers and a source outside them, no pass reads its own target. */
  lemma NoPassReadsItsTarget<F>(source: F, a0: F, a1: F, n: nat, k: nat)
    requires a0 != a1 && source != a0 && k < n
    ensures Passes(source, a0, a1, n)[k].src != Passes(source, a0, a1, n)[k].dst
  {
    PassAt(source, a0, a1, n, k);
  }
}
