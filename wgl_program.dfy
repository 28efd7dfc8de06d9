/**
 * The shader program wrapper: comment stripping of shader source, the
 * attribute and uniform tables built from the declarations found in the
 * source, and the draw state (vertex count and draw mode) that binding
 * attribute buffers fixes and drawing needs. WebGL calls are recorded as
 * values; the regular-expression scan that finds the declarations is
 * replaced by its list of matches.
 */
module WGLPrograms {
  import opened Wrappers
  import Utils

  // ----- comment removal -----

  /** A "//" starts at index j of line. */
  predicate SlashesAt(line: string, j: int)
  {
    0 <= j && j + 1 < |line| && line[j] == '/' && line[j + 1] == '/'
  }

  /** `line.indexOf('//')` from index k on: the first start of a "//" at or after k. */
  function CommentFrom(line: string, k: nat): (r: Option<nat>)
    ensures r.Some? ==> k <= r.value && SlashesAt(line, r.value)
    ensures r.Some? ==> forall j :: k <= j < r.value ==> !SlashesAt(line, j)
    ensures r.None? ==> forall j :: k <= j ==> !SlashesAt(line, j)
    decreases |line| - k
  {
    if k + 1 >= |line| then None
    else if line[k] == '/' && line[k + 1] == '/' then Some(k)
    else CommentFrom(line, k + 1)
  }

  /**
   * remove_comments: the line cut at its first "//". The result is the
   * prefix of the line that holds no "//" and is either the whole line or
   * followed by one.
   */
  function RemoveComments(line: string): (r: string)
    ensures |r| <= |line| && r == line[..|r|]
    ensures forall j :: !SlashesAt(r, j)
    ensures r == line || SlashesAt(line, |r|)
    ensures (forall j :: !SlashesAt(line, j)) ==> r == line
  {
    match CommentFrom(line, 0)
    case None => line
    case Some(idx) =>
      assert forall j :: SlashesAt(line[..idx], j) ==> SlashesAt(line, j);
      line[..idx]
  }

  /** `s.split('\n')`: the lines of s, one more than its newlines. */
  function Lines(s: string): (r: seq<string>)
    ensures |r| >= 1
    ensures forall k :: 0 <= k < |r| ==> '\n' !in r[k]
  {
    if |s| == 0 then [""]
    else
      var rest := Lines(s[1..]);
      if s[0] == '\n' then [""] + rest else [[s[0]] + rest[0]] + rest[1..]
  }

  /** `lines.join('\n')` */
  function Unlines(ls: seq<string>): string
    requires |ls| >= 1
  {
    if |ls| == 1 then ls[0] else ls[0] + "\n" + Unlines(ls[1..])
  }

  /** Splitting and joining again gives back the text. */
  lemma {:induction false} UnlinesLines(s: string)
    ensures Unlines(Lines(s)) == s
  {
    if |s| > 0 {
      UnlinesLines(s[1..]);
      var rest := Lines(s[1..]);
      if s[0] != '\n' {
        if |rest| == 1 {
          assert Unlines(Lines(s)) == [s[0]] + rest[0];
        } else {
          assert Lines(s)[1..] == rest[1..];
          assert Unlines(Lines(s)) == [s[0]] + rest[0] + "\n" + Unlines(rest[1..]);
          assert Unlines(rest) == rest[0] + "\n" + Unlines(rest[1..]);
        }
        assert s == [s[0]] + s[1..];
      } else {
        assert Lines(s)[1..] == rest;
        assert s == "\n" + s[1..];
      }
    }
  }

  /** Text without newlines in front of t becomes part of t's first line. */
  lemma {:induction false} LinesPrefix(a: string, t: string)
    requires '\n' !in a
    ensures Lines(a + t) == [a + Lines(t)[0]] + Lines(t)[1..]
    decreases |a|
  {
    if |a| > 0 {
      assert (a + t)[1..] == a[1..] + t;
      assert (a + t)[0] == a[0];
      assert a[0] in a;
      LinesPrefix(a[1..], t);
      assert [a[0]] + (a[1..] + Lines(t)[0]) == a + Lines(t)[0];
    } else {
      assert a + t == t;
      assert a + Lines(t)[0] == Lines(t)[0];
      assert Lines(t) == [Lines(t)[0]] + Lines(t)[1..];
    }
  }

  /** Joining lines without newlines and splitting again gives back the lines. */
  lemma {:induction false} LinesUnlines(ls: seq<string>)
    requires |ls| >= 1
    requires forall k :: 0 <= k < |ls| ==> '\n' !in ls[k]
    ensures Lines(Unlines(ls)) == ls
  {
    if |ls| == 1 {
      LinesPrefix(ls[0], "");
      assert ls[0] + "" == ls[0];
    } else {
      LinesUnlines(ls[1..]);
      var u := Unlines(ls[1..]);
      assert ls[0] + "\n" + u == ls[0] + ("\n" + u);
      LinesPrefix(ls[0], "\n" + u);
      assert ("\n" + u)[0] == '\n' && ("\n" + u)[1..] == u;
      assert Lines("\n" + u) == [""] + Lines(u);
      assert Lines("\n" + u)[0] == "" && Lines("\n" + u)[1..] == ls[1..];
      assert ls[0] + "" == ls[0];
      assert ls == [ls[0]] + ls[1..];
    }
  }

  /** Every line of a shader source with its comment removed. */
  function StripLines(ls: seq<string>): (r: seq<string>)
    ensures |r| == |ls|
    ensures forall k :: 0 <= k < |ls| ==> r[k] == RemoveComments(ls[k])
  {
    if |ls| == 0 then [] else [RemoveComments(ls[0])] + StripLines(ls[1..])
  }

  /** `src.split('\n').map(remove_comments).join('\n')` */
  function StripComments(src: string): string
  {
    Unlines(StripLines(Lines(src)))
  }

  /**
   * Comment stripping keeps the line structure: the stripped source has
   * as many lines as the source, and its line k is line k of the source
   * cut at its first "//".
   */
  lemma StripCommentsByLine(src: string)
    ensures |Lines(StripComments(src))| == |Lines(src)|
    ensures forall k :: 0 <= k < |Lines(src)| ==> Lines(StripComments(src))[k] == RemoveComments(Lines(src)[k])
  {
    var ls := StripLines(Lines(src));
    forall k | 0 <= k < |ls|
      ensures '\n' !in ls[k]
    {
      var line := Lines(src)[k];
      assert ls[k] == line[..|ls[k]|];
      assert forall j :: 0 <= j < |ls[k]| ==> ls[k][j] == line[j];
    }
    LinesUnlines(ls);
  }

  /** Without any "//", stripping leaves the source as it is. */
  lemma StripNothing(src: string)
    requires forall j :: !SlashesAt(src, j)
    ensures StripComments(src) == src
  {
    var ls := Lines(src);
    UnlinesLines(src);
    NoCommentLines(src);
    assert StripLines(ls) == ls;
  }

  /** A text without "//" has none in any of its lines. */
  lemma {:induction false} NoCommentLines(s: string)
    requires forall j :: !SlashesAt(s, j)
    ensures forall k, j :: 0 <= k < |Lines(s)| ==> !SlashesAt(Lines(s)[k], j)
    decreases |s|
  {
    if |s| > 0 {
      assert forall j :: SlashesAt(s[1..], j) ==> SlashesAt(s, j + 1);
      NoCommentLines(s[1..]);
      var rest := Lines(s[1..]);
      if s[0] != '\n' {
        FirstLineAtStart(s[1..]);
        var l := [s[0]] + rest[0];
        forall j | 0 <= j < |l|
          ensures SlashesAt(l, j) ==> if j == 0 then SlashesAt(s, 0) else SlashesAt(rest[0], j - 1)
        {
          if j > 0 && j + 1 < |l| {
            assert l[j] == rest[0][j - 1] && l[j + 1] == rest[0][j];
          }
        }
      }
    }
  }

  /** The first line of s is a prefix of s. */
  lemma {:induction false} FirstLineAtStart(s: string)
    ensures |Lines(s)[0]| <= |s| && Lines(s)[0] == s[..|Lines(s)[0]|]
    decreases |s|
  {
    if |s| > 0 && s[0] != '\n' {
      FirstLineAtStart(s[1..]);
    }
  }

  // ----- attribute and uniform tables -----

  /** One match of a declaration pattern: the variable name and its declared type text. */
  datatype Decl = Decl(name: string, typ: string)

  /** `type.split(' ')` and its last element: the text after the last space. */
  function LastWord(t: string): (r: string)
    ensures |r| <= |t| && r == t[|t| - |r|..]
    ensures ' ' !in r
    ensures r == t || t[|t| - |r| - 1] == ' '
  {
    if |t| == 0 then ""
    else if t[|t| - 1] == ' ' then ""
    else LastWord(t[..|t| - 1]) + [t[|t| - 1]]
  }

  /** The type a table records for a declaration: uniforms keep only the last word ("highp float" is a float). */
  function TypeOf(d: Decl, lastWordOnly: bool): string
  {
    if lastWordOnly then LastWord(d.typ) else d.typ
  }

  /** The table after `table[name] = ...` for each match in order. */
  function Declared(m: map<string, string>, decls: seq<Decl>, lastWordOnly: bool): map<string, string>
    decreases |decls|
  {
    if |decls| == 0 then m else Declared(m[decls[0].name := TypeOf(decls[0], lastWordOnly)], decls[1..], lastWordOnly)
  }

  /** The for-of loop over the matches of one declaration pattern. */
  method DeclareAll(m0: map<string, string>, decls: seq<Decl>, lastWordOnly: bool) returns (m: map<string, string>)
    ensures m == Declared(m0, decls, lastWordOnly)
  {
    m := m0;
    var i := 0;
    while i < |decls|
      invariant i <= |decls|
      invariant Declared(m, decls[i..], lastWordOnly) == Declared(m0, decls, lastWordOnly)
    {
      assert decls[i..][1..] == decls[i + 1..];
      m := m[decls[i].name := TypeOf(decls[i], lastWordOnly)];
      i := i + 1;
    }
  }

  /**
   * A name is in the table iff it was there before or some match declares
   * it, and a later declaration of a name replaces an earlier one.
   */
  lemma DeclaredLookup(m: map<string, string>, decls: seq<Decl>, lastWordOnly: bool, name: string)
    ensures name in Declared(m, decls, lastWordOnly) <==> name in m || exists k :: 0 <= k < |decls| && decls[k].name == name
    ensures forall k :: 0 <= k < |decls| && decls[k].name == name && (forall j :: k < j < |decls| ==> decls[j].name != name)
                     ==> Declared(m, decls, lastWordOnly)[name] == TypeOf(decls[k], lastWordOnly)
    ensures (forall k :: 0 <= k < |decls| ==> decls[k].name != name) && name in m ==> Declared(m, decls, lastWordOnly)[name] == m[name]
  {
    DeclaredKeys(m, decls, lastWordOnly, name);
    forall k | 0 <= k < |decls| && decls[k].name == name && (forall j :: k < j < |decls| ==> decls[j].name != name)
      ensures Declared(m, decls, lastWordOnly)[name] == TypeOf(decls[k], lastWordOnly)
    {
      DeclaredLast(m, decls, lastWordOnly, k);
    }
    if (forall k :: 0 <= k < |decls| ==> decls[k].name != name) && name in m {
      DeclaredKeeps(m, decls, lastWordOnly, name);
    }
  }

  lemma {:induction false} DeclaredKeys(m: map<string, string>, decls: seq<Decl>, lastWordOnly: bool, name: string)
    ensures name in Declared(m, decls, lastWordOnly) <==> name in m || exists k :: 0 <= k < |decls| && decls[k].name == name
    decreases |decls|
  {
    if |decls| > 0 {
      DeclaredKeys(m[decls[0].name := TypeOf(decls[0], lastWordOnly)], decls[1..], lastWordOnly, name);
      assert forall k :: 0 < k < |decls| ==> decls[k] == decls[1..][k - 1];
    }
  }

  lemma {:induction false} DeclaredKeeps(m: map<string, string>, decls: seq<Decl>, lastWordOnly: bool, name: string)
    requires name in m && forall k :: 0 <= k < |decls| ==> decls[k].name != name
    ensures name in Declared(m, decls, lastWordOnly) && Declared(m, decls, lastWordOnly)[name] == m[name]
    decreases |decls|
  {
    if |decls| > 0 {
      assert decls[0].name != name;
      assert forall k :: 0 <= k < |decls| - 1 ==> decls[1..][k] == decls[k + 1];
      DeclaredKeeps(m[decls[0].name := TypeOf(decls[0], lastWordOnly)], decls[1..], lastWordOnly, name);
    }
  }

  lemma {:induction false} DeclaredLast(m: map<string, string>, decls: seq<Decl>, lastWordOnly: bool, k: nat)
    requires k < |decls| && forall j :: k < j < |decls| ==> decls[j].name != decls[k].name
    ensures decls[k].name in Declared(m, decls, lastWordOnly)
    ensures Declared(m, decls, lastWordOnly)[decls[k].name] == TypeOf(decls[k], lastWordOnly)
    decreases |decls|
  {
    var m1 := m[decls[0].name := TypeOf(decls[0], lastWordOnly)];
    assert forall j :: 0 <= j < |decls| - 1 ==> decls[1..][j] == decls[j + 1];
    if k == 0 {
      DeclaredKeeps(m1, decls[1..], lastWordOnly, decls[0].name);
    } else {
      DeclaredLast(m1, decls[1..], lastWordOnly, k - 1);
    }
  }

  // ----- binding attribute buffers -----

  /** The two properties of a vertex buffer the program checks: its vertex count and draw mode. */
  datatype Buffer = Buffer(nVerts: real, drawMode: int)

  /** The throw for a buffer whose draw mode differs from the one fixed. */
  function DrawModeError(name: string, expected: int, got: int): string
  {
    "Unexpected draw mode for attribute buffer " + name +
    " (expected " + Utils.IntToString(expected) + ", got " + Utils.IntToString(got) + ")."
  }

  /**
   * The throw for a buffer whose vertex count differs from the one fixed;
   * `numText` is the engine's conversion of a number to its string.
   */
  function NVertsError(numText: real -> string, name: string, expected: real, got: real): string
  {
    "Unexpected number of vertices for attribute buffer " + name +
    " (expected " + numText(expected) + ", got " + numText(got) + ")."
  }

  /** The throw for a buffer that disagrees with the fixed draw state: the draw mode is checked first. */
  function MismatchError(numText: real -> string, name: string, nv: real, dm: int, b: Buffer): string
  {
    if b.drawMode != dm then DrawModeError(name, dm, b.drawMode) else NVertsError(numText, name, nv, b.nVerts)
  }

  /** The draw state and the names bound so far, and the error thrown, if any. */
  datatype BindState = BindState(nVerts: Option<real>, drawMode: Option<int>, bound: seq<string>, err: Option<string>)

  /**
   * bindAttributes over its entries in order: an unknown name is skipped; a
   * known one fixes the vertex count and draw mode if they are still unset,
   * then a buffer that disagrees with them throws, and one that agrees is bound.
   */
  function Bind(numText: real -> string, attrs: map<string, string>, nv: Option<real>, dm: Option<int>, entries: seq<(string, Buffer)>): BindState
    decreases |entries|
  {
    if |entries| == 0 then BindState(nv, dm, [], None)
    else
      var (name, b) := entries[0];
      if name !in attrs then Bind(numText, attrs, nv, dm, entries[1..])
      else
        var nv' := if nv.None? then Some(b.nVerts) else nv;
        var dm' := if dm.None? then Some(b.drawMode) else dm;
        if dm'.value != b.drawMode then BindState(nv', dm', [], Some(DrawModeError(name, dm'.value, b.drawMode)))
        else if nv'.value != b.nVerts then BindState(nv', dm', [], Some(NVertsError(numText, name, nv'.value, b.nVerts)))
        else
          var r := Bind(numText, attrs, nv', dm', entries[1..]);
          r.(bound := [name] + r.bound)
  }

  /** The entries whose names are in the table, in order. */
  function Known<V>(table: map<string, string>, entries: seq<(string, V)>): (r: seq<(string, V)>)
    ensures |r| <= |entries|
    ensures forall e :: e in r ==> e in entries && e.0 in table
    ensures forall e :: e in entries && e.0 in table ==> e in r
  {
    if |entries| == 0 then []
    else if entries[0].0 in table then [entries[0]] + Known(table, entries[1..])
    else Known(table, entries[1..])
  }

  /** The names of a list of entries. */
  function Names<V>(entries: seq<(string, V)>): (r: seq<string>)
    ensures |r| == |entries|
    ensures forall k :: 0 <= k < |entries| ==> r[k] == entries[k].0
  {
    if |entries| == 0 then [] else [entries[0].0] + Names(entries[1..])
  }

  /** Entries for attributes the program does not have make no difference. */
  lemma {:induction false} BindIgnoresUnknown(numText: real -> string, attrs: map<string, string>, nv: Option<real>, dm: Option<int>, entries: seq<(string, Buffer)>)
    ensures Bind(numText, attrs, nv, dm, entries) == Bind(numText, attrs, nv, dm, Known(attrs, entries))
    decreases |entries|
  {
    if |entries| > 0 {
      var ks := Known(attrs, entries);
      if entries[0].0 in attrs {
        assert ks[0] == entries[0] && ks[1..] == Known(attrs, entries[1..]);
        var b := entries[0].1;
        BindIgnoresUnknown(numText, attrs, if nv.None? then Some(b.nVerts) else nv, if dm.None? then Some(b.drawMode) else dm, entries[1..]);
      } else {
        BindIgnoresUnknown(numText, attrs, nv, dm, entries[1..]);
      }
    }
  }

  /**
   * Once the draw state is set, known buffers bind without error iff every
   * one of them has that vertex count and draw mode; the state is never
   * changed, and on success every buffer is bound in order.
   */
  lemma {:induction false} BindAgreeing(numText: real -> string, attrs: map<string, string>, nv: real, dm: int, ks: seq<(string, Buffer)>)
    requires forall k :: 0 <= k < |ks| ==> ks[k].0 in attrs
    ensures Bind(numText, attrs, Some(nv), Some(dm), ks).nVerts == Some(nv)
    ensures Bind(numText, attrs, Some(nv), Some(dm), ks).drawMode == Some(dm)
    ensures Bind(numText, attrs, Some(nv), Some(dm), ks).err.None? <==> forall k :: 0 <= k < |ks| ==> ks[k].1 == Buffer(nv, dm)
    ensures Bind(numText, attrs, Some(nv), Some(dm), ks).err.None? ==> Bind(numText, attrs, Some(nv), Some(dm), ks).bound == Names(ks)
    decreases |ks|
  {
    if |ks| > 0 {
      assert ks[0].0 in attrs;
      BindAgreeing(numText, attrs, nv, dm, ks[1..]);
      assert forall k :: 0 < k < |ks| ==> ks[k] == ks[1..][k - 1];
    }
  }

  /** The index of the first entry whose buffer is not b, or the number of entries. */
  function FirstMismatch(ks: seq<(string, Buffer)>, b: Buffer): (k: nat)
    ensures k <= |ks| && (k < |ks| ==> ks[k].1 != b)
    ensures forall j :: 0 <= j < k ==> ks[j].1 == b
  {
    if |ks| == 0 || ks[0].1 != b then 0
    else
      var k := FirstMismatch(ks[1..], b);
      assert forall j :: 0 < j < k + 1 ==> ks[j] == ks[1..][j - 1];
      k + 1
  }

  /** Once the draw state is set, a throw names the first known buffer that disagrees with it. */
  lemma {:induction false} AgreeingMismatch(numText: real -> string, attrs: map<string, string>, nv: real, dm: int, ks: seq<(string, Buffer)>)
    requires forall k :: 0 <= k < |ks| ==> ks[k].0 in attrs
    ensures var r := Bind(numText, attrs, Some(nv), Some(dm), ks);
            var k := FirstMismatch(ks, Buffer(nv, dm));
            r.err.Some? ==> k < |ks| && r.err.value == MismatchError(numText, ks[k].0, nv, dm, ks[k].1)
    decreases |ks|
  {
    if |ks| > 0 {
      assert ks[0].0 in attrs;
      if ks[0].1 == Buffer(nv, dm) {
        assert forall k :: 0 <= k < |ks| - 1 ==> ks[1..][k] == ks[k + 1];
        AgreeingMismatch(numText, attrs, nv, dm, ks[1..]);
      }
    }
  }

  /**
   * From the state `use` resets to, the first known buffer fixes the vertex
   * count and draw mode, every later known buffer must agree with it or the
   * call throws, and with no known buffer the state stays unset.
   */
  lemma FirstBufferFixes(numText: real -> string, attrs: map<string, string>, entries: seq<(string, Buffer)>)
    ensures var r := Bind(numText, attrs, None, None, entries);
            var ks := Known(attrs, entries);
            && (|ks| == 0 ==> r == BindState(None, None, [], None))
            && (|ks| > 0 ==> r.nVerts == Some(ks[0].1.nVerts) && r.drawMode == Some(ks[0].1.drawMode))
            && (|ks| > 0 ==> (r.err.None? <==> forall k :: 0 <= k < |ks| ==> ks[k].1 == ks[0].1))
            && (r.err.None? ==> r.bound == Names(ks))
  {
    var ks := Known(attrs, entries);
    BindIgnoresUnknown(numText, attrs, None, None, entries);
    if |ks| > 0 {
      assert ks[0] in ks;
      var b := ks[0].1;
      BindAgreeing(numText, attrs, b.nVerts, b.drawMode, ks[1..]);
      assert forall k :: 0 < k < |ks| ==> ks[k] == ks[1..][k - 1];
      assert forall k :: 0 <= k < |ks| ==> ks[k] in ks;
      assert Names(ks) == [ks[0].0] + Names(ks[1..]);
    }
  }

  // ----- uniforms and textures -----

  datatype UniformValue = Number(x: real) | Numbers(xs: seq<real>)

  datatype UniformFn = Uniform1i | Uniform1f | Uniform1fv | Uniform2fv | Uniform3fv | Uniform4fv | UniformMatrix4fv

  /** The WebGL setter for a uniform of the given type and value, if the combination is supported. */
  function UniformFnFor(typ: string, v: UniformValue): (r: Option<UniformFn>)
    ensures r.Some? ==> typ in {"int", "float", "vec2", "vec3", "vec4", "mat4"}
    ensures r == Some(Uniform1i) <==> typ == "int" && v.Number?
    ensures r == Some(Uniform1f) <==> typ == "float" && v.Number?
    ensures r == Some(Uniform1fv) <==> typ == "float" && v.Numbers?
    ensures r == Some(Uniform2fv) <==> typ == "vec2" && v.Numbers?
    ensures r == Some(Uniform3fv) <==> typ == "vec3" && v.Numbers?
    ensures r == Some(Uniform4fv) <==> typ == "vec4" && v.Numbers?
    ensures r == Some(UniformMatrix4fv) <==> typ == "mat4" && v.Numbers?
    ensures r.None? <==> (v.Number? && typ !in {"int", "float"}) || (v.Numbers? && typ !in {"float", "vec2", "vec3", "vec4", "mat4"})
  {
    if typ == "int" && v.Number? then Some(Uniform1i)
    else if typ == "float" && v.Number? then Some(Uniform1f)
    else if typ == "float" && v.Numbers? then Some(Uniform1fv)
    else if typ == "vec2" && v.Numbers? then Some(Uniform2fv)
    else if typ == "vec3" && v.Numbers? then Some(Uniform3fv)
    else if typ == "vec4" && v.Numbers? then Some(Uniform4fv)
    else if typ == "mat4" && v.Numbers? then Some(UniformMatrix4fv)
    else None
  }

  datatype UniformCall = UniformCall(name: string, fn: UniformFn, value: UniformValue)

  /** The setter calls made, in order, and the error thrown, if any. */
  datatype UniformsOutcome = UniformsOutcome(calls: seq<UniformCall>, err: Option<string>)

  /** `Array.prototype.join` with a separator. */
  function JoinWith(sep: string, parts: seq<string>): (r: string)
    ensures |parts| == 1 ==> r == parts[0]
  {
    if |parts| == 0 then "" else if |parts| == 1 then parts[0] else parts[0] + sep + JoinWith(sep, parts[1..])
  }

  /** `String(value)`: a number's text, or an array's elements joined by commas. */
  function ValueText(numText: real -> string, v: UniformValue): (r: string)
    ensures v.Number? ==> r == numText(v.x)
    ensures v.Numbers? && |v.xs| == 0 ==> r == ""
  {
    match v
    case Number(x) => numText(x)
    case Numbers(xs) => JoinWith(",", seq(|xs|, k requires 0 <= k < |xs| => numText(xs[k])))
  }

  function UniformError(numText: real -> string, typ: string, v: UniformValue): string
  {
    "Could not figure out uniform function for type '" + typ + "' and value '" + ValueText(numText, v) + "'"
  }

  /** setUniforms: unknown names are skipped; a known name with an unsupported type and value throws. */
  function SetUniforms(numText: real -> string, uniforms: map<string, string>, values: seq<(string, UniformValue)>): (r: UniformsOutcome)
    ensures |r.calls| <= |values|
    ensures forall c :: c in r.calls ==> c.name in uniforms && UniformFnFor(uniforms[c.name], c.value) == Some(c.fn)
  {
    if |values| == 0 then UniformsOutcome([], None)
    else
      var (name, v) := values[0];
      if name !in uniforms then SetUniforms(numText, uniforms, values[1..])
      else match UniformFnFor(uniforms[name], v)
        case None => UniformsOutcome([], Some(UniformError(numText, uniforms[name], v)))
        case Some(fn) =>
          var r := SetUniforms(numText, uniforms, values[1..]);
          r.(calls := [UniformCall(name, fn, v)] + r.calls)
  }

  /**
   * setUniforms succeeds iff every known uniform has a supported type and
   * value, and then it makes one call per known uniform, in order.
   */
  lemma {:induction false} SetUniformsSucceeds(numText: real -> string, uniforms: map<string, string>, values: seq<(string, UniformValue)>)
    ensures SetUniforms(numText, uniforms, values).err.None? <==>
            forall k :: 0 <= k < |values| && values[k].0 in uniforms ==> UniformFnFor(uniforms[values[k].0], values[k].1).Some?
    ensures SetUniforms(numText, uniforms, values).err.None? ==>
            Names(Known(uniforms, values)) == NamesOf(SetUniforms(numText, uniforms, values).calls)
    decreases |values|
  {
    if |values| > 0 {
      SetUniformsSucceeds(numText, uniforms, values[1..]);
      assert forall k :: 0 < k < |values| ==> values[k] == values[1..][k - 1];
    }
  }

  /** The index of the first declared uniform without a setter, or the number of entries. */
  function FirstUnsupported(uniforms: map<string, string>, values: seq<(string, UniformValue)>): (k: nat)
    ensures k <= |values| && (k < |values| ==> Unsupported(uniforms, values[k]))
    ensures forall j :: 0 <= j < k ==> !Unsupported(uniforms, values[j])
  {
    if |values| == 0 || Unsupported(uniforms, values[0]) then 0
    else
      var k := FirstUnsupported(uniforms, values[1..]);
      assert forall j :: 0 < j < k + 1 ==> values[j] == values[1..][j - 1];
      k + 1
  }

  /** The throw of setUniforms names the type and value of the first declared uniform without a setter. */
  lemma {:induction false} FirstUnsupportedThrown(numText: real -> string, uniforms: map<string, string>, values: seq<(string, UniformValue)>)
    ensures var r := SetUniforms(numText, uniforms, values);
            var k := FirstUnsupported(uniforms, values);
            r.err.Some? ==> k < |values| && r.err.value == UniformError(numText, uniforms[values[k].0], values[k].1)
    decreases |values|
  {
    if |values| > 0 && !Unsupported(uniforms, values[0]) {
      assert forall k :: 0 <= k < |values| - 1 ==> values[1..][k] == values[k + 1];
      FirstUnsupportedThrown(numText, uniforms, values[1..]);
    }
  }

  /** A declared uniform whose type and value have no setter. */
  predicate Unsupported(uniforms: map<string, string>, e: (string, UniformValue))
  {
    e.0 in uniforms && UniformFnFor(uniforms[e.0], e.1).None?
  }

  function NamesOf(calls: seq<UniformCall>): (r: seq<string>)
    ensures |r| == |calls|
    ensures forall k :: 0 <= k < |calls| ==> r[k] == calls[k].name
  {
    if |calls| == 0 then [] else [calls[0].name] + NamesOf(calls[1..])
  }

  /** A texture bound to a sampler, with the texture unit it gets. */
  datatype TexBinding = TexBinding(sampler: string, unit: nat)

  /**
   * bindTextures over the samplers named in the entries, from entry index
   * k on: the unit is the entry's index, and unknown samplers are skipped
   * but still use up their index.
   */
  function BindTextures(uniforms: map<string, string>, samplers: seq<string>, k: nat): (r: seq<TexBinding>)
    requires k <= |samplers|
    ensures forall b :: b in r ==> k <= b.unit < |samplers| && samplers[b.unit] == b.sampler && b.sampler in uniforms
    ensures forall j :: k <= j < |samplers| && samplers[j] in uniforms ==> TexBinding(samplers[j], j) in r
    decreases |samplers| - k
  {
    if k == |samplers| then []
    else if samplers[k] in uniforms then [TexBinding(samplers[k], k)] + BindTextures(uniforms, samplers, k + 1)
    else BindTextures(uniforms, samplers, k + 1)
  }

  /** The call gl.drawArrays(draw_mode, 0, n_verts). */
  datatype DrawCall = DrawArrays(mode: int, first: int, count: real)

  /** What one call of `use` did: buffers bound, uniform setters called, textures bound, and the error thrown, if any. */
  datatype UseOutcome = UseOutcome(bound: seq<string>, calls: seq<UniformCall>, textures: seq<TexBinding>, err: Option<string>)

  function OrEmpty<V>(o: Option<seq<V>>): seq<V>
  {
    if o.Some? then o.value else []
  }

  /** The shader program with its declaration tables and its draw state. */
  class Program {
    const attributes: map<string, string>
    const uniforms: map<string, string>
    /** The engine's conversion of a number to its string, used in thrown messages. */
    const numText: real -> string
    var nVerts: Option<real>
    var drawMode: Option<int>

    /** The vertex count and draw mode are set together. */
    ghost predicate Valid()
      reads this
    {
      nVerts.None? <==> drawMode.None?
    }

    /**
     * The constructor, given the matches of the attribute pattern in the
     * vertex shader and of the uniform pattern in the vertex and then the
     * fragment shader, all after comment stripping.
     */
    constructor(attrDecls: seq<Decl>, vertUniforms: seq<Decl>, fragUniforms: seq<Decl>, numText: real -> string)
      ensures this.numText == numText
      ensures attributes == Declared(map[], attrDecls, false)
      ensures uniforms == Declared(Declared(map[], vertUniforms, true), fragUniforms, true)
      ensures nVerts == None && drawMode == None
      ensures Valid()
    {
      var a := DeclareAll(map[], attrDecls, false);
      var u := DeclareAll(map[], vertUniforms, true);
      u := DeclareAll(u, fragUniforms, true);
      attributes := a;
      uniforms := u;
      this.numText := numText;
      nVerts := None;
      drawMode := None;
    }

    /** bindAttributes(attribute_buffers), with the entries in their object order. */
    method BindAttributes(entries: seq<(string, Buffer)>) returns (bound: seq<string>, err: Option<string>)
      requires Valid()
      modifies this
      ensures Valid()
      ensures BindState(nVerts, drawMode, bound, err) == Bind(numText, attributes, old(nVerts), old(drawMode), entries)
    {
      bound, err := [], None;
      var i := 0;
      while i < |entries|
        invariant i <= |entries| && Valid()
        invariant var r := Bind(numText, attributes, nVerts, drawMode, entries[i..]);
                  Bind(numText, attributes, old(nVerts), old(drawMode), entries) == r.(bound := bound + r.bound)
      {
        assert entries[i..][0] == entries[i] && entries[i..][1..] == entries[i + 1..];
        var (name, b) := entries[i];
        if name in attributes {
          if nVerts.None? {
            nVerts := Some(b.nVerts);
          }
          if drawMode.None? {
            drawMode := Some(b.drawMode);
          }
          if drawMode.value != b.drawMode {
            err := Some(DrawModeError(name, drawMode.value, b.drawMode));
            return;
          }
          if nVerts.value != b.nVerts {
            err := Some(NVertsError(numText, name, nVerts.value, b.nVerts));
            return;
          }
          bound := bound + [name];
        }
        i := i + 1;
      }
    }

    /**
     * use(attribute_buffers?, uniform_values?, textures?): resets the draw
     * state, then binds, sets and binds whichever were given, stopping at
     * the first throw.
     */
    method Use(buffers: Option<seq<(string, Buffer)>>, values: Option<seq<(string, UniformValue)>>, samplers: Option<seq<string>>)
      returns (r: UseOutcome)
      requires Valid()
      modifies this
      ensures Valid()
      ensures var b := Bind(numText, attributes, None, None, OrEmpty(buffers));
              var u := SetUniforms(numText, uniforms, OrEmpty(values));
              && nVerts == b.nVerts && drawMode == b.drawMode && r.bound == b.bound
              && r.calls == (if b.err.None? then u.calls else [])
              && r.err == (if b.err.Some? then b.err else u.err)
              && r.textures == (if b.err.None? && u.err.None? then BindTextures(uniforms, OrEmpty(samplers), 0) else [])
    {
      nVerts := None;
      drawMode := None;
      var bound: seq<string> := [];
      var err: Option<string> := None;
      if buffers.Some? {
        bound, err := BindAttributes(buffers.value);
      }
      if err.Some? {
        return UseOutcome(bound, [], [], err);
      }
      var u := if values.Some? then SetUniforms(numText, uniforms, values.value) else UniformsOutcome([], None);
      if u.err.Some? {
        return UseOutcome(bound, u.calls, [], u.err);
      }
      var tex := if samplers.Some? then BindTextures(uniforms, samplers.value, 0) else [];
      r := UseOutcome(bound, u.calls, tex, None);
    }

    /** draw(): throws unless attribute buffers have fixed the draw state. */
    method Draw() returns (r: Result<DrawCall>)
      ensures r.Err? <==> drawMode.None? || nVerts.None?
      ensures r.Ok? ==> r.value == DrawArrays(drawMode.value, 0, nVerts.value)
    {
      if drawMode.None? || nVerts.None? {
        return Err("Cannot draw without binding attribute buffers");
      }
      r := Ok(DrawArrays(drawMode.value, 0, nVerts.value));
    }
  }

  /**
   * The throw of bindAttributes from the reset state names the first known
   * buffer that disagrees with the first one, with the expected and actual
   * draw mode or vertex count.
   */
  lemma FirstMismatchThrown(numText: real -> string, attrs: map<string, string>, entries: seq<(string, Buffer)>)
    ensures var r := Bind(numText, attrs, None, None, entries);
            var ks := Known(attrs, entries);
            r.err.Some? ==>
              (&& |ks| > 0 && 0 < FirstMismatch(ks, ks[0].1) < |ks|
               && r.err.value == MismatchError(numText, ks[FirstMismatch(ks, ks[0].1)].0, ks[0].1.nVerts, ks[0].1.drawMode, ks[FirstMismatch(ks, ks[0].1)].1))
  {
    var ks := Known(attrs, entries);
    BindIgnoresUnknown(numText, attrs, None, None, entries);
    if |ks| > 0 {
      assert ks[0] in ks;
      var b := ks[0].1;
      assert forall k :: 0 <= k < |ks| - 1 ==> ks[1..][k] == ks[k + 1] && ks[k + 1] in ks;
      AgreeingMismatch(numText, attrs, b.nVerts, b.drawMode, ks[1..]);
      assert FirstMismatch(ks, b) == FirstMismatch(ks[1..], b) + 1;
    }
  }

  /** After `use`, drawing succeeds iff at least one buffer for a known attribute was given. */
  lemma DrawNeedsKnownBuffer(numText: real -> string, attrs: map<string, string>, entries: seq<(string, Buffer)>)
    ensures Bind(numText, attrs, None, None, entries).nVerts.Some? <==> |Known(attrs, entries)| > 0
    ensures Bind(numText, attrs, None, None, entries).drawMode.Some? <==> |Known(attrs, entries)| > 0
  {
    FirstBufferFixes(numText, attrs, entries);
  }
}
