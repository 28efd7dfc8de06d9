/**
 * The shader program manager: one program per shader variant, built on
 * the first request for the variant and served from a cache afterwards,
 * and the projection uniforms a renderer needs. Building a program is
 * recorded as the sources and defines it is built from; merging the
 * prelude into the vertex source is mergeShaderCode, which is not part of
 * this model, so the prelude is kept beside the source.
 */
module ShaderManagers {
  import opened Wrappers
  import WGLPrograms

  /** A renderer's shader data: the prelude and define text it contributes and the variant's name. */
  datatype ShaderData = ShaderData(vertexShaderPrelude: string, define: string, variantName: string)

  /** The program built for a variant: a vertex prelude merged into the vertex source, the fragment source and the defines. */
  datatype ProgramSpec = ProgramSpec(prelude: string, vertexSrc: string, fragmentSrc: string, defines: seq<string>)

  const DEFAULT_KEY: string := "default"

  /** The prelude used without shader data: the projection matrix uniform and projectTile, with the template literal's own line breaks and indentation. */
  const DEFAULT_PRELUDE: string :=
    "\n            uniform mat4 u_projection_matrix;\n\n" +
    "            vec4 projectTile(vec2 p) {\n" +
    "                vec4 result = u_projection_matrix * vec4(p, 0.0, 1.0);\n" +
    "                return result;\n" +
    "            }"

  /** The cache key: 'default' without shader data, else the variant name. */
  function ShaderKey(data: Option<ShaderData>): (k: string)
    ensures data.None? ==> k == DEFAULT_KEY
    ensures data.Some? ==> k == data.value.variantName
  {
    if data.None? then DEFAULT_KEY else data.value.variantName
  }

  /** The program built on a miss: the renderer's prelude and defines, or the default prelude. */
  function Build(vertexSrc: string, fragmentSrc: string, defines: seq<string>, data: Option<ShaderData>): (p: ProgramSpec)
    ensures p.vertexSrc == vertexSrc && p.fragmentSrc == fragmentSrc && p.defines == defines
    ensures data.None? ==> p.prelude == DEFAULT_PRELUDE
    ensures data.Some? ==> p.prelude == data.value.vertexShaderPrelude + "\n" + data.value.define
  {
    ProgramSpec(if data.None? then DEFAULT_PRELUDE else data.value.vertexShaderPrelude + "\n" + data.value.define,
                vertexSrc, fragmentSrc, defines)
  }

  /** The result of one request: the program, the cache afterwards, and whether a program was built. */
  datatype Lookup = Lookup(program: ProgramSpec, cache: map<string, ProgramSpec>, built: bool)

  /** getShaderProgram on a cache: a hit returns the stored program, a miss builds one and stores it. */
  function GetProgram(cache: map<string, ProgramSpec>, vertexSrc: string, fragmentSrc: string, defines: seq<string>,
                      data: Option<ShaderData>): (r: Lookup)
    ensures ShaderKey(data) in r.cache && r.cache[ShaderKey(data)] == r.program
    ensures r.built <==> ShaderKey(data) !in cache
    ensures !r.built ==> r.cache == cache
    ensures r.built ==> r.cache == cache[ShaderKey(data) := r.program] && r.program == Build(vertexSrc, fragmentSrc, defines, data)
  {
    var key := ShaderKey(data);
    if key in cache then Lookup(cache[key], cache, false)
    else
      var p := Build(vertexSrc, fragmentSrc, defines, data);
      Lookup(p, cache[key := p], true)
  }

  /** A second request for the same variant never builds and returns the same program. */
  lemma SecondRequestHits(cache: map<string, ProgramSpec>, vs: string, fs: string, defines: seq<string>,
                          d1: Option<ShaderData>, d2: Option<ShaderData>)
    requires ShaderKey(d1) == ShaderKey(d2)
    ensures var r1 := GetProgram(cache, vs, fs, defines, d1);
            var r2 := GetProgram(r1.cache, vs, fs, defines, d2);
            !r2.built && r2.program == r1.program && r2.cache == r1.cache
  {
  }

  /** Requests only ever add entries: a program once cached stays cached under its key. */
  lemma CacheOnlyGrows(cache: map<string, ProgramSpec>, vs: string, fs: string, defines: seq<string>, data: Option<ShaderData>, k: string)
    requires k in cache
    ensures k in GetProgram(cache, vs, fs, defines, data).cache && GetProgram(cache, vs, fs, defines, data).cache[k] == cache[k]
  {
  }

  class ShaderProgramManager {
    const vertexShaderSrc: string
    const fragmentShaderSrc: string
    const shaderDefines: seq<string>
    var programMap: map<string, ProgramSpec>

    constructor(vertexShaderSrc: string, fragmentShaderSrc: string, shaderDefines: seq<string>)
      ensures this.vertexShaderSrc == vertexShaderSrc && this.fragmentShaderSrc == fragmentShaderSrc
      ensures this.shaderDefines == shaderDefines && programMap == map[]
    {
      this.vertexShaderSrc := vertexShaderSrc;
      this.fragmentShaderSrc := fragmentShaderSrc;
      this.shaderDefines := shaderDefines;
      programMap := map[];
    }

    /** getShaderProgram(gl, shader_data) */
    method GetShaderProgram(data: Option<ShaderData>) returns (program: ProgramSpec, built: bool)
      modifies this
      ensures var r := GetProgram(old(programMap), vertexShaderSrc, fragmentShaderSrc, shaderDefines, data);
              program == r.program && programMap == r.cache && built == r.built
    {
      var key := ShaderKey(data);
      if key in programMap {
        return programMap[key], false;
      }
      program := Build(vertexShaderSrc, fragmentShaderSrc, shaderDefines, data);
      programMap := programMap[key := program];
      built := true;
    }
  }

  // ----- projection uniforms -----

  /** The default projection of a maplibre renderer. */
  datatype Projection = Projection(mainMatrix: seq<real>, fallbackMatrix: seq<real>, tileMercatorCoords: seq<real>,
                                   clippingPlane: seq<real>, projectionTransition: real)

  datatype RendererData =
    | MapLibre(defaultProjectionData: Projection, shaderData: ShaderData)
    | Autumn(mainMatrix: seq<real>)

  /** `text.includes(part)` */
  predicate Includes(text: string, part: string)
    decreases |text|
  {
    |part| <= |text| && (text[..|part|] == part || Includes(text[1..], part))
  }

  /** The part occurs in the text from index i. */
  predicate OccursAt(text: string, part: string, i: int)
  {
    0 <= i && i + |part| <= |text| && text[i..i + |part|] == part
  }

  /** Includes holds iff the part occurs at some position of the text. */
  lemma {:induction false} IncludesAt(text: string, part: string)
    ensures Includes(text, part) <==> exists i :: OccursAt(text, part, i)
    decreases |text|
  {
    if |part| <= |text| && text[..|part|] == part {
      assert OccursAt(text, part, 0);
    } else if |part| <= |text| && |text| > 0 {
      IncludesAt(text[1..], part);
      forall i | OccursAt(text, part, i)
        ensures OccursAt(text[1..], part, i - 1)
      {
        assert i != 0;
        assert text[1..][i - 1..i - 1 + |part|] == text[i..i + |part|];
      }
      forall i | OccursAt(text[1..], part, i)
        ensures OccursAt(text, part, i + 1)
      {
        assert text[1..][i..i + |part|] == text[i + 1..i + 1 + |part|];
      }
    }
  }

  /** getShaderUniforms(render_data): the uniform entries, in the order the source lists them. */
  function GetShaderUniforms(rd: RendererData): (r: seq<(string, WGLPrograms.UniformValue)>)
    ensures |r| >= 1 && r[0].0 == "u_projection_matrix"
    ensures rd.Autumn? ==> r == [("u_projection_matrix", WGLPrograms.Numbers(rd.mainMatrix))]
    ensures rd.MapLibre? ==> r[0].1 == WGLPrograms.Numbers(rd.defaultProjectionData.mainMatrix)
    ensures rd.MapLibre? ==> (|r| == 5 <==> Includes(rd.shaderData.define, "GLOBE"))
    ensures |r| == 1 || |r| == 5
  {
    match rd
    case Autumn(m) => [("u_projection_matrix", WGLPrograms.Numbers(m))]
    case MapLibre(p, sd) =>
      if Includes(sd.define, "GLOBE") then
        [("u_projection_matrix", WGLPrograms.Numbers(p.mainMatrix)),
         ("u_projection_fallback_matrix", WGLPrograms.Numbers(p.fallbackMatrix)),
         ("u_projection_tile_mercator_coords", WGLPrograms.Numbers(p.tileMercatorCoords)),
         ("u_projection_clipping_plane", WGLPrograms.Numbers(p.clippingPlane)),
         ("u_projection_transition", WGLPrograms.Number(p.projectionTransition))]
      else [("u_projection_matrix", WGLPrograms.Numbers(p.mainMatrix))]
  }
}
