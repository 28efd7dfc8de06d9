/**
 * The script-side entry to contouring: option validation, the choice of
 * the entry points by array type, and the one-time loading of the module.
 */
module ContourCreator {
  import opened Wrappers
  import opened ContourTypes
  import MarchingSquares
  import ContourBindings

  /**
   * The memoised module loader: the first call starts loading and keeps the
   * handle; every later call returns the same handle. The handle stands for
   * the promise, loads counts the calls to the module factory.
   */
  class ModuleLoader {
    var promise: Option<nat>
    var loads: nat

    constructor ()
      ensures promise.None? && loads == 0
    {
      promise := None;
      loads := 0;
    }

    /** initMSModule; newModule is the handle the factory returns when it is called. */
    method InitMSModule(newModule: nat) returns (p: nat)
      modifies this
      ensures old(promise).Some? ==> p == old(promise).value && promise == old(promise) && loads == old(loads)
      ensures old(promise).None? ==> p == newModule && promise == Some(newModule) && loads == old(loads) + 1
      ensures loads <= 1 + old(loads) && promise.Some?
    {
      if promise.None? {
        promise := Some(newModule);
        loads := loads + 1;
      }
      p := promise.value;
    }
  }

  /** Loading twice from a fresh loader calls the factory once and gives the same handle both times. */
  method LoadTwice(first: nat, second: nat) returns (p1: nat, p2: nat, loads: nat)
    ensures p1 == p2 == first && loads == 1
  {
    var loader := new ModuleLoader();
    p1 := loader.InitMSModule(first);
    p2 := loader.InitMSModule(second);
    loads := loader.loads;
  }

  datatype ContourOpts = ContourOpts(interval: Option<real>, levels: Option<seq<real>>, quadAsTri: Option<bool>)

  /** The entry points are chosen by the array type: Float32 for Float32Array, Float16 for any other. */
  datatype Precision = Float32 | Float16

  /** How the levels are obtained: as given, or generated from the grid at the interval. */
  datatype LevelSource = Given(levels: seq<real>) | FromGrid(interval: real)

  datatype ContourPlan = ContourPlan(precision: Precision, levels: LevelSource, quadAsTri: bool)

  const NO_LEVELS_MESSAGE := "Must supply either an interval or levels to contourCreator()"

  /** The validation and defaulting of the options. */
  function PlanContours(isFloat32Array: bool, opts: ContourOpts): (r: Result<ContourPlan>)
    ensures r.Err? <==> opts.interval.None? && opts.levels.None?
    ensures r.Err? ==> r.error == NO_LEVELS_MESSAGE
    ensures r.Ok? ==> (r.value.precision == Float32 <==> isFloat32Array)
    ensures r.Ok? ==> r.value.quadAsTri == (opts.quadAsTri.Some? && opts.quadAsTri.value)
    ensures r.Ok? && opts.levels.Some? ==> r.value.levels == Given(opts.levels.value)
    ensures r.Ok? && opts.levels.None? ==> r.value.levels == FromGrid(opts.interval.value)
  {
    if opts.interval.None? && opts.levels.None? then Err(NO_LEVELS_MESSAGE)
    else
      var interval := if opts.interval.None? then 0.0 else opts.interval.value;
      var quadAsTri := if opts.quadAsTri.None? then false else opts.quadAsTri.value;
      var precision := if isFloat32Array then Float32 else Float16;
      var levels := if opts.levels.None? then FromGrid(interval) else Given(opts.levels.value);
      Ok(ContourPlan(precision, levels, quadAsTri))
  }

  /**
   * contourCreator: validate the options, obtain the levels, contour the
   * data over the grid coordinates and group the result by level. The
   * grid's inverse transform and the multi-level contouring are parameters.
   */
  method ContourCreatorRun<P>(data: seq<MarchingSquares.Sample>, isFloat32Array: bool, ni: int, nj: int,
                              xs: seq<real>, ys: seq<real>, opts: ContourOpts,
                              inverse: (real, real) -> P,
                              makeContours: (seq<MarchingSquares.Sample>, seq<real>, seq<real>, int, int, seq<real>, bool) -> seq<Contour>)
    returns (r: Result<map<real, seq<seq<P>>>>)
    ensures opts.interval.None? && opts.levels.None? ==> r == Err(NO_LEVELS_MESSAGE)
    ensures opts.levels.Some? && r.Ok? ==>
      ContourBindings.Grouped(makeContours(data, xs, ys, |xs|, |ys|, opts.levels.value, opts.quadAsTri == Some(true)), inverse, r.value)
    ensures opts.levels.Some? ==> (r.Err? <==> |xs| * |ys| != |data|)
    ensures opts.levels.None? && opts.interval.Some? ==>
      (r.Err? <==> ni * nj != |data| || MarchingSquares.GridLevels(data, opts.interval.value).None? || |xs| * |ys| != |data|)
    ensures (opts.levels.None? && opts.interval.Some? && r.Ok? ==>
      MarchingSquares.GridLevels(data, opts.interval.value).Some? &&
      ContourBindings.Grouped(makeContours(data, xs, ys, |xs|, |ys|, MarchingSquares.GridLevels(data, opts.interval.value).value,
                                           opts.quadAsTri == Some(true)), inverse, r.value))
  {
    var plan := PlanContours(isFloat32Array, opts);
    if plan.Err? {
      return Err(plan.error);
    }
    var levels: seq<real>;
    match plan.value.levels {
      case Given(ls) =>
        levels := ls;
      case FromGrid(interval) =>
        var generated := ContourBindings.GetContourLevelsWASM(data, ni, nj, interval);
        if generated.Err? {
          return Err(generated.error);
        }
        if generated.value.None? {
          return Err("contour levels are undefined for this grid and interval");
        }
        levels := generated.value.value;
    }
    r := ContourBindings.MakeContoursWASM(data, xs, ys, levels, inverse, plan.value.quadAsTri, makeContours);
  }
}
