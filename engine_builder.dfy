/**
 * `build_engine` of convert/tensorrt_utils.py: choosing the shape
 * descriptors, expanding a lone template over the network inputs, validating
 * and registering every range on one optimization profile, setting the
 * builder flags and the timing cache, patching the network for FP16 and
 * calling the compiler. Parsing and compiling are foreign calls: the parsed
 * network arrives as its input names and its layer array, and the compiler
 * is a function that may return no engine. Whether TensorRT's optimization
 * profile accepts a range (`set_shape`) or a shape-tensor descriptor
 * (`set_shape_input`) is a predicate given by the caller: a rejected one
 * raises and ends the build.
 */
module EngineBuilder {
  import opened Wrappers
  import opened TensorRTShapes
  import opened Fp16Fix
  import opened Bindings

  /** The keyword arguments `build_engine` reads from `**kwargs`; `None` means the key is absent. */
  datatype ShapeKwargs = ShapeKwargs(
    minShape: Option<seq<int>>,
    optimalShape: Option<seq<int>>,
    maxShape: Option<seq<int>>,
    inputShapes: Option<seq<TensorRTShape>>,
    shapeTensors: Option<seq<TensorRTShape>>)

  /** The ways `build_engine` fails, in the order it can meet them. */
  datatype BuildError =
    | MissingInputShapes
    | UnreadableVersion
    | InvalidShape(index: nat, reason: ShapeError)
    | RangeRejected(index: nat)
    | ShapeInputRejected(index: nat)
    | EngineBuildFailed

  datatype TacticSource = Cublas | CublasLt | Cudnn

  datatype BuilderFlag = Int8Flag | Fp16Flag | ObeyPrecisionConstraints

  /** The timing cache attached to the config: none, or one for a path, loaded from the file or started empty. */
  datatype TimingCache = NoTimingCache | TimingCache(path: string, loadedFromFile: bool, ignoreMismatch: bool)

  /** One `profile.set_shape` call. */
  datatype ShapeRange = ShapeRange(inputName: string, min: seq<int>, opt: seq<int>, max: seq<int>)

  /** An optimization profile: its shape ranges and its `set_shape_input` descriptors. */
  datatype Profile = Profile(ranges: seq<ShapeRange>, shapeInputs: seq<TensorRTShape>)

  /** The parts of TensorRT's builder config that `build_engine` sets. `None` workspace = the builder's default. */
  datatype BuilderConfig = BuilderConfig(
    workspaceSize: Option<int>,
    tacticSources: set<TacticSource>,
    flags: set<BuilderFlag>,
    timingCache: TimingCache,
    profiles: seq<Profile>)

  /** A successful build: the engine, the config it was built with, and where the timing cache was written back. */
  datatype BuiltEngine = BuiltEngine(engine: Engine, config: BuilderConfig, timingCacheSavedTo: Option<string>)

  predicate HasDefaultShape(kw: ShapeKwargs)
  {
    kw.minShape.Some? && kw.optimalShape.Some? && kw.maxShape.Some?
  }

  /**
   * The descriptor list: the three shape keywords, when all are given, make
   * one template and win over `input_shapes`; otherwise `input_shapes` is
   * used as given and must be present.
   */
  function InputShapeList(kw: ShapeKwargs): (r: Result<seq<TensorRTShape>, BuildError>)
    ensures HasDefaultShape(kw) ==>
              r == Ok([TensorRTShape(kw.minShape.value, kw.optimalShape.value, kw.maxShape.value, None)])
    ensures !HasDefaultShape(kw) && kw.inputShapes.Some? ==> r == Ok(kw.inputShapes.value)
    ensures r.Err? <==> !HasDefaultShape(kw) && kw.inputShapes.None?
    ensures r.Err? ==> r.error == MissingInputShapes
  {
    if HasDefaultShape(kw) then
      Ok([TensorRTShape(kw.minShape.value, kw.optimalShape.value, kw.maxShape.value, None)])
    else if kw.inputShapes.None? then Err(MissingInputShapes)
    else Ok(kw.inputShapes.value)
  }

  /**
   * The descriptors registered on the profile: a lone unnamed descriptor is
   * expanded over the network's input names in declaration order; any other
   * list (several descriptors, or a named one) is used as given.
   */
  function ProfileShapes(shapes: seq<TensorRTShape>, networkInputs: seq<string>): (r: seq<TensorRTShape>)
    ensures |shapes| == 1 && shapes[0].inputName.None? ==>
              |r| == |networkInputs| &&
              forall k :: 0 <= k < |r| ==> r[k].inputName == Some(networkInputs[k]) && Shapes(r[k]) == Shapes(shapes[0])
    ensures !(|shapes| == 1 && shapes[0].inputName.None?) ==> r == shapes
  {
    if |shapes| == 1 && shapes[0].inputName.None? then Expanded(shapes[0], networkInputs) else shapes
  }

  /** The range `profile.set_shape` receives for a checked descriptor. */
  function RangeOf(s: TensorRTShape): ShapeRange
    requires s.inputName.Some?
  {
    ShapeRange(s.inputName.value, s.minShape, s.optimalShape, s.maxShape)
  }

  /** The descriptor passes its check and TensorRT accepts its range. */
  predicate Registrable(d: TensorRTShape, rangeAccepted: ShapeRange -> bool)
  {
    CheckValidity(d).None? && d.inputName.Some? && rangeAccepted(RangeOf(d))
  }

  /**
   * The registration loop: each descriptor is checked, then its range is
   * handed to `profile.set_shape`; the first failed check, or the first
   * range TensorRT rejects, ends the build.
   */
  function Registered(ds: seq<TensorRTShape>, rangeAccepted: ShapeRange -> bool): Result<seq<ShapeRange>, BuildError>
  {
    if ds == [] then Ok([])
    else match Registered(ds[..|ds| - 1], rangeAccepted)
      case Err(err) => Err(err)
      case Ok(ranges) =>
        var d := ds[|ds| - 1];
        match CheckValidity(d)
        case Some(reason) => Err(InvalidShape(|ds| - 1, reason))
        case None =>
          if rangeAccepted(RangeOf(d)) then Ok(ranges + [RangeOf(d)]) else Err(RangeRejected(|ds| - 1))
  }

  /**
   * Registration succeeds exactly when every descriptor passes the check and
   * has its range accepted, and then registers one range per descriptor, in
   * order. A failure names the first descriptor that is not registrable:
   * with the assertion it failed, or as a checked range TensorRT rejected.
   */
  lemma {:induction false} RegisteredSpec(ds: seq<TensorRTShape>, rangeAccepted: ShapeRange -> bool)
    ensures Registered(ds, rangeAccepted).Ok? <==> forall k :: 0 <= k < |ds| ==> Registrable(ds[k], rangeAccepted)
    ensures Registered(ds, rangeAccepted).Ok? ==>
              |Registered(ds, rangeAccepted).value| == |ds| &&
              forall k :: 0 <= k < |ds| ==>
                ds[k].inputName.Some? && Registered(ds, rangeAccepted).value[k] == RangeOf(ds[k])
    ensures Registered(ds, rangeAccepted).Err? ==>
              var err := Registered(ds, rangeAccepted).error;
              && (err.InvalidShape? || err.RangeRejected?)
              && err.index < |ds|
              && (forall j :: 0 <= j < err.index ==> Registrable(ds[j], rangeAccepted))
              && (err.InvalidShape? ==> CheckValidity(ds[err.index]) == Some(err.reason))
              && (err.RangeRejected? ==>
                    CheckValidity(ds[err.index]).None? && ds[err.index].inputName.Some? &&
                    !rangeAccepted(RangeOf(ds[err.index])))
  {
    if ds != [] {
      var init := ds[..|ds| - 1];
      var d := ds[|ds| - 1];
      RegisteredSpec(init, rangeAccepted);
      assert forall k :: 0 <= k < |init| ==> init[k] == ds[k];
      match Registered(init, rangeAccepted)
      case Err(err) =>
        assert Registered(ds, rangeAccepted) == Err(err);
      case Ok(ranges) =>
        match CheckValidity(d)
        case Some(reason) =>
          assert Registered(ds, rangeAccepted) == Err(InvalidShape(|ds| - 1, reason));
        case None =>
          if rangeAccepted(RangeOf(d)) {
            assert Registered(ds, rangeAccepted) == Ok(ranges + [RangeOf(d)]);
          } else {
            assert Registered(ds, rangeAccepted) == Err(RangeRejected(|ds| - 1));
          }
    }
  }

  /** Once a prefix fails, the longer prefixes fail the same way. */
  lemma {:induction false} RegisteredErrSticks(ds: seq<TensorRTShape>, rangeAccepted: ShapeRange -> bool, n: nat, m: nat)
    requires n <= m <= |ds|
    requires Registered(ds[..n], rangeAccepted).Err?
    ensures Registered(ds[..m], rangeAccepted) == Registered(ds[..n], rangeAccepted)
    decreases m - n
  {
    if n < m {
      RegisteredErrSticks(ds, rangeAccepted, n, m - 1);
      assert ds[..m][..m - 1] == ds[..m - 1];
    }
  }

  /**
   * The consistency `IOptimizationProfile::setDimensions` of the TensorRT
   * API documents for a range: equal ranks, and in every dimension
   * 0 <= min <= opt <= max.
   */
  predicate ConsistentRange(r: ShapeRange)
  {
    && |r.min| == |r.opt| == |r.max|
    && forall d :: 0 <= d < |r.min| ==> 0 <= r.min[d] <= r.opt[d] <= r.max[d]
  }

  /**
   * A descriptor can pass `check_validity` and still be refused by the
   * profile: with TensorRT's documented consistency rule, a batch range from
   * 8 down to 1 fails registration at `set_shape`, not at the check.
   */
  lemma UnorderedRangeRejected()
    ensures var d := TensorRTShape([8, 128], [4, 128], [1, 128], Some("text"));
            CheckValidity(d) == None && Registered([d], ConsistentRange) == Err(RangeRejected(0))
  {
    UnorderedShapesPass();
    var d := TensorRTShape([8, 128], [4, 128], [1, 128], Some("text"));
    assert !ConsistentRange(RangeOf(d)) by {
      assert RangeOf(d).min[0] > RangeOf(d).opt[0];
    }
    assert [d][..0] == [];
  }

  /**
   * The position of the first `shape_tensors` descriptor TensorRT refuses in
   * `profile.set_shape_input`; `|ts|` when it accepts them all.
   */
  function FirstRejectedShapeInput(ts: seq<TensorRTShape>, shapeInputAccepted: TensorRTShape -> bool): (r: nat)
    ensures r <= |ts|
    ensures forall k :: 0 <= k < r ==> shapeInputAccepted(ts[k])
    ensures r < |ts| ==> !shapeInputAccepted(ts[r])
  {
    if ts == [] then 0
    else if !shapeInputAccepted(ts[0]) then 0
    else 1 + FirstRejectedShapeInput(ts[1..], shapeInputAccepted)
  }

  /** A position whose earlier descriptors are all accepted is the first rejected one exactly when its own is rejected. */
  lemma FirstRejectedShapeInputAt(ts: seq<TensorRTShape>, shapeInputAccepted: TensorRTShape -> bool, m: nat)
    requires m <= |ts|
    requires forall k :: 0 <= k < m ==> shapeInputAccepted(ts[k])
    requires m < |ts| ==> !shapeInputAccepted(ts[m])
    ensures FirstRejectedShapeInput(ts, shapeInputAccepted) == m
  {
  }

  /** The `shape_tensors` descriptors, or none when the keyword is absent. */
  function ShapeInputs(kw: ShapeKwargs): seq<TensorRTShape>
  {
    if kw.shapeTensors.Some? then kw.shapeTensors.value else []
  }

  /**
   * The optimization profile `build_engine` attaches: the ranges of the
   * (expanded) descriptors, then the shape-tensor descriptors, or the first
   * failure among them.
   */
  function ProfileOutcome(inputShapes: seq<TensorRTShape>, networkInputs: seq<string>, shapeTensors: seq<TensorRTShape>,
                          rangeAccepted: ShapeRange -> bool, shapeInputAccepted: TensorRTShape -> bool)
    : (r: Result<Profile, BuildError>)
    ensures r.Ok? <==> Registered(ProfileShapes(inputShapes, networkInputs), rangeAccepted).Ok?
                       && FirstRejectedShapeInput(shapeTensors, shapeInputAccepted) == |shapeTensors|
    ensures r.Ok? ==> r.value.ranges == Registered(ProfileShapes(inputShapes, networkInputs), rangeAccepted).value
                      && r.value.shapeInputs == shapeTensors
    ensures Registered(ProfileShapes(inputShapes, networkInputs), rangeAccepted).Err? ==>
              r == Err(Registered(ProfileShapes(inputShapes, networkInputs), rangeAccepted).error)
    ensures var j := FirstRejectedShapeInput(shapeTensors, shapeInputAccepted);
            Registered(ProfileShapes(inputShapes, networkInputs), rangeAccepted).Ok? && j < |shapeTensors| ==>
              r == Err(ShapeInputRejected(j))
  {
    match Registered(ProfileShapes(inputShapes, networkInputs), rangeAccepted)
    case Err(err) => Err(err)
    case Ok(ranges) =>
      var j := FirstRejectedShapeInput(shapeTensors, shapeInputAccepted);
      if j < |shapeTensors| then Err(ShapeInputRejected(j)) else Ok(Profile(ranges, shapeTensors))
  }

  /**
   * The simple case of the source's docstring: when the three shape keywords
   * are given and make a usable template, the profile gets exactly one
   * range per network input, in declaration order, each with those shapes,
   * whatever `input_shapes` holds, exactly when TensorRT accepts each of
   * those ranges; otherwise registration stops at the first input whose
   * range it rejects.
   */
  lemma DefaultShapeProfile(kw: ShapeKwargs, networkInputs: seq<string>, rangeAccepted: ShapeRange -> bool)
    requires HasDefaultShape(kw)
    requires CheckValidity(TensorRTShape(kw.minShape.value, kw.optimalShape.value, kw.maxShape.value, None))
             == Some(MissingInputName)
    ensures var registered := Registered(ProfileShapes(InputShapeList(kw).value, networkInputs), rangeAccepted);
            registered.Ok? <==>
              forall k :: 0 <= k < |networkInputs| ==>
                rangeAccepted(ShapeRange(networkInputs[k], kw.minShape.value, kw.optimalShape.value, kw.maxShape.value))
    ensures var registered := Registered(ProfileShapes(InputShapeList(kw).value, networkInputs), rangeAccepted);
            registered.Ok? ==>
              |registered.value| == |networkInputs| &&
              forall k :: 0 <= k < |networkInputs| ==>
                registered.value[k] == ShapeRange(networkInputs[k], kw.minShape.value, kw.optimalShape.value, kw.maxShape.value)
    ensures var registered := Registered(ProfileShapes(InputShapeList(kw).value, networkInputs), rangeAccepted);
            registered.Err? ==>
              && registered.error.RangeRejected?
              && registered.error.index < |networkInputs|
              && !rangeAccepted(ShapeRange(networkInputs[registered.error.index],
                                           kw.minShape.value, kw.optimalShape.value, kw.maxShape.value))
  {
    var template := TensorRTShape(kw.minShape.value, kw.optimalShape.value, kw.maxShape.value, None);
    var ds := ProfileShapes(InputShapeList(kw).value, networkInputs);
    assert ds == Expanded(template, networkInputs);
    ExpandedUsable(template, networkInputs);
    RegisteredSpec(ds, rangeAccepted);
    assert forall k :: 0 <= k < |ds| ==>
             RangeOf(ds[k]) == ShapeRange(networkInputs[k], kw.minShape.value, kw.optimalShape.value, kw.maxShape.value);
  }

  predicate IsDigit(c: char)
  {
    '0' <= c <= '9'
  }

  /**
   * `int(trt.__version__[0])`: the value of the version string's first
   * character. An empty string or a first character that is not a digit has
   * no value (Python raises).
   */
  function MajorVersion(version: string): (r: Option<nat>)
    ensures r.Some? <==> |version| > 0 && IsDigit(version[0])
    ensures r.Some? ==> r.value == version[0] as int - '0' as int && r.value <= 9
  {
    if |version| > 0 && IsDigit(version[0]) then Some((version[0] as int - '0' as int) as nat) else None
  }

  /** Only the first character is read: a version "10.0.1" counts as major version 1. */
  lemma MajorVersionReadsFirstCharacter(version: string)
    requires |version| >= 2 && IsDigit(version[0]) && IsDigit(version[1])
    ensures MajorVersion(version) == MajorVersion(version[..1])
  {
  }

  /**
   * The timing-cache decision: it is used exactly when the version's first
   * character is at least 8 and a path was given; an existing file is
   * loaded, otherwise the cache starts empty; mismatches are never ignored.
   * An unreadable version fails whether or not a path was given.
   */
  function PlanTimingCache(version: string, path: Option<string>, fileExists: bool): (r: Result<TimingCache, BuildError>)
    ensures r.Err? <==> MajorVersion(version).None?
    ensures r.Err? ==> r.error == UnreadableVersion
    ensures r.Ok? ==> (r.value.TimingCache? <==> MajorVersion(version).value >= 8 && path.Some?)
    ensures r.Ok? && r.value.TimingCache? ==>
              path == Some(r.value.path) && r.value.loadedFromFile == fileExists && !r.value.ignoreMismatch
  {
    match MajorVersion(version)
    case None => Err(UnreadableVersion)
    case Some(major) =>
      if major >= 8 && path.Some? then Ok(TimingCache(path.value, fileExists, false))
      else Ok(NoTimingCache)
  }

  /** The builder flags: INT8 iff `int8`, FP16 iff `fp16`, and the precision constraints always obeyed. */
  function PlannedFlags(fp16: bool, int8: bool): (r: set<BuilderFlag>)
    ensures Int8Flag in r <==> int8
    ensures Fp16Flag in r <==> fp16
    ensures ObeyPrecisionConstraints in r
  {
    (if int8 then {Int8Flag} else {}) + (if fp16 then {Fp16Flag} else {}) + {ObeyPrecisionConstraints}
  }

  /** The config handed to the compiler once every step succeeded. */
  function PlannedConfig(fp16: bool, int8: bool, workspaceSize: Option<int>, cache: TimingCache,
                         profile: Profile): BuilderConfig
  {
    BuilderConfig(workspaceSize, {Cublas, CublasLt, Cudnn}, PlannedFlags(fp16, int8), cache, [profile])
  }

  /** The loop at the heart of the profile set-up: check each descriptor, then register its range. */
  method RegisterShapes(inputShapes: seq<TensorRTShape>, rangeAccepted: ShapeRange -> bool)
    returns (r: Result<seq<ShapeRange>, BuildError>)
    ensures r == Registered(inputShapes, rangeAccepted)
  {
    var ranges: seq<ShapeRange> := [];
    var k := 0;
    while k < |inputShapes|
      invariant 0 <= k <= |inputShapes|
      invariant Registered(inputShapes[..k], rangeAccepted) == Ok(ranges)
    {
      var shape := inputShapes[k];
      assert inputShapes[..k + 1][..k] == inputShapes[..k];
      var failure := CheckValidity(shape);
      if failure.Some? {
        RegisteredErrSticks(inputShapes, rangeAccepted, k + 1, |inputShapes|);
        assert inputShapes[..|inputShapes|] == inputShapes;
        return Err(InvalidShape(k, failure.value));
      }
      var range := ShapeRange(shape.inputName.value, shape.minShape, shape.optimalShape, shape.maxShape);
      if !rangeAccepted(range) {
        RegisteredErrSticks(inputShapes, rangeAccepted, k + 1, |inputShapes|);
        assert inputShapes[..|inputShapes|] == inputShapes;
        return Err(RangeRejected(k));
      }
      ranges := ranges + [range];
      k := k + 1;
    }
    assert inputShapes[..k] == inputShapes;
    return Ok(ranges);
  }

  /** The `shape_tensors` loop: hand each descriptor to `profile.set_shape_input`, stopping at the first refused. */
  method RegisterShapeInputs(shapeTensors: seq<TensorRTShape>, shapeInputAccepted: TensorRTShape -> bool)
    returns (r: Result<seq<TensorRTShape>, BuildError>)
    ensures var j := FirstRejectedShapeInput(shapeTensors, shapeInputAccepted);
            r == if j < |shapeTensors| then Err(ShapeInputRejected(j)) else Ok(shapeTensors)
  {
    var k := 0;
    while k < |shapeTensors|
      invariant 0 <= k <= |shapeTensors|
      invariant forall i :: 0 <= i < k ==> shapeInputAccepted(shapeTensors[i])
    {
      if !shapeInputAccepted(shapeTensors[k]) {
        FirstRejectedShapeInputAt(shapeTensors, shapeInputAccepted, k);
        return Err(ShapeInputRejected(k));
      }
      k := k + 1;
    }
    FirstRejectedShapeInputAt(shapeTensors, shapeInputAccepted, k);
    return Ok(shapeTensors);
  }

  /**
   * The profile set-up of `build_engine`: expand a lone template over the
   * network inputs, register every descriptor's range, then every
   * shape-tensor descriptor.
   */
  method BuildProfile(inputShapes: seq<TensorRTShape>, networkInputs: seq<string>, shapeTensors: seq<TensorRTShape>,
                      rangeAccepted: ShapeRange -> bool, shapeInputAccepted: TensorRTShape -> bool)
    returns (r: Result<Profile, BuildError>)
    ensures r == ProfileOutcome(inputShapes, networkInputs, shapeTensors, rangeAccepted, shapeInputAccepted)
  {
    var shapes := inputShapes;
    if |shapes| == 1 && shapes[0].inputName.None? {
      var expanded := GenerateMultipleShapes(shapes[0], networkInputs);
      shapes := expanded.value;
    }
    assert shapes == ProfileShapes(inputShapes, networkInputs);
    var registered := RegisterShapes(shapes, rangeAccepted);
    if registered.Err? {
      return Err(registered.error);
    }
    var shapeInputs := RegisterShapeInputs(shapeTensors, shapeInputAccepted);
    if shapeInputs.Err? {
      return Err(shapeInputs.error);
    }
    return Ok(Profile(registered.value, shapeInputs.value));
  }

  /**
   * The builder-config steps of `build_engine` before parsing: workspace,
   * tactic sources, precision flags, timing cache, and the precision
   * constraints flag; the profile is added later.
   */
  method ConfigureBuilder(fp16: bool, int8: bool, workspaceSize: Option<int>, timingCachePath: Option<string>,
                          trtVersion: string, timingCacheFileExists: bool)
    returns (r: Result<BuilderConfig, BuildError>)
    ensures MajorVersion(trtVersion).None? ==> r == Err(UnreadableVersion)
    ensures MajorVersion(trtVersion).Some? ==>
              r == Ok(BuilderConfig(workspaceSize, {Cublas, CublasLt, Cudnn}, PlannedFlags(fp16, int8),
                                    PlanTimingCache(trtVersion, timingCachePath, timingCacheFileExists).value, []))
  {
    var config := BuilderConfig(None, {}, {}, NoTimingCache, []);
    if workspaceSize.Some? {
      config := config.(workspaceSize := workspaceSize);
    }
    config := config.(tacticSources := {Cublas, CublasLt, Cudnn});
    if int8 {
      config := config.(flags := config.flags + {Int8Flag});
    }
    if fp16 {
      config := config.(flags := config.flags + {Fp16Flag});
    }

    if |trtVersion| == 0 || !IsDigit(trtVersion[0]) {
      return Err(UnreadableVersion);
    }
    var timingCacheAvailable := (trtVersion[0] as int - '0' as int) >= 8 && timingCachePath.Some?;
    if timingCacheAvailable {
      if timingCacheFileExists {
        config := config.(timingCache := TimingCache(timingCachePath.value, true, false));
      } else {
        config := config.(timingCache := TimingCache(timingCachePath.value, false, false));
      }
    }
    config := config.(flags := config.flags + {ObeyPrecisionConstraints});
    assert config.flags == PlannedFlags(fp16, int8);
    return Ok(config);
  }

  /** The result of the compiler call: no engine fails the build, otherwise the engine with its config and cache path. */
  function CompileOutcome(built: Option<Engine>, config: BuilderConfig, savedTo: Option<string>)
    : (r: Result<BuiltEngine, BuildError>)
    ensures r.Err? <==> built.None?
    ensures r.Err? ==> r.error == EngineBuildFailed
    ensures r.Ok? ==> r.value == BuiltEngine(built.value, config, savedTo)
  {
    match built
    case None => Err(EngineBuildFailed)
    case Some(engine) => Ok(BuiltEngine(engine, config, savedTo))
  }

  /**
   * The end of `build_engine` once the profile is on the config: the FP16
   * fix when `fp16` is set, then the compiler call on the patched network.
   */
  method CompileNetwork(fp16: bool, fp16BannedOps: Option<seq<string>>, config: BuilderConfig,
                        layers: array<Layer>, compile: (seq<Layer>, BuilderConfig) -> Option<Engine>,
                        savedTo: Option<string>)
    returns (r: Result<BuiltEngine, BuildError>)
    modifies layers
    ensures layers[..] == (if fp16 then Fp16Fixed(old(layers[..]), fp16BannedOps) else old(layers[..]))
    ensures r == CompileOutcome(compile(layers[..], config), config, savedTo)
  {
    if fp16 {
      FixFp16Network(layers, fp16BannedOps);
    }
    var engine := compile(layers[..], config);
    if engine.None? {
      return Err(EngineBuildFailed);
    }
    return Ok(BuiltEngine(engine.value, config, savedTo));
  }

  /**
   * `build_engine`. Fails, in this order, without touching the network: when
   * neither the three shape keywords nor `input_shapes` are given; when the
   * version cannot be read; when a descriptor fails its check or TensorRT
   * rejects its range; when TensorRT rejects a shape-tensor descriptor.
   * Otherwise the network is patched iff `fp16`, the compiler gets the
   * planned config, a missing engine fails the build, and the timing cache is
   * written back exactly when it was in use.
   */
  method BuildEngine(
    fp16: bool, int8: bool, workspaceSize: Option<int>, fp16BannedOps: Option<seq<string>>,
    timingCachePath: Option<string>, kwargs: ShapeKwargs,
    trtVersion: string, timingCacheFileExists: bool,
    networkInputs: seq<string>, layers: array<Layer>,
    rangeAccepted: ShapeRange -> bool, shapeInputAccepted: TensorRTShape -> bool,
    compile: (seq<Layer>, BuilderConfig) -> Option<Engine>)
    returns (r: Result<BuiltEngine, BuildError>)
    modifies layers
    ensures InputShapeList(kwargs).Err? ==> r == Err(MissingInputShapes) && layers[..] == old(layers[..])
    ensures InputShapeList(kwargs).Ok? && MajorVersion(trtVersion).None? ==>
              r == Err(UnreadableVersion) && layers[..] == old(layers[..])
    ensures InputShapeList(kwargs).Ok? && MajorVersion(trtVersion).Some? ==>
              var profile := ProfileOutcome(InputShapeList(kwargs).value, networkInputs, ShapeInputs(kwargs),
                                            rangeAccepted, shapeInputAccepted);
              var cache := PlanTimingCache(trtVersion, timingCachePath, timingCacheFileExists).value;
              && (profile.Err? ==> r == Err(profile.error) && layers[..] == old(layers[..]))
              && (profile.Ok? ==>
                   && layers[..] == (if fp16 then Fp16Fixed(old(layers[..]), fp16BannedOps) else old(layers[..]))
                   && var config := PlannedConfig(fp16, int8, workspaceSize, cache, profile.value);
                      r == CompileOutcome(compile(layers[..], config), config,
                                          if cache.TimingCache? then timingCachePath else None))
  {
    var chosen := InputShapeList(kwargs);
    if chosen.Err? {
      return Err(chosen.error);
    }

    var configured := ConfigureBuilder(fp16, int8, workspaceSize, timingCachePath, trtVersion, timingCacheFileExists);
    if configured.Err? {
      return Err(configured.error);
    }
    var config := configured.value;
    var timingCacheAvailable := config.timingCache.TimingCache?;

    var profile := BuildProfile(chosen.value, networkInputs, ShapeInputs(kwargs), rangeAccepted, shapeInputAccepted);
    if profile.Err? {
      return Err(profile.error);
    }
    config := config.(profiles := config.profiles + [profile.value]);
    assert config == PlannedConfig(fp16, int8, workspaceSize,
                                   PlanTimingCache(trtVersion, timingCachePath, timingCacheFileExists).value,
                                   profile.value);
    var savedTo := if timingCacheAvailable then timingCachePath else None;
    r := CompileNetwork(fp16, fp16BannedOps, config, layers, compile, savedTo);
  }
}
