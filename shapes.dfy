/**
 * The `TensorRTShape` record of convert/tensorrt_utils.py: the minimum,
 * optimal and maximum shape of one network input for an optimization profile.
 * A record whose input name is `None` is a template that is later copied once
 * per network input.
 */
module TensorRTShapes {
  import opened Wrappers

  datatype TensorRTShape = TensorRTShape(
    minShape: seq<int>,
    optimalShape: seq<int>,
    maxShape: seq<int>,
    inputName: Option<string>)

  /** The assertion of `check_validity` that fails first, in source order. */
  datatype ShapeError = LengthMismatch | EmptyShape | NonPositiveBatch | MissingInputName

  /** `generate_multiple_shapes` called on a record that already has a name. */
  datatype PreconditionError = NameAlreadySet(name: string)

  /** The three shapes of a record, in the order min, optimal, max. */
  function Shapes(s: TensorRTShape): seq<seq<int>>
  {
    [s.minShape, s.optimalShape, s.maxShape]
  }

  /**
   * Reference reading of a usable record: every one of its three shapes has
   * the rank of the minimum shape, that rank is at least one, every batch
   * (leading) dimension is positive, and the record names its input.
   * Nothing relates the three shapes to each other beyond their rank.
   */
  ghost predicate Usable(s: TensorRTShape)
  {
    && (forall sh :: sh in Shapes(s) ==> |sh| == |s.minShape| && |sh| > 0 && sh[0] > 0)
    && s.inputName.Some?
  }

  /** True when the three shapes are fine and only the name is missing, i.e. a usable template. */
  ghost predicate UsableTemplate(s: TensorRTShape)
  {
    (forall sh :: sh in Shapes(s) ==> |sh| == |s.minShape| && |sh| > 0 && sh[0] > 0)
    && s.inputName.None?
  }

  /**
   * `check_validity`: the four assertions, in order. `None` means every
   * assertion held; otherwise the first one that failed.
   */
  function CheckValidity(s: TensorRTShape): Option<ShapeError>
  {
    if !(|s.minShape| == |s.optimalShape| == |s.maxShape|) then Some(LengthMismatch)
    else if !(|s.minShape| > 0) then Some(EmptyShape)
    else if !(s.minShape[0] > 0 && s.optimalShape[0] > 0 && s.maxShape[0] > 0) then Some(NonPositiveBatch)
    else if s.inputName.None? then Some(MissingInputName)
    else None
  }

  /**
   * The check passes exactly on usable records, stops only at the name for a
   * usable template, and reports a rank mismatch before anything else.
   */
  lemma CheckValidityMeaning(s: TensorRTShape)
    ensures CheckValidity(s).None? <==> Usable(s)
    ensures CheckValidity(s) == Some(MissingInputName) <==> UsableTemplate(s)
    ensures CheckValidity(s) == Some(LengthMismatch) <==> !(|s.minShape| == |s.optimalShape| == |s.maxShape|)
  {
    assert Shapes(s)[0] == s.minShape && Shapes(s)[1] == s.optimalShape && Shapes(s)[2] == s.maxShape;
  }

  /**
   * The check does not order the three shapes: exchanging the minimum and the
   * maximum shape of a record never changes its verdict.
   */
  lemma CheckValidityIgnoresOrdering(s: TensorRTShape)
    ensures CheckValidity(s.(minShape := s.maxShape, maxShape := s.minShape)) == None
        <==> CheckValidity(s) == None
  {
    var t := s.(minShape := s.maxShape, maxShape := s.minShape);
    assert Shapes(t)[0] == Shapes(s)[2] && Shapes(t)[2] == Shapes(s)[0];
  }

  /** A concrete record the check accepts although its minimum exceeds its maximum. */
  lemma UnorderedShapesPass()
    ensures var s := TensorRTShape([8, 128], [4, 128], [1, 128], Some("text"));
            CheckValidity(s) == None && s.minShape[0] > s.maxShape[0]
  {
    var s := TensorRTShape([8, 128], [4, 128], [1, 128], Some("text"));
    assert Shapes(s) == [[8, 128], [4, 128], [1, 128]];
  }

  /**
   * `make_copy`: a copy of the record under another input name. The copy of a
   * template with good shapes is usable, and a copy is usable only when the
   * original's shapes were good.
   */
  function MakeCopy(s: TensorRTShape, inputName: string): (r: TensorRTShape)
    ensures Shapes(r) == Shapes(s) && r.inputName == Some(inputName)
    ensures CheckValidity(r).None? <==> (CheckValidity(s).None? || CheckValidity(s) == Some(MissingInputName))
  {
    s.(inputName := Some(inputName))
  }

  /** What `generate_multiple_shapes` returns for a template: one renamed copy per input name, in order. */
  function Expanded(template: TensorRTShape, inputNames: seq<string>): (r: seq<TensorRTShape>)
    ensures |r| == |inputNames|
  {
    seq(|inputNames|, k requires 0 <= k < |inputNames| => MakeCopy(template, inputNames[k]))
  }

  /**
   * `generate_multiple_shapes`: refuses a record that already has a name;
   * otherwise returns one descriptor per input name, in input order, each
   * with the template's three shapes and that name.
   */
  method GenerateMultipleShapes(template: TensorRTShape, inputNames: seq<string>)
    returns (r: Result<seq<TensorRTShape>, PreconditionError>)
    ensures template.inputName.Some? ==> r == Err(NameAlreadySet(template.inputName.value))
    ensures template.inputName.None? ==> r.Ok? && |r.value| == |inputNames|
    ensures r.Ok? ==> forall k :: 0 <= k < |inputNames| ==>
              && r.value[k].inputName == Some(inputNames[k])
              && r.value[k].minShape == template.minShape
              && r.value[k].optimalShape == template.optimalShape
              && r.value[k].maxShape == template.maxShape
    ensures r.Ok? ==> r.value == Expanded(template, inputNames)
  {
    if template.inputName.Some? {
      return Err(NameAlreadySet(template.inputName.value));
    }
    var result: seq<TensorRTShape> := [];
    var i := 0;
    while i < |inputNames|
      invariant 0 <= i <= |inputNames|
      invariant result == Expanded(template, inputNames[..i])
    {
      var shape := MakeCopy(template, inputNames[i]);
      result := result + [shape];
      i := i + 1;
    }
    assert inputNames[..i] == inputNames;
    return Ok(result);
  }

  /** Expanding a usable template yields only usable descriptors, each naming its input. */
  lemma ExpandedUsable(template: TensorRTShape, inputNames: seq<string>)
    requires CheckValidity(template) == Some(MissingInputName)
    ensures forall k :: 0 <= k < |inputNames| ==>
              CheckValidity(Expanded(template, inputNames)[k]) == None
  {
  }
}
