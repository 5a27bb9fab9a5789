/**
 * The inference side of convert/tensorrt_utils.py: the execution context's
 * per-slot shape state, `get_output_tensors`, and the `TensorRTModel` class
 * whose call checks and narrows the named inputs, binds every input shape
 * (TensorRT may reject one, which the code does not check), allocates one
 * output per output slot unless a shape is left unresolved, and launches the
 * engine with the inputs followed by the outputs.
 */
module Runtime {
  import opened Wrappers
  import opened Bindings

  datatype DType = Int64 | Int32 | Float32 | Float16 | Bool

  datatype Device = Cuda | Cpu

  /** A torch tensor reduced to its element type, its device and its shape. */
  datatype Tensor = Tensor(dtype: DType, device: Device, shape: seq<int>)

  /** One access to the context's binding shapes, in the order it happened. */
  datatype ShapeAccess = SetShape(slot: int) | ReadShape(slot: int)

  /**
   * The ways `__call__` can fail, with the offending tensor name: its two
   * assertions on an input, and `torch.empty` refusing an output shape that
   * still has an unresolved (negative) dimension.
   */
  datatype CallError = MissingInput(name: string) | DeviceMismatch(name: string) | UnresolvedShape(name: string)

  /** `load_engine`: the file is absent, or the runtime could not deserialize it. */
  datatype LoadError = EngineFileMissing | DeserializationFailed

  /** TensorRT gives every binding slot of an engine its own name. */
  predicate UniqueNames(e: Engine)
  {
    forall i, j :: 0 <= i < j < |e.bindings| ==> e.bindings[i].name != e.bindings[j].name
  }

  /** Every slot of the list is a slot of the engine's table. */
  predicate InTable(e: Engine, slots: seq<int>)
  {
    forall k :: 0 <= k < |slots| ==> 0 <= slots[k] < |e.bindings|
  }

  /** `engine.get_binding_name(i)`. */
  function BindingName(e: Engine, i: int): string
    requires 0 <= i < |e.bindings|
  {
    e.bindings[i].name
  }

  /** An int64 input is cast to int32 before binding; any other tensor is bound as given. */
  function Narrow(t: Tensor): (r: Tensor)
    ensures r.dtype != Int64 && r.shape == t.shape && r.device == t.device
    ensures t.dtype != Int64 ==> r == t
    ensures t.dtype == Int64 ==> r.dtype == Int32
  {
    if t.dtype == Int64 then t.(dtype := Int32) else t
  }

  /** Python's `zip(host_inputs, input_binding_idxs)`, keeping each input's shape; stops at the shorter list. */
  function Zip(hostInputs: seq<Tensor>, slots: seq<int>): seq<(int, seq<int>)>
  {
    var n := if |hostInputs| < |slots| then |hostInputs| else |slots|;
    seq(n, k requires 0 <= k < n => (slots[k], hostInputs[k].shape))
  }

  /**
   * The binding shapes after `set_binding_shape` was called for each pair, in
   * order. TensorRT stores a shape only when it `accepts` it for the slot (it
   * lies within the profile's range); a rejected call leaves the slot as it was.
   */
  function Assigned(m: map<int, seq<int>>, pairs: seq<(int, seq<int>)>, accepts: (int, seq<int>) -> bool): map<int, seq<int>>
  {
    if pairs == [] then m
    else
      var prev := Assigned(m, pairs[..|pairs| - 1], accepts);
      var last := pairs[|pairs| - 1];
      if accepts(last.0, last.1) then prev[last.0 := last.1] else prev
  }

  predicate DistinctSlots(pairs: seq<(int, seq<int>)>)
  {
    forall i, j :: 0 <= i < j < |pairs| ==> pairs[i].0 != pairs[j].0
  }

  /** No pair binds slot `x`. */
  predicate Untouched(pairs: seq<(int, seq<int>)>, x: int)
  {
    forall k :: 0 <= k < |pairs| ==> pairs[k].0 != x
  }

  /** Slot `x` holds in `a` what it held in `m`: the same shape, or no shape in both. */
  predicate KeptFrom(m: map<int, seq<int>>, a: map<int, seq<int>>, x: int)
  {
    (x in a <==> x in m) && (x in m ==> a[x] == m[x])
  }

  /**
   * With distinct slots, every slot whose shape TensorRT accepts ends with
   * that shape; a slot whose shape it rejects keeps its previous shape (a
   * stale one from an earlier call, or none), and so does every slot no pair
   * binds.
   */
  lemma {:induction false} AssignedShapes(m: map<int, seq<int>>, pairs: seq<(int, seq<int>)>,
                                          accepts: (int, seq<int>) -> bool)
    requires DistinctSlots(pairs)
    ensures forall k :: 0 <= k < |pairs| && accepts(pairs[k].0, pairs[k].1) ==>
              pairs[k].0 in Assigned(m, pairs, accepts) && Assigned(m, pairs, accepts)[pairs[k].0] == pairs[k].1
    ensures forall k :: 0 <= k < |pairs| && !accepts(pairs[k].0, pairs[k].1) ==>
              KeptFrom(m, Assigned(m, pairs, accepts), pairs[k].0)
    ensures forall x :: Untouched(pairs, x) ==> KeptFrom(m, Assigned(m, pairs, accepts), x)
  {
    if pairs != [] {
      var init := pairs[..|pairs| - 1];
      assert DistinctSlots(init);
      AssignedShapes(m, init, accepts);
      assert forall k :: 0 <= k < |init| ==> init[k] == pairs[k];
      forall x | Untouched(pairs, x)
        ensures Untouched(init, x)
      {
      }
    }
  }

  /** Pairing inputs with ascending slots, as `__call__` does with profile 0's input slots, binds each slot at most once. */
  lemma ZipDistinct(hostInputs: seq<Tensor>, slots: seq<int>)
    requires Increasing(slots)
    ensures DistinctSlots(Zip(hostInputs, slots))
  {
  }

  /** The accesses made by binding the shapes of `pairs`, in order. */
  function SetAccesses(pairs: seq<(int, seq<int>)>): seq<ShapeAccess>
  {
    seq(|pairs|, k requires 0 <= k < |pairs| => SetShape(pairs[k].0))
  }

  /** The accesses made by reading the shapes of `slots`, in order. */
  function ReadAccesses(slots: seq<int>): seq<ShapeAccess>
  {
    seq(|slots|, k requires 0 <= k < |slots| => ReadShape(slots[k]))
  }

  /** No shape is bound after a shape has been read. */
  predicate SetsBeforeReads(t: seq<ShapeAccess>)
  {
    forall i, j :: 0 <= i < j < |t| && t[i].ReadShape? ==> t[j].ReadShape?
  }

  /** The access pattern of `get_output_tensors` binds every input shape before it reads any output shape. */
  lemma GetOutputTensorsAccessOrder(pairs: seq<(int, seq<int>)>, slots: seq<int>)
    ensures SetsBeforeReads(SetAccesses(pairs) + ReadAccesses(slots))
    ensures |SetAccesses(pairs) + ReadAccesses(slots)| == |pairs| + |slots|
  {
    var t := SetAccesses(pairs) + ReadAccesses(slots);
    forall i, j | 0 <= i < j < |t| && t[i].ReadShape? ensures t[j].ReadShape? {
      assert i >= |pairs|;
    }
  }

  /**
   * The dictionary `get_output_tensors` fills: for each output slot, in order,
   * a fresh float32 CUDA tensor of the shape the context resolves for it,
   * stored under the slot's name.
   */
  function OutputBuffers(e: Engine, resolve: (map<int, seq<int>>, int) -> seq<int>,
                         shapes: map<int, seq<int>>, slots: seq<int>): (r: map<string, Tensor>)
    requires InTable(e, slots)
    ensures forall k :: 0 <= k < |slots| ==> BindingName(e, slots[k]) in r
  {
    if slots == [] then map[]
    else
      var last := slots[|slots| - 1];
      OutputBuffers(e, resolve, shapes, slots[..|slots| - 1])[BindingName(e, last) := Tensor(Float32, Cuda, resolve(shapes, last))]
  }

  /**
   * When binding names are unique, each output slot gets its own buffer,
   * with the resolved shape of that slot, and there is no other entry.
   */
  lemma {:induction false} OutputBuffersSpec(e: Engine, resolve: (map<int, seq<int>>, int) -> seq<int>,
                                             shapes: map<int, seq<int>>, slots: seq<int>)
    requires InTable(e, slots)
    requires UniqueNames(e)
    ensures forall k :: 0 <= k < |slots| ==>
              OutputBuffers(e, resolve, shapes, slots)[BindingName(e, slots[k])]
              == Tensor(Float32, Cuda, resolve(shapes, slots[k]))
    ensures forall name :: name in OutputBuffers(e, resolve, shapes, slots) ==>
              exists k :: 0 <= k < |slots| && BindingName(e, slots[k]) == name
  {
    if slots != [] {
      var init := slots[..|slots| - 1];
      OutputBuffersSpec(e, resolve, shapes, init);
      var last := slots[|slots| - 1];
      forall k | 0 <= k < |slots|
        ensures OutputBuffers(e, resolve, shapes, slots)[BindingName(e, slots[k])]
                == Tensor(Float32, Cuda, resolve(shapes, slots[k]))
      {
        if k < |slots| - 1 && slots[k] != last {
          assert init[k] == slots[k];
          assert BindingName(e, slots[k]) != BindingName(e, last);
        }
      }
      forall name | name in OutputBuffers(e, resolve, shapes, slots)
        ensures exists k :: 0 <= k < |slots| && BindingName(e, slots[k]) == name
      {
        if name != BindingName(e, last) {
          assert name in OutputBuffers(e, resolve, shapes, init);
          var k :| 0 <= k < |init| && BindingName(e, init[k]) == name;
          assert slots[k] == init[k];
        } else {
          assert BindingName(e, slots[|slots| - 1]) == name;
        }
      }
    }
  }

  /** Every dimension is known: `torch.empty` allocates a buffer of this shape. */
  predicate Resolved(shape: seq<int>)
  {
    forall d :: 0 <= d < |shape| ==> shape[d] >= 0
  }

  /**
   * The position of the first slot whose resolved shape has a negative
   * dimension, where `torch.empty` raises; `|slots|` when there is none.
   */
  function FirstUnresolved(resolve: (map<int, seq<int>>, int) -> seq<int>, shapes: map<int, seq<int>>,
                           slots: seq<int>): (r: nat)
    ensures r <= |slots|
    ensures forall k :: 0 <= k < r ==> Resolved(resolve(shapes, slots[k]))
    ensures r < |slots| ==> !Resolved(resolve(shapes, slots[r]))
  {
    if slots == [] then 0
    else if !Resolved(resolve(shapes, slots[0])) then 0
    else 1 + FirstUnresolved(resolve, shapes, slots[1..])
  }

  /** A slot `m` with every earlier slot resolved is the first unresolved one exactly when it is unresolved. */
  lemma FirstUnresolvedAt(resolve: (map<int, seq<int>>, int) -> seq<int>, shapes: map<int, seq<int>>,
                          slots: seq<int>, m: nat)
    requires m <= |slots|
    requires forall k :: 0 <= k < m ==> Resolved(resolve(shapes, slots[k]))
    requires m < |slots| ==> !Resolved(resolve(shapes, slots[m]))
    ensures FirstUnresolved(resolve, shapes, slots) == m
  {
  }

  /** `list(outputs.values())`: with unique names the dictionary keeps the output slots' order. */
  function OutputValues(e: Engine, outputs: map<string, Tensor>, slots: seq<int>): seq<Tensor>
    requires InTable(e, slots)
    requires forall k :: 0 <= k < |slots| ==> BindingName(e, slots[k]) in outputs
  {
    seq(|slots|, k requires 0 <= k < |slots| => outputs[BindingName(e, slots[k])])
  }

  /**
   * An execution context of one engine. `bindingShapes` is the shape bound
   * to each slot so far; `accepts` stands for TensorRT's check that a shape
   * lies within the optimization profile's range for a slot, and `resolve`
   * for its shape inference, which gives the shape of a slot (with -1 for a
   * dimension it cannot determine) from the shapes bound so far.
   * `accesses` records every bind and read, `launches` every binding list
   * passed to `execute_v2`.
   */
  class Context {
    const engine: Engine
    const accepts: (int, seq<int>) -> bool
    const resolve: (map<int, seq<int>>, int) -> seq<int>
    var bindingShapes: map<int, seq<int>>
    ghost var accesses: seq<ShapeAccess>
    var launches: seq<seq<Tensor>>

    /** `engine.create_execution_context()`. */
    constructor (engine: Engine, accepts: (int, seq<int>) -> bool, resolve: (map<int, seq<int>>, int) -> seq<int>)
      ensures this.engine == engine && this.accepts == accepts && this.resolve == resolve
      ensures bindingShapes == map[] && accesses == [] && launches == []
    {
      this.engine := engine;
      this.accepts := accepts;
      this.resolve := resolve;
      bindingShapes := map[];
      accesses := [];
      launches := [];
    }

    /**
     * `set_binding_shape(slot, shape)`: TensorRT stores the shape and returns
     * true when it accepts it for the slot; otherwise it returns false and
     * the slot keeps what it had.
     */
    method SetBindingShape(slot: int, shape: seq<int>) returns (accepted: bool)
      modifies this`bindingShapes, this`accesses
      ensures accepted == accepts(slot, shape)
      ensures bindingShapes == if accepted then old(bindingShapes)[slot := shape] else old(bindingShapes)
      ensures accesses == old(accesses) + [SetShape(slot)]
    {
      accepted := accepts(slot, shape);
      if accepted {
        bindingShapes := bindingShapes[slot := shape];
      }
      accesses := accesses + [SetShape(slot)];
    }

    /** `get_binding_shape(slot)`: the shape TensorRT resolves from what is bound now. */
    method GetBindingShape(slot: int) returns (shape: seq<int>)
      modifies this`accesses
      ensures shape == resolve(bindingShapes, slot)
      ensures accesses == old(accesses) + [ReadShape(slot)]
    {
      shape := resolve(bindingShapes, slot);
      accesses := accesses + [ReadShape(slot)];
    }

    /** `execute_v2(bindings)`, reduced to recording the binding list it was given. */
    method ExecuteV2(bindings: seq<Tensor>)
      modifies this`launches
      ensures launches == old(launches) + [bindings]
    {
      launches := launches + [bindings];
    }
  }

  /**
   * The first loop of `get_output_tensors`: binds the shape of each pair to
   * its slot in order, ignoring whether TensorRT accepted it.
   */
  method BindInputShapes(context: Context, pairs: seq<(int, seq<int>)>)
    modifies context`bindingShapes, context`accesses
    ensures context.bindingShapes == Assigned(old(context.bindingShapes), pairs, context.accepts)
    ensures context.accesses == old(context.accesses) + SetAccesses(pairs)
  {
    var k := 0;
    while k < |pairs|
      invariant 0 <= k <= |pairs|
      invariant context.bindingShapes == Assigned(old(context.bindingShapes), pairs[..k], context.accepts)
      invariant context.accesses == old(context.accesses) + SetAccesses(pairs[..k])
    {
      assert pairs[..k + 1][..k] == pairs[..k];
      var _ := context.SetBindingShape(pairs[k].0, pairs[k].1);
      k := k + 1;
    }
    assert pairs[..k] == pairs;
  }

  /**
   * The second loop of `get_output_tensors`: reads each output slot's shape
   * and allocates its buffer under the slot's name; the first shape with an
   * unresolved dimension makes `torch.empty` raise, after that slot's read.
   */
  method AllocateOutputs(context: Context, outputSlots: seq<int>) returns (outputs: Result<map<string, Tensor>, CallError>)
    requires InTable(context.engine, outputSlots)
    modifies context`accesses
    ensures var j := FirstUnresolved(context.resolve, context.bindingShapes, outputSlots);
            j < |outputSlots| ==>
              && outputs == Err(UnresolvedShape(BindingName(context.engine, outputSlots[j])))
              && context.accesses == old(context.accesses) + ReadAccesses(outputSlots[..j + 1])
    ensures FirstUnresolved(context.resolve, context.bindingShapes, outputSlots) == |outputSlots| ==>
              && outputs == Ok(OutputBuffers(context.engine, context.resolve, context.bindingShapes, outputSlots))
              && context.accesses == old(context.accesses) + ReadAccesses(outputSlots)
  {
    var e, resolve, shapes := context.engine, context.resolve, context.bindingShapes;
    var buffers := map[];
    var m := 0;
    while m < |outputSlots|
      invariant 0 <= m <= |outputSlots|
      invariant context.bindingShapes == shapes
      invariant context.accesses == old(context.accesses) + ReadAccesses(outputSlots[..m])
      invariant forall i :: 0 <= i < m ==> Resolved(resolve(shapes, outputSlots[i]))
      invariant buffers == OutputBuffers(e, resolve, shapes, outputSlots[..m])
    {
      var slot := outputSlots[m];
      var outputShape := context.GetBindingShape(slot);
      var outputName := e.bindings[slot].name;
      assert outputSlots[..m + 1][..m] == outputSlots[..m];
      if !Resolved(outputShape) {
        FirstUnresolvedAt(resolve, shapes, outputSlots, m);
        return Err(UnresolvedShape(outputName));
      }
      buffers := buffers[outputName := Tensor(Float32, Cuda, outputShape)];
      m := m + 1;
    }
    assert outputSlots[..m] == outputSlots;
    FirstUnresolvedAt(resolve, shapes, outputSlots, m);
    outputs := Ok(buffers);
  }

  /**
   * `get_output_tensors`: binds the shape of each host input to its input
   * slot (pairwise, up to the shorter list), and only then reads the output
   * shapes and allocates the buffers, failing at the first output shape with
   * an unresolved dimension.
   */
  method GetOutputTensors(context: Context, hostInputs: seq<Tensor>, inputSlots: seq<int>, outputSlots: seq<int>)
    returns (outputs: Result<map<string, Tensor>, CallError>)
    requires InTable(context.engine, outputSlots)
    modifies context`bindingShapes, context`accesses
    ensures context.bindingShapes == Assigned(old(context.bindingShapes), Zip(hostInputs, inputSlots), context.accepts)
    ensures var j := FirstUnresolved(context.resolve, context.bindingShapes, outputSlots);
            j < |outputSlots| ==>
              && outputs == Err(UnresolvedShape(BindingName(context.engine, outputSlots[j])))
              && context.accesses == old(context.accesses) + SetAccesses(Zip(hostInputs, inputSlots))
                                     + ReadAccesses(outputSlots[..j + 1])
    ensures FirstUnresolved(context.resolve, context.bindingShapes, outputSlots) == |outputSlots| ==>
              && outputs == Ok(OutputBuffers(context.engine, context.resolve, context.bindingShapes, outputSlots))
              && context.accesses == old(context.accesses) + SetAccesses(Zip(hostInputs, inputSlots))
                                     + ReadAccesses(outputSlots)
  {
    BindInputShapes(context, Zip(hostInputs, inputSlots));
    outputs := AllocateOutputs(context, outputSlots);
  }

  /** The names of the input slots among the first `n` slots, in slot order. */
  function InputNames(e: Engine, n: nat): seq<string>
    requires n <= |e.bindings|
  {
    if n == 0 then []
    else InputNames(e, n - 1) + (if e.bindings[n - 1].isInput then [e.bindings[n - 1].name] else [])
  }

  /**
   * The input-collecting loop of `__call__` over the first `n` slots: each
   * input slot's name must be a key of `inputs`, its tensor must be on the
   * CUDA device, and it is narrowed and appended in slot order.
   */
  function CollectInputs(e: Engine, inputs: map<string, Tensor>, n: nat): Result<seq<Tensor>, CallError>
    requires n <= |e.bindings|
  {
    if n == 0 then Ok([])
    else match CollectInputs(e, inputs, n - 1)
      case Err(err) => Err(err)
      case Ok(tensors) =>
        var b := e.bindings[n - 1];
        if !b.isInput then Ok(tensors)
        else if b.name !in inputs then Err(MissingInput(b.name))
        else if inputs[b.name].device != Cuda then Err(DeviceMismatch(b.name))
        else Ok(tensors + [Narrow(inputs[b.name])])
  }

  /** Once a slot fails, the later slots do not change the outcome. */
  lemma {:induction false} CollectInputsErrSticks(e: Engine, inputs: map<string, Tensor>, n: nat, m: nat)
    requires n <= m <= |e.bindings|
    requires CollectInputs(e, inputs, n).Err?
    ensures CollectInputs(e, inputs, m) == CollectInputs(e, inputs, n)
    decreases m - n
  {
    if n < m {
      CollectInputsErrSticks(e, inputs, n, m - 1);
    }
  }

  /**
   * What the input loop promises: it succeeds exactly when every input slot's
   * name is provided on the CUDA device; then it yields one narrowed tensor
   * per input slot, in slot order, so no int64 tensor is bound. A failure
   * names an input slot whose tensor is absent, or present but off-device.
   */
  lemma {:induction false} CollectInputsSpec(e: Engine, inputs: map<string, Tensor>, n: nat)
    requires n <= |e.bindings|
    ensures var names := InputNames(e, n);
            CollectInputs(e, inputs, n).Ok? <==>
              forall k :: 0 <= k < |names| ==> names[k] in inputs && inputs[names[k]].device == Cuda
    ensures var names := InputNames(e, n);
            CollectInputs(e, inputs, n).Ok? ==>
              |CollectInputs(e, inputs, n).value| == |names| &&
              forall k :: 0 <= k < |names| ==>
                names[k] in inputs && CollectInputs(e, inputs, n).value[k] == Narrow(inputs[names[k]])
    ensures CollectInputs(e, inputs, n).Err? && CollectInputs(e, inputs, n).error.MissingInput? ==>
              CollectInputs(e, inputs, n).error.name in InputNames(e, n) &&
              CollectInputs(e, inputs, n).error.name !in inputs
    ensures CollectInputs(e, inputs, n).Err? && CollectInputs(e, inputs, n).error.DeviceMismatch? ==>
              var name := CollectInputs(e, inputs, n).error.name;
              name in InputNames(e, n) && name in inputs && inputs[name].device != Cuda
  {
    if n > 0 {
      CollectInputsSpec(e, inputs, n - 1);
      var prev := InputNames(e, n - 1);
      var names := InputNames(e, n);
      var b := e.bindings[n - 1];
      if b.isInput {
        assert names == prev + [b.name];
        if (forall k :: 0 <= k < |names| ==> names[k] in inputs && inputs[names[k]].device == Cuda) {
          assert forall k :: 0 <= k < |prev| ==> prev[k] == names[k];
          assert names[|prev|] == b.name;
        }
      } else {
        assert names == prev;
      }
    }
  }

  /**
   * Input slot `j` (counted among the input slots of the first `n` slots) is
   * where the loop stops with `err`: every earlier input slot was provided on
   * the CUDA device, slot `j` carries the error's name, and the error is a
   * missing input exactly when that name is absent.
   */
  predicate FailsFirstAt(e: Engine, inputs: map<string, Tensor>, n: nat, err: CallError, j: int)
    requires n <= |e.bindings|
  {
    var names := InputNames(e, n);
    && 0 <= j < |names| && names[j] == err.name
    && (forall i :: 0 <= i < j ==> names[i] in inputs && inputs[names[i]].device == Cuda)
    && (err.MissingInput? <==> names[j] !in inputs)
  }

  /**
   * A failure of the input loop names the first input slot, in slot order,
   * whose tensor is missing or off the CUDA device; so a missing later input
   * never hides an earlier off-device one, nor the reverse.
   */
  lemma {:induction false} CollectInputsFirstFailure(e: Engine, inputs: map<string, Tensor>, n: nat)
    requires n <= |e.bindings|
    requires CollectInputs(e, inputs, n).Err?
    ensures exists j :: FailsFirstAt(e, inputs, n, CollectInputs(e, inputs, n).error, j)
  {
    var names := InputNames(e, n);
    var prev := InputNames(e, n - 1);
    var err := CollectInputs(e, inputs, n).error;
    var b := e.bindings[n - 1];
    assert names == prev + (if b.isInput then [b.name] else []);
    if CollectInputs(e, inputs, n - 1).Err? {
      assert err == CollectInputs(e, inputs, n - 1).error;
      CollectInputsFirstFailure(e, inputs, n - 1);
      var j :| FailsFirstAt(e, inputs, n - 1, err, j);
      assert forall i :: 0 <= i <= j ==> names[i] == prev[i];
      assert FailsFirstAt(e, inputs, n, err, j);
    } else {
      CollectInputsSpec(e, inputs, n - 1);
      assert b.isInput;
      assert names == prev + [b.name];
      assert forall i :: 0 <= i < |prev| ==> names[i] == prev[i];
      assert FailsFirstAt(e, inputs, n, err, |prev|);
    }
  }

  /**
   * `TensorRTModel`: an engine, one execution context on profile 0, and the
   * input and output slots of that profile.
   */
  class TensorRTModel {
    const engine: Engine
    const context: Context
    const inputBindingIdxs: seq<int>
    const outputBindingIdxs: seq<int>

    /** The context belongs to the engine and the slot lists are profile 0's partition. */
    ghost predicate Valid()
    {
      && context.engine == engine
      && engine.numProfiles > 0
      && UniqueNames(engine)
      && (forall x :: x in inputBindingIdxs <==> 0 <= x < BindingsPerProfile(engine) && BindingIsInput(engine, x))
      && (forall x :: x in outputBindingIdxs <==> 0 <= x < BindingsPerProfile(engine) && !BindingIsInput(engine, x))
      && Increasing(inputBindingIdxs) && Increasing(outputBindingIdxs)
      && InTable(engine, inputBindingIdxs) && InTable(engine, outputBindingIdxs)
    }

    /** `__init__` after `load_engine`: a fresh context on profile 0 and profile 0's slot partition. */
    constructor (engine: Engine, accepts: (int, seq<int>) -> bool, resolve: (map<int, seq<int>>, int) -> seq<int>)
      requires engine.numProfiles > 0 && UniqueNames(engine)
      ensures Valid() && this.engine == engine && fresh(context)
      ensures context.accepts == accepts && context.resolve == resolve && context.bindingShapes == map[]
      ensures context.accesses == [] && context.launches == []
    {
      this.engine := engine;
      context := new Context(engine, accepts, resolve);
      var ins, outs := GetBindingIdxs(engine, 0);
      inputBindingIdxs := ins;
      outputBindingIdxs := outs;
      PerProfileWithinTable(engine);
      assert StartBinding(engine, 0) == 0;
      assert forall k :: 0 <= k < |ins| ==> ins[k] in ins;
      assert forall k :: 0 <= k < |outs| ==> outs[k] in outs;
    }

    /**
     * `__call__`: collects the inputs over all slots; on a missing or
     * off-device input it fails before anything is bound or allocated.
     * Otherwise it binds every input shape TensorRT accepts, then reads the
     * output shapes in order; an output shape with an unresolved dimension
     * fails the call before any launch. Otherwise it launches with the inputs
     * followed by the outputs in output-slot order.
     */
    method Call(inputs: map<string, Tensor>) returns (r: Result<map<string, Tensor>, CallError>)
      requires Valid()
      modifies context`bindingShapes, context`accesses, context`launches
      ensures var collected := CollectInputs(engine, inputs, |engine.bindings|);
              collected.Err? ==>
                && r == Err(collected.error)
                && context.bindingShapes == old(context.bindingShapes)
                && context.accesses == old(context.accesses)
                && context.launches == old(context.launches)
      ensures var collected := CollectInputs(engine, inputs, |engine.bindings|);
              collected.Ok? ==>
                var pairs := Zip(collected.value, inputBindingIdxs);
                context.bindingShapes == Assigned(old(context.bindingShapes), pairs, context.accepts)
      ensures var collected := CollectInputs(engine, inputs, |engine.bindings|);
              var j := FirstUnresolved(context.resolve, context.bindingShapes, outputBindingIdxs);
              collected.Ok? && j < |outputBindingIdxs| ==>
                && r == Err(UnresolvedShape(BindingName(engine, outputBindingIdxs[j])))
                && context.accesses == old(context.accesses) + SetAccesses(Zip(collected.value, inputBindingIdxs))
                                       + ReadAccesses(outputBindingIdxs[..j + 1])
                && context.launches == old(context.launches)
      ensures var collected := CollectInputs(engine, inputs, |engine.bindings|);
              var j := FirstUnresolved(context.resolve, context.bindingShapes, outputBindingIdxs);
              collected.Ok? && j == |outputBindingIdxs| ==>
                && r.Ok?
                && context.accesses == old(context.accesses) + SetAccesses(Zip(collected.value, inputBindingIdxs))
                                       + ReadAccesses(outputBindingIdxs)
                && r.value == OutputBuffers(engine, context.resolve, context.bindingShapes, outputBindingIdxs)
                && context.launches == old(context.launches)
                     + [collected.value + OutputValues(engine, r.value, outputBindingIdxs)]
    {
      var inputTensors: seq<Tensor> := [];
      var i := 0;
      while i < |context.engine.bindings|
        invariant 0 <= i <= |engine.bindings|
        invariant CollectInputs(engine, inputs, i) == Ok(inputTensors)
      {
        if context.engine.bindings[i].isInput {
          var tensorName := context.engine.bindings[i].name;
          if tensorName !in inputs {
            CollectInputsErrSticks(engine, inputs, i + 1, |engine.bindings|);
            return Err(MissingInput(tensorName));
          }
          var tensor := inputs[tensorName];
          if tensor.device != Cuda {
            CollectInputsErrSticks(engine, inputs, i + 1, |engine.bindings|);
            return Err(DeviceMismatch(tensorName));
          }
          if tensor.dtype == Int64 {
            tensor := tensor.(dtype := Int32);
          }
          inputTensors := inputTensors + [tensor];
        }
        i := i + 1;
      }
      var outputs := GetOutputTensors(context, inputTensors, inputBindingIdxs, outputBindingIdxs);
      if outputs.Err? {
        return Err(outputs.error);
      }
      var bindings := inputTensors + OutputValues(engine, outputs.value, outputBindingIdxs);
      context.ExecuteV2(bindings);
      r := Ok(outputs.value);
    }
  }

  /**
   * `load_engine` followed by `__init__`: a missing file fails the existence
   * assertion; an engine the runtime cannot deserialize leaves no context to
   * create; otherwise a model over the deserialized engine.
   */
  method LoadModel(engineFileExists: bool, deserialized: Option<Engine>,
                   accepts: (int, seq<int>) -> bool, resolve: (map<int, seq<int>>, int) -> seq<int>)
    returns (r: Result<TensorRTModel, LoadError>)
    requires deserialized.Some? ==> deserialized.value.numProfiles > 0 && UniqueNames(deserialized.value)
    ensures !engineFileExists ==> r == Err(EngineFileMissing)
    ensures engineFileExists && deserialized.None? ==> r == Err(DeserializationFailed)
    ensures engineFileExists && deserialized.Some? ==>
              r.Ok? && fresh(r.value) && r.value.Valid() && r.value.engine == deserialized.value
  {
    if !engineFileExists {
      return Err(EngineFileMissing);
    }
    if deserialized.None? {
      return Err(DeserializationFailed);
    }
    var model := new TensorRTModel(deserialized.value, accepts, resolve);
    return Ok(model);
  }
}
