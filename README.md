# TensorRT conversion and runtime utilities, with label loading and scoring

This project models the TensorRT utility module `convert/tensorrt_utils.py` of a
CLIP-based garbage classifier, together with the label loading, language
selection and scoring tally of its two entry scripts `val.py` and `main.py`.

- **Shape descriptors** (`shapes.dfy`, module `TensorRTShapes`). A
  `TensorRTShape` holds the minimum, optimal and maximum shape of one input,
  plus its input name. The model covers its four validity assertions, its
  renamed copy, and how a nameless template expands into one descriptor per
  network input.
- **FP16 fix** (`fp16_fix.dfy`, module `Fp16Fix`). This is the in-place pass
  over a layer array. It pins a layer to 32-bit float when its name contains
  a banned substring. It also pins element-wise/reduce pairs: their output
  types always, and their compute precision only when the element-wise
  operator is a power.
- **Binding partition** (`bindings.dfy`, module `Bindings`). This is
  `get_binding_idxs`: it splits one optimization profile's slot range into
  ascending input slots and output slots.
- **Engine build** (`engine_builder.dfy`, module `EngineBuilder`). This is
  `build_engine`, and it fails in source order:
  - choosing the descriptors from the keyword arguments;
  - the builder config: workspace, tactic sources, INT8, FP16 and
    precision-constraint flags, and the timing cache;
  - expanding a lone template;
  - checking and registering every range on the one profile, where TensorRT
    may reject a range that passed the check;
  - registering the `shape_tensors` descriptors, which TensorRT may also
    reject;
  - the FP16 fix when FP16 is requested;
  - compiling.
- **Runtime** (`runtime.dfy`, module `Runtime`). This part has two classes:
  - An execution-context class. It tracks the shape bound to each slot, the
    order of shape binds and reads, and the launches.
  - The `TensorRTModel` class. Its `__call__` collects, checks and narrows
    the named inputs. It then binds the input shapes and allocates one output
    per output slot from the resolved shapes. Finally it launches with the
    inputs followed by the outputs.
    The result of each shape bind is ignored. A shape that TensorRT rejects
    leaves the slot's previous shape, or none, in place. An output shape
    with an unresolved (negative) dimension then makes the allocation fail
    before the launch.
- **Labels** (`labels.dfy`, module `Labels`). This is `loadLables` with
  Python's `str.split` on `"_"`, the ASCII `lower()` and the `en`/`cn` name
  selection. The two scripts share this code.
- **Scoring** (`validation.dfy`, module `Validation`). This is the
  precise/correct/wrong tally of `val.py`.

Everything that crosses into TensorRT, CUDA, torch or the file system is a
parameter. This covers:
- the compiler, as a function from layers and config to an optional engine;
- whether the optimization profile accepts a range in `set_shape`, and a
  shape-tensor descriptor in `set_shape_input`, as two predicates. A
  rejection raises in TensorRT and ends the build;
- TensorRT's check that a bound shape lies within the optimization
  profile's range, as a predicate on slot and shape;
- TensorRT's shape inference, as a function from bound shapes and slot to a
  shape, with a negative dimension where it cannot determine one;
- whether files exist;
- the installed TensorRT version string;
- the deserialized engine;
- the classifier's predictions.

The model follows the code on four points that are easy to misread:
- The "obey precision constraints" flag is set on every build, not only for
  FP16 builds.
- Shape-tensor descriptors (`shape_tensors`) are registered without the
  validity check that input descriptors get.
- `get_binding_idxs` does not reject a profile index past the last profile.
  When the profiles divide the binding table evenly, as TensorRT lays it
  out, the slots of such an index lie past the table. They are not inputs,
  so they all become output slots.
- `__call__` collects inputs over every slot of the engine, not only over
  profile 0's input slots. `zip` then pairs them with profile 0's input slots
  and stops at the shorter list.

## Model

| member | source | states |
|---|---|---|
| TensorRTShapes.CheckValidity | convert/tensorrt_utils.py:32-39 | The four assertions in source order. A rank mismatch among the three shapes comes first, then an empty rank, then a non-positive batch dimension in any shape, then a missing name. The result is `None` when all four hold. |
| TensorRTShapes.CheckValidityMeaning | convert/tensorrt_utils.py:32-39 | The check passes exactly on descriptors whose three shapes have equal, non-zero rank, a positive batch dimension and a name. It stops at the name exactly for such a template. It reports a length mismatch exactly when the ranks differ. |
| TensorRTShapes.CheckValidityIgnoresOrdering | convert/tensorrt_utils.py:36-38 | Swapping the minimum and maximum shapes never changes the verdict. The check does not order the shapes. |
| TensorRTShapes.UnorderedShapesPass | convert/tensorrt_utils.py:36-39 | A concrete descriptor whose minimum batch exceeds its maximum batch still passes the check. |
| TensorRTShapes.MakeCopy | convert/tensorrt_utils.py:41-49 | The copy has the original's three shapes and the new name. It passes the check exactly when the original passed or failed only for its missing name. |
| TensorRTShapes.GenerateMultipleShapes | convert/tensorrt_utils.py:51-62 | A descriptor that already has a name is refused with that name. Otherwise the result has one descriptor per input name, in order, each with the template's shapes and that name. |
| TensorRTShapes.ExpandedUsable | convert/tensorrt_utils.py:41-62 | Expanding a template that fails only for its missing name yields descriptors that all pass the check. |
| Fp16Fix.Contains | convert/tensorrt_utils.py:83 | `name.find(cand) != -1`: `cand` is a prefix of the name or occurs in the name after its first character. An empty `cand` occurs in every name. |
| Fp16Fix.ContainsIffOccurs | convert/tensorrt_utils.py:83 | `name.find(cand) != -1` holds exactly when `cand` occurs in `name` at some offset. |
| Fp16Fix.Fp16Fixed | convert/tensorrt_utils.py:65-97 | The patched network has the same number of layers, and every layer keeps its name and type. Only precision annotations change. |
| Fp16Fix.PassStep | convert/tensorrt_utils.py:76-96 | One loop iteration at pair (i, i+1) carries the network from its state after i iterations to its state after i+1. |
| Fp16Fix.PinIfBanned | convert/tensorrt_utils.py:81-85 | The banned-substring loop changes only layer i. It pins that layer's precision and output type to FLOAT exactly when its name contains a banned substring. |
| Fp16Fix.FixFp16Network | convert/tensorrt_utils.py:65-97 | The in-place pass leaves the layer array equal to the reference patch of the original layers. |
| Fp16Fix.Fp16FixedIdempotent | convert/tensorrt_utils.py:65-97 | Running the pass a second time changes nothing. |
| Fp16Fix.BannedPinned | convert/tensorrt_utils.py:81-85 | A layer other than the last whose name contains a banned substring ends with FLOAT precision and FLOAT output type. |
| Fp16Fix.LastLayerNotBanned | convert/tensorrt_utils.py:76 | The loop stops before the last layer, so a last layer that closes no element-wise/reduce pair is left untouched, even if its name is banned. |
| Fp16Fix.PrecisionOnlyForBannedOrPow | convert/tensorrt_utils.py:81-96 | A layer's compute precision changes only when it is a banned layer other than the last, or part of a power-then-reduce pair. It then becomes FLOAT. |
| Fp16Fix.ReducePairOutputsFloat | convert/tensorrt_utils.py:88-96 | Both layers of an element-wise/reduce pair end with a FLOAT output type. When the operator is a power, both also end with FLOAT precision. |
| Bindings.GetBindingIdxs | convert/tensorrt_utils.py:244-262 | A slot is among the inputs exactly when it lies in [start, start + per) and the engine flags it as an input. It is among the outputs exactly when it lies in that range and is not flagged. Both lists are strictly ascending, and together they hold `per` slots. |
| Bindings.ProfilesTile | convert/tensorrt_utils.py:252-254 | For every profile in range, its slot range ends where the next profile's begins, and it lies within the binding table. |
| Bindings.PerProfileWithinTable | convert/tensorrt_utils.py:252 | The number of slots per profile never exceeds the number of bindings. |
| Bindings.PastLastProfileAllOutputs | convert/tensorrt_utils.py:252-261 | When the profiles divide the table evenly, a profile index past the last profile reaches no input slot, so its whole range becomes output slots. |
| Runtime.Narrow | convert/tensorrt_utils.py:322-324 | An int64 tensor becomes int32 with the same shape and device. Any other tensor is unchanged. No narrowed tensor is int64. |
| Runtime.ZipDistinct | convert/tensorrt_utils.py:280 | Pairing the inputs with profile 0's ascending input slots binds each slot at most once, so the distinct-slot premise of the next row holds for every call. |
| Runtime.AssignedShapes | convert/tensorrt_utils.py:280-282 | After the shapes are bound with distinct slots, each slot whose shape TensorRT accepts holds that shape. A slot whose shape it rejects keeps its previous shape or absence, and so does every slot not bound. |
| Runtime.GetOutputTensorsAccessOrder | convert/tensorrt_utils.py:279-287 | In the access pattern of `get_output_tensors`, every shape bind comes before every shape read, and each pair and output slot is accessed once. |
| Runtime.OutputBuffers | convert/tensorrt_utils.py:284-291 | Every output slot's name is a key of the output dictionary. |
| Runtime.FirstUnresolved | convert/tensorrt_utils.py:285-290 | The position of the first output slot whose resolved shape has a negative dimension, where `torch.empty` raises. Every earlier slot's shape is resolved. The position is the slot count when every shape is resolved. |
| Runtime.FirstUnresolvedAt | convert/tensorrt_utils.py:285-290 | A slot whose earlier slots are all resolved is the first unresolved one exactly when its own shape is unresolved. |
| Runtime.OutputBuffersSpec | convert/tensorrt_utils.py:284-291 | With unique binding names, each output slot's name maps to a float32 CUDA tensor of the shape resolved for that slot, and there are no other keys. |
| Runtime.Context.constructor | convert/tensorrt_utils.py:299 | A new context of the engine has no bound shapes, no accesses and no launches. |
| Runtime.Context.SetBindingShape | convert/tensorrt_utils.py:282 | Binding a shape returns whether TensorRT accepts it for the slot. Only then is that slot updated; otherwise the shapes are unchanged. The bind is recorded either way. |
| Runtime.Context.GetBindingShape | convert/tensorrt_utils.py:287 | Reading a slot's shape returns what shape inference gives for the current bindings, and records the read. |
| Runtime.Context.ExecuteV2 | convert/tensorrt_utils.py:333 | Launching records exactly the binding list given. |
| Runtime.BindInputShapes | convert/tensorrt_utils.py:280-282 | Each pair's shape is bound to its slot in order, whether or not TensorRT accepts it. The shapes become those of the accepted binds, and the log gains one bind per pair. |
| Runtime.AllocateOutputs | convert/tensorrt_utils.py:284-291 | The output slots are read in order. The first one whose shape has a negative dimension fails with its name, after its read. Otherwise the result maps each output slot's name to a buffer of its resolved shape, and the log gains one read per slot. |
| Runtime.GetOutputTensors | convert/tensorrt_utils.py:265-291 | Each zipped (input, slot) pair's shape is bound in order, and the accepted ones are stored. The access log gains all binds before the reads. The first output slot with an unresolved dimension fails with its name. Otherwise the result maps each output slot's name to a buffer of the shape resolved after all binds. |
| Runtime.CollectInputs | convert/tensorrt_utils.py:312-325 | The input loop over the first n slots, in slot order. Output slots are skipped. An input slot whose name is not a key fails as a missing input, and one whose tensor is off the CUDA device fails as a device mismatch. Every other input slot appends its narrowed tensor. The first failure ends the loop. |
| Runtime.CollectInputsErrSticks | convert/tensorrt_utils.py:313-325 | Once the input loop fails at a slot, the outcome over all slots is that failure. |
| Runtime.CollectInputsSpec | convert/tensorrt_utils.py:312-325 | The input loop succeeds exactly when every input slot's name is provided on the CUDA device. It then yields one narrowed tensor per input slot, in slot order. A missing-input failure names an input slot absent from the inputs. A device failure names one present off the CUDA device. |
| Runtime.CollectInputsFirstFailure | convert/tensorrt_utils.py:313-320 | A failure names the first input slot, in slot order, whose tensor is missing or off-device. Every earlier input slot was provided on the device. The error is a missing input exactly when that slot's name is absent. |
| Runtime.TensorRTModel.constructor | convert/tensorrt_utils.py:295-303 | The model holds the engine, a fresh context with no bound shapes, and profile 0's input and output slot lists. These are ascending, within the table, and split the profile's range by the input flag. |
| Runtime.TensorRTModel.Call | convert/tensorrt_utils.py:311-340 | A missing or off-device input fails with its name and leaves the context's shapes, access log and launches unchanged. Otherwise the accepted input shapes are bound. An output slot whose resolved shape has a negative dimension fails the call with its name, and nothing is launched. Otherwise each output gets a buffer of its resolved shape, and one launch is recorded with the collected inputs followed by the outputs in output-slot order. |
| Runtime.LoadModel | convert/tensorrt_utils.py:305-309 | A missing engine file fails the existence assertion. An engine that cannot be deserialized fails. Otherwise the result is a valid model over the deserialized engine. |
| EngineBuilder.InputShapeList | convert/tensorrt_utils.py:131-142 | When all three shape keywords are given, they form one nameless template, whatever `input_shapes` holds. Otherwise `input_shapes` is used as given. Its absence is the only failure. |
| EngineBuilder.ProfileShapes | convert/tensorrt_utils.py:185-189 | A lone nameless descriptor becomes one descriptor per network input, in order, with its shapes. Any other list is kept as it is. |
| EngineBuilder.Registered | convert/tensorrt_utils.py:191-198 | The descriptors in order: each is checked, and if it passes, its range (name, min, opt, max) goes to `set_shape`. The first failed check ends registration with that descriptor's position and assertion. The first range TensorRT rejects ends it with that descriptor's position. |
| EngineBuilder.RegisteredSpec | convert/tensorrt_utils.py:191-198 | Registration succeeds exactly when every descriptor passes the check and has its range accepted. It then yields one range per descriptor, in order. A failure names the first descriptor that is not registrable. It carries either the assertion that descriptor failed, or the rejection of a range that passed the check. |
| EngineBuilder.RegisteredErrSticks | convert/tensorrt_utils.py:191-198 | After the first failed check or rejected range, later descriptors do not change the outcome. |
| EngineBuilder.UnorderedRangeRejected | convert/tensorrt_utils.py:191-198 | With the range consistency that TensorRT's `IOptimizationProfile::setDimensions` documents, a descriptor with batch 8 down to 1 passes `check_validity` but is rejected at `set_shape`. |
| EngineBuilder.DefaultShapeProfile | convert/tensorrt_utils.py:131-198 | Three valid shape keywords register exactly when TensorRT accepts the range for every network input. They then give exactly one range per network input, in declaration order, each with those shapes. Otherwise registration stops with a rejection at an input whose range is refused. |
| EngineBuilder.FirstRejectedShapeInput | convert/tensorrt_utils.py:199-206 | The position of the first `shape_tensors` descriptor that `set_shape_input` refuses, or the count when none is. Every earlier descriptor is accepted. |
| EngineBuilder.FirstRejectedShapeInputAt | convert/tensorrt_utils.py:199-206 | A position whose earlier descriptors are all accepted is the first refused one exactly when its own descriptor is refused. |
| EngineBuilder.ProfileOutcome | convert/tensorrt_utils.py:185-207 | The profile is built exactly when registration succeeds and no shape-tensor descriptor is refused. It then holds the registered ranges and the shape-tensor descriptors. A registration failure comes first. Otherwise the first refused shape-tensor descriptor fails with its position. |
| EngineBuilder.MajorVersion | convert/tensorrt_utils.py:160 | The version has a value exactly when it starts with a digit. The value is that first digit's value, so it is at most 9. |
| EngineBuilder.MajorVersionReadsFirstCharacter | convert/tensorrt_utils.py:160 | Only the first character is read, so "10.x" counts as major version 1. |
| EngineBuilder.PlanTimingCache | convert/tensorrt_utils.py:160-169 | An unreadable version fails. A timing cache is attached exactly when the major version is at least 8 and a path is given. It is loaded from the file exactly when the file exists, and it never ignores mismatches. |
| EngineBuilder.PlannedFlags | convert/tensorrt_utils.py:154-174 | INT8 is set exactly when requested, FP16 exactly when requested, and the precision-constraints flag always. |
| EngineBuilder.PlannedConfig | convert/tensorrt_utils.py:144-207 | The config the compiler receives after every step succeeded: the given workspace, the cuBLAS, cuBLASLt and cuDNN tactic sources, the planned flags and timing cache, and the one profile that was built. |
| EngineBuilder.RegisterShapes | convert/tensorrt_utils.py:191-198 | The check-then-register loop computes exactly the registration outcome, including a range rejected by TensorRT. |
| EngineBuilder.RegisterShapeInputs | convert/tensorrt_utils.py:199-206 | The `set_shape_input` loop fails at the first refused descriptor, with its position. Otherwise it keeps every descriptor in order. |
| EngineBuilder.BuildProfile | convert/tensorrt_utils.py:185-207 | Expansion, registration and the shape-tensor loop compute exactly the profile outcome. |
| EngineBuilder.ConfigureBuilder | convert/tensorrt_utils.py:144-174 | An unreadable version fails. Otherwise the config holds the given workspace, the three tactic sources, the planned flags and the planned timing cache, and no profile yet. |
| EngineBuilder.CompileOutcome | convert/tensorrt_utils.py:215-226 | The build fails exactly when the compiler returns no engine. Otherwise the result holds that engine, the config it was built with, and the timing-cache path. |
| EngineBuilder.CompileNetwork | convert/tensorrt_utils.py:208-226 | The layers are FP16-patched exactly when FP16 is requested. The compiler then receives the patched layers and the config, and its result becomes the build outcome. |
| EngineBuilder.BuildEngine | convert/tensorrt_utils.py:100-226 | Failures come in source order: missing shapes, then an unreadable version, then the first invalid descriptor or rejected range, then the first refused shape-tensor descriptor. These leave the layers unchanged. Otherwise the layers are FP16-patched exactly when FP16 is requested. The compiler receives the planned config with one profile. An empty result fails. Otherwise the result carries the engine, that config, and the cache path exactly when a cache was attached. |
| Labels.Split | val.py:28-29 | `split("_")` always yields at least one piece. |
| Labels.JoinSplit | val.py:28-29 | Joining the pieces of a split with the separator gives back the original string. |
| Labels.SplitPiecesFree | val.py:28-29 | No piece of a split contains the separator. |
| Labels.SplitHasSeveralPieces | val.py:25-29 | A value contains "_" exactly when it splits into at least two pieces. |
| Labels.SplitJoin | val.py:28-29 | Splitting a join of separator-free pieces returns those pieces, so the split is the only such decomposition. |
| Labels.PiecesOfSelectedValue | main.py:26-30 | For a value containing "_": the class name is the separator-free text before the first "_", and the Chinese name is the separator-free text after the last "_". |
| Labels.LabelsOf | val.py:22-32 | The labels after the first n pairs, in pair order. A pair whose keys differ ends loading with its position. A pair whose selected value has no "_" is skipped. Any other pair appends (position, English value, last "_" piece, first "_" piece). |
| Labels.LoadLabels | val.py:13-32 | The loop over the zipped tables computes exactly the reference outcome over the first min(len, len) pairs. |
| Labels.MismatchSticks | val.py:23-24 | Once a pair's keys differ, later pairs do not change the outcome. |
| Labels.LabelsOfErr | val.py:23-24 | Loading fails exactly when some paired keys differ, and it names the first such pair. |
| Labels.LabelsOfOk | main.py:24-33 | A successful load holds labels in strictly ascending pair position. Each is built as (position, English value, last piece, first piece) from a pair whose selected value contains "_". Every such pair has its label. |
| Labels.Lower | val.py:38 | Lower-casing keeps the length and lower-cases each character. |
| Labels.LowerIdempotent | val.py:38-41 | Lower-casing twice equals lower-casing once. |
| Labels.SelectNames | val.py:38-41 | After lower-casing, "en" gives the English names and "cn" the Chinese names, one per label in label order. Any other language gives `None`, where `obj_names` would be unbound. |
| Labels.SelectNamesMeaning | val.py:38-41 | Only "en" and "cn", in any case, select names. The result has one name per label, in label order: the English names for "en" and the Chinese names for "cn". The choice does not depend on letter case. |
| Labels.UpperCaseLanguage | main.py:45-48 | "CN" selects the same names as "cn". |
| Validation.Judge | val.py:58-66 | Precise when the sampled and predicted labels have the same index. Otherwise correct when they have the same class name. Otherwise wrong. |
| Validation.CountsPartitionRounds | val.py:71 | Every round falls under exactly one verdict, so the three counts add up to the number of rounds. |
| Validation.Tally | val.py:44-71 | Each counter is the number of rounds with its verdict, and their total is the number of rounds. |
| Validation.JudgeMeaning | val.py:58-66 | With distinct label indices: a round is precise exactly when the predicted label is the sampled one. It is correct exactly when they differ but share a class. It is wrong exactly when the classes differ. |
| Validation.LoadedLabelsDistinct | val.py:23-32 | A successful load yields labels with pairwise distinct indices. |

## Left out

- ONNX parsing and network creation are foreign calls. The parsed network arrives as its input names and its layer array. The parse result and the printed parser errors are not modelled.
- Compilation, serialization and deserialization of engines are foreign calls. The compiler is a function parameter. The round trip from building, through serializing and loading, to the binding partition is therefore not stated.
- File I/O is reduced to "the file exists". This covers reading and writing the timing-cache bytes, with flush and fsync, and reading the engine file. The path the cache is written back to is recorded instead.
- CUDA is not modelled. This covers streams, `set_optimization_profile_async`, `torch.cuda.current_stream().synchronize()`, device pointers (`data_ptr`) and the contents of `torch.empty` buffers. `execute_v2` only records its binding list.
- Runtime.TensorRTModel.Call: the `isinstance(tensor, torch.Tensor)` assertion is not modelled, because every model input is a tensor.
- Runtime.TensorRTModel.Call: the `time_buffer` path and `track_infer_time` are left out. They measure wall time. Also, `time` is imported there as a function, so `time.perf_counter` fails on that path.
- Logging and `print` output are not modelled.
- EngineBuilder.BuildEngine: a custom `fp16_fix` callable is not modelled. The default `fix_fp16_network` is always used.
- EngineBuilder.MajorVersion: Python's `int()` also accepts non-ASCII decimal digits. The model reads only ASCII digits, and reads only the first character of the version.
- EngineBuilder.InputShapeList: a shape keyword present with the value `None` is treated as absent.
- Labels.Lower: only ASCII letters are lower-cased. This does not change whether a string lower-cases to "en" or "cn", which is the only use.
- The label files are not read: `json.load` and its file handles are not modelled. The model takes each file's items as a sequence of (key, value) pairs in file order.
- Random sampling of labels and images, directory listing and image loading are not modelled. Each round is given as the sampled label's position and the predicted position. The fps and percentage printing, which is floating point, is also left out.
- The camera loop of `main.py`, `delLine`, the CLIP wrappers, `predict.py` and the demos are not part of this model.
- `dataclasses.replace` makes a shallow copy, so the copies share the template's shape lists. Nothing mutates those lists, so descriptors are modelled as values.
