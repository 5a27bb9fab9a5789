/**
 * The engine as the runtime sees it, and `get_binding_idxs` of
 * convert/tensorrt_utils.py: splitting the binding slots of one optimization
 * profile into input slots and output slots.
 */
module Bindings {

  /** One binding slot of a compiled engine: its declared tensor name and direction. */
  datatype Binding = Binding(name: string, isInput: bool)

  /**
   * A compiled or deserialized engine, reduced to its binding table and its
   * number of optimization profiles. The slots of all profiles are laid out
   * one profile after another in `bindings`.
   */
  datatype Engine = Engine(bindings: seq<Binding>, numProfiles: nat)

  /** `engine.binding_is_input(i)`: true only for an in-range slot that is an input. */
  predicate BindingIsInput(e: Engine, i: int)
  {
    0 <= i < |e.bindings| && e.bindings[i].isInput
  }

  /** `num_bindings // num_optimization_profiles` (both non-negative, so floor division). */
  function BindingsPerProfile(e: Engine): nat
    requires e.numProfiles > 0
  {
    |e.bindings| / e.numProfiles
  }

  /** The first slot of a profile; the profile index is not range-checked. */
  function StartBinding(e: Engine, profileIndex: int): int
    requires e.numProfiles > 0
  {
    profileIndex * BindingsPerProfile(e)
  }

  predicate Increasing(s: seq<int>)
  {
    forall i, j :: 0 <= i < j < |s| ==> s[i] < s[j]
  }

  /**
   * `get_binding_idxs`: the slots [start, start + per) of the profile, split
   * by the engine's own input flag into two ascending lists. Every slot of
   * the range is in exactly one of them. A profile index past the last
   * profile is not refused (see `PastLastProfileAllOutputs`).
   */
  method GetBindingIdxs(e: Engine, profileIndex: int) returns (inputs: seq<int>, outputs: seq<int>)
    requires e.numProfiles > 0
    ensures var start := StartBinding(e, profileIndex);
            forall x :: x in inputs <==> start <= x < start + BindingsPerProfile(e) && BindingIsInput(e, x)
    ensures var start := StartBinding(e, profileIndex);
            forall x :: x in outputs <==> start <= x < start + BindingsPerProfile(e) && !BindingIsInput(e, x)
    ensures Increasing(inputs) && Increasing(outputs)
    ensures |inputs| + |outputs| == BindingsPerProfile(e)
  {
    var perProfile := |e.bindings| / e.numProfiles;
    var startBinding := profileIndex * perProfile;
    var endBinding := startBinding + perProfile;
    assert perProfile == BindingsPerProfile(e) && startBinding == StartBinding(e, profileIndex);
    inputs, outputs := [], [];
    var b := startBinding;
    while b < endBinding
      invariant startBinding <= b <= endBinding
      invariant forall x :: x in inputs <==> startBinding <= x < b && BindingIsInput(e, x)
      invariant forall x :: x in outputs <==> startBinding <= x < b && !BindingIsInput(e, x)
      invariant Increasing(inputs) && Increasing(outputs)
      invariant forall i :: 0 <= i < |inputs| ==> inputs[i] < b
      invariant forall i :: 0 <= i < |outputs| ==> outputs[i] < b
      invariant |inputs| + |outputs| == b - startBinding
    {
      if BindingIsInput(e, b) {
        assert forall x :: x in inputs + [b] <==> x in inputs || x == b;
        inputs := inputs + [b];
      } else {
        assert forall x :: x in outputs + [b] <==> x in outputs || x == b;
        outputs := outputs + [b];
      }
      b := b + 1;
    }
  }

  /** The profiles' slot ranges tile the table: profile p ends where profile p + 1 starts, and the last ends within it. */
  lemma ProfilesTile(e: Engine, p: int)
    requires e.numProfiles > 0 && 0 <= p < e.numProfiles
    ensures StartBinding(e, p) + BindingsPerProfile(e) == StartBinding(e, p + 1)
    ensures 0 <= StartBinding(e, p) && StartBinding(e, p + 1) <= |e.bindings|
  {
    var per := BindingsPerProfile(e);
    assert per * e.numProfiles <= |e.bindings|;
    assert (p + 1) * per <= e.numProfiles * per by {
      assert p + 1 <= e.numProfiles;
    }
  }

  /** A product with a positive factor is at least the other factor. */
  lemma {:induction false} AtMostMultiple(q: nat, d: nat)
    requires d >= 1
    ensures q <= d * q
    decreases d
  {
    if d > 1 {
      AtMostMultiple(q, d - 1);
      assert d * q == (d - 1) * q + q;
    }
  }

  /** A profile never has more slots than the whole table. */
  lemma PerProfileWithinTable(e: Engine)
    requires e.numProfiles > 0
    ensures BindingsPerProfile(e) <= |e.bindings|
  {
    var q, d := BindingsPerProfile(e), e.numProfiles;
    assert d * q <= |e.bindings|;
    AtMostMultiple(q, d);
  }

  /**
   * On a table that the profiles divide evenly, as TensorRT lays out its
   * bindings, a profile index past the last profile reaches only slots past
   * the table: none is an input, so all of them land among the outputs.
   */
  lemma PastLastProfileAllOutputs(e: Engine, profileIndex: int)
    requires e.numProfiles > 0 && |e.bindings| % e.numProfiles == 0
    requires profileIndex >= e.numProfiles
    ensures forall x :: StartBinding(e, profileIndex) <= x ==> !BindingIsInput(e, x)
  {
    var per, d := BindingsPerProfile(e), e.numProfiles;
    assert d * per == |e.bindings|;
    MultipleMonotone(per, d, profileIndex);
  }

  /** Multiplying by a larger factor gives a larger product. */
  lemma {:induction false} MultipleMonotone(q: nat, d: nat, p: nat)
    requires d <= p
    ensures d * q <= p * q
    decreases p - d
  {
    if d < p {
      MultipleMonotone(q, d, p - 1);
      assert p * q == (p - 1) * q + q;
    }
  }
}
