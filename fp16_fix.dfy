/**
 * `fix_fp16_network` of convert/tensorrt_utils.py: one forward pass over
 * adjacent layer pairs of a parsed network that pins some layers to 32-bit
 * float so that they do not saturate when the engine is built for FP16.
 * The network is an array of layer records patched in place.
 */
module Fp16Fix {
  import opened Wrappers

  datatype DataType = Float | Half | Int8 | Int32 | Bool

  datatype ElementWiseOp = Sum | Prod | Max | Min | Sub | Div | Pow | FloorDiv | And | Or | Xor | Equal | Greater | Less

  /** The layer type, with the operator of an element-wise layer reachable without a cast. */
  datatype LayerKind = Elementwise(op: ElementWiseOp) | Reduce | Other

  /**
   * A layer of the network. `precision` is the layer's compute precision and
   * `outType` the type of its output 0; `None` leaves either to the builder.
   */
  datatype Layer = Layer(name: string, kind: LayerKind, precision: Option<DataType>, outType: Option<DataType>)

  /** Python's `s.find(sub) != -1`: `sub` occurs in `s` (the empty string occurs everywhere). */
  predicate Contains(s: string, sub: string)
    decreases |s|
  {
    sub <= s || (|s| > 0 && Contains(s[1..], sub))
  }

  /** `sub` occurs in `s` at offset `i`. */
  predicate OccursAt(s: string, sub: string, i: int)
  {
    0 <= i <= |s| - |sub| && s[i..i + |sub|] == sub
  }

  /** An occurrence at offset 0 is a prefix. */
  lemma OccursAtStart(s: string, sub: string)
    ensures OccursAt(s, sub, 0) <==> sub <= s
  {
  }

  /** An occurrence at offset i + 1 of `s` is an occurrence at offset i of its tail. */
  lemma OccursInTail(s: string, sub: string, i: nat)
    requires |s| > 0
    ensures OccursAt(s, sub, i + 1) <==> OccursAt(s[1..], sub, i)
  {
    if i + 1 <= |s| - |sub| {
      assert s[i + 1..i + 1 + |sub|] == s[1..][i..i + |sub|];
    }
  }

  /** `Contains` agrees with the reference definition of an occurrence at some offset. */
  lemma {:induction false} ContainsIffOccurs(s: string, sub: string)
    ensures Contains(s, sub) <==> exists i :: OccursAt(s, sub, i)
    decreases |s|
  {
    OccursAtStart(s, sub);
    if sub <= s {
      assert OccursAt(s, sub, 0);
    } else if |s| > 0 {
      ContainsIffOccurs(s[1..], sub);
      if Contains(s[1..], sub) {
        var i :| OccursAt(s[1..], sub, i);
        OccursInTail(s, sub, i);
      } else {
        forall i | OccursAt(s, sub, i) ensures i == 0 {
          if i > 0 {
            OccursInTail(s, sub, i - 1);
          }
        }
      }
    }
  }

  /** The layer's name contains one of the banned substrings (none are banned when the list is `None`). */
  predicate Banned(name: string, bannedOps: Option<seq<string>>)
  {
    bannedOps.Some? && exists c :: c in bannedOps.value && Contains(name, c)
  }

  /** The same layer with its precision and/or output type pinned to FLOAT. */
  function ForceFloat(l: Layer, precision: bool, output: bool): Layer
  {
    l.(precision := if precision then Some(Float) else l.precision,
       outType := if output then Some(Float) else l.outType)
  }

  /** Layers i and i + 1 form an element-wise layer followed by a reduction. */
  predicate ReducePair(layers: seq<Layer>, i: int)
  {
    0 <= i < |layers| - 1 && layers[i].kind.Elementwise? && layers[i + 1].kind == Reduce
  }

  /** The element-wise layer of such a pair is a power (the power-then-mean pattern). */
  predicate PowPair(layers: seq<Layer>, i: int)
  {
    ReducePair(layers, i) && layers[i].kind.op == Pow
  }

  /**
   * Layer k after the pass. It is pinned fully when it is not the last layer
   * and its name is banned; its output type is pinned when it belongs to an
   * element-wise/reduce pair on either side; its precision only when that
   * pair's element-wise operator is a power.
   */
  function Patched(layers: seq<Layer>, bannedOps: Option<seq<string>>, k: int): Layer
    requires 0 <= k < |layers|
  {
    var banned := k < |layers| - 1 && Banned(layers[k].name, bannedOps);
    ForceFloat(layers[k],
      banned || PowPair(layers, k) || PowPair(layers, k - 1),
      banned || ReducePair(layers, k) || ReducePair(layers, k - 1))
  }

  /** The whole network after the pass; only annotations change. */
  function Fp16Fixed(layers: seq<Layer>, bannedOps: Option<seq<string>>): (r: seq<Layer>)
    ensures |r| == |layers|
    ensures forall k :: 0 <= k < |layers| ==> r[k].name == layers[k].name && r[k].kind == layers[k].kind
  {
    seq(|layers|, k requires 0 <= k < |layers| => Patched(layers, bannedOps, k))
  }

  /**
   * The network after the first `i` iterations of the loop: layers before
   * `i` are final, layer `i` carries only what the pair (i - 1, i) gave it,
   * and later layers are untouched.
   */
  ghost function PassState(orig: seq<Layer>, bannedOps: Option<seq<string>>, i: int): (r: seq<Layer>)
    requires 0 <= i <= |orig|
    ensures |r| == |orig|
  {
    seq(|orig|, k requires 0 <= k < |orig| =>
      if k < i then Patched(orig, bannedOps, k)
      else if k == i then ForceFloat(orig[k], PowPair(orig, k - 1), ReducePair(orig, k - 1))
      else orig[k])
  }

  /** One iteration of the loop takes `PassState(i)` to `PassState(i + 1)`. */
  lemma PassStep(orig: seq<Layer>, bannedOps: Option<seq<string>>, i: int)
    requires 0 <= i < |orig| - 1
    ensures var s := PassState(orig, bannedOps, i);
            var b := Banned(orig[i].name, bannedOps);
            var pinned := ForceFloat(s[i], b, b);
            s[i := ForceFloat(pinned, PowPair(orig, i), ReducePair(orig, i))]
             [i + 1 := ForceFloat(s[i + 1], PowPair(orig, i), ReducePair(orig, i))]
            == PassState(orig, bannedOps, i + 1)
  {
  }

  /** The inner loop over the banned substrings for layer `i`. */
  method PinIfBanned(layers: array<Layer>, i: int, ops: seq<string>)
    requires 0 <= i < layers.Length
    modifies layers
    ensures var b := Banned(old(layers[i]).name, Some(ops));
            layers[..] == old(layers[..])[i := ForceFloat(old(layers[i]), b, b)]
  {
    ghost var entry := layers[i];
    var j := 0;
    while j < |ops|
      invariant 0 <= j <= |ops|
      invariant var b := exists c :: c in ops[..j] && Contains(entry.name, c);
                layers[..] == old(layers[..])[i := ForceFloat(entry, b, b)]
    {
      assert ops[..j + 1] == ops[..j] + [ops[j]];
      if Contains(layers[i].name, ops[j]) {
        layers[i] := layers[i].(precision := Some(Float), outType := Some(Float));
      }
      j := j + 1;
    }
    assert ops[..j] == ops;
  }

  /** `fix_fp16_network`: patches the layers in place, exactly as `Fp16Fixed` describes. */
  method FixFp16Network(layers: array<Layer>, bannedOps: Option<seq<string>>)
    modifies layers
    ensures layers[..] == Fp16Fixed(old(layers[..]), bannedOps)
  {
    ghost var orig := layers[..];
    var n := layers.Length;
    var i := 0;
    while i < n - 1
      invariant 0 <= i && (n > 0 ==> i <= n - 1) && (n == 0 ==> i == 0)
      invariant layers[..] == PassState(orig, bannedOps, i)
    {
      PassStep(orig, bannedOps, i);
      if bannedOps.Some? {
        PinIfBanned(layers, i, bannedOps.value);
      }
      if layers[i].kind.Elementwise? && layers[i + 1].kind == Reduce {
        if layers[i].kind.op == Pow {
          layers[i] := layers[i].(precision := Some(Float));
          layers[i + 1] := layers[i + 1].(precision := Some(Float));
        }
        layers[i] := layers[i].(outType := Some(Float));
        layers[i + 1] := layers[i + 1].(outType := Some(Float));
      }
      i := i + 1;
    }
    assert layers[..] == Fp16Fixed(orig, bannedOps);
  }

  /** Running the pass a second time changes nothing. */
  lemma Fp16FixedIdempotent(layers: seq<Layer>, bannedOps: Option<seq<string>>)
    ensures Fp16Fixed(Fp16Fixed(layers, bannedOps), bannedOps) == Fp16Fixed(layers, bannedOps)
  {
    var once := Fp16Fixed(layers, bannedOps);
    assert forall i :: ReducePair(once, i) == ReducePair(layers, i);
    assert forall i :: PowPair(once, i) == PowPair(layers, i);
    forall k | 0 <= k < |layers|
      ensures Patched(once, bannedOps, k) == once[k]
    {
      assert Banned(once[k].name, bannedOps) == Banned(layers[k].name, bannedOps);
    }
  }

  /** A layer other than the last whose name holds a banned substring is pinned to FLOAT precision and output type. */
  lemma BannedPinned(layers: seq<Layer>, bannedOps: Option<seq<string>>, k: nat)
    requires k < |layers| - 1 && Banned(layers[k].name, bannedOps)
    ensures Fp16Fixed(layers, bannedOps)[k].precision == Some(Float)
    ensures Fp16Fixed(layers, bannedOps)[k].outType == Some(Float)
  {
    assert Fp16Fixed(layers, bannedOps)[k] == Patched(layers, bannedOps, k);
  }

  /**
   * The loop stops before the last layer, so a banned name on the last layer
   * is never looked at: unless the last layer closes an element-wise/reduce
   * pair it leaves the pass untouched.
   */
  lemma LastLayerNotBanned(layers: seq<Layer>, bannedOps: Option<seq<string>>)
    requires |layers| > 0 && !ReducePair(layers, |layers| - 2)
    ensures Fp16Fixed(layers, bannedOps)[|layers| - 1] == layers[|layers| - 1]
  {
    assert Fp16Fixed(layers, bannedOps)[|layers| - 1] == Patched(layers, bannedOps, |layers| - 1);
  }

  /**
   * A layer's compute precision changes only when its name is banned (and it
   * is not the last layer) or it is part of a power-then-reduce pair; an
   * element-wise/reduce pair with another operator only pins output types.
   */
  lemma PrecisionOnlyForBannedOrPow(layers: seq<Layer>, bannedOps: Option<seq<string>>, k: int)
    requires 0 <= k < |layers|
    requires Fp16Fixed(layers, bannedOps)[k].precision != layers[k].precision
    ensures (k < |layers| - 1 && Banned(layers[k].name, bannedOps)) || PowPair(layers, k) || PowPair(layers, k - 1)
    ensures Fp16Fixed(layers, bannedOps)[k].precision == Some(Float)
  {
    assert Fp16Fixed(layers, bannedOps)[k] == Patched(layers, bannedOps, k);
  }

  /** Every layer of an element-wise/reduce pair ends with a FLOAT output type. */
  lemma ReducePairOutputsFloat(layers: seq<Layer>, bannedOps: Option<seq<string>>, i: int)
    requires ReducePair(layers, i)
    ensures Fp16Fixed(layers, bannedOps)[i].outType == Some(Float)
    ensures Fp16Fixed(layers, bannedOps)[i + 1].outType == Some(Float)
    ensures layers[i].kind.op == Pow ==>
              Fp16Fixed(layers, bannedOps)[i].precision == Some(Float)
              && Fp16Fixed(layers, bannedOps)[i + 1].precision == Some(Float)
  {
    var r := Fp16Fixed(layers, bannedOps);
    assert r[i] == Patched(layers, bannedOps, i);
    assert r[i + 1] == Patched(layers, bannedOps, i + 1);
  }
}
