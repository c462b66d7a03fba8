/** The backend tests' shared helpers: flattening the slots of a list of
    layers into a subgraph boundary, and building image shapes in a given
    data layout. */
module CommonTestUtils {
  import opened Wrappers
  import opened Tensors
  import opened Graph

  function TotalInputSlots(layers: seq<Layer>): nat {
    if |layers| == 0 then 0 else |layers[0].inputSlots| + TotalInputSlots(layers[1..])
  }

  function TotalOutputSlots(layers: seq<Layer>): nat {
    if |layers| == 0 then 0 else |layers[0].outputSlots| + TotalOutputSlots(layers[1..])
  }

  /** `CreateInputsFrom(layers)`: every input slot of every layer, layer by
      layer and, within a layer, in slot order. */
  function CreateInputsFrom(layers: seq<Layer>): (r: seq<InputSlotRef>)
    ensures |r| == TotalInputSlots(layers)
    decreases |layers|
  {
    if |layers| == 0 then []
    else
      var l := layers[0];
      seq(|l.inputSlots|, i requires 0 <= i => InputSlotRef(l.guid, i)) + CreateInputsFrom(layers[1..])
  }

  /** `CreateOutputsFrom(layers)`: every output slot of every layer, layer by
      layer and, within a layer, in slot order. */
  function CreateOutputsFrom(layers: seq<Layer>): (r: seq<OutputSlotRef>)
    ensures |r| == TotalOutputSlots(layers)
    decreases |layers|
  {
    if |layers| == 0 then []
    else
      var l := layers[0];
      seq(|l.outputSlots|, i requires 0 <= i => OutputSlotRef(l.guid, i)) + CreateOutputsFrom(layers[1..])
  }

  /** A slot is in the flattened list exactly when it is a slot of one of the layers. */
  lemma {:induction false} CreateInputsFromMembers(layers: seq<Layer>, x: InputSlotRef)
    ensures x in CreateInputsFrom(layers) <==> exists l :: l in layers && x.layer == l.guid && x.index < |l.inputSlots|
    decreases |layers|
  {
    if |layers| > 0 {
      var l := layers[0];
      var own := seq(|l.inputSlots|, i requires 0 <= i => InputSlotRef(l.guid, i));
      assert CreateInputsFrom(layers) == own + CreateInputsFrom(layers[1..]);
      CreateInputsFromMembers(layers[1..], x);
      if x.layer == l.guid && x.index < |l.inputSlots| {
        assert own[x.index] == x;
      }
      if x in own {
        assert x.layer == l.guid && x.index < |l.inputSlots|;
      }
      assert forall m :: m in layers <==> m == l || m in layers[1..];
    }
  }

  lemma {:induction false} CreateOutputsFromMembers(layers: seq<Layer>, x: OutputSlotRef)
    ensures x in CreateOutputsFrom(layers) <==> exists l :: l in layers && x.layer == l.guid && x.index < |l.outputSlots|
    decreases |layers|
  {
    if |layers| > 0 {
      var l := layers[0];
      var own := seq(|l.outputSlots|, i requires 0 <= i => OutputSlotRef(l.guid, i));
      assert CreateOutputsFrom(layers) == own + CreateOutputsFrom(layers[1..]);
      CreateOutputsFromMembers(layers[1..], x);
      if x.layer == l.guid && x.index < |l.outputSlots| {
        assert own[x.index] == x;
      }
      if x in own {
        assert x.layer == l.guid && x.index < |l.outputSlots|;
      }
      assert forall m :: m in layers <==> m == l || m in layers[1..];
    }
  }

  /** Flattening keeps layer order: the slots of a concatenation are the
      slots of its parts, concatenated. */
  lemma {:induction false} CreateInputsFromAppend(a: seq<Layer>, b: seq<Layer>)
    ensures CreateInputsFrom(a + b) == CreateInputsFrom(a) + CreateInputsFrom(b)
    decreases |a|
  {
    if |a| == 0 {
      assert a + b == b;
    } else {
      assert (a + b)[1..] == a[1..] + b;
      CreateInputsFromAppend(a[1..], b);
    }
  }

  lemma {:induction false} CreateOutputsFromAppend(a: seq<Layer>, b: seq<Layer>)
    ensures CreateOutputsFrom(a + b) == CreateOutputsFrom(a) + CreateOutputsFrom(b)
    decreases |a|
  {
    if |a| == 0 {
      assert a + b == b;
    } else {
      assert (a + b)[1..] == a[1..] + b;
      CreateOutputsFromAppend(a[1..], b);
    }
  }

  /** An unsupported layout's exception. */
  datatype InvalidArgumentException = InvalidArgumentException(message: string)

  /** `MakeTensorShape(batches, channels, height, width, layout)`. The
      arguments are 32-bit unsigned in the source. */
  function MakeTensorShape(batches: nat, channels: nat, height: nat, width: nat, layout: DataLayout)
    : (r: Result<seq<nat>, InvalidArgumentException>)
    ensures r.Success? <==> layout == NCHW || layout == NHWC
    ensures r.Success? ==>
      && |r.value| == 4
      && r.value[DimensionIndex(layout, Batches)] == batches
      && r.value[DimensionIndex(layout, Channels)] == channels
      && r.value[DimensionIndex(layout, Height)] == height
      && r.value[DimensionIndex(layout, Width)] == width
    ensures r.Failure? ==> r.error.message == "Unsupported data layout: " + DataLayoutName(layout)
  {
    match layout
    case NCHW => Success([batches, channels, height, width])
    case NHWC => Success([batches, height, width, channels])
    case _ => Failure(InvalidArgumentException("Unsupported data layout: " + DataLayoutName(layout)))
  }

  /** The NHWC shape is the NCHW shape with channels moved last: permuted
      by (0, 2, 3, 1), and back by (0, 3, 1, 2). */
  lemma MakeTensorShapeLayoutsArePermutations(batches: nat, channels: nat, height: nat, width: nat)
    ensures var nchw := MakeTensorShape(batches, channels, height, width, NCHW).value;
      var nhwc := MakeTensorShape(batches, channels, height, width, NHWC).value;
      && nhwc == [nchw[0], nchw[2], nchw[3], nchw[1]]
      && nchw == [nhwc[0], nhwc[3], nhwc[1], nhwc[2]]
  {
  }

  /** Both layouts hold the same four extents. */
  lemma MakeTensorShapeLayoutsKeepExtents(batches: nat, channels: nat, height: nat, width: nat)
    ensures multiset(MakeTensorShape(batches, channels, height, width, NCHW).value)
         == multiset(MakeTensorShape(batches, channels, height, width, NHWC).value)
  {
    ChannelsLastKeepsExtents(batches, channels, height, width);
  }

  lemma ChannelsLastKeepsExtents(n: nat, c: nat, h: nat, w: nat)
    ensures multiset([n, c, h, w]) == multiset([n, h, w, c])
  {
    assert multiset([n, c, h, w]) == multiset{n, c, h, w};
    assert multiset([n, h, w, c]) == multiset{n, h, w, c};
  }
}
