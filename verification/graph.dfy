/** The layer graph the optimiser works on: layers with input and output
    slots, references to slots, and non-owning subgraph views. */
module Graph {
  import opened Wrappers
  import opened Tensors

  /** `LayerGuid`: a 64-bit profiling GUID, unique within a graph. */
  type LayerGuid = nat

  /** `armnn::LayerType` (the kinds that matter here; every kind other than
      `Convolution2d` is treated alike by the optimiser). */
  datatype LayerType =
    | Activation | Addition | BatchNormalization | Concat | Constant
    | Convolution2d | DepthwiseConvolution2d | ElementwiseBinary | FullyConnected
    | Input | Output | Pooling2d | PreCompiled | Reshape | Softmax

  /** An input slot, described by the `TensorInfo` of the output slot it is
      connected to, or `None` while it is not connected. */
  datatype InputSlot = InputSlot(connection: Option<TensorInfo>)

  /** A layer: GUID, type tag, input slots, the `TensorInfo` of each output
      slot, and the `m_BiasEnabled` flag of its parameters (meaningful for
      `Convolution2d` only). */
  datatype Layer = Layer(
    guid: LayerGuid,
    layerType: LayerType,
    inputSlots: seq<InputSlot>,
    outputSlots: seq<TensorInfo>,
    biasEnabled: bool)

  /** The identity of a slot: its owning layer and its index on that layer. */
  datatype InputSlotRef = InputSlotRef(layer: LayerGuid, index: nat)
  datatype OutputSlotRef = OutputSlotRef(layer: LayerGuid, index: nat)

  /** `SubgraphView`: the ordered layers of the selection and the slots that
      cross its boundary. It owns none of them. */
  datatype SubgraphView = SubgraphView(
    inputSlots: seq<InputSlotRef>,
    outputSlots: seq<OutputSlotRef>,
    layers: seq<Layer>)

  /** `CreateSubgraphViewFrom`: wraps the three lists into a view. */
  function CreateSubgraphViewFrom(
    inputs: seq<InputSlotRef>, outputs: seq<OutputSlotRef>, layers: seq<Layer>): (r: SubgraphView)
    ensures r.inputSlots == inputs
    ensures r.outputSlots == outputs
    ensures r.layers == layers
  {
    SubgraphView(inputs, outputs, layers)
  }

  /** The graph's invariant that no two layers share a GUID. */
  predicate UniqueGuids(layers: seq<Layer>) {
    forall i, j :: 0 <= i < j < |layers| ==> layers[i].guid != layers[j].guid
  }

  function Guids(layers: seq<Layer>): set<LayerGuid> {
    set l | l in layers :: l.guid
  }

  /** Under unique GUIDs a GUID names at most one layer of the selection. */
  lemma GuidDeterminesLayer(layers: seq<Layer>, a: Layer, b: Layer)
    requires UniqueGuids(layers)
    requires a in layers && b in layers && a.guid == b.guid
    ensures a == b
  {
  }
}
