/** The GpuFsa (GPU dynamic fusion) backend's subgraph optimiser: every
    `Convolution2d` layer of a subgraph is replaced by a new precompiled layer;
    every other layer is reported back untouched. Also the import-flag
    normalisation applied when the backend's factories are created. */
module GpuFsaBackend {
  import opened Wrappers
  import opened Tensors
  import opened MemorySources
  import opened Graph

  // ---------------------------------------------------------------------
  // Import-flag normalisation
  // ---------------------------------------------------------------------

  /** Flags left `Undefined` are forced to `Malloc` so that import stays
      possible; any other value, including flags naming no known source,
      passes through unchanged. */
  function NormaliseImportFlags(flags: MemorySourceFlags): (r: MemorySourceFlags)
    ensures r != UndefinedFlags
    ensures flags != UndefinedFlags ==> r == flags
    ensures flags == UndefinedFlags ==> r == MallocFlags
    ensures flags == UndefinedFlags ==> forall s :: Accepts(r, s) <==> s == Malloc
  {
    if flags == UndefinedFlags then MallocFlags else flags
  }

  // ---------------------------------------------------------------------
  // Slot helpers
  // ---------------------------------------------------------------------

  /** `CreateInputsFrom(Layer*)`: every input slot of the layer, in slot order. */
  function CreateInputsFrom(layer: Layer): (r: seq<InputSlotRef>)
    ensures |r| == |layer.inputSlots|
    ensures forall i :: 0 <= i < |r| ==> r[i].layer == layer.guid && r[i].index == i
  {
    seq(|layer.inputSlots|, i requires 0 <= i => InputSlotRef(layer.guid, i))
  }

  /** `CreateOutputsFrom(Layer*)`: every output slot of the layer, in slot order. */
  function CreateOutputsFrom(layer: Layer): (r: seq<OutputSlotRef>)
    ensures |r| == |layer.outputSlots|
    ensures forall i :: 0 <= i < |r| ==> r[i].layer == layer.guid && r[i].index == i
  {
    seq(|layer.outputSlots|, i requires 0 <= i => OutputSlotRef(layer.guid, i))
  }

  // ---------------------------------------------------------------------
  // Optimisation results
  // ---------------------------------------------------------------------

  /** The compiled workload sketch handed to the precompiled layer. It is
      opaque to the rest of the graph. */
  datatype PrecompiledBlob = GpuWorkloadSketch

  const BackendId: string := "GpuFsa"
  const PrecompiledLayerName: string := "GpuFsa_Pre_Compiled_Layer"

  /** A precompiled layer added to the optimisation's network: its input slot
      count, the `TensorInfo` of each output slot (`None` until set), the
      blob it executes, the backend it is bound to and its name. */
  datatype PrecompiledLayer = PrecompiledLayer(
    numInputSlots: nat,
    outputInfos: seq<Option<TensorInfo>>,
    blob: PrecompiledBlob,
    backend: string,
    name: string)
  {
    function NumOutputSlots(): nat {
      |outputInfos|
    }
  }

  /** A substitution: the matched subgraph and the layer that replaces it. */
  datatype Substitution = Substitution(substitutableSubgraph: SubgraphView, replacement: PrecompiledLayer)

  /** What goes back to the host as untouched: either the whole input
      subgraph, or the layers left in the untouched map, keyed by GUID. */
  datatype UntouchedReport =
    | WholeSubgraph(view: SubgraphView)
    | UntouchedLayers(layers: map<LayerGuid, Layer>)

  datatype OptimizationViews = OptimizationViews(substitutions: seq<Substitution>, untouched: UntouchedReport)

  /** Errors that abort the pass. Each names the offending layer. The first
      three are structural; `ConvolutionRejected` is an exception thrown by
      `GpuFsaConvolution2dCreateOp`. */
  datatype OptimizeError =
    | InputSlotOutOfRange(layer: LayerGuid, index: nat)
    | DisconnectedInputSlot(layer: LayerGuid, index: nat)
    | OutputSlotOutOfRange(layer: LayerGuid, index: nat)
    | ConvolutionRejected(layer: LayerGuid)

  /** The tensor infos a convolution is compiled from. */
  datatype ConvolutionInputs = ConvolutionInputs(input: TensorInfo, weights: TensorInfo, bias: Option<TensorInfo>)

  // ---------------------------------------------------------------------
  // Replacing one convolution
  // ---------------------------------------------------------------------

  predicate IsConvolution(layer: Layer) {
    layer.layerType == Convolution2d
  }

  /** Input slot `index` exists and is connected to an output slot. */
  predicate IsConnected(layer: Layer, index: nat) {
    index < |layer.inputSlots| && layer.inputSlots[index].connection.Some?
  }

  /** `GetInputSlot(index).GetConnectedOutputSlot()->GetTensorInfo()`. */
  function ConnectedInfo(layer: Layer, index: nat): (r: Result<TensorInfo, OptimizeError>)
    ensures r.Success? <==> IsConnected(layer, index)
    ensures r.Success? ==> r.value == layer.inputSlots[index].connection.value
    ensures r.Failure? ==>
      && (r.error.InputSlotOutOfRange? <==> index >= |layer.inputSlots|)
      && (r.error.InputSlotOutOfRange? || r.error.DisconnectedInputSlot?)
      && r.error.layer == layer.guid && r.error.index == index
  {
    if index >= |layer.inputSlots| then Failure(InputSlotOutOfRange(layer.guid, index))
    else
      match layer.inputSlots[index].connection
      case None => Failure(DisconnectedInputSlot(layer.guid, index))
      case Some(info) => Success(info)
  }

  /** Reads the input and weights infos, and the bias info when the
      descriptor enables bias, in that order. */
  function GatherConvolutionInputs(layer: Layer): (r: Result<ConvolutionInputs, OptimizeError>)
    ensures r.Success? <==>
      IsConnected(layer, 0) && IsConnected(layer, 1) && (layer.biasEnabled ==> IsConnected(layer, 2))
    ensures r.Success? ==>
      && r.value.input == layer.inputSlots[0].connection.value
      && r.value.weights == layer.inputSlots[1].connection.value
      && (r.value.bias.Some? <==> layer.biasEnabled)
      && (r.value.bias.Some? ==> r.value.bias.value == layer.inputSlots[2].connection.value)
    ensures r.Failure? ==>
      && (r.error.InputSlotOutOfRange? || r.error.DisconnectedInputSlot?)
      && (r.error.InputSlotOutOfRange? <==> r.error.index >= |layer.inputSlots|)
      && r.error.layer == layer.guid
      && r.error.index == (if !IsConnected(layer, 0) then 0 else if !IsConnected(layer, 1) then 1 else 2)
  {
    var input :- ConnectedInfo(layer, 0);
    var weights :- ConnectedInfo(layer, 1);
    if layer.biasEnabled then
      var bias :- ConnectedInfo(layer, 2);
      Success(ConvolutionInputs(input, weights, Some(bias)))
    else
      Success(ConvolutionInputs(input, weights, None))
  }

  /** `AddPrecompiledLayer` with a descriptor sized from `layer`: the new
      layer's output slots carry no `TensorInfo` yet. */
  function AddPrecompiledLayer(layer: Layer): (r: PrecompiledLayer)
    ensures r.numInputSlots == |layer.inputSlots| && r.NumOutputSlots() == |layer.outputSlots|
    ensures forall i :: 0 <= i < r.NumOutputSlots() ==> r.outputInfos[i].None?
    ensures r.backend == BackendId && r.name == PrecompiledLayerName
  {
    PrecompiledLayer(|layer.inputSlots|, seq(|layer.outputSlots|, _ => None),
                     GpuWorkloadSketch, BackendId, PrecompiledLayerName)
  }

  /** The copy loop `for (i = from; i < count; i++)
      pre.GetOutputSlot(i).SetTensorInfo(base.GetOutputSlot(i).GetTensorInfo())`;
      an index beyond either layer's output slots aborts the pass. */
  function CopyOutputTensorInfos(pre: PrecompiledLayer, base: Layer, from: nat, count: nat)
    : (r: Result<PrecompiledLayer, OptimizeError>)
    ensures r.Success? <==>
      count <= from || (count <= pre.NumOutputSlots() && count <= |base.outputSlots|)
    ensures r.Success? ==>
      && r.value.numInputSlots == pre.numInputSlots
      && r.value.blob == pre.blob && r.value.backend == pre.backend && r.value.name == pre.name
      && |r.value.outputInfos| == |pre.outputInfos|
      && forall j :: 0 <= j < |pre.outputInfos| ==>
           r.value.outputInfos[j] == (if from <= j < count then Some(base.outputSlots[j]) else pre.outputInfos[j])
    ensures r.Failure? ==>
      && r.error.OutputSlotOutOfRange?
      && r.error == OutputSlotOutOfRange(base.guid, r.error.index)
      && from <= r.error.index < count
      && (r.error.index >= pre.NumOutputSlots() || r.error.index >= |base.outputSlots|)
    ensures r.Failure? ==>
      r.error.index == (if from < pre.NumOutputSlots() && from < |base.outputSlots|
                        then (if pre.NumOutputSlots() < |base.outputSlots| then pre.NumOutputSlots() else |base.outputSlots|)
                        else from)
    decreases count - from
  {
    if count <= from then Success(pre)
    else if from >= pre.NumOutputSlots() || from >= |base.outputSlots| then
      Failure(OutputSlotOutOfRange(base.guid, from))
    else
      CopyOutputTensorInfos(pre.(outputInfos := pre.outputInfos[from := Some(base.outputSlots[from])]),
                            base, from + 1, count)
  }

  /** The body of the `Convolution2d` case for one layer `base` of a subgraph
      with `numSubgraphOutputs` output slots. `rejected` holds the GUIDs of
      the layers for which `GpuFsaConvolution2dCreateOp` throws; that
      function's definition is not part of this model. Note that the copy
      loop is bounded by the subgraph's output count, not by the layer's. */
  function ReplaceConvolution(numSubgraphOutputs: nat, rejected: set<LayerGuid>, base: Layer)
    : (r: Result<Substitution, OptimizeError>)
    ensures r.Success? <==>
      && GatherConvolutionInputs(base).Success?
      && base.guid !in rejected
      && numSubgraphOutputs <= |base.outputSlots|
    ensures GatherConvolutionInputs(base).Failure? ==> r == Failure(GatherConvolutionInputs(base).error)
    ensures GatherConvolutionInputs(base).Success? && base.guid in rejected ==>
      r == Failure(ConvolutionRejected(base.guid))
    ensures GatherConvolutionInputs(base).Success? && base.guid !in rejected && numSubgraphOutputs > |base.outputSlots| ==>
      r == Failure(OutputSlotOutOfRange(base.guid, |base.outputSlots|))
    ensures r.Success? ==>
      && r.value.substitutableSubgraph.layers == [base]
      && r.value.substitutableSubgraph.inputSlots == CreateInputsFrom(base)
      && r.value.substitutableSubgraph.outputSlots == CreateOutputsFrom(base)
    ensures r.Success? ==>
      && r.value.replacement.numInputSlots == |base.inputSlots|
      && r.value.replacement.NumOutputSlots() == |base.outputSlots|
      && r.value.replacement.backend == BackendId
      && r.value.replacement.name == PrecompiledLayerName
      && forall i :: 0 <= i < |base.outputSlots| ==>
           r.value.replacement.outputInfos[i] ==
             (if i < numSubgraphOutputs then Some(base.outputSlots[i]) else None)
    ensures r.Failure? ==> r.error.layer == base.guid
  {
    var _ :- GatherConvolutionInputs(base);
    if base.guid in rejected then Failure(ConvolutionRejected(base.guid)) else
    var pre :- CopyOutputTensorInfos(AddPrecompiledLayer(base), base, 0, numSubgraphOutputs);
    Success(Substitution(CreateSubgraphViewFrom(CreateInputsFrom(base), CreateOutputsFrom(base), [base]), pre))
  }

  // ---------------------------------------------------------------------
  // The whole pass
  // ---------------------------------------------------------------------

  /** The convolution layers of `layers`, last one first. */
  function ConvolutionsLastFirst(layers: seq<Layer>): (r: seq<Layer>)
    ensures forall l :: l in r <==> l in layers && IsConvolution(l)
    ensures |r| <= |layers|
  {
    if |layers| == 0 then []
    else ConvolutionsLastFirst(layers[1..]) + (if IsConvolution(layers[0]) then [layers[0]] else [])
  }

  /** `subs[j]` is the replacement of `convs[j]`, for every `j`. */
  predicate ReplacesEach(numSubgraphOutputs: nat, rejected: set<LayerGuid>, convs: seq<Layer>, subs: seq<Substitution>) {
    && |subs| == |convs|
    && forall j :: 0 <= j < |subs| ==> ReplaceConvolution(numSubgraphOutputs, rejected, convs[j]) == Success(subs[j])
  }

  /** The substitutions are exactly the replacements of the convolutions,
      last convolution first. */
  predicate SubstitutesConvolutions(subgraph: SubgraphView, rejected: set<LayerGuid>, subs: seq<Substitution>) {
    ReplacesEach(|subgraph.outputSlots|, rejected, ConvolutionsLastFirst(subgraph.layers), subs)
  }

  /** The untouched report: the whole subgraph when nothing was substituted,
      otherwise the GUIDs of all layers minus those of the convolutions, each
      mapped to a layer of the subgraph carrying that GUID. */
  predicate ReportsRemainder(subgraph: SubgraphView, views: OptimizationViews) {
    if |views.substitutions| == 0 then views.untouched == WholeSubgraph(subgraph)
    else
      && views.untouched.UntouchedLayers?
      && RemainderMap(subgraph.layers, views.untouched.layers)
  }

  /** `m` maps the GUIDs of the layers that are not convolutions to layers of
      `layers` carrying those GUIDs. */
  predicate RemainderMap(layers: seq<Layer>, m: map<LayerGuid, Layer>) {
    && m.Keys == Guids(layers) - Guids(ConvolutionsLastFirst(layers))
    && forall g :: g in m ==> m[g] in layers && m[g].guid == g
  }

  /** `layer` is the matched side of some substitution. */
  predicate Matched(views: OptimizationViews, layer: Layer) {
    exists j :: 0 <= j < |views.substitutions| && views.substitutions[j].substitutableSubgraph.layers == [layer]
  }

  /** `layer` is reported back untouched. */
  predicate Reported(views: OptimizationViews, layer: Layer) {
    match views.untouched
    case WholeSubgraph(view) => layer in view.layers
    case UntouchedLayers(m) => layer.guid in m && m[layer.guid] == layer
  }

  /** No convolution among `layers[from..]` fails to be replaced. */
  predicate ConvolutionsSucceedFrom(numSubgraphOutputs: nat, rejected: set<LayerGuid>, layers: seq<Layer>, from: nat) {
    forall j :: from <= j < |layers| && IsConvolution(layers[j]) ==>
      ReplaceConvolution(numSubgraphOutputs, rejected, layers[j]).Success?
  }

  /** Some convolution of the subgraph cannot be replaced. */
  predicate SomeConvolutionFails(subgraph: SubgraphView, rejected: set<LayerGuid>) {
    !ConvolutionsSucceedFrom(|subgraph.outputSlots|, rejected, subgraph.layers, 0)
  }

  /** `e` is the error of the last convolution that cannot be replaced: the
      first one the reverse walk meets. */
  predicate IsFirstErrorFromEnd(subgraph: SubgraphView, rejected: set<LayerGuid>, e: OptimizeError) {
    var n := |subgraph.outputSlots|;
    var layers := subgraph.layers;
    exists i :: 0 <= i < |layers| && IsConvolution(layers[i]) && ReplaceConvolution(n, rejected, layers[i]) == Failure(e)
                && ConvolutionsSucceedFrom(n, rejected, layers, i + 1)
  }

  /** `OptimizeSubgraphView`. The first loop enters every layer into the
      untouched map; the second loop, walking the layers backwards, replaces
      each `Convolution2d`, appends its substitution and erases its GUID from
      the map. `rejected` is as for `ReplaceConvolution`. */
  method OptimizeSubgraphView(subgraph: SubgraphView, rejected: set<LayerGuid>)
    returns (r: Result<OptimizationViews, OptimizeError>)
    ensures r.Failure? <==> SomeConvolutionFails(subgraph, rejected)
    ensures r.Failure? ==> IsFirstErrorFromEnd(subgraph, rejected, r.error)
    ensures r.Success? ==> SubstitutesConvolutions(subgraph, rejected, r.value.substitutions)
    ensures r.Success? ==> ReportsRemainder(subgraph, r.value)
  {
    var untouched := CollectUntouched(subgraph.layers);
    var walked := SubstituteBackwards(subgraph, rejected, untouched);
    match walked {
      case Failure(e) =>
        r := Failure(e);
      case Success((subs, remaining)) =>
        if |subs| == 0 {
          r := Success(OptimizationViews(subs, WholeSubgraph(subgraph)));
        } else {
          r := Success(OptimizationViews(subs, UntouchedLayers(remaining)));
        }
    }
  }

  /** The first loop: walking backwards, every layer's GUID is inserted into
      the map; `std::map::insert` keeps a GUID that is already present. */
  method CollectUntouched(layers: seq<Layer>) returns (untouched: map<LayerGuid, Layer>)
    ensures untouched.Keys == Guids(layers)
    ensures forall g :: g in untouched ==> untouched[g] in layers && untouched[g].guid == g
  {
    untouched := map[];
    var k := |layers|;
    while k > 0
      invariant 0 <= k <= |layers|
      invariant forall i :: k <= i < |layers| ==> layers[i].guid in untouched
      invariant forall g :: g in untouched ==> untouched[g] in layers && untouched[g].guid == g
    {
      k := k - 1;
      var base := layers[k];
      if base.guid !in untouched {
        untouched := untouched[base.guid := base];
      }
    }
    UntouchedKeysAreGuids(layers, untouched);
  }

  /** The second loop: walking backwards, each convolution is replaced, its
      substitution appended and its GUID erased from the untouched map. */
  method SubstituteBackwards(subgraph: SubgraphView, rejected: set<LayerGuid>, initial: map<LayerGuid, Layer>)
    returns (r: Result<(seq<Substitution>, map<LayerGuid, Layer>), OptimizeError>)
    ensures r.Failure? <==> SomeConvolutionFails(subgraph, rejected)
    ensures r.Failure? ==> IsFirstErrorFromEnd(subgraph, rejected, r.error)
    ensures r.Success? ==> SubstitutesConvolutions(subgraph, rejected, r.value.0)
    ensures r.Success? ==> r.value.1 == initial - Guids(ConvolutionsLastFirst(subgraph.layers))
  {
    var layers := subgraph.layers;
    var n := |subgraph.outputSlots|;
    var untouched := initial;
    var subs: seq<Substitution> := [];
    ghost var done: seq<Layer> := [];
    var k := |layers|;
    while k > 0
      invariant 0 <= k <= |layers|
      invariant done == ConvolutionsLastFirst(layers[k..])
      invariant ConvolutionsSucceedFrom(n, rejected, layers, k)
      invariant ReplacesEach(n, rejected, done, subs)
      invariant untouched == initial - Guids(done)
    {
      k := k - 1;
      var base := layers[k];
      ConvolutionsStep(layers, k);
      if !IsConvolution(base) {
        continue;
      }
      var sub := ReplaceConvolution(n, rejected, base);
      if sub.Failure? {
        FirstFailureFromEnd(subgraph, rejected, k, sub.error);
        r := Failure(sub.error);
        return;
      }
      EraseStep(initial, done, base);
      ReplacesEachAppend(n, rejected, done, subs, base, sub.value);
      subs := subs + [sub.value];
      untouched := untouched - {base.guid};
      done := done + [base];
    }
    assert layers[0..] == layers;
    r := Success((subs, untouched));
  }

  lemma FirstFailureFromEnd(subgraph: SubgraphView, rejected: set<LayerGuid>, k: nat, e: OptimizeError)
    requires k < |subgraph.layers| && IsConvolution(subgraph.layers[k])
    requires ReplaceConvolution(|subgraph.outputSlots|, rejected, subgraph.layers[k]) == Failure(e)
    requires ConvolutionsSucceedFrom(|subgraph.outputSlots|, rejected, subgraph.layers, k + 1)
    ensures SomeConvolutionFails(subgraph, rejected) && IsFirstErrorFromEnd(subgraph, rejected, e)
  {
  }

  lemma ConvolutionsStep(layers: seq<Layer>, k: nat)
    requires k < |layers|
    ensures ConvolutionsLastFirst(layers[k..]) ==
      ConvolutionsLastFirst(layers[k + 1..]) + (if IsConvolution(layers[k]) then [layers[k]] else [])
  {
    assert layers[k..][1..] == layers[k + 1..];
  }

  lemma ReplacesEachAppend(n: nat, rejected: set<LayerGuid>, convs: seq<Layer>, subs: seq<Substitution>, l: Layer, s: Substitution)
    requires ReplacesEach(n, rejected, convs, subs)
    requires ReplaceConvolution(n, rejected, l) == Success(s)
    ensures ReplacesEach(n, rejected, convs + [l], subs + [s])
  {
  }

  lemma UntouchedKeysAreGuids(layers: seq<Layer>, m: map<LayerGuid, Layer>)
    requires forall i :: 0 <= i < |layers| ==> layers[i].guid in m
    requires forall g :: g in m ==> m[g] in layers && m[g].guid == g
    ensures m.Keys == Guids(layers)
  {
    forall g | g in Guids(layers)
      ensures g in m
    {
      var l :| l in layers && l.guid == g;
      var i :| 0 <= i < |layers| && layers[i] == l;
    }
  }

  lemma EraseStep(initial: map<LayerGuid, Layer>, done: seq<Layer>, l: Layer)
    ensures initial - Guids(done + [l]) == (initial - Guids(done)) - {l.guid}
  {
    GuidsAppend(done, l);
  }

  lemma GuidsAppend(layers: seq<Layer>, l: Layer)
    ensures Guids(layers + [l]) == Guids(layers) + {l.guid}
  {
    forall g | g in Guids(layers)
      ensures g in Guids(layers + [l])
    {
      var x :| x in layers && x.guid == g;
      assert x in layers + [l];
    }
    assert l in layers + [l];
  }
}
