/** Properties of the GpuFsa optimiser's result, stated over the shape that
    `GpuFsaBackend.OptimizeSubgraphView` guarantees on success. */
module GpuFsaBackendLemmas {
  import opened Wrappers
  import opened Graph
  import opened GpuFsaBackend
  import opened MemorySources
  import AclTensors
  import ClImportHandle
  import CommonTestUtils

  /** The last-first order is a reversal: the convolutions of a later part of
      the subgraph come before those of an earlier part. */
  lemma {:induction false} ConvolutionsLastFirstAppend(a: seq<Layer>, b: seq<Layer>)
    ensures ConvolutionsLastFirst(a + b) == ConvolutionsLastFirst(b) + ConvolutionsLastFirst(a)
    decreases |a|
  {
    if |a| == 0 {
      assert a + b == b;
    } else {
      assert (a + b)[1..] == a[1..] + b;
      ConvolutionsLastFirstAppend(a[1..], b);
    }
  }

  /** Exactly the convolutions are matched, each by a substitution of its own
      that holds nothing but that layer. */
  lemma MatchedAreConvolutions(subgraph: SubgraphView, rejected: set<LayerGuid>, views: OptimizationViews, layer: Layer)
    requires SubstitutesConvolutions(subgraph, rejected, views.substitutions)
    ensures Matched(views, layer) <==> layer in subgraph.layers && IsConvolution(layer)
  {
    var convs := ConvolutionsLastFirst(subgraph.layers);
    if layer in convs {
      var j :| 0 <= j < |convs| && convs[j] == layer;
      assert views.substitutions[j].substitutableSubgraph.layers == [layer];
    }
  }

  /** Every layer of the subgraph lands in exactly one bucket: a convolution
      on the matched side of a substitution, any other layer in the untouched
      report; and neither bucket holds anything from outside the subgraph. */
  lemma {:induction false} OptimizationPartitionsLayers(subgraph: SubgraphView, rejected: set<LayerGuid>, views: OptimizationViews)
    requires UniqueGuids(subgraph.layers)
    requires SubstitutesConvolutions(subgraph, rejected, views.substitutions)
    requires ReportsRemainder(subgraph, views)
    ensures forall l :: l in subgraph.layers ==> (Matched(views, l) <==> IsConvolution(l))
    ensures forall l :: l in subgraph.layers ==> (Reported(views, l) <==> !IsConvolution(l))
    ensures forall l :: l in subgraph.layers ==> (Matched(views, l) <==> !Reported(views, l))
    ensures forall l :: Matched(views, l) || Reported(views, l) ==> l in subgraph.layers
  {
    var layers := subgraph.layers;
    var convs := ConvolutionsLastFirst(layers);
    forall l | true
      ensures Matched(views, l) <==> l in layers && IsConvolution(l)
    {
      MatchedAreConvolutions(subgraph, rejected, views, l);
    }
    if |views.substitutions| == 0 {
      assert forall l :: l in layers ==> l !in convs;
    } else {
      var m := views.untouched.layers;
      forall l | l in layers
        ensures Reported(views, l) <==> !IsConvolution(l)
      {
        if IsConvolution(l) {
          assert l in convs;
          assert l.guid in Guids(convs);
        } else {
          assert l.guid in Guids(layers);
          if l.guid in Guids(convs) {
            var c :| c in convs && c.guid == l.guid;
            GuidDeterminesLayer(layers, c, l);
          }
          assert l.guid in m;
          GuidDeterminesLayer(layers, m[l.guid], l);
        }
      }
    }
  }

  /** A subgraph without convolutions comes back whole, with no substitution;
      one with a convolution always gets at least one substitution. */
  lemma NothingSubstitutedIffNoConvolution(subgraph: SubgraphView, rejected: set<LayerGuid>, views: OptimizationViews)
    requires SubstitutesConvolutions(subgraph, rejected, views.substitutions)
    requires ReportsRemainder(subgraph, views)
    ensures |views.substitutions| == 0 <==> forall l :: l in subgraph.layers ==> !IsConvolution(l)
    ensures |views.substitutions| == 0 ==> views.untouched == WholeSubgraph(subgraph)
  {
    var convs := ConvolutionsLastFirst(subgraph.layers);
    if |convs| > 0 {
      assert convs[0] in convs;
    }
  }

  /** The replacement exposes the same slot counts as the boundary of the
      subgraph it replaces, and carries the original output infos up to the
      subgraph's output count. */
  lemma ReplacementMatchesBoundary(numSubgraphOutputs: nat, rejected: set<LayerGuid>, base: Layer, s: Substitution)
    requires ReplaceConvolution(numSubgraphOutputs, rejected, base) == Success(s)
    ensures |s.substitutableSubgraph.inputSlots| == s.replacement.numInputSlots
    ensures |s.substitutableSubgraph.outputSlots| == s.replacement.NumOutputSlots()
    ensures forall i :: 0 <= i < numSubgraphOutputs ==> s.replacement.outputInfos[i] == Some(base.outputSlots[i])
  {
  }

  /** The boundary of a matched single-layer subgraph is what the test
      utilities' flattening gives for that one layer. */
  lemma SingleLayerBoundaryAgreesWithFlattening(base: Layer)
    ensures CommonTestUtils.CreateInputsFrom([base]) == CreateInputsFrom(base)
    ensures CommonTestUtils.CreateOutputsFrom([base]) == CreateOutputsFrom(base)
  {
    assert [base][1..] == [];
  }

  /** Normalising undefined flags makes a host-memory import possible. The
      GpuFsa backend discards the normalised flags and never builds a CL
      import handle; the CL handle here only illustrates the intent stated
      by the comment on the rewrite ("allow force import"): a handle built
      with the normalised flags accepts a `Malloc` import that the platform
      and the allocator accept, and still rejects every other source by
      flag. Normalising twice changes nothing. */
  lemma NormalisedFlagsAllowForcedImport(
    tensor: AclTensors.AclTensorInfo, memory: nat, source: MemorySource, description: string)
    ensures var h := ClImportHandle.NewClImportTensorHandle(tensor, NormaliseImportFlags(UndefinedFlags));
      var ok := ClImportHandle.AclStatus(ClImportHandle.OK, description);
      && ClImportHandle.Import(h, memory, Malloc, ClImportHandle.CL_SUCCESS, ok).result == Success(true)
      && (source != Malloc ==>
            ClImportHandle.Import(h, memory, source, ClImportHandle.CL_SUCCESS, ok).result
              == Failure(ClImportHandle.IncorrectImportFlag))
    ensures NormaliseImportFlags(NormaliseImportFlags(UndefinedFlags)) == NormaliseImportFlags(UndefinedFlags)
  {
  }
}
