# Arm NN backend core: a Dafny model

This project models four small pieces of logic from Arm NN's backend layer:

- **The GpuFsa subgraph optimiser.** This is the GPU dynamic-fusion backend's `OptimizeSubgraphView`. It takes a subgraph view and walks its layers backwards. Each `Convolution2d` layer is replaced by a new precompiled layer, which gives one single-layer substitution. Every other layer is reported back untouched. The same file also rewrites `Undefined` import flags to `Malloc` when the backend's factories are created.
- **The CL import tensor handles.** `ClImportTensorHandle` wraps memory owned by the caller. It accepts a source only if its import-flag bitmask includes that source, and only host (`Malloc`) memory is actually imported. `ClImportSubTensorHandle` is a view into a parent handle. The test-only copy routines of both handles select an element type from the tensor's data type.
- **The activate-timeline-reporting command handler.** This profiling command handler checks the service state and the packet. The first valid activation sends the timeline directory and the well-known labels, reports the structure and notifies the backends.
- **The backend tests' helpers.** These are slot flattening (`CreateInputsFrom`/`CreateOutputsFrom`) and `MakeTensorShape`.

The model uses immutable datatypes and pure functions. Each exception the C++ code throws becomes a typed error value. Each handler returns its new state and its error. In every error path the new state is the old state: each throw of the modelled code (the command handler's four checks and `Import`'s four failures) happens before that code changes any state. Outcomes of code outside the model are passed in as parameters:

- the OpenCL import's error code;
- the Compute Library allocator's status;
- the profiling state;
- whether `GpuFsaConvolution2dCreateOp` throws for a convolution layer (`rejected`, the set of GUIDs it rejects).

Outgoing profiling calls are recorded as an event trace.

Modules:

- `Wrappers`: `Option` and `Result`.
- `Decimal`: `std::to_string`, plus a parser that reads the number back.
- `Tensors`: `TensorInfo`, `DataType`, `DataLayout`.
- `MemorySources`: `MemorySource` and the flag bitmask.
- `Graph`: layers, slots, subgraph views.
- `GpuFsaBackend` and `GpuFsaBackendLemmas`: the optimiser.
- `AclTensors`, `ClImportHandle` and `ClImportSubHandle`: the import handles.
- `ActivateTimelineReporting`: the command handler.
- `CommonTestUtils`: the test helpers.

Modelling choices that reach beyond `GpuFsaBackend.cpp`, `ClImportTensorHandle.hpp`, `ActivateTimelineReportingCommandHandler.cpp` and `CommonTestUtils.cpp`:

- **`MemorySource` values.** The model uses Undefined 0, Malloc 1, DmaBuf 2, DmaBufProtected 4 and Gralloc 8. These come from Arm NN's public `MemorySources` header, which is not part of this model.
- **Slot access errors.** `Layer::GetInputSlot` and `Layer::GetOutputSlot` index with `std::vector::at`. An index out of range therefore throws, and the model reports it as a structural error that aborts the pass.
- **Disconnected input slots.** A disconnected input slot gives a null `GetConnectedOutputSlot()`, which the source then dereferences. The model reports this as the fatal structural error `DisconnectedInputSlot`.
- **Untouched report.** `ReportUntouchedLayers` is not part of this model. The untouched report is modelled as the GUID-to-layer map that the source passes to it.
- **The compiled blob.** `GpuFsaConvolution2dCreateOp` receives the tensor infos but not the sketch. The blob handed to the precompiled layer is therefore an opaque token. What the model keeps of the convolution case is which input slots it reads (0 and 1, and 2 exactly when bias is enabled) and the errors those reads can raise.
- **Create-op outcome.** `GpuFsaConvolution2dCreateOp` is defined outside the modelled files. Whether it throws for a given convolution is a parameter: `rejected`, the set of GUIDs of the layers it rejects. A rejected layer aborts the pass with `ConvolutionRejected` once its input reads have succeeded.
- **Discarded flags.** In `GpuFsaBackend.cpp` the normalised `inputFlags`/`outputFlags` (lines 113-121 and 168-176) are not passed to anything later in those functions. The backend registers only its own `GpuFsaTensorHandleFactory` (lines 133-136 and 188-190) and never builds a CL import handle. The model states the normalisation itself. To illustrate the intent given in the comment at line 113, it also states what a CL import handle built with the normalised flags would accept.

## Model

| member | source | states |
|---|---|---|
| GpuFsaBackend.NormaliseImportFlags | src/backends/gpuFsa/GpuFsaBackend.cpp:113-121 | the result is never `Undefined`; `Undefined` becomes exactly `Malloc`, which accepts `Malloc` and no other source; every other value is returned unchanged (the same rewrite appears at lines 168-176) |
| GpuFsaBackend.CreateInputsFrom | src/backends/gpuFsa/GpuFsaBackend.cpp:37-45 | one reference per input slot of the layer, slot `i` at position `i`, all naming that layer |
| GpuFsaBackend.CreateOutputsFrom | src/backends/gpuFsa/GpuFsaBackend.cpp:47-55 | one reference per output slot of the layer, slot `i` at position `i`, all naming that layer |
| Graph.CreateSubgraphViewFrom | src/backends/gpuFsa/GpuFsaBackend.cpp:57-62 | the view holds exactly the given input slots, output slots and layers (the identical helper at src/backends/backendsCommon/test/CommonTestUtils.cpp:38-43 is the same member) |
| GpuFsaBackend.ConnectedInfo | src/backends/gpuFsa/GpuFsaBackend.cpp:246-247 | succeeds exactly when the slot exists and is connected, returning the connected output's `TensorInfo`; otherwise an error naming the layer and the slot |
| GpuFsaBackend.GatherConvolutionInputs | src/backends/gpuFsa/GpuFsaBackend.cpp:244-266 | succeeds exactly when slots 0 and 1 are connected and, if bias is enabled, slot 2; a bias info is read exactly when `m_BiasEnabled`; a failure names the first bad slot in the order 0, 1, 2, as out of range exactly when the slot index is beyond the layer's input slots and as disconnected otherwise |
| GpuFsaBackend.AddPrecompiledLayer | src/backends/gpuFsa/GpuFsaBackend.cpp:275-279 | the new layer has the original's input and output slot counts, no output info set yet, the GpuFsa backend id and the fixed layer name |
| GpuFsaBackend.CopyOutputTensorInfos | src/backends/gpuFsa/GpuFsaBackend.cpp:281-285 | succeeds exactly when the loop bound fits both layers' output counts; then outputs in `[from, count)` carry the original's infos and all others are unchanged; otherwise the error is the first index outside either layer |
| GpuFsaBackend.ReplaceConvolution | src/backends/gpuFsa/GpuFsaBackend.cpp:244-292 | succeeds exactly when the reads succeed, the create-op does not reject the layer, and the subgraph's output count is at most the layer's; a failed read fails with the read's error, before the create-op; a rejection after successful reads fails with `ConvolutionRejected`; an output list shorter than the subgraph's fails with `OutputSlotOutOfRange` at the layer's output count; the matched side is exactly `[base]` with all of its input and output slots; the replacement has the same slot counts; output `i` carries the original info when `i` is below the subgraph's output count and is unset otherwise |
| GpuFsaBackend.ConvolutionsLastFirst | src/backends/gpuFsa/GpuFsaBackend.cpp:235-271 | holds exactly the `Convolution2d` layers of the sequence, and no more of them than there are layers |
| GpuFsaBackend.CollectUntouched | src/backends/gpuFsa/GpuFsaBackend.cpp:225-232 | after the first loop the map's keys are exactly the subgraph's GUIDs, and each key maps to a layer of the subgraph with that GUID |
| GpuFsaBackend.SubstituteBackwards | src/backends/gpuFsa/GpuFsaBackend.cpp:234-295 | fails exactly when some convolution cannot be replaced (a failed read, a create-op rejection or a too-short output list), and then with the error of the last such convolution; otherwise substitution `j` replaces the `j`-th convolution counted from the end, and the map has lost exactly the convolutions' GUIDs |
| GpuFsaBackend.OptimizeSubgraphView | src/backends/gpuFsa/GpuFsaBackend.cpp:215-308 | the same failure behaviour; on success the substitutions replace the convolutions, last first; with no substitution the whole input subgraph is reported untouched, otherwise only the remaining GUIDs, each mapped to a layer of the subgraph |
| GpuFsaBackendLemmas.ConvolutionsLastFirstAppend | src/backends/gpuFsa/GpuFsaBackend.cpp:235-292 | substitutions come in reverse layer order: the convolutions of `a + b` are those of `b` followed by those of `a` |
| GpuFsaBackendLemmas.MatchedAreConvolutions | src/backends/gpuFsa/GpuFsaBackend.cpp:242-271 | a layer is the matched side of some substitution exactly when it is a `Convolution2d` layer of the subgraph |
| GpuFsaBackendLemmas.OptimizationPartitionsLayers | src/backends/gpuFsa/GpuFsaBackend.cpp:225-304 | with unique GUIDs every layer lands in exactly one bucket: convolutions are matched, all other layers are reported untouched, and neither bucket holds a layer from outside the subgraph |
| GpuFsaBackendLemmas.NothingSubstitutedIffNoConvolution | src/backends/gpuFsa/GpuFsaBackend.cpp:297-304 | there are zero substitutions exactly when the subgraph has no convolution, and then the report is the input subgraph itself |
| GpuFsaBackendLemmas.ReplacementMatchesBoundary | src/backends/gpuFsa/GpuFsaBackend.cpp:275-292 | the replacement's input and output slot counts equal the matched subgraph's boundary counts, and its outputs below the subgraph's output count carry the original infos |
| GpuFsaBackendLemmas.SingleLayerBoundaryAgreesWithFlattening | src/backends/gpuFsa/GpuFsaBackend.cpp:287-290 | the matched side's boundary slots are what the test utilities' flattening yields for that single layer |
| GpuFsaBackendLemmas.NormalisedFlagsAllowForcedImport | src/backends/gpuFsa/GpuFsaBackend.cpp:113-121 | illustrating the intent of line 113's comment: a CL import handle built with normalised `Undefined` flags imports host memory when the platform and the allocator accept it, rejects every other source by flag, and normalising twice changes nothing |
| ClImportHandle.NewClImportTensorHandle | src/backends/cl/ClImportTensorHandle.hpp:40-44 | the handle stores the given flags and tensor, has no layout and no bound memory, and is still resizable |
| ClImportHandle.NewClImportTensorHandleWithLayout | src/backends/cl/ClImportTensorHandle.hpp:46-52 | the same, and it records the given layout |
| ClImportHandle.SetImportFlags | src/backends/cl/ClImportTensorHandle.hpp:89-97 | `GetImportFlags` then returns the value that was set, and every other field is unchanged |
| ClImportHandle.FlagsAndLifecycle | src/backends/cl/ClImportTensorHandle.hpp:56-67 | setting the flags and setting them back restores the handle; `Allocate`, `Manage` and `Unmap` have no effect; `GetParent` is null |
| ClImportHandle.Import | src/backends/cl/ClImportTensorHandle.hpp:99-146 | a source the bitmask rejects fails with "Incorrect import flag"; an accepted source other than `Malloc` fails with "not supported"; for `Malloc`, a platform error fails with that error code and then a non-OK allocator status fails with its description; success happens exactly when all four checks pass, returns `true` (never `false`), binds the memory and makes the tensor non-resizable; every failure leaves the handle unchanged |
| ClImportHandle.Message | src/backends/cl/ClImportTensorHandle.hpp:117-143 | the flag errors carry their fixed texts; the platform error's text starts with the invalid-memory prefix; the allocator's description is passed on verbatim; every text of the handle's own begins `ClImportTensorHandle` |
| ClImportHandle.OwnMessagesIdentifyError | src/backends/cl/ClImportTensorHandle.hpp:117-143 | two messages of the handle's own are equal exactly when they report the same error, down to the platform's code |
| ClImportHandle.InvalidMemoryMessageCarriesCode | src/backends/cl/ClImportTensorHandle.hpp:117-121 | the platform-failure message is the fixed prefix followed by the decimal error code, and the code can be read back from it exactly |
| ClImportHandle.CopyOutTo | src/backends/cl/ClImportTensorHandle.hpp:150-188 | succeeds for exactly the nine copyable data types, else `UnimplementedException`; the chosen element type matches the data type's width and representation |
| ClImportHandle.CopyInFrom | src/backends/cl/ClImportTensorHandle.hpp:191-229 | succeeds for exactly the same nine types; the element type fits the data type for every type except `S16` |
| ClImportHandle.CopyInFromCorrected | src/backends/cl/ClImportTensorHandle.hpp:191-229 | with `S16` read as `int16_t`, the element type fits every copyable data type |
| ClImportHandle.CopyInFromS16Mismatch | src/backends/cl/ClImportTensorHandle.hpp:209-213 | for an `S16` tensor, copy-in uses `int8_t` and copy-out uses `int16_t`, so their widths differ and copy-in does not fit the type |
| ClImportHandle.CopyInOutAgreeExceptS16 | src/backends/cl/ClImportTensorHandle.hpp:153-227 | as written, copy-in and copy-out agree exactly when the data type is not `S16` |
| ClImportHandle.CopyRoundTripCorrected | src/backends/cl/ClImportTensorHandle.hpp:150-229 | the corrected copy-in equals copy-out for every data type |
| ClImportSubHandle.NewClImportSubTensorHandle | src/backends/cl/ClImportTensorHandle.hpp:238-244 | `GetParent` is exactly the parent given at construction; the view has the parent's data type and the given shape and coordinates |
| ClImportSubHandle.CopyOutTo | src/backends/cl/ClImportTensorHandle.hpp:283-321 | succeeds for exactly the nine copyable types, with an element type that fits the data type |
| ClImportSubHandle.CopyInFrom | src/backends/cl/ClImportTensorHandle.hpp:324-362 | succeeds for exactly the nine copyable types, with an element type that fits the data type |
| ClImportSubHandle.SubCopyRoundTrip | src/backends/cl/ClImportTensorHandle.hpp:286-360 | the sub-handle's copy-in and copy-out agree for every data type; they equal the owning handle's copy-out and its corrected copy-in |
| ActivateTimelineReporting.Handle | src/profiling/ActivateTimelineReportingCommandHandler.cpp:20-67 | with no report structure it fails whatever the state; Uninitialised, NotConnected and WaitingForAck fail with a wrong-state error; an unknown state value fails with that value; in Active, a packet other than family 0 / id 6 fails; it succeeds exactly in Active with that packet; on failure the handler is unchanged; the first success sets the flag and appends the directory, labels, report and notify events in that order; once the flag is on, nothing changes |
| ActivateTimelineReporting.Message | src/profiling/ActivateTimelineReportingCommandHandler.cpp:24-65 | the missing-structure text is fixed; the wrong-state text is its prefix followed by the state's name; the unexpected-packet and unknown-state texts start with their prefixes and carry more after them |
| ActivateTimelineReporting.HandlerExceptionClasses | src/profiling/ActivateTimelineReportingCommandHandler.cpp:24-65 | a thrown exception is a `RuntimeException` exactly when the report structure is present and the state is not Active; otherwise it is an `armnn::Exception` |
| ActivateTimelineReporting.HandleIdempotent | src/profiling/ActivateTimelineReportingCommandHandler.cpp:46-62 | repeating a command leaves the handler as the first invocation left it |
| ActivateTimelineReporting.ActivationSentAtMostOnce | src/profiling/ActivateTimelineReportingCommandHandler.cpp:46-60 | over any sequence of commands to this handler, with no other writer of the flag, the activation events are appended once if the flag went from off to on and never otherwise; the flag never turns off and the report structure never changes |
| ActivateTimelineReporting.UnexpectedPacketMessage | src/profiling/ActivateTimelineReportingCommandHandler.cpp:39-44 | the received family reads back exactly from the message, right after the expected-packet prefix |
| ActivateTimelineReporting.UnexpectedPacketIdMessage | src/profiling/ActivateTimelineReportingCommandHandler.cpp:39-44 | the received id reads back exactly from the rest of the message, after the ` id = ` text |
| ActivateTimelineReporting.UnknownStateMessage | src/profiling/ActivateTimelineReportingCommandHandler.cpp:63-65 | the raw state value reads back exactly from the unknown-state message |
| CommonTestUtils.CreateInputsFrom | src/backends/backendsCommon/test/CommonTestUtils.cpp:12-23 | the length is the sum of the layers' input-slot counts |
| CommonTestUtils.CreateOutputsFrom | src/backends/backendsCommon/test/CommonTestUtils.cpp:25-36 | the length is the sum of the layers' output-slot counts |
| CommonTestUtils.CreateInputsFromMembers | src/backends/backendsCommon/test/CommonTestUtils.cpp:15-20 | a reference is in the result exactly when it names an input slot of one of the layers |
| CommonTestUtils.CreateOutputsFromMembers | src/backends/backendsCommon/test/CommonTestUtils.cpp:28-33 | a reference is in the result exactly when it names an output slot of one of the layers |
| CommonTestUtils.CreateInputsFromAppend | src/backends/backendsCommon/test/CommonTestUtils.cpp:14-22 | order is kept: flattening `a + b` gives the flattening of `a` followed by that of `b` |
| CommonTestUtils.CreateOutputsFromAppend | src/backends/backendsCommon/test/CommonTestUtils.cpp:27-35 | order is kept: flattening `a + b` gives the flattening of `a` followed by that of `b` |
| CommonTestUtils.MakeTensorShape | src/backends/backendsCommon/test/CommonTestUtils.cpp:54-70 | it succeeds exactly for NCHW and NHWC, giving a rank-4 shape with each extent at the position the layout assigns to its dimension; any other layout fails with "Unsupported data layout: " and the layout's name |
| CommonTestUtils.MakeTensorShapeLayoutsArePermutations | src/backends/backendsCommon/test/CommonTestUtils.cpp:61-66 | the NHWC shape is the NCHW shape permuted by (0, 2, 3, 1), and back by (0, 3, 1, 2) |
| CommonTestUtils.MakeTensorShapeLayoutsKeepExtents | src/backends/backendsCommon/test/CommonTestUtils.cpp:61-66 | the NCHW and NHWC shapes hold the same multiset of extents |

## Left out

- OpenCL and Compute Library calls are not modelled: `clImportMemoryARM`, `import_memory`, `CLKernelLibrary`, `GpuWorkloadContext` and `GpuWorkloadSketch`. Their outcomes are parameters, or an opaque token for the sketch.
- `Map` is not modelled. It does address arithmetic on the buffer.
- `GetShape`, `GetStrides`, `GetTensor` and `SetMemoryGroup` are not modelled. They only read or ignore Compute Library state.
- The conversion from an Arm NN `TensorInfo` to a Compute Library tensor (`BuildArmComputeTensor`) is not modelled. The handle is built directly from its Compute Library metadata.
- The actual element copying, and `Half`/float data, are not modelled. Only the data-type-to-element-type dispatch is.
- The import inherited by `ClImportSubTensorHandle` is not modelled. It is defined outside `ClImportTensorHandle.hpp`.
- The Compute Library's bounds check on a sub-tensor's shape and coordinates is not modelled. It lives in `CLSubTensor`, outside the model.
- `GpuFsaConvolution2dCreateOp`, `DeleteAsType` and the `PreCompiledObjectPtr` wrapping are not modelled. The compiled blob is an abstract value.
- Memory-manager, allocator and factory construction and registration are not modelled (`GpuFsaBackend.cpp` lines 70-213, except the flag normalisation). Neither are `GetIdStatic`, `GetHandleFactoryPreferences`, `CreateBackendContext`, `CreateBackendProfilingContext`, `GetLayerSupport`, `GetDefaultAllocator`, or `CreateBackendObject` in the test utilities. They are plumbing over singletons and allocators outside the model.
- `ReportUntouchedLayers` is not modelled. The model reports the untouched map it receives, not the views it builds from that map.
- The optimiser's `modelOptions` are not modelled. The optimiser only forwards them into the result.
- Profiling packet transport, `IProfilingService` creation and the state machine's own transitions are not modelled. The handler only reads the state, so the state is a parameter.
- The test driver in `delegate/test/ArmnnDelegateTest.cpp` is not modelled. It consists only of calls into the host framework.
- MakeTensorShape: the `unsigned int` extents are modelled as unbounded naturals. The function only stores them and never computes with them, so no wrap-around can arise.
- ActivateTimelineReporting.ActivationSentAtMostOnce: `m_TimelineReporting` is a reference to the profiling service's flag, and the deactivate-timeline handler, defined outside the modelled files, clears it. The lemma covers runs of this handler alone, so in the full service the activation is sent at most once between two deactivations. The outside calls at lines 48-59 (sending the directory and the well-known labels, creating the profiling service, `ReportStructure`, notifying the backends) are taken as infallible trace events; `HandleIdempotent` rests on the same assumption. If one of them threw, the source would leave a partial trace: a throw at lines 48-50 leaves the flag off, so a later command sends the directory again; a throw after line 52 leaves the flag set, so the remaining events are never sent.
- ActivateTimelineReporting.Handle: packet family and id are taken as already-decoded naturals. The 32-bit header decoding lives in the packet class, outside this model.

## Findings

| source | as written | input that shows it | evidently intended | confidence | as-written member | corrected member |
|---|---|---|---|---|---|---|
| src/backends/cl/ClImportTensorHandle.hpp:209-213 | the owning handle's `CopyInFrom` reads an `S16` tensor's source buffer as `int8_t`, so it copies one byte per element instead of two | any `ClImportTensorHandle` whose data type is `S16` | read it as `int16_t`, as this handle's `CopyOutTo` (lines 173-177) and both sub-handle copy routines (lines 306-309, 347-350) do | medium; not executed | ClImportHandle.CopyInFrom, exhibited by ClImportHandle.CopyInFromS16Mismatch | ClImportHandle.CopyInFromCorrected, with the round trip proved by ClImportHandle.CopyRoundTripCorrected |
