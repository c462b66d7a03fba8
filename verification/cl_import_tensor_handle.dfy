/** `ClImportTensorHandle`: a CL tensor handle that never allocates, but
    imports caller-owned host memory when the source kind is one its import
    flags accept. The OpenCL import call and the Compute Library allocator are
    outside the model: their outcomes arrive as parameters. */
module ClImportHandle {
  import opened Wrappers
  import opened Tensors
  import opened MemorySources
  import opened AclTensors
  import Decimal

  /** The memory the tensor is bound to after a successful import: a CL
      buffer wrapping the caller's host address. */
  datatype ImportedBuffer = ImportedBuffer(hostAddress: nat)

  /** The handle's state: the tensor's metadata and the layout it was built
      with (if one was given), the import flags, the bound buffer (none until
      an import succeeds) and whether the tensor info is still resizable. */
  datatype ClImportTensorHandle = ClImportTensorHandle(
    tensor: AclTensorInfo,
    layout: Option<DataLayout>,
    importFlags: MemorySourceFlags,
    buffer: Option<ImportedBuffer>,
    resizable: bool)

  /** `ClImportTensorHandle(tensorInfo, importFlags)`. */
  function NewClImportTensorHandle(tensor: AclTensorInfo, importFlags: MemorySourceFlags): (h: ClImportTensorHandle)
    ensures h.importFlags == importFlags && h.tensor == tensor && h.layout.None?
    ensures h.buffer.None? && h.resizable
  {
    ClImportTensorHandle(tensor, None, importFlags, None, true)
  }

  /** `ClImportTensorHandle(tensorInfo, dataLayout, importFlags)`. */
  function NewClImportTensorHandleWithLayout(tensor: AclTensorInfo, layout: DataLayout, importFlags: MemorySourceFlags)
    : (h: ClImportTensorHandle)
    ensures h.importFlags == importFlags && h.tensor == tensor && h.layout == Some(layout)
    ensures h.buffer.None? && h.resizable
  {
    ClImportTensorHandle(tensor, Some(layout), importFlags, None, true)
  }

  function GetImportFlags(h: ClImportTensorHandle): MemorySourceFlags {
    h.importFlags
  }

  function SetImportFlags(h: ClImportTensorHandle, importFlags: MemorySourceFlags): (r: ClImportTensorHandle)
    ensures GetImportFlags(r) == importFlags
    ensures r.(importFlags := h.importFlags) == h
  {
    h.(importFlags := importFlags)
  }

  /** `Allocate`, `Manage` and `Unmap` do nothing on an import handle. */
  function Allocate(h: ClImportTensorHandle): ClImportTensorHandle { h }
  function Manage(h: ClImportTensorHandle): ClImportTensorHandle { h }
  function Unmap(h: ClImportTensorHandle): ClImportTensorHandle { h }

  /** An owning import handle has no parent. */
  function GetParent(h: ClImportTensorHandle): Option<HandleRef> { None }

  function GetDataType(h: ClImportTensorHandle): AclDataType { h.tensor.dataType }

  /** `cl_int` success code of `clImportMemoryARM`. */
  const CL_SUCCESS: int := 0

  /** `arm_compute::ErrorCode` and `arm_compute::Status`. */
  datatype AclErrorCode = OK | RUNTIME_ERROR | UNSUPPORTED_EXTENSION_USE
  datatype AclStatus = AclStatus(code: AclErrorCode, description: string)

  /** The causes of a `MemoryImportException` thrown by `Import`. */
  datatype ImportError =
    | IncorrectImportFlag
    | ImportFlagNotSupported
    | InvalidImportedMemory(clError: int)
    | AllocatorRejected(description: string)

  const InvalidMemoryPrefix: string := "ClImportTensorHandle::Invalid imported memory:"

  const IncorrectImportFlagMessage: string := "ClImportTensorHandle::Incorrect import flag"
  const ImportFlagNotSupportedMessage: string := "ClImportTensorHandle::Import flag is not supported"

  /** The exception's message. The handle's own messages are told apart by
      their text; the allocator's description is passed on verbatim. */
  function Message(e: ImportError): (r: string)
    ensures e.IncorrectImportFlag? ==> r == IncorrectImportFlagMessage
    ensures e.ImportFlagNotSupported? ==> r == ImportFlagNotSupportedMessage
    ensures e.InvalidImportedMemory? ==> InvalidMemoryPrefix <= r && |r| > |InvalidMemoryPrefix|
    ensures e.AllocatorRejected? ==> r == e.description
    ensures !e.AllocatorRejected? ==> "ClImportTensorHandle" <= r
  {
    match e
    case IncorrectImportFlag => IncorrectImportFlagMessage
    case ImportFlagNotSupported => ImportFlagNotSupportedMessage
    case InvalidImportedMemory(code) => InvalidMemoryPrefix + Decimal.IntToString(code)
    case AllocatorRejected(description) => description
  }

  /** The handle after an `Import` call, and the call's result: the `bool` it
      returns or the exception it throws. */
  datatype ImportOutcome = ImportOutcome(handle: ClImportTensorHandle, result: Result<bool, ImportError>)

  /** `Import(memory, source)`. `clError` is what `clImportMemoryARM` reports
      for this host address; `status` is what the tensor allocator's
      `import_memory` returns for the wrapped buffer. */
  function Import(h: ClImportTensorHandle, memory: nat, source: MemorySource, clError: int, status: AclStatus)
    : (r: ImportOutcome)
    ensures !Accepts(h.importFlags, source) ==> r.result == Failure(IncorrectImportFlag)
    ensures Accepts(h.importFlags, source) && source != Malloc ==> r.result == Failure(ImportFlagNotSupported)
    ensures Accepts(h.importFlags, source) && source == Malloc && clError != CL_SUCCESS ==>
      r.result == Failure(InvalidImportedMemory(clError))
    ensures Accepts(h.importFlags, source) && source == Malloc && clError == CL_SUCCESS && status.code != OK ==>
      r.result == Failure(AllocatorRejected(status.description))
    ensures r.result.Success? <==>
      Accepts(h.importFlags, source) && source == Malloc && clError == CL_SUCCESS && status.code == OK
    ensures r.result.Success? ==> r.result.value
    ensures r.result.Success? ==>
      r.handle == h.(buffer := Some(ImportedBuffer(memory)), resizable := false)
    ensures r.result.Failure? ==> r.handle == h
  {
    if Accepts(h.importFlags, source) then
      if source == Malloc then
        if clError != CL_SUCCESS then
          ImportOutcome(h, Failure(InvalidImportedMemory(clError)))
        else if status.code != OK then
          ImportOutcome(h, Failure(AllocatorRejected(status.description)))
        else
          ImportOutcome(h.(buffer := Some(ImportedBuffer(memory)), resizable := false), Success(true))
      else
        ImportOutcome(h, Failure(ImportFlagNotSupported))
    else
      ImportOutcome(h, Failure(IncorrectImportFlag))
  }

  /** `CopyOutTo`: the element type the caller's buffer is written as. */
  function CopyOutTo(h: ClImportTensorHandle): (r: Result<ElementType, UnimplementedException>)
    ensures r.Success? <==> GetDataType(h) in CopyableTypes
    ensures r.Success? ==> Fits(r.value, GetDataType(h))
  {
    match GetDataType(h)
    case F32 => Success(Float)
    case U8 => Success(UInt8)
    case QASYMM8 => Success(UInt8)
    case QSYMM8_PER_CHANNEL => Success(Int8)
    case QASYMM8_SIGNED => Success(Int8)
    case F16 => Success(Half)
    case S16 => Success(Int16)
    case QSYMM16 => Success(Int16)
    case S32 => Success(Int32)
    case _ => Failure(UnimplementedException)
  }

  /** `CopyInFrom` as written: the element type the caller's buffer is read
      as. `S16` is read as `int8_t`, unlike in `CopyOutTo`. */
  function CopyInFrom(h: ClImportTensorHandle): (r: Result<ElementType, UnimplementedException>)
    ensures r.Success? <==> GetDataType(h) in CopyableTypes
    ensures r.Success? && GetDataType(h) != S16 ==> Fits(r.value, GetDataType(h))
  {
    match GetDataType(h)
    case F32 => Success(Float)
    case U8 => Success(UInt8)
    case QASYMM8 => Success(UInt8)
    case F16 => Success(Half)
    case S16 => Success(Int8)
    case QSYMM8_PER_CHANNEL => Success(Int8)
    case QASYMM8_SIGNED => Success(Int8)
    case QSYMM16 => Success(Int16)
    case S32 => Success(Int32)
    case _ => Failure(UnimplementedException)
  }

  /** `CopyInFrom` with `S16` read as `int16_t`, as `CopyOutTo` and the
      sub-tensor handle's copy routines do. */
  function CopyInFromCorrected(h: ClImportTensorHandle): (r: Result<ElementType, UnimplementedException>)
    ensures r.Success? <==> GetDataType(h) in CopyableTypes
    ensures r.Success? ==> Fits(r.value, GetDataType(h))
  {
    match GetDataType(h)
    case F32 => Success(Float)
    case U8 => Success(UInt8)
    case QASYMM8 => Success(UInt8)
    case F16 => Success(Half)
    case S16 => Success(Int16)
    case QSYMM8_PER_CHANNEL => Success(Int8)
    case QASYMM8_SIGNED => Success(Int8)
    case QSYMM16 => Success(Int16)
    case S32 => Success(Int32)
    case _ => Failure(UnimplementedException)
  }

  /** As written, an `S16` tensor is copied in with half the element width it
      is copied out with, so copy-in followed by copy-out does not round-trip. */
  lemma CopyInFromS16Mismatch(h: ClImportTensorHandle)
    requires GetDataType(h) == S16
    ensures CopyInFrom(h) == Success(Int8) && CopyOutTo(h) == Success(Int16)
    ensures !Fits(CopyInFrom(h).value, S16)
    ensures ElementSize(CopyInFrom(h).value) != ElementSize(CopyOutTo(h).value)
  {
  }

  /** With the correction, copy-in and copy-out use the same element type for
      every data type, and agree on which types they reject. */
  lemma CopyRoundTripCorrected(h: ClImportTensorHandle)
    ensures CopyInFromCorrected(h) == CopyOutTo(h)
  {
  }

  /** As written, copy-in and copy-out agree everywhere except on `S16`. */
  lemma CopyInOutAgreeExceptS16(h: ClImportTensorHandle)
    ensures CopyInFrom(h) == CopyOutTo(h) <==> GetDataType(h) != S16
  {
  }

  /** A failed platform import reports the OpenCL error code in its message,
      from which the code can be read back. */
  lemma InvalidMemoryMessageCarriesCode(code: int)
    ensures InvalidMemoryPrefix <= Message(InvalidImportedMemory(code))
    ensures Decimal.ParseInt(Message(InvalidImportedMemory(code))[|InvalidMemoryPrefix|..]) == Some(code)
  {
    var m := Message(InvalidImportedMemory(code));
    assert m[|InvalidMemoryPrefix|..] == Decimal.IntToString(code);
    Decimal.IntToStringRoundTrip(code);
  }

  /** The handle's own messages identify the error they report: two of them
      are equal only for the same error, down to the platform's code. */
  lemma OwnMessagesIdentifyError(e1: ImportError, e2: ImportError)
    requires !e1.AllocatorRejected? && !e2.AllocatorRejected?
    ensures Message(e1) == Message(e2) <==> e1 == e2
  {
    if Message(e1) == Message(e2) {
      var m := Message(e1);
      if e1.InvalidImportedMemory? && e2.InvalidImportedMemory? {
        InvalidMemoryMessageCarriesCode(e1.clError);
        InvalidMemoryMessageCarriesCode(e2.clError);
      } else {
        // The three texts differ at position 24: "Invalid", "Incorrect", "Import".
        assert InvalidMemoryPrefix[24] == 'v';
        assert IncorrectImportFlagMessage[24] == 'c';
        assert ImportFlagNotSupportedMessage[24] == 'p';
      }
    }
  }

  /** Setting the flags and reading them back returns what was set; the
      lifecycle calls leave the handle as it was. */
  lemma FlagsAndLifecycle(h: ClImportTensorHandle, importFlags: MemorySourceFlags)
    ensures GetImportFlags(SetImportFlags(h, importFlags)) == importFlags
    ensures SetImportFlags(SetImportFlags(h, importFlags), h.importFlags) == h
    ensures Allocate(h) == h && Manage(h) == h && Unmap(h) == h
    ensures GetParent(h).None?
  {
  }
}

/** `ClImportSubTensorHandle`: a view into a region of a parent handle's
    tensor. It never allocates or imports, and remembers its parent. */
module ClImportSubHandle {
  import opened Wrappers
  import opened AclTensors
  import ClImportHandle

  /** The parent handle, and the sub-tensor: the parent's data type with the
      view's own shape, at the given coordinates within the parent. */
  datatype ClImportSubTensorHandle = ClImportSubTensorHandle(
    parent: HandleRef,
    tensor: AclTensorInfo,
    coords: seq<int>)

  /** `ClImportSubTensorHandle(parent, shape, coords)`; a `CLSubTensor` takes
      its data type from the parent tensor. */
  function NewClImportSubTensorHandle(
    parent: HandleRef, parentTensor: AclTensorInfo, shape: seq<nat>, coords: seq<int>)
    : (s: ClImportSubTensorHandle)
    ensures GetParent(s) == Some(parent)
    ensures GetDataType(s) == parentTensor.dataType && s.tensor.shape == shape && s.coords == coords
  {
    ClImportSubTensorHandle(parent, AclTensorInfo(shape, parentTensor.dataType), coords)
  }

  function GetParent(s: ClImportSubTensorHandle): Option<HandleRef> { Some(s.parent) }

  function GetDataType(s: ClImportSubTensorHandle): AclDataType { s.tensor.dataType }

  function CopyOutTo(s: ClImportSubTensorHandle): (r: Result<ElementType, UnimplementedException>)
    ensures r.Success? <==> GetDataType(s) in CopyableTypes
    ensures r.Success? ==> Fits(r.value, GetDataType(s))
  {
    match GetDataType(s)
    case F32 => Success(Float)
    case U8 => Success(UInt8)
    case QASYMM8 => Success(UInt8)
    case F16 => Success(Half)
    case QSYMM8_PER_CHANNEL => Success(Int8)
    case QASYMM8_SIGNED => Success(Int8)
    case S16 => Success(Int16)
    case QSYMM16 => Success(Int16)
    case S32 => Success(Int32)
    case _ => Failure(UnimplementedException)
  }

  function CopyInFrom(s: ClImportSubTensorHandle): (r: Result<ElementType, UnimplementedException>)
    ensures r.Success? <==> GetDataType(s) in CopyableTypes
    ensures r.Success? ==> Fits(r.value, GetDataType(s))
  {
    match GetDataType(s)
    case F32 => Success(Float)
    case U8 => Success(UInt8)
    case QASYMM8 => Success(UInt8)
    case F16 => Success(Half)
    case QSYMM8_PER_CHANNEL => Success(Int8)
    case QASYMM8_SIGNED => Success(Int8)
    case S16 => Success(Int16)
    case QSYMM16 => Success(Int16)
    case S32 => Success(Int32)
    case _ => Failure(UnimplementedException)
  }

  /** The sub-handle copies in and out with the same element type for every
      data type, and that is also what the corrected owning handle does. */
  lemma SubCopyRoundTrip(s: ClImportSubTensorHandle, h: ClImportHandle.ClImportTensorHandle)
    requires ClImportHandle.GetDataType(h) == GetDataType(s)
    ensures CopyInFrom(s) == CopyOutTo(s)
    ensures CopyInFrom(s) == ClImportHandle.CopyInFromCorrected(h)
    ensures CopyOutTo(s) == ClImportHandle.CopyOutTo(h)
  {
  }
}
