/** What the CL import handles know about their Compute Library tensor: its
    `arm_compute::DataType` and shape, and the element types their test-only
    copy routines move data as. */
module AclTensors {

  /** `arm_compute::DataType`. */
  datatype AclDataType =
    | UNKNOWN | U8 | S8 | QSYMM8 | QASYMM8 | QASYMM8_SIGNED | QSYMM8_PER_CHANNEL
    | U16 | S16 | QSYMM16 | QASYMM16 | U32 | S32 | U64 | S64
    | BFLOAT16 | F16 | F32 | F64 | SIZET

  /** The Compute Library tensor's metadata. */
  datatype AclTensorInfo = AclTensorInfo(shape: seq<nat>, dataType: AclDataType)

  /** The identity of a tensor handle, standing for an `ITensorHandle*`. */
  datatype HandleRef = HandleRef(id: nat)

  /** How a number is represented: floating point, signed or unsigned integer. */
  datatype Representation = FloatingPoint | SignedInteger | UnsignedInteger

  /** Bytes per element and representation of each data type, as the Compute
      Library defines them (`data_size_from_type`); `UNKNOWN` has no size. */
  function DataTypeSize(dt: AclDataType): nat {
    match dt
    case UNKNOWN => 0
    case U8 => 1 case S8 => 1 case QSYMM8 => 1 case QASYMM8 => 1
    case QASYMM8_SIGNED => 1 case QSYMM8_PER_CHANNEL => 1
    case U16 => 2 case S16 => 2 case QSYMM16 => 2 case QASYMM16 => 2
    case BFLOAT16 => 2 case F16 => 2
    case U32 => 4 case S32 => 4 case F32 => 4
    case U64 => 8 case S64 => 8 case F64 => 8 case SIZET => 8
  }

  function DataTypeRepresentation(dt: AclDataType): Representation {
    match dt
    case BFLOAT16 => FloatingPoint case F16 => FloatingPoint
    case F32 => FloatingPoint case F64 => FloatingPoint
    case U8 => UnsignedInteger case QASYMM8 => UnsignedInteger case U16 => UnsignedInteger
    case QASYMM16 => UnsignedInteger case U32 => UnsignedInteger case U64 => UnsignedInteger
    case SIZET => UnsignedInteger case UNKNOWN => UnsignedInteger
    case S8 => SignedInteger case QSYMM8 => SignedInteger case QASYMM8_SIGNED => SignedInteger
    case QSYMM8_PER_CHANNEL => SignedInteger case S16 => SignedInteger
    case QSYMM16 => SignedInteger case S32 => SignedInteger case S64 => SignedInteger
  }

  /** The C++ element type a copy routine casts the caller's buffer to:
      `float`, `uint8_t`, `int8_t`, `armnn::Half`, `int16_t`, `int32_t`. */
  datatype ElementType = Float | UInt8 | Int8 | Half | Int16 | Int32

  function ElementSize(e: ElementType): nat {
    match e
    case Float => 4 case UInt8 => 1 case Int8 => 1
    case Half => 2 case Int16 => 2 case Int32 => 4
  }

  function ElementRepresentation(e: ElementType): Representation {
    match e
    case Float => FloatingPoint case Half => FloatingPoint
    case UInt8 => UnsignedInteger
    case Int8 => SignedInteger case Int16 => SignedInteger case Int32 => SignedInteger
  }

  /** An element type stores values of a data type faithfully when width and
      representation agree. */
  predicate Fits(e: ElementType, dt: AclDataType) {
    ElementSize(e) == DataTypeSize(dt) && ElementRepresentation(e) == DataTypeRepresentation(dt)
  }

  /** The data types the copy routines handle; any other raises
      `UnimplementedException`. */
  const CopyableTypes: set<AclDataType> :=
    {F32, U8, QASYMM8, QSYMM8_PER_CHANNEL, QASYMM8_SIGNED, F16, S16, QSYMM16, S32}

  datatype UnimplementedException = UnimplementedException
}
