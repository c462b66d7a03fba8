/** `armnn::MemorySource` and the `MemorySourceFlags` bitmask (an `unsigned int`)
    through which a tensor handle declares the sources it may import from. */
module MemorySources {

  type MemorySourceFlags = bv32

  datatype MemorySource = Undefined | Malloc | DmaBuf | DmaBufProtected | Gralloc

  /** The enumerator's value, as cast to `MemorySourceFlags`. */
  function SourceFlag(source: MemorySource): MemorySourceFlags {
    match source
    case Undefined => 0
    case Malloc => 1
    case DmaBuf => 2
    case DmaBufProtected => 4
    case Gralloc => 8
  }

  const UndefinedFlags: MemorySourceFlags := SourceFlag(Undefined)
  const MallocFlags: MemorySourceFlags := SourceFlag(Malloc)

  /** The bitmask test `flags & static_cast<MemorySourceFlags>(source)`. */
  predicate Accepts(flags: MemorySourceFlags, source: MemorySource) {
    flags & SourceFlag(source) != 0
  }
}
