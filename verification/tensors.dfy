/** Tensor metadata shared by the graph, the handles and the test utilities:
    ArmNN's `TensorInfo`, `DataType` and `DataLayout`. */
module Tensors {

  /** `armnn::DataType`. */
  datatype DataType =
    | Float16 | Float32 | QAsymmU8 | Signed32 | Boolean
    | QSymmS16 | QSymmS8 | QAsymmS8 | BFloat16 | Signed64

  /** Shape, element type and quantisation parameters of one tensor. */
  datatype TensorInfo = TensorInfo(
    shape: seq<nat>,
    dataType: DataType,
    quantizationScale: real,
    quantizationOffset: int,
    isConstant: bool)

  /** `armnn::DataLayout`: the order in which a tensor's dimensions are stored. */
  datatype DataLayout = NCHW | NHWC | NDHWC | NCDHW

  /** The named dimensions of an image or volume tensor. */
  datatype Dimension = Batches | Channels | Depth | Height | Width

  /** `GetDataLayoutName`: the spelling used in diagnostics. */
  function DataLayoutName(layout: DataLayout): string {
    match layout
    case NCHW => "NCHW"
    case NHWC => "NHWC"
    case NDHWC => "NDHWC"
    case NCDHW => "NCDHW"
  }

  /** The number of dimensions a layout orders. */
  function Rank(layout: DataLayout): nat {
    match layout
    case NCHW => 4
    case NHWC => 4
    case NDHWC => 5
    case NCDHW => 5
  }

  /** Whether `d` is one of the dimensions `layout` orders (no depth in 4-D layouts). */
  predicate HasDimension(layout: DataLayout, d: Dimension) {
    d != Depth || Rank(layout) == 5
  }

  /** Position of dimension `d` in a shape stored in `layout`, read off the
      layout's name letter by letter (N, C, D, H, W); this is what ArmNN's
      `DataLayoutIndexed` answers. */
  function DimensionIndex(layout: DataLayout, d: Dimension): (i: nat)
    requires HasDimension(layout, d)
    ensures i < Rank(layout)
    ensures DataLayoutName(layout)[i] == DimensionLetter(d)
  {
    match layout
    case NCHW => (match d case Batches => 0 case Channels => 1 case Height => 2 case Width => 3)
    case NHWC => (match d case Batches => 0 case Height => 1 case Width => 2 case Channels => 3)
    case NDHWC => (match d case Batches => 0 case Depth => 1 case Height => 2 case Width => 3 case Channels => 4)
    case NCDHW => (match d case Batches => 0 case Channels => 1 case Depth => 2 case Height => 3 case Width => 4)
  }

  function DimensionLetter(d: Dimension): char {
    match d
    case Batches => 'N'
    case Channels => 'C'
    case Depth => 'D'
    case Height => 'H'
    case Width => 'W'
  }
}
