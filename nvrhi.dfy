/**
 * The few graphics-API values the samples pass to the rendering layer:
 * which API is in use, two-dimensional sizes, buffer descriptions and the
 * resource states a buffer is left in.
 */
module Nvrhi {
  import opened Wrappers

  datatype GraphicsApi = D3D11 | D3D12 | Vulkan

  /** A width and a height in pixels (or in tiles). */
  datatype Extent = Extent(width: nat, height: nat)

  datatype ResourceState = CopyDest | ShaderResource | VertexBuffer | IndexBuffer

  datatype Format = R32_UINT | RG32_FLOAT | RGB32_FLOAT

  /** Bytes per element of a format: 32 bits per channel. */
  function FormatBytes(format: Format): nat
  {
    match format
    case R32_UINT => 4
    case RG32_FLOAT => 8
    case RGB32_FLOAT => 12
  }

  /** The fields of a buffer description the samples set. */
  datatype BufferDesc = BufferDesc(
    byteSize: nat,
    isVertexBuffer: bool,
    isIndexBuffer: bool,
    canHaveRawViews: bool,
    structStride: nat,
    initialState: ResourceState)

  /** A created buffer: its description and the permanent state set after its upload, if any. */
  datatype Buffer = Buffer(desc: BufferDesc, permanentState: Option<ResourceState>)
}
