/**
 * The deferred-shading sample: a single cube whose four vertex attribute
 * streams share one vertex buffer laid out end to end, the flags its
 * geometry buffers are created with, and the rule by which the G-buffer
 * targets follow the framebuffer size.
 */
module DeferredShadingSample {
  import opened Wrappers
  import opened CTypes
  import opened Nvrhi
  import CubeGeometry

  /** Byte sizes of the cube tables; normals and tangents are packed into one uint each. */
  const POSITIONS_BYTES: nat := |CubeGeometry.POSITIONS| * SIZEOF_FLOAT3
  const TEXCOORDS_BYTES: nat := |CubeGeometry.TEXCOORDS| * SIZEOF_FLOAT2
  const NORMALS_BYTES: nat := |CubeGeometry.NORMALS| * SIZEOF_UINT32
  const TANGENTS_BYTES: nat := |CubeGeometry.TANGENTS| * SIZEOF_UINT32
  const INDICES_BYTES: nat := |CubeGeometry.INDICES| * SIZEOF_UINT32

  // ---------------------------------------------------------------------
  // Vertex buffer layout
  // ---------------------------------------------------------------------

  datatype BufferRange = BufferRange(byteOffset: nat, byteSize: nat)

  function End(r: BufferRange): nat
  {
    r.byteOffset + r.byteSize
  }

  /** The ranges lie end to end, the first one at offset 0. */
  predicate Consecutive(ranges: seq<BufferRange>)
  {
    (|ranges| > 0 ==> ranges[0].byteOffset == 0)
    && forall i :: 0 < i < |ranges| ==> ranges[i].byteOffset == End(ranges[i - 1])
  }

  /** The sum of the range sizes. */
  function SumSizes(ranges: seq<BufferRange>): nat
  {
    if |ranges| == 0 then 0 else SumSizes(ranges[..|ranges| - 1]) + ranges[|ranges| - 1].byteSize
  }

  /** In consecutive ranges every offset is the sum of the sizes before it. */
  lemma {:induction false} ConsecutiveOffsets(ranges: seq<BufferRange>, i: nat)
    requires Consecutive(ranges) && i < |ranges|
    ensures ranges[i].byteOffset == SumSizes(ranges[..i])
    ensures End(ranges[i]) == SumSizes(ranges[..i + 1])
  {
    assert ranges[..i + 1][..i] == ranges[..i];
    if i > 0 {
      ConsecutiveOffsets(ranges, i - 1);
    }
  }

  /** Consecutive ranges do not overlap, and each lies inside the total size. */
  lemma {:induction false} ConsecutiveRangesDisjoint(ranges: seq<BufferRange>, i: nat, j: nat)
    requires Consecutive(ranges) && i < j < |ranges|
    ensures End(ranges[i]) <= ranges[j].byteOffset
    ensures End(ranges[j]) <= SumSizes(ranges)
  {
    if i < j - 1 {
      ConsecutiveRangesDisjoint(ranges, i, j - 1);
    }
    ConsecutiveOffsets(ranges, j);
    SumSizesPrefix(ranges, j + 1);
  }

  /** A prefix never sums to more than the whole. */
  lemma {:induction false} SumSizesPrefix(ranges: seq<BufferRange>, n: nat)
    requires n <= |ranges|
    ensures SumSizes(ranges[..n]) <= SumSizes(ranges)
  {
    if n < |ranges| {
      var front := ranges[..|ranges| - 1];
      assert front[..n] == ranges[..n];
      SumSizesPrefix(front, n);
    } else {
      assert ranges[..n] == ranges;
    }
  }

  /** Where each attribute stream lies in the shared vertex buffer, and the buffer's size. */
  datatype VertexLayout = VertexLayout(
    position: BufferRange,
    texCoord1: BufferRange,
    normal: BufferRange,
    tangent: BufferRange,
    byteSize: nat)

  function Ranges(layout: VertexLayout): seq<BufferRange>
  {
    [layout.position, layout.texCoord1, layout.normal, layout.tangent]
  }

  /**
   * Lays the position, texture-coordinate, normal and tangent streams out
   * one after another, each as large as its table, and sizes the buffer to
   * hold all four: 288 + 192 + 96 + 96 = 672 bytes.
   */
  method LayoutVertexBuffer() returns (layout: VertexLayout)
    ensures layout.position.byteSize == POSITIONS_BYTES && layout.texCoord1.byteSize == TEXCOORDS_BYTES
    ensures layout.normal.byteSize == NORMALS_BYTES && layout.tangent.byteSize == TANGENTS_BYTES
    ensures Consecutive(Ranges(layout))
    ensures layout.byteSize == SumSizes(Ranges(layout)) == 672
  {
    var vertexBufferSize: nat := 0;
    var position := BufferRange(vertexBufferSize, POSITIONS_BYTES);
    vertexBufferSize := vertexBufferSize + POSITIONS_BYTES;
    var texCoord1 := BufferRange(vertexBufferSize, TEXCOORDS_BYTES);
    vertexBufferSize := vertexBufferSize + TEXCOORDS_BYTES;
    var normal := BufferRange(vertexBufferSize, NORMALS_BYTES);
    vertexBufferSize := vertexBufferSize + NORMALS_BYTES;
    var tangent := BufferRange(vertexBufferSize, TANGENTS_BYTES);
    vertexBufferSize := vertexBufferSize + TANGENTS_BYTES;
    layout := VertexLayout(position, texCoord1, normal, tangent, vertexBufferSize);
    var ranges := Ranges(layout);
    ConsecutiveOffsets(ranges, 3);
    assert ranges[..4] == ranges;
  }

  // ---------------------------------------------------------------------
  // Geometry buffers
  // ---------------------------------------------------------------------

  /**
   * CreateGeometryBuffer: the description a geometry buffer is created
   * with and, when data is uploaded at creation, the state it is left in.
   * `instanceDataSize` is sizeof(InstanceData).
   */
  function CreateGeometryBuffer(
    api: GraphicsApi, instanceDataSize: nat, hasData: bool, dataSize: nat,
    isVertexBuffer: bool, isInstanceBuffer: bool): (r: Buffer)
    ensures r.desc.byteSize == dataSize && r.desc.initialState == CopyDest && !r.desc.isVertexBuffer
    ensures r.desc.isIndexBuffer <==> !isVertexBuffer && !isInstanceBuffer
    ensures r.desc.canHaveRawViews <==> isVertexBuffer || isInstanceBuffer
    ensures isInstanceBuffer && api != D3D11 ==> r.desc.structStride == instanceDataSize
    ensures !isInstanceBuffer || api == D3D11 ==> r.desc.structStride == 0
    ensures r.permanentState.Some? <==> hasData
    ensures hasData && (isVertexBuffer || isInstanceBuffer) ==> r.permanentState == Some(ShaderResource)
    ensures hasData && !isVertexBuffer && !isInstanceBuffer ==> r.permanentState == Some(IndexBuffer)
  {
    var needStructuredBuffer := isInstanceBuffer && api != D3D11;
    var desc := BufferDesc(
      dataSize, false, !isVertexBuffer && !isInstanceBuffer, isVertexBuffer || isInstanceBuffer,
      if needStructuredBuffer then instanceDataSize else 0, CopyDest);
    if hasData then
      Buffer(desc, Some(if isVertexBuffer || isInstanceBuffer then ShaderResource else IndexBuffer))
    else
      Buffer(desc, None)
  }

  /** The cube's single geometry and the mesh that holds it. */
  datatype MeshGeometry = MeshGeometry(numIndices: nat, numVertices: nat)
  datatype MeshInfo = MeshInfo(geometries: seq<MeshGeometry>, totalIndices: nat, totalVertices: nat)

  class SimpleScene {
    var indexBuffer: Option<Buffer>
    var vertexBuffer: Option<Buffer>
    var instanceBuffer: Option<Buffer>
    var vertexLayout: Option<VertexLayout>
    /** The ranges of the vertex buffer the four tables are written to, in order. */
    var vertexWrites: seq<BufferRange>
    var meshInfo: Option<MeshInfo>

    constructor ()
      ensures indexBuffer.None? && vertexBuffer.None? && instanceBuffer.None?
      ensures vertexLayout.None? && vertexWrites == [] && meshInfo.None?
    {
      indexBuffer := None;
      vertexBuffer := None;
      instanceBuffer := None;
      vertexLayout := None;
      vertexWrites := [];
      meshInfo := None;
    }

    /**
     * Creates the index buffer from the index table, the vertex buffer
     * empty and then writes each table at its range, and the instance
     * buffer from one identity instance; all of this happens before the
     * texture is checked, and a texture that failed to load makes Init
     * fail before the mesh is built. On success the mesh has one geometry of 36
     * indices and 24 vertices, and its totals are that geometry's counts.
     */
    method Init(api: GraphicsApi, instanceDataSize: nat, textureLoaded: bool) returns (ok: bool)
      modifies this
      ensures ok == textureLoaded
      ensures indexBuffer == Some(CreateGeometryBuffer(api, instanceDataSize, true, INDICES_BYTES, false, false))
      ensures vertexLayout.Some? && Consecutive(Ranges(vertexLayout.value))
      ensures vertexWrites == Ranges(vertexLayout.value)
      ensures vertexBuffer == Some(Buffer(
        CreateGeometryBuffer(api, instanceDataSize, false, vertexLayout.value.byteSize, true, false).desc,
        Some(ShaderResource)))
      ensures instanceBuffer == Some(CreateGeometryBuffer(api, instanceDataSize, true, instanceDataSize, false, true))
      ensures !ok ==> meshInfo == old(meshInfo)
      ensures ok ==> (meshInfo.Some? && meshInfo.value.geometries == [MeshGeometry(CubeGeometry.INDEX_COUNT, CubeGeometry.VERTEX_COUNT)]
        && meshInfo.value.totalIndices == meshInfo.value.geometries[0].numIndices
        && meshInfo.value.totalVertices == meshInfo.value.geometries[0].numVertices)
    {
      indexBuffer := Some(CreateGeometryBuffer(api, instanceDataSize, true, INDICES_BYTES, false, false));

      var layout := LayoutVertexBuffer();
      vertexLayout := Some(layout);
      var created := CreateGeometryBuffer(api, instanceDataSize, false, layout.byteSize, true, false);
      vertexWrites := [layout.position, layout.texCoord1, layout.normal, layout.tangent];
      vertexBuffer := Some(Buffer(created.desc, Some(ShaderResource)));

      instanceBuffer := Some(CreateGeometryBuffer(api, instanceDataSize, true, instanceDataSize, false, true));

      if !textureLoaded {
        return false;
      }

      var geometry := MeshGeometry(|CubeGeometry.INDICES|, |CubeGeometry.POSITIONS|);
      meshInfo := Some(MeshInfo([geometry], geometry.numIndices, geometry.numVertices));
      return true;
    }
  }

  /**
   * Of the three buffers the scene creates, only the index buffer is an
   * index buffer, the vertex and instance buffers allow raw views, and only
   * the instance buffer is structured, and only off D3D11.
   */
  lemma SceneBufferRoles(api: GraphicsApi, instanceDataSize: nat, vertexBytes: nat)
    requires instanceDataSize > 0
    ensures var index := CreateGeometryBuffer(api, instanceDataSize, true, INDICES_BYTES, false, false);
      var vertex := CreateGeometryBuffer(api, instanceDataSize, false, vertexBytes, true, false);
      var instance := CreateGeometryBuffer(api, instanceDataSize, true, instanceDataSize, false, true);
      index.desc.isIndexBuffer && !vertex.desc.isIndexBuffer && !instance.desc.isIndexBuffer
      && !index.desc.canHaveRawViews && vertex.desc.canHaveRawViews && instance.desc.canHaveRawViews
      && index.desc.structStride == 0 && vertex.desc.structStride == 0
      && (instance.desc.structStride > 0 <==> api != D3D11)
      && index.desc.byteSize == 144
  {
  }

  // ---------------------------------------------------------------------
  // The render pass
  // ---------------------------------------------------------------------

  /** The render targets must be (re)created when there are none or their size differs in any component. */
  function NeedsNewTargets(current: Option<Extent>, size: Extent): (r: bool)
    ensures r <==> current != Some(size)
  {
    current.None? || current.value.width != size.width || current.value.height != size.height
  }

  class DeferredShading {
    /** The size the G-buffer targets were created at, if they exist. */
    var renderTargets: Option<Extent>
    var gbufferPass: bool
    var rotation: real
    const scene: SimpleScene

    constructor ()
      ensures renderTargets.None? && !gbufferPass && rotation == 0.0
      ensures fresh(scene)
    {
      renderTargets := None;
      gbufferPass := false;
      rotation := 0.0;
      scene := new SimpleScene();
    }

    /** The sample starts only if its scene initialises. */
    method Init(api: GraphicsApi, instanceDataSize: nat, textureLoaded: bool) returns (ok: bool)
      modifies scene
      ensures ok == textureLoaded
      ensures ok ==> scene.meshInfo.Some?
    {
      ok := scene.Init(api, instanceDataSize, textureLoaded);
    }

    method Animate(seconds: real)
      modifies this`rotation
      ensures rotation == old(rotation) + seconds * 1.1
    {
      rotation := rotation + seconds * 1.1;
    }

    /**
     * Recreates the render targets at the framebuffer size when there are
     * none or the size changed, which also drops the G-buffer fill pass; the
     * pass is then created if missing.
     */
    method Render(size: Extent) returns (recreated: bool, gbufferCreated: bool)
      modifies this`renderTargets, this`gbufferPass
      ensures recreated <==> old(renderTargets) != Some(size)
      ensures renderTargets == Some(size)
      ensures gbufferCreated <==> recreated || !old(gbufferPass)
      ensures gbufferPass
    {
      recreated := NeedsNewTargets(renderTargets, size);
      if recreated {
        renderTargets := None;
        gbufferPass := false;
        renderTargets := Some(size);
      }
      gbufferCreated := !gbufferPass;
      if !gbufferPass {
        gbufferPass := true;
      }
    }
  }
}
