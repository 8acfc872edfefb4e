/**
 * The vertex-buffer sample: one interleaved table of cube vertices
 * (position and texture coordinate), a 32-bit index table, the two
 * buffers they are uploaded to and the indexed draw that reads them.
 */
module VertexBufferSample {
  import opened Wrappers
  import opened CTypes
  import opened Nvrhi
  import opened CubeGeometry

  /** An interleaved vertex: a float3 position followed by a float2 texture coordinate. */
  datatype Vertex = Vertex(position: Float3, uv: Float2)

  /** sizeof(Vertex): both members are 4-byte aligned, so there is no padding. */
  const SIZEOF_VERTEX: nat := SIZEOF_FLOAT3 + SIZEOF_FLOAT2

  /** The input layout: each attribute's format and offset inside the vertex, and the vertex stride. */
  datatype VertexAttribute = VertexAttribute(name: string, format: Format, offset: nat, elementStride: nat)

  const ATTRIBUTES: seq<VertexAttribute> := [
    VertexAttribute("POSITION", RGB32_FLOAT, 0, SIZEOF_VERTEX),
    VertexAttribute("UV", RG32_FLOAT, SIZEOF_FLOAT3, SIZEOF_VERTEX)]

  const VERTICES: seq<Vertex> := [
    Vertex(Float3(-0.5, 0.5, -0.5), Float2(0.0, 0.0)), Vertex(Float3(0.5, -0.5, -0.5), Float2(1.0, 1.0)),
    Vertex(Float3(-0.5, -0.5, -0.5), Float2(0.0, 1.0)), Vertex(Float3(0.5, 0.5, -0.5), Float2(1.0, 0.0)),
    Vertex(Float3(0.5, -0.5, -0.5), Float2(0.0, 1.0)), Vertex(Float3(0.5, 0.5, 0.5), Float2(1.0, 0.0)),
    Vertex(Float3(0.5, -0.5, 0.5), Float2(1.0, 1.0)), Vertex(Float3(0.5, 0.5, -0.5), Float2(0.0, 0.0)),
    Vertex(Float3(-0.5, 0.5, 0.5), Float2(0.0, 0.0)), Vertex(Float3(-0.5, -0.5, -0.5), Float2(1.0, 1.0)),
    Vertex(Float3(-0.5, -0.5, 0.5), Float2(0.0, 1.0)), Vertex(Float3(-0.5, 0.5, -0.5), Float2(1.0, 0.0)),
    Vertex(Float3(0.5, 0.5, 0.5), Float2(0.0, 0.0)), Vertex(Float3(-0.5, -0.5, 0.5), Float2(1.0, 1.0)),
    Vertex(Float3(0.5, -0.5, 0.5), Float2(0.0, 1.0)), Vertex(Float3(-0.5, 0.5, 0.5), Float2(1.0, 0.0)),
    Vertex(Float3(-0.5, 0.5, -0.5), Float2(0.0, 1.0)), Vertex(Float3(0.5, 0.5, 0.5), Float2(1.0, 0.0)),
    Vertex(Float3(0.5, 0.5, -0.5), Float2(1.0, 1.0)), Vertex(Float3(-0.5, 0.5, 0.5), Float2(0.0, 0.0)),
    Vertex(Float3(0.5, -0.5, 0.5), Float2(1.0, 1.0)), Vertex(Float3(-0.5, -0.5, -0.5), Float2(0.0, 0.0)),
    Vertex(Float3(0.5, -0.5, -0.5), Float2(1.0, 0.0)), Vertex(Float3(-0.5, -0.5, 0.5), Float2(0.0, 1.0))]

  const VERTEX_INDICES: seq<nat> := [
    0, 1, 2, 0, 3, 1,
    4, 5, 6, 4, 7, 5,
    8, 9, 10, 8, 11, 9,
    12, 13, 14, 12, 15, 13,
    16, 17, 18, 16, 19, 17,
    20, 21, 22, 20, 23, 21]

  /** Each attribute lies inside one vertex and the two do not overlap; the stride is the vertex size. */
  lemma AttributesFitVertex()
    ensures forall a :: 0 <= a < |ATTRIBUTES| ==>
      ATTRIBUTES[a].offset + FormatBytes(ATTRIBUTES[a].format) <= ATTRIBUTES[a].elementStride == SIZEOF_VERTEX
    ensures ATTRIBUTES[0].offset + FormatBytes(ATTRIBUTES[0].format) <= ATTRIBUTES[1].offset
  {
  }

  /**
   * The interleaved table holds the same 24 positions and texture
   * coordinates as the deferred-shading cube, and the index tables agree.
   */
  lemma SameCubeAsDeferredShading()
    ensures |VERTICES| == |POSITIONS| == |TEXCOORDS|
    ensures forall v :: 0 <= v < |VERTICES| ==> VERTICES[v].position == POSITIONS[v] && VERTICES[v].uv == TEXCOORDS[v]
    ensures VERTEX_INDICES == INDICES
  {
  }

  /**
   * Consequences for this table: 24 vertices, 36 indices each below 24,
   * indices 6f..6f+5 naming only vertices 4f..4f+3, and texture
   * coordinates at the corners of the texture.
   */
  lemma VertexTables(f: nat, k: nat)
    requires f < CUBE_FACES && k < INDICES_PER_FACE
    ensures |VERTICES| == 24 && |VERTEX_INDICES| == 36
    ensures forall i :: 0 <= i < |VERTEX_INDICES| ==> VERTEX_INDICES[i] < |VERTICES|
    ensures 4 * f <= VERTEX_INDICES[6 * f + k] < 4 * f + 4
    ensures forall v :: 0 <= v < |VERTICES| ==>
      (VERTICES[v].uv.x == 0.0 || VERTICES[v].uv.x == 1.0) && (VERTICES[v].uv.y == 0.0 || VERTICES[v].uv.y == 1.0)
  {
    SameCubeAsDeferredShading();
    IndicesInRange();
    FaceIndicesStayInFace(f, k);
    TexCoordsAreCorners();
  }

  /** The vertex buffer: as large as the vertex table, a vertex buffer, left in the vertex-buffer state. */
  function VertexBufferDesc(): (r: BufferDesc)
    ensures r.byteSize == 480 && r.isVertexBuffer && !r.isIndexBuffer && r.initialState == CopyDest
  {
    BufferDesc(|VERTICES| * SIZEOF_VERTEX, true, false, false, 0, CopyDest)
  }

  /** The index buffer: as large as the index table, an index buffer. */
  function IndexBufferDesc(): (r: BufferDesc)
    ensures r.byteSize == 144 && r.isIndexBuffer && !r.isVertexBuffer && r.initialState == CopyDest
  {
    BufferDesc(|VERTEX_INDICES| * SIZEOF_UINT32, false, true, false, 0, CopyDest)
  }

  /** The two geometry buffers after their upload. */
  datatype Resources = Resources(vertexBuffer: Buffer, indexBuffer: Buffer)

  /**
   * Init: fails when a shader is missing (before any buffer exists), when
   * the texture did not load, or when the binding set could not be
   * created; otherwise both tables are uploaded and each buffer is left in
   * its permanent state.
   */
  function Init(shadersCreated: bool, textureLoaded: bool, bindingSetCreated: bool): (r: Option<Resources>)
    ensures r.Some? <==> shadersCreated && textureLoaded && bindingSetCreated
    ensures r.Some? ==> (r.value.vertexBuffer.permanentState == Some(VertexBuffer)
      && r.value.indexBuffer.permanentState == Some(IndexBuffer)
      && r.value.vertexBuffer.desc.byteSize == |VERTICES| * SIZEOF_VERTEX
      && r.value.indexBuffer.desc.byteSize == |VERTEX_INDICES| * SIZEOF_UINT32)
  {
    if !shadersCreated then None
    else
      var resources := Resources(Buffer(VertexBufferDesc(), Some(VertexBuffer)), Buffer(IndexBufferDesc(), Some(IndexBuffer)));
      if !textureLoaded then None
      else if !bindingSetCreated then None
      else Some(resources)
  }

  /** An indexed draw: how many indices it reads, their format, and the first index and vertex. */
  datatype DrawIndexed = DrawIndexed(vertexCount: nat, indexFormat: Format, startIndex: nat, startVertex: nat)

  /** The frame's draw: every index of the table, as 32-bit indices, from the start of both buffers. */
  function FrameDraw(): DrawIndexed
  {
    DrawIndexed(|VERTEX_INDICES|, R32_UINT, 0, 0)
  }

  /**
   * The draw reads exactly the whole index buffer, and every vertex it
   * fetches lies inside the vertex buffer.
   */
  lemma FrameDrawStaysInBuffers()
    ensures FrameDraw().vertexCount == 36 && FrameDraw().indexFormat == R32_UINT
    ensures FrameDraw().vertexCount * FormatBytes(FrameDraw().indexFormat) == IndexBufferDesc().byteSize
    ensures forall i :: 0 <= i < FrameDraw().vertexCount ==>
      (FrameDraw().startVertex + VERTEX_INDICES[i]) * SIZEOF_VERTEX + SIZEOF_VERTEX <= VertexBufferDesc().byteSize
  {
    SameCubeAsDeferredShading();
    IndicesInRange();
    forall i | 0 <= i < FrameDraw().vertexCount
      ensures (FrameDraw().startVertex + VERTEX_INDICES[i]) * SIZEOF_VERTEX + SIZEOF_VERTEX <= VertexBufferDesc().byteSize
    {
      MulLe(VERTEX_INDICES[i] + 1, |VERTICES|, SIZEOF_VERTEX);
    }
  }
}
