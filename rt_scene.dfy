/**
 * The parts of the engine's scene graph that the ray-tracing samples read
 * (meshes, their geometries and materials, mesh instances), and the
 * bottom-level acceleration structure geometry every sample derives from
 * a mesh in the same way.
 */
module RtScene {
  import opened Wrappers
  import opened CTypes

  datatype MaterialDomain =
    | Opaque
    | AlphaTested
    | AlphaBlended
    | Transmissive
    | TransmissiveAlphaTested
    | TransmissiveAlphaBlended

  /** A material texture slot: no texture, a texture whose image is not loaded, or a loaded image. */
  datatype TextureRef = NoTexture | NotLoaded | Loaded(texture: nat)

  datatype Material = Material(
    domain: MaterialDomain,
    baseOrDiffuse: TextureRef,
    metalRoughOrSpecular: TextureRef,
    normal: TextureRef,
    emissive: TextureRef,
    occlusion: TextureRef,
    transmission: TextureRef,
    opacity: TextureRef,
    constants: nat)

  /** A geometry of a mesh: its index and vertex ranges inside the mesh, and its scene-wide number. */
  datatype Geometry = Geometry(
    indexOffsetInMesh: nat,
    vertexOffsetInMesh: nat,
    numIndices: nat,
    numVertices: nat,
    globalGeometryIndex: nat,
    material: Material)

  /** Byte offsets of the attribute ranges inside a mesh's shared vertex buffer. */
  datatype VertexRanges = VertexRanges(position: nat, texCoord1: nat, normal: nat)

  /**
   * A mesh: where its indices and vertices start in the shared buffers, its
   * geometries, whether its buffers carry joint weights (a skinning
   * prototype), and the prototype it was skinned from, if any.
   */
  datatype Mesh = Mesh(
    indexOffset: nat,
    vertexOffset: nat,
    geometries: seq<Geometry>,
    ranges: VertexRanges,
    hasJointWeights: bool,
    skinPrototype: Option<nat>)

  /** A mesh instance: the index of its mesh in the scene's mesh list, its instance index, its node. */
  datatype MeshInstance = MeshInstance(mesh: nat, instanceIndex: nat, node: nat)

  /** Every instance refers to a mesh of the scene. */
  predicate InstancesReferToMeshes(meshes: seq<Mesh>, instances: seq<MeshInstance>)
  {
    forall i :: 0 <= i < |instances| ==> instances[i].mesh < |meshes|
  }

  /** Number of geometries in the meshes before mesh `m`. */
  function GeometriesBefore(meshes: seq<Mesh>, m: nat): nat
    requires m <= |meshes|
  {
    if m == 0 then 0 else GeometriesBefore(meshes, m - 1) + |meshes[m - 1].geometries|
  }

  /** The scene numbers geometries mesh by mesh, in list order, from 0. */
  predicate GlobalIndicesInOrder(meshes: seq<Mesh>)
  {
    forall m, j :: 0 <= m < |meshes| && 0 <= j < |meshes[m].geometries| ==>
      meshes[m].geometries[j].globalGeometryIndex == GeometriesBefore(meshes, m) + j
  }

  /** Each geometry's indices and vertices follow the previous geometry's within the mesh. */
  predicate PackedGeometries(mesh: Mesh)
  {
    forall j :: 0 <= j < |mesh.geometries| - 1 ==>
      mesh.geometries[j + 1].indexOffsetInMesh == mesh.geometries[j].indexOffsetInMesh + mesh.geometries[j].numIndices
      && mesh.geometries[j + 1].vertexOffsetInMesh == mesh.geometries[j].vertexOffsetInMesh + mesh.geometries[j].numVertices
  }

  // ---------------------------------------------------------------------
  // Bottom-level acceleration structure geometry
  // ---------------------------------------------------------------------

  datatype GeometryFlags = FlagsNone | FlagsOpaque

  /**
   * How a sample flags its triangle geometries: all opaque, opaque unless
   * the material is alpha-tested, or opaque only for the opaque domain.
   */
  datatype FlagPolicy = AllOpaque | AlphaTestedNotOpaque | OpaqueDomainOnly

  function GeometryFlagsFor(policy: FlagPolicy, domain: MaterialDomain): (r: GeometryFlags)
    ensures policy.AllOpaque? ==> r == FlagsOpaque
    ensures policy.AlphaTestedNotOpaque? ==> (r == FlagsNone <==> domain == AlphaTested)
    ensures policy.OpaqueDomainOnly? ==> (r == FlagsOpaque <==> domain == Opaque)
  {
    match policy
    case AllOpaque => FlagsOpaque
    case AlphaTestedNotOpaque => if domain == AlphaTested then FlagsNone else FlagsOpaque
    case OpaqueDomainOnly => if domain == Opaque then FlagsOpaque else FlagsNone
  }

  /** A triangle geometry: 32-bit indices and float3 positions in the mesh's buffers, in bytes. */
  datatype TriangleDesc = TriangleDesc(
    indexOffset: nat,
    indexCount: nat,
    vertexOffset: nat,
    vertexCount: nat,
    vertexStride: nat,
    flags: GeometryFlags)

  /** First index of a geometry in the shared index buffer. */
  function FirstIndex(mesh: Mesh, geo: Geometry): nat
  {
    mesh.indexOffset + geo.indexOffsetInMesh
  }

  /** First vertex of a geometry in the shared vertex buffer. */
  function FirstVertex(mesh: Mesh, geo: Geometry): nat
  {
    mesh.vertexOffset + geo.vertexOffsetInMesh
  }

  function TriangleGeometry(mesh: Mesh, geo: Geometry, policy: FlagPolicy): TriangleDesc
  {
    TriangleDesc(
      FirstIndex(mesh, geo) * SIZEOF_UINT32,
      geo.numIndices,
      FirstVertex(mesh, geo) * SIZEOF_FLOAT3 + mesh.ranges.position,
      geo.numVertices,
      SIZEOF_FLOAT3,
      GeometryFlagsFor(policy, geo.material.domain))
  }

  /** The geometries of a mesh's BLAS, one per mesh geometry, in order. */
  function BlasGeometries(mesh: Mesh, policy: FlagPolicy): (r: seq<TriangleDesc>)
    ensures |r| == |mesh.geometries|
  {
    seq(|mesh.geometries|, j requires 0 <= j < |mesh.geometries| => TriangleGeometry(mesh, mesh.geometries[j], policy))
  }

  /**
   * Fills a BLAS description from a mesh: one triangle geometry per mesh
   * geometry with its counts copied, 32-bit indices at
   * (mesh + geometry index offset) * 4 and float3 positions at
   * (mesh + geometry vertex offset) * 12 past the position range.
   */
  method FillBlasGeometries(mesh: Mesh, policy: FlagPolicy) returns (geometries: seq<TriangleDesc>)
    ensures geometries == BlasGeometries(mesh, policy)
    ensures forall j :: 0 <= j < |geometries| ==>
      geometries[j].indexCount == mesh.geometries[j].numIndices
      && geometries[j].vertexCount == mesh.geometries[j].numVertices
      && geometries[j].vertexStride == SIZEOF_FLOAT3
  {
    geometries := [];
    for j := 0 to |mesh.geometries|
      invariant geometries == BlasGeometries(mesh, policy)[..j]
    {
      var geo := mesh.geometries[j];
      var triangles := TriangleDesc(
        (mesh.indexOffset + geo.indexOffsetInMesh) * SIZEOF_UINT32,
        geo.numIndices,
        (mesh.vertexOffset + geo.vertexOffsetInMesh) * SIZEOF_FLOAT3 + mesh.ranges.position,
        geo.numVertices,
        SIZEOF_FLOAT3,
        GeometryFlagsFor(policy, geo.material.domain));
      geometries := geometries + [triangles];
    }
  }

  /** In a packed mesh, a later geometry starts after every earlier one ends. */
  lemma {:induction false} PackedOffsetsIncrease(mesh: Mesh, i: nat, j: nat)
    requires PackedGeometries(mesh) && i < j < |mesh.geometries|
    ensures mesh.geometries[i].indexOffsetInMesh + mesh.geometries[i].numIndices <= mesh.geometries[j].indexOffsetInMesh
    ensures mesh.geometries[i].vertexOffsetInMesh + mesh.geometries[i].numVertices <= mesh.geometries[j].vertexOffsetInMesh
  {
    if i < j - 1 {
      PackedOffsetsIncrease(mesh, i, j - 1);
    }
  }

  /**
   * In a packed mesh the BLAS geometries read disjoint byte ranges of the
   * index buffer and of the vertex buffer, in geometry order.
   */
  lemma BlasRangesDisjoint(mesh: Mesh, policy: FlagPolicy, i: nat, j: nat)
    requires PackedGeometries(mesh) && i < j < |mesh.geometries|
    ensures var g := BlasGeometries(mesh, policy);
      g[i].indexOffset + g[i].indexCount * SIZEOF_UINT32 <= g[j].indexOffset
      && g[i].vertexOffset + g[i].vertexCount * g[i].vertexStride <= g[j].vertexOffset
  {
    PackedOffsetsIncrease(mesh, i, j);
    var gi := mesh.geometries[i];
    var gj := mesh.geometries[j];
    MulLe(FirstIndex(mesh, gi) + gi.numIndices, FirstIndex(mesh, gj), SIZEOF_UINT32);
    MulLe(FirstVertex(mesh, gi) + gi.numVertices, FirstVertex(mesh, gj), SIZEOF_FLOAT3);
  }

  /** A top-level instance: the BLAS of a mesh, its mask, ID, hit-group offset and node transform. */
  datatype InstanceDesc = InstanceDesc(
    blasMesh: nat,
    instanceMask: nat,
    instanceID: nat,
    hitGroupContribution: nat,
    node: nat)

  /** Two sizes differ when either component does. */
  datatype Int2 = Int2(x: int, y: int)

  /** The G-buffer targets of the ray-traced samples, created at one framebuffer size. */
  class SizedRenderTargets {
    const size: Int2

    constructor (size: Int2)
      ensures this.size == size
    {
      this.size := size;
    }

    /** The targets are recreated when any component of the size differs. */
    predicate IsUpdateRequired(newSize: Int2)
      reads this
      ensures IsUpdateRequired(newSize) <==> newSize != size
    {
      newSize.x != size.x || newSize.y != size.y
    }
  }
}
