/**
 * The ray-traced reflections sample: a shader table with two hit groups
 * per scene geometry (shadow rays, then reflection rays carrying the
 * geometry's buffers, textures and material), one BLAS per mesh and a TLAS
 * whose instances select their mesh's hit groups.
 */
module RtReflections {
  import opened CTypes
  import opened Seqs
  import opened RtScene

  /** A typed-buffer view: byte offset and byte size. */
  datatype BufferRange = BufferRange(byteOffset: nat, byteSize: nat)

  /** A texture bound for a geometry: the material's own, or the white or black fallback. */
  datatype BoundTexture = MaterialTexture(texture: nat) | WhiteTexture | BlackTexture

  /** The local binding set of a reflection hit group. */
  datatype LocalBindings = LocalBindings(
    indices: BufferRange,
    texCoords: BufferRange,
    normals: BufferRange,
    diffuse: BoundTexture,
    specular: BoundTexture,
    normalMap: BoundTexture,
    emissive: BoundTexture,
    occlusion: BoundTexture,
    transmission: BoundTexture,
    opacity: BoundTexture,
    materialConstants: nat)

  datatype HitGroup = ShadowHitGroup | ReflectionHitGroup(bindings: LocalBindings)

  /** Miss shaders in ray-type order: shadow rays are type 0, reflection rays type 1. */
  datatype MissShader = ShadowMiss | ReflectionMiss

  /** Hit groups per geometry, one per ray type. */
  const HIT_GROUPS_PER_GEOMETRY: nat := 2

  /** A loaded texture is bound as is; anything else binds the fallback. */
  function TextureOr(ref: TextureRef, fallback: BoundTexture): BoundTexture
  {
    if ref.Loaded? then MaterialTexture(ref.texture) else fallback
  }

  /**
   * The bindings of a geometry: 32-bit indices, float2 texture coordinates
   * and packed 32-bit normals of its own vertices, and its material's
   * textures with white or black in place of missing ones.
   */
  function GeometryBindings(mesh: Mesh, geo: Geometry): LocalBindings
  {
    var m := geo.material;
    LocalBindings(
      BufferRange(FirstIndex(mesh, geo) * SIZEOF_UINT32, geo.numIndices * SIZEOF_UINT32),
      BufferRange(FirstVertex(mesh, geo) * SIZEOF_FLOAT2 + mesh.ranges.texCoord1, geo.numVertices * SIZEOF_FLOAT2),
      BufferRange(FirstVertex(mesh, geo) * SIZEOF_UINT32 + mesh.ranges.normal, geo.numVertices * SIZEOF_UINT32),
      TextureOr(m.baseOrDiffuse, WhiteTexture),
      TextureOr(m.metalRoughOrSpecular, WhiteTexture),
      TextureOr(m.normal, BlackTexture),
      TextureOr(m.emissive, BlackTexture),
      TextureOr(m.occlusion, WhiteTexture),
      TextureOr(m.transmission, BlackTexture),
      TextureOr(m.opacity, WhiteTexture),
      m.constants)
  }

  /**
   * A material texture is bound exactly when it is loaded; in its place the
   * diffuse, specular, occlusion and opacity slots get white, and the
   * normal, emissive and transmission slots get black.
   */
  lemma TextureFallbacks(mesh: Mesh, geo: Geometry)
    ensures var b := GeometryBindings(mesh, geo); var m := geo.material;
      (b.diffuse.MaterialTexture? <==> m.baseOrDiffuse.Loaded?) && (!m.baseOrDiffuse.Loaded? ==> b.diffuse == WhiteTexture)
      && (b.specular.MaterialTexture? <==> m.metalRoughOrSpecular.Loaded?) && (!m.metalRoughOrSpecular.Loaded? ==> b.specular == WhiteTexture)
      && (b.normalMap.MaterialTexture? <==> m.normal.Loaded?) && (!m.normal.Loaded? ==> b.normalMap == BlackTexture)
      && (b.emissive.MaterialTexture? <==> m.emissive.Loaded?) && (!m.emissive.Loaded? ==> b.emissive == BlackTexture)
      && (b.occlusion.MaterialTexture? <==> m.occlusion.Loaded?) && (!m.occlusion.Loaded? ==> b.occlusion == WhiteTexture)
      && (b.transmission.MaterialTexture? <==> m.transmission.Loaded?) && (!m.transmission.Loaded? ==> b.transmission == BlackTexture)
      && (b.opacity.MaterialTexture? <==> m.opacity.Loaded?) && (!m.opacity.Loaded? ==> b.opacity == WhiteTexture)
  {
  }

  /**
   * The index view a reflection hit reads is exactly the index range the
   * BLAS geometry was built from, and the texture-coordinate and normal
   * views start at the BLAS's first vertex and span its vertex count.
   */
  lemma ViewsMatchBlas(mesh: Mesh, geo: Geometry, policy: FlagPolicy)
    ensures var b := GeometryBindings(mesh, geo); var t := TriangleGeometry(mesh, geo, policy);
      b.indices == BufferRange(t.indexOffset, t.indexCount * SIZEOF_UINT32)
      && (t.vertexOffset - mesh.ranges.position) / SIZEOF_FLOAT3 == (b.texCoords.byteOffset - mesh.ranges.texCoord1) / SIZEOF_FLOAT2
      && (t.vertexOffset - mesh.ranges.position) / SIZEOF_FLOAT3 == (b.normals.byteOffset - mesh.ranges.normal) / SIZEOF_UINT32
      && b.texCoords.byteSize == t.vertexCount * SIZEOF_FLOAT2 && b.normals.byteSize == t.vertexCount * SIZEOF_UINT32
  {
    var v := FirstVertex(mesh, geo);
    DivModUnique(v * SIZEOF_FLOAT3, SIZEOF_FLOAT3, v, 0);
    DivModUnique(v * SIZEOF_FLOAT2, SIZEOF_FLOAT2, v, 0);
    DivModUnique(v * SIZEOF_UINT32, SIZEOF_UINT32, v, 0);
  }

  /** The hit groups of the first `j` geometries of a mesh. */
  function MeshHitGroups(mesh: Mesh, j: nat): (r: seq<HitGroup>)
    requires j <= |mesh.geometries|
    ensures |r| == HIT_GROUPS_PER_GEOMETRY * j
  {
    if j == 0 then []
    else MeshHitGroups(mesh, j - 1) + [ShadowHitGroup, ReflectionHitGroup(GeometryBindings(mesh, mesh.geometries[j - 1]))]
  }

  /** The hit groups of the first `m` meshes, in traversal order. */
  function SceneHitGroups(meshes: seq<Mesh>, m: nat): (r: seq<HitGroup>)
    requires m <= |meshes|
    ensures |r| == HIT_GROUPS_PER_GEOMETRY * GeometriesBefore(meshes, m)
  {
    if m == 0 then []
    else SceneHitGroups(meshes, m - 1) + MeshHitGroups(meshes[m - 1], |meshes[m - 1].geometries|)
  }

  lemma {:induction false} MeshHitGroupsAt(mesh: Mesh, n: nat, j: nat)
    requires j < n <= |mesh.geometries|
    ensures MeshHitGroups(mesh, n)[2 * j] == ShadowHitGroup
    ensures MeshHitGroups(mesh, n)[2 * j + 1] == ReflectionHitGroup(GeometryBindings(mesh, mesh.geometries[j]))
  {
    if j < n - 1 {
      MeshHitGroupsAt(mesh, n - 1, j);
    }
  }

  /** Geometry j of mesh m owns hit groups 2g and 2g+1, g its position in traversal order. */
  lemma {:induction false} SceneHitGroupsAt(meshes: seq<Mesh>, n: nat, m: nat, j: nat)
    requires m < n <= |meshes| && j < |meshes[m].geometries|
    ensures GeometriesBefore(meshes, m) + j < GeometriesBefore(meshes, n)
    ensures var g := GeometriesBefore(meshes, m) + j;
      SceneHitGroups(meshes, n)[2 * g] == ShadowHitGroup
      && SceneHitGroups(meshes, n)[2 * g + 1] == ReflectionHitGroup(GeometryBindings(meshes[m], meshes[m].geometries[j]))
  {
    GeometriesBeforeMono(meshes, m + 1, n);
    if m < n - 1 {
      SceneHitGroupsAt(meshes, n - 1, m, j);
    } else {
      MeshHitGroupsAt(meshes[m], |meshes[m].geometries|, j);
    }
  }

  lemma {:induction false} GeometriesBeforeMono(meshes: seq<Mesh>, a: nat, b: nat)
    requires a <= b <= |meshes|
    ensures GeometriesBefore(meshes, a) <= GeometriesBefore(meshes, b)
  {
    if a < b {
      GeometriesBeforeMono(meshes, a, b - 1);
    }
  }

  /**
   * With geometries numbered in traversal order, the shadow hit group of a
   * geometry sits at twice its global index and its reflection hit group
   * right after it: the shader-table assertion on the hit-group index holds.
   */
  lemma HitGroupsAtGlobalIndex(meshes: seq<Mesh>, m: nat, j: nat)
    requires GlobalIndicesInOrder(meshes)
    requires m < |meshes| && j < |meshes[m].geometries|
    ensures var geo := meshes[m].geometries[j]; var groups := SceneHitGroups(meshes, |meshes|);
      2 * geo.globalGeometryIndex + 1 < |groups|
      && groups[2 * geo.globalGeometryIndex] == ShadowHitGroup
      && groups[2 * geo.globalGeometryIndex + 1] == ReflectionHitGroup(GeometryBindings(meshes[m], geo))
  {
    SceneHitGroupsAt(meshes, |meshes|, m, j);
  }

  /** The TLAS instance of a mesh instance: its hit groups start at its mesh's first geometry. */
  function ReflectionInstance(meshes: seq<Mesh>, instance: MeshInstance): InstanceDesc
    requires instance.mesh < |meshes| && |meshes[instance.mesh].geometries| > 0
  {
    InstanceDesc(instance.mesh, 1, 0,
      HIT_GROUPS_PER_GEOMETRY * meshes[instance.mesh].geometries[0].globalGeometryIndex, instance.node)
  }

  /** Every instance's mesh exists and has a first geometry. */
  predicate InstancesHaveGeometry(meshes: seq<Mesh>, instances: seq<MeshInstance>)
  {
    forall i :: 0 <= i < |instances| ==> instances[i].mesh < |meshes| && |meshes[instances[i].mesh].geometries| > 0
  }

  /**
   * A ray of type `rayType` (0 shadow, 1 reflection) hitting geometry j of
   * an instance uses hit group contribution + 2j + rayType, which is that
   * geometry's group for that ray type.
   */
  lemma InstanceSelectsOwnHitGroups(meshes: seq<Mesh>, instance: MeshInstance, j: nat)
    requires GlobalIndicesInOrder(meshes)
    requires instance.mesh < |meshes| && j < |meshes[instance.mesh].geometries|
    ensures var mesh := meshes[instance.mesh]; var groups := SceneHitGroups(meshes, |meshes|);
      var c := ReflectionInstance(meshes, instance).hitGroupContribution;
      c + HIT_GROUPS_PER_GEOMETRY * j + 1 < |groups|
      && groups[c + HIT_GROUPS_PER_GEOMETRY * j] == ShadowHitGroup
      && groups[c + HIT_GROUPS_PER_GEOMETRY * j + 1] == ReflectionHitGroup(GeometryBindings(mesh, mesh.geometries[j]))
  {
    HitGroupsAtGlobalIndex(meshes, instance.mesh, j);
  }

  class RtReflectionsSample {
    var missShaders: seq<MissShader>
    var hitGroups: seq<HitGroup>
    /** mesh->accelStruct: the BLAS of each mesh. */
    var meshBlas: map<nat, seq<TriangleDesc>>
    var topLevelInstances: seq<InstanceDesc>
    var topLevelMaxInstances: nat
    var renderTargets: SizedRenderTargets?

    constructor ()
      ensures missShaders == [] && hitGroups == [] && meshBlas == map[] && topLevelInstances == []
      ensures renderTargets == null
    {
      missShaders := [];
      hitGroups := [];
      meshBlas := map[];
      topLevelInstances := [];
      topLevelMaxInstances := 0;
      renderTargets := null;
    }

    /**
     * Fills the shader table: the two miss shaders, then a shadow and a
     * reflection hit group for every geometry of every mesh. Fails, leaving
     * the table alone, when the shader library is missing.
     */
    method CreateRayTracingPipeline(meshes: seq<Mesh>, libraryLoaded: bool) returns (ok: bool)
      requires GlobalIndicesInOrder(meshes)
      modifies this`missShaders, this`hitGroups
      ensures ok == libraryLoaded
      ensures ok ==> missShaders == [ShadowMiss, ReflectionMiss] && hitGroups == SceneHitGroups(meshes, |meshes|)
      ensures !ok ==> missShaders == old(missShaders) && hitGroups == old(hitGroups)
    {
      if !libraryLoaded {
        return false;
      }
      var groups: seq<HitGroup> := [];
      for m := 0 to |meshes|
        invariant groups == SceneHitGroups(meshes, m)
      {
        var mesh := meshes[m];
        for j := 0 to |mesh.geometries|
          invariant groups == SceneHitGroups(meshes, m) + MeshHitGroups(mesh, j)
        {
          var geo := mesh.geometries[j];
          assert |groups| == 2 * geo.globalGeometryIndex;
          AppendAssoc(SceneHitGroups(meshes, m), MeshHitGroups(mesh, j), [ShadowHitGroup, ReflectionHitGroup(GeometryBindings(mesh, geo))]);
          groups := groups + [ShadowHitGroup, ReflectionHitGroup(GeometryBindings(mesh, geo))];
        }
        assert SceneHitGroups(meshes, m + 1) == SceneHitGroups(meshes, m) + MeshHitGroups(mesh, |mesh.geometries|);
      }
      missShaders := [ShadowMiss, ReflectionMiss];
      hitGroups := groups;
      ok := true;
    }

    /**
     * Builds a BLAS of opaque triangle geometries for every mesh and a TLAS
     * with one mask-1 instance per mesh instance, whose hit-group
     * contribution is twice the global index of its mesh's first geometry.
     */
    method CreateAccelStruct(meshes: seq<Mesh>, instances: seq<MeshInstance>)
      requires InstancesHaveGeometry(meshes, instances)
      modifies this`meshBlas, this`topLevelInstances, this`topLevelMaxInstances
      ensures forall m :: 0 <= m < |meshes| ==> m in meshBlas && meshBlas[m] == BlasGeometries(meshes[m], AllOpaque)
      ensures forall k :: k in meshBlas && k >= |meshes| ==> k in old(meshBlas) && meshBlas[k] == old(meshBlas)[k]
      ensures |topLevelInstances| == |instances|
      ensures forall i :: 0 <= i < |instances| ==>
        topLevelInstances[i] == ReflectionInstance(meshes, instances[i]) && topLevelInstances[i].blasMesh in meshBlas
      ensures topLevelMaxInstances == |topLevelInstances|
    {
      for m := 0 to |meshes|
        invariant forall k :: 0 <= k < m ==> k in meshBlas && meshBlas[k] == BlasGeometries(meshes[k], AllOpaque)
        invariant forall k :: k in meshBlas && k >= m ==> k in old(meshBlas) && meshBlas[k] == old(meshBlas)[k]
      {
        var blas := FillBlasGeometries(meshes[m], AllOpaque);
        meshBlas := meshBlas[m := blas];
      }

      var list: seq<InstanceDesc> := [];
      for i := 0 to |instances|
        invariant |list| == i
        invariant forall k :: 0 <= k < i ==> list[k] == ReflectionInstance(meshes, instances[k])
      {
        var mesh := meshes[instances[i].mesh];
        assert instances[i].mesh in meshBlas;
        var contribution := mesh.geometries[0].globalGeometryIndex * 2;
        list := list + [InstanceDesc(instances[i].mesh, 1, 0, contribution, instances[i].node)];
      }
      topLevelInstances := list;
      topLevelMaxInstances := |list|;
    }

    /** Drops the render targets; the next frame recreates them at the new size. */
    method BackBufferResizing()
      modifies this`renderTargets
      ensures renderTargets == null
    {
      renderTargets := null;
    }

    /**
     * Creates the render targets at the framebuffer size when there are
     * none, and dispatches one ray per framebuffer pixel.
     */
    method Render(width: int, height: int) returns (raysX: int, raysY: int)
      modifies this`renderTargets
      ensures renderTargets != null
      ensures old(renderTargets) == null ==> fresh(renderTargets) && renderTargets.size == Int2(width, height)
      ensures old(renderTargets) != null ==> renderTargets == old(renderTargets)
      ensures raysX == width && raysY == height
    {
      if renderTargets == null {
        renderTargets := new SizedRenderTargets(Int2(width, height));
      }
      raysX := width;
      raysY := height;
    }
  }
}
