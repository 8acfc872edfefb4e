/**
 * The ray-traced shadows sample: one BLAS per scene mesh, kept in a map
 * from mesh to acceleration structure, and a TLAS with one instance per
 * mesh instance.
 */
module RtShadows {
  import opened RtScene

  class RtShadowsSample {
    /** The BLAS of each mesh, keyed by the mesh's index in the scene. */
    var meshAccelStructs: map<nat, seq<TriangleDesc>>
    var topLevelInstances: seq<InstanceDesc>
    var topLevelMaxInstances: nat

    constructor ()
      ensures meshAccelStructs == map[] && topLevelInstances == [] && topLevelMaxInstances == 0
    {
      meshAccelStructs := map[];
      topLevelInstances := [];
      topLevelMaxInstances := 0;
    }

    /**
     * Stores a BLAS of opaque triangle geometries under every mesh, then
     * lists one instance with mask 1 per mesh instance, each using the BLAS
     * stored under its mesh, and sizes the TLAS to that list.
     */
    method CreateAccelStruct(meshes: seq<Mesh>, instances: seq<MeshInstance>)
      requires InstancesReferToMeshes(meshes, instances)
      modifies this
      ensures forall m :: 0 <= m < |meshes| ==> m in meshAccelStructs && meshAccelStructs[m] == BlasGeometries(meshes[m], AllOpaque)
      ensures forall k :: k in meshAccelStructs && k >= |meshes| ==> k in old(meshAccelStructs) && meshAccelStructs[k] == old(meshAccelStructs)[k]
      ensures |topLevelInstances| == |instances|
      ensures forall i :: 0 <= i < |instances| ==>
        topLevelInstances[i] == InstanceDesc(instances[i].mesh, 1, 0, 0, instances[i].node)
        && topLevelInstances[i].blasMesh in meshAccelStructs
      ensures topLevelMaxInstances == |topLevelInstances|
    {
      for m := 0 to |meshes|
        invariant forall k :: 0 <= k < m ==> k in meshAccelStructs && meshAccelStructs[k] == BlasGeometries(meshes[k], AllOpaque)
        invariant forall k :: k in meshAccelStructs && k >= m ==> k in old(meshAccelStructs) && meshAccelStructs[k] == old(meshAccelStructs)[k]
      {
        var blas := FillBlasGeometries(meshes[m], AllOpaque);
        meshAccelStructs := meshAccelStructs[m := blas];
      }

      var list: seq<InstanceDesc> := [];
      for i := 0 to |instances|
        invariant |list| == i
        invariant forall k :: 0 <= k < i ==> list[k] == InstanceDesc(instances[k].mesh, 1, 0, 0, instances[k].node)
      {
        var instance := instances[i];
        assert instance.mesh in meshAccelStructs;
        list := list + [InstanceDesc(instance.mesh, 1, 0, 0, instance.node)];
      }
      topLevelInstances := list;
      topLevelMaxInstances := |list|;
    }
  }
}
