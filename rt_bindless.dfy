/**
 * The bindless ray-tracing sample: BLASes whose alpha-tested geometries are
 * not flagged opaque, skinned meshes whose BLASes are rebuilt on the frames
 * that animated them, and a TLAS rebuilt every frame from all mesh
 * instances.
 */
module RtBindless {
  import opened Glfw
  import opened RtScene

  /** A BLAS description: its triangle geometries, and whether it may be compacted. */
  datatype BlasDesc = BlasDesc(geometries: seq<TriangleDesc>, allowCompaction: bool)

  /** GetMeshBlasDesc, as a value: alpha-tested geometries are not opaque, skinned meshes are not compacted. */
  function MeshBlasDesc(mesh: Mesh): BlasDesc
  {
    BlasDesc(BlasGeometries(mesh, AlphaTestedNotOpaque), mesh.skinPrototype.None?)
  }

  /** A skinned instance: its (skinned copy of the) mesh and the last frame its skinning ran. */
  datatype SkinnedInstance = SkinnedInstance(mesh: nat, lastUpdateFrameIndex: nat)

  /** Meshes of the skinned instances updated on `frameIndex` or later, in order. */
  function UpdatedSkinnedMeshes(skinned: seq<SkinnedInstance>, frameIndex: nat): (r: seq<nat>)
    ensures |r| <= |skinned|
  {
    if |skinned| == 0 then []
    else
      UpdatedSkinnedMeshes(skinned[..|skinned| - 1], frameIndex)
      + (if skinned[|skinned| - 1].lastUpdateFrameIndex < frameIndex then [] else [skinned[|skinned| - 1].mesh])
  }

  /** A mesh is rebuilt exactly when some skinned instance of it was updated this frame or later. */
  lemma {:induction false} UpdatedSkinnedMeshesExact(skinned: seq<SkinnedInstance>, frameIndex: nat)
    ensures forall m :: m in UpdatedSkinnedMeshes(skinned, frameIndex) <==>
      exists i :: 0 <= i < |skinned| && skinned[i].mesh == m && skinned[i].lastUpdateFrameIndex >= frameIndex
  {
    if |skinned| > 0 {
      var front := skinned[..|skinned| - 1];
      UpdatedSkinnedMeshesExact(front, frameIndex);
      forall m | m in UpdatedSkinnedMeshes(skinned, frameIndex)
        ensures exists i :: 0 <= i < |skinned| && skinned[i].mesh == m && skinned[i].lastUpdateFrameIndex >= frameIndex
      {
        if m in UpdatedSkinnedMeshes(front, frameIndex) {
          var i :| 0 <= i < |front| && front[i].mesh == m && front[i].lastUpdateFrameIndex >= frameIndex;
          assert skinned[i] == front[i];
        }
      }
      forall i | 0 <= i < |skinned| && skinned[i].lastUpdateFrameIndex >= frameIndex
        ensures skinned[i].mesh in UpdatedSkinnedMeshes(skinned, frameIndex)
      {
        if i < |front| {
          assert front[i] == skinned[i];
        }
      }
    }
  }

  /** An update is a BLAS rebuild for a mesh, with the description it is rebuilt from. */
  datatype BlasRebuild = BlasRebuild(mesh: nat, desc: BlasDesc)

  class RtBindlessSample {
    var enableAnimations: bool
    var wallclockTime: real
    /** mesh->accelStruct for every mesh that has one. */
    var meshBlas: map<nat, BlasDesc>
    /** The meshes whose BLAS was built when the scene loaded. */
    var builtAtLoad: set<nat>
    var topLevelMaxInstances: nat

    constructor ()
      ensures enableAnimations && wallclockTime == 0.0
      ensures meshBlas == map[] && builtAtLoad == {} && topLevelMaxInstances == 0
    {
      enableAnimations := true;
      wallclockTime := 0.0;
      meshBlas := map[];
      builtAtLoad := {};
      topLevelMaxInstances := 0;
    }

    /** Space toggles the animations; every key also reaches the camera. */
    method KeyboardUpdate(key: int, action: int) returns (handled: bool)
      modifies this`enableAnimations
      ensures handled
      ensures enableAnimations == (old(enableAnimations) != (key == KEY_SPACE && action == PRESS))
    {
      if key == KEY_SPACE && action == PRESS {
        enableAnimations := !enableAnimations;
        return true;
      }
      return true;
    }

    /** The animation clock advances only with a loaded scene and animations on. */
    method Animate(elapsedSeconds: real, sceneLoaded: bool)
      modifies this`wallclockTime
      ensures wallclockTime == if sceneLoaded && enableAnimations then old(wallclockTime) + elapsedSeconds else old(wallclockTime)
    {
      if sceneLoaded && enableAnimations {
        wallclockTime := wallclockTime + elapsedSeconds;
      }
    }

    /** GetMeshBlasDesc: one geometry per mesh geometry; compaction only for meshes that are never rebuilt. */
    static method GetMeshBlasDesc(mesh: Mesh) returns (desc: BlasDesc)
      ensures desc == MeshBlasDesc(mesh)
      ensures |desc.geometries| == |mesh.geometries|
      ensures forall j :: 0 <= j < |desc.geometries| ==>
        (desc.geometries[j].flags == FlagsNone <==> mesh.geometries[j].material.domain == AlphaTested)
      ensures desc.allowCompaction <==> mesh.skinPrototype.None?
    {
      var geometries := FillBlasGeometries(mesh, AlphaTestedNotOpaque);
      if mesh.skinPrototype.Some? {
        desc := BlasDesc(geometries, false);
      } else {
        desc := BlasDesc(geometries, true);
      }
    }

    /**
     * Gives every mesh without joint weights (those are skinning
     * prototypes) a BLAS, built at once unless the mesh is skinned, and
     * sizes the TLAS for every mesh instance.
     */
    method CreateAccelStructs(meshes: seq<Mesh>, instanceCount: nat)
      modifies this`meshBlas, this`builtAtLoad, this`topLevelMaxInstances
      ensures forall m :: 0 <= m < |meshes| ==>
        (m in meshBlas <==> !meshes[m].hasJointWeights || m in old(meshBlas))
      ensures forall m :: 0 <= m < |meshes| && !meshes[m].hasJointWeights ==> meshBlas[m] == MeshBlasDesc(meshes[m])
      ensures forall m :: 0 <= m < |meshes| ==>
        (m in builtAtLoad <==> (!meshes[m].hasJointWeights && meshes[m].skinPrototype.None?) || m in old(builtAtLoad))
      ensures forall k :: k >= |meshes| ==> (k in meshBlas <==> k in old(meshBlas)) && (k in builtAtLoad <==> k in old(builtAtLoad))
      ensures forall k :: k in old(meshBlas) && (k >= |meshes| || meshes[k].hasJointWeights) ==> meshBlas[k] == old(meshBlas)[k]
      ensures topLevelMaxInstances == instanceCount
    {
      for m := 0 to |meshes|
        invariant forall k :: 0 <= k < m ==> (k in meshBlas <==> !meshes[k].hasJointWeights || k in old(meshBlas))
        invariant forall k :: 0 <= k < m && !meshes[k].hasJointWeights ==> meshBlas[k] == MeshBlasDesc(meshes[k])
        invariant forall k :: 0 <= k < m ==>
          (k in builtAtLoad <==> (!meshes[k].hasJointWeights && meshes[k].skinPrototype.None?) || k in old(builtAtLoad))
        invariant forall k :: k >= m ==> (k in meshBlas <==> k in old(meshBlas)) && (k in builtAtLoad <==> k in old(builtAtLoad))
        invariant forall k :: k in old(meshBlas) && (k >= m || meshes[k].hasJointWeights) ==> meshBlas[k] == old(meshBlas)[k]
      {
        if meshes[m].hasJointWeights {
          continue;
        }
        var desc := GetMeshBlasDesc(meshes[m]);
        if meshes[m].skinPrototype.None? {
          builtAtLoad := builtAtLoad + {m};
        }
        meshBlas := meshBlas[m := desc];
      }
      topLevelMaxInstances := instanceCount;
    }

    /**
     * One frame's acceleration-structure work: the BLAS of every skinned
     * instance updated this frame is transitioned and then rebuilt (both
     * passes skip the same instances), and the TLAS gets one mask-1
     * instance per mesh instance, numbered by its instance index.
     */
    method BuildTLAS(meshes: seq<Mesh>, instances: seq<MeshInstance>, skinned: seq<SkinnedInstance>, frameIndex: nat)
      returns (transitioned: seq<nat>, rebuilt: seq<BlasRebuild>, tlas: seq<InstanceDesc>)
      requires forall s :: 0 <= s < |skinned| ==> skinned[s].mesh < |meshes|
      requires forall i :: 0 <= i < |instances| ==> instances[i].mesh in meshBlas
      ensures transitioned == UpdatedSkinnedMeshes(skinned, frameIndex)
      ensures forall k :: 0 <= k < |transitioned| ==> transitioned[k] < |meshes|
      ensures |rebuilt| == |transitioned|
      ensures forall k :: 0 <= k < |rebuilt| ==>
        rebuilt[k] == BlasRebuild(transitioned[k], MeshBlasDesc(meshes[transitioned[k]]))
      ensures |tlas| == |instances|
      ensures forall i :: 0 <= i < |instances| ==>
        tlas[i] == InstanceDesc(instances[i].mesh, 1, instances[i].instanceIndex, 0, instances[i].node)
    {
      transitioned := [];
      for s := 0 to |skinned|
        invariant transitioned == UpdatedSkinnedMeshes(skinned[..s], frameIndex)
        invariant forall k :: 0 <= k < |transitioned| ==> transitioned[k] < |meshes|
      {
        assert skinned[..s + 1][..s] == skinned[..s];
        if skinned[s].lastUpdateFrameIndex < frameIndex {
          continue;
        }
        transitioned := transitioned + [skinned[s].mesh];
      }
      assert skinned[..|skinned|] == skinned;

      rebuilt := [];
      ghost var updated: seq<nat> := [];
      for s := 0 to |skinned|
        invariant updated == UpdatedSkinnedMeshes(skinned[..s], frameIndex)
        invariant |rebuilt| == |updated|
        invariant forall k :: 0 <= k < |rebuilt| ==> updated[k] < |meshes| && rebuilt[k] == BlasRebuild(updated[k], MeshBlasDesc(meshes[updated[k]]))
      {
        assert skinned[..s + 1][..s] == skinned[..s];
        if skinned[s].lastUpdateFrameIndex < frameIndex {
          continue;
        }
        var desc := GetMeshBlasDesc(meshes[skinned[s].mesh]);
        rebuilt := rebuilt + [BlasRebuild(skinned[s].mesh, desc)];
        updated := updated + [skinned[s].mesh];
      }

      tlas := [];
      for i := 0 to |instances|
        invariant |tlas| == i
        invariant forall k :: 0 <= k < i ==> tlas[k] == InstanceDesc(instances[k].mesh, 1, instances[k].instanceIndex, 0, instances[k].node)
      {
        var instance := instances[i];
        assert instance.mesh in meshBlas;
        tlas := tlas + [InstanceDesc(instance.mesh, 1, instance.instanceIndex, 0, instance.node)];
      }
    }
  }
}
