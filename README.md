# donut_examples: the integer and sequence logic of the samples

The donut examples are small GPU sample programs built on the donut engine and
nvrhi. Most of their code calls the engine and the graphics API. Spread across
the samples is bookkeeping that can be stated exactly, and this project models
that part in Dafny and proves what it promises:

- the procedural meshes and the world of the work-graphs sample: plane, box and
  UV-sphere generation into growing position, normal and 16-bit index arrays;
  the position/normal interleave; the material table, objects and lights of
  `Scene::PopulateWorld`;
- the per-frame state of the work-graphs renderer: light-tile counts, the
  culled-lights buffer, the ten-slot timer ring and its search, the
  backing-memory flag, the dispatch split against the 65535 groups-per-dimension
  limit, and the G-buffer draw list;
- the 1024-slot particle pool of `rt_particles`: emission into the lowest free
  slot, compaction of the live particles into quads and `ParticleInfo`
  records, and the numbering of the intersection instances;
- the feature demo's control logic: render-target heap packing, sample counts,
  the recreation rule, the keyboard state machine, the command-line parser,
  picking, light-probe creation, the temporal-history flag and the glTF test;
- the acceleration-structure and shader-table layout of `rt_reflections`,
  `rt_bindless` and `rt_shadows`;
- the face tiling of `threaded_rendering`, the shading-rate surface and frame
  of `variable_shading`, the buffers of `deferred_shading`, the cube tables of
  `CubeGeometry.h` and `vertex_buffer`, and the reduction check of `headless`.

One Dafny module models each source file. `CTypes` holds the C integer
conversions (uint16/uint32 truncation, two's-complement reads, `nvrhi::align`,
ceiling division), `Seqs` holds sequence helpers, and `Wrappers` holds
`Option`. `Glfw` and `Nvrhi` hold the key codes and formats the samples use.
`RtScene` holds what the three ray-tracing samples share: the mesh and geometry
records, geometry flags and the BLAS geometry layout.

Objects whose fields the source updates become classes: `MeshData`, `Scene`,
`WorkGraphs`, `RayTracedParticles`, `FeatureDemo`, `UIData`, `RenderTargets`,
`ThreadedRenderingApp`, `VariableShadingApp`, the ray-tracing sample classes,
`SimpleScene` and `DeferredShading`. Each method is specified by a function of
its inputs and old state, and lemmas prove the properties about those
functions. Graphics-API calls become returned records: the buffer
descriptions, the launched work graph, the recorded commands and the instance
list. Floats become `real`, or opaque payload where only their identity
matters. `rand()` becomes a stream parameter. The GPU results a sample reads
back are parameters.

## Model

| member | source | states |
|---|---|---|
| WorkGraphsMesh.MeshData.constructor | examples/work_graphs/scene.cpp:89-92 | A new mesh has no positions, normals or indices. |
| WorkGraphsMesh.U16Shift | examples/work_graphs/scene.cpp:417-424 | Adding an offset to a truncated uint16 and truncating again equals truncating the full sum. Truncating once at the store is therefore the source's step-by-step uint16 arithmetic. |
| WorkGraphsMesh.QuadIndicesInBlock | examples/work_graphs/scene.cpp:383 | Below 65536, the six plane indices base+{0,1,2,2,3,0} name exactly the quad's own four vertices, and each of them. |
| WorkGraphsMesh.GeneratePlaneInternal | examples/work_graphs/scene.cpp:378-388 | Appends the four corners at height y, four normals (0, sign, 0) and the quad's six indices relative to the old vertex count. Earlier entries are unchanged. |
| WorkGraphsMesh.GeneratePlane | examples/work_graphs/scene.cpp:390-394 | Appends an upward quad and then a downward quad: 8 vertices and 12 indices, append-only. |
| WorkGraphsMesh.GridRowsLength | examples/work_graphs/scene.cpp:403-412 | m rows of the side grid hold m·(s+1) points. |
| WorkGraphsMesh.GridRowAt | examples/work_graphs/scene.cpp:403-412 | Entry x of row y is grid point (y, x). |
| WorkGraphsMesh.GridRowsAt | examples/work_graphs/scene.cpp:403-412 | Grid point (y, x) is vertex y·(s+1)+x of the side, which is the vertex the side's indices use for it. |
| WorkGraphsMesh.CellRowsLength | examples/work_graphs/scene.cpp:414-425 | m cell rows hold 6·m·s indices. |
| WorkGraphsMesh.SideCellIn | examples/work_graphs/scene.cpp:417-424 | The six indices of a cell stay inside any range that holds the cell's corners. |
| WorkGraphsMesh.CellRowIn | examples/work_graphs/scene.cpp:415-424 | A row of cells stays inside any range that holds its vertices. |
| WorkGraphsMesh.CellRowsIn | examples/work_graphs/scene.cpp:414-425 | m cell rows stay inside any range that holds their m+1 grid rows. |
| WorkGraphsMesh.SideIndicesInBlock | examples/work_graphs/scene.cpp:398-426 | A side appends 6s² indices. When its (s+1)² vertices fit below 65536, every index lies in [base, base+(s+1)²). |
| WorkGraphsMesh.SideGuardAdmitsWrap | examples/work_graphs/scene.cpp:400 | The guard as written accepts 65534 vertices already present. A side with one subdivision then gets index 0, which is not one of its vertices. |
| WorkGraphsMesh.GenerateSide | examples/work_graphs/scene.cpp:398-426 | Appends the side's (s+1)² grid points, one normal per point and the side's cell indices at the old vertex count. Nothing earlier changes. |
| WorkGraphsMesh.AppendSideGrid | examples/work_graphs/scene.cpp:403-412 | The vertex loop appends every grid point row by row, with the side's normal for each. |
| WorkGraphsMesh.AppendSideCells | examples/work_graphs/scene.cpp:414-425 | The index loop appends the s rows of s cells. |
| WorkGraphsMesh.AppendCellRow | examples/work_graphs/scene.cpp:415-424 | One pass of the inner index loop appends one row of cells. |
| WorkGraphsMesh.BoxIndicesInBlock | examples/work_graphs/scene.cpp:396-438 | A box has 4(s+1)²+8 vertices and 24s²+12 indices. When the vertices fit below 65536, every index names one of the box's own vertices. |
| WorkGraphsMesh.BoxCounts | examples/work_graphs/scene.cpp:428-430 | The vertex count equals the (s+1)²·4+8 the source reserves. The index count is 12 less than the ((s·s)·4+4)·6 it reserves. |
| WorkGraphsMesh.BoxLengths | examples/work_graphs/scene.cpp:432-437 | Positions and normals have the same length, 4(s+1)²+8, and there are 24s²+12 indices. |
| WorkGraphsMesh.GenerateBox | examples/work_graphs/scene.cpp:396-438 | Appends the four sides, then the top and bottom quads, to an append-only mesh, each piece's indices relative to its own first vertex. |
| WorkGraphsMesh.RingsLength | examples/work_graphs/scene.cpp:447-464 | m rings hold m·sides positions and as many normals. |
| WorkGraphsMesh.TrunkRowsLength | examples/work_graphs/scene.cpp:475-488 | m ring pairs of the trunk hold 6·m·sides indices. |
| WorkGraphsMesh.BottomCapIn | examples/work_graphs/scene.cpp:467-472 | The bottom fan uses only the bottom vertex and the first ring. |
| WorkGraphsMesh.TrunkRowIn | examples/work_graphs/scene.cpp:477-487 | A trunk row uses only its two rings, including the wrap back to the ring's first vertex. |
| WorkGraphsMesh.TrunkRowsIn | examples/work_graphs/scene.cpp:475-488 | The trunk uses only the rings it joins. |
| WorkGraphsMesh.TopCapIn | examples/work_graphs/scene.cpp:491-497 | The top fan uses only the last ring and the top vertex. |
| WorkGraphsMesh.SphereIndicesInBlock | examples/work_graphs/scene.cpp:440-498 | With sides ≥ 3 and slices ≥ 2 a sphere appends 6·sides·(slices−1) indices. When its vertices fit below 65536, every index names one of its own vertices. |
| WorkGraphsMesh.SphereCounts | examples/work_graphs/scene.cpp:440-498 | A sphere has 2+(slices−1)·sides positions and as many normals, and 6·sides·(slices−1) indices. |
| WorkGraphsMesh.SphereGuardAdmitsWrap | examples/work_graphs/scene.cpp:442-444 | The guard as written accepts 65534 vertices already present. A sphere with 3 sides and 2 slices then gets index 0, which is not one of its vertices. |
| WorkGraphsMesh.GenerateSphere | examples/work_graphs/scene.cpp:440-498 | Appends the bottom vertex, the rings and the top vertex with their normals, then the bottom fan, trunk quads and top fan, all relative to the old vertex count. |
| WorkGraphsMesh.AppendSphereVertices | examples/work_graphs/scene.cpp:447-464 | The vertex loops append every ring point. The top vertex's number is the truncated count read just before it is pushed. |
| WorkGraphsMesh.AppendRing | examples/work_graphs/scene.cpp:453-460 | One ring appends `sides` points and their normals. |
| WorkGraphsMesh.AppendBottomCap | examples/work_graphs/scene.cpp:467-472 | Appends one fan triangle per side around the bottom vertex. |
| WorkGraphsMesh.AppendTrunk | examples/work_graphs/scene.cpp:475-488 | Appends a quad per side for each of the slices−2 ring pairs. |
| WorkGraphsMesh.AppendTrunkRow | examples/work_graphs/scene.cpp:477-487 | Appends the quads between one ring and the next. |
| WorkGraphsMesh.AppendTopCap | examples/work_graphs/scene.cpp:491-497 | Appends one fan triangle per side to the top vertex. |
| WorkGraphsMesh.InterleavedAt | examples/work_graphs/scene.cpp:102-107 | Vertex j's position is at slot 2j and its normal at slot 2j+1. |
| WorkGraphsMesh.InterleaveVertices | examples/work_graphs/scene.cpp:102-107 | Fills a fresh array of 2·\|positions\| slots with the interleaved stream. |
| WorkGraphsMesh.VertexBufferSize | examples/work_graphs/scene.cpp:110 | The vertex buffer is a whole number of float3 values. For equal-length lists it is exactly the interleaved array's bytes. |
| WorkGraphsMesh.IndexBufferSize | examples/work_graphs/scene.cpp:123 | The index buffer holds exactly one uint16 per index. |
| WorkGraphsMesh.CreatePlaneMesh | examples/work_graphs/scene.cpp:89-92 | The plane mesh has 8 vertices and 12 indices, all below 8. |
| WorkGraphsMesh.CreateBoxMesh | examples/work_graphs/scene.cpp:89-92 | A fresh box mesh has (s+1)²·4+8 vertices and 24s²+12 indices. Below 65536 vertices, every index names a vertex. |
| WorkGraphsMesh.CreateSphereMesh | examples/work_graphs/scene.cpp:89-92 | A fresh sphere mesh has 2+(slices−1)·sides vertices and 6·(slices−1)·sides indices. Below 65536 vertices, every index names a vertex. |
| WorkGraphsMesh.CreateMeshSet | examples/work_graphs/scene.cpp:89-92 | The three meshes have 8/12, 40812/240012 and 4902/29400 vertices/indices. Every index names a vertex of its own mesh, so no uint16 index wraps. |
| WorkGraphsScene.GeneratedMaterials | examples/work_graphs/scene.cpp:214-270 | k generated blocks hold 10·k materials. |
| WorkGraphsScene.GeneratedMaterialsAt | examples/work_graphs/scene.cpp:214-270 | Generated material i has a random colour and the type of block i/10. |
| WorkGraphsScene.MaterialTableLayout | examples/work_graphs/scene.cpp:211-270 | 72 materials: grey Lambert at 0, white Faceted at 1, then ten each of Lambert, Phong, Metallic, Velvet, Flakes, Stan and Checker, in that order. |
| WorkGraphsScene.BoxMaterial | examples/work_graphs/scene.cpp:326 | A box's material index lies in [2, materialCount): a generated material, never a fixed one. |
| WorkGraphsScene.BallRowValid | examples/work_graphs/scene.cpp:286-294 | Every ball of a row is a sphere with a valid material. |
| WorkGraphsScene.BallRowsValid | examples/work_graphs/scene.cpp:286-294 | Every ball of the grid is a sphere with a valid material. |
| WorkGraphsScene.BoxRowValid | examples/work_graphs/scene.cpp:315-328 | Every box of a row is a box with a valid material. |
| WorkGraphsScene.BoxRowsValid | examples/work_graphs/scene.cpp:315-328 | Every box of the grid is a box with a valid material. |
| WorkGraphsScene.BallGridLayout | examples/work_graphs/scene.cpp:286-307 | A floor has 16 balls, each with material 1. |
| WorkGraphsScene.BoxGridLayout | examples/work_graphs/scene.cpp:315-328 | A floor has 100 boxes, each with a material in [2, materialCount). |
| WorkGraphsScene.FloorLayout | examples/work_graphs/scene.cpp:274-330 | A floor is the ground plane first, then 116 more objects, with 48 lights (3 per ball). Every object refers to an existing material. |
| WorkGraphsScene.WorldLayout | examples/work_graphs/scene.cpp:274-330 | m floors hold 117·m objects and 48·m lights, all with existing materials. |
| WorkGraphsScene.FreshWorld | examples/work_graphs/scene.cpp:206-333 | Populating an empty scene gives 72 materials, 351 objects and 144 lights, all objects valid. |
| WorkGraphsScene.Scene.constructor | examples/work_graphs/scene.cpp:206 | A new scene is empty. |
| WorkGraphsScene.Scene.PopulateWorld | examples/work_graphs/scene.cpp:206-333 | Appends the material table, then every floor's objects and lights. Earlier entries are unchanged. |
| WorkGraphsScene.Scene.AddMaterialTable | examples/work_graphs/scene.cpp:211-270 | Appends the two fixed materials and the seven generated blocks. |
| WorkGraphsScene.Scene.AddMaterials | examples/work_graphs/scene.cpp:216-217 | One generation loop appends ten materials of one type. |
| WorkGraphsScene.Scene.AddFloors | examples/work_graphs/scene.cpp:274-330 | Appends three floors, each box drawing from the complete table. |
| WorkGraphsScene.Scene.AddFloor | examples/work_graphs/scene.cpp:276-330 | Appends the ground plane, the balls with their lights, and the boxes. |
| WorkGraphsScene.Scene.AddBalls | examples/work_graphs/scene.cpp:286-308 | Appends the 4×4 balls, each followed by its lights. |
| WorkGraphsScene.Scene.AddBallRow | examples/work_graphs/scene.cpp:286-308 | Appends one row of balls and their lights. |
| WorkGraphsScene.Scene.AddBallLights | examples/work_graphs/scene.cpp:297-307 | Appends the three lights of one ball. |
| WorkGraphsScene.Scene.AddBoxes | examples/work_graphs/scene.cpp:315-328 | Appends the 10×10 boxes. |
| WorkGraphsScene.Scene.AddBoxRow | examples/work_graphs/scene.cpp:315-328 | Appends one row of boxes. |
| WorkGraphsScene.CreateWorld | examples/work_graphs/scene.cpp:86-94 | CreateAssets yields 72 materials, 351 objects and 144 lights, every object referring to an existing material. |
| WorkGraphsRenderer.LightTileCountX | examples/work_graphs/work_graphs_d3d12.cpp:219 | The tiles cover a row: 8·X ≥ w > 8·(X−1), whenever (w+7) does not wrap as a uint32. |
| WorkGraphsRenderer.LightTileCountY | examples/work_graphs/work_graphs_d3d12.cpp:220 | The tiles cover a column: 4·Y ≥ h > 4·(Y−1), whenever (h+3) does not wrap. |
| WorkGraphsRenderer.TileCountsAreCeilings | examples/work_graphs/work_graphs_d3d12.cpp:219-220 | Where (w+7) and (h+3) do not wrap as uint32, the per-axis tile counts are ⌈w/8⌉ and ⌈h/4⌉. |
| WorkGraphsRenderer.LightTileCount | examples/work_graphs/work_graphs_d3d12.cpp:221 | The tile count is a uint32. Where neither rounding sum nor the product wraps, it is ⌈w/8⌉·⌈h/4⌉: the number of 8×4 tiles covering the framebuffer. |
| WorkGraphsRenderer.CulledLightsBufferSize | examples/work_graphs/work_graphs_d3d12.cpp:384-387 | The buffer is a whole number of uint32 values. Where nothing wraps, it is ⌈w/8⌉·⌈h/4⌉·64·4 bytes: 64 uint32 light slots per covering tile. |
| WorkGraphsRenderer.CulledLightsPerTile | examples/work_graphs/work_graphs_d3d12.cpp:384-387 | For any texture size, nothing wraps. The counts are ⌈w/8⌉ and ⌈h/4⌉, and the buffer holds exactly 64 uint32 slots per tile. |
| WorkGraphsRenderer.ShadingMatchesTiles | examples/work_graphs/work_graphs_d3d12.cpp:739-744 | The compute shading dispatch has one group per light tile. |
| WorkGraphsRenderer.Descending | examples/work_graphs/work_graphs_d3d12.cpp:225-235 | The descending slot run hi, hi−1, …, lo. |
| WorkGraphsRenderer.SearchOrderAt | examples/work_graphs/work_graphs_d3d12.cpp:222-237 | Search position p holds slot next−1−p, wrapping past 0 to 9. |
| WorkGraphsRenderer.SearchOrderRing | examples/work_graphs/work_graphs_d3d12.cpp:222-237 | The search visits every slot except `next`, exactly once, from the most recent frame backwards: position p is slot (next+9−p) mod 10. |
| WorkGraphsRenderer.FirstReadyAt | examples/work_graphs/work_graphs_d3d12.cpp:222-237 | A finished timer with none finished before it in the order is the one found. |
| WorkGraphsRenderer.FirstReady | examples/work_graphs/work_graphs_d3d12.cpp:222-237 | Finds the first finished timer in the order. None is found exactly when no timer in the order has finished. |
| WorkGraphsRenderer.LastValidBelowNext | examples/work_graphs/work_graphs_d3d12.cpp:225-229 | The newest finished slot below `next` gives the time, in milliseconds. |
| WorkGraphsRenderer.LastValidAboveNext | examples/work_graphs/work_graphs_d3d12.cpp:231-235 | With nothing finished below `next`, the newest finished slot above it gives the time. |
| WorkGraphsRenderer.LastValidNone | examples/work_graphs/work_graphs_d3d12.cpp:236 | With no other slot finished, the result is −1. |
| WorkGraphsRenderer.WorkGraphs.GetLastValidQueryTimer | examples/work_graphs/work_graphs_d3d12.cpp:222-237 | The two search loops return the time of the most recent finished timer other than `next`, or −1. |
| WorkGraphsRenderer.DispatchSplitAsWritten | examples/work_graphs/work_graphs_d3d12.cpp:637-643 | Both dimensions are at least 1. For 1 ≤ groups < 65535 the dispatch is exactly (groups, 1). |
| WorkGraphsRenderer.DispatchSplitAsWrittenDropsGroups | examples/work_graphs/work_graphs_d3d12.cpp:637-643 | 65535 groups are dispatched as (1, 1), covering fewer groups than asked. |
| WorkGraphsRenderer.DispatchSplit | examples/work_graphs/work_graphs_d3d12.cpp:637-643 | The corrected split covers every group with X ≤ 65535, uses no more rows than needed, and is (max(groups,1), 1) up to the limit. |
| WorkGraphsRenderer.DispatchSplitAgrees | examples/work_graphs/work_graphs_d3d12.cpp:637-643 | Below 65535 groups, the corrected split and the split as written agree. |
| WorkGraphsRenderer.AnimationDispatch | examples/work_graphs/work_graphs_d3d12.cpp:637-643 | The groups cover all n objects or lights, at 32 threads per group. |
| WorkGraphsRenderer.WorldAnimationDispatch | examples/work_graphs/work_graphs_d3d12.cpp:655-659 | The populated world dispatches (11, 1) groups for objects and (5, 1) for lights, the same as the split as written. |
| WorkGraphsRenderer.IsUpdateRequired | examples/work_graphs/work_graphs_d3d12.cpp:125 | Render targets are stale exactly when their size differs. |
| WorkGraphsRenderer.WorkGraphs.constructor | examples/work_graphs/work_graphs_d3d12.cpp:185-195 | Starts at timer slot 0 with the broadcasting launch. Both the init and the reset flags are set. |
| WorkGraphsRenderer.WorkGraphs.Animate | examples/work_graphs/work_graphs_d3d12.cpp:798-822 | Resets or advances the clock (stopped while paused). Sets the init flag exactly when the technique changes. Reads the last valid frame and shading times. |
| WorkGraphsRenderer.WorkGraphs.BackBufferResizing | examples/work_graphs/work_graphs_d3d12.cpp:793-796 | Drops the render targets. |
| WorkGraphsRenderer.WorkGraphs.LoadScenePipelines | examples/work_graphs/work_graphs_d3d12.cpp:313-486 | Succeeds exactly when all six shaders are created. On success it sizes the culled-lights buffer for the new tile grid and requests an animation reset. On failure (the early return at line 331) it creates no buffer and leaves the reset request as it was. |
| WorkGraphsRenderer.WorkGraphs.LoadWorkGraphPipelines | examples/work_graphs/work_graphs_d3d12.cpp:488-579 | The corrected reload. It succeeds exactly when the library, device interface, state object and its properties are obtained; then the new backing memory is uninitialised and the init flag is set. On any of the early returns at lines 499-560, the memory and the flag are as they were. |
| WorkGraphsRenderer.WorkGraphs.LoadWorkGraphPipelinesAsWritten | examples/work_graphs/work_graphs_d3d12.cpp:488-579 | The reload as written. It succeeds exactly when the same objects are obtained. On success the new backing memory is uninitialised; on failure the old memory is kept. The flag is left as it was either way. |
| WorkGraphsRenderer.WorkGraphs.PopulateAnimationPass | examples/work_graphs/work_graphs_d3d12.cpp:620-664 | Passes the reset request once and then clears it. The dispatches use the corrected split, so they cover every object and light. Below 65535 groups they equal the split as written. |
| WorkGraphsRenderer.WorkGraphs.PopulateGBufferPass | examples/work_graphs/work_graphs_d3d12.cpp:666-702 | One draw per object, in order, pushing its list index and drawing its mesh's indices. Buffers are rebound exactly when the mesh type changes. |
| WorkGraphsRenderer.WorkGraphs.PopulateDeferredShadingWorkGraph | examples/work_graphs/work_graphs_d3d12.cpp:749-791 | The launch initialises exactly when the flag is set, then the flag is cleared. Under the class invariant, no launch runs on uninitialised memory without initialising it. |
| WorkGraphsRenderer.WorkGraphs.Render | examples/work_graphs/work_graphs_d3d12.cpp:824-892 | Reloads on the first frame or a resize. Both reload results are discarded, as at lines 835-836: a failed scene reload yields no culled-lights buffer and no animation reset, and a failed work-graph reload leaves the init flag as it was. Animates, draws, then shades by dispatch (one group per tile) or by work graph. The timer slot advances by one mod 10. With the corrected reload, the launch after a successful work-graph reload initialises the new memory. The animation dispatch equals the split as written below 65535 groups. |
| WorkGraphsRenderer.ResizeAsWritten | examples/work_graphs/work_graphs_d3d12.cpp:830-837 | As written, the first launch after a resize runs on new, uninitialised backing memory without initialising it. |
| WorkGraphsRenderer.ResizeInitializes | examples/work_graphs/work_graphs_d3d12.cpp:830-837 | With the corrected reload, that launch initialises the new memory. |
| RtParticles.Saturate | examples/rt_particles/rt_particles.cpp:93 | Clamps to [0, 1], leaving values inside the interval unchanged. |
| RtParticles.Emit | examples/rt_particles/rt_particles.cpp:71-82 | An emitted slot is live, aged 0, fully opaque and at the emitter. |
| RtParticles.EmitRanges | examples/rt_particles/rt_particles.cpp:71-82 | With random values in [0, 1]: radius in [0.1, 0.15], rising speed in [0.5, 1.5], horizontal speed in [−0.5, 0.5], colour in [0.1, 0.6]. |
| RtParticles.AnimateParticle | examples/rt_particles/rt_particles.cpp:84-97 | Age grows by the step. The particle stays live exactly while its age is within the lifetime. Opacity is (lifetime−age)/2, clamped. |
| RtParticles.SumNonNegative | examples/rt_particles/rt_particles.cpp:84-97 | Frame times that are all non-negative have a non-negative sum. |
| RtParticles.StepsLifetime | examples/rt_particles/rt_particles.cpp:84-97 | Over many frames, a slot stays live exactly while its starting age plus the elapsed time is within the lifetime. Its age is that sum. |
| RtParticles.InactiveStays | examples/rt_particles/rt_particles.cpp:511-520 | The pool loop never changes a free slot. |
| RtParticles.EmittedLifetime | examples/rt_particles/rt_particles.cpp:84-97 | An emitted particle lives for exactly 2 seconds of frames. |
| RtParticles.AnimateAll | examples/rt_particles/rt_particles.cpp:511-521 | Animating the pool keeps its size. |
| RtParticles.FirstFreeFrom | examples/rt_particles/rt_particles.cpp:511-521 | Returns the lowest free slot at or after `from`, or none when every slot from there on is live. |
| RtParticles.Emitted | examples/rt_particles/rt_particles.cpp:523-535 | Emission keeps the pool size. |
| RtParticles.ActiveSlots | examples/rt_particles/rt_particles.cpp:347-385 | Lists slots below m, at most m of them. |
| RtParticles.ActiveSlotsExact | examples/rt_particles/rt_particles.cpp:347-385 | Lists exactly the live slots below m, in increasing order. |
| RtParticles.FullIffAllActive | examples/rt_particles/rt_particles.cpp:511-521 | m live slots below m means every slot below m is live, and conversely. |
| RtParticles.ActivateAddsOne | examples/rt_particles/rt_particles.cpp:523-535 | Bringing one free slot to life adds exactly one live slot. |
| RtParticles.EmissionCount | examples/rt_particles/rt_particles.cpp:501-541 | A frame emits exactly when the period has passed and a slot is free, and then adds exactly one live particle. |
| RtParticles.CompactedIndices | examples/rt_particles/rt_particles.cpp:356-361 | n quads hold 6n indices. |
| RtParticles.CompactedIndicesAt | examples/rt_particles/rt_particles.cpp:356-361 | Quad k occupies entries 6k..6k+5, holding 4k+{0,1,2,0,2,3}. |
| RtParticles.CompactedIndicesBelow | examples/rt_particles/rt_particles.cpp:356-361 | Every index of n quads is below 4n. |
| RtParticles.CompactedTexcoords | examples/rt_particles/rt_particles.cpp:372-375 | n quads hold 4n texture coordinates. |
| RtParticles.CompactedTexcoordsAt | examples/rt_particles/rt_particles.cpp:372-375 | Vertex 4k+c carries the c-th corner coordinate. |
| RtParticles.CompactedInfo | examples/rt_particles/rt_particles.cpp:378-385 | One info record per live slot. |
| RtParticles.CompactedInfoAt | examples/rt_particles/rt_particles.cpp:378-385 | Info record k describes the k-th live slot. |
| RtParticles.CreateParticleMesh | examples/rt_particles/rt_particles.cpp:256-320 | The texcoords start right after the 49152 position bytes, the vertex buffer is their sum, the index buffer is 24576 bytes, and there is one info record per slot. |
| RtParticles.GeometryUploadsFit | examples/rt_particles/rt_particles.cpp:389-396 | For n ≤ 1024, every upload stays inside its buffer or range. |
| RtParticles.SceneInstanceDescs | examples/rt_particles/rt_particles.cpp:626-641 | One instance per scene instance. |
| RtParticles.ParticleInstances | examples/rt_particles/rt_particles.cpp:644-662 | One intersection instance per live slot. |
| RtParticles.ParticleInstancesMatchInfo | examples/rt_particles/rt_particles.cpp:644-662 | Instance k has ID k and boxes the k-th live slot, the one info record k describes. |
| RtParticles.TlasCapacitySuffices | examples/rt_particles/rt_particles.cpp:615-616 | Without uint32 wrap, the scene plus particle instances never exceed the TLAS capacity. |
| RtParticles.FirstFreeUnique | examples/rt_particles/rt_particles.cpp:511-521 | The loop's firstEmpty is the lowest free slot, or −1 when none is free. |
| RtParticles.RayTracedParticles.constructor | examples/rt_particles/rt_particles.cpp:164-254 | 1024 free slots, animation on, and full-size mesh counts. |
| RtParticles.RayTracedParticles.KeyboardUpdate | examples/rt_particles/rt_particles.cpp:465-476 | A space press toggles the animation. Every key is handled. |
| RtParticles.RayTracedParticles.Animate | examples/rt_particles/rt_particles.cpp:501-541 | Animates every live particle, then emits into the lowest free slot of the animated pool when the period has passed. The emit time is updated only then. Nothing changes while paused. |
| RtParticles.RayTracedParticles.WriteQuadIndices | examples/rt_particles/rt_particles.cpp:356-361 | Writes quad k's six indices at 6k. Nothing else changes. |
| RtParticles.RayTracedParticles.WriteQuadTexcoords | examples/rt_particles/rt_particles.cpp:372-375 | Writes quad k's four corners at 4k. Nothing else changes. |
| RtParticles.RayTracedParticles.WriteInfo | examples/rt_particles/rt_particles.cpp:378-385 | Writes info record k. Nothing else changes. |
| RtParticles.RayTracedParticles.SkipInactive | examples/rt_particles/rt_particles.cpp:349-351 | A free slot keeps the compaction invariant without writing. |
| RtParticles.RayTracedParticles.AppendParticle | examples/rt_particles/rt_particles.cpp:353-385 | A live slot extends the compacted front of all three arrays by one quad and one record. |
| RtParticles.RayTracedParticles.CompactParticles | examples/rt_particles/rt_particles.cpp:347-385 | The live slots become quads and records 0..n−1, in slot order. Later entries keep their contents. |
| RtParticles.RayTracedParticles.BuildParticleGeometry | examples/rt_particles/rt_particles.cpp:323-403 | Compacts the live slots and draws 6n indices over 4n vertices. |
| RtParticles.RayTracedParticles.CreateAccelStructs | examples/rt_particles/rt_particles.cpp:596-619 | One BLAS per mesh, built at once except the particle mesh's. The TLAS holds the scene instances plus 1024. |
| RtParticles.RayTracedParticles.BuildTLAS | examples/rt_particles/rt_particles.cpp:621-667 | The scene instances in order, then one intersection instance per live slot, numbered 0, 1, 2, … in slot order. |
| FeatureDemoSample.PackRenderTargetHeap | feature_demo/FeatureDemo.cpp:154-193 | The sizing pass gives the packed end of all textures. The binding pass gives each texture its aligned placement. |
| FeatureDemoSample.PackedEndMonotone | feature_demo/FeatureDemo.cpp:154-193 | Packing more textures never shrinks the heap. |
| FeatureDemoSample.PlacementInHeap | feature_demo/FeatureDemo.cpp:167-192 | Each texture's offset is aligned, and the texture lies wholly inside the heap. |
| FeatureDemoSample.PlacementsDisjoint | feature_demo/FeatureDemo.cpp:167-192 | An earlier texture ends before a later one begins. |
| FeatureDemoSample.RenderTargets.Init | feature_demo/FeatureDemo.cpp:95-208 | Records size and sample count. A virtual heap holds every texture at its placement. New targets never need an update for their own parameters. |
| FeatureDemoSample.SampleCount | feature_demo/FeatureDemo.cpp:848-855 | MSAA 2×/4×/8× give 2/4/8 samples. No AA and TAA give 1. |
| FeatureDemoSample.UIData.constructor | feature_demo/FeatureDemo.cpp:239-260 | The UI's initial settings. |
| FeatureDemoSample.UIData.EnforceConstraints | feature_demo/FeatureDemo.cpp:1591-1595 | MSAA turns deferred shading off, and no deferred shading turns SSAO off. A consistent UI is left unchanged. |
| FeatureDemoSample.FirstMatchFrom | feature_demo/FeatureDemo.cpp:1130-1162 | The first index at or after `from` holding the key, or none when no later index holds it. |
| FeatureDemoSample.FirstMatchUnique | feature_demo/FeatureDemo.cpp:1130-1162 | A match with none before it is the one found. |
| FeatureDemoSample.MaterialIdKeys | feature_demo/FeatureDemo.cpp:1140-1147 | The materials' IDs, in order. |
| FeatureDemoSample.InstanceIndexKeys | feature_demo/FeatureDemo.cpp:1149-1156 | The instances' indices, in order. |
| FeatureDemoSample.Digit | feature_demo/FeatureDemo.cpp:1222 | A digit character. |
| FeatureDemoSample.DecimalString | feature_demo/FeatureDemo.cpp:1222 | `std::to_string` of a natural number: non-empty, all digits, no leading zero. |
| FeatureDemoSample.DecimalRoundTrip | feature_demo/FeatureDemo.cpp:1222 | Reading the decimal string back gives the number. |
| FeatureDemoSample.ProbeNamesDistinct | feature_demo/FeatureDemo.cpp:1222 | Two probes of one table have different names. |
| FeatureDemoSample.ProbeFacesFit | feature_demo/FeatureDemo.cpp:1193 | Each probe's six cube faces lie inside the 6·n-slice array, the same for diffuse and specular. |
| FeatureDemoSample.EnabledProbes | feature_demo/FeatureDemo.cpp:929-940 | Only enabled probes of the table, none when all are disabled. |
| FeatureDemoSample.EndsWithIffConcat | feature_demo/FeatureDemo.cpp:627-628 | A string ends with a suffix exactly when it is some prefix followed by that suffix. |
| FeatureDemoSample.GltfSceneExamples | feature_demo/FeatureDemo.cpp:627-628 | Illustration only, for single inputs (the general result is EndsWithIffConcat): `.gltf` and `.glb` names select the third-person camera. `.json` and a bare "glb" do not. |
| FeatureDemoSample.FirstDirectional | feature_demo/FeatureDemo.cpp:587-594 | The first directional light, or none when there is none. |
| FeatureDemoSample.LoadsChangeSceneAppend | feature_demo/FeatureDemo.cpp:422-430 | Appending a name other than the last one keeps "no load repeats its predecessor". |
| FeatureDemoSample.FeatureDemo.constructor | feature_demo/FeatureDemo.cpp:329-400 | Picks the named scene, or else the preferred one found. Starts loading it and creates four probes in a 24-slice array. |
| FeatureDemoSample.FeatureDemo.SetCurrentSceneName | feature_demo/FeatureDemo.cpp:422-430 | Requests a load only when the name changes. The current name becomes the given one. |
| FeatureDemoSample.FeatureDemo.KeyboardUpdate | feature_demo/FeatureDemo.cpp:446-484 | On press, Esc, grave and space each toggle one flag. T leaves a scene camera for first person, or else toggles third person. Other keys reach the camera unless a scene camera is active. |
| FeatureDemoSample.FeatureDemo.MouseButtonUpdate | feature_demo/FeatureDemo.cpp:496-505 | A right-button press requests a pick. |
| FeatureDemoSample.FeatureDemo.Animate | feature_demo/FeatureDemo.cpp:515-535 | Time advances only with a loaded scene and animations on. |
| FeatureDemoSample.FeatureDemo.CreateLightProbes | feature_demo/FeatureDemo.cpp:1182-1232 | Exactly n fresh probes, disabled, named "1".."n", with array index i. The array has 6n slices as a uint32. |
| FeatureDemoSample.FeatureDemo.SceneUnloading | feature_demo/FeatureDemo.cpp:538-555 | Drops the sun and the selection, and disables every probe. |
| FeatureDemoSample.FeatureDemo.SceneLoaded | feature_demo/FeatureDemo.cpp:578-633 | Resets time and history. The first directional light becomes the sun (or the old or default sun when there is none). The first scene camera becomes active. Third person is used exactly for glTF scenes. |
| FeatureDemoSample.FeatureDemo.PrepareRenderTargets | feature_demo/FeatureDemo.cpp:846-866 | Recreates the targets exactly when they are absent or the size or sample count differs. Afterwards they fit. |
| FeatureDemoSample.FeatureDemo.SetupView | feature_demo/FeatureDemo.cpp:661-758 | The view matches the stereo setting. It reports a change exactly when it replaced the view. |
| FeatureDemoSample.FeatureDemo.CreateRenderPasses | feature_demo/FeatureDemo.cpp:760-830 | The exposure is reset only for the first tone-mapping pass. History becomes invalid. |
| FeatureDemoSample.FeatureDemo.CollectLightProbes | feature_demo/FeatureDemo.cpp:929-940 | The enabled probes, or none when probes are off. |
| FeatureDemoSample.FeatureDemo.ResolveTemporal | feature_demo/FeatureDemo.cpp:1048-1060 | Motion vectors only under TAA with a valid previous view. The history is valid afterwards exactly under TAA. |
| FeatureDemoSample.FeatureDemo.ResolvePick | feature_demo/FeatureDemo.cpp:1130-1162 | A pending pick selects the first material with the pixel's ID and the first instance with its index, aims the camera, and is cleared. |
| FeatureDemoSample.FeatureDemo.RenderScene | feature_demo/FeatureDemo.cpp:833-1140 | New passes exactly on new targets, a view change or a shader reload. Exposure resets only for the first tone mapper. Motion vectors need TAA, valid history and no new passes. The frame also gathers probes and resolves the pick. |
| FeatureDemoSample.Classify | feature_demo/FeatureDemo.cpp:1601-1635 | An argument is a positional scene name exactly when it does not start with a dash. |
| FeatureDemoSample.NextCommand | feature_demo/FeatureDemo.cpp:1601-1610 | Each command consumes at least its own argument. `-width`/`-height` also consume the value, or yield MissingValue at the end. |
| FeatureDemoSample.TokenizedSceneNames | feature_demo/FeatureDemo.cpp:1632-1635 | Every scene name is a dash-free argument of the command line. |
| FeatureDemoSample.RunFirst | feature_demo/FeatureDemo.cpp:1599-1637 | Running a command list applies its first command and then the rest. |
| FeatureDemoSample.ParseArgument | feature_demo/FeatureDemo.cpp:1601-1635 | One loop step applies the command at i and moves past it, failing exactly on a missing or unparsable value. |
| FeatureDemoSample.ProcessCommandLine | feature_demo/FeatureDemo.cpp:1599-1637 | The loop accepts exactly the command lines whose commands all apply, and yields their combined settings. |
| FeatureDemoSample.LastSceneNameFirst | feature_demo/FeatureDemo.cpp:1632-1635 | The last scene name seen over a list unfolds from its head. |
| FeatureDemoSample.RunSceneName | feature_demo/FeatureDemo.cpp:1632-1635 | The scene named last wins. |
| FeatureDemoSample.RunDebugFlags | feature_demo/FeatureDemo.cpp:1615-1619 | `-debug` turns on both debug flags, and nothing turns them off. |
| FeatureDemoSample.AsWrittenNeverFails | feature_demo/FeatureDemo.cpp:1599-1637 | The parser as written never returns false. It returns exactly when the corrected parser succeeds, with the same settings. |
| FeatureDemoSample.MissingWidthTerminates | feature_demo/FeatureDemo.cpp:1601-1606 | `feature_demo -width` ends the process as written. The corrected parser rejects it. |
| FeatureDemoSample.CommandLineExamples | feature_demo/FeatureDemo.cpp:1599-1637 | Illustration only, for one command line (the general results are ProcessCommandLine, RunSceneName and RunDebugFlags): `-width 1280 -debug Box.gltf` sets the width, keeps the default height, enables debugging and names the scene. |
| ThreadedRendering.FaceLayoutCells | examples/threaded_rendering/threaded_rendering.cpp:240-247 | Six distinct cells inside the 4×3 grid. |
| ThreadedRendering.FaceSize | examples/threaded_rendering/threaded_rendering.cpp:250 | The largest square size that fits four across and three down. |
| ThreadedRendering.FaceViewportInside | examples/threaded_rendering/threaded_rendering.cpp:252-260 | Each face viewport is a faceSize square inside the window. |
| ThreadedRendering.CellsApart | examples/threaded_rendering/threaded_rendering.cpp:252-260 | Different columns or rows cover disjoint pixel ranges. |
| ThreadedRendering.FaceViewportsDisjoint | examples/threaded_rendering/threaded_rendering.cpp:240-266 | No two face viewports overlap. |
| ThreadedRendering.SubmissionOrder | examples/threaded_rendering/threaded_rendering.cpp:277-285 | The six face lists in order, then the main list. |
| ThreadedRendering.ThreadedRenderingApp.constructor | examples/threaded_rendering/threaded_rendering.cpp:51 | Threads start on. |
| ThreadedRendering.ThreadedRenderingApp.KeyboardUpdate | examples/threaded_rendering/threaded_rendering.cpp:152-162 | A space press toggles threading. Other keys leave it alone. |
| ThreadedRendering.ThreadedRenderingApp.Render | examples/threaded_rendering/threaded_rendering.cpp:214-286 | Each face is recorded once, in order when serial. Face i is blitted from slice i into its cell. Face lists are submitted before the main list. |
| VariableShading.SurfaceCoversFramebuffer | examples/variable_shading/variable_shading.cpp:318 | Whenever fb+tile−1 does not wrap as a uint32, the surface is ⌈fb/tile⌉ in each dimension: the tiles cover the framebuffer, and one fewer would not. |
| VariableShading.VrsOnAppend | examples/variable_shading/variable_shading.cpp:416-479 | The last VRS switch decides the state. |
| VariableShading.BracketsAppendPlain | examples/variable_shading/variable_shading.cpp:416-479 | A command that neither draws nor enables VRS keeps every draw bracketed. |
| VariableShading.BracketsAppendDraws | examples/variable_shading/variable_shading.cpp:416-479 | Enable, both draws, then a disable keep every draw bracketed. |
| VariableShading.PlainBrackets | examples/variable_shading/variable_shading.cpp:397-407 | Commands that neither draw nor enable VRS are bracketed. |
| VariableShading.FrameMotionVectors | examples/variable_shading/variable_shading.cpp:397-400 | Motion vectors are rendered exactly when the previous view is valid. |
| VariableShading.FrameBracketsDraws | examples/variable_shading/variable_shading.cpp:397-490 | Both forward passes draw with VRS on, VRS ends off, and the rate surface is generated first. |
| VariableShading.FrameVrsSettings | examples/variable_shading/variable_shading.cpp:416-490 | Raw D3D12: a 1×1 rate with MAX combiners. nvrhi: the image overrides a 1×1 rate. The temporal resolve follows. |
| VariableShading.SelectRawPath | examples/variable_shading/variable_shading.cpp:514-524 | The raw path is used exactly when "-raw" is given and D3D12 is selected. |
| VariableShading.VariableShadingApp.constructor | examples/variable_shading/variable_shading.cpp:186 | Nothing size-dependent exists, and there is no valid history. |
| VariableShading.VariableShadingApp.BackBufferResizing | examples/variable_shading/variable_shading.cpp:292-300 | Drops the targets, forward pass, surface, temporal pass and pipeline. The history flag is kept. |
| VariableShading.VariableShadingApp.MaxCombiners | examples/variable_shading/variable_shading.cpp:437-441 | Every combiner is MAX. |
| VariableShading.VariableShadingApp.CreateMissing | examples/variable_shading/variable_shading.cpp:306-393 | Recreates exactly the missing objects, the surface at ⌈fb/tile⌉. |
| VariableShading.VariableShadingApp.Render | examples/variable_shading/variable_shading.cpp:302-497 | Recreates what is missing, including a dropped shading-rate surface at ⌈fb/tile⌉, and records the frame's commands. Afterwards the previous view is the current one, and it is valid. |
| RtScene.GeometryFlagsFor | examples/rt_shadows/rt_shadows.cpp:327 | Opaque for rt_shadows and rt_reflections. None exactly for alpha-tested geometry in rt_bindless. Opaque exactly for the opaque domain in rt_particles. |
| RtScene.BlasGeometries | examples/rt_shadows/rt_shadows.cpp:313-329 | One BLAS geometry per mesh geometry. |
| RtScene.FillBlasGeometries | examples/rt_shadows/rt_shadows.cpp:313-329 | Per geometry: copied counts, a float3 stride, and the (mesh+geometry) index and vertex byte offsets. |
| RtScene.PackedOffsetsIncrease | examples/rt_shadows/rt_shadows.cpp:318-322 | In a packed mesh, a later geometry starts after every earlier one ends. |
| RtScene.BlasRangesDisjoint | examples/rt_shadows/rt_shadows.cpp:318-322 | BLAS geometries read disjoint, increasing index and vertex byte ranges. |
| RtScene.SizedRenderTargets.constructor | examples/rt_shadows/rt_shadows.cpp:62-63 | Targets record their size. |
| RtScene.SizedRenderTargets.IsUpdateRequired | examples/rt_reflections/rt_reflections.cpp:117-123 | Exactly when the size differs. |
| RtShadows.RtShadowsSample.constructor | examples/rt_shadows/rt_shadows.cpp:306 | No BLASes and no instances. |
| RtShadows.RtShadowsSample.CreateAccelStruct | examples/rt_shadows/rt_shadows.cpp:306-360 | One opaque BLAS per mesh, stored under it. One mask-1 instance per mesh instance, using its mesh's BLAS. The TLAS is sized to that list. |
| RtReflections.TextureFallbacks | examples/rt_reflections/rt_reflections.cpp:369-389 | A material texture is bound exactly when loaded. Otherwise diffuse, specular, occlusion and opacity get white, and normal, emissive and transmission get black. |
| RtReflections.ViewsMatchBlas | examples/rt_reflections/rt_reflections.cpp:350-368 | A hit reads exactly the BLAS geometry's index range, and vertex views at its first vertex spanning its vertex count. |
| RtReflections.MeshHitGroups | examples/rt_reflections/rt_reflections.cpp:346-400 | Two hit groups per geometry. |
| RtReflections.SceneHitGroups | examples/rt_reflections/rt_reflections.cpp:346-400 | Two hit groups per geometry of the scene. |
| RtReflections.MeshHitGroupsAt | examples/rt_reflections/rt_reflections.cpp:395-398 | Geometry j of a mesh owns shadow 2j and reflection 2j+1. |
| RtReflections.SceneHitGroupsAt | examples/rt_reflections/rt_reflections.cpp:346-400 | Geometry j of mesh m owns groups 2g and 2g+1, where g is its traversal position. |
| RtReflections.GeometriesBeforeMono | examples/rt_reflections/rt_reflections.cpp:346-348 | Counting geometries over more meshes never gives fewer. |
| RtReflections.HitGroupsAtGlobalIndex | examples/rt_reflections/rt_reflections.cpp:395-398 | With global indices in traversal order, a geometry's shadow group is at twice its global index, with its reflection group right after. The assertion holds. |
| RtReflections.InstanceSelectsOwnHitGroups | examples/rt_reflections/rt_reflections.cpp:449 | A ray of type t hitting geometry j of an instance uses contribution+2j+t, that geometry's group for that ray type. |
| RtReflections.RtReflectionsSample.constructor | examples/rt_reflections/rt_reflections.cpp:159-172 | An empty shader table, no BLASes, no targets. |
| RtReflections.RtReflectionsSample.CreateRayTracingPipeline | examples/rt_reflections/rt_reflections.cpp:266-403 | Two miss shaders, then a shadow and a reflection group per geometry. Without the library it fails and changes nothing. |
| RtReflections.RtReflectionsSample.CreateAccelStruct | examples/rt_reflections/rt_reflections.cpp:405-462 | One opaque BLAS per mesh. One mask-1 instance per mesh instance, with its contribution. The TLAS is sized to that list. |
| RtReflections.RtReflectionsSample.BackBufferResizing | examples/rt_reflections/rt_reflections.cpp:464-470 | Drops the targets. |
| RtReflections.RtReflectionsSample.Render | examples/rt_reflections/rt_reflections.cpp:472-540 | Creates missing targets at the framebuffer size. One ray per pixel. |
| RtBindless.UpdatedSkinnedMeshes | examples/rt_bindless/rt_bindless.cpp:361-381 | Selects at most one mesh per skinned instance. |
| RtBindless.UpdatedSkinnedMeshesExact | examples/rt_bindless/rt_bindless.cpp:361-381 | A mesh is rebuilt exactly when some skinned instance of it was updated this frame or later. |
| RtBindless.RtBindlessSample.constructor | examples/rt_bindless/rt_bindless.cpp:176 | Animations on, no BLASes. |
| RtBindless.RtBindlessSample.KeyboardUpdate | examples/rt_bindless/rt_bindless.cpp:176-187 | A space press toggles the animations. |
| RtBindless.RtBindlessSample.Animate | examples/rt_bindless/rt_bindless.cpp:207-228 | The clock advances only with a loaded scene and animations on. |
| RtBindless.RtBindlessSample.GetMeshBlasDesc | examples/rt_bindless/rt_bindless.cpp:294-328 | One geometry per mesh geometry, flagged None exactly when alpha-tested. Compaction exactly without a skin prototype. |
| RtBindless.RtBindlessSample.CreateAccelStructs | examples/rt_bindless/rt_bindless.cpp:330-354 | Every mesh without joint weights gets a BLAS, built at once only if not skinned. The TLAS holds every instance. |
| RtBindless.RtBindlessSample.BuildTLAS | examples/rt_bindless/rt_bindless.cpp:356-408 | Both loops handle the same updated skinned meshes. One mask-1 instance per mesh instance, with its instance index as ID. |
| DeferredShadingSample.ConsecutiveOffsets | examples/deferred_shading/deferred_shading.cpp:88-93 | Each offset is the sum of the sizes before it. |
| DeferredShadingSample.ConsecutiveRangesDisjoint | examples/deferred_shading/deferred_shading.cpp:88-99 | Ranges do not overlap, and all lie inside the total. |
| DeferredShadingSample.SumSizesPrefix | examples/deferred_shading/deferred_shading.cpp:88-93 | A prefix never sums to more than the whole. |
| DeferredShadingSample.LayoutVertexBuffer | examples/deferred_shading/deferred_shading.cpp:88-93 | Position, texcoord, normal and tangent ranges sized by their tables, end to end, and 672 bytes in all. |
| DeferredShadingSample.CreateGeometryBuffer | examples/deferred_shading/deferred_shading.cpp:183-210 | An index buffer exactly when neither vertex nor instance buffer. Raw views exactly for those two. Structured only for instances off D3D11. The final state is set exactly with data. |
| DeferredShadingSample.SimpleScene.constructor | examples/deferred_shading/deferred_shading.cpp:81 | No buffers and no mesh. |
| DeferredShadingSample.SimpleScene.Init | examples/deferred_shading/deferred_shading.cpp:81-159 | Creates the three buffers and writes every table at its range. Fails exactly when the texture did not load. Otherwise the mesh has 36 indices and 24 vertices, and its totals equal them. |
| DeferredShadingSample.SceneBufferRoles | examples/deferred_shading/deferred_shading.cpp:183-210 | Among the scene's buffers, only the index buffer is one. Vertex and instance allow raw views. Only the instance buffer is structured. |
| DeferredShadingSample.NeedsNewTargets | examples/deferred_shading/deferred_shading.cpp:306 | Exactly when there are none or the size differs. |
| DeferredShadingSample.DeferredShading.constructor | examples/deferred_shading/deferred_shading.cpp:286 | No targets, no pass, no rotation. |
| DeferredShadingSample.DeferredShading.Init | examples/deferred_shading/deferred_shading.cpp:286 | Starts exactly when the scene initialises. |
| DeferredShadingSample.DeferredShading.Animate | examples/deferred_shading/deferred_shading.cpp:289-293 | The rotation advances by 1.1 radians per second. |
| DeferredShadingSample.DeferredShading.Render | examples/deferred_shading/deferred_shading.cpp:300-338 | Recreates the targets exactly when missing or resized, dropping the G-buffer pass, which is then recreated. |
| CubeGeometry.TableSizes | examples/deferred_shading/CubeGeometry.h:25-160 | 24 entries per vertex table, 36 indices. |
| CubeGeometry.IndicesInRange | examples/deferred_shading/CubeGeometry.h:153-160 | Every index is below 24. |
| CubeGeometry.FaceIndices | examples/deferred_shading/CubeGeometry.h:153-160 | Index i is 4(i/6) plus corner i mod 6 of (0,1,2,0,3,1). |
| CubeGeometry.FaceIndexAt | examples/deferred_shading/CubeGeometry.h:153-160 | Face f's indices are exactly 4f, 4f+1, 4f+2, 4f, 4f+3, 4f+1. |
| CubeGeometry.FaceIndicesStayInFace | examples/deferred_shading/CubeGeometry.h:153-160 | Indices 6f..6f+5 name only vertices 4f..4f+3. |
| CubeGeometry.TexCoordsAreCorners | examples/deferred_shading/CubeGeometry.h:57-87 | Every texcoord component is 0 or 1. |
| CubeGeometry.FaceNormalsShared | examples/deferred_shading/CubeGeometry.h:89-151 | A face's four normals are identical, and so are its four tangents. |
| CubeGeometry.VerticesOnFacePlane | examples/deferred_shading/CubeGeometry.h:25-119 | Each vertex lies half a unit along its face's normal. |
| CubeGeometry.TangentsInFacePlane | examples/deferred_shading/CubeGeometry.h:89-151 | Each tangent is perpendicular to its face's normal. |
| VertexBufferSample.AttributesFitVertex | examples/vertex_buffer/vertex_buffer.cpp:124-135 | Both attributes lie inside one vertex and do not overlap. The stride is the vertex size. |
| VertexBufferSample.SameCubeAsDeferredShading | examples/vertex_buffer/vertex_buffer.cpp:42-81 | The same positions, texcoords and indices as the deferred-shading cube. |
| VertexBufferSample.VertexTables | examples/vertex_buffer/vertex_buffer.cpp:42-81 | 24 vertices and 36 indices, all below 24. Indices 6f..6f+5 name only vertices 4f..4f+3. UVs are 0 or 1. |
| VertexBufferSample.VertexBufferDesc | examples/vertex_buffer/vertex_buffer.cpp:145-154 | 480 bytes, a vertex buffer. |
| VertexBufferSample.IndexBufferDesc | examples/vertex_buffer/vertex_buffer.cpp:156-165 | 144 bytes, an index buffer. |
| VertexBufferSample.Init | examples/vertex_buffer/vertex_buffer.cpp:102-195 | Succeeds exactly when shaders, texture and binding set exist. Then each buffer is as large as its table and in its permanent state. |
| VertexBufferSample.FrameDrawStaysInBuffers | examples/vertex_buffer/vertex_buffer.cpp:238-248 | 36 R32_UINT indices, reading the whole index buffer. Every vertex fetched lies inside the vertex buffer. |
| HeadlessTest.BufferSizes | examples/headless/headless.cpp:46-72 | 256 uint32 inputs in 1024 bytes. The readback is the 4-byte output. |
| HeadlessTest.FillInput | examples/headless/headless.cpp:104-110 | input[i] = i+1. The sum is 256·257/2 = 32896, with no uint32 wrap. |
| HeadlessTest.RunTest | examples/headless/headless.cpp:32-150 | Passes exactly when shader and binding set exist and the result equals 32896. |
| CTypes.Align | feature_demo/FeatureDemo.cpp:171 | `nvrhi::align` for the power-of-two alignments the samples pass: the least multiple of a at or above x. |

## Left out

- Debug `assert`s and undefined-behaviour guards of the C++ become preconditions, and what a release build does after such a check fails is not modelled. This covers WorkGraphsMesh.GenerateSide, GenerateBox, GenerateSphere, CreateBoxMesh and CreateSphereMesh (the vertex-count assert before each block, and at least 3 sides and 2 slices); RtReflections.RtReflectionsSample.CreateRayTracingPipeline and RtReflections.HitGroupsAtGlobalIndex (the assert that geometry global indices follow traversal order); RtReflections.RtReflectionsSample.CreateAccelStruct (the unchecked `geometries[0]` of each instance's mesh); RtShadows.RtShadowsSample.CreateAccelStruct (instances refer to meshes of the scene); VariableShading.VariableShadingApp.constructor (a non-zero shading-rate tile size, the divisor the device reports); RtBindless.RtBindlessSample.BuildTLAS (the assert that every instance's mesh has a BLAS); and FeatureDemoSample.FeatureDemo.constructor (a scene name is given or scene files are found, where the C++ calls `log::fatal`). Every call site in the samples meets these conditions. The wrap a failed block guard would admit is exhibited separately by WorkGraphsMesh.SideGuardAdmitsWrap and SphereGuardAdmitsWrap.
- WorkGraphsRenderer.WorkGraphs.PopulateAnimationPass and WorkGraphsRenderer.WorkGraphs.Render model the corrected program of the dispatch-split and backing-memory Findings rows, not the sample as written. The animation dispatch uses the covering split; at 65535 groups or more, the sample dispatches fewer groups, as DispatchSplitAsWrittenDropsGroups shows. Render reloads with the corrected LoadWorkGraphPipelines; the sample launches on new memory without initialising it after a resize, as ResizeAsWritten shows.
- CTypes.Align: models `nvrhi::align` as rounding up to a multiple. That is the value nvrhi's bit-mask rounding gives only for power-of-two alignments. Those are the only alignments the feature demo passes, and nvrhi's own definition is not part of this model.
- Graphics-API and engine calls (device creation, command lists, pipelines, shaders, binding sets, state objects, texture loading) are left out. Their outcomes enter as parameters: shader, binding set or library created, texture loaded, GPU results read back. In the work-graphs sample, WorkGraphsRenderer.WorkGraphs.LoadScenePipelines, LoadWorkGraphPipelines, LoadWorkGraphPipelinesAsWritten and Render take whether each reload step obtains its objects, and they model the flags and buffer size a failure leaves behind. They do not model the pipeline or state-object handles that a failed step may have partly replaced, or what later frames draw with them.
- Floating point: positions, normals, colours, times, ages and the particle opacity are `real`, with no rounding. Sphere trigonometry, camera and projection matrices, particle quad orientation, and the feature demo's float mip count are left out. RtParticles.ParticleInfo leaves out `inverseRadius` (a float reciprocal of the radius) and `textureIndex` (the particle texture's bindless descriptor, a graphics-API value), rt_particles.cpp:392-393.
- `rand()` and `srand(0)` are replaced by stream parameters. The generator itself is not modelled.
- The taskflow fan-out and asynchronous scene loading are modelled as an order of recorded faces only.
- ImGui UI bodies, window plumbing, screenshots and file dialogs are left out, except the two UI constraints.
- The union aliasing in `Scene::Material` (scene.h) and the write through the wrong member are left out. Materials carry a colour tag and a type only.
- `vectorToSnorm8` is left out: the cube's normals and tangents are kept unpacked.
- `sizeof(InstanceData)` is a parameter.
- Heap sizes in the feature demo are unbounded integers: uint64 overflow of the packed heap is not modelled.
- CubeGeometry: the triangle winding of each face is not proved.
- WorkGraphsRenderer.LightTileCountX: the ceiling property is stated only where (w+7) does not wrap as a uint32. CulledLightsPerTile states it for every texture size.
- RtParticles.TlasCapacitySuffices: states the bound only where scene instances + 1024 fits a uint32.
- FeatureDemoSample.FeatureDemo.RenderScene: covers the state transitions of a frame, not the rendering passes themselves.
- DeferredShadingSample.DeferredShading: `BackBufferResizing` is empty in the source and has no member. The draw item's cull mode is left out.
- VertexBufferSample: the `m_Rotation` and `m_Pipeline` updates in `Animate` and `BackBufferResizing` are left out.
- RtBindless.RtBindlessSample.Animate: the per-mesh animation offsets are left out; only the clock is modelled.
- `IsUpdateRequired` of rt_reflections and rt_shadows is modelled once, in `RtScene`. rt_reflections' `Render` only creates targets when absent, as written.
- The D3D11 rejection and feature queries in variable_shading's `main` and `Init` are left out, except the API selection of the raw path.
- The bindless_rendering, rt_triangle, meshlets, shader_specializations and aftermath samples are left out. They only create pipelines and submit draws, or deliberately crash the device.

## Findings

| source | as written | input that shows it | evidently intended | confidence | as-written member | corrected member |
|---|---|---|---|---|---|---|
| examples/work_graphs/work_graphs_d3d12.cpp:637-643 | The animation dispatch is split as X = max(groups % 65535, 1), Y = max(groups / 65535, 1). | groups = 65535 (2,097,120 objects): the dispatch is (1, 1), so one group of 32 threads instead of 65535 groups. | X = min(groups, 65535), Y = ⌈groups / 65535⌉, so that X·Y covers every group. | not executed | WorkGraphsRenderer.DispatchSplitAsWrittenDropsGroups | WorkGraphsRenderer.DispatchSplit |
| examples/work_graphs/scene.cpp:400 | Before each box side and each sphere, the code asserts only that the vertex count so far is below 0xFFFF. | 65534 vertices present, then a side with one subdivision: its second index is truncated to 0, a vertex of another block. The same happens for a sphere with 3 sides and 2 slices. | The whole block, base plus its vertex count, must fit in 65536 vertices, so that no uint16 index wraps. | not executed | WorkGraphsMesh.SideGuardAdmitsWrap | WorkGraphsMesh.SideIndicesInBlock |
| examples/work_graphs/work_graphs_d3d12.cpp:488-579 | Reloading after a resize creates new work-graph backing memory without setting `m_InitWorkGraphBackingMemory`. | A resize after the first work-graph frame: the next launch runs on new, uninitialised backing memory without the INITIALIZE flag. | Setting the flag whenever new backing memory is created. | not executed | WorkGraphsRenderer.ResizeAsWritten | WorkGraphsRenderer.ResizeInitializes |
| feature_demo/FeatureDemo.cpp:1601-1610 | `-width` or `-height` as the last argument reads `argv[argc]`, which is null, into `std::stoi`. | `feature_demo -width`: the process ends instead of `ProcessCommandLine` returning false. | Rejecting a missing value so that `main` reports a bad command line. | not executed | FeatureDemoSample.MissingWidthTerminates | FeatureDemoSample.ProcessCommandLine |
