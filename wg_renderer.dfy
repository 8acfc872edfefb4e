/**
 * Per-frame bookkeeping of the work-graphs renderer (class WorkGraphs):
 * light-tile counts and the culled-lights buffer size, the ring of GPU
 * timers and the search for the last finished one, the technique switch and
 * the work-graph backing-memory flag, the size of the animation dispatches
 * and the draw loop of the G-buffer pass.
 *
 * Device, command-list and D3D12 calls are not modelled; what the renderer
 * hands to them (dispatch sizes, draws, launch flags) is returned as values.
 * Whether a timer query has finished and the time it measured come from the
 * device and are parameters. Times are `real`: float rounding is not modelled.
 */
module WorkGraphsRenderer {
  import opened CTypes
  import opened Wrappers
  import WorkGraphsScene
  import WorkGraphsMesh

  type MeshType = WorkGraphsScene.MeshType
  type Instance = WorkGraphsScene.Instance

  const MAX_LIGHTS_PER_TILE: nat := 64
  const TILE_WIDTH: nat := 8
  const TILE_HEIGHT: nat := 4
  const QUEUED_FRAMES_COUNT: nat := 10
  /** D3D12_CS_DISPATCH_MAX_THREAD_GROUPS_PER_DIMENSION. */
  const MAX_GROUPS_PER_DIMENSION: nat := 65535
  /** Threads per group of the object and light animation shaders. */
  const ANIMATION_THREADS_X: nat := 32
  /** Largest width or height of a Direct3D 12 two-dimensional texture. */
  const MAX_TEXTURE_DIMENSION: nat := 16384

  // ---------------------------------------------------------------------------
  // Light tiles

  /** `(width + 7) / 8` in uint32 arithmetic: the tiles covering a row. */
  function LightTileCountX(width: nat): (tiles: nat)
    requires IsU32(width)
    ensures width + TILE_WIDTH - 1 < U32_LIMIT ==> TILE_WIDTH * tiles >= width > TILE_WIDTH * (tiles - 1)
  {
    U32(width + TILE_WIDTH - 1) / TILE_WIDTH
  }

  /** `(height + 3) / 4` in uint32 arithmetic: the tiles covering a column. */
  function LightTileCountY(height: nat): (tiles: nat)
    requires IsU32(height)
    ensures height + TILE_HEIGHT - 1 < U32_LIMIT ==> TILE_HEIGHT * tiles >= height > TILE_HEIGHT * (tiles - 1)
  {
    U32(height + TILE_HEIGHT - 1) / TILE_HEIGHT
  }

  /** Where the rounding sums do not wrap, the per-axis tile counts are the ceilings. */
  lemma TileCountsAreCeilings(width: nat, height: nat)
    requires IsU32(width) && IsU32(height)
    ensures width + TILE_WIDTH - 1 < U32_LIMIT ==> LightTileCountX(width) == CeilDiv(width, TILE_WIDTH)
    ensures height + TILE_HEIGHT - 1 < U32_LIMIT ==> LightTileCountY(height) == CeilDiv(height, TILE_HEIGHT)
  {
    if width + TILE_WIDTH - 1 < U32_LIMIT {
      CeilDivUnique(width, TILE_WIDTH, LightTileCountX(width));
    }
    if height + TILE_HEIGHT - 1 < U32_LIMIT {
      CeilDivUnique(height, TILE_HEIGHT, LightTileCountY(height));
    }
  }

  /** `tileCountX * tileCountY` in uint32: where neither rounding sum nor the
    * product wraps, the number of 8x4 tiles that cover the framebuffer. */
  function LightTileCount(width: nat, height: nat): (tiles: nat)
    requires IsU32(width) && IsU32(height)
    ensures IsU32(tiles)
    ensures width + TILE_WIDTH - 1 < U32_LIMIT && height + TILE_HEIGHT - 1 < U32_LIMIT
      && CeilDiv(width, TILE_WIDTH) * CeilDiv(height, TILE_HEIGHT) < U32_LIMIT
      ==> tiles == CeilDiv(width, TILE_WIDTH) * CeilDiv(height, TILE_HEIGHT)
  {
    TileCountsAreCeilings(width, height);
    U32(LightTileCountX(width) * LightTileCountY(height))
  }

  /** `tileCount * 64 * sizeof(UINT32)`: the product with 64 is taken in
    * uint32, the one with the size in 64 bits. Where nothing wraps, the buffer
    * holds 64 uint32 light slots for each covering tile. */
  function CulledLightsBufferSize(width: nat, height: nat): (bytes: nat)
    requires IsU32(width) && IsU32(height)
    ensures bytes % SIZEOF_UINT32 == 0
    ensures width + TILE_WIDTH - 1 < U32_LIMIT && height + TILE_HEIGHT - 1 < U32_LIMIT
      && CeilDiv(width, TILE_WIDTH) * CeilDiv(height, TILE_HEIGHT) * MAX_LIGHTS_PER_TILE < U32_LIMIT
      ==> bytes == CeilDiv(width, TILE_WIDTH) * CeilDiv(height, TILE_HEIGHT) * MAX_LIGHTS_PER_TILE * SIZEOF_UINT32
  {
    SlotCountNoWrap(width, height);
    U32(LightTileCount(width, height) * MAX_LIGHTS_PER_TILE) * SIZEOF_UINT32
  }

  /** Where the slot count fits a uint32, so does the tile count, and neither product wraps. */
  lemma SlotCountNoWrap(width: nat, height: nat)
    requires IsU32(width) && IsU32(height)
    ensures width + TILE_WIDTH - 1 < U32_LIMIT && height + TILE_HEIGHT - 1 < U32_LIMIT
      && CeilDiv(width, TILE_WIDTH) * CeilDiv(height, TILE_HEIGHT) * MAX_LIGHTS_PER_TILE < U32_LIMIT
      ==> (U32(LightTileCount(width, height) * MAX_LIGHTS_PER_TILE)
          == CeilDiv(width, TILE_WIDTH) * CeilDiv(height, TILE_HEIGHT) * MAX_LIGHTS_PER_TILE)
  {
    var t := CeilDiv(width, TILE_WIDTH) * CeilDiv(height, TILE_HEIGHT);
    if width + TILE_WIDTH - 1 < U32_LIMIT && height + TILE_HEIGHT - 1 < U32_LIMIT && t * MAX_LIGHTS_PER_TILE < U32_LIMIT {
      MulLe(1, MAX_LIGHTS_PER_TILE, t);
      assert t < U32_LIMIT;
      assert LightTileCount(width, height) == t;
    }
  }

  /** For any framebuffer a texture can have, nothing wraps: the buffer holds
    * exactly 64 uint32 light slots for each of the ceil(w/8) * ceil(h/4) tiles. */
  lemma CulledLightsPerTile(width: nat, height: nat)
    requires width <= MAX_TEXTURE_DIMENSION && height <= MAX_TEXTURE_DIMENSION
    ensures LightTileCountX(width) == CeilDiv(width, TILE_WIDTH)
    ensures LightTileCountY(height) == CeilDiv(height, TILE_HEIGHT)
    ensures LightTileCount(width, height) == CeilDiv(width, TILE_WIDTH) * CeilDiv(height, TILE_HEIGHT)
    ensures CulledLightsBufferSize(width, height) == LightTileCount(width, height) * MAX_LIGHTS_PER_TILE * SIZEOF_UINT32
  {
    var x: int, y: int := LightTileCountX(width), LightTileCountY(height);
    CeilDivUnique(width, TILE_WIDTH, x);
    CeilDivUnique(height, TILE_HEIGHT, y);
    var t: int := x * y;
    assert 0 <= t <= 2048 * 4096 by {
      MulLe(0, x, y);
      MulLe(x, 2048, y);
      MulLe(y, 4096, 2048);
    }
    assert IsU32(t);
    assert LightTileCount(width, height) == U32(t) == t;
    assert U32(t * MAX_LIGHTS_PER_TILE) == t * MAX_LIGHTS_PER_TILE;
  }

  /** The deferred-shading dispatch of the compute technique, one 8x4 group
    * per tile: `((w + 7) / 8, (h + 3) / 4)` on the render-target size. */
  function DeferredShadingGroups(width: nat, height: nat): (groups: (nat, nat))
  {
    ((width + TILE_WIDTH - 1) / TILE_WIDTH, (height + TILE_HEIGHT - 1) / TILE_HEIGHT)
  }

  /** Shading covers the same grid as light culling, one group per tile. */
  lemma ShadingMatchesTiles(width: nat, height: nat)
    requires width <= MAX_TEXTURE_DIMENSION && height <= MAX_TEXTURE_DIMENSION
    ensures DeferredShadingGroups(width, height) == (LightTileCountX(width), LightTileCountY(height))
    ensures DeferredShadingGroups(width, height) == (CeilDiv(width, TILE_WIDTH), CeilDiv(height, TILE_HEIGHT))
  {
    CulledLightsPerTile(width, height);
  }

  // ---------------------------------------------------------------------------
  // The timer ring

  /** A timer query as the device reports it: whether it has finished, and
    * the time it measured, in seconds. */
  datatype TimerQuery = TimerQuery(ready: bool, seconds: real)

  /** hi, hi - 1, ..., lo. */
  function Descending(hi: int, lo: nat): (r: seq<nat>)
    ensures |r| == if hi < lo then 0 else hi - lo + 1
    ensures forall k :: 0 <= k < |r| ==> r[k] == hi - k
    decreases hi - lo
  {
    if hi < lo then [] else [hi as nat] + Descending(hi - 1, lo)
  }

  /** The slots GetLastValidQueryTimer polls, in order: next - 1 down to 0,
    * then 9 down to next + 1. */
  function SearchOrder(next: nat): seq<nat>
    requires next < QUEUED_FRAMES_COUNT
  {
    Descending(next - 1, 0) + Descending(QUEUED_FRAMES_COUNT - 1, next + 1)
  }

  /** Position p of the search holds slot next - 1 - p, wrapping round
    * past slot 0 to slot 9. */
  lemma SearchOrderAt(next: nat)
    requires next < QUEUED_FRAMES_COUNT
    ensures |SearchOrder(next)| == QUEUED_FRAMES_COUNT - 1
    ensures forall p :: 0 <= p < next ==> SearchOrder(next)[p] == next - 1 - p
    ensures forall p :: next <= p < QUEUED_FRAMES_COUNT - 1 ==> SearchOrder(next)[p] == next + 9 - p
  {
    var o, tail := SearchOrder(next), Descending(QUEUED_FRAMES_COUNT - 1, next + 1);
    forall p | next <= p < QUEUED_FRAMES_COUNT - 1
      ensures o[p] == next + 9 - p
    {
      assert o[p] == tail[p - next];
    }
  }

  /** The search visits every slot but `next` once, from the most recent
    * frame backwards: position p holds the slot used p + 1 frames ago. */
  lemma SearchOrderRing(next: nat)
    requires next < QUEUED_FRAMES_COUNT
    ensures |SearchOrder(next)| == QUEUED_FRAMES_COUNT - 1
    ensures forall p :: 0 <= p < |SearchOrder(next)| ==> SearchOrder(next)[p] == (next + 9 - p) % 10
    ensures forall j :: 0 <= j < QUEUED_FRAMES_COUNT ==> (j in SearchOrder(next) <==> j != next)
  {
    SearchOrderAt(next);
    var o := SearchOrder(next);
    forall j | 0 <= j < QUEUED_FRAMES_COUNT && j != next
      ensures j in o
    {
      var p := if j < next then next - 1 - j else next + 9 - j;
      assert o[p] == j;
    }
  }

  /** A finished timer with none before it in the order is the one found. */
  lemma FirstReadyAt(timers: seq<TimerQuery>, order: seq<nat>, p: nat)
    requires forall k :: 0 <= k < |order| ==> order[k] < |timers|
    requires p < |order| && timers[order[p]].ready
    requires forall k :: 0 <= k < p ==> !timers[order[k]].ready
    ensures FirstReady(timers, order) == Some(p)
  {
  }

  /** The first position of `order` whose timer has finished. */
  function FirstReady(timers: seq<TimerQuery>, order: seq<nat>): (p: Option<nat>)
    requires forall k :: 0 <= k < |order| ==> order[k] < |timers|
    ensures p.None? <==> forall k :: 0 <= k < |order| ==> !timers[order[k]].ready
    ensures p.Some? ==> p.value < |order| && timers[order[p.value]].ready
    ensures p.Some? ==> forall k :: 0 <= k < p.value ==> !timers[order[k]].ready
  {
    if |order| == 0 then None
    else if timers[order[0]].ready then Some(0)
    else match FirstReady(timers, order[1..])
      case None => None
      case Some(q) => Some(q + 1)
  }

  /** The time of the most recent finished timer other than slot `next`, in
    * milliseconds, or -1 when none has finished. */
  function LastValidQueryTime(next: nat, timers: seq<TimerQuery>): real
    requires next < QUEUED_FRAMES_COUNT && |timers| == QUEUED_FRAMES_COUNT
  {
    SearchOrderAt(next);
    match FirstReady(timers, SearchOrder(next))
    case None => -1.0
    case Some(p) => timers[SearchOrder(next)[p]].seconds * 1000.0
  }

  /** A finished slot below `next` with none finished between it and `next`. */
  lemma LastValidBelowNext(next: nat, timers: seq<TimerQuery>, i: nat)
    requires i < next < QUEUED_FRAMES_COUNT && |timers| == QUEUED_FRAMES_COUNT
    requires timers[i].ready && forall j :: i < j < next ==> !timers[j].ready
    ensures LastValidQueryTime(next, timers) == timers[i].seconds * 1000.0
  {
    SearchOrderAt(next);
    FirstReadyAt(timers, SearchOrder(next), next - 1 - i);
  }

  /** A finished slot above `next`, when no slot below `next` and none above
    * this one has finished. */
  lemma LastValidAboveNext(next: nat, timers: seq<TimerQuery>, i: nat)
    requires next < i < QUEUED_FRAMES_COUNT && |timers| == QUEUED_FRAMES_COUNT
    requires timers[i].ready && forall j :: 0 <= j < next || i < j < QUEUED_FRAMES_COUNT ==> !timers[j].ready
    ensures LastValidQueryTime(next, timers) == timers[i].seconds * 1000.0
  {
    SearchOrderAt(next);
    var order := SearchOrder(next);
    forall k | 0 <= k < next + 9 - i
      ensures !timers[order[k]].ready
    {
      if k < next {
        assert order[k] == next - 1 - k;
      } else {
        assert order[k] == next + 9 - k;
      }
    }
    FirstReadyAt(timers, order, next + 9 - i);
  }

  /** No slot other than `next` has finished. */
  lemma LastValidNone(next: nat, timers: seq<TimerQuery>)
    requires next < QUEUED_FRAMES_COUNT && |timers| == QUEUED_FRAMES_COUNT
    requires forall j :: 0 <= j < QUEUED_FRAMES_COUNT && j != next ==> !timers[j].ready
    ensures LastValidQueryTime(next, timers) == -1.0
  {
    SearchOrderAt(next);
    var order := SearchOrder(next);
    forall k | 0 <= k < |order|
      ensures !timers[order[k]].ready
    {
      if k < next {
        assert order[k] == next - 1 - k;
      } else {
        assert order[k] == next + 9 - k;
      }
    }
  }

  // ---------------------------------------------------------------------------
  // Dispatch sizes

  /** The split of PopulateAnimationPass as written: `max(total % 65535, 1)`
    * groups in X and `max(total / 65535, 1)` in Y. */
  function DispatchSplitAsWritten(total: nat): (groups: (nat, nat))
    ensures groups.0 >= 1 && groups.1 >= 1
    ensures 1 <= total < MAX_GROUPS_PER_DIMENSION ==> groups == (total, 1)
  {
    (Max(total % MAX_GROUPS_PER_DIMENSION, 1), Max(total / MAX_GROUPS_PER_DIMENSION, 1))
  }

  function Max(a: nat, b: nat): nat
  {
    if a < b then b else a
  }

  /** 65535 groups are dispatched as a single group. */
  lemma DispatchSplitAsWrittenDropsGroups()
    ensures DispatchSplitAsWritten(MAX_GROUPS_PER_DIMENSION) == (1, 1)
    ensures DispatchSplitAsWritten(MAX_GROUPS_PER_DIMENSION).0 * DispatchSplitAsWritten(MAX_GROUPS_PER_DIMENSION).1 < MAX_GROUPS_PER_DIMENSION
  {
  }

  /** A split that covers every group: full rows of 65535 in X, and as many
    * rows in Y as needed. */
  function DispatchSplit(total: nat): (groups: (nat, nat))
    ensures 1 <= groups.0 <= MAX_GROUPS_PER_DIMENSION && groups.1 >= 1
    ensures groups.0 * groups.1 >= total
    ensures groups.1 == 1 || groups.0 * (groups.1 - 1) < total
    ensures total <= MAX_GROUPS_PER_DIMENSION ==> groups == (Max(total, 1), 1)
  {
    if total <= MAX_GROUPS_PER_DIMENSION then (Max(total, 1), 1)
    else (MAX_GROUPS_PER_DIMENSION, CeilDiv(total, MAX_GROUPS_PER_DIMENSION))
  }

  /** Below the per-dimension limit both splits agree. */
  lemma DispatchSplitAgrees(total: nat)
    requires total < MAX_GROUPS_PER_DIMENSION
    ensures DispatchSplit(total) == DispatchSplitAsWritten(total)
  {
  }

  /** The animation dispatch for n objects or lights, 32 threads per group. */
  function AnimationDispatch(n: nat): (groups: (nat, nat))
    ensures groups.0 * groups.1 * ANIMATION_THREADS_X >= n
  {
    var total := CeilDiv(n, ANIMATION_THREADS_X);
    assert DispatchSplit(total).0 * DispatchSplit(total).1 * ANIMATION_THREADS_X >= total * ANIMATION_THREADS_X;
    DispatchSplit(total)
  }

  /** The populated world: 351 objects need 11 groups and 144 lights 5, one
    * row each, the same as the split as written. */
  lemma WorldAnimationDispatch()
    ensures AnimationDispatch(351) == (11, 1) == DispatchSplitAsWritten(CeilDiv(351, ANIMATION_THREADS_X))
    ensures AnimationDispatch(144) == (5, 1) == DispatchSplitAsWritten(CeilDiv(144, ANIMATION_THREADS_X))
  {
    CeilDivUnique(351, ANIMATION_THREADS_X, 11);
    CeilDivUnique(144, ANIMATION_THREADS_X, 5);
  }

  // ---------------------------------------------------------------------------
  // Recorded passes

  /** One draw of the G-buffer pass: the mesh whose buffers are bound first
    * (None when the state is kept), the object index pushed as a constant,
    * and the number of indices drawn. */
  datatype Draw = Draw(rebind: Option<MeshType>, pushConstant: nat, indexCount: nat)

  /** One draw per object in list order, pushing its index and drawing all
    * of its mesh's indices; buffers are rebound exactly when the mesh type
    * differs from the previous object's. */
  predicate IsGBufferDrawList(objects: seq<Instance>, meshIndexCount: MeshType -> nat, draws: seq<Draw>)
  {
    |draws| == |objects| &&
    forall i :: 0 <= i < |draws| ==> DrawOf(objects, meshIndexCount, i, draws[i])
  }

  /** The draw recorded for object i. */
  predicate DrawOf(objects: seq<Instance>, meshIndexCount: MeshType -> nat, i: nat, draw: Draw)
    requires i < |objects|
  {
    draw.pushConstant == U32(i) &&
    draw.indexCount == U32(meshIndexCount(objects[i].meshType)) &&
    (draw.rebind.Some? <==> (i == 0 || objects[i].meshType != objects[i - 1].meshType)) &&
    (draw.rebind.Some? ==> draw.rebind.value == objects[i].meshType)
  }

  datatype AnimationPass = AnimationPass(resetAnim: bool, objectGroups: (nat, nat), lightGroups: (nat, nat))

  /** A work-graph launch: whether it asked for the backing memory to be
    * initialised, and whether that memory had not been initialised for the
    * graph yet. */
  datatype WorkGraphLaunch = WorkGraphLaunch(initialize: bool, memoryUninitialized: bool, lightCount: nat)

  datatype Shading =
    | ComputeShading(cullGroups: (nat, nat), shadeGroups: (nat, nat))
    | WorkGraphShading(launch: WorkGraphLaunch)

  datatype Frame = Frame(timerSlot: nat, reloaded: bool, culledLightsBytes: Option<nat>,
                         animation: AnimationPass, draws: seq<Draw>, shading: Shading)

  datatype Technique = WorkGraphBroadcastingLaunch | Dispatch

  /** What the options window feeds back each frame. */
  datatype UIData = UIData(currentTechnique: Technique, paused: bool, resetAnim: bool)

  /** `any(m_Size != size)`. */
  function IsUpdateRequired(stored: (nat, nat), size: (nat, nat)): (r: bool)
    ensures r <==> stored != size
  {
    stored.0 != size.0 || stored.1 != size.1
  }

  class WorkGraphs {
    var nextTimerToUse: int
    var currentTechnique: Technique
    var initWorkGraphBackingMemory: bool
    var forceResetAnimation: bool
    var timeInSeconds: real
    var timeDiffThisFrame: real
    /** The size of the render targets, None while there are none. */
    var renderTargetSize: Option<(nat, nat)>
    /** Whether the current backing memory has been initialised for the work
      * graph: state of the device, kept to state what the flag is for. */
    var backingMemoryInitialized: bool

    /** The timer index stays in the ring, and the flag is set whenever the
      * backing memory still needs initialising. */
    predicate Valid()
      reads this
    {
      0 <= nextTimerToUse < QUEUED_FRAMES_COUNT &&
      (!backingMemoryInitialized ==> initWorkGraphBackingMemory)
    }

    constructor ()
      ensures Valid()
      ensures nextTimerToUse == 0 && currentTechnique == WorkGraphBroadcastingLaunch
      ensures initWorkGraphBackingMemory && forceResetAnimation
      ensures timeInSeconds == 0.0 && timeDiffThisFrame == 0.0
      ensures renderTargetSize == None && !backingMemoryInitialized
    {
      nextTimerToUse := 0;
      currentTechnique := WorkGraphBroadcastingLaunch;
      initWorkGraphBackingMemory := true;
      forceResetAnimation := true;
      timeInSeconds := 0.0;
      timeDiffThisFrame := 0.0;
      renderTargetSize := None;
      backingMemoryInitialized := false;
    }

    /** Polls slots next - 1 down to 0, then 9 down to next + 1, and returns
      * the first finished timer's time in milliseconds, or -1. */
    method GetLastValidQueryTimer(timers: seq<TimerQuery>) returns (ms: real)
      requires 0 <= nextTimerToUse < QUEUED_FRAMES_COUNT && |timers| == QUEUED_FRAMES_COUNT
      ensures ms == LastValidQueryTime(nextTimerToUse, timers)
    {
      var next := nextTimerToUse;
      var i := next - 1;
      while i >= 0
        invariant -1 <= i < next
        invariant forall j :: i < j < next ==> !timers[j].ready
      {
        if timers[i].ready {
          LastValidBelowNext(next, timers, i);
          return timers[i].seconds * 1000.0;
        }
        i := i - 1;
      }
      i := QUEUED_FRAMES_COUNT - 1;
      while i > next
        invariant next <= i < QUEUED_FRAMES_COUNT
        invariant forall j :: 0 <= j < next || i < j < QUEUED_FRAMES_COUNT ==> !timers[j].ready
      {
        if timers[i].ready {
          LastValidAboveNext(next, timers, i);
          return timers[i].seconds * 1000.0;
        }
        i := i - 1;
      }
      LastValidNone(next, timers);
      return -1.0;
    }

    /** Advances the clock unless paused, restarts it on a reset, switches
      * technique (asking for the backing memory to be initialised again) and
      * reads back the last finished frame and shading timers. */
    method Animate(elapsed: real, ui: UIData, frameTimers: seq<TimerQuery>, shadingTimers: seq<TimerQuery>)
      returns (gpuFrameMs: real, gpuShadingMs: real)
      requires Valid()
      requires |frameTimers| == QUEUED_FRAMES_COUNT && |shadingTimers| == QUEUED_FRAMES_COUNT
      modifies this`timeInSeconds, this`timeDiffThisFrame, this`currentTechnique, this`initWorkGraphBackingMemory
      ensures Valid()
      ensures old(forceResetAnimation) || ui.resetAnim ==> timeInSeconds == 0.0 && timeDiffThisFrame == 0.0
      ensures !(old(forceResetAnimation) || ui.resetAnim) ==>
        if ui.paused then timeInSeconds == old(timeInSeconds) && timeDiffThisFrame == 0.0
        else timeInSeconds == old(timeInSeconds) + elapsed && timeDiffThisFrame == elapsed
      ensures currentTechnique == ui.currentTechnique
      ensures initWorkGraphBackingMemory == (old(initWorkGraphBackingMemory) || old(currentTechnique) != ui.currentTechnique)
      ensures gpuFrameMs == LastValidQueryTime(nextTimerToUse, frameTimers)
      ensures gpuShadingMs == LastValidQueryTime(nextTimerToUse, shadingTimers)
    {
      if !ui.paused {
        timeDiffThisFrame := elapsed;
        timeInSeconds := timeInSeconds + elapsed;
      } else {
        timeDiffThisFrame := 0.0;
      }
      var resetAnim := forceResetAnimation || ui.resetAnim;
      if resetAnim {
        timeInSeconds, timeDiffThisFrame := 0.0, 0.0;
      }
      if currentTechnique != ui.currentTechnique {
        currentTechnique := ui.currentTechnique;
        initWorkGraphBackingMemory := true;
      }
      gpuFrameMs := GetLastValidQueryTimer(frameTimers);
      gpuShadingMs := GetLastValidQueryTimer(shadingTimers);
    }

    /** Drops the render targets; the next frame recreates them. */
    method BackBufferResizing()
      modifies this`renderTargetSize
      ensures renderTargetSize == None
    {
      renderTargetSize := None;
    }

    /** Scene pipelines for new render targets: the culled-lights buffer is
      * sized for the new tile grid and the animation must start over.
      * `shadersCreated` is whether the shader factory produced all six
      * shaders; without them the method returns false before creating any
      * buffer or requesting the reset. */
    method LoadScenePipelines(width: nat, height: nat, shadersCreated: bool) returns (ok: bool, culledLightsBytes: Option<nat>)
      requires IsU32(width) && IsU32(height)
      modifies this`forceResetAnimation
      ensures ok == shadersCreated
      ensures ok ==> forceResetAnimation && culledLightsBytes == Some(CulledLightsBufferSize(width, height))
      ensures !ok ==> forceResetAnimation == old(forceResetAnimation) && culledLightsBytes.None?
    {
      if !shadersCreated {
        return false, None;
      }
      culledLightsBytes := Some(CulledLightsBufferSize(width, height));
      forceResetAnimation := true;
      ok := true;
    }

    /** The work graph for new render targets comes with newly created
      * backing memory, which must be initialised at the next launch.
      * `created` is whether the library, the device interface, the state
      * object and its property interfaces were all obtained; otherwise the
      * method returns false before replacing the backing memory. */
    method LoadWorkGraphPipelines(created: bool) returns (ok: bool)
      modifies this`backingMemoryInitialized, this`initWorkGraphBackingMemory
      ensures ok == created
      ensures ok ==> !backingMemoryInitialized && initWorkGraphBackingMemory
      ensures !ok ==> backingMemoryInitialized == old(backingMemoryInitialized) &&
                      initWorkGraphBackingMemory == old(initWorkGraphBackingMemory)
    {
      if !created {
        return false;
      }
      backingMemoryInitialized := false;
      initWorkGraphBackingMemory := true;
      ok := true;
    }

    /** The same step as the sample writes it: the flag is left as it was. */
    method LoadWorkGraphPipelinesAsWritten(created: bool) returns (ok: bool)
      modifies this`backingMemoryInitialized
      ensures ok == created
      ensures backingMemoryInitialized == (!ok && old(backingMemoryInitialized))
    {
      if !created {
        return false;
      }
      backingMemoryInitialized := false;
      ok := true;
    }

    /** Object and light animation dispatches; the reset request is passed
      * to the shaders once and then cleared. */
    method PopulateAnimationPass(objectCount: nat, lightCount: nat, uiResetAnim: bool) returns (pass: AnimationPass)
      modifies this`forceResetAnimation
      ensures pass.resetAnim == (old(forceResetAnimation) || uiResetAnim)
      ensures pass.objectGroups.0 * pass.objectGroups.1 * ANIMATION_THREADS_X >= objectCount
      ensures pass.lightGroups.0 * pass.lightGroups.1 * ANIMATION_THREADS_X >= lightCount
      ensures pass.objectGroups == AnimationDispatch(objectCount) && pass.lightGroups == AnimationDispatch(lightCount)
      ensures CeilDiv(objectCount, ANIMATION_THREADS_X) < MAX_GROUPS_PER_DIMENSION ==>
        pass.objectGroups == DispatchSplitAsWritten(CeilDiv(objectCount, ANIMATION_THREADS_X))
      ensures CeilDiv(lightCount, ANIMATION_THREADS_X) < MAX_GROUPS_PER_DIMENSION ==>
        pass.lightGroups == DispatchSplitAsWritten(CeilDiv(lightCount, ANIMATION_THREADS_X))
      ensures !forceResetAnimation
    {
      if CeilDiv(objectCount, ANIMATION_THREADS_X) < MAX_GROUPS_PER_DIMENSION {
        DispatchSplitAgrees(CeilDiv(objectCount, ANIMATION_THREADS_X));
      }
      if CeilDiv(lightCount, ANIMATION_THREADS_X) < MAX_GROUPS_PER_DIMENSION {
        DispatchSplitAgrees(CeilDiv(lightCount, ANIMATION_THREADS_X));
      }
      var resetAnim := forceResetAnimation || uiResetAnim;
      pass := AnimationPass(resetAnim, AnimationDispatch(objectCount), AnimationDispatch(lightCount));
      forceResetAnimation := false;
    }

    /** One draw per world object, rebinding buffers only on a change of mesh type. */
    method PopulateGBufferPass(objects: seq<Instance>, meshIndexCount: MeshType -> nat) returns (draws: seq<Draw>)
      ensures IsGBufferDrawList(objects, meshIndexCount, draws)
    {
      draws := [];
      var lastMeshType: Option<MeshType> := None;
      var indexCount := 0;
      var objectIndex := 0;
      while objectIndex < |objects|
        invariant 0 <= objectIndex <= |objects|
        invariant |draws| == objectIndex
        invariant forall i :: 0 <= i < objectIndex ==> DrawOf(objects, meshIndexCount, i, draws[i])
        invariant objectIndex == 0 ==> lastMeshType.None?
        invariant objectIndex > 0 ==> lastMeshType == Some(objects[objectIndex - 1].meshType)
        invariant objectIndex > 0 ==> indexCount == U32(meshIndexCount(objects[objectIndex - 1].meshType))
      {
        var obj := objects[objectIndex];
        var rebind: Option<MeshType> := None;
        if lastMeshType != Some(obj.meshType) {
          lastMeshType := Some(obj.meshType);
          indexCount := U32(WorkGraphsMesh.IndexBufferSize(meshIndexCount(obj.meshType)) / SIZEOF_UINT16);
          rebind := Some(obj.meshType);
        }
        assert DrawOf(objects, meshIndexCount, objectIndex, Draw(rebind, U32(objectIndex), indexCount));
        draws := draws + [Draw(rebind, U32(objectIndex), indexCount)];
        objectIndex := objectIndex + 1;
      }
    }

    /** Launches the work graph, initialising the backing memory iff the
      * flag is set, then clears the flag. */
    method PopulateDeferredShadingWorkGraph(lightCount: nat) returns (launch: WorkGraphLaunch)
      modifies this`initWorkGraphBackingMemory, this`backingMemoryInitialized
      ensures launch == WorkGraphLaunch(old(initWorkGraphBackingMemory), !old(backingMemoryInitialized), lightCount)
      ensures old(Valid()) ==> launch.initialize || !launch.memoryUninitialized
      ensures !initWorkGraphBackingMemory
      ensures backingMemoryInitialized == (old(backingMemoryInitialized) || old(initWorkGraphBackingMemory))
    {
      launch := WorkGraphLaunch(initWorkGraphBackingMemory, !backingMemoryInitialized, lightCount);
      if initWorkGraphBackingMemory {
        backingMemoryInitialized := true;
      }
      initWorkGraphBackingMemory := false;
    }

    /** One frame: recreate the render targets and pipelines on the first
      * frame or a resize, animate, fill the G-buffer, shade with the current
      * technique, and move to the next timer slot. The two `Created`
      * parameters say whether each reload step obtains its shaders and
      * state objects; a failed step leaves its part of the state as it was. */
    method Render(width: nat, height: nat, objects: seq<Instance>, lightCount: nat,
                  meshIndexCount: MeshType -> nat, uiResetAnim: bool,
                  scenePipelinesCreated: bool, workGraphCreated: bool) returns (frame: Frame)
      requires Valid() && IsU32(width) && IsU32(height)
      modifies this
      ensures Valid()
      ensures nextTimerToUse == (old(nextTimerToUse) + 1) % QUEUED_FRAMES_COUNT
      ensures frame.timerSlot == old(nextTimerToUse)
      ensures renderTargetSize == Some((width, height))
      ensures frame.reloaded == (old(renderTargetSize).None? || IsUpdateRequired(old(renderTargetSize).value, (width, height)))
      ensures frame.reloaded && scenePipelinesCreated ==> frame.culledLightsBytes == Some(CulledLightsBufferSize(width, height))
      ensures !(frame.reloaded && scenePipelinesCreated) ==> frame.culledLightsBytes.None?
      ensures frame.animation.resetAnim == ((frame.reloaded && scenePipelinesCreated) || old(forceResetAnimation) || uiResetAnim)
      ensures frame.animation.objectGroups == AnimationDispatch(|objects|)
      ensures frame.animation.lightGroups == AnimationDispatch(lightCount)
      ensures CeilDiv(|objects|, ANIMATION_THREADS_X) < MAX_GROUPS_PER_DIMENSION ==>
        frame.animation.objectGroups == DispatchSplitAsWritten(CeilDiv(|objects|, ANIMATION_THREADS_X))
      ensures CeilDiv(lightCount, ANIMATION_THREADS_X) < MAX_GROUPS_PER_DIMENSION ==>
        frame.animation.lightGroups == DispatchSplitAsWritten(CeilDiv(lightCount, ANIMATION_THREADS_X))
      ensures !forceResetAnimation
      ensures IsGBufferDrawList(objects, meshIndexCount, frame.draws)
      ensures currentTechnique == old(currentTechnique)
      ensures currentTechnique == Dispatch ==>
        frame.shading == ComputeShading((LightTileCountX(width), LightTileCountY(height)), DeferredShadingGroups(width, height))
      ensures currentTechnique == WorkGraphBroadcastingLaunch ==>
        frame.shading.WorkGraphShading? &&
        frame.shading.launch.initialize == (old(initWorkGraphBackingMemory) || (frame.reloaded && workGraphCreated)) &&
        (frame.shading.launch.initialize || !frame.shading.launch.memoryUninitialized) &&
        !initWorkGraphBackingMemory
      ensures currentTechnique == Dispatch ==>
        initWorkGraphBackingMemory == (old(initWorkGraphBackingMemory) || (frame.reloaded && workGraphCreated))
      ensures timeInSeconds == old(timeInSeconds) && timeDiffThisFrame == old(timeDiffThisFrame)
    {
      var reloaded := renderTargetSize.None? || IsUpdateRequired(renderTargetSize.value, (width, height));
      var culledLightsBytes: Option<nat> := None;
      if reloaded {
        renderTargetSize := Some((width, height));
        // Both results are discarded, as in the sample.
        var sceneLoaded;
        sceneLoaded, culledLightsBytes := LoadScenePipelines(width, height, scenePipelinesCreated);
        var workGraphLoaded := LoadWorkGraphPipelines(workGraphCreated);
      }
      var slot := nextTimerToUse;
      var animation := PopulateAnimationPass(|objects|, lightCount, uiResetAnim);
      var draws := PopulateGBufferPass(objects, meshIndexCount);
      var shading;
      if currentTechnique == Dispatch {
        shading := ComputeShading((LightTileCountX(width), LightTileCountY(height)), DeferredShadingGroups(width, height));
      } else {
        var launch := PopulateDeferredShadingWorkGraph(lightCount);
        shading := WorkGraphShading(launch);
      }
      nextTimerToUse := (nextTimerToUse + 1) % QUEUED_FRAMES_COUNT;
      frame := Frame(slot, reloaded, culledLightsBytes, animation, draws, shading);
    }
  }

  /** Resizing after a work-graph frame, as written: the next launch runs on
    * new backing memory without asking for it to be initialised. */
  method ResizeAsWritten() returns (launch: WorkGraphLaunch)
    ensures launch.memoryUninitialized && !launch.initialize
  {
    var renderer := new WorkGraphs();
    var first := renderer.PopulateDeferredShadingWorkGraph(0);
    renderer.BackBufferResizing();
    var reloaded := renderer.LoadWorkGraphPipelinesAsWritten(true);
    launch := renderer.PopulateDeferredShadingWorkGraph(0);
  }

  /** With the flag set on reload, the launch after a resize initialises the
    * new backing memory. */
  method ResizeInitializes() returns (launch: WorkGraphLaunch)
    ensures launch.memoryUninitialized && launch.initialize
  {
    var renderer := new WorkGraphs();
    var first := renderer.PopulateDeferredShadingWorkGraph(0);
    renderer.BackBufferResizing();
    var reloaded := renderer.LoadWorkGraphPipelines(true);
    launch := renderer.PopulateDeferredShadingWorkGraph(0);
  }
}
