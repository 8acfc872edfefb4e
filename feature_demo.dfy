/**
 * The control logic of the feature demo: packing its render targets into one
 * heap, the anti-aliasing sample count and the render-target recreation rule,
 * the per-frame pass and temporal-history bookkeeping, the keyboard and mouse
 * handlers, first-match picking, the light-probe table, scene loading and
 * unloading, the UI's consistency constraints and the command-line parser.
 *
 * Device objects (textures, passes, views) are represented only by the facts
 * the control logic tests about them: whether they exist and what they were
 * created for.
 */
module FeatureDemoSample {
  import opened Wrappers
  import opened CTypes
  import Glfw

  // ---------------------------------------------------------------------
  // Render-target heap
  // ---------------------------------------------------------------------

  /** What the device reports for one texture: byte size and alignment. */
  datatype MemoryRequirements = MemoryRequirements(size: nat, alignment: nat)

  /** The render targets that share the heap, in the order they are bound. */
  datatype HeapTexture =
    | HdrColor | MaterialIDs | ResolvedColor | TemporalFeedback1
    | TemporalFeedback2 | LdrColor | AmbientOcclusion

  const HEAP_TEXTURES: seq<HeapTexture> :=
    [HdrColor, MaterialIDs, ResolvedColor, TemporalFeedback1, TemporalFeedback2, LdrColor, AmbientOcclusion]

  /** Devices report alignments of at least one byte. */
  predicate PositiveAlignments(reqs: seq<MemoryRequirements>)
  {
    forall i :: 0 <= i < |reqs| ==> reqs[i].alignment > 0
  }

  /** End of the first `k` textures once each is placed at its aligned offset. */
  function PackedEnd(reqs: seq<MemoryRequirements>, k: nat): nat
    requires k <= |reqs| && PositiveAlignments(reqs)
    decreases k, 0
  {
    if k == 0 then 0 else Placement(reqs, k - 1) + reqs[k - 1].size
  }

  /** Offset of texture `k`: the end of the textures before it, aligned up. */
  function Placement(reqs: seq<MemoryRequirements>, k: nat): nat
    requires k < |reqs| && PositiveAlignments(reqs)
    decreases k, 1
  {
    Align(PackedEnd(reqs, k), reqs[k].alignment)
  }

  /**
   * The two passes of `RenderTargets::Init` over the textures: the first
   * sizes the heap, the second binds each texture at its offset.
   */
  method PackRenderTargetHeap(reqs: seq<MemoryRequirements>) returns (heapSize: nat, offsets: seq<nat>)
    requires PositiveAlignments(reqs)
    ensures heapSize == PackedEnd(reqs, |reqs|)
    ensures |offsets| == |reqs|
    ensures forall i :: 0 <= i < |reqs| ==> offsets[i] == Placement(reqs, i)
  {
    heapSize := 0;
    for i := 0 to |reqs|
      invariant heapSize == PackedEnd(reqs, i)
    {
      heapSize := Align(heapSize, reqs[i].alignment);
      heapSize := heapSize + reqs[i].size;
    }

    var offset := 0;
    offsets := [];
    for i := 0 to |reqs|
      invariant offset == PackedEnd(reqs, i)
      invariant |offsets| == i
      invariant forall k :: 0 <= k < i ==> offsets[k] == Placement(reqs, k)
    {
      offset := Align(offset, reqs[i].alignment);
      offsets := offsets + [offset];
      offset := offset + reqs[i].size;
    }
  }

  lemma {:induction false} PackedEndMonotone(reqs: seq<MemoryRequirements>, j: nat, k: nat)
    requires j <= k <= |reqs| && PositiveAlignments(reqs)
    ensures PackedEnd(reqs, j) <= PackedEnd(reqs, k)
    decreases k
  {
    if j < k {
      PackedEndMonotone(reqs, j, k - 1);
    }
  }

  /** Each texture is aligned and lies wholly inside the heap. */
  lemma PlacementInHeap(reqs: seq<MemoryRequirements>, i: nat)
    requires i < |reqs| && PositiveAlignments(reqs)
    ensures Placement(reqs, i) % reqs[i].alignment == 0
    ensures Placement(reqs, i) + reqs[i].size <= PackedEnd(reqs, |reqs|)
  {
    PackedEndMonotone(reqs, i + 1, |reqs|);
  }

  /** A texture placed earlier ends before a later one begins. */
  lemma PlacementsDisjoint(reqs: seq<MemoryRequirements>, i: nat, j: nat)
    requires i < j < |reqs| && PositiveAlignments(reqs)
    ensures Placement(reqs, i) + reqs[i].size <= Placement(reqs, j)
  {
    PackedEndMonotone(reqs, i + 1, j);
  }

  /**
   * The render targets of one size and sample count. `heapCapacity` is
   * present when the device supports virtual resources and the textures
   * were bound into one heap.
   */
  class RenderTargets {
    var width: nat
    var height: nat
    var sampleCount: nat
    var heapCapacity: Option<nat>
    var textureOffsets: seq<nat>

    constructor Init(width: nat, height: nat, sampleCount: nat, isVirtual: bool, reqs: seq<MemoryRequirements>)
      requires |reqs| == |HEAP_TEXTURES| && PositiveAlignments(reqs)
      ensures this.width == width && this.height == height && this.sampleCount == sampleCount
      ensures isVirtual ==> heapCapacity == Some(PackedEnd(reqs, |reqs|))
      ensures isVirtual ==> |textureOffsets| == |reqs|
      ensures isVirtual ==> forall i :: 0 <= i < |reqs| ==> textureOffsets[i] == Placement(reqs, i)
      ensures !isVirtual ==> heapCapacity == None && textureOffsets == []
      ensures !IsUpdateRequired(width, height, sampleCount)
    {
      this.width := width;
      this.height := height;
      this.sampleCount := sampleCount;
      if isVirtual {
        var capacity, offsets := PackRenderTargetHeap(reqs);
        heapCapacity := Some(capacity);
        textureOffsets := offsets;
      } else {
        heapCapacity := None;
        textureOffsets := [];
      }
    }

    /** The targets must be recreated for another size or sample count. */
    predicate IsUpdateRequired(w: nat, h: nat, sc: nat)
      reads this
    {
      width != w || height != h || sampleCount != sc
    }
  }

  // ---------------------------------------------------------------------
  // UI state
  // ---------------------------------------------------------------------

  datatype AntiAliasingMode = NONE | TEMPORAL | MSAA_2X | MSAA_4X | MSAA_8X

  /** The MSAA sample count the render targets are created with. */
  function SampleCount(mode: AntiAliasingMode): (r: nat)
    ensures r == 1 || r == 2 || r == 4 || r == 8
    ensures r == 1 <==> mode == NONE || mode == TEMPORAL
  {
    match mode
    case MSAA_2X => 2
    case MSAA_4X => 4
    case MSAA_8X => 8
    case _ => 1
  }

  datatype Material = Material(materialID: int, name: string)

  /** A mesh instance as the picking loop sees it: its index and its node. */
  datatype MeshInstanceRef = MeshInstanceRef(instanceIndex: int, node: nat)

  /** The settings shared between the demo and its UI. */
  class UIData {
    var showUI: bool
    var showConsole: bool
    var useDeferredShading: bool
    var stereo: bool
    var enableSsao: bool
    var antiAliasingMode: AntiAliasingMode
    var shaderReloadRequested: bool
    var enableLightProbe: bool
    var useThirdPersonCamera: bool
    var enableAnimations: bool
    var selectedMaterial: Option<Material>
    var selectedNode: Option<nat>
    var activeSceneCamera: Option<nat>

    constructor ()
      ensures showUI && !showConsole && useDeferredShading && !stereo && enableSsao
      ensures antiAliasingMode == TEMPORAL && !shaderReloadRequested && enableLightProbe
      ensures !useThirdPersonCamera && !enableAnimations
      ensures selectedMaterial == None && selectedNode == None && activeSceneCamera == None
    {
      showUI := true;
      showConsole := false;
      useDeferredShading := true;
      stereo := false;
      enableSsao := true;
      antiAliasingMode := TEMPORAL;
      shaderReloadRequested := false;
      enableLightProbe := true;
      useThirdPersonCamera := false;
      enableAnimations := false;
      selectedMaterial := None;
      selectedNode := None;
      activeSceneCamera := None;
    }

    /** MSAA rules out deferred shading, and SSAO needs deferred shading. */
    predicate Consistent()
      reads this
    {
      (SampleCount(antiAliasingMode) > 1 ==> !useDeferredShading)
      && (!useDeferredShading ==> !enableSsao)
    }

    /** The two constraints the UI applies at the end of every frame. */
    method EnforceConstraints()
      modifies this`useDeferredShading, this`enableSsao
      ensures Consistent()
      ensures useDeferredShading == (old(useDeferredShading) && (antiAliasingMode == NONE || antiAliasingMode == TEMPORAL))
      ensures enableSsao == (old(enableSsao) && useDeferredShading)
      ensures old(Consistent()) ==> useDeferredShading == old(useDeferredShading) && enableSsao == old(enableSsao)
    {
      if antiAliasingMode != NONE && antiAliasingMode != TEMPORAL {
        useDeferredShading := false;
      }
      if !useDeferredShading {
        enableSsao := false;
      }
    }
  }

  // ---------------------------------------------------------------------
  // First-match search (picking)
  // ---------------------------------------------------------------------

  /** Index of the first `key` in `keys` at or after `from`. */
  function FirstMatchFrom(keys: seq<int>, key: int, from: nat): (r: Option<nat>)
    requires from <= |keys|
    ensures r.Some? ==> from <= r.value < |keys| && keys[r.value] == key
    ensures r.Some? ==> forall j :: from <= j < r.value ==> keys[j] != key
    ensures r.None? ==> forall j :: from <= j < |keys| ==> keys[j] != key
    decreases |keys| - from
  {
    if from == |keys| then None
    else if keys[from] == key then Some(from)
    else FirstMatchFrom(keys, key, from + 1)
  }

  /** The first match is the only index that is a match with none before it. */
  lemma FirstMatchUnique(keys: seq<int>, key: int, k: nat)
    requires k < |keys| && keys[k] == key
    requires forall j :: 0 <= j < k ==> keys[j] != key
    ensures FirstMatchFrom(keys, key, 0) == Some(k)
  {
  }

  function MaterialIdKeys(materials: seq<Material>): (r: seq<int>)
    ensures |r| == |materials| && forall i :: 0 <= i < |r| ==> r[i] == materials[i].materialID
  {
    seq(|materials|, i requires 0 <= i < |materials| => materials[i].materialID)
  }

  function InstanceIndexKeys(instances: seq<MeshInstanceRef>): (r: seq<int>)
    ensures |r| == |instances| && forall i :: 0 <= i < |r| ==> r[i] == instances[i].instanceIndex
  {
    seq(|instances|, i requires 0 <= i < |instances| => instances[i].instanceIndex)
  }

  /** The material whose ID is in the picked pixel, if any. */
  function PickedMaterial(materials: seq<Material>, id: int): Option<Material>
  {
    match FirstMatchFrom(MaterialIdKeys(materials), id, 0)
    case Some(k) => Some(materials[k])
    case None => None
  }

  /** The node of the instance whose index is in the picked pixel, if any. */
  function PickedNode(instances: seq<MeshInstanceRef>, index: int): Option<nat>
  {
    match FirstMatchFrom(InstanceIndexKeys(instances), index, 0)
    case Some(k) => Some(instances[k].node)
    case None => None
  }

  // ---------------------------------------------------------------------
  // Light probes
  // ---------------------------------------------------------------------

  function Digit(d: nat): (c: char)
    requires d < 10
    ensures '0' <= c <= '9'
  {
    (('0' as int) + d) as char
  }

  /** `std::to_string` of a non-negative number. */
  function DecimalString(n: nat): (s: string)
    ensures |s| >= 1
    ensures forall i :: 0 <= i < |s| ==> '0' <= s[i] <= '9'
    ensures |s| > 1 ==> s[0] != '0'
  {
    if n < 10 then [Digit(n)] else DecimalString(n / 10) + [Digit(n % 10)]
  }

  /** The number a string of decimal digits spells. */
  function DecimalValue(s: string): nat
    requires forall i :: 0 <= i < |s| ==> '0' <= s[i] <= '9'
  {
    if |s| == 0 then 0
    else DecimalValue(s[..|s| - 1]) * 10 + (s[|s| - 1] as int - '0' as int)
  }

  lemma {:induction false} DecimalRoundTrip(n: nat)
    ensures DecimalValue(DecimalString(n)) == n
  {
    if n >= 10 {
      var s := DecimalString(n);
      assert s[..|s| - 1] == DecimalString(n / 10);
      DecimalRoundTrip(n / 10);
    }
  }

  datatype LightProbe = LightProbe(name: string, diffuseArrayIndex: nat, specularArrayIndex: nat, enabled: bool)

  /** Probe `i` of a fresh table: named after its 1-based number, disabled. */
  function NewProbe(i: nat): LightProbe
  {
    LightProbe(DecimalString(i + 1), i, i, false)
  }

  /** Probes of one table carry different names. */
  lemma ProbeNamesDistinct(i: nat, j: nat)
    requires i != j
    ensures NewProbe(i).name != NewProbe(j).name
  {
    DecimalRoundTrip(i + 1);
    DecimalRoundTrip(j + 1);
  }

  /** The cube-array faces of every probe lie inside the shared array. */
  lemma ProbeFacesFit(numProbes: nat, i: nat)
    requires i < numProbes && 6 * numProbes < U32_LIMIT
    ensures 6 * NewProbe(i).diffuseArrayIndex + 6 <= U32(6 * numProbes)
    ensures NewProbe(i).specularArrayIndex == NewProbe(i).diffuseArrayIndex
  {
  }

  /** The probes the frame lights with: the enabled ones, in table order. */
  function EnabledProbes(probes: seq<LightProbe>): (r: seq<LightProbe>)
    ensures |r| <= |probes|
    ensures forall i :: 0 <= i < |r| ==> r[i].enabled && r[i] in probes
    ensures (forall i :: 0 <= i < |probes| ==> !probes[i].enabled) ==> r == []
  {
    if |probes| == 0 then []
    else
      var rest := EnabledProbes(probes[1..]);
      assert forall p :: p in probes[1..] ==> p in probes;
      if probes[0].enabled then [probes[0]] + rest else rest
  }

  function Disabled(p: LightProbe): LightProbe
  {
    p.(enabled := false)
  }

  // ---------------------------------------------------------------------
  // Scene names
  // ---------------------------------------------------------------------

  predicate EndsWith(s: string, suffix: string)
  {
    |suffix| <= |s| && s[|s| - |suffix|..] == suffix
  }

  /** `EndsWith` is "some prefix followed by the suffix". */
  lemma EndsWithIffConcat(s: string, suffix: string)
    ensures EndsWith(s, suffix) <==> exists p :: s == p + suffix
  {
    if EndsWith(s, suffix) {
      assert s == s[..|s| - |suffix|] + suffix;
    }
    if exists p :: s == p + suffix {
      var p :| s == p + suffix;
      assert s[|s| - |suffix|..] == suffix;
    }
  }

  /** glTF scenes are viewed with the orbiting third-person camera. */
  predicate IsGltfScene(name: string)
  {
    EndsWith(name, ".gltf") || EndsWith(name, ".glb")
  }

  lemma GltfSceneExamples()
    ensures IsGltfScene("/media/Sponza.gltf") && IsGltfScene("Box.glb")
    ensures !IsGltfScene("scene.json") && !IsGltfScene("glb")
  {
    assert "/media/Sponza.gltf"[13..] == ".gltf";
    assert "Box.glb"[3..] == ".glb";
    assert "scene.json"[5..] != ".gltf";
    assert "scene.json"[6..] != ".glb";
  }

  // ---------------------------------------------------------------------
  // The application object
  // ---------------------------------------------------------------------

  datatype LightType = Directional | Point | Spot

  datatype Light = Light(lightType: LightType, id: nat)

  /** The sun: a directional light of the scene, or the default one the demo attaches. */
  datatype SunLight = SceneSun(id: nat) | DefaultSun

  /** Which view object exists: none yet, one planar view, or a stereo pair. */
  datatype ViewKind = NoView | Planar | Stereo

  /** What the third-person camera is pointed at. */
  datatype CameraTarget = RootNode | SceneNode(node: nat)

  /** What one call of `RenderScene` decided. */
  datatype FrameOutcome = FrameOutcome(
    newPasses: bool,
    exposureReset: bool,
    motionVectors: bool,
    lightProbes: seq<LightProbe>)

  /** The first directional light, if the scene has one. */
  function FirstDirectional(lights: seq<Light>): (r: Option<nat>)
    ensures r.Some? ==> r.value < |lights| && lights[r.value].lightType == Directional
    ensures r.Some? ==> forall j :: 0 <= j < r.value ==> lights[j].lightType != Directional
    ensures r.None? ==> forall j :: 0 <= j < |lights| ==> lights[j].lightType != Directional
  {
    if |lights| == 0 then None
    else if lights[0].lightType == Directional then Some(0)
    else match FirstDirectional(lights[1..])
      case Some(k) => Some(k + 1)
      case None => None
  }

  /** Each scene load request names a scene other than the one before it. */
  predicate LoadsChangeScene(loads: seq<string>)
  {
    (|loads| > 0 ==> loads[0] != "")
    && forall i :: 0 < i < |loads| ==> loads[i] != loads[i - 1]
  }

  lemma LoadsChangeSceneAppend(loads: seq<string>, name: string)
    requires LoadsChangeScene(loads)
    requires name != (if |loads| == 0 then "" else loads[|loads| - 1])
    ensures LoadsChangeScene(loads + [name])
  {
    var extended := loads + [name];
    forall i | 0 < i < |extended|
      ensures extended[i] != extended[i - 1]
    {
      if i < |loads| {
        assert extended[i] == loads[i] && extended[i - 1] == loads[i - 1];
      }
    }
  }

  class FeatureDemo {
    const ui: UIData
    var currentSceneName: string
    /** The scenes handed to the asynchronous loader, oldest first. */
    var loadRequests: seq<string>
    var renderTargets: RenderTargets?
    var view: ViewKind
    var toneMappingPassExists: bool
    var previousViewsValid: bool
    var pick: bool
    var cameraTarget: CameraTarget
    var lightProbes: seq<LightProbe>
    var lightProbeArraySize: nat
    var sunLight: Option<SunLight>
    var wallclockTime: real

    /** The last load request is for the current scene, and none repeats its predecessor. */
    ghost predicate Valid()
      reads this`loadRequests, this`currentSceneName
    {
      LoadsChangeScene(loadRequests)
      && (if |loadRequests| == 0 then currentSceneName == "" else loadRequests[|loadRequests| - 1] == currentSceneName)
    }

    /**
     * Selects the scene named on the command line or, without one, the
     * preferred scene found in the media folder, and creates four probes.
     * Without either the demo stops with a fatal error.
     */
    constructor (ui: UIData, sceneName: string, sceneFilesFound: bool, preferredScene: string)
      requires sceneName != "" || sceneFilesFound
      ensures Valid() && this.ui == ui
      ensures currentSceneName == (if sceneName == "" then preferredScene else "/native/" + sceneName)
      ensures loadRequests == (if currentSceneName == "" then [] else [currentSceneName])
      ensures renderTargets == null && view == NoView && !toneMappingPassExists
      ensures !previousViewsValid && !pick && sunLight == None
      ensures |lightProbes| == 4 && forall i :: 0 <= i < 4 ==> lightProbes[i] == NewProbe(i)
      ensures lightProbeArraySize == 24
    {
      this.ui := ui;
      currentSceneName := "";
      loadRequests := [];
      renderTargets := null;
      view := NoView;
      toneMappingPassExists := false;
      previousViewsValid := false;
      pick := false;
      cameraTarget := RootNode;
      lightProbes := [];
      lightProbeArraySize := 0;
      sunLight := None;
      wallclockTime := 0.0;
      new;
      if sceneName == "" {
        SetCurrentSceneName(preferredScene);
      } else {
        SetCurrentSceneName("/native/" + sceneName);
      }
      CreateLightProbes(4);
    }

    /** Starts loading `sceneName` unless it is already the current scene. */
    method SetCurrentSceneName(sceneName: string)
      requires Valid()
      modifies this`currentSceneName, this`loadRequests
      ensures Valid()
      ensures currentSceneName == sceneName
      ensures loadRequests == old(loadRequests) + (if old(currentSceneName) == sceneName then [] else [sceneName])
    {
      if currentSceneName == sceneName {
        return;
      }
      LoadsChangeSceneAppend(loadRequests, sceneName);
      currentSceneName := sceneName;
      loadRequests := loadRequests + [sceneName];
    }

    /**
     * Esc, the grave accent and space toggle the UI, the console and the
     * animations; T leaves a scene camera for the first-person camera, or
     * else switches between first- and third-person. Other keys go to the
     * active camera unless a scene camera is in use. Every key is handled.
     */
    method KeyboardUpdate(key: int, action: int) returns (handled: bool, forwarded: bool)
      modifies ui`showUI, ui`showConsole, ui`enableAnimations, ui`useThirdPersonCamera, ui`activeSceneCamera
      ensures handled
      ensures ui.showUI == (old(ui.showUI) != (key == Glfw.KEY_ESCAPE && action == Glfw.PRESS))
      ensures ui.showConsole == (old(ui.showConsole) != (key == Glfw.KEY_GRAVE_ACCENT && action == Glfw.PRESS))
      ensures ui.enableAnimations == (old(ui.enableAnimations) != (key == Glfw.KEY_SPACE && action == Glfw.PRESS))
      ensures key == Glfw.KEY_T && action == Glfw.PRESS && old(ui.activeSceneCamera).Some? ==>
        ui.activeSceneCamera == None && !ui.useThirdPersonCamera
      ensures key == Glfw.KEY_T && action == Glfw.PRESS && old(ui.activeSceneCamera).None? ==>
        ui.activeSceneCamera == None && ui.useThirdPersonCamera == !old(ui.useThirdPersonCamera)
      ensures !(key == Glfw.KEY_T && action == Glfw.PRESS) ==>
        ui.activeSceneCamera == old(ui.activeSceneCamera) && ui.useThirdPersonCamera == old(ui.useThirdPersonCamera)
      ensures forwarded <==> (old(ui.activeSceneCamera).None? && !(action == Glfw.PRESS &&
        (key == Glfw.KEY_ESCAPE || key == Glfw.KEY_GRAVE_ACCENT || key == Glfw.KEY_SPACE || key == Glfw.KEY_T)))
    {
      forwarded := false;
      if key == Glfw.KEY_ESCAPE && action == Glfw.PRESS {
        ui.showUI := !ui.showUI;
        return true, forwarded;
      }
      if key == Glfw.KEY_GRAVE_ACCENT && action == Glfw.PRESS {
        ui.showConsole := !ui.showConsole;
        return true, forwarded;
      }
      if key == Glfw.KEY_SPACE && action == Glfw.PRESS {
        ui.enableAnimations := !ui.enableAnimations;
        return true, forwarded;
      }
      if key == Glfw.KEY_T && action == Glfw.PRESS {
        if ui.activeSceneCamera.Some? {
          ui.useThirdPersonCamera := false;
          ui.activeSceneCamera := None;
        } else {
          ui.useThirdPersonCamera := !ui.useThirdPersonCamera;
        }
        return true, forwarded;
      }
      forwarded := ui.activeSceneCamera.None?;
      handled := true;
    }

    /** A right-button press requests a pick at the end of the next frame. */
    method MouseButtonUpdate(button: int, action: int) returns (handled: bool, forwarded: bool)
      modifies this`pick
      ensures handled
      ensures forwarded <==> ui.activeSceneCamera.None?
      ensures pick == (old(pick) || (action == Glfw.PRESS && button == Glfw.MOUSE_BUTTON_2))
    {
      forwarded := ui.activeSceneCamera.None?;
      if action == Glfw.PRESS && button == Glfw.MOUSE_BUTTON_2 {
        pick := true;
      }
      handled := true;
    }

    /** Scene time advances only while a scene is loaded and animations are on. */
    method Animate(elapsedSeconds: real, sceneLoaded: bool)
      modifies this`wallclockTime
      ensures wallclockTime == old(wallclockTime) + (if sceneLoaded && ui.enableAnimations then elapsedSeconds else 0.0)
    {
      if sceneLoaded && ui.enableAnimations {
        wallclockTime := wallclockTime + elapsedSeconds;
      }
    }

    /** Replaces the probe table by `numProbes` fresh, disabled probes. */
    method CreateLightProbes(numProbes: nat)
      requires IsU32(numProbes)
      modifies this`lightProbes, this`lightProbeArraySize
      ensures lightProbeArraySize == U32(6 * numProbes)
      ensures |lightProbes| == numProbes
      ensures forall i :: 0 <= i < numProbes ==> lightProbes[i] == NewProbe(i)
    {
      lightProbeArraySize := U32(6 * numProbes);
      lightProbes := [];
      for i := 0 to numProbes
        invariant lightProbeArraySize == U32(6 * numProbes)
        invariant |lightProbes| == i
        invariant forall k :: 0 <= k < i ==> lightProbes[k] == NewProbe(k)
      {
        var probe := LightProbe(DecimalString(i + 1), i, i, false);
        lightProbes := lightProbes + [probe];
      }
    }

    /** Drops the sun and the selection and disables every probe. */
    method SceneUnloading()
      modifies this`sunLight, this`lightProbes, ui`selectedMaterial, ui`selectedNode
      ensures sunLight == None && ui.selectedMaterial == None && ui.selectedNode == None
      ensures |lightProbes| == |old(lightProbes)|
      ensures forall i :: 0 <= i < |lightProbes| ==> lightProbes[i] == Disabled(old(lightProbes)[i])
      ensures EnabledProbes(lightProbes) == []
    {
      sunLight := None;
      ui.selectedMaterial := None;
      ui.selectedNode := None;
      var probes := lightProbes;
      for i := 0 to |probes|
        invariant sunLight == None && ui.selectedMaterial == None && ui.selectedNode == None
        invariant |lightProbes| == |probes|
        invariant forall k :: 0 <= k < i ==> lightProbes[k] == Disabled(probes[k])
        invariant forall k :: i <= k < |probes| ==> lightProbes[k] == probes[k]
      {
        lightProbes := lightProbes[i := Disabled(lightProbes[i])];
      }
    }

    /**
     * Resets time and temporal history, takes the first directional light
     * as the sun (keeping the current sun, or else creating the default one,
     * when there is none), activates the first scene camera and picks the
     * camera mode from the file extension.
     */
    method SceneLoaded(lights: seq<Light>, cameras: seq<nat>)
      modifies this`wallclockTime, this`previousViewsValid, this`sunLight, this`cameraTarget
      modifies ui`activeSceneCamera, ui`useThirdPersonCamera
      ensures wallclockTime == 0.0 && !previousViewsValid
      ensures FirstDirectional(lights).Some? ==> sunLight == Some(SceneSun(lights[FirstDirectional(lights).value].id))
      ensures FirstDirectional(lights).None? ==> sunLight == (if old(sunLight).Some? then old(sunLight) else Some(DefaultSun))
      ensures ui.activeSceneCamera == (if |cameras| > 0 then Some(cameras[0]) else None)
      ensures cameraTarget == RootNode
      ensures ui.useThirdPersonCamera <==> IsGltfScene(currentSceneName)
    {
      wallclockTime := 0.0;
      previousViewsValid := false;

      var i := 0;
      while i < |lights|
        invariant i <= |lights|
        invariant forall j :: 0 <= j < i ==> lights[j].lightType != Directional
        invariant sunLight == old(sunLight)
      {
        if lights[i].lightType == Directional {
          sunLight := Some(SceneSun(lights[i].id));
          break;
        }
        i := i + 1;
      }
      if sunLight.None? {
        sunLight := Some(DefaultSun);
      }

      if |cameras| > 0 {
        ui.activeSceneCamera := Some(cameras[0]);
      } else {
        ui.activeSceneCamera := None;
      }
      cameraTarget := RootNode;
      ui.useThirdPersonCamera := EndsWith(currentSceneName, ".gltf") || EndsWith(currentSceneName, ".glb");
    }

    /** Recreates the render targets when they are missing or of another size or sample count. */
    method PrepareRenderTargets(width: nat, height: nat, isVirtual: bool, reqs: seq<MemoryRequirements>)
      returns (recreated: bool)
      requires |reqs| == |HEAP_TEXTURES| && PositiveAlignments(reqs)
      modifies this`renderTargets
      ensures recreated <==> (old(renderTargets) == null
        || old(renderTargets.IsUpdateRequired(width, height, SampleCount(ui.antiAliasingMode))))
      ensures !recreated ==> renderTargets == old(renderTargets)
      ensures recreated ==> fresh(renderTargets)
      ensures renderTargets != null && !renderTargets.IsUpdateRequired(width, height, SampleCount(ui.antiAliasingMode))
    {
      var sampleCount := SampleCount(ui.antiAliasingMode);
      recreated := false;
      if renderTargets == null || renderTargets.IsUpdateRequired(width, height, sampleCount) {
        renderTargets := new RenderTargets.Init(width, height, sampleCount, isVirtual, reqs);
        recreated := true;
      }
    }

    /** Makes the view match the stereo setting; reports whether it was replaced. */
    method SetupView() returns (topologyChanged: bool)
      modifies this`view
      ensures view == (if ui.stereo then Stereo else Planar)
      ensures topologyChanged <==> old(view) != view
    {
      topologyChanged := false;
      if ui.stereo {
        if view != Stereo {
          view := Stereo;
          topologyChanged := true;
        }
      } else {
        if view != Planar {
          view := Planar;
          topologyChanged := true;
        }
      }
    }

    /**
     * Creates the passes anew. A tone-mapping pass keeps the previous one's
     * exposure buffer; the first one asks for an exposure reset. The
     * temporal history becomes invalid.
     */
    method CreateRenderPasses() returns (exposureResetRequired: bool)
      modifies this`toneMappingPassExists, this`previousViewsValid
      ensures exposureResetRequired <==> !old(toneMappingPassExists)
      ensures toneMappingPassExists && !previousViewsValid
    {
      exposureResetRequired := !toneMappingPassExists;
      toneMappingPassExists := true;
      previousViewsValid := false;
    }

    /** The probes lit this frame: none when probes are switched off. */
    method CollectLightProbes() returns (probes: seq<LightProbe>)
      ensures probes == (if ui.enableLightProbe then EnabledProbes(lightProbes) else [])
    {
      probes := [];
      if ui.enableLightProbe {
        var i := |lightProbes|;
        while i > 0
          invariant 0 <= i <= |lightProbes|
          invariant probes == EnabledProbes(lightProbes[i..])
        {
          i := i - 1;
          assert lightProbes[i..][1..] == lightProbes[i + 1..];
          if lightProbes[i].enabled {
            probes := [lightProbes[i]] + probes;
          }
        }
      }
    }

    /**
     * Temporal anti-aliasing draws motion vectors only against a valid
     * previous view, and leaves the history valid; any other mode
     * invalidates it.
     */
    method ResolveTemporal() returns (motionVectors: bool)
      modifies this`previousViewsValid
      ensures motionVectors <==> ui.antiAliasingMode == TEMPORAL && old(previousViewsValid)
      ensures previousViewsValid <==> ui.antiAliasingMode == TEMPORAL
    {
      if ui.antiAliasingMode == TEMPORAL {
        motionVectors := previousViewsValid;
        previousViewsValid := true;
      } else {
        motionVectors := false;
        previousViewsValid := false;
      }
    }

    /**
     * Reads back the picked pixel: `x` holds a material ID and `y` an
     * instance index, both converted to `int`. Selects the first matching
     * material and instance node and aims the camera at the node, or at
     * the whole scene when nothing was hit.
     */
    method ResolvePick(pixelX: nat, pixelY: nat, materials: seq<Material>, instances: seq<MeshInstanceRef>)
      modifies this`pick, this`cameraTarget, ui`selectedMaterial, ui`selectedNode
      ensures !pick
      ensures old(pick) ==> ui.selectedMaterial == PickedMaterial(materials, I32(pixelX))
      ensures old(pick) ==> ui.selectedNode == PickedNode(instances, I32(pixelY))
      ensures old(pick) ==> cameraTarget == (if ui.selectedNode.Some? then SceneNode(ui.selectedNode.value) else RootNode)
      ensures !old(pick) ==> (ui.selectedMaterial == old(ui.selectedMaterial)
        && ui.selectedNode == old(ui.selectedNode) && cameraTarget == old(cameraTarget))
    {
      if !pick {
        return;
      }
      pick := false;
      ui.selectedMaterial := None;
      ui.selectedNode := None;

      var materialID := I32(pixelX);
      ghost var ids := MaterialIdKeys(materials);
      var i := 0;
      while i < |materials|
        invariant i <= |materials|
        invariant FirstMatchFrom(ids, materialID, i) == FirstMatchFrom(ids, materialID, 0)
        invariant ui.selectedMaterial == None
      {
        if materials[i].materialID == materialID {
          ui.selectedMaterial := Some(materials[i]);
          break;
        }
        i := i + 1;
      }

      var instanceIndex := I32(pixelY);
      ghost var indices := InstanceIndexKeys(instances);
      var j := 0;
      while j < |instances|
        invariant j <= |instances|
        invariant FirstMatchFrom(indices, instanceIndex, j) == FirstMatchFrom(indices, instanceIndex, 0)
        invariant ui.selectedNode == None
      {
        if instances[j].instanceIndex == instanceIndex {
          ui.selectedNode := Some(instances[j].node);
          break;
        }
        j := j + 1;
      }

      if ui.selectedNode.Some? {
        cameraTarget := SceneNode(ui.selectedNode.value);
      } else {
        cameraTarget := RootNode;
      }
    }

    /**
     * The state transitions of one frame: render targets, view and passes
     * are renewed as needed, the shader-reload request is consumed, the
     * enabled probes are gathered, temporal history is resolved and a
     * pending pick is resolved from the read-back pixel.
     */
    method RenderScene(width: nat, height: nat, isVirtual: bool, reqs: seq<MemoryRequirements>,
                       pixelX: nat, pixelY: nat, materials: seq<Material>, instances: seq<MeshInstanceRef>)
      returns (frame: FrameOutcome)
      requires |reqs| == |HEAP_TEXTURES| && PositiveAlignments(reqs)
      modifies this`renderTargets, this`view, this`toneMappingPassExists, this`previousViewsValid
      modifies this`pick, this`cameraTarget
      modifies ui`shaderReloadRequested, ui`selectedMaterial, ui`selectedNode
      ensures frame.newPasses <==> (old(renderTargets) == null
        || old(renderTargets.IsUpdateRequired(width, height, SampleCount(ui.antiAliasingMode)))
        || old(view) != (if ui.stereo then Stereo else Planar)
        || old(ui.shaderReloadRequested))
      ensures frame.exposureReset <==> frame.newPasses && !old(toneMappingPassExists)
      ensures frame.motionVectors <==> ui.antiAliasingMode == TEMPORAL && old(previousViewsValid) && !frame.newPasses
      ensures previousViewsValid <==> ui.antiAliasingMode == TEMPORAL
      ensures frame.lightProbes == (if ui.enableLightProbe then EnabledProbes(lightProbes) else [])
      ensures renderTargets != null && !renderTargets.IsUpdateRequired(width, height, SampleCount(ui.antiAliasingMode))
      ensures !ui.shaderReloadRequested && !pick
      ensures old(pick) ==> (ui.selectedMaterial == PickedMaterial(materials, I32(pixelX))
        && ui.selectedNode == PickedNode(instances, I32(pixelY)))
    {
      var recreated := PrepareRenderTargets(width, height, isVirtual, reqs);
      var topologyChanged := SetupView();
      var needNewPasses := recreated || topologyChanged || ui.shaderReloadRequested;
      var exposureResetRequired := false;
      if needNewPasses {
        exposureResetRequired := CreateRenderPasses();
      }
      ui.shaderReloadRequested := false;

      var probes := CollectLightProbes();
      var motionVectors := ResolveTemporal();
      ResolvePick(pixelX, pixelY, materials, instances);
      frame := FrameOutcome(needNewPasses, exposureResetRequired, motionVectors, probes);
    }
  }

  // ---------------------------------------------------------------------
  // Command line
  // ---------------------------------------------------------------------

  /** The device-manager settings the command line can change. */
  datatype DeviceParams = DeviceParams(
    backBufferWidth: int,
    backBufferHeight: int,
    swapChainSampleCount: nat,
    swapChainBufferCount: nat,
    startFullscreen: bool,
    enableDebugRuntime: bool,
    enableNvrhiValidationLayer: bool,
    vsyncEnabled: bool)

  /** The settings and global flags the parser writes. */
  datatype Options = Options(device: DeviceParams, sceneName: string, printSceneGraph: bool, printFormats: bool)

  /** What `main` passes in: a 1920x1080 windowed, synchronised swap chain and no scene. */
  const DEFAULT_OPTIONS: Options :=
    Options(DeviceParams(1920, 1080, 1, 3, false, false, false, true), "", false, false)

  /** One recognised argument, with the value it consumed. */
  datatype Command =
    | SetWidth(value: string)
    | SetHeight(value: string)
    | Fullscreen
    | Debug
    | NoVsync
    | PrintGraph
    | PrintFormats
    | SceneName(name: string)
    | Unknown(option: string)
    | MissingValue(option: string)

  predicate StartsWithDash(arg: string)
  {
    |arg| > 0 && arg[0] == '-'
  }

  /** What the chain of `strcmp` tests makes of one argument. */
  datatype ArgKind =
    | WidthOption | HeightOption | FullscreenOption | DebugOption | NoVsyncOption
    | PrintGraphOption | PrintFormatsOption | Positional | UnknownOption

  function Classify(arg: string): (k: ArgKind)
    ensures k == Positional <==> !StartsWithDash(arg)
  {
    if arg == "-width" then WidthOption
    else if arg == "-height" then HeightOption
    else if arg == "-fullscreen" then FullscreenOption
    else if arg == "-debug" then DebugOption
    else if arg == "-no-vsync" then NoVsyncOption
    else if arg == "-print-graph" then PrintGraphOption
    else if arg == "-print-formats" then PrintFormatsOption
    else if !StartsWithDash(arg) then Positional
    else UnknownOption
  }

  /**
   * The command at argument `i` and the index of the argument after it:
   * `-width` and `-height` take the next argument as their value, and
   * yield `MissingValue` when there is none.
   */
  function NextCommand(args: seq<string>, i: nat): (r: (Command, nat))
    requires i < |args|
    ensures i < r.1 <= |args| || r.0.MissingValue?
  {
    var arg := args[i];
    match Classify(arg)
    case WidthOption => if i + 1 < |args| then (SetWidth(args[i + 1]), i + 2) else (MissingValue(arg), |args|)
    case HeightOption => if i + 1 < |args| then (SetHeight(args[i + 1]), i + 2) else (MissingValue(arg), |args|)
    case FullscreenOption => (Fullscreen, i + 1)
    case DebugOption => (Debug, i + 1)
    case NoVsyncOption => (NoVsync, i + 1)
    case PrintGraphOption => (PrintGraph, i + 1)
    case PrintFormatsOption => (PrintFormats, i + 1)
    case Positional => (SceneName(arg), i + 1)
    case UnknownOption => (Unknown(arg), i + 1)
  }

  /**
   * The arguments from position `i` on, split into commands. A `-width`
   * or `-height` with nothing after it ends the list with `MissingValue`.
   */
  function Tokenize(args: seq<string>, i: nat): seq<Command>
    decreases |args| - i
  {
    if i >= |args| then []
    else
      var (cmd, next) := NextCommand(args, i);
      if cmd.MissingValue? then [cmd] else [cmd] + Tokenize(args, next)
  }

  /** A scene name comes from an argument at or after `i` that does not start with a dash. */
  lemma {:induction false} TokenizedSceneNames(args: seq<string>, i: nat, k: nat)
    requires k < |Tokenize(args, i)| && Tokenize(args, i)[k].SceneName?
    ensures !StartsWithDash(Tokenize(args, i)[k].name)
    ensures exists j :: i <= j < |args| && args[j] == Tokenize(args, i)[k].name
    decreases |args| - i
  {
    var (cmd, next) := NextCommand(args, i);
    if k > 0 {
      TokenizedSceneNames(args, next, k - 1);
    } else {
      assert args[i] == cmd.name;
    }
  }

  /**
   * One command applied to the options; `None` means the command line is
   * rejected. `stoi` yields `None` where `std::stoi` would throw, and the
   * parsed value is stored into a `uint32_t`.
   */
  function Apply(cmd: Command, opts: Options, stoi: string -> Option<int>): Option<Options>
  {
    match cmd
    case SetWidth(v) =>
      if stoi(v).Some? then Some(opts.(device := opts.device.(backBufferWidth := U32(stoi(v).value)))) else None
    case SetHeight(v) =>
      if stoi(v).Some? then Some(opts.(device := opts.device.(backBufferHeight := U32(stoi(v).value)))) else None
    case Fullscreen => Some(opts.(device := opts.device.(startFullscreen := true)))
    case Debug => Some(opts.(device := opts.device.(enableDebugRuntime := true, enableNvrhiValidationLayer := true)))
    case NoVsync => Some(opts.(device := opts.device.(vsyncEnabled := false)))
    case PrintGraph => Some(opts.(printSceneGraph := true))
    case PrintFormats => Some(opts.(printFormats := true))
    case SceneName(name) => Some(opts.(sceneName := name))
    case Unknown(_) => Some(opts)
    case MissingValue(_) => None
  }

  /** The commands applied in order; `None` once one is rejected. */
  function Run(cmds: seq<Command>, opts: Options, stoi: string -> Option<int>): Option<Options>
  {
    if |cmds| == 0 then Some(opts)
    else match Apply(cmds[0], opts, stoi)
      case Some(next) => Run(cmds[1..], next, stoi)
      case None => None
  }

  lemma RunFirst(cmd: Command, rest: seq<Command>, opts: Options, stoi: string -> Option<int>)
    requires Apply(cmd, opts, stoi).Some?
    ensures Run([cmd] + rest, opts, stoi) == Run(rest, Apply(cmd, opts, stoi).value, stoi)
  {
    assert ([cmd] + rest)[1..] == rest;
  }

  /**
   * One step of the parser's loop: the tests on argument `i` and the
   * setting they write. Fails when `-width` or `-height` has no number
   * after it.
   */
  method ParseArgument(args: seq<string>, i: nat, opts: Options, stoi: string -> Option<int>)
    returns (ok: bool, next: nat, result: Options)
    requires i < |args|
    ensures var (cmd, after) := NextCommand(args, i);
      (ok <==> Apply(cmd, opts, stoi).Some?) && (ok ==> next == after && result == Apply(cmd, opts, stoi).value)
  {
    var kind := Classify(args[i]);
    next := i;
    result := opts;
    ok := true;
    if kind == WidthOption || kind == HeightOption {
      if next + 1 >= |args| {
        return false, next, result;
      }
      next := next + 1;
      var value := stoi(args[next]);
      if value.None? {
        return false, next, result;
      }
      if kind == WidthOption {
        result := result.(device := result.device.(backBufferWidth := U32(value.value)));
      } else {
        result := result.(device := result.device.(backBufferHeight := U32(value.value)));
      }
    } else if kind == FullscreenOption {
      result := result.(device := result.device.(startFullscreen := true));
    } else if kind == DebugOption {
      result := result.(device := result.device.(enableDebugRuntime := true, enableNvrhiValidationLayer := true));
    } else if kind == NoVsyncOption {
      result := result.(device := result.device.(vsyncEnabled := false));
    } else if kind == PrintGraphOption {
      result := result.(printSceneGraph := true);
    } else if kind == PrintFormatsOption {
      result := result.(printFormats := true);
    } else if kind == Positional {
      result := result.(sceneName := args[i]);
    }
    next := next + 1;
  }

  /**
   * Parses `argv` from its second entry on. A `-width` or `-height`
   * without a following number rejects the command line, so that the
   * caller reports the failure.
   */
  method ProcessCommandLine(args: seq<string>, init: Options, stoi: string -> Option<int>)
    returns (ok: bool, opts: Options)
    ensures ok <==> Run(Tokenize(args, 1), init, stoi).Some?
    ensures ok ==> opts == Run(Tokenize(args, 1), init, stoi).value
  {
    opts := init;
    var i := 1;
    while i < |args|
      invariant i >= 1
      invariant Run(Tokenize(args, i), opts, stoi) == Run(Tokenize(args, 1), init, stoi)
      decreases |args| - i
    {
      ghost var (cmd, after) := NextCommand(args, i);
      var accepted, next, result := ParseArgument(args, i, opts, stoi);
      if !accepted {
        return false, opts;
      }
      RunFirst(cmd, Tokenize(args, after), opts, stoi);
      i, opts := next, result;
    }
    return true, opts;
  }

  /** The scene named last in `cmds`, or `current` when none is. */
  function LastSceneName(cmds: seq<Command>, current: string): string
  {
    if |cmds| == 0 then current
    else if cmds[|cmds| - 1].SceneName? then cmds[|cmds| - 1].name
    else LastSceneName(cmds[..|cmds| - 1], current)
  }

  lemma {:induction false} LastSceneNameFirst(cmds: seq<Command>, current: string)
    requires |cmds| > 0
    ensures LastSceneName(cmds, current)
      == LastSceneName(cmds[1..], if cmds[0].SceneName? then cmds[0].name else current)
    decreases |cmds|
  {
    if |cmds| > 1 && !cmds[|cmds| - 1].SceneName? {
      var front := cmds[..|cmds| - 1];
      LastSceneNameFirst(front, current);
      assert front[1..] == cmds[1..][..|cmds[1..]| - 1];
    }
  }

  /** An accepted command line names the scene given last. */
  lemma {:induction false} RunSceneName(cmds: seq<Command>, opts: Options, stoi: string -> Option<int>)
    requires Run(cmds, opts, stoi).Some?
    ensures Run(cmds, opts, stoi).value.sceneName == LastSceneName(cmds, opts.sceneName)
    decreases |cmds|
  {
    if |cmds| > 0 {
      var next := Apply(cmds[0], opts, stoi).value;
      RunSceneName(cmds[1..], next, stoi);
      LastSceneNameFirst(cmds, opts.sceneName);
    }
  }

  /** `-debug` turns on both the debug runtime and the validation layer; nothing turns them off. */
  lemma {:induction false} RunDebugFlags(cmds: seq<Command>, opts: Options, stoi: string -> Option<int>)
    requires Run(cmds, opts, stoi).Some?
    ensures Run(cmds, opts, stoi).value.device.enableDebugRuntime <==> opts.device.enableDebugRuntime || Debug in cmds
    ensures Run(cmds, opts, stoi).value.device.enableNvrhiValidationLayer
      <==> opts.device.enableNvrhiValidationLayer || Debug in cmds
    decreases |cmds|
  {
    if |cmds| > 0 {
      var next := Apply(cmds[0], opts, stoi).value;
      RunDebugFlags(cmds[1..], next, stoi);
      assert cmds == [cmds[0]] + cmds[1..];
    }
  }

  /** How the process leaves `ProcessCommandLine` as written. */
  datatype Outcome = Returned(ok: bool, opts: Options) | Terminated

  /**
   * The parser as written: a missing value makes `std::stoi` read the null
   * `argv[argc]`, and a value `std::stoi` rejects throws; both end the
   * process. Otherwise it returns true.
   */
  function RunAsWritten(cmds: seq<Command>, opts: Options, stoi: string -> Option<int>): Outcome
  {
    if |cmds| == 0 then Returned(true, opts)
    else match Apply(cmds[0], opts, stoi)
      case Some(next) => RunAsWritten(cmds[1..], next, stoi)
      case None => Terminated
  }

  /** `ProcessCommandLine` as written never reports failure to `main`. */
  lemma {:induction false} AsWrittenNeverFails(cmds: seq<Command>, opts: Options, stoi: string -> Option<int>)
    ensures RunAsWritten(cmds, opts, stoi).Returned? ==> RunAsWritten(cmds, opts, stoi).ok
    ensures RunAsWritten(cmds, opts, stoi).Returned? <==> Run(cmds, opts, stoi).Some?
    ensures Run(cmds, opts, stoi).Some? ==> RunAsWritten(cmds, opts, stoi).opts == Run(cmds, opts, stoi).value
    decreases |cmds|
  {
    if |cmds| > 0 && Apply(cmds[0], opts, stoi).Some? {
      AsWrittenNeverFails(cmds[1..], Apply(cmds[0], opts, stoi).value, stoi);
    }
  }

  /** `feature_demo -width` ends the process instead of reporting a bad command line. */
  lemma MissingWidthTerminates(stoi: string -> Option<int>)
    ensures Tokenize(["feature_demo", "-width"], 1) == [MissingValue("-width")]
    ensures RunAsWritten(Tokenize(["feature_demo", "-width"], 1), DEFAULT_OPTIONS, stoi) == Terminated
    ensures Run(Tokenize(["feature_demo", "-width"], 1), DEFAULT_OPTIONS, stoi) == None
  {
    assert ["feature_demo", "-width"][1] == "-width";
  }

  /** Common command lines and what they set. */
  lemma CommandLineExamples(stoi: string -> Option<int>)
    requires stoi("1280") == Some(1280)
    ensures var r := Run(Tokenize(["feature_demo", "-width", "1280", "-debug", "Box.gltf"], 1), DEFAULT_OPTIONS, stoi);
      r.Some? && r.value.device.backBufferWidth == 1280 && r.value.device.backBufferHeight == 1080
      && r.value.device.enableDebugRuntime && r.value.sceneName == "Box.gltf"
  {
    var args := ["feature_demo", "-width", "1280", "-debug", "Box.gltf"];
    assert args[1] == "-width" && args[2] == "1280" && args[3] == "-debug" && args[4] == "Box.gltf";
    assert Tokenize(args, 1) == [SetWidth("1280"), Debug, SceneName("Box.gltf")];
  }
}
