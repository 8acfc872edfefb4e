/**
 * The variable-rate-shading sample: a compute pass writes a shading-rate
 * surface with one texel per hardware tile, the forward passes draw with
 * that surface enabled, and temporal anti-aliasing resolves at full rate.
 * Size-dependent objects are created lazily and dropped on a resize.
 */
module VariableShading {
  import opened Wrappers
  import opened CTypes
  import opened Nvrhi

  /**
   * Size of the shading-rate surface: the framebuffer size divided by the
   * tile size, rounded up, in `uint` arithmetic.
   */
  function SurfaceExtent(framebuffer: Extent, tileSize: nat): Extent
    requires tileSize > 0
  {
    Extent(TileCount(framebuffer.width, tileSize), TileCount(framebuffer.height, tileSize))
  }

  /** `(size + tile - 1) / tile` with the sum wrapping as a `uint`. */
  function TileCount(size: nat, tileSize: nat): nat
    requires tileSize > 0
  {
    var sum: nat := U32(size + tileSize - 1);
    DivBounds(sum, tileSize, sum / tileSize);
    sum / tileSize
  }

  /** Rounding up: the tiles cover the framebuffer, and one tile fewer would not. */
  lemma SurfaceCoversFramebuffer(framebuffer: Extent, tileSize: nat)
    requires tileSize > 0
    requires IsU32(framebuffer.width + tileSize - 1) && IsU32(framebuffer.height + tileSize - 1)
    ensures var s := SurfaceExtent(framebuffer, tileSize);
      s.width * tileSize >= framebuffer.width && (s.width == 0 || (s.width - 1) * tileSize < framebuffer.width)
      && s.height * tileSize >= framebuffer.height && (s.height == 0 || (s.height - 1) * tileSize < framebuffer.height)
  {
    assert TileCount(framebuffer.width, tileSize) == CeilDiv(framebuffer.width, tileSize);
    assert TileCount(framebuffer.height, tileSize) == CeilDiv(framebuffer.height, tileSize);
  }

  /** D3D12_RS_SET_SHADING_RATE_COMBINER_COUNT. */
  const COMBINER_COUNT: nat := 2

  datatype ShadingRate = Rate1x1

  /** How shading rates from different sources combine: coarsest wins, or the image overrides. */
  datatype Combiner = CombinerMax | CombinerOverride

  datatype SurfaceState = UnorderedAccess | ShadingRateSource

  /** The commands of one frame that the shading-rate logic orders. */
  datatype FrameCommand =
    | RenderMotionVectors
    | GenerateShadingRate(groupsX: nat, groupsY: nat)
    | ClearRenderTargets
    | SurfaceBarrier(before: SurfaceState, after: SurfaceState)
    | EnableVrs(rate: ShadingRate, combiners: seq<Combiner>)
    | DisableVrs
    | DrawOpaque
    | DrawTransparent
    | TemporalResolve(previousValid: bool)
    | BlitToFramebuffer

  /** Whether variable-rate shading is on after `cmds`: the last switch wins. */
  function VrsOn(cmds: seq<FrameCommand>): bool
  {
    if |cmds| == 0 then false
    else if cmds[|cmds| - 1].EnableVrs? then true
    else if cmds[|cmds| - 1].DisableVrs? then false
    else VrsOn(cmds[..|cmds| - 1])
  }

  lemma VrsOnAppend(cmds: seq<FrameCommand>, cmd: FrameCommand)
    ensures VrsOn(cmds + [cmd]) == (if cmd.EnableVrs? then true else if cmd.DisableVrs? then false else VrsOn(cmds))
  {
    assert (cmds + [cmd])[..|cmds|] == cmds;
  }

  predicate IsDraw(cmd: FrameCommand)
  {
    cmd.DrawOpaque? || cmd.DrawTransparent?
  }

  /** Every draw happens with VRS on, and the frame ends with it off. */
  predicate VrsBracketsDraws(cmds: seq<FrameCommand>)
  {
    (forall k :: 0 <= k < |cmds| && IsDraw(cmds[k]) ==> VrsOn(cmds[..k])) && !VrsOn(cmds)
  }

  /** Appending a command that neither draws nor switches VRS keeps the property. */
  lemma BracketsAppendPlain(cmds: seq<FrameCommand>, cmd: FrameCommand)
    requires VrsBracketsDraws(cmds) && !IsDraw(cmd) && !cmd.EnableVrs?
    ensures VrsBracketsDraws(cmds + [cmd])
  {
    VrsOnAppend(cmds, cmd);
    var next := cmds + [cmd];
    forall k | 0 <= k < |next| && IsDraw(next[k])
      ensures VrsOn(next[..k])
    {
      assert k < |cmds| && next[..k] == cmds[..k];
    }
  }

  /** Switching VRS on, drawing both passes and switching it off again. */
  lemma BracketsAppendDraws(cmds: seq<FrameCommand>, enable: FrameCommand, disable: seq<FrameCommand>)
    requires VrsBracketsDraws(cmds) && enable.EnableVrs?
    requires |disable| > 0 && disable[|disable| - 1].DisableVrs?
    requires forall i :: 0 <= i < |disable| ==> !IsDraw(disable[i]) && !disable[i].EnableVrs?
    ensures VrsBracketsDraws(cmds + [enable, DrawOpaque, DrawTransparent] + disable)
  {
    var on := cmds + [enable];
    VrsOnAppend(cmds, enable);
    VrsOnAppend(on, DrawOpaque);
    assert on + [DrawOpaque] + [DrawTransparent] == cmds + [enable, DrawOpaque, DrawTransparent];
    var all := cmds + [enable, DrawOpaque, DrawTransparent] + disable;
    forall k | 0 <= k < |all| && IsDraw(all[k])
      ensures VrsOn(all[..k])
    {
      if k < |cmds| {
        assert all[..k] == cmds[..k];
      } else if k == |cmds| + 1 {
        assert all[..k] == on;
      } else {
        assert k == |cmds| + 2;
        assert all[..k] == on + [DrawOpaque];
      }
    }
    var front := all[..|all| - 1];
    VrsOnAppend(front, disable[|disable| - 1]);
    assert front + [disable[|disable| - 1]] == all;
  }

  /** Drawing nothing and switching nothing leaves VRS off throughout. */
  lemma {:induction false} PlainBrackets(cmds: seq<FrameCommand>)
    requires forall i :: 0 <= i < |cmds| ==> !IsDraw(cmds[i]) && !cmds[i].EnableVrs?
    ensures VrsBracketsDraws(cmds)
  {
    if |cmds| > 0 {
      var front := cmds[..|cmds| - 1];
      PlainBrackets(front);
      BracketsAppendPlain(front, cmds[|cmds| - 1]);
      assert front + [cmds[|cmds| - 1]] == cmds;
    }
  }

  /** Motion vectors (only against a valid previous view), the shading-rate dispatch, the clear. */
  function FramePrelude(previousValid: bool, surface: Extent): seq<FrameCommand>
  {
    (if previousValid then [RenderMotionVectors] else []) + [GenerateShadingRate(surface.width, surface.height), ClearRenderTargets]
  }

  /** Raw D3D12 makes the surface a shading-rate source and uses MAX combiners; nvrhi lets the image override. */
  function VrsEnable(useRawD3D12: bool): seq<FrameCommand>
  {
    if useRawD3D12 then [SurfaceBarrier(UnorderedAccess, ShadingRateSource), EnableVrs(Rate1x1, seq(COMBINER_COUNT, _ => CombinerMax))]
    else [EnableVrs(Rate1x1, [CombinerOverride])]
  }

  function VrsDisable(useRawD3D12: bool): seq<FrameCommand>
  {
    if useRawD3D12 then [SurfaceBarrier(ShadingRateSource, UnorderedAccess), DisableVrs] else [DisableVrs]
  }

  /** The commands of one frame, in recording order. */
  function FrameCommands(previousValid: bool, surface: Extent, useRawD3D12: bool): seq<FrameCommand>
  {
    FramePrelude(previousValid, surface) + VrsEnable(useRawD3D12) + [DrawOpaque, DrawTransparent]
      + VrsDisable(useRawD3D12) + [TemporalResolve(previousValid), BlitToFramebuffer]
  }

  /** The shading-rate surface is generated before anything is drawn. */
  predicate GeneratedBeforeDraws(cmds: seq<FrameCommand>, surface: Extent)
  {
    forall k :: 0 <= k < |cmds| && IsDraw(cmds[k]) ==> GenerateShadingRate(surface.width, surface.height) in cmds[..k]
  }

  /** Motion vectors are rendered exactly when the previous view is valid. */
  lemma FrameMotionVectors(previousValid: bool, surface: Extent, useRawD3D12: bool)
    ensures RenderMotionVectors in FrameCommands(previousValid, surface, useRawD3D12) <==> previousValid
  {
    var cmds := FrameCommands(previousValid, surface, useRawD3D12);
    var rest := [GenerateShadingRate(surface.width, surface.height), ClearRenderTargets] + VrsEnable(useRawD3D12)
      + [DrawOpaque, DrawTransparent] + VrsDisable(useRawD3D12) + [TemporalResolve(previousValid), BlitToFramebuffer];
    assert RenderMotionVectors !in rest;
    assert cmds == (if previousValid then [RenderMotionVectors] else []) + rest;
  }

  /** Both forward passes draw with VRS on, VRS is off at the end, and the surface is generated first. */
  lemma FrameBracketsDraws(previousValid: bool, surface: Extent, useRawD3D12: bool)
    ensures VrsBracketsDraws(FrameCommands(previousValid, surface, useRawD3D12))
    ensures GeneratedBeforeDraws(FrameCommands(previousValid, surface, useRawD3D12), surface)
    ensures DrawOpaque in FrameCommands(previousValid, surface, useRawD3D12)
    ensures DrawTransparent in FrameCommands(previousValid, surface, useRawD3D12)
  {
    var prelude := FramePrelude(previousValid, surface);
    var enable := VrsEnable(useRawD3D12);
    var disable := VrsDisable(useRawD3D12);
    var cmds := FrameCommands(previousValid, surface, useRawD3D12);
    var switchOn := prelude + enable[..|enable| - 1];
    PlainBrackets(switchOn);
    BracketsAppendDraws(switchOn, enable[|enable| - 1], disable);
    var drawn := switchOn + [enable[|enable| - 1], DrawOpaque, DrawTransparent] + disable;
    assert drawn == prelude + enable + [DrawOpaque, DrawTransparent] + disable;
    BracketsAppendPlain(drawn, TemporalResolve(previousValid));
    BracketsAppendPlain(drawn + [TemporalResolve(previousValid)], BlitToFramebuffer);
    assert drawn + [TemporalResolve(previousValid)] + [BlitToFramebuffer] == cmds;
    var g := GenerateShadingRate(surface.width, surface.height);
    assert cmds[|prelude| - 2] == g;
    forall k | 0 <= k < |cmds| && IsDraw(cmds[k])
      ensures g in cmds[..k]
    {
      assert cmds[..k][|prelude| - 2] == g;
    }
    assert cmds[|prelude| + |enable|] == DrawOpaque;
    assert cmds[|prelude| + |enable| + 1] == DrawTransparent;
  }

  /** The rate and combiners VRS is switched on with, per path, and the temporal resolve that follows. */
  lemma FrameVrsSettings(previousValid: bool, surface: Extent, useRawD3D12: bool)
    ensures useRawD3D12 ==> EnableVrs(Rate1x1, seq(COMBINER_COUNT, _ => CombinerMax)) in FrameCommands(previousValid, surface, useRawD3D12)
    ensures !useRawD3D12 ==> EnableVrs(Rate1x1, [CombinerOverride]) in FrameCommands(previousValid, surface, useRawD3D12)
    ensures TemporalResolve(previousValid) in FrameCommands(previousValid, surface, useRawD3D12)
  {
    var prelude := FramePrelude(previousValid, surface);
    var enable := VrsEnable(useRawD3D12);
    var cmds := FrameCommands(previousValid, surface, useRawD3D12);
    assert cmds[|prelude| + |enable| - 1] == enable[|enable| - 1];
    assert cmds[|cmds| - 2] == TemporalResolve(previousValid);
  }

  /** Some argument after the program name is exactly "-raw". */
  predicate RawFlagGiven(args: seq<string>)
  {
    exists i :: 1 <= i < |args| && args[i] == "-raw"
  }

  /** The raw D3D12 path is taken when "-raw" is given and D3D12 is the selected API. */
  method SelectRawPath(args: seq<string>, api: GraphicsApi) returns (rawD3D12: bool)
    ensures rawD3D12 <==> RawFlagGiven(args) && api == D3D12
  {
    rawD3D12 := false;
    var i := 1;
    while i < |args|
      invariant 1 <= i || |args| == 0
      invariant rawD3D12 <==> (exists j :: 1 <= j < i && j < |args| && args[j] == "-raw") && api == D3D12
    {
      if args[i] == "-raw" {
        rawD3D12 := api == D3D12;
      }
      i := i + 1;
    }
  }

  class VariableShadingApp {
    const useRawD3D12: bool
    /** The hardware tile size the shading-rate surface is sampled with. */
    const vrsTileSize: nat
    var renderTargets: Option<Extent>
    var shadingRateSurface: Option<Extent>
    var forwardPass: bool
    /** The surface the forward framebuffer shades with (nvrhi path only). */
    var framebufferShadingRate: Option<Extent>
    var temporalPass: bool
    /** The compute pipeline and the surface its binding set writes. */
    var pipeline: Option<Extent>
    var previousViewsValid: bool
    /** The camera view of the last resolved frame. */
    var viewPrevious: nat

    /** Either nothing size-dependent exists, or everything does and refers to the current surface. */
    ghost predicate Valid()
      reads this
    {
      vrsTileSize > 0
      && (renderTargets.None? ==>
            (shadingRateSurface.None? && !forwardPass && !temporalPass && pipeline.None?
             && framebufferShadingRate.None?))
      && (forwardPass ==>
            (renderTargets.Some? && shadingRateSurface.Some?
             && framebufferShadingRate == (if useRawD3D12 then None else shadingRateSurface)))
      && (!forwardPass ==> framebufferShadingRate.None?)
      && (pipeline.Some? ==> pipeline == shadingRateSurface)
    }

    constructor (useRawD3D12: bool, vrsTileSize: nat)
      requires vrsTileSize > 0
      ensures Valid() && this.useRawD3D12 == useRawD3D12 && this.vrsTileSize == vrsTileSize
      ensures renderTargets.None? && !previousViewsValid
    {
      this.useRawD3D12 := useRawD3D12;
      this.vrsTileSize := vrsTileSize;
      renderTargets := None;
      shadingRateSurface := None;
      forwardPass := false;
      framebufferShadingRate := None;
      temporalPass := false;
      pipeline := None;
      previousViewsValid := false;
      viewPrevious := 0;
    }

    /** Drops every size-dependent object; the next frame recreates them. */
    method BackBufferResizing()
      requires Valid()
      modifies this`renderTargets, this`forwardPass, this`shadingRateSurface, this`temporalPass, this`pipeline
      modifies this`framebufferShadingRate
      ensures Valid()
      ensures renderTargets.None? && shadingRateSurface.None? && !forwardPass && !temporalPass && pipeline.None?
      ensures previousViewsValid == old(previousViewsValid)
    {
      renderTargets := None;
      forwardPass := false;
      framebufferShadingRate := None;
      shadingRateSurface := None;
      temporalPass := false;
      pipeline := None;
    }

    /** The D3D12 combiners: the coarsest rate from any source wins. */
    static method MaxCombiners() returns (combiners: array<Combiner>)
      ensures fresh(combiners) && combiners.Length == COMBINER_COUNT
      ensures forall i :: 0 <= i < COMBINER_COUNT ==> combiners[i] == CombinerMax
    {
      combiners := new Combiner[COMBINER_COUNT](_ => CombinerOverride);
      for i := 0 to COMBINER_COUNT
        invariant forall k :: 0 <= k < i ==> combiners[k] == CombinerMax
      {
        combiners[i] := CombinerMax;
      }
    }

    /** Creates whatever a resize dropped, sized for `framebuffer`. */
    method CreateMissing(framebuffer: Extent)
      requires Valid()
      modifies this`renderTargets, this`forwardPass, this`shadingRateSurface, this`temporalPass, this`pipeline
      modifies this`framebufferShadingRate
      ensures Valid()
      ensures renderTargets == (if old(renderTargets).None? then Some(framebuffer) else old(renderTargets))
      ensures shadingRateSurface == (if old(shadingRateSurface).None?
        then Some(SurfaceExtent(framebuffer, vrsTileSize)) else old(shadingRateSurface))
      ensures forwardPass && temporalPass && pipeline == shadingRateSurface
    {
      if renderTargets.None? {
        renderTargets := Some(framebuffer);
      }
      var surfaceSize := SurfaceExtent(framebuffer, vrsTileSize);
      if shadingRateSurface.None? {
        shadingRateSurface := Some(surfaceSize);
      }
      if !forwardPass {
        forwardPass := true;
        if !useRawD3D12 {
          framebufferShadingRate := shadingRateSurface;
        }
      }
      if !temporalPass {
        temporalPass := true;
      }
      if pipeline.None? {
        pipeline := shadingRateSurface;
      }
    }

    /**
     * One frame: motion vectors against a valid previous view, the
     * shading-rate dispatch, the forward passes with VRS on (raw D3D12:
     * MAX combiners at a 1x1 draw rate; nvrhi: the image overrides a 1x1
     * rate), then the full-rate temporal resolve, after which the current
     * view becomes the previous one.
     */
    method Render(framebuffer: Extent, view: nat) returns (commands: seq<FrameCommand>)
      requires Valid()
      modifies this`renderTargets, this`forwardPass, this`shadingRateSurface, this`temporalPass, this`pipeline
      modifies this`framebufferShadingRate, this`previousViewsValid, this`viewPrevious
      ensures Valid()
      ensures renderTargets == (if old(renderTargets).None? then Some(framebuffer) else old(renderTargets))
      ensures shadingRateSurface == (if old(shadingRateSurface).None?
        then Some(SurfaceExtent(framebuffer, vrsTileSize)) else old(shadingRateSurface))
      ensures forwardPass && temporalPass && pipeline == shadingRateSurface
      ensures commands == FrameCommands(old(previousViewsValid), SurfaceExtent(framebuffer, vrsTileSize), useRawD3D12)
      ensures previousViewsValid && viewPrevious == view
    {
      CreateMissing(framebuffer);
      var surfaceSize := SurfaceExtent(framebuffer, vrsTileSize);

      commands := FramePrelude(previousViewsValid, surfaceSize);
      if useRawD3D12 {
        commands := commands + [SurfaceBarrier(UnorderedAccess, ShadingRateSource)];
        var combiners := MaxCombiners();
        assert combiners[..] == seq(COMBINER_COUNT, _ => CombinerMax);
        commands := commands + [EnableVrs(Rate1x1, combiners[..]), DrawOpaque, DrawTransparent];
        commands := commands + [SurfaceBarrier(ShadingRateSource, UnorderedAccess), DisableVrs];
      } else {
        commands := commands + [EnableVrs(Rate1x1, [CombinerOverride]), DrawOpaque, DrawTransparent] + [DisableVrs];
      }
      commands := commands + [TemporalResolve(previousViewsValid)];
      viewPrevious := view;
      previousViewsValid := true;
      commands := commands + [BlitToFramebuffer];
    }
  }
}
