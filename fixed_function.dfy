/**
 * Fixed-function state encoders: the scissor (tu6_emit_scissor), the integer part of the
 * viewport (tu6_emit_viewport), GRAS_SU_CNTL (tu6_gras_su_cntl), the depth and stencil control
 * words (tu6_emit_depth_control, tu6_emit_stencil_control) and the fragment outputs with the
 * early/late-Z choice (tu6_emit_fs_outputs).
 */
module FixedFunction {
  import opened Hw
  import opened CmdStream

  // ---------------------------------------------------------------------------
  // Scissor
  // ---------------------------------------------------------------------------

  /** BITFIELD_MASK(15): the largest coordinate the scissor registers hold. */
  const ScissorMax: nat := 0x7fff

  /** A VkRect2D. */
  datatype Rect = Rect(x: int, y: int, width: nat, height: nat)

  /**
   * The valid-usage rules of the Vulkan specification for a scissor: offsets are not negative and
   * offset + extent does not overflow a 32-bit signed integer, so the C sum never wraps.
   */
  predicate RectOk(r: Rect)
  {
    0 <= r.x && 0 <= r.y && r.x + r.width < 0x8000_0000 && r.y + r.height < 0x8000_0000
  }

  /** One axis of the scissor: the first coordinate, after the empty-at-origin case and the clamp. */
  function AxisMin(offset: nat, extent: nat): nat
  {
    Min(ScissorMax, if offset + extent == 0 then 1 else offset)
  }

  /** One axis of the scissor: one past the last coordinate, after the same two steps. */
  function AxisEnd(offset: nat, extent: nat): (e: nat)
    ensures e >= 1
  {
    Min(ScissorMax, if offset + extent == 0 then 1 else offset + extent)
  }

  /** GRAS_SC_SCREEN_SCISSOR_TL and _BR: the bottom-right corner is inclusive. */
  function ScissorWords(r: Rect): seq<Word>
    requires RectOk(r)
  {
    [ Pkt4(GrasScScreenScissorTl0, 2),
      Field(ScissorXY(AxisMin(r.x, r.width), AxisMin(r.y, r.height))),
      Field(ScissorXY(AxisEnd(r.x, r.width) - 1, AxisEnd(r.y, r.height) - 1)) ]
  }

  /**
   * Per axis: both corners stay within the 15-bit range and the inclusive end never underflows;
   * the scissor is non-empty exactly when the extent is and the offset is below the clamp; and
   * a rectangle the registers can hold is programmed exactly.
   */
  lemma ScissorAxis(offset: nat, extent: nat)
    ensures var lo, end := AxisMin(offset, extent), AxisEnd(offset, extent);
      && lo <= ScissorMax && 0 <= end - 1 < ScissorMax
      && end >= lo
      && (end - 1 >= lo <==> extent > 0 && offset < ScissorMax)
      && (extent > 0 && offset + extent <= ScissorMax ==> lo == offset && end - 1 == offset + extent - 1)
  {
  }

  /** tu6_emit_scissor */
  method EmitScissor(cs: Cs, r: Rect)
    requires RectOk(r)
    requires cs.Valid() && cs.Room() >= 3
    modifies cs
    ensures cs.Valid() && cs.words == old(cs.words) + ScissorWords(r)
  {
    var minX: nat, minY: nat := r.x, r.y;
    var maxX: nat, maxY: nat := r.x + r.width, r.y + r.height;
    if maxX == 0 {
      minX, maxX := 1, 1;
    }
    if maxY == 0 {
      minY, maxY := 1, 1;
    }
    minX := Min(ScissorMax, minX);
    minY := Min(ScissorMax, minY);
    maxX := Min(ScissorMax, maxX);
    maxY := Min(ScissorMax, maxY);
    cs.EmitPkt4(GrasScScreenScissorTl0, 2);
    cs.Emit(Field(ScissorXY(minX, minY)));
    cs.Emit(Field(ScissorXY(maxX - 1, maxY - 1)));
  }

  // ---------------------------------------------------------------------------
  // Viewport
  // ---------------------------------------------------------------------------

  /**
   * The pixel box of a viewport as tu6_emit_viewport derives it from the floating-point
   * viewport (truncated minimum, rounded-up maximum, y flipped for a negative height).
   */
  datatype ViewportBox = ViewportBox(minX: int, minY: int, maxX: int, maxY: int)

  /** A zero-height viewport gets one row: max.y is bumped when it equals min.y. */
  function BumpedMaxY(b: ViewportBox): int
  {
    if b.minY == b.maxY then b.maxY + 1 else b.maxY
  }

  /** What the assertions after the bump demand: a box with a non-negative corner and no inverted axis. */
  predicate BoxOk(b: ViewportBox)
  {
    0 <= b.minX < b.maxX && 0 <= b.minY <= b.maxY
  }

  /**
   * The viewport block: offsets and scales (floating point), the viewport scissor with an
   * inclusive bottom-right corner, the guardband and the depth clamps (floating point).
   */
  function ViewportWords(b: ViewportBox): (ws: seq<Word>)
    requires BoxOk(b)
    ensures |ws| == 18
  {
    [ Pkt4(GrasClVportXOffset0, 6),
      Field(FloatWord("xoffset")), Field(FloatWord("xscale")), Field(FloatWord("yoffset")),
      Field(FloatWord("yscale")), Field(FloatWord("zoffset")), Field(FloatWord("zscale")),
      Pkt4(GrasScViewportScissorTl0, 2),
      Field(ScissorXY(b.minX, b.minY)), Field(ScissorXY(b.maxX - 1, BumpedMaxY(b) - 1)),
      Pkt4(GrasClGuardbandClipAdj, 1), Field(FloatWord("guardband")),
      Pkt4(GrasClZClampMin0, 2), Field(FloatWord("z_clamp_min")), Field(FloatWord("z_clamp_max")),
      Pkt4(RbZClampMin, 2), Field(FloatWord("z_clamp_min")), Field(FloatWord("z_clamp_max")) ]
  }

  /** After the bump the viewport scissor covers at least one pixel in each direction, zero height included. */
  lemma ViewportNonEmpty(b: ViewportBox)
    requires BoxOk(b)
    ensures var ws := ViewportWords(b);
      ws[8].f.x <= ws[9].f.x && ws[8].f.y <= ws[9].f.y && ws[8].f.x >= 0 && ws[8].f.y >= 0
    ensures b.minY == b.maxY ==> ViewportWords(b)[9].f.y == b.minY
  {
  }

  /** tu6_emit_viewport, on the pixel box. */
  method EmitViewport(cs: Cs, b: ViewportBox)
    requires BoxOk(b)
    requires cs.Valid() && cs.Room() >= 18
    modifies cs
    ensures cs.Valid() && cs.words == old(cs.words) + ViewportWords(b)
  {
    var maxY := b.maxY;
    if b.minY == maxY {
      maxY := maxY + 1;
    }
    cs.EmitAll([ Pkt4(GrasClVportXOffset0, 6),
                 Field(FloatWord("xoffset")), Field(FloatWord("xscale")), Field(FloatWord("yoffset")),
                 Field(FloatWord("yscale")), Field(FloatWord("zoffset")), Field(FloatWord("zscale")) ]);
    cs.EmitPkt4(GrasScViewportScissorTl0, 2);
    cs.Emit(Field(ScissorXY(b.minX, b.minY)));
    cs.Emit(Field(ScissorXY(b.maxX - 1, maxY - 1)));
    cs.EmitAll([ Pkt4(GrasClGuardbandClipAdj, 1), Field(FloatWord("guardband")),
                 Pkt4(GrasClZClampMin0, 2), Field(FloatWord("z_clamp_min")), Field(FloatWord("z_clamp_max")),
                 Pkt4(RbZClampMin, 2), Field(FloatWord("z_clamp_min")), Field(FloatWord("z_clamp_max")) ]);
  }

  // ---------------------------------------------------------------------------
  // GRAS_SU_CNTL
  // ---------------------------------------------------------------------------

  /** VkCullModeFlags bits and VK_SAMPLE_COUNT_1_BIT */
  const CullFrontBit: nat := 1
  const CullBackBit: nat := 2
  const SampleCount1: nat := 1

  /** The Vulkan rasterization state fields tu6_gras_su_cntl reads. */
  datatype RastInfo = RastInfo(cullMode: nat, frontFaceCw: bool, depthBiasEnable: bool, depthClampEnable: bool)

  /** tu6_gras_su_cntl, which leaves LINEHALFWIDTH zero (see Builder.GrasSuCntlFor). */
  function SuCntlOf(rast: RastInfo, samples: nat): (v: RegValue)
    ensures v.SuCntl?
    ensures v.cullFront <==> rast.cullMode % (2 * CullFrontBit) >= CullFrontBit
    ensures v.cullBack <==> rast.cullMode % (2 * CullBackBit) >= CullBackBit
    ensures v.frontCw == rast.frontFaceCw && v.polyOffset == rast.depthBiasEnable
    ensures v.msaaEnable <==> samples > SampleCount1
    ensures !v.lineHalfWidth
  {
    SuCntl(rast.cullMode % 2 == 1, (rast.cullMode / 2) % 2 == 1, rast.frontFaceCw, rast.depthBiasEnable,
           samples > SampleCount1, false)
  }

  /**
   * Culling follows the cull mode (NONE culls nothing, FRONT_AND_BACK culls both faces), and
   * MSAA is enabled exactly for multisampled rasterization.
   */
  lemma SuCntlCulling(rast: RastInfo, samples: nat)
    requires rast.cullMode < 4
    ensures var v := SuCntlOf(rast, samples);
      && (v.cullFront && v.cullBack <==> rast.cullMode == CullFrontBit + CullBackBit)
      && (!v.cullFront && !v.cullBack <==> rast.cullMode == 0)
      && (v.cullFront && !v.cullBack <==> rast.cullMode == CullFrontBit)
      && (v.msaaEnable <==> samples > 1)
  {
  }

  // ---------------------------------------------------------------------------
  // Depth and stencil
  // ---------------------------------------------------------------------------

  /** A VkStencilOpState; ops and the compare function are Vulkan values for the foreign tables. */
  datatype StencilOpState = StencilOpState(failOp: nat, passOp: nat, depthFailOp: nat, compareOp: nat,
                                           compareMask: nat, writeMask: nat, reference: nat)

  /** The integer fields of a VkPipelineDepthStencilStateCreateInfo (the depth bounds are floats). */
  datatype DepthStencilInfo = DepthStencilInfo(depthTest: bool, depthWrite: bool, depthCompareOp: nat,
                                               depthBoundsTest: bool, stencilTest: bool,
                                               front: StencilOpState, back: StencilOpState)

  /** The zero-initialised dummy_ds_info. */
  const DummyDs: DepthStencilInfo :=
    DepthStencilInfo(false, false, 0, false, false, StencilOpState(0, 0, 0, 0, 0, 0, 0), StencilOpState(0, 0, 0, 0, 0, 0, 0))

  /** RB_DEPTH_CNTL when it is all zero. */
  const DepthCntlOff: RegValue := DepthCntl(false, 0, false, false, false, false)

  /** tu6_emit_depth_control's value. */
  function DepthCntlOf(ds: DepthStencilInfo, depthClamp: bool): RegValue
  {
    var test := ds.depthTest;
    DepthCntl(test, if test then ds.depthCompareOp else 0, test || ds.depthBoundsTest,
              test && depthClamp, test && ds.depthWrite, ds.depthBoundsTest)
  }

  /** tu6_emit_stencil_control's value: all zero unless the stencil test is enabled. */
  function StencilControlOf(ds: DepthStencilInfo): RegValue
  {
    if !ds.stencilTest then StencilControl(false, false, false, 0, 0, 0, 0, 0, 0, 0, 0)
    else
      StencilControl(true, true, true,
                     ds.front.compareOp, ds.front.failOp, ds.front.passOp, ds.front.depthFailOp,
                     ds.back.compareOp, ds.back.failOp, ds.back.passOp, ds.back.depthFailOp)
  }

  /**
   * Depth writes and depth clamping take effect only with the depth test; the bounds test always
   * turns on Z_TEST_ENABLE; with neither test the word is zero.
   */
  lemma DepthCntlFlags(ds: DepthStencilInfo, depthClamp: bool)
    ensures var v := DepthCntlOf(ds, depthClamp);
      && (v.zWriteEnable ==> ds.depthTest && v.zEnable) && (v.zClampEnable ==> ds.depthTest && v.zEnable)
      && (v.zWriteEnable <==> ds.depthTest && ds.depthWrite)
      && (ds.depthBoundsTest ==> v.zBoundsEnable && v.zTestEnable)
      && (v == DepthCntlOff <==> !ds.depthTest && !ds.depthBoundsTest)
  {
  }

  /** An 8-bit stencil field: `& 0xff` of a 32-bit value. */
  function Low8(v: nat): (r: nat)
    ensures r < 256 && (v < 256 ==> r == v)
  {
    v % 256
  }

  method EmitDepthControl(cs: Cs, ds: DepthStencilInfo, depthClamp: bool)
    requires cs.Valid() && cs.Room() >= 2
    modifies cs
    ensures cs.Valid() && cs.words == old(cs.words) + [Pkt4(RbDepthCntl, 1), Field(DepthCntlOf(ds, depthClamp))]
  {
    var zEnable, zFunc, zTest, zClamp, zWrite, zBounds := false, 0, false, false, false, false;
    if ds.depthTest {
      zEnable, zFunc, zTest := true, ds.depthCompareOp, true;
      if depthClamp {
        zClamp := true;
      }
      if ds.depthWrite {
        zWrite := true;
      }
    }
    if ds.depthBoundsTest {
      zBounds, zTest := true, true;
    }
    cs.EmitPkt4(RbDepthCntl, 1);
    cs.Emit(Field(DepthCntl(zEnable, zFunc, zTest, zClamp, zWrite, zBounds)));
  }

  method EmitStencilControl(cs: Cs, ds: DepthStencilInfo)
    requires cs.Valid() && cs.Room() >= 2
    modifies cs
    ensures cs.Valid() && cs.words == old(cs.words) + [Pkt4(RbStencilControl, 1), Field(StencilControlOf(ds))]
  {
    cs.EmitPkt4(RbStencilControl, 1);
    cs.Emit(Field(StencilControlOf(ds)));
  }

  // ---------------------------------------------------------------------------
  // Fragment outputs
  // ---------------------------------------------------------------------------

  /**
   * What tu6_emit_fs_outputs reads of the fragment shader: the registers ir3_find_output_regid
   * reports for depth, sample mask, stencil reference, COLOR and DATA0..7, and its flags.
   */
  datatype FsOutputInfo = FsOutputInfo(
    poszRegid: nat, smaskRegid: nat, stencilrefRegid: nat,
    colorRegid: nat, dataRegids: seq<nat>,
    color0Mrt: bool, writesPos: bool, writesSmask: bool, writesStencilref: bool,
    noEarlyz: bool, hasKill: bool)

  predicate FsOutputOk(fs: FsOutputInfo)
  {
    |fs.dataRegids| == 8
  }

  /** Early Z unless the shader or the attachment forces the test after the shader. */
  function ZMode(fs: FsOutputInfo, isS8Uint: bool): (z: ZTestMode)
    ensures z == LateZ <==> fs.noEarlyz || fs.hasKill || fs.writesPos || fs.writesStencilref || isS8Uint
  {
    if fs.noEarlyz || fs.hasKill || fs.writesPos || fs.writesStencilref || isS8Uint then LateZ else EarlyZ
  }

  /**
   * fragdata_regid: with color0_mrt the single COLOR output feeds all eight render targets,
   * otherwise each render target takes its own DATAi output.
   */
  method FragdataRegids(fs: FsOutputInfo) returns (regs: seq<nat>)
    requires FsOutputOk(fs)
    ensures |regs| == 8
    ensures fs.color0Mrt ==> forall i :: 0 <= i < 8 ==> regs[i] == fs.colorRegid
    ensures !fs.color0Mrt ==> regs == fs.dataRegids
    ensures regs == Fragdata(fs)
  {
    var a := new nat[8];
    if fs.color0Mrt {
      a[0] := fs.colorRegid;
      for i := 1 to 8
        invariant a[0] == fs.colorRegid && forall j :: 0 <= j < i ==> a[j] == fs.colorRegid
      {
        a[i] := a[0];
      }
    } else {
      for i := 0 to 8
        invariant forall j :: 0 <= j < i ==> a[j] == fs.dataRegids[j]
      {
        a[i] := fs.dataRegids[i];
      }
    }
    regs := a[..];
  }

  /** The render-target registers as a value. */
  function Fragdata(fs: FsOutputInfo): seq<nat>
    requires FsOutputOk(fs)
  {
    if fs.color0Mrt then seq(8, i => fs.colorRegid) else fs.dataRegids
  }

  function OutputRegWords(regs: seq<nat>): (ws: seq<Word>)
    ensures |ws| == |regs| && forall i :: 0 <= i < |regs| ==> ws[i] == Field(FsOutputReg(regs[i]))
  {
    seq(|regs|, i requires 0 <= i < |regs| => Field(FsOutputReg(regs[i])))
  }

  /** SP_FS_OUTPUT_CNTL0/1 and the eight SP_FS_OUTPUT_REGs. */
  function FsOutputRegsWords(fs: FsOutputInfo, mrtCount: nat, dualSrc: bool): (ws: seq<Word>)
    requires FsOutputOk(fs)
    ensures |ws| == 12
  {
    [ Pkt4(SpFsOutputCntl0, 2),
      Field(FsOutputCntl0(fs.poszRegid, fs.smaskRegid, fs.stencilrefRegid, dualSrc)),
      Field(MrtCount(mrtCount)),
      Pkt4(SpFsOutputReg0, 8) ]
    + OutputRegWords(Fragdata(fs))
  }

  /** The render-component, RB output and depth-plane registers. */
  function FsOutputTailWords(fs: FsOutputInfo, mrtCount: nat, dualSrc: bool,
                             renderComponents: Mask, isS8Uint: bool): (ws: seq<Word>)
    ensures |ws| == 11
  {
    var z := ZMode(fs, isS8Uint);
    [ Pkt4(SpFsRenderComponents, 1), Field(RenderComponents(renderComponents)),
      Pkt4(RbFsOutputCntl0, 2),
      Field(RbFsOutputCntl0Value(fs.writesPos, fs.writesSmask, fs.writesStencilref, dualSrc)),
      Field(MrtCount(mrtCount)),
      Pkt4(RbRenderComponents, 1), Field(RenderComponents(renderComponents)),
      Pkt4(GrasSuDepthPlaneCntl, 1), Field(ZModeValue(z)),
      Pkt4(RbDepthPlaneCntl, 1), Field(ZModeValue(z)) ]
  }

  /** The fragment-output words; ZMode and FragdataRegids state what their fields hold. */
  function FsOutputsWords(fs: FsOutputInfo, mrtCount: nat, dualSrc: bool,
                          renderComponents: Mask, isS8Uint: bool): (ws: seq<Word>)
    requires FsOutputOk(fs)
    ensures |ws| == 23
  {
    FsOutputRegsWords(fs, mrtCount, dualSrc) + FsOutputTailWords(fs, mrtCount, dualSrc, renderComponents, isS8Uint)
  }

  method EmitFsOutputRegs(cs: Cs, fs: FsOutputInfo, mrtCount: nat, dualSrc: bool)
    requires FsOutputOk(fs)
    requires cs.Valid() && cs.Room() >= 12
    modifies cs
    ensures cs.Valid() && cs.words == old(cs.words) + FsOutputRegsWords(fs, mrtCount, dualSrc)
  {
    var regs := FragdataRegids(fs);
    cs.EmitPkt4(SpFsOutputCntl0, 2);
    cs.Emit(Field(FsOutputCntl0(fs.poszRegid, fs.smaskRegid, fs.stencilrefRegid, dualSrc)));
    cs.Emit(Field(MrtCount(mrtCount)));
    cs.EmitPkt4(SpFsOutputReg0, 8);
    cs.EmitAll(OutputRegWords(regs));
  }

  method EmitFsOutputTail(cs: Cs, fs: FsOutputInfo, mrtCount: nat, dualSrc: bool, renderComponents: Mask, isS8Uint: bool)
    requires cs.Valid() && cs.Room() >= 11
    modifies cs
    ensures cs.Valid() && cs.words == old(cs.words) + FsOutputTailWords(fs, mrtCount, dualSrc, renderComponents, isS8Uint)
  {
    var z := EarlyZ;
    if fs.noEarlyz || fs.hasKill || fs.writesPos || fs.writesStencilref || isS8Uint {
      z := LateZ;
    }
    cs.EmitAll([Pkt4(SpFsRenderComponents, 1), Field(RenderComponents(renderComponents))]);
    cs.EmitAll([Pkt4(RbFsOutputCntl0, 2),
                Field(RbFsOutputCntl0Value(fs.writesPos, fs.writesSmask, fs.writesStencilref, dualSrc)),
                Field(MrtCount(mrtCount))]);
    cs.EmitAll([Pkt4(RbRenderComponents, 1), Field(RenderComponents(renderComponents))]);
    cs.EmitAll([Pkt4(GrasSuDepthPlaneCntl, 1), Field(ZModeValue(z))]);
    cs.EmitAll([Pkt4(RbDepthPlaneCntl, 1), Field(ZModeValue(z))]);
  }

  /**
   * tu6_emit_fs_outputs: the eight output registers follow color0_mrt, and both depth-plane
   * registers get the same Z mode.
   */
  method EmitFsOutputs(cs: Cs, fs: FsOutputInfo, mrtCount: nat, dualSrc: bool, renderComponents: Mask, isS8Uint: bool)
    requires FsOutputOk(fs)
    requires cs.Valid() && cs.Room() >= 23
    modifies cs
    ensures cs.Valid() && cs.words == old(cs.words) + FsOutputsWords(fs, mrtCount, dualSrc, renderComponents, isS8Uint)
  {
    ghost var w0 := cs.words;
    EmitFsOutputRegs(cs, fs, mrtCount, dualSrc);
    EmitFsOutputTail(cs, fs, mrtCount, dualSrc, renderComponents, isS8Uint);
    Assoc(w0, FsOutputRegsWords(fs, mrtCount, dualSrc), FsOutputTailWords(fs, mrtCount, dualSrc, renderComponents, isS8Uint));
  }
}
