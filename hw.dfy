/**
 * The vocabulary shared by every part of the model: shader stages, 32-bit masks
 * and their bit helpers, and the words that make up an Adreno a6xx
 * command stream.
 *
 * Register offsets and the bit positions of register fields come from generated
 * headers that are not part of this model.  A payload word whose layout is
 * generated is therefore a record of named fields (`RegValue`); a payload word
 * whose value is computed in the pipeline code itself is a plain `Raw` word.
 */
module Hw {

  // ---------------------------------------------------------------------------
  // Shader stages (gl_shader_stage) and Vulkan stage masks (VkShaderStageFlags)
  // ---------------------------------------------------------------------------

  /** MESA_SHADER_VERTEX .. MESA_SHADER_COMPUTE, in enum order. */
  datatype Stage = Vertex | TessCtrl | TessEval | Geometry | Fragment | Compute

  /** The enum value of a stage; it is also the stage's bit position in a VkShaderStageFlags mask. */
  function StageIndex(s: Stage): (r: nat)
    ensures r < 6
    ensures StageAt(r) == s
  {
    match s
    case Vertex => 0
    case TessCtrl => 1
    case TessEval => 2
    case Geometry => 3
    case Fragment => 4
    case Compute => 5
  }

  /** The stage whose enum value is `i`. */
  function StageAt(i: nat): Stage
    requires i < 6
  {
    if i == 0 then Vertex
    else if i == 1 then TessCtrl
    else if i == 2 then TessEval
    else if i == 3 then Geometry
    else if i == 4 then Fragment
    else Compute
  }

  /** The stages in enum order: MESA_SHADER_STAGES entries. */
  const AllStages: seq<Stage> := [Vertex, TessCtrl, TessEval, Geometry, Fragment, Compute]

  const StageCount: nat := 6

  // ---------------------------------------------------------------------------
  // 32-bit masks
  // ---------------------------------------------------------------------------

  /**
   * A 32-bit mask, given by the positions of its set bits: `x & BIT(i)` is
   * `i in x`, `|` is union, `&` is intersection and `& ~` is difference.
   */
  type Mask = set<nat>

  /** Every set bit lies in a 32-bit word. */
  predicate IsMask32(x: Mask)
  {
    forall i :: i in x ==> i < 32
  }

  /** VK_SHADER_STAGE_COMPUTE_BIT, as a bit position (a stage's bit is its enum value). */
  const ComputeBit: nat := 5
  /** VK_SHADER_STAGE_ALL_GRAPHICS: vertex, both tessellation stages, geometry, fragment. */
  const AllGraphics: Mask := {0, 1, 2, 3, 4}

  /** Number of set bits of `x` among the positions below `n`. */
  function PopCountBelow(x: Mask, n: nat): (r: nat)
    ensures r <= n
  {
    if n == 0 then 0
    else PopCountBelow(x, n - 1) + (if n - 1 in x then 1 else 0)
  }

  /** util_bitcount of a 32-bit mask. */
  function PopCount(x: Mask): nat
  {
    PopCountBelow(x, 32)
  }

  /** One past the highest set bit of `x` among the positions below `n`, or 0. */
  function LastBitBelow(x: Mask, n: nat): (r: nat)
    ensures r <= n
    ensures r > 0 ==> r - 1 in x
    ensures forall i :: r <= i < n ==> i !in x
  {
    if n == 0 then 0
    else if n - 1 in x then n
    else LastBitBelow(x, n - 1)
  }

  /** util_last_bit of a 32-bit mask: one past the highest set bit, 0 for an empty mask. */
  function LastBit(x: Mask): nat
  {
    LastBitBelow(x, 32)
  }

  /** `(1 << n) - 1`: the low `n` bits. */
  function LowMask(n: nat): (m: Mask)
    ensures forall i: nat :: i in m <==> i < n
  {
    if n == 0 then {} else LowMask(n - 1) + {n - 1}
  }

  lemma {:induction false} PopCountBelowZeroAbove(x: Mask, n: nat, m: nat)
    requires n <= m
    requires forall i :: n <= i < m ==> i !in x
    ensures PopCountBelow(x, m) == PopCountBelow(x, n)
    decreases m
  {
    if m > n {
      PopCountBelowZeroAbove(x, n, m - 1);
    }
  }

  // ---------------------------------------------------------------------------
  // Integer helpers (MAX2, DIV_ROUND_UP, align)
  // ---------------------------------------------------------------------------

  function Max(a: nat, b: nat): (r: nat)
    ensures r >= a && r >= b && (r == a || r == b)
  {
    if a < b then b else a
  }

  function Min(a: nat, b: nat): (r: nat)
    ensures r <= a && r <= b && (r == a || r == b)
  {
    if a < b then a else b
  }

  /** DIV_ROUND_UP(a, b): the least `q` with `q * b >= a`. */
  function DivRoundUp(a: nat, b: nat): (q: nat)
    requires b > 0
    ensures q * b >= a
    ensures q == 0 || (q - 1) * b < a
  {
    (a + b - 1) / b
  }

  /**
   * Consecutive groups of `k` elements, the last one possibly shorter: how an
   * array of 16-bit or 8-bit fields is read back as 32-bit words.
   */
  function Chunks<T>(xs: seq<T>, k: nat): (cs: seq<seq<T>>)
    requires k > 0
    ensures |cs| == 0 <==> |xs| == 0
    ensures |xs| <= k ==> |cs| <= 1
    ensures forall c :: c in cs ==> 0 < |c| <= k
    decreases |xs|
  {
    if |xs| == 0 then []
    else if |xs| <= k then [xs]
    else [xs[..k]] + Chunks(xs[k..], k)
  }

  /** Position `p` of chunk `c` holds element `c * k + p`: packing loses and reorders nothing. */
  lemma ChunksIndex<T>(xs: seq<T>, k: nat, c: nat, p: nat)
    requires k > 0 && c < |Chunks(xs, k)| && p < |Chunks(xs, k)[c]|
    ensures c * k + p < |xs| && Chunks(xs, k)[c][p] == xs[c * k + p]
  {
    ChunksAt(xs, k, c, p);
    OffsetIsProduct(c, k);
  }

  /** `c * k`, counted up one group at a time. */
  function Offset(c: nat, k: nat): nat
  {
    if c == 0 then 0 else Offset(c - 1, k) + k
  }

  lemma {:induction false} OffsetIsProduct(c: nat, k: nat)
    ensures Offset(c, k) == c * k
  {
    if c > 0 {
      OffsetIsProduct(c - 1, k);
      MulStep(c, k);
    }
  }

  lemma {:induction false} ChunksAt<T>(xs: seq<T>, k: nat, c: nat, p: nat)
    requires k > 0 && c < |Chunks(xs, k)| && p < |Chunks(xs, k)[c]|
    ensures Offset(c, k) + p < |xs| && Chunks(xs, k)[c][p] == xs[Offset(c, k) + p]
    decreases |xs|
  {
    if c > 0 {
      ChunksTail(xs, k, c);
      ChunksAt(xs[k..], k, c - 1, p);
    } else {
      ChunksHead(xs, k);
    }
  }

  /** Element `c * k + p` (with `p < k`) of `xs` is in chunk `c` at position `p`: packing drops nothing. */
  lemma {:induction false} ChunksCover<T>(xs: seq<T>, k: nat, c: nat, p: nat)
    requires k > 0 && p < k && c * k + p < |xs|
    ensures c < |Chunks(xs, k)| && p < |Chunks(xs, k)[c]|
    decreases |xs|
  {
    if c > 0 {
      MulStep(c, k);
      ChunksCover(xs[k..], k, c - 1, p);
      ChunksTail(xs, k, c);
    }
  }

  /** Past the first, chunk `c` of `xs` is chunk `c - 1` of what follows the first `k` elements. */
  lemma ChunksTail<T>(xs: seq<T>, k: nat, c: nat)
    requires k > 0 && 0 < c && (c < |Chunks(xs, k)| || k < |xs|)
    ensures k < |xs| && |Chunks(xs, k)| == |Chunks(xs[k..], k)| + 1
    ensures c < |Chunks(xs, k)| ==> Chunks(xs, k)[c] == Chunks(xs[k..], k)[c - 1]
  {
    var rest := Chunks(xs[k..], k);
    assert Chunks(xs, k) == [xs[..k]] + rest;
  }

  /** The first chunk is the first `k` elements, or all of them when there are fewer. */
  lemma ChunksHead<T>(xs: seq<T>, k: nat)
    requires k > 0 && |xs| > 0
    ensures Chunks(xs, k)[0] == if |xs| <= k then xs else xs[..k]
  {
    if |xs| > k {
      var rest := Chunks(xs[k..], k);
      assert Chunks(xs, k) == [xs[..k]] + rest;
    }
  }

  /** There are as many chunks as whole or partial groups of `k`: the last one is not empty. */
  lemma {:induction false} ChunksLength<T>(xs: seq<T>, k: nat)
    requires k > 0
    ensures |xs| > 0 ==> (|Chunks(xs, k)| - 1) * k < |xs| <= |Chunks(xs, k)| * k
    decreases |xs|
  {
    if |xs| > k {
      ChunksTail(xs, k, 1);
      ChunksLength(xs[k..], k);
      MulStep(|Chunks(xs, k)|, k);
      MulStep(|Chunks(xs, k)| - 1, k);
    }
  }

  lemma MulStep(c: nat, k: nat)
    requires c > 0
    ensures c * k == (c - 1) * k + k
  {
  }

  // ---------------------------------------------------------------------------
  // Register ids of the shader compiler
  // ---------------------------------------------------------------------------

  /** regid(63, 0): the register id that means "no register". */
  const InvalidReg: nat := 0xfc

  /** VALIDREG */
  predicate ValidReg(r: nat) { r != InvalidReg }

  // ---------------------------------------------------------------------------
  // Command-stream words
  // ---------------------------------------------------------------------------

  /** Registers this model writes, by name; indexed registers carry their index. */
  datatype Reg =
    // per-stage shader configuration
    | SpXsCtrlReg0(stage: Stage)
    | SpXsConfig(stage: Stage)
    | HlsqXsCntl(stage: Stage)
    | SpXsObjStartLo(stage: Stage)
    // stream-out
    | VpcSoCntl
    | VpcSoBufCntl
    | VpcSoNcomp(buf: nat)
    | VpcSoProg
    // varyings
    | VpcVaryingInterpMode0
    | VpcVaryingPsReplMode0
    // vertex input
    | VfdFetchStride(binding: nat)
    | VfdDecodeInstr(idx: nat)
    | VfdDestCntlInstr(idx: nat)
    | VfdControl0
    // viewport and scissor
    | GrasClVportXOffset0
    | GrasScViewportScissorTl0
    | GrasClGuardbandClipAdj
    | GrasClZClampMin0
    | RbZClampMin
    | GrasScScreenScissorTl0
    // rasterizer
    | GrasClCntl
    | VpcPolygonMode
    | PcPolygonMode
    | GrasSuPointMinMax
    | GrasSuCntl
    | GrasSuPolyOffsetScale
    // depth and stencil
    | RbAlphaControl
    | RbDepthCntl
    | RbStencilControl
    | RbZBoundsMin
    | RbStencilMask
    | RbStencilWrMask
    | RbStencilRef
    // fragment outputs
    | SpFsOutputCntl0
    | SpFsOutputReg0
    | SpFsRenderComponents
    | RbFsOutputCntl0
    | RbRenderComponents
    | GrasSuDepthPlaneCntl
    | RbDepthPlaneCntl
    // blend
    | RbMrtControl(rt: nat)
    | SpBlendCntl
    | RbBlendCntl
    | RbBlendRedF32
    // varying linkage of the last geometry stage (VS, DS or GS)
    | VpcVarDisable
    | SpXsOutReg(stage: Stage)
    | SpXsVpcDstReg(stage: Stage)
    | VpcXsPack(stage: Stage)
    | VpcXsClipCntl(stage: Stage)
    | GrasXsClCntl(stage: Stage)
    | PcXsOutCntl(stage: Stage)
    | SpXsPrimitiveCntl(stage: Stage)
    | VpcXsLayerCntl(stage: Stage)
    | GrasXsLayerCntl(stage: Stage)
    | PcPrimidPassthru
    | VpcCntl0
    // sample locations
    | GrasSampleConfig
    | RbSampleConfig
    | SpTpSampleConfig
    // tessellation and geometry
    | HlsqInvalidateCmd
    | PcTessNumVertex
    | PcHsInputSize
    | SpHsUnknownA831
    | PcTessCntl
    | PcPrimitiveCntl5
    | PcPrimitiveCntl3
    | VpcUnknown9100
    | PcPrimitiveCntl6
    | PcUnknown9b07
    | SpGsPrimSize

  /** Type-7 packet opcodes used here. */
  datatype Opcode =
    | CpLoadState6        // CP_LOAD_STATE6
    | CpLoadState6Geom    // CP_LOAD_STATE6_GEOM
    | CpLoadState6Frag    // CP_LOAD_STATE6_FRAG
    | CpContextRegBunch   // CP_CONTEXT_REG_BUNCH

  /** tu6_stage2opcode: fragment and compute load through the FRAG variant, the rest through GEOM. */
  function StageOpcode(s: Stage): Opcode
  {
    if s == Fragment || s == Compute then CpLoadState6Frag else CpLoadState6Geom
  }

  /** CP_LOAD_STATE6 state types. */
  datatype StateType = St6Constants | St6Shader | St6Ubo | St6Ibo

  /** CP_LOAD_STATE6 state sources. */
  datatype StateSrc = Ss6Direct | Ss6Bindless | Ss6Indirect

  /** CP_LOAD_STATE6 state blocks: per-stage texture and shader blocks (tu6_stage2texsb,
      tu6_stage2shadersb), the graphics IBO block and the compute shader block. */
  datatype StateBlock = TexBlock(stage: Stage) | ShaderBlock(stage: Stage) | Sb6Ibo | Sb6CsShader

  /** A value written to a register whose field layout is generated; each variant names its fields. */
  datatype RegValue =
    /** CP_LOAD_STATE6 dword 0 */
    | LoadState0(dstOff: nat, stateType: StateType, stateSrc: StateSrc, stateBlock: StateBlock, numUnit: nat)
    /** CP_LOAD_STATE6 dword 1 in bindless mode: descriptor offset with the bindless base in the top bits */
    | BindlessAddr(base: nat, offset: nat)
    /** SP_xS_CTRL_REG0 */
    | XsCtrl(threadsize: ThreadSize, fullRegFootprint: nat, halfRegFootprint: nat, mergedRegs: bool,
             branchStack: nat, pixLod: bool, diffFine: bool, varying: bool, unknownFsBit: bool)
    /** SP_xS_CONFIG */
    | XsConfig(enabled: bool, bindlessTex: bool, bindlessSamp: bool, bindlessIbo: bool, bindlessUbo: bool,
               ntex: nat, nsamp: nat)
    /** HLSQ_xS_CNTL */
    | HlsqCntl(constLen: nat, enabled: bool)
    /** VPC_SO_BUF_CNTL */
    | SoBufCntl(enable: bool, buf0: bool, buf1: bool, buf2: bool, buf3: bool)
    /** VFD_FETCH[i].STRIDE */
    | FetchStride(stride: nat)
    /** VFD_DECODE[i].INSTR; `format` is the Vulkan format the foreign table tu6_format_vtx translates */
    | DecodeInstr(binding: nat, offset: nat, instanced: bool, format: nat, unk30: bool, isFloat: bool)
    /** VFD_DECODE[i].STEP_RATE */
    | StepRate(rate: nat)
    /** VFD_DEST_CNTL[i].INSTR */
    | DestCntl(writemask: Mask, regid: nat)
    /** VFD_CONTROL_0 */
    | VfdControl0Value(fetchCnt: nat, decodeCnt: nat)
    /** a scissor corner (GRAS_SC_*_TL/BR), 15-bit coordinates */
    | ScissorXY(x: int, y: int)
    /** RB_DEPTH_CNTL; `zfunc` is the Vulkan compare op the foreign table tu6_compare_func translates */
    | DepthCntl(zEnable: bool, zFunc: nat, zTestEnable: bool, zClampEnable: bool, zWriteEnable: bool,
                zBoundsEnable: bool)
    /** RB_STENCIL_CONTROL; functions and ops are Vulkan values for the foreign tables */
    | StencilControl(enable: bool, enableBf: bool, read: bool,
                     func: nat, fail: nat, zpass: nat, zfail: nat,
                     funcBf: nat, failBf: nat, zpassBf: nat, zfailBf: nat)
    /** RB_STENCILMASK / RB_STENCILWRMASK / RB_STENCILREF: front and back 8-bit values */
    | StencilPair(front: nat, back: nat)
    /** RB_MRT[i].CONTROL */
    | MrtControl(componentEnable: nat, ropEnable: bool, rop: Rop, blend: bool, blend2: bool)
    /** RB_MRT[i].BLEND_CONTROL; factors and ops are Vulkan values for the foreign tables */
    | MrtBlendControl(rgbSrc: nat, rgbOp: nat, rgbDst: nat, alphaSrc: nat, alphaOp: nat, alphaDst: nat)
    /** SP_BLEND_CNTL */
    | SpBlendCntlValue(enabledMask: Mask, dualColorIn: bool, alphaToCoverage: bool, unk8: bool)
    /** RB_BLEND_CNTL */
    | RbBlendCntlValue(enableBlend: Mask, independentBlend: bool, sampleMask: Mask, dualColorIn: bool,
                       alphaToCoverage: bool, alphaToOne: bool)
    /** GRAS_CL_CNTL */
    | ClCntl(znearClipDisable: bool, zfarClipDisable: bool, unk5: bool, zeroGbScaleZ: bool, vpClipCodeIgnore: bool)
    /** VPC/PC_POLYGON_MODE; `mode` is the Vulkan polygon mode for the foreign table tu6_polygon_mode */
    | PolygonMode(mode: nat)
    /**
     * GRAS_SU_CNTL; `lineHalfWidth` says whether LINEHALFWIDTH holds half the static line width
     * (a float, opaque here) or is left zero
     */
    | SuCntl(cullFront: bool, cullBack: bool, frontCw: bool, polyOffset: bool, msaaEnable: bool, lineHalfWidth: bool)
    /** VPC_VAR_DISABLE(i): bit b is set when VPC location 32i + b is unused */
    | VarDisable(disabled: Mask)
    /** VPC_SO_CNTL */
    | SoCntl(enable: bool)
    /** VPC_SO_PROG: the A (even location) and B (odd location) halves, each the OR of the writes listed; EN is set iff the list is non-empty */
    | SoProgValue(a: seq<SoTarget>, b: seq<SoTarget>)
    /** SP_xS_OUT_REG: two 16-bit output descriptors per word (a missing second one is uninitialised) */
    | SpOutRegs(outs: seq<OutReg>)
    /** SP_xS_VPC_DST_REG: four 8-bit output locations per word (missing ones are uninitialised) */
    | VpcDstLocs(locs: seq<nat>)
    /** VPC_xS_PACK */
    | VpcPack(positionLoc: nat, psizeLoc: nat, strideInVpc: nat)
    /** PC_xS_OUT_CNTL */
    | PcOutCntl(strideInVpc: nat, psize: bool, layer: bool, primitiveId: bool)
    /** SP_xS_PRIMITIVE_CNTL */
    | PrimitiveCntl(out: nat, flagsRegid: nat)
    /** VPC_xS_LAYER_CNTL, with the constant 0xff00 bits */
    | VpcLayerCntl(layerLoc: nat)
    /** GRAS_xS_LAYER_CNTL */
    | GrasLayerCntl(writesLayer: bool)
    /** PC_PRIMID_PASSTHRU */
    | PrimidPassthru(enable: bool)
    /** VPC_CNTL_0, with UNKLOC = 0xff */
    | VpcCntl0Value(numNonPosVar: nat, varying: bool, primidLoc: nat)
    /** PC_TESS_CNTL */
    | TessCntl(spacing: TessSpacing, output: TessOutput)
    /** PC_PRIMITIVE_CNTL_5 */
    | PrimitiveCntl5(gsVerticesOut: nat, gsOutput: TessOutput, gsInvocations: nat)
    /** PC_PRIMITIVE_CNTL_6 */
    | PrimitiveCntl6(strideInVpc: nat)
    /** HLSQ_INVALIDATE_CMD with the VS, HS, DS, GS, FS and graphics-IBO state bits */
    | InvalidateGraphics
    /** SP_FS_OUTPUT_CNTL0 */
    | FsOutputCntl0(depthRegid: nat, sampmaskRegid: nat, stencilrefRegid: nat, dualColorIn: bool)
    /** SP_FS_OUTPUT_CNTL1 / RB_FS_OUTPUT_CNTL1 */
    | MrtCount(mrt: nat)
    /** SP_FS_OUTPUT_REG[i], full precision */
    | FsOutputReg(regid: nat)
    /** RB_FS_OUTPUT_CNTL0 */
    | RbFsOutputCntl0Value(fragWritesZ: bool, fragWritesSampmask: bool, fragWritesStencilref: bool, dualColorIn: bool)
    /** GRAS_SU_DEPTH_PLANE_CNTL / RB_DEPTH_PLANE_CNTL */
    | ZModeValue(zmode: ZTestMode)
    /** SP_FS_RENDER_COMPONENTS / RB_RENDER_COMPONENTS: all four components of each render target listed */
    | RenderComponents(rts: Mask)
    /** GRAS/RB/SP_TP_SAMPLE_CONFIG */
    | SampleConfig(locationEnable: bool)
    /** a word computed by floating-point code that is not part of this model */
    | FloatWord(what: string)

  /** Where one stream-out component goes: output buffer and byte offset (VPC_SO_PROG A_/B_ BUF and OFF). */
  datatype SoTarget = SoTarget(buf: nat, off: nat)

  /** One SP_xS_OUT_REG field: the register an output is read from and its component mask. */
  datatype OutReg = OutReg(regid: nat, compmask: Mask)

  datatype Option<T> = None | Some(value: T)

  /** Primitive kinds the tessellator or a geometry shader outputs (enum a6xx_tess_output). */
  datatype TessOutput = TessPoints | TessLines | TessCwTris | TessCcwTris

  /** Tessellator spacing (enum a6xx_tess_spacing). */
  datatype TessSpacing = TessEqual | TessFractionalOdd | TessFractionalEven

  /** The ROP_CODE field of RB_MRT[i].CONTROL: zero, ROP_COPY, or what the foreign table tu6_rop gives for a Vulkan logic op. */
  datatype Rop = RopZero | RopCopy | RopOf(logicOp: nat)

  /** enum a6xx_ztest_mode */
  datatype ZTestMode = EarlyZ | LateZ

  /** SP_xS_CTRL_REG0 thread size (enum a3xx_threadsize). */
  datatype ThreadSize = TwoQuads | FourQuads

  /** One 32-bit word of a command stream. */
  datatype Word =
    | Pkt4(reg: Reg, cnt: nat)   // header: write `cnt` consecutive registers starting at `reg`
    | Pkt7(op: Opcode, cnt: nat) // header: command `op` with `cnt` payload words
    | RegAddr(reg: Reg)          // a register offset carried as payload (CP_CONTEXT_REG_BUNCH)
    | Raw(v: nat)                // a payload word whose value is computed here (below 2^32)
    | Field(f: RegValue)         // a payload word with a generated layout

  /** tu_cs_emit_qw: a 64-bit value as its low and its high word. */
  function QwordWords(v: nat): (ws: seq<Word>)
    requires v < 0x1_0000_0000_0000_0000
    ensures |ws| == 2
  {
    [Raw(v % 0x1_0000_0000), Raw(v / 0x1_0000_0000)]
  }
}
