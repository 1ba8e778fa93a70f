/**
 * Tessellation and geometry-shader state: the HS and GS parts of tu6_emit_vpc, the primitive
 * maps of tu6_emit_link_map, the per-stage stride constants of tu6_emit_geom_tess_consts and the
 * tessellation-mode helpers.
 */
module GeomTess {
  import opened Hw
  import opened CmdStream
  import opened Consts
  import opened Linkage
  import opened Vpc

  // ---------------------------------------------------------------------------
  // Primitive and tessellation modes
  // ---------------------------------------------------------------------------

  /** The output primitives a geometry shader can declare. */
  datatype GsOutputPrimitive = GlPoints | GlLineStrip | GlTriangleStrip

  /** gl_primitive_to_tess: strips are emitted as independent primitives of the same kind. */
  function GlPrimitiveToTess(p: GsOutputPrimitive): (o: TessOutput)
    ensures o != TessCcwTris
  {
    match p
    case GlPoints => TessPoints
    case GlLineStrip => TessLines
    case GlTriangleStrip => TessCwTris
  }

  /** Different geometry-shader output primitives reach the hardware as different primitive kinds. */
  lemma GlPrimitiveToTessInjective(p: GsOutputPrimitive, q: GsOutputPrimitive)
    ensures GlPrimitiveToTess(p) == GlPrimitiveToTess(q) ==> p == q
  {
  }

  /** The tessellation primitive mode of a tessellation shader (GL_NONE when it does not set one). */
  datatype TessPrimitiveMode = GlNone | GlIsolines | GlTriangles | GlQuads

  /** The compiler's tessellation key (enum ir3_tess_mode). */
  datatype IrTessMode = IrTessNone | IrTessIsolines | IrTessTriangles | IrTessQuads

  /** tu6_get_tessmode */
  function TessMode(p: TessPrimitiveMode): (m: IrTessMode)
    ensures m == IrTessNone <==> p == GlNone
  {
    match p
    case GlNone => IrTessNone
    case GlIsolines => IrTessIsolines
    case GlTriangles => IrTessTriangles
    case GlQuads => IrTessQuads
  }

  /**
   * The key's tessellation mode after tu_pipeline_builder_compile_shaders visits the stages in
   * order: the control shader's mode unless it sets none, then the evaluation shader's.
   */
  function KeyTessellation(hs: TessPrimitiveMode, ds: TessPrimitiveMode): (m: IrTessMode)
    ensures m == IrTessNone <==> hs == GlNone && ds == GlNone
    ensures hs != GlNone ==> m == TessMode(hs)
    ensures hs == GlNone ==> m == TessMode(ds)
  {
    var afterHs := TessMode(hs);
    if afterHs == IrTessNone then TessMode(ds) else afterHs
  }

  /** The spacing a tessellation shader declares. */
  datatype NirSpacing = SpacingUnspecified | SpacingEqual | SpacingFractionalOdd | SpacingFractionalEven

  /** The tessellation parameters a tessellation shader declares. */
  datatype NirTessInfo = NirTessInfo(pointMode: bool, primitiveMode: TessPrimitiveMode, ccw: bool, spacing: NirSpacing)

  /** PC_TESS_CNTL.OUTPUT: point mode wins, then isolines, then the winding of triangles. */
  function TessOutputOf(t: NirTessInfo): (o: TessOutput)
    ensures o == TessPoints <==> t.pointMode
    ensures o == TessLines <==> !t.pointMode && t.primitiveMode == GlIsolines
    ensures o == TessCcwTris <==> !t.pointMode && t.primitiveMode != GlIsolines && t.ccw
  {
    if t.pointMode then TessPoints
    else if t.primitiveMode == GlIsolines then TessLines
    else if t.ccw then TessCcwTris
    else TessCwTris
  }

  /** PC_TESS_CNTL.SPACING; an unspecified spacing is unreachable. */
  function HwSpacing(s: NirSpacing): TessSpacing
    requires s != SpacingUnspecified
  {
    match s
    case SpacingEqual => TessEqual
    case SpacingFractionalOdd => TessFractionalOdd
    case SpacingFractionalEven => TessFractionalEven
  }

  /**
   * GLSL puts the tessellation parameters in the evaluation shader and HLSL in the control
   * shader: the evaluation shader's are used unless its spacing is unspecified.
   */
  function TessParams(hs: NirTessInfo, ds: NirTessInfo): (t: NirTessInfo)
    ensures t == hs || t == ds
    ensures ds.spacing != SpacingUnspecified ==> t == ds
  {
    if ds.spacing == SpacingUnspecified then hs else ds
  }

  // ---------------------------------------------------------------------------
  // Primitive maps (tu6_emit_link_map)
  // ---------------------------------------------------------------------------

  /**
   * What ir3_link_geometry_stages and ir3_const_state give tu6_emit_link_map: the number of
   * locations, the location table (zero-filled beyond them) and the consumer's primitive-map
   * constant offset and constant length, in vec4s.
   */
  datatype LinkMap = LinkMap(numLoc: nat, patchLocs: seq<nat>, base: nat, constlen: nat)

  predicate LinkMapOk(m: LinkMap)
  {
    |m.patchLocs| >= 4 * DivRoundUp(m.numLoc, 4)
  }

  /** The number of dwords of the map that are uploaded; zero or negative means none. */
  function LinkMapSize(m: LinkMap): int
  {
    ClampedUnits(DivRoundUp(m.numLoc, 4), m.base, m.constlen) * 4
  }

  function LinkMapWords(m: LinkMap, block: StateBlock): (ws: seq<Word>)
    requires LinkMapOk(m)
  {
    var size := LinkMapSize(m);
    if size <= 0 then [] else ConstWords(CpLoadState6Geom, m.base, block, size, m.patchLocs)
  }

  /**
   * The upload never writes past the consumer's constant length, is skipped only when there is
   * nothing to upload or no room, and carries every location when the consumer has room for all.
   */
  lemma LinkMapUpload(m: LinkMap, block: StateBlock)
    requires LinkMapOk(m)
    ensures var ws := LinkMapWords(m, block);
      && (ws == [] <==> m.numLoc == 0 || m.constlen <= m.base)
      && (ws != [] ==> ws[1].f.numUnit > 0 && m.base + ws[1].f.numUnit <= m.constlen
                       && ws[1] == Field(LoadState0(m.base, St6Constants, Ss6Direct, block, ws[1].f.numUnit)))
      && (ws != [] && m.base + DivRoundUp(m.numLoc, 4) <= m.constlen ==>
            forall i :: 0 <= i < m.numLoc ==> ws[4 + i] == Raw(m.patchLocs[i]))
  {
    var ws := LinkMapWords(m, block);
    var units := DivRoundUp(m.numLoc, 4);
    assert units > 0 <==> m.numLoc > 0;
    if ws != [] {
      var n := ClampedUnits(units, m.base, m.constlen);
      assert ws[1].f.numUnit == n;
      if m.base + units <= m.constlen {
        assert n == units;
        assert m.numLoc <= 4 * units;
      }
    }
  }

  // ---------------------------------------------------------------------------
  // Tessellation control state (the `hs` block of tu6_emit_vpc)
  // ---------------------------------------------------------------------------

  /** What the `hs` block of tu6_emit_vpc reads from the shaders and the pipeline. */
  datatype HsInputs = HsInputs(
    vsOutputSize: nat,          // dwords per vertex the VS writes
    patchControlPoints: nat,
    tcsVerticesOut: nat,
    hsTess: NirTessInfo,
    dsTess: NirTessInfo,
    vsToHs: LinkMap,
    hsToDs: LinkMap)

  predicate HsOk(h: HsInputs, vshsWorkgroup: bool)
  {
    && TessParams(h.hsTess, h.dsTess).spacing != SpacingUnspecified
    && (vshsWorkgroup ==> h.tcsVerticesOut > 0)
    && LinkMapOk(h.vsToHs) && LinkMapOk(h.hsToDs)
  }

  /** Waves are 64 invocations wide. */
  const WaveSize: nat := 64

  /**
   * SP_HS_UNKNOWN_A831: the VS output size, or on A650 (`vshs_workgroup`) the local memory one
   * wave needs for the VS outputs of the patches it handles, in units of 64.
   */
  function HsUnknownA831(vsOutputSize: nat, cps: nat, tcsVerticesOut: nat, vshsWorkgroup: bool): nat
    requires vshsWorkgroup ==> tcsVerticesOut > 0
  {
    if vshsWorkgroup then
      var primsPerWave := WaveSize / tcsVerticesOut;
      DivRoundUp(vsOutputSize * cps * primsPerWave, WaveSize)
    else
      vsOutputSize
  }

  /**
   * On A650 the patches of one wave use at most the whole wave, and the memory announced covers
   * the VS outputs of all of them without a spare unit.
   */
  lemma HsUnknownA831Covers(vsOutputSize: nat, cps: nat, tcsVerticesOut: nat)
    requires tcsVerticesOut > 0
    ensures var ppw := WaveSize / tcsVerticesOut; var r := HsUnknownA831(vsOutputSize, cps, tcsVerticesOut, true);
      && ppw * tcsVerticesOut <= WaveSize
      && r * WaveSize >= vsOutputSize * cps * ppw
      && (r == 0 || (r - 1) * WaveSize < vsOutputSize * cps * ppw)
  {
  }

  /** PC_HS_INPUT_SIZE: the vec4 slots of one incoming patch, rounded down. */
  function HsInputSize(h: HsInputs): (n: nat)
    ensures n * 4 <= h.patchControlPoints * h.vsOutputSize < (n + 1) * 4
  {
    h.patchControlPoints * h.vsOutputSize / 4
  }

  function HsWords(h: HsInputs, vshsWorkgroup: bool): (ws: seq<Word>)
    requires HsOk(h, vshsWorkgroup)
  {
    var t := TessParams(h.hsTess, h.dsTess);
    [ Pkt4(PcTessNumVertex, 1), Raw(h.tcsVerticesOut),
      Pkt4(PcHsInputSize, 1), Raw(HsInputSize(h)),
      Pkt4(SpHsUnknownA831, 1), Raw(HsUnknownA831(h.vsOutputSize, h.patchControlPoints, h.tcsVerticesOut, vshsWorkgroup)),
      Pkt4(PcTessCntl, 1), Field(TessCntl(HwSpacing(t.spacing), TessOutputOf(t))) ]
    + LinkMapWords(h.vsToHs, ShaderBlock(TessCtrl))
    + LinkMapWords(h.hsToDs, ShaderBlock(TessEval))
  }

  /** The fixed part of the block and where each register lands. */
  lemma HsWordsShape(h: HsInputs, vshsWorkgroup: bool)
    requires HsOk(h, vshsWorkgroup)
    ensures var ws := HsWords(h, vshsWorkgroup);
      && |ws| == 8 + |LinkMapWords(h.vsToHs, ShaderBlock(TessCtrl))| + |LinkMapWords(h.hsToDs, ShaderBlock(TessEval))|
      && ws[3] == Raw(HsInputSize(h))
      && ws[7].f.output == TessOutputOf(TessParams(h.hsTess, h.dsTess))
  {
  }

  // ---------------------------------------------------------------------------
  // Geometry-shader state (the `gs` block of tu6_emit_vpc)
  // ---------------------------------------------------------------------------

  /** What the geometry shader's NIR says; absent for the internal clear/blit shader. */
  datatype GsNir = GsNir(verticesOut: nat, outputPrimitive: GsOutputPrimitive, invocations: nat,
                         verticesIn: nat, link: LinkMap)

  /** The `gs` block's inputs; `producerOutputSize` is the output size of the DS when tessellating, else of the VS. */
  datatype GsInputs = GsInputs(nir: Option<GsNir>, vsOutputSize: nat, producerOutputSize: nat)

  predicate GsOk(g: GsInputs)
  {
    g.nir.Some? ==> g.nir.value.verticesOut < U32 && g.nir.value.invocations < U32 && LinkMapOk(g.nir.value.link)
  }

  /** `x - 1` on a 32-bit unsigned value. */
  function Dec32(x: nat): (r: nat)
    requires x < U32
    ensures x > 0 ==> r == x - 1
    ensures x == 0 ==> r == U32 - 1
  {
    (x + U32 - 1) % U32
  }

  /** vec4_size as written: the vertices of one input primitive times the VS output size in vec4s. */
  function GsVec4SizeAsWritten(verticesIn: nat, vsOutputSize: nat): nat
  {
    verticesIn * DivRoundUp(vsOutputSize, 4)
  }

  /** vec4_size sized by the stage that actually feeds the geometry shader. */
  function GsVec4Size(verticesIn: nat, producerOutputSize: nat): (n: nat)
    ensures n * 4 >= verticesIn * producerOutputSize
  {
    var q := DivRoundUp(producerOutputSize, 4);
    assert q * 4 >= producerOutputSize;
    MulMono(verticesIn, producerOutputSize, q * 4);
    verticesIn * q
  }

  lemma MulMono(a: nat, b: nat, c: nat)
    requires b <= c
    ensures a * b <= a * c
  {
  }

  /** PC_PRIMITIVE_CNTL_5 fields and PC_PRIMITIVE_CNTL_6 stride: (vertices_out, output, invocations, vec4_size). */
  function GsControl(g: GsInputs): (r: (nat, TessOutput, nat, nat))
    requires GsOk(g)
    ensures g.nir.None? ==> r == (3, TessCwTris, 0, 0)
    ensures g.nir.Some? ==> r.3 * 4 >= g.nir.value.verticesIn * g.producerOutputSize
  {
    match g.nir
    case None => (3, TessCwTris, 0, 0)
    case Some(n) =>
      (Dec32(n.verticesOut), GlPrimitiveToTess(n.outputPrimitive), Dec32(n.invocations),
       GsVec4Size(n.verticesIn, g.producerOutputSize))
  }

  function GsWords(g: GsInputs): (ws: seq<Word>)
    requires GsOk(g)
  {
    var (verticesOut, output, invocations, vec4Size) := GsControl(g);
    (if g.nir.Some? then LinkMapWords(g.nir.value.link, ShaderBlock(Geometry)) else [])
    + [ Pkt4(PcPrimitiveCntl5, 1), Field(PrimitiveCntl5(verticesOut, output, invocations)),
        Pkt4(PcPrimitiveCntl3, 1), Raw(0),
        Pkt4(VpcUnknown9100, 1), Raw(0xff),
        Pkt4(PcPrimitiveCntl6, 1), Field(PrimitiveCntl6(vec4Size)),
        Pkt4(PcUnknown9b07, 1), Raw(0),
        Pkt4(SpGsPrimSize, 1), Raw(g.producerOutputSize) ]
  }

  /**
   * The `gs` block as written: vec4_size and SP_GS_PRIM_SIZE come from the VS's output size,
   * whichever stage feeds the geometry shader.
   */
  function GsWordsAsWritten(g: GsInputs): seq<Word>
    requires GsOk(g)
  {
    GsWords(g.(producerOutputSize := g.vsOutputSize))
  }

  /**
   * The block as written and the producer-sized block differ in exactly two words when the DS's
   * output size is not the VS's: the vec4_size field of PC_PRIMITIVE_CNTL_6 and SP_GS_PRIM_SIZE.
   */
  lemma GsWordsAsWrittenDiffer(g: GsInputs)
    requires GsOk(g) && g.nir.Some?
    ensures var a := GsWordsAsWritten(g); var b := GsWords(g); var n := g.nir.value;
      && |a| == |b| && |a| >= 12
      && (forall i :: 0 <= i < |a| && i != |a| - 5 && i != |a| - 1 ==> a[i] == b[i])
      && a[|a| - 5] == Field(PrimitiveCntl6(GsVec4SizeAsWritten(n.verticesIn, g.vsOutputSize)))
      && b[|b| - 5] == Field(PrimitiveCntl6(GsVec4Size(n.verticesIn, g.producerOutputSize)))
      && a[|a| - 1] == Raw(g.vsOutputSize) && b[|b| - 1] == Raw(g.producerOutputSize)
      && (g.vsOutputSize != g.producerOutputSize ==> a != b)
  {
    var n := g.nir.value;
    var g' := g.(producerOutputSize := g.vsOutputSize);
    var m := LinkMapWords(n.link, ShaderBlock(Geometry));
    var (vo, out, inv, _) := GsControl(g);
    var tail := [ Pkt4(PcPrimitiveCntl5, 1), Field(PrimitiveCntl5(vo, out, inv)),
                  Pkt4(PcPrimitiveCntl3, 1), Raw(0),
                  Pkt4(VpcUnknown9100, 1), Raw(0xff),
                  Pkt4(PcPrimitiveCntl6, 1), Field(PrimitiveCntl6(GsVec4Size(n.verticesIn, g.producerOutputSize))),
                  Pkt4(PcUnknown9b07, 1), Raw(0),
                  Pkt4(SpGsPrimSize, 1), Raw(g.producerOutputSize) ];
    var tail' := tail[7 := Field(PrimitiveCntl6(GsVec4Size(n.verticesIn, g.vsOutputSize)))][11 := Raw(g.vsOutputSize)];
    assert GsWords(g) == m + tail;
    assert GsWordsAsWritten(g) == m + tail';
    assert (m + tail)[|m| + 11] == Raw(g.producerOutputSize);
    assert (m + tail')[|m| + 11] == Raw(g.vsOutputSize);
  }

  // ---------------------------------------------------------------------------
  // Emission of the HS and GS blocks and the whole of tu6_emit_vpc
  // ---------------------------------------------------------------------------

  method EmitLinkMap(cs: Cs, m: LinkMap, block: StateBlock)
    requires LinkMapOk(m)
    requires cs.Valid() && cs.Room() >= |LinkMapWords(m, block)|
    modifies cs
    ensures cs.Valid() && cs.words == old(cs.words) + LinkMapWords(m, block)
  {
    var size := ClampedUnits(DivRoundUp(m.numLoc, 4), m.base, m.constlen) * 4;
    if size <= 0 {
      return;
    }
    EmitConst(cs, CpLoadState6Geom, m.base, block, size, m.patchLocs);
  }

  method EmitHs(cs: Cs, h: HsInputs, vshsWorkgroup: bool)
    requires HsOk(h, vshsWorkgroup)
    requires cs.Valid() && cs.Room() >= |HsWords(h, vshsWorkgroup)|
    modifies cs
    ensures cs.Valid() && cs.words == old(cs.words) + HsWords(h, vshsWorkgroup)
  {
    var a831 := HsUnknownA831(h.vsOutputSize, h.patchControlPoints, h.tcsVerticesOut, vshsWorkgroup);
    var t := TessParams(h.hsTess, h.dsTess);
    var regs := [ Pkt4(PcTessNumVertex, 1), Raw(h.tcsVerticesOut),
                  Pkt4(PcHsInputSize, 1), Raw(HsInputSize(h)),
                  Pkt4(SpHsUnknownA831, 1), Raw(a831),
                  Pkt4(PcTessCntl, 1), Field(TessCntl(HwSpacing(t.spacing), TessOutputOf(t))) ];
    ghost var m1 := LinkMapWords(h.vsToHs, ShaderBlock(TessCtrl));
    ghost var m2 := LinkMapWords(h.hsToDs, ShaderBlock(TessEval));
    assert HsWords(h, vshsWorkgroup) == regs + m1 + m2;
    ghost var w0 := cs.words;
    cs.EmitAll(regs);
    EmitLinkMap(cs, h.vsToHs, ShaderBlock(TessCtrl));
    assert cs.words == w0 + regs + m1;
    EmitLinkMap(cs, h.hsToDs, ShaderBlock(TessEval));
    assert cs.words == w0 + regs + m1 + m2;
    Assoc(w0, regs, m1);
    Assoc(w0, regs + m1, m2);
  }

  method EmitGs(cs: Cs, g: GsInputs)
    requires GsOk(g)
    requires cs.Valid() && cs.Room() >= |GsWords(g)|
    modifies cs
    ensures cs.Valid() && cs.words == old(cs.words) + GsWords(g)
  {
    var verticesOut, output, invocations, vec4Size;
    if g.nir.Some? {
      var n := g.nir.value;
      EmitLinkMap(cs, n.link, ShaderBlock(Geometry));
      verticesOut := Dec32(n.verticesOut);
      output := GlPrimitiveToTess(n.outputPrimitive);
      invocations := Dec32(n.invocations);
      vec4Size := GsVec4Size(n.verticesIn, g.producerOutputSize);
    } else {
      verticesOut, output, invocations, vec4Size := 3, TessCwTris, 0, 0;
    }
    cs.EmitAll([ Pkt4(PcPrimitiveCntl5, 1), Field(PrimitiveCntl5(verticesOut, output, invocations)),
                 Pkt4(PcPrimitiveCntl3, 1), Raw(0),
                 Pkt4(VpcUnknown9100, 1), Raw(0xff),
                 Pkt4(PcPrimitiveCntl6, 1), Field(PrimitiveCntl6(vec4Size)),
                 Pkt4(PcUnknown9b07, 1), Raw(0),
                 Pkt4(SpGsPrimSize, 1), Raw(g.producerOutputSize) ]);
  }

  predicate TessGsOk(hs: Option<HsInputs>, gs: Option<GsInputs>, vshsWorkgroup: bool)
  {
    (hs.Some? ==> HsOk(hs.value, vshsWorkgroup)) && (gs.Some? ==> GsOk(gs.value))
  }

  /** The words of tu6_emit_vpc after VPC_CNTL_0: the HS block when tessellating, then the GS block. */
  function TessGsWords(hs: Option<HsInputs>, gs: Option<GsInputs>, vshsWorkgroup: bool): seq<Word>
    requires TessGsOk(hs, gs, vshsWorkgroup)
  {
    (if hs.Some? then HsWords(hs.value, vshsWorkgroup) else [])
    + (if gs.Some? then GsWords(gs.value) else [])
  }

  /**
   * tu6_emit_vpc: links the last geometry stage to the FS starting from what ir3_link_shaders
   * produced (`l0`), programs stream-out and the output registers, then the HS and GS blocks.
   */
  method EmitVpc(cs: Cs, l0: LinkState, v: VpcInputs, hs: Option<HsInputs>, gs: Option<GsInputs>,
                 vshsWorkgroup: bool)
    requires v.stage == LastStage(hs.Some?, gs.Some?)
    requires VpcFits(l0, v) && TessGsOk(hs, gs, vshsWorkgroup)
    requires cs.Valid() && cs.Room() >= |VpcWords(l0, v)| + |TessGsWords(hs, gs, vshsWorkgroup)|
    modifies cs
    ensures cs.Valid() && cs.words == old(cs.words) + VpcWords(l0, v) + TessGsWords(hs, gs, vshsWorkgroup)
  {
    var link := new Linkage(l0);
    EmitVpcOutputs(cs, link, v);
    EmitTessGs(cs, hs, gs, vshsWorkgroup);
  }

  method EmitTessGs(cs: Cs, hs: Option<HsInputs>, gs: Option<GsInputs>, vshsWorkgroup: bool)
    requires TessGsOk(hs, gs, vshsWorkgroup)
    requires cs.Valid() && cs.Room() >= |TessGsWords(hs, gs, vshsWorkgroup)|
    modifies cs
    ensures cs.Valid() && cs.words == old(cs.words) + TessGsWords(hs, gs, vshsWorkgroup)
  {
    ghost var w0 := cs.words;
    ghost var a := if hs.Some? then HsWords(hs.value, vshsWorkgroup) else [];
    ghost var b := if gs.Some? then GsWords(gs.value) else [];
    if hs.Some? {
      EmitHs(cs, hs.value, vshsWorkgroup);
    }
    assert cs.words == w0 + a;
    if gs.Some? {
      EmitGs(cs, gs.value);
    }
    assert cs.words == w0 + a + b;
    Assoc(w0, a, b);
  }

  // ---------------------------------------------------------------------------
  // The GS allocation when tessellating
  // ---------------------------------------------------------------------------

  /**
   * As written, vec4_size and SP_GS_PRIM_SIZE are sized by the VS's output even when the DS feeds
   * the GS. With a VS writing 4 dwords per vertex, a DS writing 8 and triangles in, the
   * per-primitive allocation (3 vec4s, 48 bytes) is half the primitive stride the DS writes with
   * (96 bytes), and the primitive size is not the DS's vertex stride.
   */
  lemma GsSizeAsWrittenTooSmall()
    ensures var c := ConstsInputs(4, 4, 8, true, Some(3), 3, 3, 0, 0, 0, 0);
      var g := GeomTessParams(c)[3];
      && g.stage == Geometry
      && GsVec4SizeAsWritten(3, c.vsOutputSize) * 16 < g.values[0]
      && c.vsOutputSize * 4 != g.values[1]
  {
  }

  /**
   * Sized by the producer (the DS when tessellating, else the VS), the per-primitive allocation
   * covers the primitive stride the GS's constants announce, and SP_GS_PRIM_SIZE is the producer's
   * vertex stride in dwords.
   */
  lemma GsSizeCoversStride(c: ConstsInputs)
    requires ConstsOk(c) && c.gsVerticesIn.Some?
    ensures var ps := GeomTessParams(c); var producer := if c.tess then c.dsOutputSize else c.vsOutputSize;
      && GsVec4Size(c.gsVerticesIn.value, producer) * 16 >= ps[|ps| - 1].values[0]
      && producer * 4 == ps[|ps| - 1].values[1]
  {
    var ps := GeomTessParams(c);
    var producer := if c.tess then c.dsOutputSize else c.vsOutputSize;
    var n := GsVec4Size(c.gsVerticesIn.value, producer);
    assert ps[|ps| - 1].values[0] == producer * c.gsVerticesIn.value * 4;
    assert n * 4 >= c.gsVerticesIn.value * producer;
  }

  // ---------------------------------------------------------------------------
  // Per-stage stride constants (tu6_emit_geom_tess_consts)
  // ---------------------------------------------------------------------------

  /**
   * The inputs of tu6_emit_geom_tess_consts: output sizes (dwords per vertex), whether the
   * pipeline tessellates (HS and DS together) and the GS's input vertex count when there is a GS,
   * the control points per patch, the HS's output vertex count and each stage's
   * primitive-parameter constant offset.
   */
  datatype ConstsInputs = ConstsInputs(
    vsOutputSize: nat, hsOutputSize: nat, dsOutputSize: nat,
    tess: bool, gsVerticesIn: Option<nat>,
    cpsPerPatch: nat, tcsVerticesOut: nat,
    vsBase: nat, hsBase: nat, dsBase: nat, gsBase: nat)

  predicate ConstsOk(c: ConstsInputs)
  {
    c.tess || c.gsVerticesIn.Some?
  }

  /** One upload: the stage, its constant offset and its four parameters. */
  datatype Params = Params(stage: Stage, base: nat, values: seq<nat>)

  /** primitive stride, vertex stride (both in bytes) and two stage-specific words */
  function StrideParams(stage: Stage, base: nat, outputSize: nat, numVertices: nat, p2: nat, p3: nat): Params
  {
    Params(stage, base, [outputSize * numVertices * 4, outputSize * 4, p2, p3])
  }

  /** The vertex count of the HS's (or, without tessellation, the GS's) input primitive. */
  function FirstVertices(c: ConstsInputs): nat
    requires ConstsOk(c)
  {
    if c.tess then c.cpsPerPatch else c.gsVerticesIn.value
  }

  /** The vertex count of the DS's and the GS's input primitive (num_vertices after the HS upload). */
  function LaterVertices(c: ConstsInputs): nat
    requires ConstsOk(c)
  {
    if c.gsVerticesIn.Some? then c.gsVerticesIn.value else FirstVertices(c)
  }

  function TessParamsList(c: ConstsInputs): seq<Params>
    requires ConstsOk(c)
  {
    if c.tess then
      [ StrideParams(TessCtrl, c.hsBase, c.vsOutputSize, FirstVertices(c), c.hsOutputSize, c.cpsPerPatch),
        StrideParams(TessEval, c.dsBase, c.dsOutputSize, LaterVertices(c), c.hsOutputSize, c.tcsVerticesOut) ]
    else []
  }

  function GsParamsList(c: ConstsInputs): seq<Params>
    requires ConstsOk(c)
  {
    if c.gsVerticesIn.Some? then
      [StrideParams(Geometry, c.gsBase, if c.tess then c.dsOutputSize else c.vsOutputSize, LaterVertices(c), 0, 0)]
    else []
  }

  /** The uploads, in order: VS, then HS and DS when tessellating, then GS. */
  function GeomTessParams(c: ConstsInputs): (ps: seq<Params>)
    requires ConstsOk(c)
  {
    [StrideParams(Vertex, c.vsBase, c.vsOutputSize, FirstVertices(c), 0, 0)] + TessParamsList(c) + GsParamsList(c)
  }

  /**
   * Producer and consumer agree on the layout: the HS reads the VS's outputs with the VS's
   * strides, the DS reads the HS's outputs with the HS's vertex stride, the GS reads its producer's
   * outputs with that producer's strides, and every primitive stride is a vertex stride times the
   * vertex count of the consumer's input primitive.
   */
  lemma GeomTessParamsAgree(c: ConstsInputs)
    requires ConstsOk(c)
    ensures var ps := GeomTessParams(c);
      && |ps| == 1 + (if c.tess then 2 else 0) + (if c.gsVerticesIn.Some? then 1 else 0)
      && (forall i :: 0 <= i < |ps| ==> |ps[i].values| == 4)
      && ps[0].stage == Vertex
      && (c.tess ==> ps[1].stage == TessCtrl && ps[2].stage == TessEval
                     && ps[1].values[..2] == ps[0].values[..2]
                     && ps[1].values[2] == c.hsOutputSize == ps[2].values[2]
                     && ps[1].values[0] == ps[1].values[1] * c.cpsPerPatch)
      && (c.gsVerticesIn.Some? ==>
            var g := ps[|ps| - 1]; var prev := ps[|ps| - 2];
            && g.stage == Geometry
            && g.values[..2] == prev.values[..2]
            && g.values[0] == g.values[1] * c.gsVerticesIn.value)
  {
  }

  predicate FourEach(ps: seq<Params>)
  {
    forall i :: 0 <= i < |ps| ==> |ps[i].values| == 4
  }

  function ParamsWords(p: Params): seq<Word>
    requires |p.values| == 4
  {
    ConstWords(CpLoadState6Geom, p.base, ShaderBlock(p.stage), 4, p.values)
  }

  function GeomTessWords(ps: seq<Params>): (ws: seq<Word>)
    requires FourEach(ps)
    ensures |ws| == 8 * |ps|
  {
    if ps == [] then [] else GeomTessWords(ps[..|ps| - 1]) + ParamsWords(ps[|ps| - 1])
  }

  lemma {:induction false} GeomTessWordsAppend(a: seq<Params>, b: seq<Params>)
    requires FourEach(a) && FourEach(b)
    ensures FourEach(a + b)
    ensures GeomTessWords(a + b) == GeomTessWords(a) + GeomTessWords(b)
    decreases |b|
  {
    if b == [] {
      assert a + b == a;
    } else {
      var b', last := b[..|b| - 1], b[|b| - 1];
      assert (a + b)[..|a + b| - 1] == a + b';
      assert (a + b)[|a + b| - 1] == last;
      GeomTessWordsAppend(a, b');
      Assoc(GeomTessWords(a), GeomTessWords(b'), ParamsWords(last));
    }
  }

  method EmitParams(cs: Cs, p: Params)
    requires |p.values| == 4
    requires cs.Valid() && cs.Room() >= 8
    modifies cs
    ensures cs.Valid() && cs.words == old(cs.words) + GeomTessWords([p])
  {
    assert [p][..0] == [];
    EmitConst(cs, CpLoadState6Geom, p.base, ShaderBlock(p.stage), 4, p.values);
  }

  /** The HS and DS uploads; returns num_vertices as the code leaves it for the GS. */
  method EmitTessConsts(cs: Cs, c: ConstsInputs, numVertices: nat) returns (numVertices': nat)
    requires ConstsOk(c) && c.tess && numVertices == FirstVertices(c)
    requires cs.Valid() && cs.Room() >= 16
    modifies cs
    ensures FourEach(TessParamsList(c)) && numVertices' == LaterVertices(c)
    ensures cs.Valid() && cs.words == old(cs.words) + GeomTessWords(TessParamsList(c))
  {
    ghost var start := cs.words;
    var hs := StrideParams(TessCtrl, c.hsBase, c.vsOutputSize, numVertices, c.hsOutputSize, c.cpsPerPatch);
    EmitParams(cs, hs);
    numVertices' := if c.gsVerticesIn.Some? then c.gsVerticesIn.value else numVertices;
    var ds := StrideParams(TessEval, c.dsBase, c.dsOutputSize, numVertices', c.hsOutputSize, c.tcsVerticesOut);
    EmitParams(cs, ds);
    TessWordsSplit(c);
    Assoc(start, GeomTessWords([hs]), GeomTessWords([ds]));
  }

  /** The two tessellation uploads, one after the other. */
  lemma TessWordsSplit(c: ConstsInputs)
    requires ConstsOk(c) && c.tess
    ensures var hs := StrideParams(TessCtrl, c.hsBase, c.vsOutputSize, FirstVertices(c), c.hsOutputSize, c.cpsPerPatch);
      var ds := StrideParams(TessEval, c.dsBase, c.dsOutputSize, LaterVertices(c), c.hsOutputSize, c.tcsVerticesOut);
      && FourEach(TessParamsList(c))
      && GeomTessWords(TessParamsList(c)) == GeomTessWords([hs]) + GeomTessWords([ds])
  {
    var ps := TessParamsList(c);
    GeomTessWordsAppend([ps[0]], [ps[1]]);
    assert [ps[0]] + [ps[1]] == ps;
  }

  method EmitGeomTessConsts(cs: Cs, c: ConstsInputs)
    requires ConstsOk(c)
    requires cs.Valid() && cs.Room() >= 32
    modifies cs
    ensures FourEach(GeomTessParams(c))
    ensures cs.Valid() && cs.words == old(cs.words) + GeomTessWords(GeomTessParams(c))
  {
    ghost var w0 := cs.words;
    var numVertices := if c.tess then c.cpsPerPatch else c.gsVerticesIn.value;
    var vs := StrideParams(Vertex, c.vsBase, c.vsOutputSize, numVertices, 0, 0);
    EmitParams(cs, vs);
    ghost var w1 := cs.words;
    if c.tess {
      numVertices := EmitTessConsts(cs, c, numVertices);
    }
    ghost var w2 := cs.words;
    assert w2 == w1 + GeomTessWords(TessParamsList(c));
    if c.gsVerticesIn.Some? {
      var prevSize := if c.tess then c.dsOutputSize else c.vsOutputSize;
      var gs := StrideParams(Geometry, c.gsBase, prevSize, numVertices, 0, 0);
      EmitParams(cs, gs);
    }
    ghost var a, b, d := GeomTessWords([vs]), GeomTessWords(TessParamsList(c)), GeomTessWords(GsParamsList(c));
    assert cs.words == w0 + a + b + d;
    GeomTessWordsAppend([vs], TessParamsList(c));
    GeomTessWordsAppend([vs] + TessParamsList(c), GsParamsList(c));
    assert GeomTessParams(c) == [vs] + TessParamsList(c) + GsParamsList(c);
    assert GeomTessWords(GeomTessParams(c)) == a + b + d;
    Assoc(w0 + a, b, d);
    Assoc(w0, a, b + d);
    Assoc(a, b, d);
  }
}
