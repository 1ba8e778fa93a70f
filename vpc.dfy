/**
 * The output half of tu6_emit_vpc: from the linkage ir3_link_shaders left to
 * the SP_xS_OUT_REG, SP_xS_VPC_DST_REG, VPC_xS_PACK ... VPC_CNTL_0 registers of
 * the last geometry stage.
 */
module Vpc {
  import opened Hw
  import opened CmdStream
  import opened Linkage
  import opened Streamout

  /** What tu6_emit_vpc reads from the shaders, beyond the linkage. */
  datatype VpcInputs = VpcInputs(
    stage: Stage,                  // the last geometry stage
    outputs: seq<ShaderOutput>,    // its outputs
    streamOut: seq<StreamOutput>,  // its stream-out description
    primitiveRegid: nat,           // the GS's primitive-id system value, regid(63, 0) without GS
    flagsRegid: nat,               // the GS's vertex-flags output, 0 without GS
    hasFs: bool,
    fsTotalIn: nat)                // fs->total_in

  /** gs ? GS : hs ? DS : VS */
  function LastStage(hasHs: bool, hasGs: bool): (s: Stage)
    ensures s == Geometry <==> hasGs
    ensures s == TessEval <==> hasHs && !hasGs
    ensures s == Vertex <==> !hasHs && !hasGs
  {
    if hasGs then Geometry else if hasHs then TessEval else Vertex
  }

  /** ir3_find_output_regid: the register of the first output in `slot`, or regid(63, 0). */
  function FindOutputRegid(outputs: seq<ShaderOutput>, slot: VaryingSlot): (r: nat)
    ensures (forall i :: 0 <= i < |outputs| ==> outputs[i].slot != slot) ==> r == InvalidReg
    ensures forall i :: (0 <= i < |outputs| && outputs[i].slot == slot
                         && forall j :: 0 <= j < i ==> outputs[j].slot != slot) ==> r == outputs[i].regid
  {
    if |outputs| == 0 then InvalidReg
    else if outputs[0].slot == slot then outputs[0].regid
    else FindOutputRegid(outputs[1..], slot)
  }

  /** A shader writes each varying slot at most once. */
  predicate UniqueSlots(outputs: seq<ShaderOutput>)
  {
    forall i, j :: 0 <= i < j < |outputs| ==> outputs[i].slot != outputs[j].slot
  }

  lemma FindOutputOfSlot(outputs: seq<ShaderOutput>, k: nat)
    requires UniqueSlots(outputs) && k < |outputs|
    ensures FindOutputRegid(outputs, outputs[k].slot) == outputs[k].regid
  {
  }

  /** The linkage after tu6_link_streamout, which runs only when there are stream outputs. */
  function StreamoutLinkage(l0: LinkState, v: VpcInputs): LinkState
    requires ValidStreamOutputs(v.outputs, v.streamOut)
  {
    if |v.streamOut| > 0 then LinkStreamoutSpec(l0, v.outputs, v.streamOut, |v.streamOut|) else l0
  }

  /**
   * The linkage after tu6_link_streamout and the layer/position/point-size
   * appends, with the locations of those three; this is what
   * tu6_setup_streamout sees.
   */
  function VpcLinkage(l0: LinkState, v: VpcInputs): (LinkState, OutputLocs)
    requires ValidStreamOutputs(v.outputs, v.streamOut)
  {
    PositionOutputs(StreamoutLinkage(l0, v), FindOutputRegid(v.outputs, SlotLayer), FindOutputRegid(v.outputs, SlotPos),
                    FindOutputRegid(v.outputs, SlotPsiz))
  }

  /** The bits `b < n` whose location `base + b` is not in `varmask`. */
  function UnusedBelow(varmask: set<nat>, base: nat, n: nat): (r: Mask)
    ensures forall b: nat :: b in r <==> b < n && base + b !in varmask
  {
    if n == 0 then {}
    else UnusedBelow(varmask, base, n - 1) + (if base + n - 1 in varmask then {} else {n - 1})
  }

  /** VPC_VAR_DISABLE(0..3): `~varmask[i]` for the 128 VPC locations. */
  function VarDisableWords(varmask: set<nat>): (ws: seq<Word>)
    ensures |ws| == 5
  {
    [Pkt4(VpcVarDisable, 4)] + seq(4, w requires 0 <= w < 4 => Field(VarDisable(UnusedBelow(varmask, 32 * w, 32))))
  }

  /**
   * VPC_VAR_DISABLE disables exactly the locations the linkage has not marked: bit `loc % 32`
   * of register `loc / 32` is set iff `loc` is not in `varmask`, and no bit beyond 31 is set.
   */
  lemma VarDisableExact(varmask: set<nat>, loc: nat)
    requires loc < 128
    ensures var ws := VarDisableWords(varmask); var w := ws[1 + loc / 32];
      && ws[0] == Pkt4(VpcVarDisable, 4)
      && w.Field? && w.f.VarDisable?
      && (loc % 32 in w.f.disabled <==> loc !in varmask)
      && forall b :: b in w.f.disabled ==> b < 32
  {
    var ws := VarDisableWords(varmask);
    assert ws[1 + loc / 32] == Field(VarDisable(UnusedBelow(varmask, 32 * (loc / 32), 32)));
    assert 32 * (loc / 32) + loc % 32 == loc;
  }

  /** The per-entry halves of SP_xS_OUT_REG. */
  function OutRegs(vars: seq<LinkVar>): (r: seq<OutReg>)
    ensures |r| == |vars|
  {
    seq(|vars|, i requires 0 <= i < |vars| => OutReg(vars[i].regid, vars[i].compmask))
  }

  /** The per-entry bytes of SP_xS_VPC_DST_REG. */
  function OutLocs(vars: seq<LinkVar>): (r: seq<nat>)
    ensures |r| == |vars|
  {
    seq(|vars|, i requires 0 <= i < |vars| => vars[i].loc)
  }

  /** SP_xS_OUT_REG: two 16-bit halves per register. */
  function SpOutWords(outs: seq<OutReg>): seq<Word>
  {
    var cs := Chunks(outs, 2);
    seq(|cs|, c requires 0 <= c < |cs| => Field(SpOutRegs(cs[c])))
  }

  /** SP_xS_VPC_DST_REG: four 8-bit locations per register. */
  function VpcDstWords(locs: seq<nat>): seq<Word>
  {
    var cs := Chunks(locs, 4);
    seq(|cs|, c requires 0 <= c < |cs| => Field(VpcDstLocs(cs[c])))
  }

  /** VPC_xS_PACK through VPC_CNTL_0. */
  function TailWords(l: LinkState, locs: OutputLocs, v: VpcInputs): (ws: seq<Word>)
    ensures |ws| == 18
  {
    var st := v.stage;
    var layerRegid := FindOutputRegid(v.outputs, SlotLayer);
    var pointsizeRegid := FindOutputRegid(v.outputs, SlotPsiz);
    [Pkt4(VpcXsPack(st), 1), Field(VpcPack(locs.positionLoc, locs.psizeLoc, l.maxLoc)),
     Pkt4(VpcXsClipCntl(st), 1), Raw(0xffff00),
     Pkt4(GrasXsClCntl(st), 1), Raw(0),
     Pkt4(PcXsOutCntl(st), 1),
     Field(PcOutCntl(l.maxLoc, ValidReg(pointsizeRegid), ValidReg(layerRegid), ValidReg(v.primitiveRegid))),
     Pkt4(SpXsPrimitiveCntl(st), 1), Field(PrimitiveCntl(|l.vars|, v.flagsRegid)),
     Pkt4(VpcXsLayerCntl(st), 1), Field(VpcLayerCntl(locs.layerLoc)),
     Pkt4(GrasXsLayerCntl(st), 1), Field(GrasLayerCntl(ValidReg(layerRegid))),
     Pkt4(PcPrimidPassthru, 1), Field(PrimidPassthru(l.primidLoc != NoLoc)),
     Pkt4(VpcCntl0, 1),
     Field(VpcCntl0Value(if v.hasFs then v.fsTotalIn else 0, v.hasFs && v.fsTotalIn > 0, l.primidLoc))]
  }

  /** SP_xS_OUT_REG and SP_xS_VPC_DST_REG with their packet headers. */
  function ArrayWords(l: LinkState, v: VpcInputs): seq<Word>
  {
    var n := |l.vars|;
    [Pkt4(SpXsOutReg(v.stage), DivRoundUp(n, 2))] + SpOutWords(OutRegs(l.vars))
    + [Pkt4(SpXsVpcDstReg(v.stage), DivRoundUp(n, 4))] + VpcDstWords(OutLocs(l.vars))
  }

  /** Everything from SP_xS_OUT_REG on, for the final linkage `l`. */
  function OutputWords(l: LinkState, locs: OutputLocs, v: VpcInputs): seq<Word>
  {
    ArrayWords(l, v) + TailWords(l, locs, v)
  }

  /**
   * What tu6_emit_vpc needs of the linkage it builds: tu6_setup_streamout
   * finds every streamed register and stays inside its arrays, and at most
   * 32 outputs remain (its `assert(linkage.cnt <= 32)`).
   */
  predicate VpcFits(l0: LinkState, v: VpcInputs)
  {
    && ValidStreamOutputs(v.outputs, v.streamOut)
    && var (l2, _) := VpcLinkage(l0, v);
       && SoInBounds(l2, v.outputs, v.streamOut) && ProgCount(l2) <= ProgEntries
       && |DummyIfEmpty(l2).vars| <= MaxOutputs
  }

  /**
   * The words of tu6_emit_vpc from VPC_VAR_DISABLE to VPC_CNTL_0: the used locations as the
   * stream-out linking leaves them, the stream-out setup, then the output registers.
   */
  function VpcWords(l0: LinkState, v: VpcInputs): seq<Word>
    requires VpcFits(l0, v)
  {
    VarDisableWords(StreamoutLinkage(l0, v).varmask) + LinkedWords(l0, v)
  }

  /** The words after VPC_VAR_DISABLE: the stream-out setup, then the output registers. */
  function LinkedWords(l0: LinkState, v: VpcInputs): seq<Word>
    requires VpcFits(l0, v)
  {
    var (l2, locs) := VpcLinkage(l0, v);
    StreamoutWords(l2, v.outputs, v.streamOut) + OutputWords(DummyIfEmpty(l2), locs, v)
  }

  // ---------------------------------------------------------------------------
  // Properties
  // ---------------------------------------------------------------------------

  lemma ChunkCount<T>(xs: seq<T>, k: nat)
    requires k == 2 || k == 4
    ensures |Chunks(xs, k)| == DivRoundUp(|xs|, k)
  {
    ChunksLength(xs, k);
    var c := |Chunks(xs, k)|;
    var q := DivRoundUp(|xs|, k);
    if k == 2 {
      assert |xs| == 0 || (c - 1) * 2 < |xs| <= c * 2;
      assert q * 2 >= |xs| && (q == 0 || (q - 1) * 2 < |xs|);
    } else {
      assert |xs| == 0 || (c - 1) * 4 < |xs| <= c * 4;
      assert q * 4 >= |xs| && (q == 0 || (q - 1) * 4 < |xs|);
    }
  }

  /**
   * The packing of the linkage into SP_xS_OUT_REG and SP_xS_VPC_DST_REG: each
   * packet's count is the number of registers that follow it
   * (DIV_ROUND_UP(cnt, 2) and DIV_ROUND_UP(cnt, 4), at most 16 and 8 for the
   * 32 entries the hardware takes), and entry `i` sits in register `i / 2`,
   * half `i % 2`, and in register `i / 4`, byte `i % 4`.
   */
  lemma OutputPacking(l: LinkState, i: nat)
    requires |l.vars| <= MaxOutputs && i < |l.vars|
    ensures |SpOutWords(OutRegs(l.vars))| == DivRoundUp(|l.vars|, 2) <= 16
    ensures |VpcDstWords(OutLocs(l.vars))| == DivRoundUp(|l.vars|, 4) <= 8
    ensures SpOutWords(OutRegs(l.vars))[i / 2] == Field(SpOutRegs(Chunks(OutRegs(l.vars), 2)[i / 2]))
    ensures i % 2 < |Chunks(OutRegs(l.vars), 2)[i / 2]|
    ensures Chunks(OutRegs(l.vars), 2)[i / 2][i % 2] == OutReg(l.vars[i].regid, l.vars[i].compmask)
    ensures VpcDstWords(OutLocs(l.vars))[i / 4] == Field(VpcDstLocs(Chunks(OutLocs(l.vars), 4)[i / 4]))
    ensures i % 4 < |Chunks(OutLocs(l.vars), 4)[i / 4]|
    ensures Chunks(OutLocs(l.vars), 4)[i / 4][i % 4] == l.vars[i].loc
  {
    ChunkCount(OutRegs(l.vars), 2);
    ChunkCount(OutLocs(l.vars), 4);
    ChunksCover(OutRegs(l.vars), 2, i / 2, i % 2);
    ChunksIndex(OutRegs(l.vars), 2, i / 2, i % 2);
    ChunksCover(OutLocs(l.vars), 4, i / 4, i % 4);
    ChunksIndex(OutLocs(l.vars), 4, i / 4, i % 4);
  }

  /** Each of the two array packets counts exactly the registers that follow it. */
  lemma OutputWordsShape(l: LinkState, locs: OutputLocs, v: VpcInputs)
    requires |l.vars| <= MaxOutputs
    ensures var n := |l.vars|;
            var ws := OutputWords(l, locs, v);
            var a := DivRoundUp(n, 2);
            var b := DivRoundUp(n, 4);
            && |ws| == 2 + a + b + 18
            && ws[0] == Pkt4(SpXsOutReg(v.stage), a)
            && ws[1 + a] == Pkt4(SpXsVpcDstReg(v.stage), b)
  {
    ArrayWordsShape(l, v);
    var arr, tail := ArrayWords(l, v), TailWords(l, locs, v);
    assert OutputWords(l, locs, v) == arr + tail;
  }

  lemma ArrayWordsShape(l: LinkState, v: VpcInputs)
    requires |l.vars| <= MaxOutputs
    ensures var n := |l.vars|;
            var ws := ArrayWords(l, v);
            var a := DivRoundUp(n, 2);
            && |ws| == 2 + a + DivRoundUp(n, 4)
            && ws[0] == Pkt4(SpXsOutReg(v.stage), a)
            && ws[1 + a] == Pkt4(SpXsVpcDstReg(v.stage), DivRoundUp(n, 4))
  {
    ChunkCount(OutRegs(l.vars), 2);
    ChunkCount(OutLocs(l.vars), 4);
    var n := |l.vars|;
    var sp, dst := SpOutWords(OutRegs(l.vars)), VpcDstWords(OutLocs(l.vars));
    var h1, h2 := [Pkt4(SpXsOutReg(v.stage), DivRoundUp(n, 2))], [Pkt4(SpXsVpcDstReg(v.stage), DivRoundUp(n, 4))];
    assert |sp| == DivRoundUp(n, 2) && |dst| == DivRoundUp(n, 4);
    var front := h1 + sp + h2;
    assert front[1 + |sp|] == h2[0];
    assert ArrayWords(l, v) == front + dst;
  }


  /**
   * What tu6_setup_streamout needs holds after the linking steps of
   * tu6_emit_vpc: every stream output with a valid register is linked (so its
   * `debug_assert(idx < l->cnt)` holds), and every one other than position and
   * point size is linked with all the components it streams.
   */
  lemma VpcStreamoutLinked(l0: LinkState, v: VpcInputs, i: nat)
    requires ValidStreamOutputs(v.outputs, v.streamOut) && UniqueSlots(v.outputs)
    requires i < |v.streamOut| && ValidReg(SoRegid(v.outputs, v.streamOut[i]))
    ensures var (l2, _) := VpcLinkage(l0, v);
            var regid := SoRegid(v.outputs, v.streamOut[i]);
            && FindReg(l2.vars, regid) < |l2.vars|
            && (!SkippedSlot(v.outputs[v.streamOut[i].registerIndex].slot) ==> Covers(l2, regid, SoMask(v.streamOut[i])))
  {
    var so := v.streamOut;
    var l1 := if |so| > 0 then LinkStreamoutSpec(l0, v.outputs, so, |so|) else l0;
    var layer := FindOutputRegid(v.outputs, SlotLayer);
    var pos := FindOutputRegid(v.outputs, SlotPos);
    var psize := FindOutputRegid(v.outputs, SlotPsiz);
    var (l2, _) := PositionOutputs(l1, layer, pos, psize);
    PositionOutputsLayout(l1, layer, pos, psize);
    var k := so[i].registerIndex;
    var regid := v.outputs[k].regid;
    FindOutputOfSlot(v.outputs, k);
    if v.outputs[k].slot == SlotPos {
      var at := |l1.vars| + Count(ValidReg(layer), 1);
      assert l2.vars[at].regid == regid;
    } else if v.outputs[k].slot == SlotPsiz {
      assert l2.vars[|l2.vars| - 1].regid == regid;
    } else {
      LinkStreamoutProps(l0, v.outputs, so, |so|);
      CoversExtends(l1, l2, regid, SoMask(so[i]));
    }
  }

  /** The hardware needs at least one output: after the dummy, SP_xS_OUT_REG is never empty. */
  lemma OutputsNeverEmpty(l0: LinkState, v: VpcInputs)
    requires ValidStreamOutputs(v.outputs, v.streamOut)
    ensures var (l2, _) := VpcLinkage(l0, v);
            var n := |DummyIfEmpty(l2).vars|;
            n >= 1 && DivRoundUp(n, 2) >= 1 && DivRoundUp(n, 4) >= 1
  {
  }

  // ---------------------------------------------------------------------------
  // The emitter
  // ---------------------------------------------------------------------------

  /** The loop filling `sp_out` and `sp_vpc_dst`, one entry per linked varying. */
  method PackOutputs(vars: seq<LinkVar>) returns (spOut: array<OutReg>, spVpcDst: array<nat>)
    requires |vars| <= MaxOutputs
    ensures fresh(spOut) && fresh(spVpcDst)
    ensures spOut.Length == MaxOutputs && spVpcDst.Length == MaxOutputs
    ensures spOut[..|vars|] == OutRegs(vars) && spVpcDst[..|vars|] == OutLocs(vars)
  {
    spOut := new OutReg[MaxOutputs](_ => OutReg(0, {}));
    spVpcDst := new nat[MaxOutputs](_ => 0);
    var i := 0;
    while i < |vars|
      invariant i <= |vars|
      invariant spOut[..i] == OutRegs(vars)[..i] && spVpcDst[..i] == OutLocs(vars)[..i]
    {
      spOut[i] := OutReg(vars[i].regid, vars[i].compmask);
      spVpcDst[i] := vars[i].loc;
      i := i + 1;
    }
  }

  /** VPC_xS_PACK through VPC_CNTL_0. */
  method EmitTail(cs: Cs, l: LinkState, locs: OutputLocs, v: VpcInputs)
    requires cs.Valid() && cs.Room() >= 18
    modifies cs
    ensures cs.Valid() && cs.words == old(cs.words) + TailWords(l, locs, v)
  {
    var st := v.stage;
    var layerRegid := FindOutputRegid(v.outputs, SlotLayer);
    var pointsizeRegid := FindOutputRegid(v.outputs, SlotPsiz);
    var primidPassthru := l.primidLoc != NoLoc;
    var numNonPosVar := if v.hasFs then v.fsTotalIn else 0;
    cs.EmitAll([Pkt4(VpcXsPack(st), 1), Field(VpcPack(locs.positionLoc, locs.psizeLoc, l.maxLoc)),
                Pkt4(VpcXsClipCntl(st), 1), Raw(0xffff00),
                Pkt4(GrasXsClCntl(st), 1), Raw(0),
                Pkt4(PcXsOutCntl(st), 1),
                Field(PcOutCntl(l.maxLoc, pointsizeRegid != InvalidReg, layerRegid != InvalidReg,
                                v.primitiveRegid != InvalidReg)),
                Pkt4(SpXsPrimitiveCntl(st), 1), Field(PrimitiveCntl(|l.vars|, v.flagsRegid)),
                Pkt4(VpcXsLayerCntl(st), 1), Field(VpcLayerCntl(locs.layerLoc)),
                Pkt4(GrasXsLayerCntl(st), 1), Field(GrasLayerCntl(layerRegid != InvalidReg)),
                Pkt4(PcPrimidPassthru, 1), Field(PrimidPassthru(primidPassthru)),
                Pkt4(VpcCntl0, 1), Field(VpcCntl0Value(numNonPosVar, v.hasFs && v.fsTotalIn > 0, l.primidLoc))]);
  }

  /** The two array packets, filled from the packing loop. */
  method EmitArrays(cs: Cs, l: LinkState, v: VpcInputs)
    requires |l.vars| <= MaxOutputs
    requires cs.Valid() && cs.Room() >= |ArrayWords(l, v)|
    modifies cs
    ensures cs.Valid() && cs.words == old(cs.words) + ArrayWords(l, v)
  {
    var n := |l.vars|;
    var spOut, spVpcDst := PackOutputs(l.vars);
    var ws := [Pkt4(SpXsOutReg(v.stage), DivRoundUp(n, 2))] + SpOutWords(spOut[..n])
              + [Pkt4(SpXsVpcDstReg(v.stage), DivRoundUp(n, 4))] + VpcDstWords(spVpcDst[..n]);
    assert ws == ArrayWords(l, v);
    cs.EmitAll(ws);
  }

  /** The packing and the registers after it, for the final linkage. */
  method EmitOutputs(cs: Cs, l: LinkState, locs: OutputLocs, v: VpcInputs)
    requires |l.vars| <= MaxOutputs
    requires cs.Valid() && cs.Room() >= |OutputWords(l, locs, v)|
    modifies cs
    ensures cs.Valid() && cs.words == old(cs.words) + OutputWords(l, locs, v)
  {
    ghost var w0 := cs.words;
    EmitArrays(cs, l, v);
    EmitTail(cs, l, locs, v);
    Assoc(w0, ArrayWords(l, v), TailWords(l, locs, v));
  }

  /** VPC_VAR_DISABLE(0..3), one register per 32 locations. */
  method EmitVarDisable(cs: Cs, varmask: set<nat>)
    requires cs.Valid() && cs.Room() >= 5
    modifies cs
    ensures cs.Valid() && cs.words == old(cs.words) + VarDisableWords(varmask)
  {
    var ws := [Pkt4(VpcVarDisable, 4)];
    for w := 0 to 4
      invariant ws == [Pkt4(VpcVarDisable, 4)] + seq(w, i requires 0 <= i < w => Field(VarDisable(UnusedBelow(varmask, 32 * i, 32))))
    {
      ws := ws + [Field(VarDisable(UnusedBelow(varmask, 32 * w, 32)))];
    }
    cs.EmitAll(ws);
  }

  /** The first linking step of tu6_emit_vpc: stream-out varyings, when there are any. */
  method LinkStreamoutOutputs(link: Linkage, v: VpcInputs)
    requires ValidStreamOutputs(v.outputs, v.streamOut)
    modifies link
    ensures link.State() == StreamoutLinkage(old(link.State()), v)
  {
    if |v.streamOut| > 0 {
      link.LinkStreamout(v.outputs, v.streamOut);
    }
  }

  /** The second linking step of tu6_emit_vpc: layer, position and point size, at the end. */
  method LinkPositionOutputs(link: Linkage, v: VpcInputs) returns (locs: OutputLocs)
    modifies link
    ensures (link.State(), locs) == PositionOutputs(old(link.State()), FindOutputRegid(v.outputs, SlotLayer),
                                                    FindOutputRegid(v.outputs, SlotPos), FindOutputRegid(v.outputs, SlotPsiz))
  {
    var positionRegid := FindOutputRegid(v.outputs, SlotPos);
    var pointsizeRegid := FindOutputRegid(v.outputs, SlotPsiz);
    var layerRegid := FindOutputRegid(v.outputs, SlotLayer);
    locs := link.AddPositionOutputs(layerRegid, positionRegid, pointsizeRegid);
  }

  /**
   * tu6_emit_vpc after VPC_VAR_DISABLE, on a linkage the stream-out linking has produced from
   * `l0`: the layer/position/point-size appends, the stream-out program and the output registers.
   */
  method EmitLinkedOutputs(cs: Cs, link: Linkage, v: VpcInputs, ghost l0: LinkState)
    requires VpcFits(l0, v) && link.State() == StreamoutLinkage(l0, v)
    requires cs.Valid() && cs.Room() >= |LinkedWords(l0, v)|
    modifies cs, link
    ensures link.State() == DummyIfEmpty(VpcLinkage(l0, v).0)
    ensures cs.Valid() && cs.words == old(cs.words) + LinkedWords(l0, v)
  {
    ghost var w0 := cs.words;
    ghost var after := VpcLinkage(l0, v);
    ghost var soWords := StreamoutWords(after.0, v.outputs, v.streamOut);
    ghost var outWords := OutputWords(DummyIfEmpty(after.0), after.1, v);
    var locs := LinkPositionOutputs(link, v);
    assert (link.State(), locs) == after;
    SetupStreamout(cs, link.State(), v.outputs, v.streamOut);
    link.AddDummyIfEmpty();
    EmitOutputs(cs, link.State(), locs, v);
    Assoc(w0, soWords, outWords);
  }

  /**
   * tu6_emit_vpc from tu6_link_streamout to VPC_CNTL_0, on the linkage object:
   * the linkage ends as the dummy-completed linkage of `VpcLinkage`, and the
   * words are VPC_VAR_DISABLE for the locations used after stream-out linking,
   * the stream-out program and the output registers.
   */
  method EmitVpcOutputs(cs: Cs, link: Linkage, v: VpcInputs)
    requires VpcFits(link.State(), v)
    requires cs.Valid() && cs.Room() >= |VpcWords(link.State(), v)|
    modifies cs, link
    ensures link.State() == DummyIfEmpty(VpcLinkage(old(link.State()), v).0)
    ensures cs.Valid() && cs.words == old(cs.words) + VpcWords(old(link.State()), v)
  {
    ghost var w0 := cs.words;
    ghost var l0 := link.State();
    LinkStreamoutOutputs(link, v);
    EmitVarDisable(cs, link.varmask);
    EmitLinkedOutputs(cs, link, v, l0);
    Assoc(w0, VarDisableWords(StreamoutLinkage(l0, v).varmask), LinkedWords(l0, v));
  }
}
