/**
 * Colour blending: the per-render-target RB_MRT_CONTROL / RB_MRT_BLEND_CONTROL words
 * (tu6_emit_rb_mrt_controls), the blend-enable mask they produce, SP/RB_BLEND_CNTL with the
 * sample mask (tu6_emit_blend_control), and the dual-source blending test.
 */
module Blend {
  import opened Hw
  import opened CmdStream

  /** VkLogicOp values that never read the destination. */
  const LogicOpClear: nat := 0
  const LogicOpCopy: nat := 3
  const LogicOpCopyInverted: nat := 12
  const LogicOpSet: nat := 15

  /** VkBlendFactor values this code looks at. */
  const FactorZero: nat := 0
  const FactorOne: nat := 1
  const FactorDstAlpha: nat := 8
  const FactorOneMinusDstAlpha: nat := 9
  const FactorSrc1Color: nat := 15
  const FactorOneMinusSrc1Color: nat := 16
  const FactorSrc1Alpha: nat := 17
  const FactorOneMinusSrc1Alpha: nat := 18

  /** MAX_RTS: the render targets of a subpass. */
  const MaxRts: nat := 8

  /** tu_logic_op_reads_dst: every logic op except CLEAR, COPY, COPY_INVERTED and SET reads the destination. */
  predicate LogicOpReadsDst(op: nat)
  {
    op != LogicOpClear && op != LogicOpCopy && op != LogicOpCopyInverted && op != LogicOpSet
  }

  /**
   * What a VkLogicOp computes for one bit of source `s` and destination `d`: the op's value is
   * its truth table, bit 0 giving the result for s = d = 1 and bit 3 for s = d = 0.
   */
  predicate LogicResult(op: nat, s: bool, d: bool)
  {
    var row := (if s then 0 else 2) + (if d then 0 else 1);
    (if row == 0 then op else if row == 1 then op / 2 else if row == 2 then op / 4 else op / 8) % 2 == 1
  }

  /** The op's result depends on the destination for one of the two source bits. */
  predicate DependsOnDst(op: nat)
  {
    LogicResult(op, true, false) != LogicResult(op, true, true)
    || LogicResult(op, false, false) != LogicResult(op, false, true)
  }

  /** The four logic ops tu_logic_op_reads_dst excludes are exactly those whose result ignores the destination. */
  lemma LogicOpReadsDstIff(op: nat)
    requires op < 16
    ensures LogicOpReadsDst(op) <==> DependsOnDst(op)
  {
    var b0, b1, b2, b3 := op % 2, op / 2 % 2, op / 4 % 2, op / 8 % 2;
    assert op == b0 + 2 * b1 + 4 * b2 + 8 * b3;
    assert DependsOnDst(op) <==> b0 != b1 || b2 != b3;
  }

  /**
   * tu_blend_factor_no_dst_alpha: with no alpha channel the destination alpha is taken as 1.0,
   * so DST_ALPHA becomes ONE and ONE_MINUS_DST_ALPHA becomes ZERO; the result never reads it.
   */
  function NoDstAlpha(f: nat): (g: nat)
    ensures g != FactorDstAlpha && g != FactorOneMinusDstAlpha
    ensures f == FactorDstAlpha ==> g == FactorOne
    ensures f == FactorOneMinusDstAlpha ==> g == FactorZero
    ensures f != FactorDstAlpha && f != FactorOneMinusDstAlpha ==> g == f
  {
    if f == FactorDstAlpha then FactorOne
    else if f == FactorOneMinusDstAlpha then FactorZero
    else f
  }

  /**
   * tu_blend_factor_is_dual_src: the factor reads the second colour output of the shader. These
   * are the four consecutive VkBlendFactor values from SRC1_COLOR, and the destination-alpha
   * fix-up neither creates nor removes one.
   */
  predicate IsDualSrc(f: nat)
    ensures IsDualSrc(f) <==> FactorSrc1Color <= f <= FactorOneMinusSrc1Alpha
    ensures IsDualSrc(NoDstAlpha(f)) <==> IsDualSrc(f)
  {
    f == FactorSrc1Color || f == FactorOneMinusSrc1Color || f == FactorSrc1Alpha || f == FactorOneMinusSrc1Alpha
  }

  /** A VkPipelineColorBlendAttachmentState; ops and factors are Vulkan values. */
  datatype BlendAttachment = BlendAttachment(
    blendEnable: bool,
    srcColor: nat, dstColor: nat, colorOp: nat,
    srcAlpha: nat, dstAlpha: nat, alphaOp: nat,
    writeMask: nat)

  /** The integer fields of a VkPipelineColorBlendStateCreateInfo (the blend constants are floats). */
  datatype ColorBlendInfo = ColorBlendInfo(logicOpEnable: bool, logicOp: nat, attachments: seq<BlendAttachment>)

  /** The zero-initialised dummy_blend_info: no logic op and no attachments. */
  const DummyBlend: ColorBlendInfo := ColorBlendInfo(false, 0, [])

  /** What vk_format_is_int and vk_format_has_alpha report for a colour attachment's format. */
  datatype ColorFormat = ColorFormat(isInt: bool, hasAlpha: bool)

  /** One attachment reads the second colour output in one of its four factors. */
  predicate ReadsSrc1(a: BlendAttachment)
  {
    IsDualSrc(a.srcColor) || IsDualSrc(a.dstColor) || IsDualSrc(a.srcAlpha) || IsDualSrc(a.dstAlpha)
  }

  /** Dual-source blending is in use: some attachment reads the second colour output. */
  predicate DualSrc(info: Option<ColorBlendInfo>)
  {
    info.Some? && exists i :: 0 <= i < |info.value.attachments| && ReadsSrc1(info.value.attachments[i])
  }

  /** tu_blend_state_is_dual_src: a missing blend state is never dual-source. */
  method BlendStateIsDualSrc(info: Option<ColorBlendInfo>) returns (r: bool)
    ensures r <==> DualSrc(info)
  {
    if info.None? {
      return false;
    }
    var atts := info.value.attachments;
    for i := 0 to |atts|
      invariant forall j :: 0 <= j < i ==> !ReadsSrc1(atts[j])
    {
      var blend := atts[i];
      if IsDualSrc(blend.srcColor) || IsDualSrc(blend.dstColor) ||
         IsDualSrc(blend.srcAlpha) || IsDualSrc(blend.dstAlpha) {
        return true;
      }
    }
    return false;
  }

  // ---------------------------------------------------------------------------
  // RB_MRT[i]
  // ---------------------------------------------------------------------------

  /**
   * tu6_rb_mrt_blend_control: the alpha factors and both ops are taken as given; the colour
   * factors too when the format has alpha, and otherwise never read the destination alpha.
   */
  function MrtBlendControlOf(a: BlendAttachment, hasAlpha: bool): (v: RegValue)
    ensures v.MrtBlendControl?
    ensures v.rgbOp == a.colorOp && v.alphaOp == a.alphaOp
    ensures v.alphaSrc == a.srcAlpha && v.alphaDst == a.dstAlpha
    ensures hasAlpha ==> v.rgbSrc == a.srcColor && v.rgbDst == a.dstColor
    ensures !hasAlpha ==> v.rgbSrc == NoDstAlpha(a.srcColor) && v.rgbDst == NoDstAlpha(a.dstColor)
    ensures !hasAlpha ==> v.rgbSrc !in {FactorDstAlpha, FactorOneMinusDstAlpha}
                          && v.rgbDst !in {FactorDstAlpha, FactorOneMinusDstAlpha}
  {
    var src := if hasAlpha then a.srcColor else NoDstAlpha(a.srcColor);
    var dst := if hasAlpha then a.dstColor else NoDstAlpha(a.dstColor);
    MrtBlendControl(src, a.colorOp, dst, a.srcAlpha, a.alphaOp, a.dstAlpha)
  }

  /**
   * tu6_rb_mrt_control: the write mask always; an integer attachment ignores blending and the
   * logic op and just copies; otherwise the shared ROP bits, BLEND when blending is enabled and
   * BLEND2 when it is enabled on a format with alpha.
   */
  function MrtControlOf(a: BlendAttachment, info: ColorBlendInfo, isInt: bool, hasAlpha: bool): (v: RegValue)
    ensures v.MrtControl? && v.componentEnable == a.writeMask
    ensures isInt ==> !v.ropEnable && v.rop == RopCopy && !v.blend && !v.blend2
    ensures !isInt ==> && (v.ropEnable <==> info.logicOpEnable)
                       && (v.rop == if info.logicOpEnable then RopOf(info.logicOp) else RopZero)
                       && (v.blend <==> a.blendEnable)
                       && (v.blend2 <==> a.blendEnable && hasAlpha)
  {
    if isInt then MrtControl(a.writeMask, false, RopCopy, false, false)
    else
      MrtControl(a.writeMask, info.logicOpEnable, if info.logicOpEnable then RopOf(info.logicOp) else RopZero,
                 a.blendEnable, a.blendEnable && hasAlpha)
  }

  predicate FormatsOk(info: ColorBlendInfo, formats: seq<Option<ColorFormat>>)
  {
    |formats| == MaxRts && |info.attachments| <= MaxRts
  }

  /** Render target `i` reads the destination: it is attached and blends or the logic op reads it. */
  predicate BlendEnabled(info: ColorBlendInfo, formats: seq<Option<ColorFormat>>, i: nat)
    requires FormatsOk(info, formats) && i < |info.attachments|
  {
    formats[i].Some? && (info.attachments[i].blendEnable || (info.logicOpEnable && LogicOpReadsDst(info.logicOp)))
  }

  /** The blend-enable mask: the render targets that read the destination. */
  function BlendEnableMask(info: ColorBlendInfo, formats: seq<Option<ColorFormat>>): (m: Mask)
    requires FormatsOk(info, formats)
    ensures forall i: nat :: i in m ==> i < |info.attachments| && formats[i].Some?
  {
    set i: nat | i < |info.attachments| && BlendEnabled(info, formats, i)
  }

  /** The three words of render target `i`; an undefined format gets both registers cleared. */
  function MrtWords(info: ColorBlendInfo, formats: seq<Option<ColorFormat>>, i: nat): (ws: seq<Word>)
    requires FormatsOk(info, formats) && i < |info.attachments|
    ensures |ws| == 3
  {
    [Pkt4(RbMrtControl(i), 2)] +
    (if formats[i].None? then [Raw(0), Raw(0)]
     else [ Field(MrtControlOf(info.attachments[i], info, formats[i].value.isInt, formats[i].value.hasAlpha)),
            Field(MrtBlendControlOf(info.attachments[i], formats[i].value.hasAlpha)) ])
  }

  /** The words of the first `k` render targets. */
  function MrtControlsWords(info: ColorBlendInfo, formats: seq<Option<ColorFormat>>, k: nat): (ws: seq<Word>)
    requires FormatsOk(info, formats) && k <= |info.attachments|
    ensures |ws| == 3 * k
  {
    if k == 0 then [] else MrtControlsWords(info, formats, k - 1) + MrtWords(info, formats, k - 1)
  }

  /** One iteration of the render-target loop; reports whether the target joins the blend-enable mask. */
  method EmitMrtControl(cs: Cs, info: ColorBlendInfo, formats: seq<Option<ColorFormat>>, i: nat,
                        ropReadsDst: bool, ropControl: bool)
    returns (enabled: bool)
    requires FormatsOk(info, formats) && i < |info.attachments|
    requires ropReadsDst == (info.logicOpEnable && LogicOpReadsDst(info.logicOp))
    requires ropControl == info.logicOpEnable
    requires cs.Valid() && cs.Room() >= 3
    modifies cs
    ensures cs.Valid() && cs.words == old(cs.words) + MrtWords(info, formats, i)
    ensures enabled <==> BlendEnabled(info, formats, i)
  {
    var att := info.attachments[i];
    var format := formats[i];
    var control := Raw(0);
    var blendControl := Raw(0);
    enabled := false;
    if format.Some? {
      var isInt := format.value.isInt;
      var hasAlpha := format.value.hasAlpha;
      control := Field(MrtControlOf(att, info, isInt, hasAlpha));
      blendControl := Field(MrtBlendControlOf(att, hasAlpha));
      if att.blendEnable || ropReadsDst {
        enabled := true;
      }
    }
    cs.EmitPkt4(RbMrtControl(i), 2);
    cs.Emit(control);
    cs.Emit(blendControl);
  }

  /**
   * tu6_emit_rb_mrt_controls: three words per attachment, and the blend-enable mask holds exactly
   * the attached render targets that blend or whose logic op reads the destination.
   */
  method EmitRbMrtControls(cs: Cs, info: ColorBlendInfo, formats: seq<Option<ColorFormat>>) returns (mask: Mask)
    requires FormatsOk(info, formats)
    requires cs.Valid() && cs.Room() >= 3 * |info.attachments|
    modifies cs
    ensures cs.Valid() && cs.words == old(cs.words) + MrtControlsWords(info, formats, |info.attachments|)
    ensures forall i: nat :: i in mask <==> i < |info.attachments| && BlendEnabled(info, formats, i)
    ensures mask == BlendEnableMask(info, formats)
  {
    ghost var start := cs.words;
    mask := {};
    var ropReadsDst := false;
    var ropControl := false;
    if info.logicOpEnable {
      ropReadsDst := LogicOpReadsDst(info.logicOp);
      ropControl := true;
    }
    var n := |info.attachments|;
    for i := 0 to n
      invariant cs.Valid() && cs.words == start + MrtControlsWords(info, formats, i)
      invariant cs.Room() >= 3 * (n - i)
      invariant forall j: nat :: j in mask <==> j < i && BlendEnabled(info, formats, j)
    {
      ghost var before := MrtControlsWords(info, formats, i);
      var enabled := EmitMrtControl(cs, info, formats, i, ropReadsDst, ropControl);
      Assoc(start, before, MrtWords(info, formats, i));
      if enabled {
        mask := mask + {i};
      }
    }
  }

  // ---------------------------------------------------------------------------
  // SP_BLEND_CNTL and RB_BLEND_CNTL
  // ---------------------------------------------------------------------------

  /** The integer fields of a VkPipelineMultisampleStateCreateInfo; the sample mask is its first word. */
  datatype MsaaInfo = MsaaInfo(rasterizationSamples: nat, sampleMask: Option<Mask>,
                               alphaToCoverage: bool, alphaToOne: bool)

  /**
   * The RB_BLEND_CNTL sample mask: the low 16 bits of the application's mask, or every one of the
   * rasterization samples when there is none.
   */
  function SampleMaskOf(msaa: MsaaInfo): (m: Mask)
    ensures msaa.sampleMask.Some? ==> forall s: nat :: s in m <==> s < 16 && s in msaa.sampleMask.value
    ensures msaa.sampleMask.None? ==> forall s: nat :: s in m <==> s < msaa.rasterizationSamples
  {
    if msaa.sampleMask.Some? then set s: nat | s in msaa.sampleMask.value && s < 16
    else LowMask(msaa.rasterizationSamples)
  }

  /** SP_BLEND_CNTL and RB_BLEND_CNTL, both with the same enable mask and dual-source flag. */
  function BlendControlWords(mask: Mask, dualSrc: bool, msaa: MsaaInfo): (ws: seq<Word>)
    ensures |ws| == 4
  {
    [ Pkt4(SpBlendCntl, 1), Field(SpBlendCntlValue(mask, dualSrc, msaa.alphaToCoverage, true)),
      Pkt4(RbBlendCntl, 1),
      Field(RbBlendCntlValue(mask, true, SampleMaskOf(msaa), dualSrc, msaa.alphaToCoverage, msaa.alphaToOne)) ]
  }

  /** tu6_emit_blend_control */
  method EmitBlendControl(cs: Cs, mask: Mask, dualSrc: bool, msaa: MsaaInfo)
    requires cs.Valid() && cs.Room() >= 4
    modifies cs
    ensures cs.Valid() && cs.words == old(cs.words) + BlendControlWords(mask, dualSrc, msaa)
  {
    var sampleMask := if msaa.sampleMask.Some? then set s: nat | s in msaa.sampleMask.value && s < 16
                      else LowMask(msaa.rasterizationSamples);
    cs.EmitPkt4(SpBlendCntl, 1);
    cs.Emit(Field(SpBlendCntlValue(mask, dualSrc, msaa.alphaToCoverage, true)));
    cs.EmitPkt4(RbBlendCntl, 1);
    cs.Emit(Field(RbBlendCntlValue(mask, true, sampleMask, dualSrc, msaa.alphaToCoverage, msaa.alphaToOne)));
  }

  /** The blend draw state: the render-target words then the blend control. */
  function BlendStateWords(info: ColorBlendInfo, formats: seq<Option<ColorFormat>>, dualSrc: bool, msaa: MsaaInfo)
    : (ws: seq<Word>)
    requires FormatsOk(info, formats)
    ensures |ws| == 3 * |info.attachments| + 4
  {
    MrtControlsWords(info, formats, |info.attachments|)
    + BlendControlWords(BlendEnableMask(info, formats), dualSrc, msaa)
  }

  // ---------------------------------------------------------------------------
  // Properties
  // ---------------------------------------------------------------------------

  /**
   * What the render-target words say about target `i`: an unattached target has both registers
   * cleared, an attached one gets the attachment's write mask, and its BLEND bit is set only
   * when the target is in the blend-enable mask.
   */
  lemma MrtWordsAt(info: ColorBlendInfo, formats: seq<Option<ColorFormat>>, i: nat)
    requires FormatsOk(info, formats) && i < |info.attachments|
    ensures var ws := MrtControlsWords(info, formats, |info.attachments|);
      && ws[3 * i] == Pkt4(RbMrtControl(i), 2)
      && (formats[i].None? ==> ws[3 * i + 1] == Raw(0) && ws[3 * i + 2] == Raw(0) && i !in BlendEnableMask(info, formats))
      && (formats[i].Some? ==> ws[3 * i + 1].Field? && ws[3 * i + 1].f.MrtControl?
                               && ws[3 * i + 1].f.componentEnable == info.attachments[i].writeMask)
      && (formats[i].Some? && ws[3 * i + 1].f.blend ==> i in BlendEnableMask(info, formats))
  {
    var ws := MrtControlsWords(info, formats, |info.attachments|);
    MrtWordsPrefix(info, formats, i + 1, |info.attachments|);
    var m := MrtWords(info, formats, i);
    assert ws[3 * i] == m[0] && ws[3 * i + 1] == m[1] && ws[3 * i + 2] == m[2];
  }

  /** Later render targets never change the words of earlier ones. */
  lemma {:induction false} MrtWordsPrefix(info: ColorBlendInfo, formats: seq<Option<ColorFormat>>, k: nat, n: nat)
    requires FormatsOk(info, formats) && 0 < k <= n <= |info.attachments|
    ensures MrtControlsWords(info, formats, n)[3 * (k - 1)..3 * k] == MrtWords(info, formats, k - 1)
    decreases n
  {
    if n == k {
      assert MrtControlsWords(info, formats, n) == MrtControlsWords(info, formats, k - 1) + MrtWords(info, formats, k - 1);
    } else {
      MrtWordsPrefix(info, formats, k, n - 1);
      assert MrtControlsWords(info, formats, n) == MrtControlsWords(info, formats, n - 1) + MrtWords(info, formats, n - 1);
    }
  }

  /** A logic op that reads the destination puts every attached render target in the blend-enable mask. */
  lemma RopReadsDstEnablesAll(info: ColorBlendInfo, formats: seq<Option<ColorFormat>>)
    requires FormatsOk(info, formats)
    requires info.logicOpEnable && LogicOpReadsDst(info.logicOp)
    ensures forall i: nat :: i < |info.attachments| ==> (i in BlendEnableMask(info, formats) <==> formats[i].Some?)
  {
  }

  /** Without colour attachments (the dummy blend state) the block is just the blend control, with nothing enabled. */
  lemma DummyBlendState(formats: seq<Option<ColorFormat>>, dualSrc: bool, msaa: MsaaInfo)
    requires |formats| == MaxRts
    ensures BlendStateWords(DummyBlend, formats, dualSrc, msaa) == BlendControlWords({}, dualSrc, msaa)
  {
    assert BlendEnableMask(DummyBlend, formats) == {};
  }
}
