/**
 * The graphics pipeline builder: the dynamic-state mask, the static draw states and their sizes
 * (tu_pipeline_static_state and the parse_* steps of tu_pipeline_builder_build), the builder
 * settings derived from the render pass (tu_pipeline_builder_init_graphics), the size reserved for
 * the pipeline's command stream (tu_pipeline_allocate_cs), and the result and handles of a batch
 * of pipeline creations (tu_CreateGraphicsPipelines).
 */
module Builder {
  import opened Hw
  import opened CmdStream
  import opened VertexInput
  import opened FixedFunction
  import opened Blend

  // ---------------------------------------------------------------------------
  // Dynamic state
  // ---------------------------------------------------------------------------

  /** VkDynamicState values: VIEWPORT .. STENCIL_REFERENCE are 0 .. 8. */
  const DynViewport: nat := 0
  const DynScissor: nat := 1
  const DynLineWidth: nat := 2
  const DynDepthBias: nat := 3
  const DynBlendConstants: nat := 4
  const DynDepthBounds: nat := 5
  const DynStencilCompareMask: nat := 6
  const DynStencilWriteMask: nat := 7
  const DynStencilReference: nat := 8
  const DynSampleLocationsExt: nat := 1000143000

  /** TU_DYNAMIC_STATE_SAMPLE_LOCATIONS: the driver's id right after the core states. */
  const TuDynSampleLocations: nat := 9
  /** The size of the pipeline's dynamic_state array. */
  const DynamicStateCount: nat := 10

  /** The states the driver supports as dynamic. */
  predicate SupportedDynamic(s: nat)
  {
    s <= DynStencilReference || s == DynSampleLocationsExt
  }

  /** The bit parse_dynamic sets for a supported state: the state itself, or the driver's sample-locations id. */
  function DynamicId(s: nat): (id: nat)
    requires SupportedDynamic(s)
    ensures id < DynamicStateCount
  {
    if s == DynSampleLocationsExt then TuDynSampleLocations else s
  }

  /** The bits for a list of dynamic states; an unsupported state (an assertion failure in debug builds) adds none. */
  function DynamicMaskOf(states: seq<nat>): Mask
  {
    if |states| == 0 then {}
    else
      var last := states[|states| - 1];
      DynamicMaskOf(states[..|states| - 1]) + (if SupportedDynamic(last) then {DynamicId(last)} else {})
  }

  /**
   * A dynamic-state id is in the mask exactly when some listed state maps to it: core state `s`
   * sets bit `s`, and only VK_DYNAMIC_STATE_SAMPLE_LOCATIONS_EXT sets the driver's sample-locations bit.
   */
  lemma {:induction false} DynamicMaskIff(states: seq<nat>)
    ensures forall id :: id in DynamicMaskOf(states) <==>
              exists j :: 0 <= j < |states| && SupportedDynamic(states[j]) && DynamicId(states[j]) == id
    ensures forall id :: id in DynamicMaskOf(states) ==> id < DynamicStateCount
  {
    if |states| > 0 {
      var init := states[..|states| - 1];
      DynamicMaskIff(init);
      forall id | id in DynamicMaskOf(states)
        ensures exists j :: 0 <= j < |states| && SupportedDynamic(states[j]) && DynamicId(states[j]) == id
      {
        if id in DynamicMaskOf(init) {
          var j :| 0 <= j < |init| && SupportedDynamic(init[j]) && DynamicId(init[j]) == id;
          assert states[j] == init[j];
        }
      }
      forall id | exists j :: 0 <= j < |states| && SupportedDynamic(states[j]) && DynamicId(states[j]) == id
        ensures id in DynamicMaskOf(states)
      {
        var j :| 0 <= j < |states| && SupportedDynamic(states[j]) && DynamicId(states[j]) == id;
        if j < |init| {
          assert init[j] == states[j];
        }
      }
    }
  }

  /** A sample-locations bit comes only from VK_DYNAMIC_STATE_SAMPLE_LOCATIONS_EXT, a core bit only from its own state. */
  lemma DynamicIdsDistinct(s: nat)
    requires SupportedDynamic(s)
    ensures DynamicId(s) == TuDynSampleLocations <==> s == DynSampleLocationsExt
    ensures s <= DynStencilReference ==> DynamicId(s) == s
  {
  }

  /** The draw states after tu_pipeline_static_state for `id`: recorded unless the state is dynamic. */
  function WithStatic(states: map<nat, seq<Word>>, mask: Mask, id: nat, ws: seq<Word>): (r: map<nat, seq<Word>>)
    ensures id in mask ==> r == states
    ensures id !in mask ==> id in r && r[id] == ws
    ensures forall k :: k != id ==> (k in r <==> k in states) && (k in r ==> r[k] == states[k])
    ensures r.Keys == if id in mask then states.Keys else states.Keys + {id}
  {
    if id in mask then states else states[id := ws]
  }

  // ---------------------------------------------------------------------------
  // Draw-state contents
  // ---------------------------------------------------------------------------

  /** The rasterization state parse_rasterization reads; the depth-clip extension struct is optional. */
  datatype RasterizationInfo = RasterizationInfo(su: RastInfo, polygonMode: nat, depthClipEnable: Option<bool>)

  /** Depth clipping is off when the extension says so, or, without it, when depth clamping is on. */
  function DepthClipDisable(rast: RasterizationInfo): bool
  {
    if rast.depthClipEnable.Some? then !rast.depthClipEnable.value else rast.su.depthClampEnable
  }

  /**
   * The rasterization draw state: GRAS_CL_CNTL, both polygon modes, and the point size limits.
   * DepthClipControl states its clip bits; BuiltStatesCover, where it is recorded.
   */
  function RastStateWords(rast: RasterizationInfo): (ws: seq<Word>)
    ensures |ws| == 9
  {
    var clip := DepthClipDisable(rast);
    [ Pkt4(GrasClCntl, 1), Field(ClCntl(clip, clip, rast.su.depthClampEnable, true, true)),
      Pkt4(VpcPolygonMode, 1), Field(PolygonMode(rast.polygonMode)),
      Pkt4(PcPolygonMode, 1), Field(PolygonMode(rast.polygonMode)),
      Pkt4(GrasSuPointMinMax, 2), Field(FloatWord("point_minmax")), Field(FloatWord("point_size")) ]
  }

  /**
   * pipeline->gras_su_cntl after parse_rasterization: tu6_gras_su_cntl, with half the line width
   * OR-ed into LINEHALFWIDTH exactly when the line width is static.
   */
  function GrasSuCntlFor(mask: Mask, rast: RasterizationInfo, samples: nat): (v: RegValue)
    ensures v.SuCntl? && (v.lineHalfWidth <==> DynLineWidth !in mask)
    ensures v.(lineHalfWidth := false) == SuCntlOf(rast.su, samples)
  {
    var v := SuCntlOf(rast.su, samples);
    v.(lineHalfWidth := DynLineWidth !in mask)
  }

  /** The static line-width state: GRAS_SU_CNTL with the line half-width folded in. */
  function LineWidthWords(rast: RasterizationInfo, samples: nat): (ws: seq<Word>)
    ensures |ws| == 2
  {
    var v := SuCntlOf(rast.su, samples);
    [Pkt4(GrasSuCntl, 1), Field(v.(lineHalfWidth := true))]
  }

  /**
   * With a static line width, the recorded line-width state writes the pipeline's GRAS_SU_CNTL,
   * half-width included; with a dynamic one the pipeline's copy has no half-width.
   */
  lemma LineWidthStateMatches(mask: Mask, rast: RasterizationInfo, samples: nat)
    ensures DynLineWidth !in mask ==>
      LineWidthWords(rast, samples) == [Pkt4(GrasSuCntl, 1), Field(GrasSuCntlFor(mask, rast, samples))]
    ensures DynLineWidth in mask ==> GrasSuCntlFor(mask, rast, samples) == SuCntlOf(rast.su, samples)
  {
  }

  /** tu6_emit_depth_bias: slope factor, constant factor and clamp. */
  const DepthBiasWords: seq<Word> :=
    [ Pkt4(GrasSuPolyOffsetScale, 3),
      Field(FloatWord("depth_bias_slope")), Field(FloatWord("depth_bias_constant")), Field(FloatWord("depth_bias_clamp")) ]

  /** The depth format of the subpass: VK_FORMAT_UNDEFINED (no attachment), VK_FORMAT_S8_UINT, or another. */
  datatype DepthFormat = DepthUndefined | DepthS8Uint | DepthOther

  /** Without a depth/stencil attachment both tests use the dummy state. */
  function StencilInfoFor(format: DepthFormat, ds: DepthStencilInfo): DepthStencilInfo
  {
    if format == DepthUndefined then DummyDs else ds
  }

  /** A stencil-only S8_UINT attachment also disables the depth test. */
  function DepthInfoFor(format: DepthFormat, ds: DepthStencilInfo): DepthStencilInfo
  {
    if format == DepthS8Uint then DummyDs else StencilInfoFor(format, ds)
  }

  /**
   * The depth/stencil draw state: RB_ALPHA_CONTROL cleared, then the depth and the stencil control.
   * DepthCntlFlags and DummyDepthStencil state what the controls hold.
   */
  function DsStateWords(format: DepthFormat, ds: DepthStencilInfo, depthClamp: bool): (ws: seq<Word>)
    ensures |ws| == 6
  {
    [ Pkt4(RbAlphaControl, 1), Raw(0),
      Pkt4(RbDepthCntl, 1), Field(DepthCntlOf(DepthInfoFor(format, ds), depthClamp)),
      Pkt4(RbStencilControl, 1), Field(StencilControlOf(StencilInfoFor(format, ds))) ]
  }

  const DepthBoundsWords: seq<Word> :=
    [Pkt4(RbZBoundsMin, 2), Field(FloatWord("min_depth_bounds")), Field(FloatWord("max_depth_bounds"))]

  /** One of the 8-bit front/back stencil registers. */
  function StencilPairWords(reg: Reg, front: nat, back: nat): (ws: seq<Word>)
    ensures |ws| == 2 && ws[1].Field? && ws[1].f.StencilPair? && ws[1].f.front < 256 && ws[1].f.back < 256
  {
    [Pkt4(reg, 1), Field(StencilPair(Low8(front), Low8(back)))]
  }

  const BlendConstantWords: seq<Word> :=
    [ Pkt4(RbBlendRedF32, 4),
      Field(FloatWord("blend_constant_r")), Field(FloatWord("blend_constant_g")),
      Field(FloatWord("blend_constant_b")), Field(FloatWord("blend_constant_a")) ]

  /**
   * tu6_emit_sample_locations: all three sample-config registers cleared, or, with custom
   * locations, LOCATION_ENABLE and the packed locations in each.
   */
  function SampleLocationWords(enabled: bool): (ws: seq<Word>)
    ensures |ws| == if enabled then 9 else 6
  {
    if !enabled then
      [Pkt4(GrasSampleConfig, 1), Raw(0), Pkt4(RbSampleConfig, 1), Raw(0), Pkt4(SpTpSampleConfig, 1), Raw(0)]
    else
      [ Pkt4(GrasSampleConfig, 2), Field(SampleConfig(true)), Field(FloatWord("sample_locations")),
        Pkt4(RbSampleConfig, 2), Field(SampleConfig(true)), Field(FloatWord("sample_locations")),
        Pkt4(SpTpSampleConfig, 2), Field(SampleConfig(true)), Field(FloatWord("sample_locations")) ]
  }

  method EmitSampleLocations(cs: Cs, enabled: bool)
    requires cs.Valid() && cs.Room() >= |SampleLocationWords(enabled)|
    modifies cs
    ensures cs.Valid() && cs.words == old(cs.words) + SampleLocationWords(enabled)
  {
    if !enabled {
      cs.EmitAll([Pkt4(GrasSampleConfig, 1), Raw(0)]);
      cs.EmitAll([Pkt4(RbSampleConfig, 1), Raw(0)]);
      cs.EmitAll([Pkt4(SpTpSampleConfig, 1), Raw(0)]);
      return;
    }
    var config := Field(SampleConfig(true));
    var locations := Field(FloatWord("sample_locations"));
    cs.EmitAll([Pkt4(GrasSampleConfig, 2), config, locations]);
    cs.EmitAll([Pkt4(RbSampleConfig, 2), config, locations]);
    cs.EmitAll([Pkt4(SpTpSampleConfig, 2), config, locations]);
  }

  /** The colour blend state used: the application's when there are colour attachments, else the dummy. */
  function BlendInfoFor(useColorAttachments: bool, blend: ColorBlendInfo): ColorBlendInfo
  {
    if useColorAttachments then blend else DummyBlend
  }

  /** DI_PT_PATCHES0: a patch list's primitive type is this plus its control-point count. */
  const DiPtPatches0: nat := 31
  /** VK_TESSELLATION_DOMAIN_ORIGIN_UPPER_LEFT */
  const DomainOriginUpperLeft: nat := 0

  /** The tessellation state: control points and the domain origin of the optional extension struct. */

  datatype TessInfo = TessInfo(patchControlPoints: nat, domainOrigin: Option<nat>)

  /**
   * What the fixed-function parse steps read of a VkGraphicsPipelineCreateInfo, with the
   * compiled shaders' inputs (VS and binning VS) and HS/DS parameters they also use.
   */
  datatype CreateInfo = CreateInfo(
    dynamicStates: Option<seq<nat>>,
    vsInputs: seq<VsInput>, bsInputs: Option<seq<VsInput>>, vertexInput: VertexInputInfo,
    primtype: nat, primitiveRestart: bool,
    tess: Option<TessInfo>, hsOutputSize: nat, hsPrimitiveParam: nat, dsPrimitiveParam: nat,
    viewport: ViewportBox, scissor: Rect,
    rast: RasterizationInfo,
    ds: DepthStencilInfo,
    blend: Option<ColorBlendInfo>, msaa: MsaaInfo, sampleLocations: bool)

  /** The colour blend state, or the zero state when the create info has none. */
  function BlendOf(ci: CreateInfo): ColorBlendInfo
  {
    if ci.blend.Some? then ci.blend.value else DummyBlend
  }

  /**
   * The Vulkan valid-usage rules and source assertions the parse steps rely on: a viewport and a
   * scissor the registers can take, a patch list of at most 32 control points for tessellation,
   * bounded vertex input, and a colour blend state of at most MAX_RTS attachments.
   */
  predicate CreateInfoOk(b: BuilderConfig, ci: CreateInfo)
  {
    && |b.colorFormats| == MaxRts
    && (!b.rasterizerDiscard ==> BoxOk(ci.viewport) && RectOk(ci.scissor))
    && (ci.tess.Some? ==> ci.primtype == DiPtPatches0 && ci.tess.value.patchControlPoints <= 32)
    && InfoOk(ci.vertexInput) && |ci.vertexInput.bindings| <= MaxBindings && |ci.vertexInput.attributes| <= MaxAttribs
    && |BlendOf(ci).attachments| <= MaxRts
  }
  // ---------------------------------------------------------------------------
  // The pipeline object
  // ---------------------------------------------------------------------------

  /** pipeline->vi: the vertex-input draw states and the bindings they use. */
  datatype ViState = ViState(state: seq<Word>, binningState: Option<seq<Word>>, bindingsUsed: Mask)

  /** pipeline->ia */
  datatype InputAssembly = InputAssembly(primtype: nat, primitiveRestart: bool)

  /** pipeline->tess */
  datatype TessState = TessState(upperLeftDomainOrigin: bool, paramStride: nat, hsBoRegid: nat, dsBoRegid: nat)

  /** The pipeline's fields set by the parse steps, as one value. */
  datatype PipelineState = PipelineState(
    dynamicMask: Mask, dynamicState: map<nat, seq<Word>>,
    vi: ViState, ia: InputAssembly, tess: TessState,
    rastState: seq<Word>, grasSuCntl: RegValue, dsState: seq<Word>, blendState: seq<Word>)

  /** A zero-allocated pipeline (vk_object_zalloc). */
  const Zeroed: PipelineState :=
    PipelineState({}, map[], ViState([], None, {}), InputAssembly(0, false), TessState(false, 0, 0, 0),
                  [], SuCntl(false, false, false, false, false, false), [], [])

  /** Records a filled draw state under `id`: it must hold exactly the words reserved for it. */
  function Record(states: map<nat, seq<Word>>, id: nat, cs: Cs): map<nat, seq<Word>>
    reads cs
    requires cs.Valid() && |cs.words| == cs.cap
  {
    states[id := cs.words]
  }

  class Pipeline {
    var dynamicMask: Mask
    /** dynamic_state[]: the draw state of each non-dynamic state, by id */
    var dynamicState: map<nat, seq<Word>>
    var vi: ViState
    var ia: InputAssembly
    var tess: TessState
    var rastState: seq<Word>
    var grasSuCntl: RegValue
    var dsState: seq<Word>
    var blendState: seq<Word>

    function State(): PipelineState
      reads this
    {
      PipelineState(dynamicMask, dynamicState, vi, ia, tess, rastState, grasSuCntl, dsState, blendState)
    }

    constructor ()
      ensures State() == Zeroed
    {
      dynamicMask, dynamicState := {}, map[];
      vi, ia, tess := ViState([], None, {}), InputAssembly(0, false), TessState(false, 0, 0, 0);
      rastState, grasSuCntl := [], SuCntl(false, false, false, false, false, false);
      dsState, blendState := [], [];
    }

    /** tu_pipeline_builder_parse_dynamic: one bit per listed state; no list changes nothing. */
    method ParseDynamic(states: Option<seq<nat>>)
      modifies this
      ensures State() == old(State()).(dynamicMask := old(dynamicMask) + if states.None? then {} else DynamicMaskOf(states.value))
    {
      if states.None? {
        return;
      }
      var list := states.value;
      var mask := dynamicMask;
      for i := 0 to |list|
        invariant mask == dynamicMask + DynamicMaskOf(list[..i])
      {
        assert list[..i + 1][..i] == list[..i];
        var state := list[i];
        if state <= DynStencilReference {
          mask := mask + {state};
        } else if state == DynSampleLocationsExt {
          mask := mask + {TuDynSampleLocations};
        }
      }
      assert list[..|list|] == list;
      dynamicMask := mask;
    }

    /**
     * tu_pipeline_static_state: nothing when the state is dynamic, otherwise a fresh draw state of
     * `size` words to fill.
     */
    method StaticState(id: nat, size: nat) returns (cs: Cs?)
      requires id < DynamicStateCount
      ensures (cs == null) <==> id in dynamicMask
      ensures cs != null ==> fresh(cs) && cs.Valid() && cs.words == [] && cs.cap == size
    {
      if id in dynamicMask {
        return null;
      }
      cs := new Cs(size);
    }

    /**
     * tu_pipeline_builder_parse_vertex_input: the VS's vertex-input state and, when there is a
     * binning VS, the binning pass's; each fits the sub-stream of MAX_VERTEX_ATTRIBS * 7 + 2 words.
     */
    method ParseVertexInput(vsInputs: seq<VsInput>, bsInputs: Option<seq<VsInput>>, info: VertexInputInfo)
      requires InfoOk(info) && |info.bindings| <= MaxBindings && |info.attributes| <= MaxAttribs
      modifies this
      ensures State() == old(State()).(vi := ViState(
                VertexInputWords(vsInputs, info),
                if bsInputs.None? then old(vi.binningState) else Some(VertexInputWords(bsInputs.value, info)),
                old(vi.bindingsUsed) + Used(info.bindings, |info.bindings|)))
      ensures |vi.state| <= MaxAttribs * 7 + 2
    {
      var state, binningState, used := VertexInputStates(vsInputs, bsInputs, info);
      vi := ViState(state, if bsInputs.None? then vi.binningState else binningState, used);
    }

    /** The two vertex-input sub-streams, each emitted into MAX_VERTEX_ATTRIBS * 7 + 2 reserved words. */
    method VertexInputStates(vsInputs: seq<VsInput>, bsInputs: Option<seq<VsInput>>, info: VertexInputInfo)
      returns (state: seq<Word>, binningState: Option<seq<Word>>, used: Mask)
      requires InfoOk(info) && |info.bindings| <= MaxBindings && |info.attributes| <= MaxAttribs
      ensures state == VertexInputWords(vsInputs, info) && |state| <= MaxAttribs * 7 + 2
      ensures bsInputs.Some? ==> binningState == Some(VertexInputWords(bsInputs.value, info))
      ensures used == vi.bindingsUsed + Used(info.bindings, |info.bindings|)
    {
      VertexInputFits(vsInputs, info);
      var cs := new Cs(MaxAttribs * 7 + 2);
      used := EmitVertexInput(cs, vsInputs, info, vi.bindingsUsed);
      state := cs.words;
      binningState := None;
      if bsInputs.Some? {
        VertexInputFits(bsInputs.value, info);
        var bcs := new Cs(MaxAttribs * 7 + 2);
        used := EmitVertexInput(bcs, bsInputs.value, info, used);
        assert bcs.words == VertexInputWords(bsInputs.value, info);
        binningState := Some(bcs.words);
      }
    }

    /** tu_pipeline_builder_parse_input_assembly; `primtype` is what the foreign table tu6_primtype gives. */
    method ParseInputAssembly(primtype: nat, primitiveRestart: bool)
      modifies this
      ensures State() == old(State()).(ia := InputAssembly(primtype, primitiveRestart))
    {
      ia := InputAssembly(primtype, primitiveRestart);
    }

    /**
     * tu_pipeline_builder_parse_tessellation: a patch list's primitive type gains the control-point
     * count, the domain origin is upper-left unless the extension struct says otherwise, and the
     * parameter stride is four times the HS output size.
     */
    method ParseTessellation(info: Option<TessInfo>, hsOutputSize: nat, hsPrimitiveParam: nat, dsPrimitiveParam: nat)
      requires info.Some? ==> ia.primtype == DiPtPatches0 && info.value.patchControlPoints <= 32
      modifies this
      ensures info.None? ==> State() == old(State())
      ensures info.Some? ==>
        State() == old(State()).(
          ia := old(ia).(primtype := DiPtPatches0 + info.value.patchControlPoints),
          tess := TessState(info.value.domainOrigin.None? || info.value.domainOrigin.value == DomainOriginUpperLeft,
                            hsOutputSize * 4, hsPrimitiveParam + 1, dsPrimitiveParam + 1))
      ensures info.Some? ==> DiPtPatches0 <= ia.primtype <= DiPtPatches0 + 32
    {
      if info.None? {
        return;
      }
      var t := info.value;
      ia := ia.(primtype := ia.primtype + t.patchControlPoints);
      var upperLeft := t.domainOrigin.None? || t.domainOrigin.value == DomainOriginUpperLeft;
      tess := TessState(upperLeft, hsOutputSize * 4, hsPrimitiveParam + 1, dsPrimitiveParam + 1);
    }

    /** tu_pipeline_builder_parse_viewport: the viewport (18 words) and scissor (3) unless dynamic or discarding. */
    method ParseViewport(rasterizerDiscard: bool, viewport: ViewportBox, scissor: Rect)
      requires !rasterizerDiscard ==> BoxOk(viewport) && RectOk(scissor)
      modifies this
      ensures rasterizerDiscard ==> State() == old(State())
      ensures !rasterizerDiscard ==> State() == old(State()).(dynamicState :=
                WithStatic(WithStatic(old(dynamicState), dynamicMask, DynViewport, ViewportWords(viewport)),
                           dynamicMask, DynScissor, ScissorWords(scissor)))
    {
      if rasterizerDiscard {
        return;
      }
      var states := ViewportStates(viewport, scissor);
      dynamicState := states;
    }

    method ViewportStates(viewport: ViewportBox, scissor: Rect) returns (states: map<nat, seq<Word>>)
      requires BoxOk(viewport) && RectOk(scissor)
      ensures states == WithStatic(WithStatic(dynamicState, dynamicMask, DynViewport, ViewportWords(viewport)),
                                   dynamicMask, DynScissor, ScissorWords(scissor))
    {
      states := dynamicState;
      var cs := StaticState(DynViewport, 18);
      if cs != null {
        EmitViewport(cs, viewport);
        assert cs.words == ViewportWords(viewport);
        states := Record(states, DynViewport, cs);
      }
      cs := StaticState(DynScissor, 3);
      if cs != null {
        EmitScissor(cs, scissor);
        assert cs.words == ScissorWords(scissor);
        states := Record(states, DynScissor, cs);
      }
    }

    /**
     * tu_pipeline_builder_parse_rasterization: the 9-word rasterization state, GRAS_SU_CNTL kept in
     * the pipeline, and the static line-width (2 words) and depth-bias (4 words) states.
     */
    method ParseRasterization(rast: RasterizationInfo, samples: nat)
      modifies this
      ensures State() == old(State()).(
                rastState := RastStateWords(rast),
                grasSuCntl := GrasSuCntlFor(dynamicMask, rast, samples),
                dynamicState := WithStatic(WithStatic(old(dynamicState), dynamicMask, DynLineWidth, LineWidthWords(rast, samples)),
                                           dynamicMask, DynDepthBias, DepthBiasWords))
    {
      var ws := RastState(rast);
      var suCntl := SuCntlOf(rast.su, samples);
      var states;
      states, suCntl := RastStates(suCntl, rast, samples);
      rastState, grasSuCntl, dynamicState := ws, suCntl, states;
    }

    /** The rasterization draw state, emitted into exactly the 9 words reserved for it. */
    static method RastState(rast: RasterizationInfo) returns (ws: seq<Word>)
      ensures ws == RastStateWords(rast)
    {
      var clip := rast.su.depthClampEnable;
      if rast.depthClipEnable.Some? {
        clip := !rast.depthClipEnable.value;
      }
      var cs := new Cs(9);
      cs.EmitAll([Pkt4(GrasClCntl, 1), Field(ClCntl(clip, clip, rast.su.depthClampEnable, true, true))]);
      cs.EmitAll([Pkt4(VpcPolygonMode, 1), Field(PolygonMode(rast.polygonMode))]);
      cs.EmitAll([Pkt4(PcPolygonMode, 1), Field(PolygonMode(rast.polygonMode))]);
      cs.EmitAll([Pkt4(GrasSuPointMinMax, 2), Field(FloatWord("point_minmax")), Field(FloatWord("point_size"))]);
      ws := cs.words;
    }

    /**
     * The line-width and depth-bias states; a static line width also puts its half-width into
     * GRAS_SU_CNTL, which is returned.
     */
    method RastStates(suCntl: RegValue, rast: RasterizationInfo, samples: nat)
      returns (states: map<nat, seq<Word>>, suCntl': RegValue)
      requires suCntl == SuCntlOf(rast.su, samples)
      ensures states == WithStatic(WithStatic(dynamicState, dynamicMask, DynLineWidth, LineWidthWords(rast, samples)),
                                   dynamicMask, DynDepthBias, DepthBiasWords)
      ensures suCntl' == GrasSuCntlFor(dynamicMask, rast, samples)
    {
      states := dynamicState;
      suCntl' := suCntl;
      var st := StaticState(DynLineWidth, 2);
      if st != null {
        suCntl' := suCntl.(lineHalfWidth := true);
        st.EmitAll([Pkt4(GrasSuCntl, 1), Field(suCntl')]);
        assert st.words == LineWidthWords(rast, samples);
        states := Record(states, DynLineWidth, st);
      }
      st := StaticState(DynDepthBias, 4);
      if st != null {
        st.EmitAll(DepthBiasWords);
        assert st.words == DepthBiasWords;
        states := Record(states, DynDepthBias, st);
      }
    }

    /**
     * tu_pipeline_builder_parse_depth_stencil: the 6-word depth/stencil state, then the static depth
     * bounds (3 words) and the three 8-bit stencil registers (2 words each).
     */
    method ParseDepthStencil(format: DepthFormat, ds: DepthStencilInfo, depthClamp: bool)
      modifies this
      ensures State() == old(State()).(
                dsState := DsStateWords(format, ds, depthClamp),
                dynamicState := StencilStates(WithStatic(old(dynamicState), dynamicMask, DynDepthBounds, DepthBoundsWords),
                                              dynamicMask, StencilInfoFor(format, ds)))
    {
      var info := if format != DepthUndefined then ds else DummyDs;
      var infoDepth := if format != DepthS8Uint then info else DummyDs;
      var ws := DsState(info, infoDepth, depthClamp);
      var states := DepthStencilStates(info);
      dsState, dynamicState := ws, states;
    }

    /** The depth/stencil draw state, emitted into exactly the 6 words reserved for it. */
    static method DsState(info: DepthStencilInfo, infoDepth: DepthStencilInfo, depthClamp: bool) returns (ws: seq<Word>)
      ensures ws == [ Pkt4(RbAlphaControl, 1), Raw(0),
                      Pkt4(RbDepthCntl, 1), Field(DepthCntlOf(infoDepth, depthClamp)),
                      Pkt4(RbStencilControl, 1), Field(StencilControlOf(info)) ]
    {
      var cs := new Cs(6);
      cs.EmitAll([Pkt4(RbAlphaControl, 1), Raw(0)]);
      EmitDepthControl(cs, infoDepth, depthClamp);
      EmitStencilControl(cs, info);
      ws := cs.words;
    }

    method DepthStencilStates(info: DepthStencilInfo) returns (states: map<nat, seq<Word>>)
      ensures states == StencilStates(WithStatic(dynamicState, dynamicMask, DynDepthBounds, DepthBoundsWords), dynamicMask, info)
    {
      states := dynamicState;
      var st := StaticState(DynDepthBounds, 3);
      if st != null {
        st.EmitAll(DepthBoundsWords);
        assert st.words == DepthBoundsWords;
        states := Record(states, DynDepthBounds, st);
      }
      states := StencilState(states, DynStencilCompareMask, RbStencilMask, info.front.compareMask, info.back.compareMask);
      states := StencilState(states, DynStencilWriteMask, RbStencilWrMask, info.front.writeMask, info.back.writeMask);
      states := StencilState(states, DynStencilReference, RbStencilRef, info.front.reference, info.back.reference);
    }

    /** One of the static stencil states: the front and back values masked to 8 bits. */
    method StencilState(states: map<nat, seq<Word>>, id: nat, reg: Reg, front: nat, back: nat)
      returns (r: map<nat, seq<Word>>)
      requires id < DynamicStateCount
      ensures r == WithStatic(states, dynamicMask, id, StencilPairWords(reg, front, back))
    {
      r := states;
      var st := StaticState(id, 2);
      if st != null {
        st.EmitAll([Pkt4(reg, 1), Field(StencilPair(Low8(front), Low8(back)))]);
        assert st.words == StencilPairWords(reg, front, back);
        r := Record(r, id, st);
      }
    }

    /**
     * tu_pipeline_builder_parse_multisample_and_color_blend: the blend state of exactly
     * attachmentCount * 3 + 4 words, then the static blend constants (5 words) and sample
     * locations (9 words with custom locations, else 6); nothing when rasterization is discarded.
     */
    method ParseMultisampleAndColorBlend(rasterizerDiscard: bool, useColorAttachments: bool, blend: ColorBlendInfo,
                                         formats: seq<Option<ColorFormat>>, dualSrc: bool, msaa: MsaaInfo,
                                         sampleLocations: bool)
      requires |formats| == MaxRts
      requires !rasterizerDiscard && useColorAttachments ==> |blend.attachments| <= MaxRts
      modifies this
      ensures rasterizerDiscard ==> State() == old(State())
      ensures !rasterizerDiscard ==>
        && FormatsOk(BlendInfoFor(useColorAttachments, blend), formats)
        && State() == old(State()).(
             blendState := BlendStateWords(BlendInfoFor(useColorAttachments, blend), formats, dualSrc, msaa),
             dynamicState :=
               WithStatic(WithStatic(old(dynamicState), dynamicMask, DynBlendConstants, BlendConstantWords),
                          dynamicMask, TuDynSampleLocations, SampleLocationWords(sampleLocations)))
    {
      if rasterizerDiscard {
        return;
      }
      var info := if useColorAttachments then blend else DummyBlend;
      var ws := BlendState(info, formats, dualSrc, msaa);
      var states := MultisampleStates(sampleLocations);
      blendState, dynamicState := ws, states;
    }

    /** The blend draw state; it fills exactly the attachmentCount * 3 + 4 words reserved for it. */
    static method BlendState(info: ColorBlendInfo, formats: seq<Option<ColorFormat>>, dualSrc: bool, msaa: MsaaInfo)
      returns (ws: seq<Word>)
      requires FormatsOk(info, formats)
      ensures ws == BlendStateWords(info, formats, dualSrc, msaa)
    {
      var cs := new Cs(|info.attachments| * 3 + 4);
      var mask := EmitRbMrtControls(cs, info, formats);
      EmitBlendControl(cs, mask, dualSrc, msaa);
      assert |cs.words| == cs.cap;
      ws := cs.words;
    }

    method MultisampleStates(sampleLocations: bool) returns (states: map<nat, seq<Word>>)
      ensures states == WithStatic(WithStatic(dynamicState, dynamicMask, DynBlendConstants, BlendConstantWords),
                                   dynamicMask, TuDynSampleLocations, SampleLocationWords(sampleLocations))
    {
      states := dynamicState;
      var st := StaticState(DynBlendConstants, 5);
      if st != null {
        st.EmitAll(BlendConstantWords);
        assert st.words == BlendConstantWords;
        states := Record(states, DynBlendConstants, st);
      }
      st := StaticState(TuDynSampleLocations, if sampleLocations then 9 else 6);
      if st != null {
        EmitSampleLocations(st, sampleLocations);
        assert st.words == SampleLocationWords(sampleLocations);
        states := Record(states, TuDynSampleLocations, st);
      }
      assert states == WithStatic(WithStatic(dynamicState, dynamicMask, DynBlendConstants, BlendConstantWords),
                                   dynamicMask, TuDynSampleLocations, SampleLocationWords(sampleLocations));
    }

    /**
     * The fixed-function steps of tu_pipeline_builder_build, in its order, on a zeroed pipeline:
     * the dynamic-state list, then the vertex input, input assembly and tessellation state,
     * then the draw states (BuildDrawStates).
     */
    method BuildFixedFunction(b: BuilderConfig, ci: CreateInfo)
      requires State() == Zeroed
      requires CreateInfoOk(b, ci)
      modifies this
      ensures State() == FixedFunctionState(b, ci)
    {
      ParseFrontEnd(ci);
      BuildDrawStates(b, ci);
    }

    /** The steps before the draw states: the dynamic-state list, vertex input, input assembly, tessellation. */
    method ParseFrontEnd(ci: CreateInfo)
      requires State() == Zeroed
      requires ci.tess.Some? ==> ci.primtype == DiPtPatches0 && ci.tess.value.patchControlPoints <= 32
      requires InfoOk(ci.vertexInput) && |ci.vertexInput.bindings| <= MaxBindings && |ci.vertexInput.attributes| <= MaxAttribs
      modifies this
      ensures State() == FrontEndState(ci)
    {
      ParseDynamic(ci.dynamicStates);
      ParseVertexInput(ci.vsInputs, ci.bsInputs, ci.vertexInput);
      ParseInputAssembly(ci.primtype, ci.primitiveRestart);
      ParseTessellation(ci.tess, ci.hsOutputSize, ci.hsPrimitiveParam, ci.dsPrimitiveParam);
    }

    /**
     * The draw-state steps of tu_pipeline_builder_build, in its order: viewport and scissor,
     * rasterization, depth/stencil, then multisample and color blend.
     */
    method BuildDrawStates(b: BuilderConfig, ci: CreateInfo)
      requires dynamicState == map[]
      requires CreateInfoOk(b, ci)
      modifies this
      ensures State() == WithDrawStates(old(State()), b, ci)
    {
      ParseViewport(b.rasterizerDiscard, ci.viewport, ci.scissor);
      ParseRasterization(ci.rast, b.samples);
      ParseDepthStencil(b.depthFormat, ci.ds, ci.rast.su.depthClampEnable);
      ParseMultisampleAndColorBlend(b.rasterizerDiscard, b.useColorAttachments, BlendOf(ci), b.colorFormats,
                                    b.useDualSrcBlend, ci.msaa, ci.sampleLocations);
    }
  }

  /** The pipeline state after the steps before the draw states, on a zeroed pipeline. */
  function FrontEndState(ci: CreateInfo): PipelineState
    requires InfoOk(ci.vertexInput) && |ci.vertexInput.bindings| <= MaxBindings && |ci.vertexInput.attributes| <= MaxAttribs
  {
    var t := ci.tess;
    Zeroed.(
      dynamicMask := if ci.dynamicStates.None? then {} else DynamicMaskOf(ci.dynamicStates.value),
      vi := ViState(VertexInputWords(ci.vsInputs, ci.vertexInput),
                    if ci.bsInputs.None? then None else Some(VertexInputWords(ci.bsInputs.value, ci.vertexInput)),
                    Used(ci.vertexInput.bindings, |ci.vertexInput.bindings|)),
      ia := InputAssembly(if t.None? then ci.primtype else DiPtPatches0 + t.value.patchControlPoints, ci.primitiveRestart),
      tess := if t.None? then Zeroed.tess
              else TessState(t.value.domainOrigin.None? || t.value.domainOrigin.value == DomainOriginUpperLeft,
                             ci.hsOutputSize * 4, ci.hsPrimitiveParam + 1, ci.dsPrimitiveParam + 1))
  }

  /** `s` with the draw states and the rasterization, depth/stencil and blend states the build records. */
  function WithDrawStates(s: PipelineState, b: BuilderConfig, ci: CreateInfo): PipelineState
    requires CreateInfoOk(b, ci)
  {
    s.(dynamicState := BuiltStates(s.dynamicMask, b, ci),
       rastState := RastStateWords(ci.rast),
       grasSuCntl := GrasSuCntlFor(s.dynamicMask, ci.rast, b.samples),
       dsState := DsStateWords(b.depthFormat, ci.ds, ci.rast.su.depthClampEnable),
       blendState := if b.rasterizerDiscard then s.blendState
                     else BlendStateWords(BlendInfoFor(b.useColorAttachments, BlendOf(ci)), b.colorFormats,
                                          b.useDualSrcBlend, ci.msaa))
  }

  /** The pipeline state the fixed-function steps leave on a zeroed pipeline. */
  function FixedFunctionState(b: BuilderConfig, ci: CreateInfo): PipelineState
    requires CreateInfoOk(b, ci)
  {
    WithDrawStates(FrontEndState(ci), b, ci)
  }

  /** The contents of the ten draw states the build can record, in dynamic-state order. */
  datatype DrawStateWords = DrawStateWords(
    viewport: seq<Word>, scissor: seq<Word>, lineWidth: seq<Word>, depthBias: seq<Word>,
    blendConstants: seq<Word>, depthBounds: seq<Word>, stencil: DepthStencilInfo, sampleLocations: seq<Word>)

  /** The viewport, scissor, line-width, depth-bias and depth-bounds states, from none. */
  function RasterStatics(mask: Mask, rasterizerDiscard: bool, w: DrawStateWords): map<nat, seq<Word>>
  {
    var viewport := if rasterizerDiscard then map[]
                    else WithStatic(WithStatic(map[], mask, DynViewport, w.viewport), mask, DynScissor, w.scissor);
    WithStatic(WithStatic(WithStatic(viewport, mask, DynLineWidth, w.lineWidth), mask, DynDepthBias, w.depthBias),
               mask, DynDepthBounds, w.depthBounds)
  }

  /** The static draw states, from none, in the order the build records them. */
  function Statics(mask: Mask, rasterizerDiscard: bool, w: DrawStateWords): map<nat, seq<Word>>
  {
    var ds := StencilStates(RasterStatics(mask, rasterizerDiscard, w), mask, w.stencil);
    if rasterizerDiscard then ds
    else WithStatic(WithStatic(ds, mask, DynBlendConstants, w.blendConstants),
                    mask, TuDynSampleLocations, w.sampleLocations)
  }

  /** The draw states BuildFixedFunction records, starting from none, for the dynamic-state mask `mask`. */
  function BuiltStates(mask: Mask, b: BuilderConfig, ci: CreateInfo): map<nat, seq<Word>>
    requires CreateInfoOk(b, ci)
  {
    Statics(mask, b.rasterizerDiscard, DrawStateWords(
      if b.rasterizerDiscard then [] else ViewportWords(ci.viewport),
      if b.rasterizerDiscard then [] else ScissorWords(ci.scissor),
      LineWidthWords(ci.rast, b.samples), DepthBiasWords, BlendConstantWords, DepthBoundsWords,
      StencilInfoFor(b.depthFormat, ci.ds), SampleLocationWords(ci.sampleLocations)))
  }

  /** The states the build records statically unless they are dynamic: all ten, less four when discarding. */
  predicate IsStatic(rasterizerDiscard: bool, k: nat)
  {
    k < DynamicStateCount &&
    (rasterizerDiscard ==> k != DynViewport && k != DynScissor && k != DynBlendConstants && k != TuDynSampleLocations)
  }

  /** Recording a draw state adds its id unless it is dynamic. */
  lemma WithStaticHas(states: map<nat, seq<Word>>, mask: Mask, id: nat, ws: seq<Word>, k: nat)
    ensures k in WithStatic(states, mask, id, ws) <==> k in states || (k == id && id !in mask)
  {
  }

  /** The stencil states add their three ids unless they are dynamic. */
  lemma StencilStatesHas(states: map<nat, seq<Word>>, mask: Mask, info: DepthStencilInfo, k: nat)
    ensures k in StencilStates(states, mask, info) <==>
              k in states || (k in {DynStencilCompareMask, DynStencilWriteMask, DynStencilReference} && k !in mask)
  {
    var s1 := WithStatic(states, mask, DynStencilCompareMask,
                         StencilPairWords(RbStencilMask, info.front.compareMask, info.back.compareMask));
    WithStaticHas(states, mask, DynStencilCompareMask,
                  StencilPairWords(RbStencilMask, info.front.compareMask, info.back.compareMask), k);
    var s2 := WithStatic(s1, mask, DynStencilWriteMask,
                         StencilPairWords(RbStencilWrMask, info.front.writeMask, info.back.writeMask));
    WithStaticHas(s1, mask, DynStencilWriteMask,
                  StencilPairWords(RbStencilWrMask, info.front.writeMask, info.back.writeMask), k);
    WithStaticHas(s2, mask, DynStencilReference,
                  StencilPairWords(RbStencilRef, info.front.reference, info.back.reference), k);
  }

  /** The viewport-to-depth-bounds part records its ids unless dynamic (viewport and scissor only without discard). */
  lemma RasterStaticsHas(mask: Mask, rasterizerDiscard: bool, w: DrawStateWords, k: nat)
    ensures k in RasterStatics(mask, rasterizerDiscard, w) <==>
              k !in mask && (k == DynLineWidth || k == DynDepthBias || k == DynDepthBounds ||
                             (!rasterizerDiscard && (k == DynViewport || k == DynScissor)))
  {
    var m0: map<nat, seq<Word>> := map[];
    var vp := WithStatic(m0, mask, DynViewport, w.viewport);
    WithStaticHas(m0, mask, DynViewport, w.viewport, k);
    WithStaticHas(vp, mask, DynScissor, w.scissor, k);
    var viewport := if rasterizerDiscard then m0 else WithStatic(vp, mask, DynScissor, w.scissor);
    var lw := WithStatic(viewport, mask, DynLineWidth, w.lineWidth);
    WithStaticHas(viewport, mask, DynLineWidth, w.lineWidth, k);
    var db := WithStatic(lw, mask, DynDepthBias, w.depthBias);
    WithStaticHas(lw, mask, DynDepthBias, w.depthBias, k);
    WithStaticHas(db, mask, DynDepthBounds, w.depthBounds, k);
  }

  /** The build records exactly the states it handles that are not dynamic. */
  lemma StaticsHas(mask: Mask, rasterizerDiscard: bool, w: DrawStateWords, k: nat)
    ensures k in Statics(mask, rasterizerDiscard, w) <==> IsStatic(rasterizerDiscard, k) && k !in mask
  {
    var bounds := RasterStatics(mask, rasterizerDiscard, w);
    RasterStaticsHas(mask, rasterizerDiscard, w, k);
    var ds := StencilStates(bounds, mask, w.stencil);
    StencilStatesHas(bounds, mask, w.stencil, k);
    var bc := WithStatic(ds, mask, DynBlendConstants, w.blendConstants);
    WithStaticHas(ds, mask, DynBlendConstants, w.blendConstants, k);
    WithStaticHas(bc, mask, TuDynSampleLocations, w.sampleLocations, k);
  }

  /**
   * After the build each of the states 0 .. 9 is either dynamic or has its draw state recorded,
   * never both, except that with rasterization discarded the viewport, scissor, blend-constant
   * and sample-location states are neither; nothing outside 0 .. 9 is recorded.
   */
  lemma BuiltStatesCover(mask: Mask, b: BuilderConfig, ci: CreateInfo)
    requires CreateInfoOk(b, ci)
    ensures forall k :: k in BuiltStates(mask, b, ci) <==> IsStatic(b.rasterizerDiscard, k) && k !in mask
  {
    forall k: nat {
      StaticsHas(mask, b.rasterizerDiscard, DrawStateWords(
        if b.rasterizerDiscard then [] else ViewportWords(ci.viewport),
        if b.rasterizerDiscard then [] else ScissorWords(ci.scissor),
        LineWidthWords(ci.rast, b.samples), DepthBiasWords, BlendConstantWords, DepthBoundsWords,
        StencilInfoFor(b.depthFormat, ci.ds), SampleLocationWords(ci.sampleLocations)), k);
    }
  }

  /** The three static stencil states (compare mask, write mask, reference), each the 8-bit front and back values. */
  function StencilStates(states: map<nat, seq<Word>>, mask: Mask, info: DepthStencilInfo): map<nat, seq<Word>>
  {
    WithStatic(WithStatic(WithStatic(states,
      mask, DynStencilCompareMask, StencilPairWords(RbStencilMask, info.front.compareMask, info.back.compareMask)),
      mask, DynStencilWriteMask, StencilPairWords(RbStencilWrMask, info.front.writeMask, info.back.writeMask)),
      mask, DynStencilReference, StencilPairWords(RbStencilRef, info.front.reference, info.back.reference))
  }

  // ---------------------------------------------------------------------------
  // Properties of the draw states
  // ---------------------------------------------------------------------------

  /**
   * Depth clipping is disabled as the depth-clip extension says when it is chained, otherwise
   * exactly when depth clamping is on; the clamp always drives UNK5.
   */
  lemma DepthClipControl(rast: RasterizationInfo)
    ensures var v := RastStateWords(rast)[1].f;
      && v.znearClipDisable == v.zfarClipDisable
      && (rast.depthClipEnable.Some? ==> (v.znearClipDisable <==> !rast.depthClipEnable.value))
      && (rast.depthClipEnable.None? ==> (v.znearClipDisable <==> rast.su.depthClampEnable))
      && v.unk5 == rast.su.depthClampEnable
  {
  }

  /**
   * Without a depth/stencil attachment neither test runs; a stencil-only S8_UINT attachment keeps
   * the stencil state but never enables the depth test; otherwise the application's state is used.
   */
  lemma DummyDepthStencil(format: DepthFormat, ds: DepthStencilInfo, depthClamp: bool)
    ensures var ws := DsStateWords(format, ds, depthClamp);
      && (format == DepthUndefined ==> ws[3] == Field(DepthCntlOff) && !ws[5].f.enable)
      && (format == DepthS8Uint ==> ws[3] == Field(DepthCntlOff) && ws[5] == Field(StencilControlOf(ds)))
      && (format == DepthOther ==> ws[3] == Field(DepthCntlOf(ds, depthClamp)) && ws[5] == Field(StencilControlOf(ds)))
  {
    DepthCntlFlags(DummyDs, depthClamp);
  }

  // ---------------------------------------------------------------------------
  // tu_pipeline_builder_init_graphics
  // ---------------------------------------------------------------------------

  /** The subpass the pipeline is created against: its depth format and its colour attachments' formats (None for VK_ATTACHMENT_UNUSED). */
  datatype Subpass = Subpass(depthFormat: DepthFormat, colorAttachments: seq<Option<ColorFormat>>)

  /** The builder settings init_graphics derives from the create info and the render pass. */
  datatype BuilderConfig = BuilderConfig(
    rasterizerDiscard: bool,
    samples: nat,
    depthFormat: DepthFormat,
    colorAttachmentCount: nat,
    colorFormats: seq<Option<ColorFormat>>,
    useColorAttachments: bool,
    useDualSrcBlend: bool,
    renderComponents: Mask)

  /** An attached colour render target. */
  predicate Attached(subpass: Subpass, i: nat)
  {
    i < |subpass.colorAttachments| && subpass.colorAttachments[i].Some?
  }

  /**
   * The render targets whose four components the fragment shader writes: every attached one, and
   * with dual-source blending the second slot too when the first target is attached.
   */
  predicate ComponentsWritten(subpass: Subpass, dualSrc: bool, rt: nat)
  {
    Attached(subpass, rt) || (rt == 1 && dualSrc && Attached(subpass, 0))
  }

  /** The colour-attachment loop of init_graphics. */
  method ColorAttachments(subpass: Subpass) returns (formats: seq<Option<ColorFormat>>, used: bool, components: Mask)
    requires |subpass.colorAttachments| <= MaxRts
    ensures |formats| == MaxRts
    ensures forall i :: 0 <= i < MaxRts ==> formats[i] == if i < |subpass.colorAttachments| then subpass.colorAttachments[i] else None
    ensures used <==> exists i: nat :: Attached(subpass, i)
    ensures forall rt: nat :: rt in components <==> Attached(subpass, rt)
  {
    var fa := new Option<ColorFormat>[MaxRts](_ => None);
    used := false;
    components := {};
    var n := |subpass.colorAttachments|;
    for i := 0 to n
      invariant forall j :: 0 <= j < MaxRts ==> fa[j] == if j < i then subpass.colorAttachments[j] else None
      invariant used <==> exists j: nat :: j < i && Attached(subpass, j)
      invariant forall rt: nat :: rt in components <==> rt < i && Attached(subpass, rt)
    {
      var a := subpass.colorAttachments[i];
      if a.None? {
        assert !Attached(subpass, i);
        continue;
      }
      assert Attached(subpass, i);
      fa[i] := a;
      used := true;
      components := components + {i};
    }
    formats := fa[..];
  }

  /**
   * tu_pipeline_builder_init_graphics: with rasterization discarded only the sample count (one)
   * is set; otherwise the subpass gives the depth format, the colour formats, the render
   * components and whether colour attachments are used, and dual-source blending adds one colour
   * output and the second slot's components.
   */
  method InitGraphics(rasterizerDiscard: bool, rasterizationSamples: nat, subpass: Subpass, blend: Option<ColorBlendInfo>)
    returns (b: BuilderConfig)
    requires |subpass.colorAttachments| <= MaxRts
    requires !rasterizerDiscard && |subpass.colorAttachments| != 0 && blend.Some? ==>
               |subpass.colorAttachments| == |blend.value.attachments|
    ensures b.rasterizerDiscard == rasterizerDiscard && |b.colorFormats| == MaxRts
    ensures rasterizerDiscard ==>
              b == BuilderConfig(true, SampleCount1, DepthUndefined, 0, seq(MaxRts, _ => None), false, false, {})
    ensures !rasterizerDiscard ==>
              && b.samples == rasterizationSamples
              && b.depthFormat == subpass.depthFormat
              && (forall i :: 0 <= i < MaxRts ==>
                    b.colorFormats[i] == if i < |subpass.colorAttachments| then subpass.colorAttachments[i] else None)
              && (b.useColorAttachments <==> exists i: nat :: Attached(subpass, i))
              && (b.useDualSrcBlend <==> DualSrc(blend))
              && b.colorAttachmentCount == |subpass.colorAttachments| + (if DualSrc(blend) then 1 else 0)
              && (forall rt: nat :: rt in b.renderComponents <==> ComponentsWritten(subpass, DualSrc(blend), rt))
    ensures !rasterizerDiscard && b.useColorAttachments && blend.Some? ==>
              |blend.value.attachments| == |subpass.colorAttachments|
  {
    if rasterizerDiscard {
      return BuilderConfig(true, SampleCount1, DepthUndefined, 0, seq(MaxRts, _ => None), false, false, {});
    }
    var formats, used, components := ColorAttachments(subpass);
    var count := |subpass.colorAttachments|;
    var dualSrc := BlendStateIsDualSrc(blend);
    if dualSrc {
      count := count + 1;
      if |subpass.colorAttachments| > 0 && subpass.colorAttachments[0].Some? {
        components := components + {1};
      }
    }
    b := BuilderConfig(false, rasterizationSamples, subpass.depthFormat, count, formats, used, dualSrc, components);
  }

  // ---------------------------------------------------------------------------
  // tu_pipeline_allocate_cs
  // ---------------------------------------------------------------------------

  /** The base size of every pipeline command stream. */
  const BaseCsSize: nat := 2048

  /** The program the stream holds: the graphics stages' variants (by size) and the binning VS, or a compute shader. */
  datatype ProgramSizes =
    | GraphicsSizes(variantSizes: seq<Option<nat>>, binningSize: nat)
    | ComputeSize(size: nat)

  /** The sizes of the variants that exist. */
  function SumPresent(sizes: seq<Option<nat>>): nat
  {
    if |sizes| == 0 then 0
    else SumPresent(sizes[..|sizes| - 1]) + (if sizes[|sizes| - 1].Some? then sizes[|sizes| - 1].value else 0)
  }

  function CsSize(loadStateSize: nat, p: ProgramSizes): nat
  {
    BaseCsSize + loadStateSize + match p
      case GraphicsSizes(variantSizes, binningSize) => SumPresent(variantSizes) + binningSize
      case ComputeSize(size) => size
  }

  /** The reservation: 2048 words, the load state, then every variant's binary and the binning VS. */
  method AllocateCsSize(loadStateSize: nat, p: ProgramSizes) returns (size: nat)
    ensures size == CsSize(loadStateSize, p)
  {
    size := BaseCsSize + loadStateSize;
    if p.ComputeSize? {
      size := size + p.size;
      return;
    }
    ghost var base := size;
    var vs := p.variantSizes;
    for i := 0 to |vs|
      invariant size == base + SumPresent(vs[..i])
    {
      assert vs[..i + 1][..i] == vs[..i];
      if vs[i].Some? {
        size := size + vs[i].value;
      }
    }
    assert vs[..|vs|] == vs;
    size := size + p.binningSize;
  }

  /** Every existing variant, together with the base, the load state and the binning VS, fits the reservation. */
  lemma {:induction false} SumPresentCovers(sizes: seq<Option<nat>>, i: nat)
    requires i < |sizes| && sizes[i].Some?
    ensures sizes[i].value <= SumPresent(sizes)
    decreases |sizes|
  {
    if i < |sizes| - 1 {
      SumPresentCovers(sizes[..|sizes| - 1], i);
    }
  }

  lemma CsSizeCovers(loadStateSize: nat, variantSizes: seq<Option<nat>>, binningSize: nat)
    ensures var size := CsSize(loadStateSize, GraphicsSizes(variantSizes, binningSize));
      && size >= BaseCsSize + loadStateSize + binningSize
      && forall i :: 0 <= i < |variantSizes| && variantSizes[i].Some? ==>
           size >= BaseCsSize + loadStateSize + binningSize + variantSizes[i].value
  {
    forall i | 0 <= i < |variantSizes| && variantSizes[i].Some? {
      SumPresentCovers(variantSizes, i);
    }
  }

  // ---------------------------------------------------------------------------
  // Creation results
  // ---------------------------------------------------------------------------

  /** A VkResult: VK_SUCCESS or an error code. */
  datatype VkResult = VkSuccess | VkError(code: int)

  /** A VkPipeline handle or VK_NULL_HANDLE. */
  datatype Handle = NullHandle | PipelineHandle(pipeline: nat)

  /** What tu_pipeline_builder_build ends with: a pipeline, or the error (allocation or compilation) it failed with. */
  datatype BuildOutcome = Built(pipeline: nat) | BuildFailed(code: int)

  function ResultOf(o: BuildOutcome): VkResult
  {
    if o.Built? then VkSuccess else VkError(o.code)
  }

  function HandleOf(o: BuildOutcome): Handle
  {
    if o.Built? then PipelineHandle(o.pipeline) else NullHandle
  }

  /** tu_graphics_pipeline_create: the build's result, and the new handle only on success. */
  method GraphicsPipelineCreate(outcome: BuildOutcome) returns (result: VkResult, handle: Handle)
    ensures result == ResultOf(outcome) && handle == HandleOf(outcome)
    ensures handle == NullHandle <==> result != VkSuccess
  {
    result := if outcome.Built? then VkSuccess else VkError(outcome.code);
    if result == VkSuccess {
      handle := PipelineHandle(outcome.pipeline);
    } else {
      handle := NullHandle;
    }
  }

  /** The batch result: the last failure, or success when none failed. */
  function LastFailure(outcomes: seq<BuildOutcome>): VkResult
  {
    if |outcomes| == 0 then VkSuccess
    else if outcomes[|outcomes| - 1].BuildFailed? then ResultOf(outcomes[|outcomes| - 1])
    else LastFailure(outcomes[..|outcomes| - 1])
  }

  /**
   * tu_CreateGraphicsPipelines: every pipeline is attempted, each handle is set (NULL for a
   * failure), and the batch returns the last failure.
   */
  method CreateGraphicsPipelines(outcomes: seq<BuildOutcome>) returns (result: VkResult, handles: seq<Handle>)
    ensures |handles| == |outcomes|
    ensures forall i :: 0 <= i < |outcomes| ==> handles[i] == HandleOf(outcomes[i])
    ensures result == LastFailure(outcomes)
  {
    result := VkSuccess;
    var out := new Handle[|outcomes|];
    for i := 0 to |outcomes|
      invariant forall j :: 0 <= j < i ==> out[j] == HandleOf(outcomes[j])
      invariant result == LastFailure(outcomes[..i])
    {
      assert outcomes[..i + 1][..i] == outcomes[..i];
      var r, h := GraphicsPipelineCreate(outcomes[i]);
      out[i] := h;
      if r != VkSuccess {
        result := r;
      }
    }
    assert outcomes[..|outcomes|] == outcomes;
    handles := out[..];
  }

  /**
   * The batch succeeds exactly when every pipeline was built; otherwise it reports the error of a
   * failed pipeline after which all were built, i.e. the last failure, not the first.
   */
  lemma {:induction false} LastFailureSpec(outcomes: seq<BuildOutcome>)
    ensures LastFailure(outcomes) == VkSuccess <==> forall i :: 0 <= i < |outcomes| ==> outcomes[i].Built?
    ensures LastFailure(outcomes) != VkSuccess ==>
              exists i :: 0 <= i < |outcomes| && outcomes[i].BuildFailed?
                          && LastFailure(outcomes) == VkError(outcomes[i].code)
                          && forall j :: i < j < |outcomes| ==> outcomes[j].Built?
  {
    LastFailureSuccess(outcomes);
    LastFailureIsLast(outcomes);
  }

  lemma {:induction false} LastFailureSuccess(outcomes: seq<BuildOutcome>)
    ensures LastFailure(outcomes) == VkSuccess <==> forall i :: 0 <= i < |outcomes| ==> outcomes[i].Built?
  {
    if |outcomes| > 0 {
      var init := outcomes[..|outcomes| - 1];
      LastFailureSuccess(init);
      assert forall i :: 0 <= i < |init| ==> init[i] == outcomes[i];
    }
  }

  lemma {:induction false} LastFailureIsLast(outcomes: seq<BuildOutcome>)
    ensures LastFailure(outcomes) != VkSuccess ==>
              exists i :: 0 <= i < |outcomes| && outcomes[i].BuildFailed?
                          && LastFailure(outcomes) == VkError(outcomes[i].code)
                          && forall j :: i < j < |outcomes| ==> outcomes[j].Built?
  {
    var n := |outcomes|;
    if n > 0 && LastFailure(outcomes) != VkSuccess {
      if outcomes[n - 1].BuildFailed? {
        assert LastFailure(outcomes) == VkError(outcomes[n - 1].code);
      } else {
        var init := outcomes[..n - 1];
        LastFailureIsLast(init);
        var i :| 0 <= i < |init| && init[i].BuildFailed? && LastFailure(init) == VkError(init[i].code)
                 && forall j :: i < j < |init| ==> init[j].Built?;
        assert forall j :: i < j < n ==> outcomes[j].Built? by {
          forall j | i < j < n ensures outcomes[j].Built? {
            if j < n - 1 { assert outcomes[j] == init[j]; }
          }
        }
        assert outcomes[i] == init[i];
      }
    }
  }

}
