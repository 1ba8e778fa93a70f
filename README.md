# Turnip graphics pipeline state, modelled in Dafny

Turnip is Mesa's Vulkan driver for Adreno a6xx GPUs. When an application creates a graphics
pipeline, `tu_pipeline.c` turns the create info and the compiled ir3 shader variants into
command-stream words. Those words program the hardware registers, and most of them are grouped
into "draw states" that are replayed at draw time. This project models that translation.

Each emitter is a Dafny function that yields the exact word sequence. A method appends those
words to a command stream (the `CmdStream.Cs` class). There are two exceptions, listed under
"## Findings" and "## Left out": the geometry shader block and the point-coordinate varying modes
follow the corrected code, not the code as written. Here is what the model covers:

- The descriptor preload: the size computed up front and the packets emitted afterwards.
- The varying linkage (`tu6_link_streamout` and the position, layer and point-size appends).
- The stream-out program (`tu6_setup_streamout`).
- VPC_VAR_DISABLE, the VPC output packing and the VPC tail.
- The tessellation and geometry shader control registers, and the link maps.
- The per-stage primitive constants.
- The per-stage `xs_config` blocks, and the choice of shaders for the binning pass.
- The varying interpolation and replacement modes.
- The vertex input state.
- The fixed-function encoders: viewport, scissor, rasterizer, depth and stencil, blend and MRT, and fragment outputs.
- The pipeline builder:
  - dynamic-state parsing;
  - the static draw states and their sizes;
  - render components and dual-source blending;
  - the sub-stream size;
  - the batch create entry point.

Registers are modelled as `Hw.Word` values: a type-4 or type-7 packet header, a raw dword, or a
register value whose fields are kept as a datatype (`Hw.RegValue`) instead of packed bits. The
builder is a class (`Builder.Pipeline`). Its parse methods fill the pipeline's fields one stage at
a time, as `tu_pipeline_builder_build` does. The linkage is also a class (`Linkage.Linkage`),
updated in place by `ir3_link_add` and the stream-out linking. The stream-out staging arrays and
the varying-mode words are Dafny arrays, filled by loops as in the source.

All sources below are in `src/freedreno/vulkan/tu_pipeline.c`.

## Model

| member | source | states |
|---|---|---|
| LoadState.PacketWords | src/freedreno/vulkan/tu_pipeline.c:46-63 | Each preload is one CP_LOAD_STATE6 packet of fixed size, whose header announces the three payload dwords. |
| LoadState.BindingPacketCount | src/freedreno/vulkan/tu_pipeline.c:84-118 | The packets emitted for a binding are exactly as many as the sizing switch counts for its descriptor type. |
| LoadState.PerStagePacketsLength | src/freedreno/vulkan/tu_pipeline.c:191-234 | Per-stage descriptors give one packet per enabled stage. Combined image/samplers give two packets per array element per stage. |
| LoadState.PerStageCount | src/freedreno/vulkan/tu_pipeline.c:104-114 | For per-stage and combined descriptors, the per-stage emission agrees with `stage_count` and `stage_count * array_size * 2`. |
| LoadState.LoadStateSize | src/freedreno/vulkan/tu_pipeline.c:65-123 | The size reserved up front equals the packet size times the number of packets the emitter writes for the active sets. |
| LoadState.SetSize | src/freedreno/vulkan/tu_pipeline.c:74-121 | The size of one set's bindings equals the words its emitted packets take. |
| LoadState.EmitLoadState | src/freedreno/vulkan/tu_pipeline.c:126-242 | The preload IB is the concatenation of the packets of every active set, binding by binding. Inactive sets are skipped. |
| LoadState.EmitBinding | src/freedreno/vulkan/tu_pipeline.c:158-238 | One binding: storage types give one IBO packet, per-stage types give one packet per stage, combined types give texture and sampler packets per element. |
| LoadState.EmitStorage | src/freedreno/vulkan/tu_pipeline.c:178-190 | Storage bindings get one IBO packet for all graphics stages when any uses them, then one compute packet when compute uses them. |
| LoadState.EmitPerStage | src/freedreno/vulkan/tu_pipeline.c:191-234 | The walk over the enabled stages emits each stage's packets in stage order. |
| LoadState.EmitElements | src/freedreno/vulkan/tu_pipeline.c:217-234 | Combined image/samplers emit a texture and a sampler packet for every array element. |
| LoadState.LoadStatePacketsMono | src/freedreno/vulkan/tu_pipeline.c:129-134 | The packets of the first sets never exceed the whole, so the reserved sub-stream is never overrun. |
| Consts.ClampedUnits | src/freedreno/vulkan/tu_pipeline.c:710-711 | The clamped upload is positive exactly when something is wanted and the base lies below `constlen`. It never reaches past `constlen`, and it is the full request unless clipped. |
| Consts.ClampedUnitsNoWrap | src/freedreno/vulkan/tu_pipeline.c:710-711 | The unsigned 32-bit wrap-around and the `int` store of the C computation give the exact value for realistic offsets and lengths. |
| Consts.ConstWords | src/freedreno/vulkan/tu_pipeline.c:678-696 | A constant upload: its header count matches its payload, it targets `base` in whole vec4s, and it carries the first `size` dwords unchanged. |
| Consts.EmitConst | src/freedreno/vulkan/tu_pipeline.c:678-696 | Appends exactly that packet. |
| Linkage.LinkAdd | src/freedreno/vulkan/tu_pipeline.c:583-584 | Appending a varying keeps the existing entries and records the new one last. `max_loc` stays past every component. The locations up to its last component become used in `varmask`, and no others do. |
| Linkage.FindRegFrom | src/freedreno/vulkan/tu_pipeline.c:576-580 | The search returns the first entry with the register from `i` on, or the count when there is none. |
| Linkage.Widen | src/freedreno/vulkan/tu_pipeline.c:589-593 | Widening an entry adds the requested components, moves no entry and keeps `max_loc` covering. `varmask` is left as it was. |
| Linkage.StreamoutStepProps | src/freedreno/vulkan/tu_pipeline.c:562-594 | One stream output: the linkage only grows and keeps distinct registers. Afterwards the output's register is linked with all streamed components, and a new entry sits past every earlier vec4. |
| Linkage.LinkStreamoutProps | src/freedreno/vulkan/tu_pipeline.c:553-595 | After the whole loop, every stream output other than position and point size is linked with all its components. Earlier entries keep their places. |
| Linkage.PositionOutputsLayout | src/freedreno/vulkan/tu_pipeline.c:831-843 | Layer, position and point size are packed in that order from the old `max_loc`, with 1, 4 and 1 components. A missing output takes no location. |
| Linkage.DummyIfEmpty | src/freedreno/vulkan/tu_pipeline.c:852-853 | An empty linkage gets one single-component dummy entry at `max_loc`. A non-empty one is unchanged. |
| Linkage.Linkage.constructor | src/freedreno/vulkan/tu_pipeline.c:800-805 | The linkage object starts as the given state. |
| Linkage.Linkage.Add | src/freedreno/vulkan/tu_pipeline.c:583-584 | The object's state, `varmask` included, becomes `LinkAdd` of its old state. |
| Linkage.Linkage.LinkStreamout | src/freedreno/vulkan/tu_pipeline.c:553-595 | The loop updates the object to the linkage the stream-out specification describes. |
| Linkage.Linkage.FindLinked | src/freedreno/vulkan/tu_pipeline.c:576-580 | Returns the first entry linked to the register (or the entry count), and one past the highest vec4 of the entries before it. Changes nothing. |
| Linkage.Linkage.WidenEntry | src/freedreno/vulkan/tu_pipeline.c:588-592 | Widens the entry in place only when it lacks a component, and raises `max_loc` to cover it. |
| Linkage.Linkage.StreamoutOne | src/freedreno/vulkan/tu_pipeline.c:576-593 | One loop iteration: search, then append or widen. |
| Linkage.Linkage.AddPositionOutputs | src/freedreno/vulkan/tu_pipeline.c:831-843 | The three appends, returning the recorded locations. |
| Linkage.Linkage.AddDummyIfEmpty | src/freedreno/vulkan/tu_pipeline.c:852-853 | Adds the dummy output only when nothing is linked. |
| Streamout.ProgCount | src/freedreno/vulkan/tu_pipeline.c:605 | `prog_count` is half of `max_loc` rounded up, so it covers every location. |
| Streamout.StreamoutPacketSize | src/freedreno/vulkan/tu_pipeline.c:658-675 | The CP_CONTEXT_REG_BUNCH count equals its payload: 13 + 2·prog_count words when stream-out is on. |
| Streamout.NcompEnabled | src/freedreno/vulkan/tu_pipeline.c:621-665 | Buffer b is enabled exactly when some stream output with a valid register writes at least one component to it. |
| Streamout.ProgRoutesComponent | src/freedreno/vulkan/tu_pipeline.c:641-655 | Every streamed component lands in the half of VPC_SO_PROG its location owns, with its buffer and byte offset `(j + dst_offset) * 4`. |
| Streamout.ProgEmptyAboveCount | src/freedreno/vulkan/tu_pipeline.c:605 | Emitting only `prog_count` entries drops nothing: every later entry is still empty. |
| Streamout.WritesBelowMaxLoc | src/freedreno/vulkan/tu_pipeline.c:641-655 | A linked stream output writes only locations below `max_loc`. |
| Streamout.SoCoveredInBounds | src/freedreno/vulkan/tu_pipeline.c:598-656 | When the linkage covers the stream outputs, every write fits the 128-entry staging array and `prog_count` fits the register range. |
| Streamout.WriteComponents | src/freedreno/vulkan/tu_pipeline.c:641-655 | The inner loop ORs every component's routing into `prog` in place, as the specification function describes. |
| Streamout.FillProgram | src/freedreno/vulkan/tu_pipeline.c:621-656 | The outer loop fills `prog` and `ncomp` from every stream output. |
| Streamout.EmitProgram | src/freedreno/vulkan/tu_pipeline.c:658-675 | With stream-out on, appends the buffer part, then the VPC_SO_CNTL part, as one CP_CONTEXT_REG_BUNCH. |
| Streamout.EmitBuffers | src/freedreno/vulkan/tu_pipeline.c:658-668 | Appends the bunch header, VPC_SO_BUF_CNTL with buffer b enabled exactly when `ncomp[b] > 0`, and the four component counts. |
| Streamout.EmitNcomp | src/freedreno/vulkan/tu_pipeline.c:665-668 | Appends the VPC_SO_NCOMP(i) pairs for the four buffers in order. |
| Streamout.EmitSoCntl | src/freedreno/vulkan/tu_pipeline.c:669-675 | Appends VPC_SO_CNTL and then the first `prog_count` program entries. |
| Streamout.EmitProg | src/freedreno/vulkan/tu_pipeline.c:672-675 | Appends the first `prog_count` VPC_SO_PROG pairs in entry order. |
| Streamout.SetupStreamout | src/freedreno/vulkan/tu_pipeline.c:598-676 | Emits the stream-out packet from the filled arrays, or the disable words when nothing is streamed. |
| Vpc.LastStage | src/freedreno/vulkan/tu_pipeline.c:788-795 | The last geometry stage is the GS exactly when there is one, the DS exactly when tessellating without a GS, and the VS otherwise. |
| Vpc.FindOutputRegid | src/freedreno/vulkan/tu_pipeline.c:820-825 | Returns the register of the first output in the slot, or the invalid register when none writes it. |
| Vpc.OutputPacking | src/freedreno/vulkan/tu_pipeline.c:856-873 | Entry i of the linkage is half i mod 2 of SP_xS_OUT_REG i/2 and byte i mod 4 of SP_xS_VPC_DST_REG i/4. There are at most 16 and 8 registers. |
| Vpc.ArrayWordsShape | src/freedreno/vulkan/tu_pipeline.c:857-873 | The SP_xS_OUT_REG and SP_xS_VPC_DST_REG packets each count exactly the registers that follow them. |
| Vpc.OutputWordsShape | src/freedreno/vulkan/tu_pipeline.c:856-908 | Each array packet's count is the number of registers that follow it, and the VPC tail is 18 words. |
| Vpc.VpcStreamoutLinked | src/freedreno/vulkan/tu_pipeline.c:800-845 | After the linking steps, every stream output with a valid register is linked. Its `debug_assert(idx < cnt)` holds, and it has all its components except for position and point size. |
| Vpc.OutputsNeverEmpty | src/freedreno/vulkan/tu_pipeline.c:852-873 | After the dummy, the output arrays are never empty. |
| Vpc.PackOutputs | src/freedreno/vulkan/tu_pipeline.c:861-867 | The packing loop fills one entry per linked varying. |
| Vpc.EmitTail | src/freedreno/vulkan/tu_pipeline.c:875-908 | Appends VPC_xS_PACK through VPC_CNTL_0. |
| Vpc.LinkStreamoutOutputs | src/freedreno/vulkan/tu_pipeline.c:802-804 | The linkage object ends at the linkage after `tu6_link_streamout`, or is unchanged without stream outputs. |
| Vpc.LinkPositionOutputs | src/freedreno/vulkan/tu_pipeline.c:819-843 | The linkage object ends at the linkage after the layer, position and point-size appends, and their locations are returned. |
| Vpc.VarDisableExact | src/freedreno/vulkan/tu_pipeline.c:813-817 | VPC_VAR_DISABLE(0..3) follows its 4-register header, and bit `loc % 32` of register `loc / 32` is set exactly when location `loc` is unused. No bit above 31 is set. |
| Vpc.EmitVarDisable | src/freedreno/vulkan/tu_pipeline.c:813-817 | Appends the VPC_VAR_DISABLE packet for the given used locations. |
| Vpc.EmitLinkedOutputs | src/freedreno/vulkan/tu_pipeline.c:819-908 | After VPC_VAR_DISABLE: the three appends, the stream-out program and the output registers. The linkage ends dummy-completed. |
| Vpc.EmitVpcOutputs | src/freedreno/vulkan/tu_pipeline.c:800-908 | The linkage ends dummy-completed. The words are VPC_VAR_DISABLE for the locations used after stream-out linking, then the stream-out program, then the output registers. |
| GeomTess.GlPrimitiveToTess | src/freedreno/vulkan/tu_pipeline.c:719-730 | A GS output primitive never maps to counter-clockwise triangles. |
| GeomTess.GlPrimitiveToTessInjective | src/freedreno/vulkan/tu_pipeline.c:719-730 | Distinct GS output primitives map to distinct tessellator outputs. |
| GeomTess.TessMode | src/freedreno/vulkan/tu_pipeline.c:1926-1942 | A primitive mode gives tessellation exactly when one is declared. |
| GeomTess.KeyTessellation | src/freedreno/vulkan/tu_pipeline.c:1995-1998 | The key's tessellation mode comes from the TCS, else from the TES, and is none exactly when neither declares one. |
| GeomTess.TessOutputOf | src/freedreno/vulkan/tu_pipeline.c:943-951 | Points when point mode is set; else lines for isolines; else counter-clockwise triangles exactly when ccw is set. |
| GeomTess.TessParams | src/freedreno/vulkan/tu_pipeline.c:936-941 | The tessellation info comes from the TES when it sets a spacing, else from the TCS. |
| GeomTess.LinkMapUpload | src/freedreno/vulkan/tu_pipeline.c:698-716 | The link map is skipped exactly when there is nothing to link or no room. Otherwise it uploads whole vec4s within `constlen`, and every location when they fit. |
| GeomTess.HsUnknownA831Covers | src/freedreno/vulkan/tu_pipeline.c:912-934 | With the VS/HS workgroup, the register is the number of waves the patches of one wave need: it covers the VS outputs, and one fewer would not. |
| GeomTess.HsInputSize | src/freedreno/vulkan/tu_pipeline.c:918-919 | The HS input size is the patch's VS output in vec4s, rounded down. |
| GeomTess.HsWordsShape | src/freedreno/vulkan/tu_pipeline.c:910-973 | The HS block writes the input size and the tessellator output, followed by the two link maps. |
| GeomTess.Dec32 | src/freedreno/vulkan/tu_pipeline.c:985-987 | `x - 1` on 32-bit unsigned values, wrapping 0 to 2^32-1. |
| GeomTess.GsVec4Size | src/freedreno/vulkan/tu_pipeline.c:989-990 | Corrected sizing: the per-primitive allocation in vec4s holds every input vertex of the producer's output. The code as written uses the VS output size (see "## Findings"). |
| GeomTess.GsControl | src/freedreno/vulkan/tu_pipeline.c:976-996 | Without NIR the defaults are 3 vertices, clockwise triangles, one invocation and no allocation. Otherwise the allocation covers the input primitive. |
| GeomTess.EmitHs | src/freedreno/vulkan/tu_pipeline.c:910-973 | Appends the HS block. |
| GeomTess.EmitGs | src/freedreno/vulkan/tu_pipeline.c:976-1017 | Appends the GS block, with vec4_size and SP_GS_PRIM_SIZE from the producer's output size (the corrected sizing). |
| GeomTess.EmitVpc | src/freedreno/vulkan/tu_pipeline.c:733-1019 | `tu6_emit_vpc` for the last geometry stage: the VPC words (VPC_VAR_DISABLE first), then the tessellation and GS blocks, the GS block with the corrected sizing. |
| GeomTess.GeomTessParamsAgree | src/freedreno/vulkan/tu_pipeline.c:1311-1371 | One parameter block per stage present. The HS shares the VS strides, the DS and HS agree on the HS output size, and each primitive stride is the vertex stride times the vertex count. |
| GeomTess.GeomTessWordsAppend | src/freedreno/vulkan/tu_pipeline.c:1311-1371 | The constant words of two stage lists are those of each list in turn. |
| GeomTess.EmitGeomTessConsts | src/freedreno/vulkan/tu_pipeline.c:1311-1371 | Appends one constant upload per stage present, in stage order. |
| GeomTess.GsWordsAsWrittenDiffer | src/freedreno/vulkan/tu_pipeline.c:976-1017 | The GS block as written, sized from the VS output, differs from the producer-sized block in exactly two words: vec4_size in PC_PRIMITIVE_CNTL_6 and SP_GS_PRIM_SIZE. |
| GeomTess.GsSizeAsWrittenTooSmall | src/freedreno/vulkan/tu_pipeline.c:989-990 | A concrete input where the VS-sized allocation is smaller than the stride the DS writes with. |
| GeomTess.GsSizeCoversStride | src/freedreno/vulkan/tu_pipeline.c:989-990 | Sized by the producer, the allocation always covers the GS's primitive stride. |
| XsConfig.XsConfigEnabledIffBound | src/freedreno/vulkan/tu_pipeline.c:329-442 | A stage is enabled in SP_xS_CONFIG and HLSQ_xS_CNTL exactly when a variant is bound. A disabled stage writes only the two zeroes. The program is fetched `instrlen` units from the address SP_xS_OBJ_START holds. |
| XsConfig.ImmediatesUpload | src/freedreno/vulkan/tu_pipeline.c:446-467 | Immediates are uploaded in whole vec4s below `constlen`, skipped only when there are none or no room, and complete when they fit. |
| XsConfig.ThreadSizeByStage | src/freedreno/vulkan/tu_pipeline.c:389-411 | Only a geometry shader runs with two quads, and only a fragment shader sets VARYING. |
| XsConfig.RegWords | src/freedreno/vulkan/tu_pipeline.c:399-431 | The enabled-stage registers take ten words. |
| XsConfig.FetchWords | src/freedreno/vulkan/tu_pipeline.c:433-442 | The program fetch is four words. |
| XsConfig.EmitXsConfig | src/freedreno/vulkan/tu_pipeline.c:329-468 | Appends the stage's configuration. |
| Program.DedicatedBinningVs | src/freedreno/vulkan/tu_pipeline.c:2041-2056 | A separate binning VS is compiled exactly when the VS does not stream out and the key allows one. |
| Program.StageChoice | src/freedreno/vulkan/tu_pipeline.c:1401-1414 | In the binning pass the FS is disabled, and the VS is the binning variant unless there is a GS. Every other stage gets its own variant. |
| Program.VpcShaders | src/freedreno/vulkan/tu_pipeline.c:1401-1414 | The VPC links the VS slot that was configured, and no FS in the binning pass. |
| Program.EmitBinningVs | src/freedreno/vulkan/tu_pipeline.c:1401-1405 | Without a GS, the binning pass configures the VS slot with the binning variant and its own address: the first block of the walk. |
| Program.EmitStages | src/freedreno/vulkan/tu_pipeline.c:1401-1414 | The stage walk appends every stage's configuration in stage order. |
| Program.EmitProgramConfig | src/freedreno/vulkan/tu_pipeline.c:1373-1414 | Appends the stage part of `tu6_emit_program`. |
| Varying.VaryingMode | src/freedreno/vulkan/tu_pipeline.c:1021-1078 | The interpolation and replacement modes of an input, packed two bits per consumed component in component order, with the corrected point-coordinate placement. |
| Varying.PntcModes | src/freedreno/vulkan/tu_pipeline.c:1050-1066 | For a point coordinate, S and T get smooth interpolation with S/T replacement, and the third and fourth components the constants zero and one. Each goes at the packed slot of its component, including the fourth, which the code as written places at bit 6 (see "## Findings"). |
| Varying.FlatModes | src/freedreno/vulkan/tu_pipeline.c:1067-1074 | For a flat input, every consumed component gets INTERP_FLAT at its packed slot. |
| Varying.ModeBitsAt | src/freedreno/vulkan/tu_pipeline.c:1021-1078 | Packed slot j holds the code of the j-th consumed component. |
| Varying.VaryingModesCorrect | src/freedreno/vulkan/tu_pipeline.c:1080-1118 | After every input is ORed in, each slot an input owns holds that input's code, and every unowned slot is zero. |
| Varying.OrModes | src/freedreno/vulkan/tu_pipeline.c:1097-1109 | ORing an input's modes into the eight words updates the owned bits and nothing else, including when the modes straddle two words. |
| Varying.PackModes | src/freedreno/vulkan/tu_pipeline.c:1087-1111 | The loop over the FS inputs builds the words `ModesUpTo` specifies. |
| Varying.EmitVaryingModes | src/freedreno/vulkan/tu_pipeline.c:1080-1118 | Appends the interpolation and replacement words, with the point coordinate's INTERP_ONE at its packed slot (the corrected placement). |
| Varying.PntcOneMisplaced | src/freedreno/vulkan/tu_pipeline.c:1064 | A concrete input where the point-coordinate INTERP_ONE lands in the wrong slot as written. |
| VertexInput.InstancedIff | src/freedreno/vulkan/tu_pipeline.c:1454-1466 | A binding is instanced exactly when one of its descriptions asks for per-instance input. It is used exactly when a description names it. |
| VertexInput.StepRateOf | src/freedreno/vulkan/tu_pipeline.c:1454-1476 | A binding's step rate is the last divisor naming it, else 1 when it is described. |
| VertexInput.FirstInput | src/freedreno/vulkan/tu_pipeline.c:1487-1494 | The first VS input consuming an attribute, or none. |
| VertexInput.DecodeCountAll | src/freedreno/vulkan/tu_pipeline.c:1480-1519 | The decode count equals the attribute count exactly when the VS consumes every attribute. |
| VertexInput.VertexInputFits | src/freedreno/vulkan/tu_pipeline.c:2129-2153 | The vertex input state fits the `MAX_VERTEX_ATTRIBS * 7 + 2` words reserved for it. |
| VertexInput.FindInput | src/freedreno/vulkan/tu_pipeline.c:1487-1494 | The search loop returns the first consuming input. |
| VertexInput.EmitBindings | src/freedreno/vulkan/tu_pipeline.c:1454-1466 | The binding loop emits the fetch strides and returns the used and instanced masks and unit step rates. |
| VertexInput.ApplyDivisors | src/freedreno/vulkan/tu_pipeline.c:1468-1476 | The divisor loop leaves the step rates the specification gives. |
| VertexInput.EmitDecodes | src/freedreno/vulkan/tu_pipeline.c:1480-1514 | One decode entry per consumed attribute, numbered from 0. |
| VertexInput.EmitVertexInput | src/freedreno/vulkan/tu_pipeline.c:1444-1520 | Appends the vertex input state and adds the described bindings to `bindings_used`. |
| FixedFunction.ScissorAxis | src/freedreno/vulkan/tu_pipeline.c:1586-1613 | Each axis is clamped to the hardware range, and the scissor is non-empty exactly when its extent is positive and starts in range. An in-range scissor is kept exactly. |
| FixedFunction.EmitScissor | src/freedreno/vulkan/tu_pipeline.c:1586-1613 | Appends the scissor words. |
| FixedFunction.ViewportNonEmpty | src/freedreno/vulkan/tu_pipeline.c:1534-1549 | The bumped viewport scissor is never inverted or negative, and a zero-height viewport keeps its y. |
| FixedFunction.EmitViewport | src/freedreno/vulkan/tu_pipeline.c:1523-1584 | Appends the viewport words. |
| FixedFunction.SuCntlOf | src/freedreno/vulkan/tu_pipeline.c:1657-1679 | GRAS_SU_CNTL culls front faces exactly when the front bit of the cull mode is set and back faces exactly when the back bit is. FRONT_CW and POLY_OFFSET follow the front face and depth bias, and MSAA is on exactly for more than one sample. |
| FixedFunction.SuCntlCulling | src/freedreno/vulkan/tu_pipeline.c:1656-1679 | The cull bits follow the cull mode exactly, and MSAA is enabled exactly when there is more than one sample. |
| FixedFunction.DepthCntlFlags | src/freedreno/vulkan/tu_pipeline.c:1693-1717 | Depth write and clamp need the depth test. Bounds testing turns on the test, and the register is off exactly when neither test is enabled. |
| FixedFunction.EmitDepthControl | src/freedreno/vulkan/tu_pipeline.c:1693-1717 | Appends RB_DEPTH_CNTL. |
| FixedFunction.EmitStencilControl | src/freedreno/vulkan/tu_pipeline.c:1719-1743 | Appends RB_STENCIL_CONTROL. |
| FixedFunction.ZMode | src/freedreno/vulkan/tu_pipeline.c:1296-1302 | Late Z exactly when early Z is forbidden, the FS kills or writes depth or stencil-ref, or the depth format is S8_UINT. |
| FixedFunction.FragdataRegids | src/freedreno/vulkan/tu_pipeline.c:1258-1266 | With `color0_mrt`, every render target reads the color-0 register; otherwise each reads its own. |
| FixedFunction.FsOutputsWords | src/freedreno/vulkan/tu_pipeline.c:1245-1309 | The fragment-output block is 23 words. |
| FixedFunction.EmitFsOutputs | src/freedreno/vulkan/tu_pipeline.c:1245-1309 | Appends the fragment-output block. |
| Blend.LogicOpReadsDstIff | src/freedreno/vulkan/tu_pipeline.c:269-281 | For the 16 Vulkan logic ops, the op reads the destination exactly when its truth table depends on the destination bit. |
| Blend.IsDualSrc | src/freedreno/vulkan/tu_pipeline.c:297-308 | The dual-source factors are exactly the four Vulkan values from SRC1_COLOR to ONE_MINUS_SRC1_ALPHA. The destination-alpha rewrite neither creates nor removes one. |
| Blend.NoDstAlpha | src/freedreno/vulkan/tu_pipeline.c:283-295 | Destination-alpha factors become ONE and ZERO, every other factor is kept, and no destination-alpha factor remains. |
| Blend.BlendStateIsDualSrc | src/freedreno/vulkan/tu_pipeline.c:310-326 | The blend state is dual-source exactly when some attachment uses a SRC1 factor, whether or not it enables blending. |
| Blend.MrtBlendControlOf | src/freedreno/vulkan/tu_pipeline.c:1745-1768 | The ops and alpha factors are kept. The color factors are kept when the format has alpha, else rewritten without destination alpha. |
| Blend.MrtControlOf | src/freedreno/vulkan/tu_pipeline.c:1770-1795 | Integer formats never blend or use a logic op. Otherwise the ROP follows the logic op, and blending follows the attachment, with the second enable also needing alpha. |
| Blend.EmitMrtControl | src/freedreno/vulkan/tu_pipeline.c:1814-1836 | Appends one attachment's words and reports whether it counts for the blend-enable mask. |
| Blend.EmitRbMrtControls | src/freedreno/vulkan/tu_pipeline.c:1797-1837 | The loop appends three words per attachment and returns the blend-enable mask. |
| Blend.MrtWordsAt | src/freedreno/vulkan/tu_pipeline.c:1814-1836 | An unused attachment is written as zeroes and never blends. A used one writes its component mask. |
| Blend.RopReadsDstEnablesAll | src/freedreno/vulkan/tu_pipeline.c:1805-1830 | A logic op that reads the destination enables blending on every used attachment. |
| Blend.SampleMaskOf | src/freedreno/vulkan/tu_pipeline.c:1845-1847 | The sample mask is the application's mask cut to 16 bits, else all rasterization samples. |
| Blend.EmitBlendControl | src/freedreno/vulkan/tu_pipeline.c:1839-1863 | Appends the blend control words. |
| Blend.BlendStateWords | src/freedreno/vulkan/tu_pipeline.c:2372-2384 | The blend draw state is `attachmentCount * 3 + 4` words. |
| Blend.DummyBlendState | src/freedreno/vulkan/tu_pipeline.c:2365-2374 | Without color attachments the dummy blend info writes only the blend control words. |
| Builder.DynamicMaskIff | src/freedreno/vulkan/tu_pipeline.c:2061-2085 | An id is dynamic exactly when a supported listed state maps to it, and every id is below the count. |
| Builder.DynamicIdsDistinct | src/freedreno/vulkan/tu_pipeline.c:2073-2079 | Core dynamic states keep their own number, and sample locations map to the driver's own slot. |
| Builder.WithStatic | src/freedreno/vulkan/tu_pipeline.c:2166-2177 | A static draw state is recorded only when its id is not dynamic, and nothing else changes. |
| Builder.StaticsHas | src/freedreno/vulkan/tu_pipeline.c:2223-2401 | A draw state is recorded exactly when it is not dynamic and its parse step runs. |
| Builder.BuiltStatesCover | src/freedreno/vulkan/tu_pipeline.c:2444-2453 | After building, the recorded draw states are exactly the non-dynamic ones. Viewport, scissor, blend constants and sample locations are missing under rasterizer discard. |
| Builder.RastStateWords | src/freedreno/vulkan/tu_pipeline.c:2246-2267 | The rasterization state is 9 words. |
| Builder.DepthClipControl | src/freedreno/vulkan/tu_pipeline.c:2239-2256 | Near and far clip are disabled together: by the explicit depth-clip info, else by depth clamp. |
| Builder.DsStateWords | src/freedreno/vulkan/tu_pipeline.c:2311-2318 | The depth/stencil state is 6 words. |
| Builder.DummyDepthStencil | src/freedreno/vulkan/tu_pipeline.c:2302-2318 | No depth attachment turns both off, S8_UINT turns only depth off, and any other format keeps both. |
| Builder.StencilPairWords | src/freedreno/vulkan/tu_pipeline.c:2322-2338 | Each stencil pair keeps the low byte of the front and back values. |
| Builder.SampleLocationWords | src/freedreno/vulkan/tu_pipeline.c:1615-1654 | The sample-location state is 9 words when enabled, else 6. |
| Builder.EmitSampleLocations | src/freedreno/vulkan/tu_pipeline.c:1615-1654 | Appends the sample-location words. |
| Builder.Pipeline.constructor | src/freedreno/vulkan/tu_pipeline.c:2418-2419 | A new pipeline starts zeroed. |
| Builder.Pipeline.ParseDynamic | src/freedreno/vulkan/tu_pipeline.c:2061-2085 | Adds the dynamic mask of the listed states. Nothing else changes. |
| Builder.Pipeline.StaticState | src/freedreno/vulkan/tu_pipeline.c:2166-2177 | Returns no stream exactly when the state is dynamic, else a fresh empty stream of the requested size. |
| Builder.Pipeline.ParseVertexInput | src/freedreno/vulkan/tu_pipeline.c:2129-2153 | Records the vertex input state for the VS, and for the binning VS when there is one. Adds the used bindings, and the state fits its reservation. |
| Builder.Pipeline.ParseInputAssembly | src/freedreno/vulkan/tu_pipeline.c:2155-2164 | Records the primitive type and restart. |
| Builder.Pipeline.ParseTessellation | src/freedreno/vulkan/tu_pipeline.c:2179-2201 | With tessellation, the primitive becomes PATCHES0 plus the control points, and the domain origin and parameter registers are recorded. Without it nothing changes. |
| Builder.Pipeline.ParseViewport | src/freedreno/vulkan/tu_pipeline.c:2203-2228 | Records viewport and scissor unless they are dynamic. Under discard nothing changes. |
| Builder.GrasSuCntlFor | src/freedreno/vulkan/tu_pipeline.c:2267-2272 | `pipeline->gras_su_cntl` is `tu6_gras_su_cntl` with LINEHALFWIDTH set exactly when the line width is static. |
| Builder.LineWidthStateMatches | src/freedreno/vulkan/tu_pipeline.c:2267-2272 | With a static line width, the GRAS_SU_CNTL word emitted in the static line-width draw state is the recorded `gras_su_cntl`. With a dynamic one, the recorded value is `tu6_gras_su_cntl` alone. |
| Builder.Pipeline.ParseRasterization | src/freedreno/vulkan/tu_pipeline.c:2230-2284 | Records the rasterization words, GRAS_SU_CNTL with the line half-width when the line width is static, and line width and depth bias unless dynamic. |
| Builder.Pipeline.ParseDepthStencil | src/freedreno/vulkan/tu_pipeline.c:2286-2340 | Records the depth/stencil words from the dummy-adjusted info, plus depth bounds and the three stencil pairs unless dynamic. |
| Builder.Pipeline.ParseMultisampleAndColorBlend | src/freedreno/vulkan/tu_pipeline.c:2342-2402 | Unless discarding: records the blend state from the dummy or the given info, plus blend constants and sample locations unless dynamic. |
| Builder.Pipeline.BuildDrawStates | src/freedreno/vulkan/tu_pipeline.c:2449-2452 | The draw-state parse steps in order leave exactly the specified draw states and registers, and keep the other fields. GRAS_SU_CNTL carries the line half-width exactly when the line width is static. |
| Builder.Pipeline.ParseFrontEnd | src/freedreno/vulkan/tu_pipeline.c:2444-2448 | From a zeroed pipeline, the steps before the draw states set the dynamic mask, both vertex-input states and the used bindings, the input assembly and the tessellation state. Nothing else changes. |
| Builder.Pipeline.BuildFixedFunction | src/freedreno/vulkan/tu_pipeline.c:2444-2453 | From a zeroed pipeline, the build leaves every field of the pipeline as the parse steps set it: dynamic mask, draw states, vertex input, input assembly, tessellation, rasterization, GRAS_SU_CNTL (with the line half-width when the line width is static), depth/stencil and blend. |
| Builder.ColorAttachments | src/freedreno/vulkan/tu_pipeline.c:2511-2520 | The color formats of the subpass, padded to 8. Color attachments are used exactly when one is attached, and render components are exactly those of attached targets. |
| Builder.InitGraphics | src/freedreno/vulkan/tu_pipeline.c:2473-2530 | Discard gives the fixed defaults. Otherwise the samples, formats, use of color attachments, dual-source flag, attachment count (+1 for dual source) and render components all follow the subpass. |
| Builder.AllocateCsSize | src/freedreno/vulkan/tu_pipeline.c:1865-1892 | The sub-stream size is the fixed part plus the load-state size and every variant's binary. |
| Builder.CsSizeCovers | src/freedreno/vulkan/tu_pipeline.c:1871-1882 | The size covers the fixed part, the load state, the binning binary and each variant's binary. |
| Builder.GraphicsPipelineCreate | src/freedreno/vulkan/tu_pipeline.c:2532-2556 | Success gives a handle. A failure gives the error and a NULL handle. |
| Builder.CreateGraphicsPipelines | src/freedreno/vulkan/tu_pipeline.c:2558-2578 | One handle per create info: NULL exactly for failures, and the result is the last failure. |
| Builder.LastFailureSpec | src/freedreno/vulkan/tu_pipeline.c:2566-2577 | The result is success exactly when every pipeline was built. Otherwise it is the error of the last failed pipeline, and all later ones succeeded. |

## Left out

- Floating-point register values are modelled as opaque words. This covers the viewport scale and offset, the guardband, the depth bias factors, the value of the line half-width (only whether LINEHALFWIDTH is filled is modelled), the blend constants and the sample-location positions. The model does not compute them.
- The format and enum translation tables are not modelled: `tu6_blend_factor`, `tu6_blend_op`, `tu6_rop`, `tu6_compare_func`, `tu6_stencil_op`, `tu6_polygon_mode`, `tu6_primtype`, `tu6_format_vtx`, `vk_format_is_int` and `vk_format_has_alpha`. Their results are inputs, for example the `isInt`/`hasAlpha` flags of a color format.
- `tu_private.h` is not part of this model. The values of `TU_DYNAMIC_STATE_SAMPLE_LOCATIONS` (taken as 9, right after the core states) and `DI_PT_PATCHES0` (taken as 31) are assumed.
- The ir3 compiler (`ir3_link_shaders`, `ir3_link_geometry_stages`, variant compilation and upload) is treated as an input. The linkage starts from whatever `ir3_link_shaders` left, and link maps are given.
- `ir3_link_add` is not part of this model. It is taken to append the entry, mark the locations `loc` up to `loc + util_last_bit(compmask)` in `varmask`, and raise `max_loc` past them. Widening an entry at lines 588-592 does not touch `varmask`.
- `tu_cs` internals are not modelled: sub-stream allocation, BO relocation, draw-state IB addresses. A command stream is a word sequence with a capacity. Draw states are recorded as word sequences after they are filled, not before.
- `tu6_emit_fs_inputs` and `tu6_emit_vs_system_values` are not modelled. They configure registers from ir3 variant fields this model treats as opaque.
- `tu_pipeline_builder_parse_shader_stages`, `tu6_emit_load_state` and shader compilation are not chained into `Builder.Pipeline.BuildFixedFunction`. Each is modelled separately (`Program`, `LoadState`, `GeomTess`).
- GsVec4Size: the emitted vec4_size is sized from the producer's output size (the DS when tessellating), not from `vs->output_size` as lines 989-990 are written. The as-written value is GsVec4SizeAsWritten.
- GeomTess.GsControl / GsWords / EmitGs / EmitVpc: the emitted GS block uses the corrected values. PC_PRIMITIVE_CNTL_6's vec4_size and SP_GS_PRIM_SIZE come from the producer's output size, where lines 989-990 and 1016 use `vs->output_size`. GeomTess.GsWordsAsWritten is the block as written, and GsWordsAsWrittenDiffer states where the two differ.
- GsControl: see the GeomTess.GsControl line above. The GS block follows the corrected sizing, not line 989-990 as written.
- EmitGs: see the GeomTess.GsControl line above. It emits the corrected words, not lines 989-990 and 1016 as written.
- EmitVpc: its GS block is the corrected one, as for EmitGs.
- Varying.VaryingMode / PntcModes / EmitVaryingModes: the point coordinate's INTERP_ONE goes at the packed slot of component 3, not at bit 6 as line 1064 writes. Varying.PntcInterpAsWritten is the as-written interpolation mode, and PntcOneMisplaced shows an input where they differ.
- VaryingMode: see the Varying.VaryingMode line above. It returns the corrected point-coordinate placement, not line 1064 as written.
- PntcModes: see the Varying.VaryingMode line above. It uses the corrected placement.
- EmitVaryingModes: see the Varying.VaryingMode line above. It emits the corrected placement, not line 1064 as written.
- Builder.Pipeline.ParseDynamic: the source asserts on unsupported dynamic states in debug builds. The model ignores them, as release builds do.
- Builder.InitGraphics: with dual-source blending and a subpass without color attachments, the source reads `color_attachments[0]` without a guard. The model treats that attachment as unattached. The attachment-count assert becomes a precondition.
- Builder.Pipeline.ParseViewport: the precondition `BoxOk` comes from the viewport asserts at lines 1548-1549 (a non-negative minimum below the maximum). `RectOk` is not from the source: `tu6_emit_scissor` asserts nothing. It is the Vulkan valid-usage rule for `pScissors`, which requires non-negative offsets and no signed overflow of offset + extent. So the model does not cover a negative scissor offset. The source accepts one, and its unsigned comparison in `MIN2` clamps it to 0x7fff, which gives an empty scissor.
- Builder.SampleLocationWords: the sample positions and the asserts on their count and grid are not modelled. Only whether sample locations are enabled selects the words.
- Compute pipelines (`tu_compute_pipeline_create`), pipeline caches, object allocation and destruction are not modelled.
- Builder.CreateGraphicsPipelines: follows the code. It keeps going after a failure and returns the last failure's error, not the first.

## Findings

| source | as written | input that shows it | evidently intended | confidence | as-written member | corrected member |
|---|---|---|---|---|---|---|
| src/freedreno/vulkan/tu_pipeline.c:989-990 | The GS per-primitive allocation (`vec4_size`) and SP_GS_PRIM_SIZE are sized from the VS output size, even when the DS feeds the GS. | VS writing 4 dwords per vertex, DS writing 8, triangles into the GS: 3 vec4s (48 bytes) are allocated against the 96-byte primitive stride the GS constants announce. | Size both from the producer stage (the DS when tessellating), as `tu6_emit_geom_tess_consts` does. | not executed; medium | GeomTess.GsSizeAsWrittenTooSmall | GeomTess.GsSizeCoversStride |
| src/freedreno/vulkan/tu_pipeline.c:1064 | For a point-coordinate input, INTERP_ONE for component 3 is placed at bit 6, the slot of component 3, although consumed components are packed contiguously. | Component mask 0xb (components 0, 1, 3): the packed third slot should hold INTERP_ONE, but as written slot 2 is smooth and an unused slot 3 gets INTERP_ONE. | Place the mode at the packed slot of the component, as every other component is placed. | not executed; medium | Varying.PntcOneMisplaced | Varying.VaryingModesCorrect |
