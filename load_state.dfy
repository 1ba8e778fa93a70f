/**
 * Descriptor prefetch ("load state"): one CP_LOAD_STATE6 packet per descriptor
 * binding and relevant shader stage, for the descriptor sets the pipeline's
 * shaders actually use.
 *
 * The sizing pass (tu6_load_state_size) and the emission pass
 * (tu6_emit_load_state) are modelled separately, as in the source; the buffer is
 * reserved from the sizing result, so the model proves that the sizing pass
 * returns exactly four words per packet the emission pass writes, and the
 * emission pass runs in a stream whose capacity is that size and fills it.
 */
module LoadState {
  import opened Hw
  import opened CmdStream

  /** MAX_SETS: also the pseudo set index that addresses dynamic descriptors. */
  const MaxSets: nat := 4
  /** A6XX_TEX_CONST_DWORDS: the dword stride of one hardware descriptor. */
  const TexConstDwords: nat := 16
  /** Words in one CP_LOAD_STATE6 packet (header and three payload words). */
  const PacketSize: nat := 4
  /** NUM_UNIT is clamped to 1024 - 1. */
  const MaxNumUnit: nat := 1023

  /** VkDescriptorType; the source treats any other value as unreachable. */
  datatype DescriptorType =
    | Sampler
    | CombinedImageSampler
    | SampledImage
    | StorageImage
    | UniformTexelBuffer
    | StorageTexelBuffer
    | UniformBuffer
    | StorageBuffer
    | UniformBufferDynamic
    | StorageBufferDynamic
    | InputAttachment

  /** Descriptors backed by IBOs: one packet covers every graphics stage. */
  predicate IsStorage(t: DescriptorType)
  {
    t == StorageBuffer || t == StorageBufferDynamic || t == StorageImage || t == StorageTexelBuffer
  }

  /** Descriptors that need one packet per stage. */
  predicate IsPerStage(t: DescriptorType)
  {
    t == Sampler || t == SampledImage || t == UniformTexelBuffer || t == UniformBuffer
    || t == UniformBufferDynamic
  }

  /** tu_descriptor_set_binding_layout, the fields the prefetch reads. */
  datatype Binding = Binding(kind: DescriptorType, shaderStages: Mask, arraySize: nat,
                             offset: nat, dynamicOffsetOffset: nat)

  /** One entry of a pipeline layout: a set layout and where its dynamic descriptors start. */
  datatype LayoutSet = LayoutSet(bindings: seq<Binding>, dynamicOffsetStart: nat)

  /** tu_pipeline_layout: `num_sets` is the length of `sets`. */
  datatype PipelineLayout = PipelineLayout(sets: seq<LayoutSet>)

  predicate WellFormed(layout: PipelineLayout)
  {
    |layout.sets| <= MaxSets
  }

  /** The stages a binding is prefetched for: compute only, or graphics only (extra bits dropped). */
  function BindingStages(b: Binding, compute: bool): (r: Mask)
    ensures forall i :: i in r ==> i < StageCount
  {
    if compute then b.shaderStages * {ComputeBit} else b.shaderStages * AllGraphics
  }

  /** One CP_LOAD_STATE6 packet in bindless mode. */
  datatype LoadPacket = LoadPacket(op: Opcode, stateType: StateType, block: StateBlock,
                                   base: nat, offset: nat, count: nat)

  /** The four words emit_load_state writes for one packet. */
  function PacketWords(p: LoadPacket): (ws: seq<Word>)
    ensures |ws| == PacketSize
    ensures ws[0] == Pkt7(p.op, 3)
  {
    [Pkt7(p.op, 3),
     Field(LoadState0(0, p.stateType, Ss6Bindless, p.block, if p.count < MaxNumUnit then p.count else MaxNumUnit)),
     Field(BindlessAddr(p.base, p.offset)),
     Raw(0)]
  }

  /** The words of a run of packets, in order. */
  function Flatten(ps: seq<LoadPacket>): (ws: seq<Word>)
    ensures |ws| == PacketSize * |ps|
  {
    if ps == [] then [] else Flatten(ps[..|ps| - 1]) + PacketWords(ps[|ps| - 1])
  }

  lemma {:induction false} FlattenAppend(a: seq<LoadPacket>, b: seq<LoadPacket>)
    ensures Flatten(a + b) == Flatten(a) + Flatten(b)
    decreases |b|
  {
    if b == [] {
      assert a + b == a;
    } else {
      var last := b[|b| - 1];
      assert (a + b)[..|a + b| - 1] == a + b[..|b| - 1];
      FlattenAppend(a, b[..|b| - 1]);
    }
  }

  /** Appending the words of `a + b` after `start` is appending those of `a`, then those of `b`. */
  lemma AppendFlatten(start: seq<Word>, a: seq<LoadPacket>, b: seq<LoadPacket>)
    ensures start + Flatten(a + b) == start + Flatten(a) + Flatten(b)
  {
    FlattenAppend(a, b);
  }

  lemma FlattenOne(p: LoadPacket)
    ensures Flatten([p]) == PacketWords(p)
  {
    assert [p][..0] == [];
  }

  lemma FlattenPair(start: seq<Word>, a: seq<LoadPacket>, p: LoadPacket, q: LoadPacket)
    ensures start + Flatten(a + [p, q]) == start + Flatten(a) + PacketWords(p) + PacketWords(q)
  {
    assert (a + [p, q])[..|a| + 1] == a + [p];
    assert (a + [p])[..|a|] == a;
  }

  // ---------------------------------------------------------------------------
  // What the emission pass writes
  // ---------------------------------------------------------------------------

  predicate IsDynamic(t: DescriptorType)
  {
    t == UniformBufferDynamic || t == StorageBufferDynamic
  }

  /** The set index a packet names: dynamic descriptors live in the pseudo set MAX_SETS. */
  function BindingBase(i: nat, b: Binding): nat
  {
    if IsDynamic(b.kind) then MaxSets else i
  }

  /** The dword offset a packet names. */
  function BindingOffset(s: LayoutSet, b: Binding): nat
  {
    if IsDynamic(b.kind) then (s.dynamicOffsetStart + b.dynamicOffsetOffset) * TexConstDwords
    else b.offset / 4
  }

  /** A combined image-sampler: a texture packet and a sampler packet for each of the first `k` elements. */
  function ElementPackets(s: Stage, base: nat, offset: nat, k: nat): (ps: seq<LoadPacket>)
  {
    if k == 0 then []
    else
      var i := k - 1;
      ElementPackets(s, base, offset, k - 1)
      + [LoadPacket(StageOpcode(s), St6Constants, TexBlock(s), base, offset + 2 * i * TexConstDwords, 1),
         LoadPacket(StageOpcode(s), St6Shader, TexBlock(s), base, offset + (2 * i + 1) * TexConstDwords, 1)]
  }

  /** The packets for one stage of a binding that is prefetched per stage. */
  function StagePackets(t: DescriptorType, s: Stage, base: nat, offset: nat, count: nat): seq<LoadPacket>
    requires IsPerStage(t) || t == CombinedImageSampler
  {
    match t
    case Sampler => [LoadPacket(StageOpcode(s), St6Shader, TexBlock(s), base, offset, count)]
    case SampledImage => [LoadPacket(StageOpcode(s), St6Constants, TexBlock(s), base, offset, count)]
    case UniformTexelBuffer => [LoadPacket(StageOpcode(s), St6Constants, TexBlock(s), base, offset, count)]
    case UniformBuffer => [LoadPacket(StageOpcode(s), St6Ubo, ShaderBlock(s), base, offset, count)]
    case UniformBufferDynamic => [LoadPacket(StageOpcode(s), St6Ubo, ShaderBlock(s), base, offset, count)]
    case CombinedImageSampler => ElementPackets(s, base, offset, count)
  }

  /** tu_foreach_stage over the stage bits below `n`, in increasing order. */
  function PerStagePackets(t: DescriptorType, stages: Mask, n: nat, base: nat, offset: nat, count: nat)
    : seq<LoadPacket>
    requires IsPerStage(t) || t == CombinedImageSampler
    requires n <= StageCount
  {
    if n == 0 then []
    else PerStagePackets(t, stages, n - 1, base, offset, count)
         + (if n - 1 in stages then StagePackets(t, StageAt(n - 1), base, offset, count) else [])
  }

  /** A storage binding: the graphics IBO packet, then the compute one, each when a stage of its kind uses it. */
  function StoragePackets(stages: Mask, base: nat, offset: nat, count: nat): seq<LoadPacket>
  {
    (if stages - {ComputeBit} != {} then [LoadPacket(CpLoadState6, St6Shader, Sb6Ibo, base, offset, count)] else [])
    + (if ComputeBit in stages then [LoadPacket(CpLoadState6Frag, St6Ibo, Sb6CsShader, base, offset, count)] else [])
  }

  /** The packets tu6_emit_load_state writes for binding `b` of set `i`. */
  function BindingPackets(s: LayoutSet, i: nat, b: Binding, compute: bool): seq<LoadPacket>
  {
    var stages := BindingStages(b, compute);
    var base := BindingBase(i, b);
    var offset := BindingOffset(s, b);
    var count := b.arraySize;
    if count == 0 || stages == {} then []
    else if IsStorage(b.kind) then StoragePackets(stages, base, offset, count)
    else if b.kind == InputAttachment then []
    else PerStagePackets(b.kind, stages, StageCount, base, offset, count)
  }

  /** The packets for the first `m` bindings of set `i`. */
  function SetPackets(s: LayoutSet, i: nat, m: nat, compute: bool): seq<LoadPacket>
    requires m <= |s.bindings|
  {
    if m == 0 then []
    else SetPackets(s, i, m - 1, compute) + BindingPackets(s, i, s.bindings[m - 1], compute)
  }

  /** The packets for the first `n` sets, skipping sets whose bit in `activeSets` is clear. */
  function LoadStatePacketsBelow(layout: PipelineLayout, activeSets: Mask, compute: bool, n: nat)
    : seq<LoadPacket>
    requires WellFormed(layout) && n <= |layout.sets|
  {
    if n == 0 then []
    else
      var s := layout.sets[n - 1];
      LoadStatePacketsBelow(layout, activeSets, compute, n - 1)
      + (if n - 1 in activeSets then SetPackets(s, n - 1, |s.bindings|, compute) else [])
  }

  /** Every packet the emission pass writes, in order. */
  function LoadStatePackets(layout: PipelineLayout, activeSets: Mask, compute: bool): seq<LoadPacket>
    requires WellFormed(layout)
  {
    LoadStatePacketsBelow(layout, activeSets, compute, |layout.sets|)
  }

  // ---------------------------------------------------------------------------
  // What the sizing pass counts
  // ---------------------------------------------------------------------------

  /** The packet count tu6_load_state_size assigns to one binding. */
  function SizingCount(b: Binding, compute: bool): nat
  {
    var stages := BindingStages(b, compute);
    if b.arraySize == 0 then 0
    else
      match b.kind
      case StorageBuffer | StorageBufferDynamic | StorageImage | StorageTexelBuffer =>
        (if stages - {ComputeBit} != {} then 1 else 0) + (if ComputeBit in stages then 1 else 0)
      case Sampler | SampledImage | UniformTexelBuffer | UniformBuffer | UniformBufferDynamic =>
        PopCount(stages)
      case CombinedImageSampler =>
        PopCount(stages) * b.arraySize * 2
      case InputAttachment =>
        0
  }

  // ---------------------------------------------------------------------------
  // The two passes agree
  // ---------------------------------------------------------------------------

  lemma {:induction false} ElementPacketsLength(s: Stage, base: nat, offset: nat, k: nat)
    ensures |ElementPackets(s, base, offset, k)| == 2 * k
  {
    if k > 0 {
      ElementPacketsLength(s, base, offset, k - 1);
    }
  }

  lemma {:induction false} PerStagePacketsLength(t: DescriptorType, stages: Mask, n: nat,
                                                 base: nat, offset: nat, count: nat)
    requires IsPerStage(t) || t == CombinedImageSampler
    requires n <= StageCount
    ensures |PerStagePackets(t, stages, n, base, offset, count)|
            == PopCountBelow(stages, n) * (if t == CombinedImageSampler then 2 * count else 1)
  {
    if n > 0 {
      PerStagePacketsLength(t, stages, n - 1, base, offset, count);
      if t == CombinedImageSampler {
        ElementPacketsLength(StageAt(n - 1), base, offset, count);
      }
    }
  }

  /**
   * The per-binding theorem: the sizing pass counts exactly the packets the
   * emission pass writes, for every descriptor type, stage mask and array size.
   */
  lemma BindingPacketCount(s: LayoutSet, i: nat, b: Binding, compute: bool)
    ensures |BindingPackets(s, i, b, compute)| == SizingCount(b, compute)
  {
    var stages := BindingStages(b, compute);
    if b.arraySize == 0 {
    } else if stages == {} {
      ZeroPopCount(stages, 32);
    } else if IsStorage(b.kind) || b.kind == InputAttachment {
    } else {
      PerStageCount(s, i, b, compute);
    }
  }

  lemma PerStageCount(s: LayoutSet, i: nat, b: Binding, compute: bool)
    requires IsPerStage(b.kind) || b.kind == CombinedImageSampler
    requires b.arraySize != 0
    ensures |PerStagePackets(b.kind, BindingStages(b, compute), StageCount, BindingBase(i, b), BindingOffset(s, b), b.arraySize)|
            == SizingCount(b, compute)
  {
    var stages := BindingStages(b, compute);
    PopCountBelowZeroAbove(stages, StageCount, 32);
    PerStagePacketsLength(b.kind, stages, StageCount, BindingBase(i, b), BindingOffset(s, b), b.arraySize);
  }

  lemma {:induction false} ZeroPopCount(x: Mask, n: nat)
    requires x == {}
    ensures PopCountBelow(x, n) == 0
  {
    if n > 0 {
      ZeroPopCount(x, n - 1);
    }
  }

  /** The total size in words the emission pass needs. */
  function LoadStateWords(layout: PipelineLayout, activeSets: Mask, compute: bool): (ws: seq<Word>)
    requires WellFormed(layout)
    ensures |ws| == PacketSize * |LoadStatePackets(layout, activeSets, compute)|
  {
    Flatten(LoadStatePackets(layout, activeSets, compute))
  }

  /** The inner loop of tu6_load_state_size: the words for the bindings of one active set. */
  method SetSize(s: LayoutSet, i: nat, compute: bool) returns (size: nat)
    ensures size == PacketSize * |SetPackets(s, i, |s.bindings|, compute)|
  {
    size := 0;
    var j := 0;
    while j < |s.bindings|
      invariant 0 <= j <= |s.bindings|
      invariant size == PacketSize * |SetPackets(s, i, j, compute)|
    {
      var b := s.bindings[j];
      var count := SizingCount(b, compute);
      BindingPacketCount(s, i, b, compute);
      ghost var before := SetPackets(s, i, j, compute);
      assert SetPackets(s, i, j + 1, compute) == before + BindingPackets(s, i, b, compute);
      size := size + count * PacketSize;
      j := j + 1;
    }
  }

  /**
   * tu6_load_state_size: the accumulator loop over active sets and their
   * bindings.  Its result is exactly four words per packet of the emission pass.
   */
  method LoadStateSize(layout: PipelineLayout, activeSets: Mask, compute: bool) returns (size: nat)
    requires WellFormed(layout)
    ensures size == PacketSize * |LoadStatePackets(layout, activeSets, compute)|
  {
    size := 0;
    var i := 0;
    while i < |layout.sets|
      invariant 0 <= i <= |layout.sets|
      invariant size == PacketSize * |LoadStatePacketsBelow(layout, activeSets, compute, i)|
    {
      if i in activeSets {
        var n := SetSize(layout.sets[i], i, compute);
        size := size + n;
      }
      i := i + 1;
    }
  }

  // ---------------------------------------------------------------------------
  // The emission pass
  // ---------------------------------------------------------------------------

  /** emit_load_state: one CP_LOAD_STATE6 packet. */
  method EmitPacket(cs: Cs, p: LoadPacket)
    requires cs.Valid() && cs.Room() >= PacketSize
    modifies cs
    ensures cs.Valid() && cs.words == old(cs.words) + PacketWords(p)
  {
    cs.EmitPkt7(p.op, 3);
    cs.Emit(Field(LoadState0(0, p.stateType, Ss6Bindless, p.block,
                             if p.count < MaxNumUnit then p.count else MaxNumUnit)));
    // tu_cs_emit_qw of a 32-bit value: the low word, then a zero high word
    cs.Emit(Field(BindlessAddr(p.base, p.offset)));
    cs.Emit(Raw(0));
  }

  /** The inner loop of a combined image-sampler binding, for one stage. */
  method EmitElements(cs: Cs, s: Stage, base: nat, offset: nat, count: nat)
    requires cs.Valid() && cs.Room() >= PacketSize * (2 * count)
    modifies cs
    ensures cs.Valid() && cs.words == old(cs.words) + Flatten(ElementPackets(s, base, offset, count))
  {
    var k := 0;
    while k < count
      invariant 0 <= k <= count
      invariant cs.Valid()
      invariant cs.words == old(cs.words) + Flatten(ElementPackets(s, base, offset, k))
      invariant cs.Room() >= PacketSize * (2 * (count - k))
    {
      var tex := LoadPacket(StageOpcode(s), St6Constants, TexBlock(s), base, offset + 2 * k * TexConstDwords, 1);
      var sam := LoadPacket(StageOpcode(s), St6Shader, TexBlock(s), base, offset + (2 * k + 1) * TexConstDwords, 1);
      ghost var done := ElementPackets(s, base, offset, k);
      assert ElementPackets(s, base, offset, k + 1) == done + [tex, sam];
      FlattenPair(old(cs.words), done, tex, sam);
      EmitPacket(cs, tex);
      EmitPacket(cs, sam);
      k := k + 1;
    }
  }

  lemma {:induction false} PerStagePacketsMono(t: DescriptorType, stages: Mask, n: nat, m: nat,
                                               base: nat, offset: nat, count: nat)
    requires IsPerStage(t) || t == CombinedImageSampler
    requires n <= m <= StageCount
    ensures |PerStagePackets(t, stages, n, base, offset, count)|
            <= |PerStagePackets(t, stages, m, base, offset, count)|
    decreases m
  {
    if n < m {
      PerStagePacketsMono(t, stages, n, m - 1, base, offset, count);
    }
  }

  /** The body of tu_foreach_stage for a per-stage binding: the packets of one stage. */
  method EmitStage(cs: Cs, t: DescriptorType, s: Stage, base: nat, offset: nat, count: nat)
    requires IsPerStage(t) || t == CombinedImageSampler
    requires cs.Valid() && cs.Room() >= PacketSize * |StagePackets(t, s, base, offset, count)|
    modifies cs
    ensures cs.Valid() && cs.words == old(cs.words) + Flatten(StagePackets(t, s, base, offset, count))
  {
    var p;
    match t {
      case Sampler =>
        p := LoadPacket(StageOpcode(s), St6Shader, TexBlock(s), base, offset, count);
      case SampledImage =>
        p := LoadPacket(StageOpcode(s), St6Constants, TexBlock(s), base, offset, count);
      case UniformTexelBuffer =>
        p := LoadPacket(StageOpcode(s), St6Constants, TexBlock(s), base, offset, count);
      case UniformBuffer =>
        p := LoadPacket(StageOpcode(s), St6Ubo, ShaderBlock(s), base, offset, count);
      case UniformBufferDynamic =>
        p := LoadPacket(StageOpcode(s), St6Ubo, ShaderBlock(s), base, offset, count);
      case CombinedImageSampler =>
        ElementPacketsLength(s, base, offset, count);
        EmitElements(cs, s, base, offset, count);
        return;
    }
    EmitPacket(cs, p);
    FlattenOne(p);
  }

  lemma PerStageStep(start: seq<Word>, t: DescriptorType, stages: Mask, n: nat,
                     base: nat, offset: nat, count: nat)
    requires IsPerStage(t) || t == CombinedImageSampler
    requires n < StageCount
    ensures n !in stages ==>
              PerStagePackets(t, stages, n + 1, base, offset, count)
              == PerStagePackets(t, stages, n, base, offset, count)
    ensures n in stages ==>
              && start + Flatten(PerStagePackets(t, stages, n + 1, base, offset, count))
                 == start + Flatten(PerStagePackets(t, stages, n, base, offset, count))
                    + Flatten(StagePackets(t, StageAt(n), base, offset, count))
              && |PerStagePackets(t, stages, n, base, offset, count)|
                 + |StagePackets(t, StageAt(n), base, offset, count)|
                 <= |PerStagePackets(t, stages, StageCount, base, offset, count)|
  {
    var done := PerStagePackets(t, stages, n, base, offset, count);
    if n in stages {
      PerStagePacketsMono(t, stages, n + 1, StageCount, base, offset, count);
      AppendFlatten(start, done, StagePackets(t, StageAt(n), base, offset, count));
    } else {
      assert PerStagePackets(t, stages, n + 1, base, offset, count) == done + [];
    }
  }

  /** tu_foreach_stage over a per-stage binding: the stage bits in increasing order. */
  method EmitPerStage(cs: Cs, t: DescriptorType, stages: Mask, base: nat, offset: nat, count: nat)
    requires IsPerStage(t) || t == CombinedImageSampler
    requires cs.Valid()
    requires cs.Room() >= PacketSize * |PerStagePackets(t, stages, StageCount, base, offset, count)|
    modifies cs
    ensures cs.Valid()
    ensures cs.words == old(cs.words) + Flatten(PerStagePackets(t, stages, StageCount, base, offset, count))
  {
    var n := 0;
    while n < StageCount
      invariant 0 <= n <= StageCount
      invariant cs.Valid()
      invariant cs.words == old(cs.words) + Flatten(PerStagePackets(t, stages, n, base, offset, count))
    {
      PerStageStep(old(cs.words), t, stages, n, base, offset, count);
      if n in stages {
        EmitStage(cs, t, StageAt(n), base, offset, count);
      }
      n := n + 1;
    }
  }

  /**
   * A storage buffer or image: one IBO packet for all graphics stages and one for compute,
   * each only when a stage of its kind uses the binding.
   */
  method EmitStorage(cs: Cs, stages: Mask, base: nat, offset: nat, count: nat)
    requires cs.Valid() && cs.Room() >= PacketSize * |StoragePackets(stages, base, offset, count)|
    modifies cs
    ensures cs.Valid() && cs.words == old(cs.words) + Flatten(StoragePackets(stages, base, offset, count))
  {
    var graphics := LoadPacket(CpLoadState6, St6Shader, Sb6Ibo, base, offset, count);
    var cmp := LoadPacket(CpLoadState6Frag, St6Ibo, Sb6CsShader, base, offset, count);
    ghost var gs := if stages - {ComputeBit} != {} then [graphics] else [];
    ghost var cps := if ComputeBit in stages then [cmp] else [];
    AppendFlatten(old(cs.words), gs, cps);
    FlattenOne(graphics);
    FlattenOne(cmp);
    if stages - {ComputeBit} != {} {
      EmitPacket(cs, graphics);
    }
    if ComputeBit in stages {
      EmitPacket(cs, cmp);
    }
  }

  /** The switch of tu6_emit_load_state for one binding. */
  method EmitBinding(cs: Cs, s: LayoutSet, i: nat, b: Binding, compute: bool)
    requires cs.Valid() && cs.Room() >= PacketSize * |BindingPackets(s, i, b, compute)|
    modifies cs
    ensures cs.Valid() && cs.words == old(cs.words) + Flatten(BindingPackets(s, i, b, compute))
  {
    var base := i;
    var offset := b.offset / 4;
    var stages := BindingStages(b, compute);
    var count := b.arraySize;
    if count == 0 || stages == {} {
      return;
    }
    if IsDynamic(b.kind) {
      base := MaxSets;
      offset := (s.dynamicOffsetStart + b.dynamicOffsetOffset) * TexConstDwords;
    }
    if IsStorage(b.kind) {
      EmitStorage(cs, stages, base, offset, count);
    } else if b.kind == InputAttachment {
      // input attachments are not bindless: nothing to prefetch
    } else {
      EmitPerStage(cs, b.kind, stages, base, offset, count);
    }
  }

  lemma {:induction false} SetPacketsMono(s: LayoutSet, i: nat, j: nat, m: nat, compute: bool)
    requires j <= m <= |s.bindings|
    ensures |SetPackets(s, i, j, compute)| <= |SetPackets(s, i, m, compute)|
    decreases m
  {
    if j < m {
      SetPacketsMono(s, i, j, m - 1, compute);
    }
  }

  lemma {:induction false} LoadStatePacketsMono(layout: PipelineLayout, activeSets: Mask, compute: bool,
                                                n: nat, m: nat)
    requires WellFormed(layout) && n <= m <= |layout.sets|
    ensures |LoadStatePacketsBelow(layout, activeSets, compute, n)|
            <= |LoadStatePacketsBelow(layout, activeSets, compute, m)|
    decreases m
  {
    if n < m {
      LoadStatePacketsMono(layout, activeSets, compute, n, m - 1);
    }
  }

  lemma SetPacketsStep(start: seq<Word>, s: LayoutSet, i: nat, j: nat, compute: bool)
    requires j < |s.bindings|
    ensures start + Flatten(SetPackets(s, i, j + 1, compute))
            == start + Flatten(SetPackets(s, i, j, compute)) + Flatten(BindingPackets(s, i, s.bindings[j], compute))
    ensures |SetPackets(s, i, j, compute)| + |BindingPackets(s, i, s.bindings[j], compute)|
            <= |SetPackets(s, i, |s.bindings|, compute)|
  {
    SetPacketsMono(s, i, j + 1, |s.bindings|, compute);
    AppendFlatten(start, SetPackets(s, i, j, compute), BindingPackets(s, i, s.bindings[j], compute));
  }

  lemma LoadStateStep(layout: PipelineLayout, activeSets: Mask, compute: bool, i: nat)
    requires WellFormed(layout) && i < |layout.sets|
    ensures i !in activeSets ==>
              LoadStatePacketsBelow(layout, activeSets, compute, i + 1)
              == LoadStatePacketsBelow(layout, activeSets, compute, i)
    ensures i in activeSets ==>
              var s := layout.sets[i];
              && Flatten(LoadStatePacketsBelow(layout, activeSets, compute, i + 1))
                 == Flatten(LoadStatePacketsBelow(layout, activeSets, compute, i))
                    + Flatten(SetPackets(s, i, |s.bindings|, compute))
              && |LoadStatePacketsBelow(layout, activeSets, compute, i)| + |SetPackets(s, i, |s.bindings|, compute)|
                 <= |LoadStatePackets(layout, activeSets, compute)|
  {
    var s := layout.sets[i];
    if i in activeSets {
      LoadStatePacketsMono(layout, activeSets, compute, i + 1, |layout.sets|);
      FlattenAppend(LoadStatePacketsBelow(layout, activeSets, compute, i), SetPackets(s, i, |s.bindings|, compute));
    } else {
      assert LoadStatePacketsBelow(layout, activeSets, compute, i + 1)
          == LoadStatePacketsBelow(layout, activeSets, compute, i) + [];
    }
  }

  /** The binding loop of tu6_emit_load_state for one active set. */
  method EmitSet(cs: Cs, s: LayoutSet, i: nat, compute: bool)
    requires cs.Valid() && cs.Room() >= PacketSize * |SetPackets(s, i, |s.bindings|, compute)|
    modifies cs
    ensures cs.Valid() && cs.words == old(cs.words) + Flatten(SetPackets(s, i, |s.bindings|, compute))
  {
    var j := 0;
    while j < |s.bindings|
      invariant 0 <= j <= |s.bindings|
      invariant cs.Valid()
      invariant cs.words == old(cs.words) + Flatten(SetPackets(s, i, j, compute))
    {
      SetPacketsStep(old(cs.words), s, i, j, compute);
      EmitBinding(cs, s, i, s.bindings[j], compute);
      j := j + 1;
    }
  }

  /**
   * tu6_emit_load_state: sizes the prefetch, reserves exactly that many words
   * (nothing when the size is 0) and writes every packet into the reservation.
   * The result is the draw state's contents, and it fills the reservation exactly.
   */
  method EmitLoadState(layout: PipelineLayout, activeSets: Mask, compute: bool) returns (state: seq<Word>)
    requires WellFormed(layout)
    ensures state == Flatten(LoadStatePackets(layout, activeSets, compute))
  {
    var size := LoadStateSize(layout, activeSets, compute);
    if size == 0 {
      assert LoadStatePackets(layout, activeSets, compute) == [];
      return [];
    }
    var cs := new Cs(size);
    var i := 0;
    while i < |layout.sets|
      invariant 0 <= i <= |layout.sets|
      invariant cs.Valid() && cs.cap == size
      invariant cs.words == Flatten(LoadStatePacketsBelow(layout, activeSets, compute, i))
    {
      LoadStateStep(layout, activeSets, compute, i);
      if i in activeSets {
        EmitSet(cs, layout.sets[i], i, compute);
      }
      i := i + 1;
    }
    state := cs.words;
  }
}
