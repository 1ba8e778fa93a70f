/**
 * The shader-stage walk of tu6_emit_program: which variant each stage is configured with in
 * the binning pass and in the rendering pass, and the choice of the binning VS variant made when
 * the shaders are compiled.
 */
module Program {
  import opened Hw
  import opened CmdStream
  import opened XsConfig

  /**
   * The builder's compiled variants and upload addresses, per stage in enum order, and the
   * VS variant (with its address) used for the binning pass.
   */
  datatype ProgramInputs = ProgramInputs(
    variants: seq<Option<Variant>>,
    shaderIova: seq<nat>,
    binningVariant: Variant,
    binningVsIova: nat)

  predicate ProgramOk(p: ProgramInputs)
  {
    && |p.variants| == StageCount && |p.shaderIova| == StageCount
    && (forall i :: 0 <= i < StageCount ==> ConfigOk(p.variants[i], p.shaderIova[i]))
    && VariantOk(p.binningVariant) && IovaOk(p.binningVsIova)
  }

  /**
   * tu_pipeline_builder_compile_shaders: the binning pass reuses the VS variant itself when the
   * VS streams out or the key does not allow a separate binning VS; otherwise a dedicated binning
   * variant is compiled.
   */
  function DedicatedBinningVs(vsStreamsOut: bool, hasBinningVs: bool): (dedicated: bool)
    ensures dedicated <==> !vsStreamsOut && hasBinningVs
  {
    !(vsStreamsOut || !hasBinningVs)
  }

  /** The binning VS replaces the VS only in the binning pass of a pipeline without a GS. */
  function UsesBinningVs(p: ProgramInputs, binning: bool): bool
    requires ProgramOk(p)
  {
    binning && p.variants[StageIndex(Geometry)].None?
  }

  /** The variant and binary address tu6_emit_xs_config gets for stage `i`. */
  function StageConfig(p: ProgramInputs, binning: bool, i: nat): (r: (Option<Variant>, nat))
    requires ProgramOk(p) && i < StageCount
    ensures ConfigOk(r.0, r.1)
  {
    if i == 0 && UsesBinningVs(p, binning) then (Some(p.binningVariant), p.binningVsIova)
    else if i == StageIndex(Fragment) && binning then (None, p.shaderIova[i])
    else (p.variants[i], p.shaderIova[i])
  }

  /** The configuration blocks of the stages below `k`, in stage order. */
  function ConfigWordsUpTo(p: ProgramInputs, binning: bool, k: nat): seq<Word>
    requires ProgramOk(p) && k <= StageCount
  {
    if k == 0 then [] else ConfigWordsUpTo(p, binning, k - 1) + StageWords(p, binning, k - 1)
  }

  /** The configuration block of stage `i`. */
  function StageWords(p: ProgramInputs, binning: bool, i: nat): seq<Word>
    requires ProgramOk(p) && i < StageCount
  {
    XsConfigWords(StageAt(i), StageConfig(p, binning, i).0, StageConfig(p, binning, i).1)
  }

  const InvalidateWords: seq<Word> := [Pkt4(HlsqInvalidateCmd, 1), Field(InvalidateGraphics)]

  /** The stage part of tu6_emit_program: invalidate, one block per stage, then SP_HS_UNKNOWN_A831 cleared. */
  function ProgramConfigWords(p: ProgramInputs, binning: bool): seq<Word>
    requires ProgramOk(p)
  {
    InvalidateWords + ConfigWordsUpTo(p, binning, StageCount) + [Pkt4(SpHsUnknownA831, 1), Raw(0)]
  }

  /**
   * In the binning pass the fragment stage is always disabled and the VS is replaced by the
   * binning variant unless there is a GS; in the rendering pass every stage gets its own variant.
   */
  lemma StageChoice(p: ProgramInputs, binning: bool)
    requires ProgramOk(p)
    ensures binning ==> StageConfig(p, binning, StageIndex(Fragment)).0 == None
    ensures binning && p.variants[StageIndex(Geometry)].None? ==>
              StageConfig(p, binning, 0).0 == Some(p.binningVariant)
    ensures !UsesBinningVs(p, binning) ==> StageConfig(p, binning, 0) == (p.variants[0], p.shaderIova[0])
    ensures forall i :: 0 < i < StageCount && (i != StageIndex(Fragment) || !binning) ==>
              StageConfig(p, binning, i) == (p.variants[i], p.shaderIova[i])
  {
  }

  /**
   * The variants tu6_emit_vpc links: the VS slot holds the binning variant exactly when the
   * binning VS is used, and the FS is dropped in the binning pass.
   */
  function VpcShaders(p: ProgramInputs, binning: bool): (r: (Option<Variant>, Option<Variant>))
    requires ProgramOk(p)
    ensures r.0 == StageConfig(p, binning, 0).0
    ensures r.1 == StageConfig(p, binning, StageIndex(Fragment)).0
    ensures binning ==> r.1 == None
  {
    var vs := if UsesBinningVs(p, binning) then Some(p.binningVariant) else p.variants[0];
    var fs := if binning then None else p.variants[StageIndex(Fragment)];
    (vs, fs)
  }

  /** The stage at position `k` of the walk contributes exactly its own block. */
  lemma ConfigWordsStep(p: ProgramInputs, binning: bool, k: nat)
    requires ProgramOk(p) && k < StageCount
    ensures ConfigWordsUpTo(p, binning, k + 1) == ConfigWordsUpTo(p, binning, k) + StageWords(p, binning, k)
  {
  }

  /** One iteration of the stage loop: the FS is dropped in the binning pass. */
  method EmitStage(cs: Cs, p: ProgramInputs, binning: bool, stage: nat)
    requires ProgramOk(p) && stage < StageCount && (stage == 0 ==> !UsesBinningVs(p, binning))
    requires cs.Valid() && cs.Room() >= |StageWords(p, binning, stage)|
    modifies cs
    ensures cs.Valid() && cs.words == old(cs.words) + StageWords(p, binning, stage)
  {
    var xs := p.variants[stage];
    if stage == StageIndex(Fragment) && binning {
      xs := None;
    }
    EmitXsConfig(cs, StageAt(stage), xs, p.shaderIova[stage]);
  }

  /** The binning VS, configured in the VS slot ahead of the loop. */
  method EmitBinningVs(cs: Cs, p: ProgramInputs, binning: bool)
    requires ProgramOk(p) && UsesBinningVs(p, binning)
    requires cs.Valid() && cs.Room() >= |ConfigWordsUpTo(p, binning, 1)|
    modifies cs
    ensures cs.Valid() && cs.words == old(cs.words) + ConfigWordsUpTo(p, binning, 1)
  {
    ConfigWordsStep(p, binning, 0);
    ghost var blk := StageWords(p, binning, 0);
    assert ConfigWordsUpTo(p, binning, 1) == [] + blk;
    EmitXsConfig(cs, Vertex, Some(p.binningVariant), p.binningVsIova);
    assert [] + blk == blk;
  }

  /** The stage walk: the binning VS first when it is used, then the loop over the remaining stages. */
  method EmitStages(cs: Cs, p: ProgramInputs, binning: bool)
    requires ProgramOk(p)
    requires cs.Valid() && cs.Room() >= |ConfigWordsUpTo(p, binning, StageCount)|
    modifies cs
    ensures cs.Valid() && cs.words == old(cs.words) + ConfigWordsUpTo(p, binning, StageCount)
  {
    ghost var start := cs.words;
    ghost var total := |ConfigWordsUpTo(p, binning, StageCount)|;
    var stage := 0;
    if binning && p.variants[StageIndex(Geometry)].None? {
      LengthsGrow(p, binning, 1);
      EmitBinningVs(cs, p, binning);
      stage := 1;
    }
    LengthsGrow(p, binning, stage);
    while stage < StageCount
      invariant stage <= StageCount
      invariant cs.Valid() && cs.words == start + ConfigWordsUpTo(p, binning, stage)
      invariant cs.cap >= |start| + total
      invariant stage == 0 ==> !UsesBinningVs(p, binning)
    {
      EmitNextStage(cs, p, binning, stage, start);
      stage := stage + 1;
    }
  }

  /** One turn of the stage walk: the words so far grow by the next stage's block. */
  method EmitNextStage(cs: Cs, p: ProgramInputs, binning: bool, stage: nat, ghost start: seq<Word>)
    requires ProgramOk(p) && stage < StageCount && (stage == 0 ==> !UsesBinningVs(p, binning))
    requires cs.Valid() && cs.words == start + ConfigWordsUpTo(p, binning, stage)
    requires cs.cap >= |start| + |ConfigWordsUpTo(p, binning, StageCount)|
    modifies cs
    ensures cs.Valid() && cs.words == start + ConfigWordsUpTo(p, binning, stage + 1)
  {
    ghost var before := ConfigWordsUpTo(p, binning, stage);
    ghost var after := ConfigWordsUpTo(p, binning, stage + 1);
    ghost var blk := StageWords(p, binning, stage);
    ConfigWordsStep(p, binning, stage);
    LengthsGrow(p, binning, stage + 1);
    AppendFits(start, before, blk, after, |ConfigWordsUpTo(p, binning, StageCount)|);
    EmitStage(cs, p, binning, stage);
  }

  /** A block that extends a prefix within the reservation fits in what is left of it. */
  lemma AppendFits(start: seq<Word>, before: seq<Word>, blk: seq<Word>, after: seq<Word>, total: nat)
    requires after == before + blk && |after| <= total
    ensures |start| + |before| + |blk| <= |start| + total
    ensures start + before + blk == start + after
  {
  }

  method EmitProgramConfig(cs: Cs, p: ProgramInputs, binning: bool)
    requires ProgramOk(p)
    requires cs.Valid() && cs.Room() >= |ProgramConfigWords(p, binning)|
    modifies cs
    ensures cs.Valid() && cs.words == old(cs.words) + ProgramConfigWords(p, binning)
  {
    ghost var w0 := cs.words;
    ghost var all := ConfigWordsUpTo(p, binning, StageCount);
    ghost var tail := [Pkt4(SpHsUnknownA831, 1), Raw(0)];
    cs.EmitAll(InvalidateWords);
    EmitStages(cs, p, binning);
    cs.EmitAll([Pkt4(SpHsUnknownA831, 1), Raw(0)]);
    Assoc(w0 + InvalidateWords, all, tail);
    Assoc(w0, InvalidateWords, all + tail);
    Assoc(InvalidateWords, all, tail);
  }

  /** The blocks of the first `k` stages never take more room than all of them. */
  lemma {:induction false} LengthsGrow(p: ProgramInputs, binning: bool, k: nat)
    requires ProgramOk(p) && k <= StageCount
    ensures |ConfigWordsUpTo(p, binning, k)| <= |ConfigWordsUpTo(p, binning, StageCount)|
    decreases StageCount - k
  {
    if k < StageCount {
      LengthsGrow(p, binning, k + 1);
    }
  }
}
