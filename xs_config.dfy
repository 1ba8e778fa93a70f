/**
 * Per-stage shader configuration (tu6_emit_xs_config) and the stage walk of tu6_emit_program
 * that decides which variant each stage gets in the binning and in the rendering pass.
 */
module XsConfig {
  import opened Hw
  import opened CmdStream
  import opened Consts

  /** The fields of an ir3 shader variant that tu6_emit_xs_config reads. */
  datatype Variant = Variant(
    maxReg: int,              // highest full register used, -1 when none
    maxHalfReg: int,          // highest half register used, -1 when none
    mergedRegs: bool,
    branchStack: nat,
    needPixLod: bool,
    needFineDerivatives: bool,
    totalIn: nat,             // varying components read (fragment shaders)
    bindlessTex: bool, bindlessSamp: bool, bindlessIbo: bool, bindlessUbo: bool,
    numSamp: nat,
    instrlen: nat,            // program length in 128-byte units
    constlen: nat,            // constant registers used, in vec4s
    immediateBase: nat,       // vec4 offset of the immediates in the constant file
    immediatesCount: nat,     // immediate dwords
    immediates: seq<nat>)     // the immediates, padded to whole vec4s

  predicate VariantOk(v: Variant)
  {
    v.maxReg >= -1 && v.maxHalfReg >= -1 && |v.immediates| >= 4 * DivRoundUp(v.immediatesCount, 4)
  }

  /** The address a stage's binary is fetched from: a 64-bit iova, aligned to one 128-byte instruction unit. */
  predicate IovaOk(iova: nat)
  {
    iova < 0x1_0000_0000_0000_0000 && iova % 128 == 0
  }

  /** A disabled stage: SP_xS_CONFIG and HLSQ_xS_CNTL cleared. */
  function OffWords(stage: Stage): seq<Word>
  {
    [Pkt4(SpXsConfig(stage), 1), Raw(0), Pkt4(HlsqXsCntl(stage), 1), Raw(0)]
  }

  /** SP_xS_CTRL_REG0; only a fragment shader sets VARYING (when it reads varyings) and the unknown bit 24. */
  function CtrlValue(stage: Stage, v: Variant): RegValue
    requires VariantOk(v)
  {
    XsCtrl(if stage == Geometry then TwoQuads else FourQuads,
           v.maxReg + 1, v.maxHalfReg + 1, v.mergedRegs, v.branchStack,
           v.needPixLod, v.needFineDerivatives,
           v.totalIn > 0 && stage == Fragment, stage == Fragment)
  }

  /** SP_xS_CONFIG: enabled, the bindless flags, and the sampler count as both NTEX and NSAMP. */
  function ConfigValue(v: Variant): RegValue
  {
    XsConfig(true, v.bindlessTex, v.bindlessSamp, v.bindlessIbo, v.bindlessUbo, v.numSamp, v.numSamp)
  }

  /** The vec4s of immediates uploaded, truncated to the variant's constant length; zero or negative means none. */
  function ImmediateUnits(v: Variant): int
  {
    ClampedUnits(DivRoundUp(v.immediatesCount, 4), v.immediateBase, v.constlen)
  }

  /** The immediates packet (the same packet tu6_emit_const builds), or nothing. */
  function ImmediateWords(stage: Stage, v: Variant): seq<Word>
    requires VariantOk(v)
  {
    var n := ImmediateUnits(v);
    if n <= 0 then [] else ConstWords(StageOpcode(stage), v.immediateBase, ShaderBlock(stage), n * 4, v.immediates)
  }

  /**
   * The enabled stage's registers: control, config and instruction length, constant length, binary
   * address. XsConfigEnabledIffBound pins their contents.
   */
  function RegWords(stage: Stage, v: Variant, iova: nat): (ws: seq<Word>)
    requires VariantOk(v) && IovaOk(iova)
    ensures |ws| == 10
  {
    [ Pkt4(SpXsCtrlReg0(stage), 1), Field(CtrlValue(stage, v)),
      Pkt4(SpXsConfig(stage), 2), Field(ConfigValue(v)), Raw(v.instrlen),
      Pkt4(HlsqXsCntl(stage), 1), Field(HlsqCntl(v.constlen, true)),
      Pkt4(SpXsObjStartLo(stage), 2) ] + QwordWords(iova)
  }

  /**
   * The packet that loads the program, `instrlen` units fetched indirectly from the binary address.
   * XsConfigEnabledIffBound pins its contents.
   */
  function FetchWords(stage: Stage, v: Variant, iova: nat): (ws: seq<Word>)
    requires IovaOk(iova)
    ensures |ws| == 4
  {
    [ Pkt7(StageOpcode(stage), 3), Field(LoadState0(0, St6Shader, Ss6Indirect, ShaderBlock(stage), v.instrlen)) ]
    + QwordWords(iova)
  }

  /** tu6_emit_xs_config for an enabled stage: registers, program fetch, then immediates. */
  function OnWords(stage: Stage, v: Variant, iova: nat): (ws: seq<Word>)
    requires VariantOk(v) && IovaOk(iova)
  {
    RegWords(stage, v, iova) + FetchWords(stage, v, iova) + ImmediateWords(stage, v)
  }

  predicate ConfigOk(xs: Option<Variant>, iova: nat)
  {
    xs.Some? ==> VariantOk(xs.value) && IovaOk(iova)
  }

  function XsConfigWords(stage: Stage, xs: Option<Variant>, iova: nat): seq<Word>
    requires ConfigOk(xs, iova)
  {
    if xs.None? then OffWords(stage) else OnWords(stage, xs.value, iova)
  }

  // ---------------------------------------------------------------------------
  // Properties
  // ---------------------------------------------------------------------------

  /**
   * The stage is enabled in both SP_xS_CONFIG and HLSQ_xS_CNTL exactly when a variant is bound,
   * and the program is fetched from the address SP_xS_OBJ_START points at.
   */
  lemma XsConfigEnabledIffBound(stage: Stage, xs: Option<Variant>, iova: nat)
    requires ConfigOk(xs, iova)
    ensures var ws := XsConfigWords(stage, xs, iova);
      && (xs.None? <==> |ws| == 4)
      && (xs.None? ==> ws[0] == Pkt4(SpXsConfig(stage), 1) && ws[1] == Raw(0)
                       && ws[2] == Pkt4(HlsqXsCntl(stage), 1) && ws[3] == Raw(0))
      && (xs.Some? ==>
            && ws[2] == Pkt4(SpXsConfig(stage), 2) && ws[3].f.enabled
            && ws[5] == Pkt4(HlsqXsCntl(stage), 1) && ws[6].f.enabled
            && ws[7] == Pkt4(SpXsObjStartLo(stage), 2)
            && ws[10].op == StageOpcode(stage) && ws[11].f.stateType == St6Shader
            && ws[11].f.numUnit == xs.value.instrlen
            && ws[8..10] == ws[12..14] == QwordWords(iova))
  {
    if xs.Some? {
      var v := xs.value;
      var ws := XsConfigWords(stage, xs, iova);
      var r, f, m := RegWords(stage, v, iova), FetchWords(stage, v, iova), ImmediateWords(stage, v);
      assert ws == r + f + m;
      assert ws[..10] == r;
      assert ws[10..14] == f;
    }
  }

  /**
   * The immediates are uploaded in whole vec4s and never past the constant length; they are
   * skipped only when there are none or no constant room after their offset, and all of them are
   * uploaded when the constant length covers them.
   */
  lemma ImmediatesUpload(stage: Stage, v: Variant)
    requires VariantOk(v)
    ensures var ws := ImmediateWords(stage, v);
      && (ws == [] <==> v.immediatesCount == 0 || v.constlen <= v.immediateBase)
      && (ws != [] ==> && ws[0] == Pkt7(StageOpcode(stage), |ws| - 1)
                       && ws[1].f.numUnit > 0 && v.immediateBase + ws[1].f.numUnit <= v.constlen
                       && |ws| == 4 + 4 * ws[1].f.numUnit)
      && (ws != [] && v.immediateBase + DivRoundUp(v.immediatesCount, 4) <= v.constlen ==>
            forall i :: 0 <= i < v.immediatesCount ==> ws[4 + i] == Raw(v.immediates[i]))
  {
    var units := DivRoundUp(v.immediatesCount, 4);
    assert units > 0 <==> v.immediatesCount > 0;
    var ws := ImmediateWords(stage, v);
    if ws != [] && v.immediateBase + units <= v.constlen {
      assert ImmediateUnits(v) == units;
      assert v.immediatesCount <= 4 * units;
    }
  }

  /** A geometry shader runs with the two-quad thread size; every other stage with four quads. */
  lemma ThreadSizeByStage(stage: Stage, v: Variant)
    requires VariantOk(v)
    ensures CtrlValue(stage, v).threadsize == TwoQuads <==> stage == Geometry
    ensures CtrlValue(stage, v).varying ==> stage == Fragment
  {
  }

  // ---------------------------------------------------------------------------
  // Emission
  // ---------------------------------------------------------------------------

  method EmitImmediates(cs: Cs, stage: Stage, v: Variant)
    requires VariantOk(v)
    requires cs.Valid() && cs.Room() >= |ImmediateWords(stage, v)|
    modifies cs
    ensures cs.Valid() && cs.words == old(cs.words) + ImmediateWords(stage, v)
  {
    var base := v.immediateBase;
    var size := DivRoundUp(v.immediatesCount, 4);
    var clamped := ClampedUnits(size, base, v.constlen);
    if clamped <= 0 {
      return;
    }
    var dwords := clamped * 4;
    WholeUnits(clamped, size, |v.immediates|);
    ghost var start := cs.words;
    EmitConstHeader(cs, StageOpcode(stage), base, ShaderBlock(stage), dwords);
    cs.EmitAll(RawWords(v.immediates[..dwords]));
    Assoc(start, ConstHeader(StageOpcode(stage), base, ShaderBlock(stage), dwords), RawWords(v.immediates[..dwords]));
  }

  /** A clamped count of vec4 units, as dwords: whole units that fit in the immediates. */
  lemma WholeUnits(units: nat, size: nat, available: nat)
    requires units <= size && 4 * size <= available
    ensures units * 4 <= available && (units * 4) % 4 == 0 && (units * 4) / 4 == units
  {
  }

  method EmitRegs(cs: Cs, stage: Stage, v: Variant, iova: nat)
    requires VariantOk(v) && IovaOk(iova)
    requires cs.Valid() && cs.Room() >= 10
    modifies cs
    ensures cs.Valid() && cs.words == old(cs.words) + RegWords(stage, v, iova)
  {
    cs.EmitPkt4(SpXsCtrlReg0(stage), 1);
    cs.Emit(Field(CtrlValue(stage, v)));
    cs.EmitPkt4(SpXsConfig(stage), 2);
    cs.Emit(Field(ConfigValue(v)));
    cs.Emit(Raw(v.instrlen));
    cs.EmitPkt4(HlsqXsCntl(stage), 1);
    cs.Emit(Field(HlsqCntl(v.constlen, true)));
    cs.EmitPkt4(SpXsObjStartLo(stage), 2);
    cs.EmitQw(iova);
  }

  method EmitFetch(cs: Cs, stage: Stage, v: Variant, iova: nat)
    requires IovaOk(iova)
    requires cs.Valid() && cs.Room() >= 4
    modifies cs
    ensures cs.Valid() && cs.words == old(cs.words) + FetchWords(stage, v, iova)
  {
    cs.EmitPkt7(StageOpcode(stage), 3);
    cs.Emit(Field(LoadState0(0, St6Shader, Ss6Indirect, ShaderBlock(stage), v.instrlen)));
    cs.EmitQw(iova);
  }

  method EmitXsConfig(cs: Cs, stage: Stage, xs: Option<Variant>, iova: nat)
    requires ConfigOk(xs, iova)
    requires cs.Valid() && cs.Room() >= |XsConfigWords(stage, xs, iova)|
    modifies cs
    ensures cs.Valid() && cs.words == old(cs.words) + XsConfigWords(stage, xs, iova)
  {
    if xs.None? {
      cs.EmitAll(OffWords(stage));
      return;
    }
    var v := xs.value;
    ghost var w0 := cs.words;
    ghost var a, b, c := RegWords(stage, v, iova), FetchWords(stage, v, iova), ImmediateWords(stage, v);
    EmitRegs(cs, stage, v, iova);
    EmitFetch(cs, stage, v, iova);
    EmitImmediates(cs, stage, v);
    assert cs.words == w0 + a + b + c;
    Assoc(w0 + a, b, c);
    Assoc(w0, a, b + c);
    Assoc(a, b, c);
  }
}
