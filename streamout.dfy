/**
 * tu6_setup_streamout: the VPC_SO_* registers that route the last geometry
 * stage's varyings to the transform-feedback buffers.  Each VPC location owns
 * one half of a VPC_SO_PROG register (A for even locations, B for odd ones);
 * the program is staged in a 128-entry array and only the first
 * `align(max_loc, 2) / 2` entries are emitted.
 */
module Streamout {
  import opened Hw
  import opened CmdStream
  import opened Linkage

  /**
   * One VPC_SO_PROG register: the writes OR-ed into its A half and into its B
   * half, in the order they happened.  A half written once holds the usual
   * EN | BUF | OFF value; a half written more than once is the OR of them.
   */
  datatype ProgHalves = ProgHalves(a: seq<SoTarget>, b: seq<SoTarget>)

  const EmptyProg: ProgHalves := ProgHalves([], [])

  /** `align(max_loc, 2) / 2`: the VPC_SO_PROG registers that are emitted. */
  function ProgCount(l: LinkState): (pc: nat)
    ensures l.maxLoc <= 2 * pc <= l.maxLoc + 1
  {
    DivRoundUp(l.maxLoc, 2)
  }

  /** The register of the shader output a stream output reads. */
  function SoRegid(outputs: seq<ShaderOutput>, o: StreamOutput): nat
    requires o.registerIndex < |outputs|
  {
    outputs[o.registerIndex].regid
  }

  /**
   * What the source needs of the linkage: every stream output with a valid
   * register is linked (its `debug_assert(idx < l->cnt)`), and every
   * component it writes lands inside the 128-entry staging array.
   */
  predicate SoInBounds(l: LinkState, outputs: seq<ShaderOutput>, so: seq<StreamOutput>)
  {
    && ValidStreamOutputs(outputs, so)
    && forall i :: 0 <= i < |so| && ValidReg(SoRegid(outputs, so[i])) ==>
         var idx := FindReg(l.vars, SoRegid(outputs, so[i]));
         idx < |l.vars| && FitsProg(so[i], l.vars[idx].loc)
  }

  /** Every location `o` writes, from a register linked at `varLoc`, has an entry in the staging array. */
  predicate FitsProg(o: StreamOutput, varLoc: nat)
  {
    o.numComponents == 0 || varLoc + o.startComponent + o.numComponents <= 2 * ProgEntries
  }

  /** Every stream output with a valid register is linked with all the components it streams. */
  predicate SoCovered(l: LinkState, outputs: seq<ShaderOutput>, so: seq<StreamOutput>)
  {
    && ValidStreamOutputs(outputs, so)
    && forall i :: 0 <= i < |so| && ValidReg(SoRegid(outputs, so[i])) ==>
         Covers(l, SoRegid(outputs, so[i]), SoMask(so[i]))
  }

  /** The write for component `c` of a stream output whose register sits at `varLoc`. */
  function OrInto(p: seq<ProgHalves>, loc: nat, t: SoTarget): (r: seq<ProgHalves>)
    requires |p| == ProgEntries && loc < 2 * ProgEntries
    ensures |r| == ProgEntries
  {
    var e := p[loc / 2];
    if loc % 2 == 1 then p[loc / 2 := e.(b := e.b + [t])] else p[loc / 2 := e.(a := e.a + [t])]
  }

  /** The inner loop of tu6_setup_streamout over the first `j` components of `o`. */
  function ComponentWrites(p: seq<ProgHalves>, o: StreamOutput, varLoc: nat, j: nat): (r: seq<ProgHalves>)
    requires |p| == ProgEntries && j <= o.numComponents
    requires FitsProg(o, varLoc)
    ensures |r| == ProgEntries
  {
    if j == 0 then p
    else
      OrInto(ComponentWrites(p, o, varLoc, j - 1), varLoc + j - 1 + o.startComponent,
             SoTarget(o.outputBuffer, (j - 1 + o.dstOffset) * 4))
  }

  /** The staging array `prog` after the first `n` stream outputs. */
  function ProgAfter(l: LinkState, outputs: seq<ShaderOutput>, so: seq<StreamOutput>, n: nat): (r: seq<ProgHalves>)
    requires SoInBounds(l, outputs, so) && n <= |so|
    ensures |r| == ProgEntries
  {
    if n == 0 then seq(ProgEntries, _ => EmptyProg)
    else
      var p := ProgAfter(l, outputs, so, n - 1);
      var o := so[n - 1];
      var regid := SoRegid(outputs, o);
      if !ValidReg(regid) then p
      else ComponentWrites(p, o, l.vars[FindReg(l.vars, regid)].loc, o.numComponents)
  }

  /** The component counts `ncomp` after the first `n` stream outputs. */
  function NcompAfter(outputs: seq<ShaderOutput>, so: seq<StreamOutput>, n: nat): (r: seq<nat>)
    requires ValidStreamOutputs(outputs, so) && n <= |so|
    ensures |r| == SoBuffers
  {
    if n == 0 then seq(SoBuffers, _ => 0)
    else
      var c := NcompAfter(outputs, so, n - 1);
      var o := so[n - 1];
      if !ValidReg(SoRegid(outputs, o)) then c
      else c[o.outputBuffer := c[o.outputBuffer] + o.numComponents]
  }

  /** The VPC_SO_NCOMP(i) register/value pairs for the first `n` buffers. */
  function NcompWords(ncomp: seq<nat>, n: nat): (ws: seq<Word>)
    requires n <= |ncomp|
    ensures |ws| == 2 * n
  {
    if n == 0 then [] else NcompWords(ncomp, n - 1) + [RegAddr(VpcSoNcomp(n - 1)), Raw(ncomp[n - 1])]
  }

  /** The VPC_SO_PROG register/value pairs for the first `n` entries. */
  function ProgWords(prog: seq<ProgHalves>, n: nat): (ws: seq<Word>)
    requires n <= |prog|
    ensures |ws| == 2 * n
  {
    if n == 0 then [] else ProgWords(prog, n - 1) + [RegAddr(VpcSoProg), Field(SoProgValue(prog[n - 1].a, prog[n - 1].b))]
  }

  /** The packet without stream-out: both control registers cleared. */
  const DisabledWords: seq<Word> :=
    [Pkt7(CpContextRegBunch, 4), RegAddr(VpcSoCntl), Raw(0), RegAddr(VpcSoBufCntl), Raw(0)]

  /** The words tu6_setup_streamout emits. */
  function StreamoutWords(l: LinkState, outputs: seq<ShaderOutput>, so: seq<StreamOutput>): seq<Word>
    requires SoInBounds(l, outputs, so) && ProgCount(l) <= ProgEntries
  {
    if |so| == 0 then DisabledWords
    else
      EnabledWords(NcompAfter(outputs, so, |so|), ProgAfter(l, outputs, so, |so|), ProgCount(l))
  }

  /**
   * Stream-out enabled: the buffer enables and component counts, then VPC_SO_CNTL and the first
   * `pc` program entries, all in one CP_CONTEXT_REG_BUNCH.
   */
  function EnabledWords(ncomp: seq<nat>, prog: seq<ProgHalves>, pc: nat): (ws: seq<Word>)
    requires |ncomp| == SoBuffers && pc <= |prog|
    ensures |ws| == 13 + 2 * pc
  {
    BufferWords(ncomp, pc) + SoCntlWords(prog, pc)
  }

  /** The bunch header, VPC_SO_BUF_CNTL with a buffer enabled when it gets components, and the counts. */
  function BufferWords(ncomp: seq<nat>, pc: nat): (ws: seq<Word>)
    requires |ncomp| == SoBuffers
  {
    [Pkt7(CpContextRegBunch, 12 + 2 * pc), RegAddr(VpcSoBufCntl),
     Field(SoBufCntl(true, ncomp[0] > 0, ncomp[1] > 0, ncomp[2] > 0, ncomp[3] > 0))]
    + NcompWords(ncomp, SoBuffers)
  }

  /** VPC_SO_CNTL, then the first `pc` program entries. */
  function SoCntlWords(prog: seq<ProgHalves>, pc: nat): (ws: seq<Word>)
    requires pc <= |prog|
  {
    [RegAddr(VpcSoCntl), Field(SoCntl(true))] + ProgWords(prog, pc)
  }

  // ---------------------------------------------------------------------------
  // Properties
  // ---------------------------------------------------------------------------

  /** CP_CONTEXT_REG_BUNCH's count is exactly the number of payload words that follow it. */
  lemma StreamoutPacketSize(l: LinkState, outputs: seq<ShaderOutput>, so: seq<StreamOutput>)
    requires SoInBounds(l, outputs, so) && ProgCount(l) <= ProgEntries
    ensures var ws := StreamoutWords(l, outputs, so);
            && |ws| >= 1 && ws[0].Pkt7? && ws[0].op == CpContextRegBunch
            && ws[0].cnt == |ws| - 1
            && (|so| > 0 ==> |ws| == 13 + 2 * ProgCount(l))
  {
  }

  /**
   * Buffer `b` is enabled in VPC_SO_BUF_CNTL exactly when some stream output
   * with a valid register writes at least one component to it.
   */
  lemma {:induction false} NcompEnabled(outputs: seq<ShaderOutput>, so: seq<StreamOutput>, n: nat, b: nat)
    requires ValidStreamOutputs(outputs, so) && n <= |so| && b < SoBuffers
    ensures NcompAfter(outputs, so, n)[b] > 0 <==>
            exists i :: 0 <= i < n && ValidReg(SoRegid(outputs, so[i])) && so[i].outputBuffer == b
                        && so[i].numComponents > 0
  {
    if n > 0 {
      NcompEnabled(outputs, so, n - 1, b);
      var o := so[n - 1];
      if ValidReg(SoRegid(outputs, o)) && o.outputBuffer == b && o.numComponents > 0 {
        assert NcompAfter(outputs, so, n)[b] > 0;
      }
    }
  }

  /** Every half of every entry of `q` starts with what `p` had there: later writes only OR more in. */
  predicate Grows(p: seq<ProgHalves>, q: seq<ProgHalves>)
  {
    |p| == |q| && forall e :: 0 <= e < |p| ==> p[e].a <= q[e].a && p[e].b <= q[e].b
  }

  lemma GrowsTrans(p: seq<ProgHalves>, q: seq<ProgHalves>, r: seq<ProgHalves>)
    requires Grows(p, q) && Grows(q, r)
    ensures Grows(p, r)
  {
    forall e | 0 <= e < |p|
      ensures p[e].a <= r[e].a && p[e].b <= r[e].b
    {
      assert p[e].a == q[e].a[..|p[e].a|] == r[e].a[..|p[e].a|];
      assert p[e].b == q[e].b[..|p[e].b|] == r[e].b[..|p[e].b|];
    }
  }

  /** One write only appends to the half it targets. */
  lemma OrIntoGrows(p: seq<ProgHalves>, loc: nat, t: SoTarget)
    requires |p| == ProgEntries && loc < 2 * ProgEntries
    ensures Grows(p, OrInto(p, loc, t))
  {
    var r := OrInto(p, loc, t);
    forall e | 0 <= e < |p|
      ensures p[e].a <= r[e].a && p[e].b <= r[e].b
    {
      if e == loc / 2 {
        assert p[e].a <= p[e].a + [t] && p[e].b <= p[e].b + [t];
      }
    }
  }

  lemma {:induction false} ComponentWritesGrow(p: seq<ProgHalves>, o: StreamOutput, varLoc: nat, j: nat)
    requires |p| == ProgEntries && j <= o.numComponents
    requires FitsProg(o, varLoc)
    ensures Grows(p, ComponentWrites(p, o, varLoc, j))
  {
    if j > 0 {
      ComponentWritesGrow(p, o, varLoc, j - 1);
      var q, r := ComponentWrites(p, o, varLoc, j - 1), ComponentWrites(p, o, varLoc, j);
      var loc, t := varLoc + j - 1 + o.startComponent, SoTarget(o.outputBuffer, (j - 1 + o.dstOffset) * 4);
      assert r == OrInto(q, loc, t);
      OrIntoGrows(q, loc, t);
      GrowsTrans(p, q, r);
    }
  }

  lemma {:induction false} ProgAfterGrow(l: LinkState, outputs: seq<ShaderOutput>, so: seq<StreamOutput>, n: nat, m: nat)
    requires SoInBounds(l, outputs, so) && n <= m <= |so|
    ensures Grows(ProgAfter(l, outputs, so, n), ProgAfter(l, outputs, so, m))
    decreases m
  {
    if n < m {
      ProgAfterGrow(l, outputs, so, n, m - 1);
      var o := so[m - 1];
      var regid := SoRegid(outputs, o);
      var p := ProgAfter(l, outputs, so, m - 1);
      if ValidReg(regid) {
        ComponentWritesGrow(p, o, l.vars[FindReg(l.vars, regid)].loc, o.numComponents);
      }
      GrowsTrans(ProgAfter(l, outputs, so, n), p, ProgAfter(l, outputs, so, m));
    }
  }

  /** The half of entry `loc / 2` that location `loc` owns. */
  function Half(p: seq<ProgHalves>, loc: nat): seq<SoTarget>
    requires loc < 2 * |p|
  {
    if loc % 2 == 1 then p[loc / 2].b else p[loc / 2].a
  }

  lemma InGrown(p: seq<ProgHalves>, q: seq<ProgHalves>, loc: nat, t: SoTarget)
    requires Grows(p, q) && loc < 2 * |p| && t in Half(p, loc)
    ensures t in Half(q, loc)
  {
    var h := Half(p, loc);
    var k :| 0 <= k < |h| && h[k] == t;
    assert Half(q, loc)[k] == t;
  }

  /**
   * Component `j` of stream output `i` is routed: the half of VPC_SO_PROG that
   * its VPC location owns (A for even, B for odd) carries its buffer and its
   * byte offset `(j + dst_offset) * 4`.
   */
  lemma ProgRoutesComponent(l: LinkState, outputs: seq<ShaderOutput>, so: seq<StreamOutput>, i: nat, j: nat)
    requires SoInBounds(l, outputs, so) && i < |so| && ValidReg(SoRegid(outputs, so[i]))
    requires j < so[i].numComponents
    ensures var loc := l.vars[FindReg(l.vars, SoRegid(outputs, so[i]))].loc + so[i].startComponent + j;
            && loc < 2 * ProgEntries
            && SoTarget(so[i].outputBuffer, (j + so[i].dstOffset) * 4) in Half(ProgAfter(l, outputs, so, |so|), loc)
  {
    var idx := FindReg(l.vars, SoRegid(outputs, so[i]));
    ProgAfterStep(l, outputs, so, i);
    ProgAfterGrow(l, outputs, so, i + 1, |so|);
    RoutedInGrown(ProgAfter(l, outputs, so, i), ProgAfter(l, outputs, so, |so|), so[i], l.vars[idx].loc, j);
  }

  /** A component written by `o` is still in its half of any array that grows from the result. */
  lemma RoutedInGrown(p: seq<ProgHalves>, q: seq<ProgHalves>, o: StreamOutput, varLoc: nat, j: nat)
    requires |p| == ProgEntries && j < o.numComponents && FitsProg(o, varLoc)
    requires Grows(ComponentWrites(p, o, varLoc, o.numComponents), q)
    ensures varLoc + o.startComponent + j < 2 * ProgEntries
    ensures SoTarget(o.outputBuffer, (j + o.dstOffset) * 4) in Half(q, varLoc + o.startComponent + j)
  {
    var loc := varLoc + o.startComponent + j;
    var t := SoTarget(o.outputBuffer, (j + o.dstOffset) * 4);
    var w := ComponentWrites(p, o, varLoc, j + 1);
    var all := ComponentWrites(p, o, varLoc, o.numComponents);
    ComponentWritesLast(p, o, varLoc, j);
    ComponentWritesPrefixGrow(p, o, varLoc, j + 1, o.numComponents);
    InGrown(w, all, loc, t);
    InGrown(all, q, loc, t);
  }

  /** Stream output `i`, when its register is valid, adds all its components to the staging array. */
  lemma ProgAfterStep(l: LinkState, outputs: seq<ShaderOutput>, so: seq<StreamOutput>, i: nat)
    requires SoInBounds(l, outputs, so) && i < |so| && ValidReg(SoRegid(outputs, so[i]))
    ensures var idx := FindReg(l.vars, SoRegid(outputs, so[i]));
      && idx < |l.vars| && FitsProg(so[i], l.vars[idx].loc)
      && ProgAfter(l, outputs, so, i + 1)
         == ComponentWrites(ProgAfter(l, outputs, so, i), so[i], l.vars[idx].loc, so[i].numComponents)
  {
  }

  /** Component `j` lands in the half its location owns. */
  lemma ComponentWritesLast(p: seq<ProgHalves>, o: StreamOutput, varLoc: nat, j: nat)
    requires |p| == ProgEntries && j < o.numComponents && FitsProg(o, varLoc)
    ensures varLoc + o.startComponent + j < 2 * ProgEntries
    ensures SoTarget(o.outputBuffer, (j + o.dstOffset) * 4)
              in Half(ComponentWrites(p, o, varLoc, j + 1), varLoc + o.startComponent + j)
  {
    var q := ComponentWrites(p, o, varLoc, j);
    var loc := varLoc + j + o.startComponent;
    var t := SoTarget(o.outputBuffer, (j + o.dstOffset) * 4);
    assert ComponentWrites(p, o, varLoc, j + 1) == OrInto(q, loc, t);
    assert Half(OrInto(q, loc, t), loc) == Half(q, loc) + [t];
  }

  /** Later components only add to what the first `j` wrote. */
  lemma {:induction false} ComponentWritesPrefixGrow(p: seq<ProgHalves>, o: StreamOutput, varLoc: nat, j: nat, m: nat)
    requires |p| == ProgEntries && j <= m <= o.numComponents
    requires FitsProg(o, varLoc)
    ensures Grows(ComponentWrites(p, o, varLoc, j), ComponentWrites(p, o, varLoc, m))
    decreases m
  {
    if j < m {
      ComponentWritesPrefixGrow(p, o, varLoc, j, m - 1);
      var q, r := ComponentWrites(p, o, varLoc, m - 1), ComponentWrites(p, o, varLoc, m);
      var loc, t := varLoc + m - 1 + o.startComponent, SoTarget(o.outputBuffer, (m - 1 + o.dstOffset) * 4);
      assert r == OrInto(q, loc, t);
      OrIntoGrows(q, loc, t);
      GrowsTrans(ComponentWrites(p, o, varLoc, j), q, r);
    }
  }

  /** Components written from `varLoc` up to `2 * e` leave entry `e` alone. */
  lemma {:induction false} ComponentWritesBelow(p: seq<ProgHalves>, o: StreamOutput, varLoc: nat, j: nat, e: nat)
    requires |p| == ProgEntries && j <= o.numComponents && FitsProg(o, varLoc) && e < ProgEntries
    requires varLoc + o.startComponent + o.numComponents <= 2 * e
    ensures ComponentWrites(p, o, varLoc, j)[e] == p[e]
  {
    if j > 0 {
      ComponentWritesBelow(p, o, varLoc, j - 1, e);
    }
  }

  /**
   * A stream output linked with all its components writes only locations
   * below `max_loc`, so below `2 * prog_count`.
   */
  lemma WritesBelowMaxLoc(l: LinkState, outputs: seq<ShaderOutput>, o: StreamOutput)
    requires o.registerIndex < |outputs| && o.startComponent + o.numComponents <= 4
    requires MaxLocCovers(l) && Covers(l, SoRegid(outputs, o), SoMask(o)) && o.numComponents > 0
    ensures var v := l.vars[FindReg(l.vars, SoRegid(outputs, o))];
            v.loc + o.startComponent + o.numComponents <= l.maxLoc
  {
    var v := l.vars[FindReg(l.vars, SoRegid(outputs, o))];
    var top := o.startComponent + o.numComponents - 1;
    assert top in SoMask(o);
    BelowLastBit(v.compmask, top);
  }

  /** When the linkage covers every stream output, `max_loc` bounds what the staging array must hold. */
  lemma SoCoveredInBounds(l: LinkState, outputs: seq<ShaderOutput>, so: seq<StreamOutput>)
    requires SoCovered(l, outputs, so) && MaxLocCovers(l) && l.maxLoc <= 2 * ProgEntries
    ensures SoInBounds(l, outputs, so) && ProgCount(l) <= ProgEntries
  {
    forall i | 0 <= i < |so| && ValidReg(SoRegid(outputs, so[i])) && so[i].numComponents > 0
      ensures FitsProg(so[i], l.vars[FindReg(l.vars, SoRegid(outputs, so[i]))].loc)
    {
      WritesBelowMaxLoc(l, outputs, so[i]);
    }
  }

  /**
   * Emitting only `align(max_loc, 2) / 2` entries drops nothing: when the
   * linkage covers every stream output, every entry past that count is still
   * empty.
   */
  lemma {:induction false} ProgEmptyAboveCount(l: LinkState, outputs: seq<ShaderOutput>, so: seq<StreamOutput>, n: nat, e: nat)
    requires SoInBounds(l, outputs, so) && SoCovered(l, outputs, so) && MaxLocCovers(l)
    requires n <= |so| && ProgCount(l) <= e < ProgEntries
    ensures ProgAfter(l, outputs, so, n)[e] == EmptyProg
  {
    if n > 0 {
      ProgEmptyAboveCount(l, outputs, so, n - 1, e);
      var o := so[n - 1];
      var regid := SoRegid(outputs, o);
      if ValidReg(regid) && o.numComponents > 0 {
        var p := ProgAfter(l, outputs, so, n - 1);
        var varLoc := l.vars[FindReg(l.vars, regid)].loc;
        WritesBelowMaxLoc(l, outputs, o);
        ComponentWritesBelow(p, o, varLoc, o.numComponents, e);
      }
    }
  }

  // ---------------------------------------------------------------------------
  // The emitter
  // ---------------------------------------------------------------------------

  /** The inner loop of tu6_setup_streamout: OR each component's routing into `prog`. */
  method WriteComponents(prog: array<ProgHalves>, o: StreamOutput, varLoc: nat)
    requires prog.Length == ProgEntries && FitsProg(o, varLoc)
    modifies prog
    ensures prog[..] == ComponentWrites(old(prog[..]), o, varLoc, o.numComponents)
  {
    var j := 0;
    while j < o.numComponents
      invariant j <= o.numComponents
      invariant prog[..] == ComponentWrites(old(prog[..]), o, varLoc, j)
    {
      var c := j + o.startComponent;
      var loc := varLoc + c;
      var off := j + o.dstOffset;
      if loc % 2 == 1 {
        prog[loc / 2] := prog[loc / 2].(b := prog[loc / 2].b + [SoTarget(o.outputBuffer, off * 4)]);
      } else {
        prog[loc / 2] := prog[loc / 2].(a := prog[loc / 2].a + [SoTarget(o.outputBuffer, off * 4)]);
      }
      j := j + 1;
    }
  }

  lemma NcompWordsStep(start: seq<Word>, ncomp: seq<nat>, n: nat)
    requires n < |ncomp|
    ensures start + NcompWords(ncomp, n + 1) == start + NcompWords(ncomp, n) + [RegAddr(VpcSoNcomp(n))] + [Raw(ncomp[n])]
  {
  }

  lemma ProgWordsStep(start: seq<Word>, prog: seq<ProgHalves>, n: nat)
    requires n < |prog|
    ensures start + ProgWords(prog, n + 1)
         == start + ProgWords(prog, n) + [RegAddr(VpcSoProg)] + [Field(SoProgValue(prog[n].a, prog[n].b))]
  {
  }

  /** The packet tu6_setup_streamout emits once `prog` and `ncomp` are filled in. */
  method EmitProgram(cs: Cs, prog: array<ProgHalves>, ncomp: array<nat>, pc: nat)
    requires prog.Length == ProgEntries && ncomp.Length == SoBuffers && pc <= ProgEntries
    requires cs.Valid() && cs.Room() >= 13 + 2 * pc
    modifies cs
    ensures cs.Valid()
    ensures cs.words == old(cs.words) + EnabledWords(ncomp[..], prog[..], pc)
  {
    ghost var start := cs.words;
    EmitBuffers(cs, ncomp, pc);
    EmitSoCntl(cs, prog, pc);
    Assoc(start, BufferWords(ncomp[..], pc), SoCntlWords(prog[..], pc));
  }

  method EmitBuffers(cs: Cs, ncomp: array<nat>, pc: nat)
    requires ncomp.Length == SoBuffers
    requires cs.Valid() && cs.Room() >= 11
    modifies cs
    ensures cs.Valid() && cs.words == old(cs.words) + BufferWords(ncomp[..], pc)
  {
    ghost var start := cs.words;
    ghost var head := [Pkt7(CpContextRegBunch, 12 + 2 * pc), RegAddr(VpcSoBufCntl),
                       Field(SoBufCntl(true, ncomp[0] > 0, ncomp[1] > 0, ncomp[2] > 0, ncomp[3] > 0))];
    cs.EmitPkt7(CpContextRegBunch, 12 + 2 * pc);
    cs.Emit(RegAddr(VpcSoBufCntl));
    cs.Emit(Field(SoBufCntl(true, ncomp[0] > 0, ncomp[1] > 0, ncomp[2] > 0, ncomp[3] > 0)));
    assert cs.words == start + head;
    EmitNcomp(cs, ncomp);
    Assoc(start, head, NcompWords(ncomp[..], SoBuffers));
  }

  method EmitSoCntl(cs: Cs, prog: array<ProgHalves>, pc: nat)
    requires pc <= prog.Length
    requires cs.Valid() && cs.Room() >= 2 + 2 * pc
    modifies cs
    ensures cs.Valid() && cs.words == old(cs.words) + SoCntlWords(prog[..], pc)
  {
    ghost var start := cs.words;
    ghost var mid := [RegAddr(VpcSoCntl), Field(SoCntl(true))];
    cs.Emit(RegAddr(VpcSoCntl));
    cs.Emit(Field(SoCntl(true)));
    assert cs.words == start + mid;
    EmitProg(cs, prog, pc);
    Assoc(start, mid, ProgWords(prog[..], pc));
  }

  /** The VPC_SO_NCOMP(i) pairs. */
  method EmitNcomp(cs: Cs, ncomp: array<nat>)
    requires ncomp.Length == SoBuffers
    requires cs.Valid() && cs.Room() >= 2 * SoBuffers
    modifies cs
    ensures cs.Valid() && cs.words == old(cs.words) + NcompWords(ncomp[..], SoBuffers)
  {
    var b := 0;
    while b < SoBuffers
      invariant b <= SoBuffers
      invariant cs.Valid() && cs.words == old(cs.words) + NcompWords(ncomp[..], b)
      invariant cs.Room() + 2 * b >= 2 * SoBuffers
    {
      NcompWordsStep(old(cs.words), ncomp[..], b);
      cs.Emit(RegAddr(VpcSoNcomp(b)));
      cs.Emit(Raw(ncomp[b]));
      b := b + 1;
    }
  }

  /** The first `pc` VPC_SO_PROG pairs. */
  method EmitProg(cs: Cs, prog: array<ProgHalves>, pc: nat)
    requires pc <= prog.Length
    requires cs.Valid() && cs.Room() >= 2 * pc
    modifies cs
    ensures cs.Valid() && cs.words == old(cs.words) + ProgWords(prog[..], pc)
  {
    var i := 0;
    while i < pc
      invariant i <= pc
      invariant cs.Valid() && cs.words == old(cs.words) + ProgWords(prog[..], i)
      invariant cs.Room() + 2 * i >= 2 * pc
    {
      ProgWordsStep(old(cs.words), prog[..], i);
      cs.Emit(RegAddr(VpcSoProg));
      cs.Emit(Field(SoProgValue(prog[i].a, prog[i].b)));
      i := i + 1;
    }
  }

  /** One iteration of the outer loop of tu6_setup_streamout. */
  method StageOutput(prog: array<ProgHalves>, ncomp: array<nat>, l: LinkState, outputs: seq<ShaderOutput>,
                     so: seq<StreamOutput>, i: nat)
    requires SoInBounds(l, outputs, so) && i < |so|
    requires prog[..] == ProgAfter(l, outputs, so, i) && ncomp[..] == NcompAfter(outputs, so, i)
    modifies prog, ncomp
    ensures prog[..] == ProgAfter(l, outputs, so, i + 1) && ncomp[..] == NcompAfter(outputs, so, i + 1)
  {
    var o := so[i];
    var regid := outputs[o.registerIndex].regid;
    if regid == InvalidReg {
      return;
    }
    ncomp[o.outputBuffer] := ncomp[o.outputBuffer] + o.numComponents;
    var idx := 0;
    while idx < |l.vars|
      invariant idx <= |l.vars|
      invariant FindRegFrom(l.vars, regid, idx) == FindReg(l.vars, regid)
    {
      if l.vars[idx].regid == regid {
        break;
      }
      idx := idx + 1;
    }
    WriteComponents(prog, o, l.vars[idx].loc);
  }

  /** The outer loop of tu6_setup_streamout: fill `prog` and `ncomp` from every stream output. */
  method FillProgram(l: LinkState, outputs: seq<ShaderOutput>, so: seq<StreamOutput>)
    returns (prog: array<ProgHalves>, ncomp: array<nat>)
    requires SoInBounds(l, outputs, so)
    ensures fresh(prog) && fresh(ncomp)
    ensures prog[..] == ProgAfter(l, outputs, so, |so|) && ncomp[..] == NcompAfter(outputs, so, |so|)
  {
    prog := new ProgHalves[ProgEntries](_ => EmptyProg);
    ncomp := new nat[SoBuffers](_ => 0);
    var i := 0;
    while i < |so|
      invariant i <= |so|
      invariant prog[..] == ProgAfter(l, outputs, so, i)
      invariant ncomp[..] == NcompAfter(outputs, so, i)
    {
      StageOutput(prog, ncomp, l, outputs, so, i);
      i := i + 1;
    }
  }

  /** tu6_setup_streamout */
  method SetupStreamout(cs: Cs, l: LinkState, outputs: seq<ShaderOutput>, so: seq<StreamOutput>)
    requires SoInBounds(l, outputs, so) && ProgCount(l) <= ProgEntries
    requires cs.Valid() && cs.Room() >= |StreamoutWords(l, outputs, so)|
    modifies cs
    ensures cs.Valid() && cs.words == old(cs.words) + StreamoutWords(l, outputs, so)
  {
    if |so| == 0 {
      cs.EmitPkt7(CpContextRegBunch, 4);
      cs.Emit(RegAddr(VpcSoCntl));
      cs.Emit(Raw(0));
      cs.Emit(RegAddr(VpcSoBufCntl));
      cs.Emit(Raw(0));
      return;
    }
    var prog, ncomp := FillProgram(l, outputs, so);
    EmitProgram(cs, prog, ncomp, ProgCount(l));
  }
}
