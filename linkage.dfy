/**
 * The varying linkage of the last geometry stage (VS, DS or GS) and how
 * tu6_emit_vpc completes it: stream-out varyings that the fragment shader does
 * not read are added (tu6_link_streamout), layer, position and point size are
 * appended at the end, a dummy output keeps the hardware happy when nothing is
 * linked, and the result is packed into the SP_xS_OUT_REG / SP_xS_VPC_DST_REG
 * arrays.  The stream-out program (tu6_setup_streamout) is built from the same
 * linkage.
 *
 * The linkage the fragment shader's inputs produce (ir3_link_shaders) is an
 * input.  ir3_link_add, which lives in the shader compiler, is taken to append
 * one entry and raise `max_loc` to cover it; see `LinkAdd`.
 */
module Linkage {
  import opened Hw
  import opened CmdStream

  /** 0xff: "no location" for layer, position, point size and primitive id. */
  const NoLoc: nat := 0xff
  /** IR3_MAX_SO_OUTPUTS * 2: entries of the VPC_SO_PROG staging array. */
  const ProgEntries: nat := 128
  /** IR3_MAX_SO_BUFFERS */
  const SoBuffers: nat := 4
  /** The number of outputs SP_xS_OUT_REG / SP_xS_VPC_DST_REG can describe. */
  const MaxOutputs: nat := 32

  /** One entry of ir3_shader_linkage.var: the register, its component mask and its VPC location. */
  datatype LinkVar = LinkVar(regid: nat, compmask: Mask, loc: nat)

  /**
   * ir3_shader_linkage. `cnt` is `|vars|`; the `varmask` bitmap is the set of VPC locations
   * marked as used.
   */
  datatype LinkState = LinkState(vars: seq<LinkVar>, maxLoc: nat, primidLoc: nat, varmask: set<nat>)

  /** The varying slots this code distinguishes. */
  datatype VaryingSlot = SlotPos | SlotPsiz | SlotLayer | SlotOther(n: nat)

  /** One entry of ir3_shader_variant.outputs. */
  datatype ShaderOutput = ShaderOutput(slot: VaryingSlot, regid: nat)

  /** One entry of ir3_stream_output_info.output. */
  datatype StreamOutput = StreamOutput(registerIndex: nat, startComponent: nat, numComponents: nat,
                                       outputBuffer: nat, dstOffset: nat)

  /** Stream outputs name an existing shader output, fit in a vec4 and use one of the four buffers. */
  predicate ValidStreamOutputs(outputs: seq<ShaderOutput>, so: seq<StreamOutput>)
  {
    forall i :: 0 <= i < |so| ==>
      so[i].registerIndex < |outputs| && so[i].startComponent + so[i].numComponents <= 4
      && so[i].outputBuffer < SoBuffers
  }

  // ---------------------------------------------------------------------------
  // Invariants of a linkage
  // ---------------------------------------------------------------------------

  /** `max_loc` lies past every component any entry occupies. */
  predicate MaxLocCovers(l: LinkState)
  {
    forall i :: 0 <= i < |l.vars| ==> l.vars[i].loc + LastBit(l.vars[i].compmask) <= l.maxLoc
  }

  /** No register is linked twice. */
  predicate DistinctRegs(l: LinkState)
  {
    forall i, j :: 0 <= i < j < |l.vars| ==> l.vars[i].regid != l.vars[j].regid
  }

  /**
   * `r` is `l` with entries possibly appended and component masks possibly
   * widened: no entry moves, changes register or loses a component.
   */
  predicate Extends(l: LinkState, r: LinkState)
  {
    && |l.vars| <= |r.vars| && l.maxLoc <= r.maxLoc && l.primidLoc == r.primidLoc && l.varmask <= r.varmask
    && forall i :: 0 <= i < |l.vars| ==>
         r.vars[i].regid == l.vars[i].regid && r.vars[i].loc == l.vars[i].loc
         && l.vars[i].compmask <= r.vars[i].compmask
  }

  lemma ExtendsTrans(a: LinkState, b: LinkState, c: LinkState)
    requires Extends(a, b) && Extends(b, c)
    ensures Extends(a, c)
  {
  }

  /** A component that is set lies below util_last_bit. */
  lemma BelowLastBit(x: Mask, c: nat)
    requires c in x && c < 32
    ensures c < LastBit(x)
  {
  }

  /** util_last_bit((1 << n) - 1) == n. */
  lemma LastBitLowMask(n: nat)
    requires n <= 32
    ensures LastBit(LowMask(n)) == n
  {
    if n > 0 {
      assert n - 1 in LowMask(n);
    }
  }

  // ---------------------------------------------------------------------------
  // ir3_link_add and the search loops
  // ---------------------------------------------------------------------------

  /** The `n` locations from `loc` on. */
  function Span(loc: nat, n: nat): (r: set<nat>)
    ensures forall j :: j in r <==> loc <= j < loc + n
  {
    if n == 0 then {} else Span(loc, n - 1) + {loc + n - 1}
  }

  /**
   * ir3_link_add: append an entry, mark the locations up to its last component in `varmask`,
   * and raise `max_loc` past them.
   */
  function LinkAdd(l: LinkState, regid: nat, compmask: Mask, loc: nat): (r: LinkState)
    ensures Extends(l, r) && |r.vars| == |l.vars| + 1
    ensures r.vars[|l.vars|] == LinkVar(regid, compmask, loc)
    ensures MaxLocCovers(l) ==> MaxLocCovers(r)
    ensures forall j :: loc <= j < loc + LastBit(compmask) ==> j in r.varmask
    ensures forall j :: j in r.varmask ==> j in l.varmask || loc <= j < loc + LastBit(compmask)
  {
    LinkState(l.vars + [LinkVar(regid, compmask, loc)], Max(l.maxLoc, loc + LastBit(compmask)), l.primidLoc,
              l.varmask + Span(loc, LastBit(compmask)))
  }

  /** The linear search `for (idx = i; idx < cnt; idx++) if (var[idx].regid == regid) break;`. */
  function FindRegFrom(vars: seq<LinkVar>, regid: nat, i: nat): (idx: nat)
    requires i <= |vars|
    ensures i <= idx <= |vars|
    ensures idx < |vars| ==> vars[idx].regid == regid
    ensures forall j :: i <= j < idx ==> vars[j].regid != regid
    decreases |vars| - i
  {
    if i == |vars| then i
    else if vars[i].regid == regid then i
    else FindRegFrom(vars, regid, i + 1)
  }

  /** The index of the first entry linked to `regid`, or `cnt` when there is none. */
  function FindReg(vars: seq<LinkVar>, regid: nat): nat
  {
    FindRegFrom(vars, regid, 0)
  }

  /** Appending and widening keep the first entry of a linked register where it was. */
  lemma {:induction false} FindRegExtends(l: LinkState, r: LinkState, regid: nat)
    requires Extends(l, r) && FindReg(l.vars, regid) < |l.vars|
    ensures FindReg(r.vars, regid) == FindReg(l.vars, regid)
  {
    var idx := FindReg(l.vars, regid);
    var k := 0;
    while k < idx
      invariant k <= idx
      invariant FindRegFrom(r.vars, regid, k) == FindRegFrom(r.vars, regid, 0)
    {
      k := k + 1;
    }
  }

  /** MAX2 of `loc + 4` over the first `n` entries: the first location past those entries' vec4s. */
  function NextLocBelow(vars: seq<LinkVar>, n: nat): (r: nat)
    requires n <= |vars|
    ensures forall j :: 0 <= j < n ==> vars[j].loc + 4 <= r
  {
    if n == 0 then 0 else Max(NextLocBelow(vars, n - 1), vars[n - 1].loc + 4)
  }

  /** `regid` is linked and its entry has every component of `mask`. */
  predicate Covers(l: LinkState, regid: nat, mask: Mask)
  {
    var idx := FindReg(l.vars, regid);
    idx < |l.vars| && mask <= l.vars[idx].compmask
  }

  lemma CoversExtends(l: LinkState, r: LinkState, regid: nat, mask: Mask)
    requires Extends(l, r) && Covers(l, regid, mask)
    ensures Covers(r, regid, mask)
  {
    FindRegExtends(l, r, regid);
  }

  // ---------------------------------------------------------------------------
  // tu6_link_streamout
  // ---------------------------------------------------------------------------

  /** The component mask a stream output needs: `(1 << (num_components + start_component)) - 1`. */
  function SoMask(o: StreamOutput): Mask
  {
    LowMask(o.numComponents + o.startComponent)
  }

  /** Position and point size are appended later by tu6_emit_vpc, so stream-out skips them. */
  predicate SkippedSlot(s: VaryingSlot)
  {
    s == SlotPsiz || s == SlotPos
  }

  /**
   * Widen entry `idx` to `compmask` when it lacks a component, raising `max_loc` to match;
   * `varmask` is left as it was.
   */
  function Widen(l: LinkState, idx: nat, compmask: Mask): (r: LinkState)
    requires idx < |l.vars|
    ensures Extends(l, r) && |r.vars| == |l.vars|
    ensures compmask <= r.vars[idx].compmask
    ensures MaxLocCovers(l) ==> MaxLocCovers(r)
    ensures r.varmask == l.varmask
  {
    var v := l.vars[idx];
    if compmask - v.compmask != {} then
      var w := v.(compmask := v.compmask + compmask);
      l.(vars := l.vars[idx := w], maxLoc := Max(l.maxLoc, w.loc + LastBit(w.compmask)))
    else
      assert forall c :: c in compmask ==> c in v.compmask by {
        forall c | c in compmask ensures c in v.compmask {
          assert c !in compmask - v.compmask;
        }
      }
      l
  }

  /** One iteration of the loop in tu6_link_streamout. */
  function StreamoutStep(l: LinkState, outputs: seq<ShaderOutput>, o: StreamOutput): LinkState
    requires o.registerIndex < |outputs|
  {
    var out := outputs[o.registerIndex];
    if SkippedSlot(out.slot) then l
    else
      var idx := FindReg(l.vars, out.regid);
      var l1 := if idx == |l.vars| then LinkAdd(l, out.regid, SoMask(o), NextLocBelow(l.vars, |l.vars|)) else l;
      Widen(l1, idx, SoMask(o))
  }

  /** tu6_link_streamout over the first `n` stream outputs. */
  function LinkStreamoutSpec(l: LinkState, outputs: seq<ShaderOutput>, so: seq<StreamOutput>, n: nat): LinkState
    requires ValidStreamOutputs(outputs, so) && n <= |so|
  {
    if n == 0 then l
    else StreamoutStep(LinkStreamoutSpec(l, outputs, so, n - 1), outputs, so[n - 1])
  }

  /**
   * One stream output: the linkage only grows, keeps its invariants, and
   * afterwards links the output's register with every component it streams.
   * An entry it appends sits past the vec4 of every entry already present.
   */
  lemma StreamoutStepProps(l: LinkState, outputs: seq<ShaderOutput>, o: StreamOutput)
    requires o.registerIndex < |outputs|
    ensures var r := StreamoutStep(l, outputs, o);
            && Extends(l, r)
            && (MaxLocCovers(l) ==> MaxLocCovers(r))
            && (DistinctRegs(l) ==> DistinctRegs(r))
            && (!SkippedSlot(outputs[o.registerIndex].slot) ==> Covers(r, outputs[o.registerIndex].regid, SoMask(o)))
            && |r.vars| <= |l.vars| + 1
            && (|r.vars| > |l.vars| ==> forall j :: 0 <= j < |l.vars| ==> l.vars[j].loc + 4 <= r.vars[|l.vars|].loc)
  {
    var out := outputs[o.registerIndex];
    if !SkippedSlot(out.slot) {
      var idx := FindReg(l.vars, out.regid);
      var l1 := if idx == |l.vars| then LinkAdd(l, out.regid, SoMask(o), NextLocBelow(l.vars, |l.vars|)) else l;
      var r := Widen(l1, idx, SoMask(o));
      assert FindReg(l1.vars, out.regid) == idx by {
        if idx == |l.vars| {
          var k := 0;
          while k < idx
            invariant k <= idx
            invariant FindRegFrom(l1.vars, out.regid, k) == FindRegFrom(l1.vars, out.regid, 0)
          {
            k := k + 1;
          }
        }
      }
      FindRegExtends(l1, r, out.regid);
      ExtendsTrans(l, l1, r);
    }
  }

  /**
   * tu6_link_streamout as a whole: every stream output that is not position
   * or point size ends up linked with all of its components, entries already
   * linked keep their register and location, and `max_loc` still covers
   * every entry.
   */
  lemma {:induction false} LinkStreamoutProps(l: LinkState, outputs: seq<ShaderOutput>, so: seq<StreamOutput>, n: nat)
    requires ValidStreamOutputs(outputs, so) && n <= |so|
    ensures var r := LinkStreamoutSpec(l, outputs, so, n);
            && Extends(l, r)
            && (MaxLocCovers(l) ==> MaxLocCovers(r))
            && (DistinctRegs(l) ==> DistinctRegs(r))
            && |r.vars| <= |l.vars| + n
            && forall i :: 0 <= i < n && !SkippedSlot(outputs[so[i].registerIndex].slot) ==>
                 Covers(r, outputs[so[i].registerIndex].regid, SoMask(so[i]))
  {
    if n > 0 {
      var prev := LinkStreamoutSpec(l, outputs, so, n - 1);
      var r := LinkStreamoutSpec(l, outputs, so, n);
      LinkStreamoutProps(l, outputs, so, n - 1);
      StreamoutStepProps(prev, outputs, so[n - 1]);
      ExtendsTrans(l, prev, r);
      forall i | 0 <= i < n && !SkippedSlot(outputs[so[i].registerIndex].slot)
        ensures Covers(r, outputs[so[i].registerIndex].regid, SoMask(so[i]))
      {
        if i < n - 1 {
          CoversExtends(prev, r, outputs[so[i].registerIndex].regid, SoMask(so[i]));
        }
      }
    }
  }

  // ---------------------------------------------------------------------------
  // The tail of tu6_emit_vpc: layer, position, point size, dummy output
  // ---------------------------------------------------------------------------

  /** The VPC locations of layer, position and point size (0xff for an output the shader lacks). */
  datatype OutputLocs = OutputLocs(layerLoc: nat, positionLoc: nat, psizeLoc: nat)

  /** `if (regid != regid(63, 0)) { loc = max_loc; ir3_link_add(l, regid, mask, max_loc); }` */
  function AppendIfValid(l: LinkState, regid: nat, compmask: Mask): (LinkState, nat)
  {
    if ValidReg(regid) then (LinkAdd(l, regid, compmask, l.maxLoc), l.maxLoc) else (l, NoLoc)
  }

  /** Layer (0x1), position (0xf) and point size (0x1), appended in that order at `max_loc`. */
  function PositionOutputs(l: LinkState, layerRegid: nat, positionRegid: nat, pointsizeRegid: nat)
    : (LinkState, OutputLocs)
  {
    var (l1, layerLoc) := AppendIfValid(l, layerRegid, LowMask(1));
    var (l2, positionLoc) := AppendIfValid(l1, positionRegid, LowMask(4));
    var (l3, psizeLoc) := AppendIfValid(l2, pointsizeRegid, LowMask(1));
    (l3, OutputLocs(layerLoc, positionLoc, psizeLoc))
  }

  function Count(b: bool, n: nat): nat
  {
    if b then n else 0
  }

  /**
   * Layer, position and point size are packed one after the other from the
   * old `max_loc`, occupy the last entries of the linkage, and `max_loc`
   * grows by exactly the components they take (1, 4 and 1).  An output the
   * shader lacks gets location 0xff and no entry.
   */
  lemma PositionOutputsLayout(l: LinkState, layerRegid: nat, positionRegid: nat, pointsizeRegid: nat)
    ensures var (r, locs) := PositionOutputs(l, layerRegid, positionRegid, pointsizeRegid);
            var hasLayer := ValidReg(layerRegid);
            var hasPos := ValidReg(positionRegid);
            var hasPsize := ValidReg(pointsizeRegid);
            && Extends(l, r) && (MaxLocCovers(l) ==> MaxLocCovers(r))
            && |r.vars| == |l.vars| + Count(hasLayer, 1) + Count(hasPos, 1) + Count(hasPsize, 1)
            && r.maxLoc == l.maxLoc + Count(hasLayer, 1) + Count(hasPos, 4) + Count(hasPsize, 1)
            && locs.layerLoc == (if hasLayer then l.maxLoc else NoLoc)
            && locs.positionLoc == (if hasPos then l.maxLoc + Count(hasLayer, 1) else NoLoc)
            && locs.psizeLoc == (if hasPsize then l.maxLoc + Count(hasLayer, 1) + Count(hasPos, 4) else NoLoc)
            && (hasPos ==> r.vars[|l.vars| + Count(hasLayer, 1)] == LinkVar(positionRegid, LowMask(4), locs.positionLoc))
            && (hasPsize ==> r.vars[|r.vars| - 1] == LinkVar(pointsizeRegid, LowMask(1), locs.psizeLoc))
  {
    LastBitLowMask(1);
    LastBitLowMask(4);
    var (l1, _) := AppendIfValid(l, layerRegid, LowMask(1));
    var (l2, _) := AppendIfValid(l1, positionRegid, LowMask(4));
    var (l3, _) := AppendIfValid(l2, pointsizeRegid, LowMask(1));
    ExtendsTrans(l, l1, l2);
    ExtendsTrans(l, l2, l3);
  }

  /** The dummy output `ir3_link_add(l, 0, 0x1, max_loc)` when nothing is linked. */
  function DummyIfEmpty(l: LinkState): (r: LinkState)
    ensures |r.vars| >= 1
    ensures |l.vars| > 0 ==> r == l
    ensures |l.vars| == 0 ==> r.vars == [LinkVar(0, LowMask(1), l.maxLoc)]
  {
    if |l.vars| == 0 then LinkAdd(l, 0, LowMask(1), l.maxLoc) else l
  }

  // ---------------------------------------------------------------------------
  // The linkage as an object: the in-place updates of the source
  // ---------------------------------------------------------------------------

  class Linkage {
    var vars: seq<LinkVar>
    var maxLoc: nat
    var primidLoc: nat
    var varmask: set<nat>

    function State(): LinkState
      reads this
    {
      LinkState(vars, maxLoc, primidLoc, varmask)
    }

    /** The linkage ir3_link_shaders left (`{ .primid_loc = 0xff }` when there is no fragment shader). */
    constructor (init: LinkState)
      ensures State() == init
    {
      vars := init.vars;
      maxLoc := init.maxLoc;
      primidLoc := init.primidLoc;
      varmask := init.varmask;
    }

    /** ir3_link_add */
    method Add(regid: nat, compmask: Mask, loc: nat)
      modifies this
      ensures State() == LinkAdd(old(State()), regid, compmask, loc)
    {
      vars := vars + [LinkVar(regid, compmask, loc)];
      maxLoc := Max(maxLoc, loc + LastBit(compmask));
      varmask := varmask + Span(loc, LastBit(compmask));
    }

    /** tu6_link_streamout */
    method LinkStreamout(outputs: seq<ShaderOutput>, so: seq<StreamOutput>)
      requires ValidStreamOutputs(outputs, so)
      modifies this
      ensures State() == LinkStreamoutSpec(old(State()), outputs, so, |so|)
    {
      var i := 0;
      while i < |so|
        invariant i <= |so|
        invariant State() == LinkStreamoutSpec(old(State()), outputs, so, i)
      {
        var o := so[i];
        var k := o.registerIndex;
        if SkippedSlot(outputs[k].slot) {
          i := i + 1;
          continue;
        }
        StreamoutOne(outputs, o);
        i := i + 1;
      }
    }

    /**
     * The search of tu6_link_streamout: the first entry linked to `regid` (or the entry count),
     * and one past the highest vec4 of the entries before it.
     */
    method FindLinked(regid: nat) returns (idx: nat, nextloc: nat)
      ensures idx == FindReg(vars, regid) && nextloc == NextLocBelow(vars, idx)
    {
      idx := 0;
      nextloc := 0;
      while idx < |vars|
        invariant idx <= |vars|
        invariant FindRegFrom(vars, regid, idx) == FindReg(vars, regid)
        invariant nextloc == NextLocBelow(vars, idx)
      {
        if vars[idx].regid == regid {
          break;
        }
        nextloc := Max(nextloc, vars[idx].loc + 4);
        idx := idx + 1;
      }
    }

    /** Widen entry `idx` in place when it lacks a component of `compmask`. */
    method WidenEntry(idx: nat, compmask: Mask)
      requires idx < |vars|
      modifies this
      ensures State() == Widen(old(State()), idx, compmask)
    {
      var v := vars[idx];
      if compmask - v.compmask != {} {
        vars := vars[idx := v.(compmask := v.compmask + compmask)];
        maxLoc := Max(maxLoc, vars[idx].loc + LastBit(vars[idx].compmask));
      }
    }

    /** The body of the loop in tu6_link_streamout, for an output that is not position or point size. */
    method StreamoutOne(outputs: seq<ShaderOutput>, o: StreamOutput)
      requires o.registerIndex < |outputs| && !SkippedSlot(outputs[o.registerIndex].slot)
      modifies this
      ensures State() == StreamoutStep(old(State()), outputs, o)
    {
      var compmask := LowMask(o.numComponents + o.startComponent);
      var regid := outputs[o.registerIndex].regid;
      var idx, nextloc := FindLinked(regid);
      if idx == |vars| {
        Add(regid, compmask, nextloc);
      }
      WidenEntry(idx, compmask);
    }

    /** The three appends of tu6_emit_vpc; returns the locations it records. */
    method AddPositionOutputs(layerRegid: nat, positionRegid: nat, pointsizeRegid: nat) returns (locs: OutputLocs)
      modifies this
      ensures (State(), locs) == PositionOutputs(old(State()), layerRegid, positionRegid, pointsizeRegid)
    {
      var layerLoc, positionLoc, psizeLoc := NoLoc, NoLoc, NoLoc;
      if layerRegid != InvalidReg {
        layerLoc := maxLoc;
        Add(layerRegid, LowMask(1), maxLoc);
      }
      if positionRegid != InvalidReg {
        positionLoc := maxLoc;
        Add(positionRegid, LowMask(4), maxLoc);
      }
      if pointsizeRegid != InvalidReg {
        psizeLoc := maxLoc;
        Add(pointsizeRegid, LowMask(1), maxLoc);
      }
      locs := OutputLocs(layerLoc, positionLoc, psizeLoc);
    }

    /** `if (linkage.cnt == 0) ir3_link_add(&linkage, 0, 0x1, linkage.max_loc);` */
    method AddDummyIfEmpty()
      modifies this
      ensures State() == DummyIfEmpty(old(State()))
    {
      if |vars| == 0 {
        Add(0, LowMask(1), maxLoc);
      }
    }
  }
}
