/**
 * Interpolation and point-sprite replacement modes of the fragment shader's varyings
 * (tu6_vpc_varying_mode and tu6_emit_vpc_varying_modes): two bits per varying slot, packed into
 * two arrays of eight 32-bit registers.
 */
module Varying {
  import opened Hw
  import opened CmdStream

  // ---------------------------------------------------------------------------
  // 32-bit words as bits
  // ---------------------------------------------------------------------------

  /** A register word or an 8-bit mode, bit 0 first. */
  type Bits = seq<bool>

  function Zeros(n: nat): (r: Bits)
    ensures |r| == n && forall i :: 0 <= i < n ==> !r[i]
  {
    seq(n, i => false)
  }

  /** `a | b` */
  function Or(a: Bits, b: Bits): (r: Bits)
    requires |a| == |b|
    ensures |r| == |a| && forall i :: 0 <= i < |a| ==> r[i] == (a[i] || b[i])
  {
    seq(|a|, i requires 0 <= i < |a| => a[i] || b[i])
  }

  /** `m << s` of an 8-bit mode promoted to 32 bits: bits moved past bit 31 are lost. */
  function Shl(m: Bits, s: nat): (r: Bits)
    requires |m| == 8 && s < 32
    ensures |r| == 32 && forall i :: 0 <= i < 32 ==> r[i] == (s <= i < s + 8 && m[i - s])
  {
    seq(32, i requires 0 <= i < 32 => s <= i < s + 8 && m[i - s])
  }

  /** `m >> s` of an 8-bit mode promoted to 32 bits. */
  function Shr(m: Bits, s: nat): (r: Bits)
    requires |m| == 8
    ensures |r| == 32 && forall i :: 0 <= i < 32 ==> r[i] == (i + s < 8 && m[i + s])
  {
    seq(32, i requires 0 <= i < 32 => i + s < 8 && m[i + s])
  }

  /** The unsigned value of a word. */
  function Value(w: Bits): nat
  {
    if w == [] then 0 else (if w[0] then 1 else 0) + 2 * Value(w[1..])
  }

  /** A 2-bit code `c` placed at bit `s` of an 8-bit mode: `c << s`. */
  function Code(c: nat, s: nat): (r: Bits)
    requires c < 4 && s + 2 <= 8
    ensures |r| == 8
  {
    seq(8, i => (i == s && c % 2 == 1) || (i == s + 1 && c / 2 == 1))
  }

  /** The 2-bit code in slot `j` of a mode or word. */
  function SlotCode(m: Bits, j: nat): nat
    requires 2 * j + 1 < |m|
  {
    (if m[2 * j] then 1 else 0) + (if m[2 * j + 1] then 2 else 0)
  }

  // ---------------------------------------------------------------------------
  // The mode of one input
  // ---------------------------------------------------------------------------

  const InterpSmooth: nat := 0
  const InterpFlat: nat := 1
  const InterpZero: nat := 2
  const InterpOne: nat := 3
  const ReplNone: nat := 0
  const ReplS: nat := 1
  const ReplT: nat := 2

  /** Whether an input is the point coordinate (VARYING_SLOT_PNTC). */
  datatype InputSlot = Pntc | OtherSlot

  /**
   * A fragment-shader input: its slot, the components read (bit positions 0..3), its
   * interpolation qualifier, whether it must be flat-shaded anyway, its first varying location,
   * and whether ir3_next_varying visits it.
   */
  datatype FsInput = FsInput(slot: InputSlot, compmask: Mask, flat: bool, rasterflat: bool, inloc: nat,
                             varying: bool)

  /** The modes of one varying slot: interpolation and sprite replacement. */
  datatype SlotMode = SlotMode(interp: nat, repl: nat)

  /**
   * The modes of the slots an input occupies. Varyings are packed: each component read takes
   * the next slot. Point-coordinate components are S, T, 0 and 1; flat inputs are flat in every
   * slot; other inputs take no bits (smooth, no replacement).
   */
  function SlotModes(input: FsInput): (ms: seq<SlotMode>)
    ensures |ms| <= 4
    ensures forall j :: 0 <= j < |ms| ==> ms[j].interp < 4 && ms[j].repl < 4
  {
    if input.slot == Pntc then PackedSlots(input.compmask, 4, true)
    else if input.flat || input.rasterflat then PackedSlots(input.compmask, 4, false)
    else []
  }

  /** The mode of component `k` of a point coordinate (`pntc`) or of a flat input. */
  function ComponentMode(k: nat, pntc: bool): (m: SlotMode)
    requires k < 4
    ensures m.interp < 4 && m.repl < 4
  {
    if !pntc then SlotMode(InterpFlat, ReplNone)
    else if k == 0 then SlotMode(InterpSmooth, ReplS)
    else if k == 1 then SlotMode(InterpSmooth, ReplT)
    else if k == 2 then SlotMode(InterpZero, ReplNone)
    else SlotMode(InterpOne, ReplNone)
  }

  /** One slot per component below `k` that is read, in component order. */
  function PackedSlots(c: Mask, k: nat, pntc: bool): (ms: seq<SlotMode>)
    requires k <= 4
    ensures |ms| <= k
    ensures forall j :: 0 <= j < |ms| ==> ms[j].interp < 4 && ms[j].repl < 4
  {
    if k == 0 then [] else PackedSlots(c, k - 1, pntc) + (if k - 1 in c then [ComponentMode(k - 1, pntc)] else [])
  }

  /** The 2-bit code of a slot's interpolation (`interp`) or replacement (`!interp`) mode. */
  function CodeOf(m: SlotMode, interp: bool): nat
  {
    if interp then m.interp else m.repl
  }

  /** A 2-bit code, low bit first. */
  function Pair(c: nat): (r: Bits)
    ensures |r| == 2
  {
    [c % 2 == 1, c / 2 == 1]
  }

  /** The codes of slots `ms`, packed from bit 0. */
  function SlotBits(ms: seq<SlotMode>, interp: bool): (m: Bits)
    ensures |m| == 2 * |ms|
  {
    if ms == [] then [] else SlotBits(ms[..|ms| - 1], interp) + Pair(CodeOf(ms[|ms| - 1], interp))
  }

  /** The 8-bit interpolation (`interp`) or replacement (`!interp`) mode of slots `ms`. */
  function ModeBits(ms: seq<SlotMode>, interp: bool): (m: Bits)
    requires |ms| <= 4
    ensures |m| == 8
    ensures forall i :: 2 * |ms| <= i < 8 ==> !m[i]
  {
    SlotBits(ms, interp) + Zeros(8 - 2 * |ms|)
  }

  /** Slot `j` of a mode holds the code of `ms[j]`. */
  lemma {:induction false} ModeBitsAt(ms: seq<SlotMode>, interp: bool, j: nat)
    requires |ms| <= 4 && j < |ms|
    ensures ModeBits(ms, interp)[2 * j .. 2 * j + 2] == Pair(CodeOf(ms[j], interp))
  {
    var k := |ms| - 1;
    var pre := ms[..k];
    assert SlotBits(ms, interp) == SlotBits(pre, interp) + Pair(CodeOf(ms[k], interp));
    if j < k {
      ModeBitsAt(pre, interp, j);
      assert pre[j] == ms[j];
      assert ModeBits(pre, interp)[2 * j .. 2 * j + 2] == SlotBits(pre, interp)[2 * j .. 2 * j + 2];
      assert ModeBits(ms, interp)[2 * j .. 2 * j + 2] == SlotBits(pre, interp)[2 * j .. 2 * j + 2];
    } else {
      assert ModeBits(ms, interp)[2 * j .. 2 * j + 2] == SlotBits(ms, interp)[2 * j .. 2 * j + 2];
    }
  }

  /** Placing the next slot's code at bit `2 * |ms|` extends the mode by that slot. */
  lemma AppendSlot(acc: Bits, ms: seq<SlotMode>, m: SlotMode, interp: bool)
    requires |ms| < 4 && CodeOf(m, interp) < 4
    requires acc == ModeBits(ms, interp)
    ensures Or(acc, Code(CodeOf(m, interp), 2 * |ms|)) == ModeBits(ms + [m], interp)
  {
    var r := Or(acc, Code(CodeOf(m, interp), 2 * |ms|));
    var e := ModeBits(ms + [m], interp);
    assert (ms + [m])[..|ms|] == ms;
    assert SlotBits(ms + [m], interp) == SlotBits(ms, interp) + Pair(CodeOf(m, interp));
    forall i | 0 <= i < 8
      ensures r[i] == e[i]
    {
    }
  }

  /** The modes and shift after the components below `k`: those of their packed slots. */
  predicate Placed(c: Mask, k: nat, pntc: bool, interp: Bits, repl: Bits, shift: nat)
    requires k <= 4
  {
    && interp == ModeBits(PackedSlots(c, k, pntc), true) && repl == ModeBits(PackedSlots(c, k, pntc), false)
    && shift == 2 * |PackedSlots(c, k, pntc)|
  }

  /**
   * One component of tu6_vpc_varying_mode: when component `k` is read, its codes go to the
   * current slot and the shift moves to the next one. (The source ORs only the non-zero one of
   * the two codes; OR-ing a zero code changes nothing.)
   */
  method Place(c: Mask, k: nat, pntc: bool, interp: Bits, repl: Bits, shift: nat, im: nat, rm: nat)
    returns (interp': Bits, repl': Bits, shift': nat)
    requires k < 4 && im == ComponentMode(k, pntc).interp && rm == ComponentMode(k, pntc).repl
    requires Placed(c, k, pntc, interp, repl, shift)
    ensures Placed(c, k + 1, pntc, interp', repl', shift')
  {
    interp', repl', shift' := interp, repl, shift;
    ghost var ms := PackedSlots(c, k, pntc);
    assert PackedSlots(c, k + 1, pntc) == ms + (if k in c then [ComponentMode(k, pntc)] else []);
    if k in c {
      AppendSlot(interp, ms, ComponentMode(k, pntc), true);
      AppendSlot(repl, ms, ComponentMode(k, pntc), false);
      interp' := Or(interp, Code(im, shift));
      repl' := Or(repl, Code(rm, shift));
      shift' := shift + 2;
    } else {
      assert ms + [] == ms;
    }
  }

  /**
   * tu6_vpc_varying_mode, with the point coordinate's fourth component placed at the current
   * slot like the others (PntcInterpAsWritten shows where the code as written puts it): the
   * interpolation and replacement modes of an input's slots, and the number of bits they take.
   */
  method VaryingMode(input: FsInput) returns (interp: Bits, repl: Bits, bits: nat)
    ensures interp == ModeBits(SlotModes(input), true)
    ensures repl == ModeBits(SlotModes(input), false)
    ensures bits == 2 * |SlotModes(input)|
  {
    var c := input.compmask;
    if input.slot == Pntc {
      interp, repl, bits := PntcModes(c);
    } else if input.flat || input.rasterflat {
      interp, repl, bits := FlatModes(c);
    } else {
      interp, repl, bits := Zeros(8), Zeros(8), 0;
    }
  }

  /** The point coordinate's components: S and T smooth, then the constants zero and one. */
  method PntcModes(c: Mask) returns (interp: Bits, repl: Bits, shift: nat)
    ensures interp == ModeBits(PackedSlots(c, 4, true), true)
    ensures repl == ModeBits(PackedSlots(c, 4, true), false)
    ensures shift == 2 * |PackedSlots(c, 4, true)|
  {
    interp, repl, shift := PntcReplaced(c);
    interp, repl, shift := PntcConstants(c, interp, repl, shift);
  }

  /** Components 0 and 1 of the point coordinate: S and T, replaced by the hardware. */
  method PntcReplaced(c: Mask) returns (interp: Bits, repl: Bits, shift: nat)
    ensures Placed(c, 2, true, interp, repl, shift)
  {
    interp, repl, shift := Zeros(8), Zeros(8), 0;
    interp, repl, shift := Place(c, 0, true, interp, repl, shift, InterpSmooth, ReplS);
    interp, repl, shift := Place(c, 1, true, interp, repl, shift, InterpSmooth, ReplT);
  }

  /** Components 2 and 3 of the point coordinate: interpolated as the constants zero and one. */
  method PntcConstants(c: Mask, interp: Bits, repl: Bits, shift: nat) returns (interp': Bits, repl': Bits, shift': nat)
    requires Placed(c, 2, true, interp, repl, shift)
    ensures Placed(c, 4, true, interp', repl', shift')
  {
    interp', repl', shift' := Place(c, 2, true, interp, repl, shift, InterpZero, ReplNone);
    interp', repl', shift' := Place(c, 3, true, interp', repl', shift', InterpOne, ReplNone);
  }

  /** A flat input: every component it reads is flat-shaded. */
  method FlatModes(c: Mask) returns (interp: Bits, repl: Bits, shift: nat)
    ensures interp == ModeBits(PackedSlots(c, 4, false), true)
    ensures repl == ModeBits(PackedSlots(c, 4, false), false)
    ensures shift == 2 * |PackedSlots(c, 4, false)|
  {
    interp, repl, shift := Zeros(8), Zeros(8), 0;
    for i := 0 to 4
      invariant Placed(c, i, false, interp, repl, shift)
    {
      interp, repl, shift := Place(c, i, false, interp, repl, shift, InterpFlat, ReplNone);
    }
  }


  // ---------------------------------------------------------------------------
  // Packing the inputs' modes into the registers
  // ---------------------------------------------------------------------------

  /** Eight 32-bit registers: VPC_VARYING_INTERP_MODE or VPC_VARYING_PS_REPL_MODE. */
  predicate WordsOk(ws: seq<Bits>)
  {
    |ws| == 8 && forall w :: 0 <= w < 8 ==> |ws[w]| == 32
  }

  /** Bit `b` of the 256 bits of the registers; slot `k` is bits 2k and 2k + 1. */
  function BitAt(ws: seq<Bits>, b: nat): bool
    requires WordsOk(ws) && b < 256
  {
    ws[b / 32][b % 32]
  }

  /** The 2-bit code of varying slot `k`. */
  function SlotAt(ws: seq<Bits>, k: nat): nat
    requires WordsOk(ws) && k < 128
  {
    (if BitAt(ws, 2 * k) then 1 else 0) + (if BitAt(ws, 2 * k + 1) then 2 else 0)
  }

  /** The registers with the 8-bit mode `m` OR-ed in at bit `pos` of the 256. */
  function WithMode(ws: seq<Bits>, pos: nat, m: Bits): (r: seq<Bits>)
    requires WordsOk(ws) && |m| == 8
    ensures WordsOk(r)
  {
    seq(8, w requires 0 <= w < 8 =>
      seq(32, i requires 0 <= i < 32 => ws[w][i] || (pos <= 32 * w + i < pos + 8 && m[32 * w + i - pos])))
  }

  lemma WithModeBit(ws: seq<Bits>, pos: nat, m: Bits, b: nat)
    requires WordsOk(ws) && |m| == 8 && b < 256
    ensures BitAt(WithMode(ws, pos, m), b) == (BitAt(ws, b) || (pos <= b < pos + 8 && m[b - pos]))
  {
    assert 32 * (b / 32) + b % 32 == b;
  }

  /** The bits input `x` owns: two per slot it occupies. */
  predicate InRange(x: FsInput, b: nat)
  {
    2 * x.inloc <= b < 2 * (x.inloc + |SlotModes(x)|)
  }

  /** The registers once the varyings among the first `n` inputs are OR-ed in. */
  function ModesUpTo(inputs: seq<FsInput>, n: nat, interp: bool): (ws: seq<Bits>)
    requires n <= |inputs|
    ensures WordsOk(ws)
  {
    if n == 0 then seq(8, w => Zeros(32))
    else
      var prev := ModesUpTo(inputs, n - 1, interp);
      var x := inputs[n - 1];
      if x.varying then WithMode(prev, 2 * x.inloc, ModeBits(SlotModes(x), interp)) else prev
  }

  /** Every varying's slots lie inside the 128 the registers hold. */
  predicate VaryingsFit(inputs: seq<FsInput>)
  {
    forall k :: 0 <= k < |inputs| && inputs[k].varying ==>
      inputs[k].inloc < 128 && inputs[k].inloc + |SlotModes(inputs[k])| <= 128
  }

  /** No two varyings share a slot, as the compiler's location assignment guarantees. */
  predicate Disjoint(inputs: seq<FsInput>)
  {
    forall k, l :: 0 <= k < l < |inputs| && inputs[k].varying && inputs[l].varying ==>
      inputs[k].inloc + |SlotModes(inputs[k])| <= inputs[l].inloc
      || inputs[l].inloc + |SlotModes(inputs[l])| <= inputs[k].inloc
  }

  /** A bit no varying among the first `n` owns stays clear. */
  lemma {:induction false} UnownedClear(inputs: seq<FsInput>, n: nat, interp: bool, b: nat)
    requires n <= |inputs| && b < 256
    requires forall k :: 0 <= k < n && inputs[k].varying ==> !InRange(inputs[k], b)
    ensures !BitAt(ModesUpTo(inputs, n, interp), b)
  {
    if n > 0 {
      UnownedClear(inputs, n - 1, interp, b);
      var x := inputs[n - 1];
      if x.varying {
        WithModeBit(ModesUpTo(inputs, n - 1, interp), 2 * x.inloc, ModeBits(SlotModes(x), interp), b);
      }
    }
  }

  /** A bit varying `i` owns holds the bit of `i`'s mode, whatever the other varyings are. */
  lemma {:induction false} OwnedBit(inputs: seq<FsInput>, n: nat, i: nat, interp: bool, b: nat)
    requires i < n <= |inputs| && b < 256 && Disjoint(inputs)
    requires inputs[i].varying && InRange(inputs[i], b)
    ensures BitAt(ModesUpTo(inputs, n, interp), b) == ModeBits(SlotModes(inputs[i]), interp)[b - 2 * inputs[i].inloc]
  {
    var x := inputs[n - 1];
    var prev := ModesUpTo(inputs, n - 1, interp);
    if x.varying {
      WithModeBit(prev, 2 * x.inloc, ModeBits(SlotModes(x), interp), b);
    }
    if n - 1 == i {
      UnownedClear(inputs, n - 1, interp, b);
    } else {
      OwnedBit(inputs, n - 1, i, interp, b);
    }
  }

  /** Slot `j` of varying `i` holds the code of the `j`-th component `i` packs. */
  lemma OwnedSlot(inputs: seq<FsInput>, interp: bool, i: nat, j: nat)
    requires VaryingsFit(inputs) && Disjoint(inputs)
    requires i < |inputs| && inputs[i].varying && j < |SlotModes(inputs[i])|
    ensures SlotAt(ModesUpTo(inputs, |inputs|, interp), inputs[i].inloc + j) == CodeOf(SlotModes(inputs[i])[j], interp)
  {
    var k := inputs[i].inloc + j;
    var m := ModeBits(SlotModes(inputs[i]), interp);
    OwnedBit(inputs, |inputs|, i, interp, 2 * k);
    OwnedBit(inputs, |inputs|, i, interp, 2 * k + 1);
    ModeBitsAt(SlotModes(inputs[i]), interp, j);
    assert m[2 * j] == m[2 * j .. 2 * j + 2][0] && m[2 * j + 1] == m[2 * j .. 2 * j + 2][1];
  }

  /**
   * The registers tu6_emit_vpc_varying_modes writes: every slot of a varying holds that
   * varying's code for the component packed there, and every slot no varying owns is left at 0
   * (smooth interpolation, no replacement).
   */
  lemma VaryingModesCorrect(inputs: seq<FsInput>, interp: bool)
    requires VaryingsFit(inputs) && Disjoint(inputs)
    ensures var ws := ModesUpTo(inputs, |inputs|, interp);
      && (forall i, j :: 0 <= i < |inputs| && inputs[i].varying && 0 <= j < |SlotModes(inputs[i])| ==>
            SlotAt(ws, inputs[i].inloc + j) == CodeOf(SlotModes(inputs[i])[j], interp))
      && (forall k :: 0 <= k < 128 && (forall i :: 0 <= i < |inputs| && inputs[i].varying ==> !InRange(inputs[i], 2 * k)) ==>
            SlotAt(ws, k) == 0)
  {
    OwnedSlots(inputs, interp);
    UnownedSlots(inputs, interp);
  }

  lemma OwnedSlots(inputs: seq<FsInput>, interp: bool)
    requires VaryingsFit(inputs) && Disjoint(inputs)
    ensures var ws := ModesUpTo(inputs, |inputs|, interp);
      forall i, j :: 0 <= i < |inputs| && inputs[i].varying && 0 <= j < |SlotModes(inputs[i])| ==>
        SlotAt(ws, inputs[i].inloc + j) == CodeOf(SlotModes(inputs[i])[j], interp)
  {
    forall i, j | 0 <= i < |inputs| && inputs[i].varying && 0 <= j < |SlotModes(inputs[i])|
      ensures SlotAt(ModesUpTo(inputs, |inputs|, interp), inputs[i].inloc + j) == CodeOf(SlotModes(inputs[i])[j], interp)
    {
      OwnedSlot(inputs, interp, i, j);
    }
  }

  lemma UnownedSlots(inputs: seq<FsInput>, interp: bool)
    requires VaryingsFit(inputs) && Disjoint(inputs)
    ensures var ws := ModesUpTo(inputs, |inputs|, interp);
      forall k :: 0 <= k < 128 && (forall i :: 0 <= i < |inputs| && inputs[i].varying ==> !InRange(inputs[i], 2 * k)) ==>
        SlotAt(ws, k) == 0
  {
    var ws := ModesUpTo(inputs, |inputs|, interp);
    forall k | 0 <= k < 128 && (forall i :: 0 <= i < |inputs| && inputs[i].varying ==> !InRange(inputs[i], 2 * k))
      ensures SlotAt(ws, k) == 0
    {
      UnownedClear(inputs, |inputs|, interp, 2 * k);
      UnownedClear(inputs, |inputs|, interp, 2 * k + 1);
    }
  }


  /**
   * The body of the input loop: both modes OR-ed in at the input's first slot; the part that
   * spills past a register boundary goes to the low bits of the next register.
   */
  method OrModes(interpModes: array<Bits>, replModes: array<Bits>, inloc: nat, interp: Bits, repl: Bits, bits: nat)
    requires interpModes.Length == 8 && replModes.Length == 8 && interpModes != replModes
    requires WordsOk(interpModes[..]) && WordsOk(replModes[..])
    requires |interp| == 8 && |repl| == 8 && bits <= 8 && inloc < 128 && inloc * 2 + bits <= 256
    requires forall i :: bits <= i < 8 ==> !interp[i] && !repl[i]
    modifies interpModes, replModes
    ensures interpModes[..] == WithMode(old(interpModes[..]), inloc * 2, interp)
    ensures replModes[..] == WithMode(old(replModes[..]), inloc * 2, repl)
  {
    ghost var i0, r0 := interpModes[..], replModes[..];
    var pos := inloc * 2;
    var n := pos / 32;
    var shift := pos % 32;
    interpModes[n] := Or(interpModes[n], Shl(interp, shift));
    replModes[n] := Or(replModes[n], Shl(repl, shift));
    if shift + bits > 32 {
      n := n + 1;
      shift := 32 - shift;
      interpModes[n] := Or(interpModes[n], Shr(interp, shift));
      replModes[n] := Or(replModes[n], Shr(repl, shift));
    }
    WithModeWords(i0, interpModes[..], pos, interp, bits);
    WithModeWords(r0, replModes[..], pos, repl, bits);
  }

  /** The registers OrModes leaves, compared word by word with WithMode. */
  lemma WithModeWords(ws: seq<Bits>, r: seq<Bits>, pos: nat, m: Bits, bits: nat)
    requires WordsOk(ws) && WordsOk(r) && |m| == 8 && bits <= 8 && pos % 2 == 0 && pos + bits <= 256 && pos < 256
    requires forall i :: bits <= i < 8 ==> !m[i]
    requires r[pos / 32] == Or(ws[pos / 32], Shl(m, pos % 32))
    requires pos % 32 + bits > 32 ==> r[pos / 32 + 1] == Or(ws[pos / 32 + 1], Shr(m, 32 - pos % 32))
    requires forall w :: 0 <= w < 8 && w != pos / 32 && (pos % 32 + bits > 32 ==> w != pos / 32 + 1) ==> r[w] == ws[w]
    ensures r == WithMode(ws, pos, m)
  {
    var e := WithMode(ws, pos, m);
    forall w | 0 <= w < 8
      ensures r[w] == e[w]
    {
      forall i | 0 <= i < 32
        ensures r[w][i] == e[w][i]
      {
      }
    }
  }

  // ---------------------------------------------------------------------------
  // Emission
  // ---------------------------------------------------------------------------

  /** The registers as the dwords written to the stream. */
  function ValueWords(ws: seq<Bits>): (r: seq<Word>)
    ensures |r| == |ws| && forall i :: 0 <= i < |ws| ==> r[i] == Raw(Value(ws[i]))
  {
    seq(|ws|, i requires 0 <= i < |ws| => Raw(Value(ws[i])))
  }

  /** The inputs whose modes are packed: none without a fragment shader. */
  function FsInputs(fs: Option<seq<FsInput>>): seq<FsInput>
  {
    if fs.Some? then fs.value else []
  }

  /** Both register arrays, eight dwords each. */
  function VaryingModesWords(fs: Option<seq<FsInput>>): (ws: seq<Word>)
    ensures |ws| == 18
  {
    var inputs := FsInputs(fs);
    [Pkt4(VpcVaryingInterpMode0, 8)] + ValueWords(ModesUpTo(inputs, |inputs|, true))
    + [Pkt4(VpcVaryingPsReplMode0, 8)] + ValueWords(ModesUpTo(inputs, |inputs|, false))
  }

  /** The input loop of tu6_emit_vpc_varying_modes, over the varyings ir3_next_varying visits. */
  method PackModes(inputs: seq<FsInput>) returns (interpWords: seq<Bits>, replWords: seq<Bits>)
    requires VaryingsFit(inputs)
    ensures interpWords == ModesUpTo(inputs, |inputs|, true)
    ensures replWords == ModesUpTo(inputs, |inputs|, false)
  {
    var interpModes := new Bits[8](w => Zeros(32));
    var replModes := new Bits[8](w => Zeros(32));
    assert interpModes[..] == ModesUpTo(inputs, 0, true);
    assert replModes[..] == ModesUpTo(inputs, 0, false);
    for i := 0 to |inputs|
      invariant interpModes[..] == ModesUpTo(inputs, i, true)
      invariant replModes[..] == ModesUpTo(inputs, i, false)
    {
      PackInput(interpModes, replModes, inputs, i);
    }
    interpWords, replWords := interpModes[..], replModes[..];
  }

  /** One turn of the input loop: a varying input ORs its modes in at its location. */
  method PackInput(interpModes: array<Bits>, replModes: array<Bits>, inputs: seq<FsInput>, i: nat)
    requires VaryingsFit(inputs) && i < |inputs|
    requires interpModes.Length == 8 && replModes.Length == 8 && interpModes != replModes
    requires interpModes[..] == ModesUpTo(inputs, i, true) && replModes[..] == ModesUpTo(inputs, i, false)
    modifies interpModes, replModes
    ensures interpModes[..] == ModesUpTo(inputs, i + 1, true) && replModes[..] == ModesUpTo(inputs, i + 1, false)
  {
    if inputs[i].varying {
      var interp, repl, bits := VaryingMode(inputs[i]);
      OrModes(interpModes, replModes, inputs[i].inloc, interp, repl, bits);
    }
  }

  /** tu6_emit_vpc_varying_modes: both register arrays, all zero without a fragment shader. */
  method EmitVaryingModes(cs: Cs, fs: Option<seq<FsInput>>)
    requires VaryingsFit(FsInputs(fs))
    requires cs.Valid() && cs.Room() >= 18
    modifies cs
    ensures cs.Valid() && cs.words == old(cs.words) + VaryingModesWords(fs)
  {
    var inputs := FsInputs(fs);
    var interpWords, replWords := PackModes(inputs);
    cs.EmitPkt4(VpcVaryingInterpMode0, 8);
    cs.EmitAll(ValueWords(interpWords));
    cs.EmitPkt4(VpcVaryingPsReplMode0, 8);
    cs.EmitAll(ValueWords(replWords));
  }

  // ---------------------------------------------------------------------------
  // The point coordinate's fourth component as written
  // ---------------------------------------------------------------------------

  /**
   * The interpolation mode tu6_vpc_varying_mode builds for a point coordinate as written: the
   * first three components are placed at the running shift, the fourth at bit 6 whatever the
   * shift is.
   */
  function PntcInterpAsWritten(c: Mask): (m: Bits)
    ensures |m| == 8
  {
    var first := ModeBits(PackedSlots(c, 3, true), true);
    if 3 in c then Or(first, Code(InterpOne, 6)) else first
  }

  /**
   * With components x, y and w read (compmask 0xb) the w component occupies the third slot,
   * which should read 1 (INTERP_ONE); as written the third slot stays smooth and the ONE code
   * lands in the fourth slot, beyond the six bits the function reports, where it is OR-ed into
   * the next varying's first slot. The packed mode puts it where it belongs.
   */
  lemma PntcOneMisplaced()
    ensures var x := FsInput(Pntc, {0, 1, 3}, false, false, 0, true);
      var asWritten := PntcInterpAsWritten(x.compmask);
      var packed := ModeBits(SlotModes(x), true);
      && |SlotModes(x)| == 3 && CodeOf(SlotModes(x)[2], true) == InterpOne
      && SlotCode(asWritten, 2) == InterpSmooth && SlotCode(asWritten, 3) == InterpOne
      && SlotCode(packed, 2) == InterpOne && SlotCode(packed, 3) == InterpSmooth
  {
    var x := FsInput(Pntc, {0, 1, 3}, false, false, 0, true);
    var ms := SlotModes(x);
    assert PackedSlots(x.compmask, 3, true) == [SlotMode(InterpSmooth, ReplS), SlotMode(InterpSmooth, ReplT)];
    assert ms == [SlotMode(InterpSmooth, ReplS), SlotMode(InterpSmooth, ReplT), SlotMode(InterpOne, ReplNone)];
    ModeBitsAt(ms, true, 2);
    var packed := ModeBits(ms, true);
    assert packed[4] == packed[4..6][0] && packed[5] == packed[4..6][1];
  }
}
