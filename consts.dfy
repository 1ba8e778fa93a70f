/**
 * Uploading shader constants straight from the command stream (tu6_emit_const) and the
 * truncation to the consumer's constant length that both the immediates of tu6_emit_xs_config
 * and the primitive maps of tu6_emit_link_map apply.
 */
module Consts {
  import opened Hw
  import opened CmdStream

  const U32: nat := 0x1_0000_0000

  /**
   * MIN2(units + base, constlen) - base: how many vec4 units of `units` wanted at vec4 offset
   * `base` fit below `constlen`. Zero or negative means nothing is uploaded.
   */
  function ClampedUnits(units: nat, base: nat, constlen: nat): (n: int)
    ensures n <= units
    ensures n > 0 <==> units > 0 && base < constlen
    ensures n > 0 ==> base + n <= constlen
    ensures n > 0 ==> n == units || base + n == constlen
  {
    Min(units + base, constlen) - base
  }

  /** A 32-bit unsigned value read back as a C `int`. */
  function AsInt32(x: nat): (r: int)
    requires x < U32
    ensures -0x8000_0000 <= r < 0x8000_0000
    ensures r % U32 == x
  {
    if x < 0x8000_0000 then x else x - U32
  }

  /**
   * The computation as C performs it: `units + base` and the subtraction wrap at 2^32 because
   * `base` and `constlen` are unsigned, and the result is stored in an `int`; `scale` is the
   * factor applied before the store (4 in tu6_emit_link_map, 1 for the immediates).
   */
  function ClampedUnitsC(units: nat, base: nat, constlen: nat, scale: nat): int
    requires units < U32 && base < U32 && constlen < U32
  {
    var sum := (units + base) % U32;
    var m := if sum < constlen then sum else constlen;
    AsInt32((m - base) % U32 * scale % U32)
  }

  /** For constant offsets and lengths below 2^29 the wrap-around never shows: the C value is the exact one. */
  lemma ClampedUnitsNoWrap(units: nat, base: nat, constlen: nat, scale: nat)
    requires units + base < 0x2000_0000 && constlen < 0x2000_0000
    requires scale == 1 || scale == 4
    ensures ClampedUnitsC(units, base, constlen, scale) == scale * ClampedUnits(units, base, constlen)
  {
    var n := ClampedUnits(units, base, constlen);
    var sum := (units + base) % U32;
    assert sum == units + base;
    var m := if sum < constlen then sum else constlen;
    assert m - base == n;
    assert ClampedUnitsC(units, base, constlen, scale) == AsInt32(n % U32 * scale % U32);
    ScaledNoWrap(n, scale);
  }

  /**
   * A difference of two values below 2^29, wrapped to 32 bits, scaled by one or four and wrapped
   * again, reads back as a C `int` equal to the scaled difference.
   */
  lemma ScaledNoWrap(n: int, scale: nat)
    requires -0x2000_0000 < n < 0x2000_0000
    requires scale == 1 || scale == 4
    ensures AsInt32(n % U32 * scale % U32) == scale * n
  {
    if n >= 0 {
      assert n % U32 == n;
      assert n * scale < U32;
    } else if scale == 1 {
      assert n % U32 == n + U32;
    } else {
      assert n % U32 == n + U32;
      var x := (n + U32) * 4;
      assert x == 4 * n + U32 + 3 * U32;
      assert 0 <= 4 * n + U32 < U32;
      assert x % U32 == 4 * n + U32;
    }
  }

  /** The payload words of an array of dwords. */
  function RawWords(ds: seq<nat>): (ws: seq<Word>)
    ensures |ws| == |ds|
    ensures forall i :: 0 <= i < |ds| ==> ws[i] == Raw(ds[i])
  {
    seq(|ds|, i requires 0 <= i < |ds| => Raw(ds[i]))
  }

  /**
   * tu6_emit_const: a CP_LOAD_STATE6 packet that uploads the first `size` dwords of `dwords`
   * (a whole number of vec4s) to vec4 offset `base` of `block`.
   */
  function ConstWords(op: Opcode, base: nat, block: StateBlock, size: nat, dwords: seq<nat>): (ws: seq<Word>)
    requires size % 4 == 0 && size <= |dwords|
    ensures |ws| == 4 + size && ws[0] == Pkt7(op, |ws| - 1)
    ensures ws[1] == Field(LoadState0(base, St6Constants, Ss6Direct, block, size / 4))
    ensures forall i :: 0 <= i < size ==> ws[4 + i] == Raw(dwords[i])
  {
    ConstHeader(op, base, block, size) + RawWords(dwords[..size])
  }

  /** The four header words of a direct CP_LOAD_STATE6 constant upload of `size` dwords. */
  function ConstHeader(op: Opcode, base: nat, block: StateBlock, size: nat): seq<Word>
  {
    [Pkt7(op, 3 + size), Field(LoadState0(base, St6Constants, Ss6Direct, block, size / 4)), Raw(0), Raw(0)]
  }

  method EmitConstHeader(cs: Cs, op: Opcode, base: nat, block: StateBlock, size: nat)
    requires cs.Valid() && cs.Room() >= 4
    modifies cs
    ensures cs.Valid() && cs.words == old(cs.words) + ConstHeader(op, base, block, size)
  {
    cs.EmitPkt7(op, 3 + size);
    cs.Emit(Field(LoadState0(base, St6Constants, Ss6Direct, block, size / 4)));
    cs.Emit(Raw(0));
    cs.Emit(Raw(0));
  }

  method EmitConst(cs: Cs, op: Opcode, base: nat, block: StateBlock, size: nat, dwords: seq<nat>)
    requires size % 4 == 0 && size <= |dwords|
    requires cs.Valid() && cs.Room() >= 4 + size
    modifies cs
    ensures cs.Valid()
    ensures cs.words == old(cs.words) + ConstWords(op, base, block, size, dwords)
  {
    ghost var start := cs.words;
    EmitConstHeader(cs, op, base, block, size);
    cs.EmitAll(RawWords(dwords[..size]));
    Assoc(start, ConstHeader(op, base, block, size), RawWords(dwords[..size]));
  }
}
