/**
 * The command-stream writer (`tu_cs`), reduced to what the pipeline code relies
 * on: an append-only buffer of 32-bit words with a capacity fixed when the
 * buffer (or a sub-stream of it) is reserved.  Every append requires room, so a
 * verified emitter never writes past its reservation.
 */
module CmdStream {
  import opened Hw

  class Cs {
    /** The words emitted so far. */
    var words: seq<Word>
    /** The reserved size in words. */
    const cap: nat

    ghost predicate Valid()
      reads this
    {
      |words| <= cap
    }

    /** tu_cs_begin_sub_stream / tu_cs_draw_state: an empty stream with exactly `cap` words reserved. */
    constructor (cap: nat)
      ensures Valid() && words == [] && this.cap == cap
    {
      words := [];
      this.cap := cap;
    }

    /** Words still available in the reservation. */
    function Room(): (r: nat)
      reads this
      requires Valid()
      ensures r + |words| == cap
    {
      cap - |words|
    }

    /** tu_cs_emit */
    method Emit(w: Word)
      requires Valid() && Room() >= 1
      modifies this
      ensures Valid() && words == old(words) + [w]
    {
      words := words + [w];
    }

    /** tu_cs_emit_array, and any run of words emitted one after the other. */
    method EmitAll(ws: seq<Word>)
      requires Valid() && Room() >= |ws|
      modifies this
      ensures Valid() && words == old(words) + ws
    {
      words := words + ws;
    }

    /** tu_cs_emit_pkt4 */
    method EmitPkt4(reg: Reg, cnt: nat)
      requires Valid() && Room() >= 1
      modifies this
      ensures Valid() && words == old(words) + [Pkt4(reg, cnt)]
    {
      words := words + [Pkt4(reg, cnt)];
    }

    /** tu_cs_emit_pkt7 */
    method EmitPkt7(op: Opcode, cnt: nat)
      requires Valid() && Room() >= 1
      modifies this
      ensures Valid() && words == old(words) + [Pkt7(op, cnt)]
    {
      words := words + [Pkt7(op, cnt)];
    }

    /** tu_cs_emit_qw */
    method EmitQw(v: nat)
      requires v < 0x1_0000_0000_0000_0000
      requires Valid() && Room() >= 2
      modifies this
      ensures Valid() && words == old(words) + QwordWords(v)
    {
      words := words + QwordWords(v);
    }
  }

  /** Re-associates a concatenation of word sequences (spares the solver the search). */
  lemma Assoc(a: seq<Word>, b: seq<Word>, c: seq<Word>)
    ensures a + b + c == a + (b + c)
  {
  }
}
