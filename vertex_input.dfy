/**
 * Vertex fetch setup (tu6_emit_vertex_input): one fetch stride per vertex binding, the instancing
 * mask and step rates of the bindings, and one decode entry per vertex attribute the vertex
 * shader consumes.
 */
module VertexInput {
  import opened Hw
  import opened CmdStream

  /** MAX_VBS and MAX_VERTEX_ATTRIBS */
  const MaxBindings: nat := 32
  const MaxAttribs: nat := 32

  /** A vertex binding description: binding number, stride, and whether it advances per instance. */
  datatype Binding = Binding(binding: nat, stride: nat, perInstance: bool)

  /** A divisor description of VK_EXT_vertex_attribute_divisor. */
  datatype Divisor = Divisor(binding: nat, divisor: nat)

  /**
   * A vertex attribute description; `format` is the Vulkan format handed to the foreign tables
   * tu6_format_vtx and vk_format_is_int, whose answer for integer formats is `isInt`.
   */
  datatype Attribute = Attribute(location: nat, binding: nat, format: nat, offset: nat, isInt: bool)

  /**
   * A vertex shader input: its attribute number (slot - VERT_ATTRIB_GENERIC0, negative for the
   * non-generic slots), the components read and the register they land in.
   */
  datatype VsInput = VsInput(attrib: int, compmask: Mask, regid: nat)

  /** The vertex input state of a pipeline. */
  datatype VertexInputInfo = VertexInputInfo(bindings: seq<Binding>, divisors: seq<Divisor>, attributes: seq<Attribute>)

  /**
   * What the driver relies on: binding numbers below MAX_VBS (they index a 32-bit mask and the
   * step-rate array), and every attribute reading a described binding (asserted in the source).
   */
  predicate InfoOk(info: VertexInputInfo)
  {
    && (forall k :: 0 <= k < |info.bindings| ==> info.bindings[k].binding < MaxBindings)
    && (forall k :: 0 <= k < |info.divisors| ==> info.divisors[k].binding < MaxBindings)
    && (forall k :: 0 <= k < |info.attributes| ==> info.attributes[k].binding in Used(info.bindings, |info.bindings|))
  }

  // ---------------------------------------------------------------------------
  // Binding state
  // ---------------------------------------------------------------------------

  /** The bindings the first `k` descriptions name. */
  function Used(bs: seq<Binding>, k: nat): Mask
    requires k <= |bs|
  {
    if k == 0 then {} else Used(bs, k - 1) + {bs[k - 1].binding}
  }

  /** binding_instanced after the first `k` descriptions. */
  function Instanced(bs: seq<Binding>, k: nat): (m: Mask)
    requires k <= |bs|
    ensures m <= Used(bs, k)
  {
    if k == 0 then {} else Instanced(bs, k - 1) + (if bs[k - 1].perInstance then {bs[k - 1].binding} else {})
  }

  /** step_rate after the binding loop: 1 for every described binding (other entries are unset). */
  function BaseRates(bs: seq<Binding>, k: nat): (r: map<nat, nat>)
    requires k <= |bs|
    ensures r.Keys == Used(bs, k)
  {
    if k == 0 then map[] else BaseRates(bs, k - 1)[bs[k - 1].binding := 1]
  }

  /** step_rate after the first `k` divisors have been applied. */
  function Rates(bs: seq<Binding>, ds: seq<Divisor>, k: nat): map<nat, nat>
    requires k <= |ds|
  {
    if k == 0 then BaseRates(bs, |bs|) else Rates(bs, ds, k - 1)[ds[k - 1].binding := ds[k - 1].divisor]
  }

  /** The divisor the last description naming `b` among the first `k` gives, if any. */
  function LastDivisor(ds: seq<Divisor>, b: nat, k: nat): Option<nat>
    requires k <= |ds|
  {
    if k == 0 then None
    else if ds[k - 1].binding == b then Some(ds[k - 1].divisor)
    else LastDivisor(ds, b, k - 1)
  }

  /**
   * A binding is instanced exactly when one of its descriptions asks for per-instance input;
   * every instanced binding is a used one.
   */
  lemma {:induction false} InstancedIff(bs: seq<Binding>, k: nat, b: nat)
    requires k <= |bs|
    ensures b in Instanced(bs, k) <==> exists j :: 0 <= j < k && bs[j].binding == b && bs[j].perInstance
    ensures b in Used(bs, k) <==> exists j :: 0 <= j < k && bs[j].binding == b
  {
    if k > 0 {
      InstancedIff(bs, k - 1, b);
    }
  }

  /**
   * The step rate of a binding: the last divisor naming it, else 1 when it is described; a
   * binding neither described nor named by a divisor has none.
   */
  lemma {:induction false} StepRateOf(bs: seq<Binding>, ds: seq<Divisor>, k: nat, b: nat)
    requires k <= |ds|
    ensures LastDivisor(ds, b, k).Some? ==> b in Rates(bs, ds, k) && Rates(bs, ds, k)[b] == LastDivisor(ds, b, k).value
    ensures LastDivisor(ds, b, k).None? ==>
      (b in Rates(bs, ds, k) <==> b in Used(bs, |bs|)) && (b in Used(bs, |bs|) ==> Rates(bs, ds, k)[b] == 1)
  {
    if k == 0 {
      if b in Used(bs, |bs|) {
        BaseRatesOne(bs, |bs|, b);
      }
    } else {
      StepRateOf(bs, ds, k - 1, b);
    }
  }

  lemma {:induction false} BaseRatesOne(bs: seq<Binding>, k: nat, b: nat)
    requires k <= |bs| && b in Used(bs, k)
    ensures BaseRates(bs, k)[b] == 1
  {
    if b != bs[k - 1].binding {
      BaseRatesOne(bs, k - 1, b);
    }
  }

  // ---------------------------------------------------------------------------
  // Attribute decode
  // ---------------------------------------------------------------------------

  /** The first vertex shader input consuming attribute `loc`, or |inputs| when none does. */
  function FirstInput(inputs: seq<VsInput>, loc: nat): (r: nat)
    ensures r <= |inputs|
    ensures r < |inputs| ==> inputs[r].attrib == loc
    ensures forall j :: 0 <= j < r ==> inputs[j].attrib != loc
  {
    if inputs == [] then 0
    else if inputs[0].attrib == loc then 0
    else 1 + FirstInput(inputs[1..], loc)
  }

  predicate Consumed(inputs: seq<VsInput>, a: Attribute)
  {
    FirstInput(inputs, a.location) < |inputs|
  }

  /** vfd_decode_idx after the first `k` attributes: one per consumed attribute. */
  function DecodeCount(inputs: seq<VsInput>, attrs: seq<Attribute>, k: nat): (n: nat)
    requires k <= |attrs|
    ensures n <= k
  {
    if k == 0 then 0 else DecodeCount(inputs, attrs, k - 1) + (if Consumed(inputs, attrs[k - 1]) then 1 else 0)
  }

  /** The decode entry `idx` of attribute `a`, read by input `x`. */
  function AttrWords(a: Attribute, x: VsInput, idx: nat, instanced: Mask, rates: map<nat, nat>): seq<Word>
    requires a.binding in rates
  {
    [ Pkt4(VfdDecodeInstr(idx), 2),
      Field(DecodeInstr(a.binding, a.offset, a.binding in instanced, a.format, true, !a.isInt)),
      Field(StepRate(rates[a.binding])),
      Pkt4(VfdDestCntlInstr(idx), 1), Field(DestCntl(x.compmask, x.regid)) ]
  }

  function FetchWords(bs: seq<Binding>, k: nat): (ws: seq<Word>)
    requires k <= |bs|
    ensures |ws| == 2 * k
  {
    if k == 0 then [] else FetchWords(bs, k - 1) + [Pkt4(VfdFetchStride(bs[k - 1].binding), 1), Field(FetchStride(bs[k - 1].stride))]
  }

  function DecodeWords(inputs: seq<VsInput>, attrs: seq<Attribute>, instanced: Mask, rates: map<nat, nat>, k: nat): (ws: seq<Word>)
    requires k <= |attrs| && forall j :: 0 <= j < |attrs| ==> attrs[j].binding in rates
    ensures |ws| == 5 * DecodeCount(inputs, attrs, k)
  {
    if k == 0 then [] else DecodeWords(inputs, attrs, instanced, rates, k - 1) + DecodeStep(inputs, attrs, instanced, rates, k - 1)
  }

  /** The decode entry of attribute `i`, numbered by the consumed attributes before it, or nothing. */
  function DecodeStep(inputs: seq<VsInput>, attrs: seq<Attribute>, instanced: Mask, rates: map<nat, nat>, i: nat): (ws: seq<Word>)
    requires i < |attrs| && attrs[i].binding in rates
    ensures |ws| == if Consumed(inputs, attrs[i]) then 5 else 0
  {
    var a := attrs[i];
    if Consumed(inputs, a)
    then AttrWords(a, inputs[FirstInput(inputs, a.location)], DecodeCount(inputs, attrs, i), instanced, rates)
    else []
  }

  /** Every attribute's binding has a step rate once the bindings are described. */
  lemma RatesCover(info: VertexInputInfo, k: nat)
    requires InfoOk(info) && k <= |info.divisors|
    ensures forall j :: 0 <= j < |info.attributes| ==> info.attributes[j].binding in Rates(info.bindings, info.divisors, k)
  {
    forall j | 0 <= j < |info.attributes|
      ensures info.attributes[j].binding in Rates(info.bindings, info.divisors, k)
    {
      var b := info.attributes[j].binding;
      StepRateOf(info.bindings, info.divisors, k, b);
    }
  }

  function VertexInputWords(inputs: seq<VsInput>, info: VertexInputInfo): seq<Word>
    requires InfoOk(info)
  {
    var bs, attrs := info.bindings, info.attributes;
    RatesCover(info, |info.divisors|);
    var n := DecodeCount(inputs, attrs, |attrs|);
    FetchWords(bs, |bs|)
    + DecodeWords(inputs, attrs, Instanced(bs, |bs|), Rates(bs, info.divisors, |info.divisors|), |attrs|)
    + [Pkt4(VfdControl0, 1), Field(VfdControl0Value(n, n))]
  }

  /**
   * The decode count is at most the attribute count, and equal to it exactly when the vertex
   * shader consumes every attribute.
   */
  lemma {:induction false} DecodeCountAll(inputs: seq<VsInput>, attrs: seq<Attribute>, k: nat)
    requires k <= |attrs|
    ensures DecodeCount(inputs, attrs, k) == k <==> forall j :: 0 <= j < k ==> Consumed(inputs, attrs[j])
  {
    if k > 0 {
      DecodeCountAll(inputs, attrs, k - 1);
    }
  }

  /**
   * The state fits the sub-stream tu_pipeline_builder_parse_vertex_input reserves for it,
   * MAX_VERTEX_ATTRIBS * 7 + 2 words, whenever there are at most 32 bindings and 32 attributes.
   */
  lemma VertexInputFits(inputs: seq<VsInput>, info: VertexInputInfo)
    requires InfoOk(info) && |info.bindings| <= MaxBindings && |info.attributes| <= MaxAttribs
    ensures |VertexInputWords(inputs, info)| == 2 * |info.bindings| + 5 * DecodeCount(inputs, info.attributes, |info.attributes|) + 2
    ensures |VertexInputWords(inputs, info)| <= MaxAttribs * 7 + 2
  {
  }

  // ---------------------------------------------------------------------------
  // Emission
  // ---------------------------------------------------------------------------

  /** The search for the input that consumes attribute `loc`. */
  method FindInput(inputs: seq<VsInput>, loc: nat) returns (idx: nat)
    ensures idx == FirstInput(inputs, loc)
  {
    idx := 0;
    while idx < |inputs|
      invariant idx <= |inputs| && forall j :: 0 <= j < idx ==> inputs[j].attrib != loc
    {
      if inputs[idx].attrib == loc {
        break;
      }
      idx := idx + 1;
    }
  }

  /** The binding loop: fetch strides, the used and instanced masks, unit step rates. */
  method EmitBindings(cs: Cs, bs: seq<Binding>, bindingsUsed: Mask)
    returns (used: Mask, instanced: Mask, rates: map<nat, nat>)
    requires cs.Valid() && cs.Room() >= 2 * |bs|
    modifies cs
    ensures cs.Valid() && cs.words == old(cs.words) + FetchWords(bs, |bs|)
    ensures used == bindingsUsed + Used(bs, |bs|)
    ensures instanced == Instanced(bs, |bs|) && rates == BaseRates(bs, |bs|)
  {
    used, instanced, rates := bindingsUsed, {}, map[];
    for i := 0 to |bs|
      invariant cs.Valid() && cs.words == old(cs.words) + FetchWords(bs, i)
      invariant used == bindingsUsed + Used(bs, i)
      invariant instanced == Instanced(bs, i) && rates == BaseRates(bs, i)
    {
      var b := bs[i];
      cs.EmitPkt4(VfdFetchStride(b.binding), 1);
      cs.Emit(Field(FetchStride(b.stride)));
      if b.perInstance {
        instanced := instanced + {b.binding};
      }
      used := used + {b.binding};
      rates := rates[b.binding := 1];
    }
  }

  /** One iteration of the attribute loop. */
  method EmitDecode(cs: Cs, inputs: seq<VsInput>, attrs: seq<Attribute>, instanced: Mask, rates: map<nat, nat>,
                    i: nat, count: nat)
    returns (count': nat)
    requires i < |attrs| && attrs[i].binding in rates && count == DecodeCount(inputs, attrs, i)
    requires cs.Valid() && cs.Room() >= |DecodeStep(inputs, attrs, instanced, rates, i)|
    modifies cs
    ensures cs.Valid() && cs.words == old(cs.words) + DecodeStep(inputs, attrs, instanced, rates, i)
    ensures count' == DecodeCount(inputs, attrs, i + 1)
  {
    count' := count;
    var a := attrs[i];
    var idx := FindInput(inputs, a.location);
    if idx < |inputs| {
      cs.EmitAll(AttrWords(a, inputs[idx], count, instanced, rates));
      count' := count + 1;
    }
  }

  /** The attribute loop: one decode entry per consumed attribute, numbered from 0. */
  method EmitDecodes(cs: Cs, inputs: seq<VsInput>, attrs: seq<Attribute>, instanced: Mask, rates: map<nat, nat>)
    returns (count: nat)
    requires forall j :: 0 <= j < |attrs| ==> attrs[j].binding in rates
    requires cs.Valid() && cs.Room() >= 5 * DecodeCount(inputs, attrs, |attrs|)
    modifies cs
    ensures cs.Valid() && cs.words == old(cs.words) + DecodeWords(inputs, attrs, instanced, rates, |attrs|)
    ensures count == DecodeCount(inputs, attrs, |attrs|)
  {
    ghost var start := cs.words;
    count := 0;
    for i := 0 to |attrs|
      invariant cs.Valid() && cs.words == start + DecodeWords(inputs, attrs, instanced, rates, i)
      invariant count == DecodeCount(inputs, attrs, i)
      invariant cs.Room() >= 5 * (DecodeCount(inputs, attrs, |attrs|) - count)
    {
      DecodeCountGrows(inputs, attrs, i + 1, |attrs|);
      ghost var before := DecodeWords(inputs, attrs, instanced, rates, i);
      ghost var step := DecodeStep(inputs, attrs, instanced, rates, i);
      count := EmitDecode(cs, inputs, attrs, instanced, rates, i, count);
      Assoc(start, before, step);
    }
  }

  lemma {:induction false} DecodeCountGrows(inputs: seq<VsInput>, attrs: seq<Attribute>, k: nat, m: nat)
    requires k <= m <= |attrs|
    ensures DecodeCount(inputs, attrs, k) <= DecodeCount(inputs, attrs, m)
    decreases m - k
  {
    if k < m {
      DecodeCountGrows(inputs, attrs, k + 1, m);
    }
  }

  /** The divisor loop: each description overrides its binding's step rate. */
  method ApplyDivisors(bs: seq<Binding>, ds: seq<Divisor>, base: map<nat, nat>) returns (rates: map<nat, nat>)
    requires base == BaseRates(bs, |bs|)
    ensures rates == Rates(bs, ds, |ds|)
  {
    rates := base;
    for i := 0 to |ds|
      invariant rates == Rates(bs, ds, i)
    {
      rates := rates[ds[i].binding := ds[i].divisor];
    }
  }

  /** tu6_emit_vertex_input; returns the caller's bindings_used with the described bindings added. */
  method EmitVertexInput(cs: Cs, inputs: seq<VsInput>, info: VertexInputInfo, bindingsUsed: Mask)
    returns (used: Mask)
    requires InfoOk(info)
    requires cs.Valid() && cs.Room() >= |VertexInputWords(inputs, info)|
    modifies cs
    ensures cs.Valid() && cs.words == old(cs.words) + VertexInputWords(inputs, info)
    ensures used == bindingsUsed + Used(info.bindings, |info.bindings|)
  {
    ghost var w0 := cs.words;
    var instanced, rates;
    used, instanced, rates := EmitBindings(cs, info.bindings, bindingsUsed);
    rates := ApplyDivisors(info.bindings, info.divisors, rates);
    RatesCover(info, |info.divisors|);
    ghost var f := FetchWords(info.bindings, |info.bindings|);
    ghost var d := DecodeWords(inputs, info.attributes, instanced, rates, |info.attributes|);
    var count := EmitDecodes(cs, inputs, info.attributes, instanced, rates);
    ghost var t := [Pkt4(VfdControl0, 1), Field(VfdControl0Value(count, count))];
    cs.EmitAll([Pkt4(VfdControl0, 1), Field(VfdControl0Value(count, count))]);
    assert cs.words == w0 + f + d + t;
    Assoc(w0 + f, d, t);
    Assoc(w0, f, d + t);
    Assoc(f, d, t);
  }
}
