/**
 * The SSE2 / SSE4.1 intrinsics used by the four-lane double vector, on a
 * 128-bit register of two double slots. Slot 0 is the low half, the one
 * `_mm_cvtsd_f64` reads and the one stored at the lower address.
 *
 * Memory is an array of lanes; a C++ `double *` into it is the array with
 * an element index.
 */
module Sse {
  import opened Elements

  /** `__m128d`: two double slots. */
  datatype M128d = M128d(lo: Lane, hi: Lane)

  function Slot(r: M128d, k: int): Lane
    requires 0 <= k < 2
  {
    if k == 0 then r.lo else r.hi
  }

  /** `_mm_set1_pd`: both slots hold `x`. */
  function Set1Pd(x: Lane): M128d
  {
    M128d(x, x)
  }

  /** `_mm_cvtsd_f64`: the low slot. */
  function CvtsdF64(a: M128d): Lane
  {
    a.lo
  }

  /** `_mm_shuffle_pd(a, b, imm)`: bit 0 of `imm` picks the slot of `a` for the low result, bit 1 that of `b` for the high result. */
  function ShufflePd(a: M128d, b: M128d, imm: bv8): M128d
  {
    M128d(if imm & 1 == 0 then a.lo else a.hi, if imm & 2 == 0 then b.lo else b.hi)
  }

  /** A packed two-operand floating-point instruction (`_mm_add_pd`, `_mm_sub_pd`, `_mm_mul_pd`, `_mm_div_pd`). */
  function MapPd(f: (Lane, Lane) -> Lane, a: M128d, b: M128d): M128d
  {
    M128d(f(a.lo, b.lo), f(a.hi, b.hi))
  }

  /** A packed one-operand instruction (`_mm_sqrt_pd`). */
  function MapPd1(f: Lane -> Lane, a: M128d): M128d
  {
    M128d(f(a.lo), f(a.hi))
  }

  /** A packed comparison (`_mm_cmplt_pd` and its siblings): all-ones where the predicate holds, all-zeros elsewhere. */
  function CmpPd(p: (Lane, Lane) -> bool, a: M128d, b: M128d): M128d
  {
    M128d(MaskOf(p(a.lo, b.lo)), MaskOf(p(a.hi, b.hi)))
  }

  /** `_mm_or_pd` */
  function OrPd(a: M128d, b: M128d): M128d
  {
    M128d(Or(a.lo, b.lo), Or(a.hi, b.hi))
  }

  /** `_mm_and_pd` */
  function AndPd(a: M128d, b: M128d): M128d
  {
    M128d(And(a.lo, b.lo), And(a.hi, b.hi))
  }

  /** `_mm_andnot_pd(a, b)`: the complement of `a`, and `b`. */
  function AndnotPd(a: M128d, b: M128d): M128d
  {
    M128d(AndNot(a.lo, b.lo), AndNot(a.hi, b.hi))
  }

  /** `_mm_blendv_pd(a, b, mask)` (SSE4.1): per slot, `b` if the mask slot's sign bit is set, else `a`. */
  function BlendvPd(a: M128d, b: M128d, mask: M128d): M128d
  {
    M128d(SignSelect(mask.lo, b.lo, a.lo), SignSelect(mask.hi, b.hi, a.hi))
  }

  /** A per-slot selection `sel(mask, other, self)` on whole registers. */
  function SelectPd(sel: (Lane, Lane, Lane) -> Lane, mask: M128d, other: M128d, self: M128d): M128d
  {
    M128d(sel(mask.lo, other.lo, self.lo), sel(mask.hi, other.hi, self.hi))
  }

  /** The and / and-not / or sequence of the SSE2 blend is the bitwise selection in each slot. */
  lemma BitwiseBlendIsBitSelect(mask: M128d, other: M128d, self: M128d)
    ensures OrPd(AndPd(mask, other), AndnotPd(mask, self)) == SelectPd(BitSelect, mask, other, self)
  {
  }

  /** `_mm_testz_si128(a, b)` (SSE4.1): 1 if `a & b` is zero in all 128 bits, else 0. */
  function TestzSi128(a: M128d, b: M128d): int32
  {
    if And(a.lo, b.lo) == 0 && And(a.hi, b.hi) == 0 then 1 else 0
  }

  /** `_mm_loadu_pd` and `_mm_load_pd`: two consecutive elements; the aligned form only adds an alignment requirement, stated by its callers. */
  function LoadPd(mem: array<Lane>, p: int): M128d
    reads mem
    requires 0 <= p && p + 2 <= mem.Length
  {
    M128d(mem[p], mem[p + 1])
  }

  /** `_mm_loadl_pd(a, p)`: the low slot from memory, the high slot kept. */
  function LoadlPd(a: M128d, mem: array<Lane>, p: int): M128d
    reads mem
    requires 0 <= p < mem.Length
  {
    M128d(mem[p], a.hi)
  }

  /** `_mm_loadh_pd(a, p)`: the high slot from memory, the low slot kept. */
  function LoadhPd(a: M128d, mem: array<Lane>, p: int): M128d
    reads mem
    requires 0 <= p < mem.Length
  {
    M128d(a.lo, mem[p])
  }

  /** `_mm_storeu_pd`, `_mm_store_pd` and `_mm_stream_pd`: both slots to two consecutive elements. */
  method StorePd(mem: array<Lane>, p: int, v: M128d)
    requires 0 <= p && p + 2 <= mem.Length
    modifies mem
    ensures mem[..] == old(mem[..])[p := v.lo][p + 1 := v.hi]
  {
    mem[p] := v.lo;
    mem[p + 1] := v.hi;
  }

  /** `_mm_storel_pd`: the low slot to one element. */
  method StorelPd(mem: array<Lane>, p: int, v: M128d)
    requires 0 <= p < mem.Length
    modifies mem
    ensures mem[..] == old(mem[..])[p := v.lo]
  {
    mem[p] := v.lo;
  }

  /** `_mm_storeh_pd`: the high slot to one element. */
  method StorehPd(mem: array<Lane>, p: int, v: M128d)
    requires 0 <= p < mem.Length
    modifies mem
    ensures mem[..] == old(mem[..])[p := v.hi]
  {
    mem[p] := v.hi;
  }
}
