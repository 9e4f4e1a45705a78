/**
 * Lanes of a packed double vector and the element-level operations on them.
 *
 * A lane holds the 64-bit pattern of an IEEE-754 double. The arithmetic, the
 * square root and the comparisons of doubles are not modelled: they are the
 * fields of an `Fpu` value that every operator takes as a parameter, so each
 * operator is proved for every floating-point unit at once. What is modelled
 * exactly is everything that depends only on bits: masks, bitwise selection,
 * the sign bit and the conversion of a double to `bool`.
 */
module Elements {

  /** The bit pattern of one double. */
  type Lane = bv64

  /** The C++ `int` of the source (offsets and lane indices). */
  newtype int32 = x: int | -0x8000_0000 <= x < 0x8000_0000

  const ALL_ONES: Lane := 0xFFFF_FFFF_FFFF_FFFF
  const SIGN_BIT: Lane := 0x8000_0000_0000_0000

  /** The encodings of a few doubles, used by concrete scenarios. */
  const HALF: Lane := 0x3FE0_0000_0000_0000
  const ONE: Lane := 0x3FF0_0000_0000_0000
  const TWO: Lane := 0x4000_0000_0000_0000
  const THREE: Lane := 0x4008_0000_0000_0000
  const FOUR: Lane := 0x4010_0000_0000_0000

  /**
   * The floating-point operations on single lanes: what `+ - * /`, `sqrt`
   * and the ordered comparisons compute for one pair of doubles.
   */
  datatype Fpu = Fpu(
    add: (Lane, Lane) -> Lane,
    sub: (Lane, Lane) -> Lane,
    mul: (Lane, Lane) -> Lane,
    div: (Lane, Lane) -> Lane,
    sqrt: Lane -> Lane,
    lt: (Lane, Lane) -> bool,
    le: (Lane, Lane) -> bool,
    eq: (Lane, Lane) -> bool,
    gt: (Lane, Lane) -> bool,
    ge: (Lane, Lane) -> bool)

  /** The four arithmetic operators that have a value form and an in-place form. */
  datatype ArithOp = Add | Sub | Mul | Div

  function OpOf(fpu: Fpu, op: ArithOp): (Lane, Lane) -> Lane
  {
    match op
    case Add => fpu.add
    case Sub => fpu.sub
    case Mul => fpu.mul
    case Div => fpu.div
  }

  /** A comparison result lane: all bits one for true, all bits zero for false. */
  function MaskOf(b: bool): Lane
  {
    if b then ALL_ONES else 0
  }

  predicate IsMaskLane(m: Lane)
  {
    m == ALL_ONES || m == 0
  }

  /** Every lane is all-ones or all-zeros. */
  predicate IsMask(ms: seq<Lane>)
  {
    forall i :: 0 <= i < |ms| ==> IsMaskLane(ms[i])
  }

  /**
   * C++'s conversion of a double to `bool`: false exactly for +0.0 and -0.0,
   * whose encodings have every bit outside the sign bit clear.
   */
  function DoubleToBool(x: Lane): bool
  {
    AndNot(SIGN_BIT, x) != 0
  }

  /** Only the encodings of +0.0 and -0.0 convert to `false`. */
  lemma DoubleToBoolIsNonZero(x: Lane)
    ensures DoubleToBool(x) <==> x != 0 && x != SIGN_BIT
  {
  }

  // The bitwise operations on one lane. Operations on registers and vectors
  // are built from these rather than from the operators directly.

  function And(x: Lane, y: Lane): Lane
  {
    x & y
  }

  function Or(x: Lane, y: Lane): Lane
  {
    x | y
  }

  /** The complement of `x`, and `y`. */
  function AndNot(x: Lane, y: Lane): Lane
  {
    !x & y
  }

  /** Bitwise selection: the bits of `other` where `mask` has a one, those of `self` elsewhere. */
  function BitSelect(mask: Lane, other: Lane, self: Lane): Lane
  {
    Or(And(mask, other), AndNot(mask, self))
  }

  /** Selection by the sign bit of the mask alone. */
  function SignSelect(mask: Lane, other: Lane, self: Lane): Lane
  {
    if And(mask, SIGN_BIT) != 0 then other else self
  }

  /** On a well-formed mask lane both selections pick `other` for all-ones and `self` for all-zeros. */
  lemma SelectOnMaskLane(mask: Lane, other: Lane, self: Lane)
    requires IsMaskLane(mask)
    ensures BitSelect(mask, other, self) == (if mask == ALL_ONES then other else self)
    ensures SignSelect(mask, other, self) == (if mask == ALL_ONES then other else self)
  {
    if mask == ALL_ONES {
      assert And(mask, other) == other && AndNot(mask, self) == 0;
    } else {
      assert And(mask, other) == 0 && AndNot(mask, self) == self;
    }
  }

  /** A lane whose only set bit is the sign bit: the two selections disagree on it. */
  lemma SelectsDisagreeOnSignOnlyMask()
    ensures BitSelect(SIGN_BIT, ALL_ONES, 0) == SIGN_BIT
    ensures SignSelect(SIGN_BIT, ALL_ONES, 0) == ALL_ONES
  {
  }

  // Lane-wise lifting of element operations to whole vectors, in logical lane order.

  function Zip(f: (Lane, Lane) -> Lane, a: seq<Lane>, b: seq<Lane>): (r: seq<Lane>)
    requires |a| == |b|
    ensures |r| == |a|
  {
    seq(|a|, i requires 0 <= i < |a| => f(a[i], b[i]))
  }

  function Map1(f: Lane -> Lane, a: seq<Lane>): (r: seq<Lane>)
    ensures |r| == |a|
  {
    seq(|a|, i requires 0 <= i < |a| => f(a[i]))
  }

  /** Lane-wise comparison producing a mask vector. */
  function Compare(p: (Lane, Lane) -> bool, a: seq<Lane>, b: seq<Lane>): (r: seq<Lane>)
    requires |a| == |b|
    ensures |r| == |a|
  {
    seq(|a|, i requires 0 <= i < |a| => MaskOf(p(a[i], b[i])))
  }

  /** A comparison yields a well-formed mask that is all-ones exactly where the comparison holds. */
  lemma CompareIsMask(p: (Lane, Lane) -> bool, a: seq<Lane>, b: seq<Lane>)
    requires |a| == |b|
    ensures IsMask(Compare(p, a, b))
    ensures forall i :: 0 <= i < |a| ==> (Compare(p, a, b)[i] == ALL_ONES <==> p(a[i], b[i]))
  {
    forall i | 0 <= i < |a|
      ensures IsMaskLane(Compare(p, a, b)[i])
      ensures Compare(p, a, b)[i] == ALL_ONES <==> p(a[i], b[i])
    {
      assert Compare(p, a, b)[i] == MaskOf(p(a[i], b[i]));
    }
  }

  /** Lane-wise selection with `sel` (one of BitSelect, SignSelect). */
  function Select(sel: (Lane, Lane, Lane) -> Lane, mask: seq<Lane>, other: seq<Lane>, self: seq<Lane>): (r: seq<Lane>)
    requires |mask| == |other| == |self|
    ensures |r| == |self|
  {
    seq(|self|, i requires 0 <= i < |self| => sel(mask[i], other[i], self[i]))
  }

  /** The intended selection of `blend`: `other` where the mask lane is all-ones, `self` elsewhere. */
  function Choose(mask: seq<Lane>, other: seq<Lane>, self: seq<Lane>): (r: seq<Lane>)
    requires |mask| == |other| == |self|
    ensures |r| == |self|
  {
    seq(|self|, i requires 0 <= i < |self| => if mask[i] == ALL_ONES then other[i] else self[i])
  }

  /**
   * On a well-formed mask the bitwise and the sign-bit selection both
   * compute the intended per-lane choice.
   */
  lemma SelectsAgreeOnMask(mask: seq<Lane>, other: seq<Lane>, self: seq<Lane>)
    requires |mask| == |other| == |self|
    requires IsMask(mask)
    ensures Select(BitSelect, mask, other, self) == Choose(mask, other, self)
    ensures Select(SignSelect, mask, other, self) == Choose(mask, other, self)
  {
    forall i | 0 <= i < |self|
      ensures Select(BitSelect, mask, other, self)[i] == Choose(mask, other, self)[i]
      ensures Select(SignSelect, mask, other, self)[i] == Choose(mask, other, self)[i]
    {
      SelectOnMaskLane(mask[i], other[i], self[i]);
    }
  }

  /**
   * Blending with the result of a comparison takes `other` exactly in the
   * lanes where the comparison holds, whichever selection is used.
   */
  lemma BlendByComparison(p: (Lane, Lane) -> bool, a: seq<Lane>, b: seq<Lane>, other: seq<Lane>, self: seq<Lane>, i: int)
    requires |a| == |b| == |other| == |self|
    requires 0 <= i < |self|
    ensures Select(BitSelect, Compare(p, a, b), other, self)[i] == (if p(a[i], b[i]) then other[i] else self[i])
    ensures Select(SignSelect, Compare(p, a, b), other, self)[i] == (if p(a[i], b[i]) then other[i] else self[i])
  {
    CompareIsMask(p, a, b);
    SelectOnMaskLane(Compare(p, a, b)[i], other[i], self[i]);
  }
}
