/**
 * `short_vec<double, 4>` on SSE: four double lanes in two 128-bit registers.
 * Logical lane `i` lives in register `i / 2` (`val1` or `val2`) at slot
 * `i % 2`. `Lanes()` is the logical view every operator is specified by.
 */
module SseDouble4 {
  import opened Elements
  import opened Sse
  import Memory

  const ARITY := 4

  /** The logical lanes held by the register pair. */
  function LanesOf(v1: M128d, v2: M128d): (s: seq<Lane>)
    ensures |s| == ARITY
  {
    [v1.lo, v1.hi, v2.lo, v2.hi]
  }

  /** Lane `i` lives in register `i / 2` at slot `i % 2`. */
  lemma LaneLayout(v1: M128d, v2: M128d, i: int)
    requires 0 <= i < ARITY
    ensures LanesOf(v1, v2)[i] == Slot(if i / 2 == 0 then v1 else v2, i % 2)
  {
  }

  /** A packed instruction applied to both registers is the element operation applied to every logical lane. */
  lemma MapPdIsLanewise(f: (Lane, Lane) -> Lane, a1: M128d, a2: M128d, b1: M128d, b2: M128d)
    ensures LanesOf(MapPd(f, a1, b1), MapPd(f, a2, b2)) == Zip(f, LanesOf(a1, a2), LanesOf(b1, b2))
  {
  }

  /** A packed comparison on both registers is the lane-wise comparison of the logical lanes. */
  lemma CmpPdIsLanewise(p: (Lane, Lane) -> bool, a1: M128d, a2: M128d, b1: M128d, b2: M128d)
    ensures LanesOf(CmpPd(p, a1, b1), CmpPd(p, a2, b2)) == Compare(p, LanesOf(a1, a2), LanesOf(b1, b2))
  {
    var a, b := LanesOf(a1, a2), LanesOf(b1, b2);
    var c := Compare(p, a, b);
    assert c[0] == MaskOf(p(a1.lo, b1.lo)) && c[1] == MaskOf(p(a1.hi, b1.hi));
    assert c[2] == MaskOf(p(a2.lo, b2.lo)) && c[3] == MaskOf(p(a2.hi, b2.hi));
  }

  /** Per-slot selection on both registers is the same selection on every logical lane. */
  lemma SelectPdIsLanewise(sel: (Lane, Lane, Lane) -> Lane, m1: M128d, m2: M128d, o1: M128d, o2: M128d, s1: M128d, s2: M128d)
    ensures LanesOf(SelectPd(sel, m1, o1, s1), SelectPd(sel, m2, o2, s2)) == Select(sel, LanesOf(m1, m2), LanesOf(o1, o2), LanesOf(s1, s2))
  {
  }

  /** `i & 1` on a two's-complement `int`, which is its Euclidean remainder by 2. */
  function LowBit(i: int32): int32
  {
    (i as int % 2) as int32
  }

  class ShortVec4 {
    var val1: M128d
    var val2: M128d

    /** The four lanes in logical order. */
    function Lanes(): (s: seq<Lane>)
      reads this
      ensures |s| == ARITY
    {
      LanesOf(val1, val2)
    }

    /** Broadcast: every lane holds `data` (zero by default). */
    constructor (data: Lane := 0)
      ensures Lanes() == [data, data, data, data]
    {
      val1 := Set1Pd(data);
      val2 := Set1Pd(data);
    }

    /** Construction from a pointer is an unaligned `Load`. */
    constructor FromPointer(data: array<Lane>, at: nat)
      requires at + ARITY <= data.Length
      ensures Lanes() == data[at..at + ARITY]
    {
      new;
      Load(data, at);
    }

    /** Direct composition from two registers, without any check. */
    constructor FromRegisters(v1: M128d, v2: M128d)
      ensures val1 == v1 && val2 == v2
    {
      val1 := v1;
      val2 := v2;
    }

    /** Construction from a literal list loads its first four elements. */
    constructor FromList(il: seq<Lane>)
      requires |il| >= ARITY
      ensures Lanes() == il[..ARITY]
    {
      new;
      var buf := new Lane[|il|](i requires 0 <= i < |il| => il[i]);
      Load(buf, 0);
    }

    /** `any()` with SSE4.1: true exactly when some lane has a bit set. */
    function AnySse41(): (r: bool)
      reads this
      ensures r <==> exists i | 0 <= i < ARITY :: Lanes()[i] != 0
    {
      var buf1 := OrPd(val1, val2);
      assert Or(Lanes()[0], Lanes()[2]) == buf1.lo && Or(Lanes()[1], Lanes()[3]) == buf1.hi;
      0 == TestzSi128(buf1, buf1)
    }

    /**
     * `any()` without SSE4.1: the two slots of `val1 | val2`, that is lanes
     * 0 | 2 and 1 | 3, each converted to `bool` as a double.
     */
    function AnySse2(): (r: bool)
      reads this
      ensures r <==> DoubleToBool(Or(Lanes()[0], Lanes()[2])) || DoubleToBool(Or(Lanes()[1], Lanes()[3]))
    {
      var buf1 := OrPd(val1, val2);
      var buf2 := ShufflePd(buf1, buf1, 1);
      DoubleToBool(CvtsdF64(buf1)) || DoubleToBool(CvtsdF64(buf2))
    }

    /**
     * `get(i)`: lane `i` for `0 <= i < 4`. The code is defined for every
     * `int`: a negative index reads `val1`, one of 4 or more reads `val2`,
     * each at slot `i & 1`.
     */
    function Get(i: int32): (r: Lane)
      reads this
      ensures 0 <= i < ARITY as int32 ==> r == Lanes()[i]
      ensures i < 0 ==> r == Lanes()[i as int % 2]
      ensures i >= ARITY as int32 ==> r == Lanes()[2 + i as int % 2]
    {
      var buf := if i < 2 then val1 else val2;
      if LowBit(i) == 0 then CvtsdF64(buf) else CvtsdF64(ShufflePd(buf, buf, 1))
    }

    // Arithmetic: the same packed instruction on both registers.

    method SubAssign(other: ShortVec4, fpu: Fpu)
      modifies this
      ensures Lanes() == Zip(fpu.sub, old(Lanes()), old(other.Lanes()))
    {
      val1 := MapPd(fpu.sub, val1, other.val1);
      val2 := MapPd(fpu.sub, val2, other.val2);
    }

    method Sub(other: ShortVec4, fpu: Fpu) returns (r: ShortVec4)
      ensures fresh(r) && r.Lanes() == Zip(fpu.sub, Lanes(), other.Lanes())
    {
      MapPdIsLanewise(fpu.sub, val1, val2, other.val1, other.val2);
      r := new ShortVec4.FromRegisters(MapPd(fpu.sub, val1, other.val1), MapPd(fpu.sub, val2, other.val2));
    }

    method AddAssign(other: ShortVec4, fpu: Fpu)
      modifies this
      ensures Lanes() == Zip(fpu.add, old(Lanes()), old(other.Lanes()))
    {
      val1 := MapPd(fpu.add, val1, other.val1);
      val2 := MapPd(fpu.add, val2, other.val2);
    }

    method Add(other: ShortVec4, fpu: Fpu) returns (r: ShortVec4)
      ensures fresh(r) && r.Lanes() == Zip(fpu.add, Lanes(), other.Lanes())
    {
      MapPdIsLanewise(fpu.add, val1, val2, other.val1, other.val2);
      r := new ShortVec4.FromRegisters(MapPd(fpu.add, val1, other.val1), MapPd(fpu.add, val2, other.val2));
    }

    method MulAssign(other: ShortVec4, fpu: Fpu)
      modifies this
      ensures Lanes() == Zip(fpu.mul, old(Lanes()), old(other.Lanes()))
    {
      val1 := MapPd(fpu.mul, val1, other.val1);
      val2 := MapPd(fpu.mul, val2, other.val2);
    }

    method Mul(other: ShortVec4, fpu: Fpu) returns (r: ShortVec4)
      ensures fresh(r) && r.Lanes() == Zip(fpu.mul, Lanes(), other.Lanes())
    {
      MapPdIsLanewise(fpu.mul, val1, val2, other.val1, other.val2);
      r := new ShortVec4.FromRegisters(MapPd(fpu.mul, val1, other.val1), MapPd(fpu.mul, val2, other.val2));
    }

    method DivAssign(other: ShortVec4, fpu: Fpu)
      modifies this
      ensures Lanes() == Zip(fpu.div, old(Lanes()), old(other.Lanes()))
    {
      val1 := MapPd(fpu.div, val1, other.val1);
      val2 := MapPd(fpu.div, val2, other.val2);
    }

    method Div(other: ShortVec4, fpu: Fpu) returns (r: ShortVec4)
      ensures fresh(r) && r.Lanes() == Zip(fpu.div, Lanes(), other.Lanes())
    {
      MapPdIsLanewise(fpu.div, val1, val2, other.val1, other.val2);
      r := new ShortVec4.FromRegisters(MapPd(fpu.div, val1, other.val1), MapPd(fpu.div, val2, other.val2));
    }

    // Comparisons: masks, all-ones where the comparison holds.

    method Less(other: ShortVec4, fpu: Fpu) returns (r: ShortVec4)
      ensures fresh(r) && r.Lanes() == Compare(fpu.lt, Lanes(), other.Lanes())
    {
      CmpPdIsLanewise(fpu.lt, val1, val2, other.val1, other.val2);
      r := new ShortVec4.FromRegisters(CmpPd(fpu.lt, val1, other.val1), CmpPd(fpu.lt, val2, other.val2));
    }

    method LessEqual(other: ShortVec4, fpu: Fpu) returns (r: ShortVec4)
      ensures fresh(r) && r.Lanes() == Compare(fpu.le, Lanes(), other.Lanes())
    {
      CmpPdIsLanewise(fpu.le, val1, val2, other.val1, other.val2);
      r := new ShortVec4.FromRegisters(CmpPd(fpu.le, val1, other.val1), CmpPd(fpu.le, val2, other.val2));
    }

    method Equal(other: ShortVec4, fpu: Fpu) returns (r: ShortVec4)
      ensures fresh(r) && r.Lanes() == Compare(fpu.eq, Lanes(), other.Lanes())
    {
      CmpPdIsLanewise(fpu.eq, val1, val2, other.val1, other.val2);
      r := new ShortVec4.FromRegisters(CmpPd(fpu.eq, val1, other.val1), CmpPd(fpu.eq, val2, other.val2));
    }

    method Greater(other: ShortVec4, fpu: Fpu) returns (r: ShortVec4)
      ensures fresh(r) && r.Lanes() == Compare(fpu.gt, Lanes(), other.Lanes())
    {
      CmpPdIsLanewise(fpu.gt, val1, val2, other.val1, other.val2);
      r := new ShortVec4.FromRegisters(CmpPd(fpu.gt, val1, other.val1), CmpPd(fpu.gt, val2, other.val2));
    }

    method GreaterEqual(other: ShortVec4, fpu: Fpu) returns (r: ShortVec4)
      ensures fresh(r) && r.Lanes() == Compare(fpu.ge, Lanes(), other.Lanes())
    {
      CmpPdIsLanewise(fpu.ge, val1, val2, other.val1, other.val2);
      r := new ShortVec4.FromRegisters(CmpPd(fpu.ge, val1, other.val1), CmpPd(fpu.ge, val2, other.val2));
    }

    method Sqrt(fpu: Fpu) returns (r: ShortVec4)
      ensures fresh(r) && r.Lanes() == Map1(fpu.sqrt, Lanes())
    {
      r := new ShortVec4.FromRegisters(MapPd1(fpu.sqrt, val1), MapPd1(fpu.sqrt, val2));
    }

    // Contiguous loads and stores of four elements starting at `data[at]`.

    method Load(data: array<Lane>, at: nat)
      requires at + ARITY <= data.Length
      modifies this
      ensures Lanes() == data[at..at + ARITY]
    {
      val1 := LoadPd(data, at + 0);
      val2 := LoadPd(data, at + 2);
    }

    /** `address` is the byte address of `data[0]`. */
    method LoadAligned(data: array<Lane>, at: nat, ghost address: nat)
      requires at + ARITY <= data.Length
      requires Memory.Aligned(address, at, 16)
      modifies this
      ensures Lanes() == data[at..at + ARITY]
    {
      val1 := LoadPd(data, at + 0);
      val2 := LoadPd(data, at + 2);
    }

    method Store(data: array<Lane>, at: nat)
      requires at + ARITY <= data.Length
      modifies data
      ensures data[..] == Memory.Splice(old(data[..]), at, Lanes())
    {
      StorePd(data, at + 0, val1);
      StorePd(data, at + 2, val2);
    }

    method StoreAligned(data: array<Lane>, at: nat, ghost address: nat)
      requires at + ARITY <= data.Length
      requires Memory.Aligned(address, at, 16)
      modifies data
      ensures data[..] == Memory.Splice(old(data[..]), at, Lanes())
    {
      StorePd(data, at + 0, val1);
      StorePd(data, at + 2, val2);
    }

    /** The non-temporal store writes what `StoreAligned` writes; its cache hint is not modelled. */
    method StoreNt(data: array<Lane>, at: nat, ghost address: nat)
      requires at + ARITY <= data.Length
      requires Memory.Aligned(address, at, 16)
      modifies data
      ensures data[..] == Memory.Splice(old(data[..]), at, Lanes())
    {
      StorePd(data, at + 0, val1);
      StorePd(data, at + 2, val2);
    }

    // Indexed loads and stores: lane `k` at `ptr[at + offsets[k]]`.

    method Gather(ptr: array<Lane>, at: nat, offsets: seq<int32>)
      requires |offsets| == ARITY
      requires Memory.InBounds(ptr.Length, at, offsets)
      modifies this
      ensures Lanes() == Memory.Gather(ptr[..], at, offsets)
    {
      val1 := LoadlPd(val1, ptr, at + offsets[0] as int);
      val1 := LoadhPd(val1, ptr, at + offsets[1] as int);
      val2 := LoadlPd(val2, ptr, at + offsets[2] as int);
      val2 := LoadhPd(val2, ptr, at + offsets[3] as int);
    }

    method Scatter(ptr: array<Lane>, at: nat, offsets: seq<int32>)
      requires |offsets| == ARITY
      requires Memory.InBounds(ptr.Length, at, offsets)
      modifies ptr
      ensures ptr[..] == Memory.Scatter(old(ptr[..]), at, offsets, Lanes())
    {
      StorelPd(ptr, at + offsets[0] as int, val1);
      StorehPd(ptr, at + offsets[1] as int, val1);
      StorelPd(ptr, at + offsets[2] as int, val2);
      StorehPd(ptr, at + offsets[3] as int, val2);
      ScatterUnrolled(old(ptr[..]), at, offsets, Lanes());
    }

    // Blend: lanes of `other` where `mask` selects them, the receiver's own elsewhere.

    /** `blend` with SSE4.1 (`_mm_blendv_pd`): selection by each mask lane's sign bit. */
    method BlendSse41(mask: ShortVec4, other: ShortVec4)
      modifies this
      ensures Lanes() == Select(SignSelect, old(mask.Lanes()), old(other.Lanes()), old(Lanes()))
    {
      SelectPdIsLanewise(SignSelect, mask.val1, mask.val2, other.val1, other.val2, val1, val2);
      val1 := BlendvPd(val1, other.val1, mask.val1);
      val2 := BlendvPd(val2, other.val2, mask.val2);
    }

    /** `blend` without SSE4.1: `(mask & other) | (~mask & self)` bit by bit. */
    method BlendSse2(mask: ShortVec4, other: ShortVec4)
      modifies this
      ensures Lanes() == Select(BitSelect, old(mask.Lanes()), old(other.Lanes()), old(Lanes()))
    {
      SelectPdIsLanewise(BitSelect, mask.val1, mask.val2, other.val1, other.val2, val1, val2);
      BitwiseBlendIsBitSelect(mask.val1, other.val1, val1);
      BitwiseBlendIsBitSelect(mask.val2, other.val2, val2);
      val1 := OrPd(AndPd(mask.val1, other.val1), AndnotPd(mask.val1, val1));
      val2 := OrPd(AndPd(mask.val2, other.val2), AndnotPd(mask.val2, val2));
    }
  }

  /** Four single-element stores in lane order are the indexed store of the four lanes. */
  lemma ScatterUnrolled(s: seq<Lane>, at: nat, offs: seq<int32>, lanes: seq<Lane>)
    requires |offs| == |lanes| == ARITY
    requires Memory.InBounds(|s|, at, offs)
    ensures Memory.Scatter(s, at, offs, lanes) ==
      s[at + offs[0] as int := lanes[0]][at + offs[1] as int := lanes[1]]
       [at + offs[2] as int := lanes[2]][at + offs[3] as int := lanes[3]]
  {
    var s1 := s[at + offs[0] as int := lanes[0]];
    var s2 := s1[at + offs[1] as int := lanes[1]];
    var s3 := s2[at + offs[2] as int := lanes[2]];
    var s4 := s3[at + offs[3] as int := lanes[3]];
    assert Memory.ScatterFrom(s4, at, offs, lanes, 4) == s4;
    assert Memory.ScatterFrom(s3, at, offs, lanes, 3) == s4;
    assert Memory.ScatterFrom(s2, at, offs, lanes, 2) == s4;
    assert Memory.ScatterFrom(s1, at, offs, lanes, 1) == s4;
  }

  /** `operator<<(double *, vec)`: a `Store`. */
  method StoreTo(data: array<Lane>, at: nat, vec: ShortVec4)
    requires at + ARITY <= data.Length
    modifies data
    ensures data[..] == Memory.Splice(old(data[..]), at, vec.Lanes())
  {
    vec.Store(data, at);
  }

  /** The free `sqrt(vec)`. */
  method SqrtOf(vec: ShortVec4, fpu: Fpu) returns (r: ShortVec4)
    ensures fresh(r) && r.Lanes() == Map1(fpu.sqrt, vec.Lanes())
  {
    r := vec.Sqrt(fpu);
  }

  /** Elements separated by ", ". */
  function Join(xs: seq<string>): string
  {
    if |xs| == 0 then ""
    else if |xs| == 1 then xs[0]
    else xs[0] + ", " + Join(xs[1..])
  }

  lemma JoinFour(xs: seq<string>)
    requires |xs| == 4
    ensures Join(xs) == xs[0] + ", " + xs[1] + ", " + xs[2] + ", " + xs[3]
  {
    var t1 := xs[1..];
    var t2 := t1[1..];
    var t3 := t2[1..];
    assert Join(t3) == xs[3];
    assert Join(t2) == xs[2] + ", " + Join(t3);
    assert Join(t1) == xs[1] + ", " + Join(t2);
  }

  function MapShow(show: Lane -> string, lanes: seq<Lane>): (r: seq<string>)
    ensures |r| == |lanes|
  {
    seq(|lanes|, i requires 0 <= i < |lanes| => show(lanes[i]))
  }

  /**
   * The stream formatter: the lanes in logical order, each printed by
   * `show`, between brackets and separated by ", ".
   */
  function Format(vec: ShortVec4, show: Lane -> string): (r: string)
    reads vec
    ensures r == "[" + Join(MapShow(show, vec.Lanes())) + "]"
  {
    JoinFour(MapShow(show, vec.Lanes()));
    "[" + show(vec.val1.lo) + ", " + show(vec.val1.hi) + ", " + show(vec.val2.lo) + ", " + show(vec.val2.hi) + "]"
  }

  // Properties relating several operations.

  /** A store followed by a load of the same four elements reproduces the vector. */
  method StoreThenLoad(v: ShortVec4, data: array<Lane>, at: nat) returns (w: ShortVec4)
    requires at + ARITY <= data.Length
    modifies data
    ensures fresh(w) && w.Lanes() == v.Lanes()
    ensures forall k :: 0 <= k < data.Length && !(at <= k < at + ARITY) ==> data[k] == old(data[k])
  {
    v.Store(data, at);
    w := new ShortVec4.FromPointer(data, at);
  }

  /** After `load`, `get(i)` reads element `at + i` of the buffer. */
  method LoadThenGet(v: ShortVec4, data: array<Lane>, at: nat, i: int32) returns (x: Lane)
    requires at + ARITY <= data.Length
    requires 0 <= i < ARITY as int32
    modifies v
    ensures x == data[at + i as int]
  {
    v.Load(data, at);
    x := v.Get(i);
  }

  /** With pairwise-distinct offsets, a scatter followed by a gather into another vector reproduces the vector. */
  method ScatterThenGather(v: ShortVec4, w: ShortVec4, ptr: array<Lane>, at: nat, offsets: seq<int32>)
    requires |offsets| == ARITY
    requires Memory.InBounds(ptr.Length, at, offsets)
    requires Memory.Distinct(offsets)
    modifies ptr, w
    ensures w.Lanes() == old(v.Lanes())
  {
    v.Scatter(ptr, at, offsets);
    Memory.GatherAfterScatter(old(ptr[..]), at, offsets, v.Lanes());
    w.Gather(ptr, at, offsets);
  }

  /** Every in-place operator leaves its receiver equal to what the value operator returns. */
  method AssignFormsAgree(a: ShortVec4, b: ShortVec4, fpu: Fpu, op: ArithOp) returns (c: ShortVec4)
    modifies a
    ensures fresh(c) && c.Lanes() == a.Lanes() == Zip(OpOf(fpu, op), old(a.Lanes()), old(b.Lanes()))
  {
    match op
    case Add =>
      c := a.Add(b, fpu);
      a.AddAssign(b, fpu);
    case Sub =>
      c := a.Sub(b, fpu);
      a.SubAssign(b, fpu);
    case Mul =>
      c := a.Mul(b, fpu);
      a.MulAssign(b, fpu);
    case Div =>
      c := a.Div(b, fpu);
      a.DivAssign(b, fpu);
  }

  /** On a mask, the SSE4.1 and the SSE2 `blend` write the same lanes: `other`'s for all-ones, the receiver's for all-zeros. */
  lemma BlendPathsAgree(mask: seq<Lane>, other: seq<Lane>, self: seq<Lane>)
    requires |mask| == |other| == |self| == ARITY
    requires IsMask(mask)
    ensures Select(SignSelect, mask, other, self) == Select(BitSelect, mask, other, self) == Choose(mask, other, self)
  {
    SelectsAgreeOnMask(mask, other, self);
  }

  /** Two mask lanes or-ed together convert to `true` exactly when one of them is all-ones. */
  lemma MaskOrToBool(a: Lane, b: Lane)
    requires IsMaskLane(a) && IsMaskLane(b)
    ensures DoubleToBool(Or(a, b)) <==> a == ALL_ONES || b == ALL_ONES
  {
    if a == ALL_ONES {
      assert Or(a, b) == ALL_ONES;
    } else if b == ALL_ONES {
      assert Or(a, b) == ALL_ONES;
    } else {
      assert Or(a, b) == 0;
    }
  }

  /** On a mask the two `any` paths agree: both are true exactly when some lane is all-ones. */
  lemma AnyPathsAgree(v: ShortVec4)
    requires IsMask(v.Lanes())
    ensures v.AnySse2() <==> exists i | 0 <= i < ARITY :: v.Lanes()[i] == ALL_ONES
    ensures v.AnySse41() == v.AnySse2()
  {
    var l := v.Lanes();
    assert IsMaskLane(l[0]) && IsMaskLane(l[1]) && IsMaskLane(l[2]) && IsMaskLane(l[3]);
    MaskOrToBool(l[0], l[2]);
    MaskOrToBool(l[1], l[3]);
  }

  /** Off masks they need not: a lane holding only the sign bit (-0.0) is nonzero but converts to `false`. */
  lemma AnyPathsDisagreeOnNegativeZero(v: ShortVec4)
    requires v.Lanes() == [SIGN_BIT, 0, 0, 0]
    ensures v.AnySse41() && !v.AnySse2()
  {
    assert v.Lanes()[0] != 0;
  }

  /**
   * A worked example: a = [1, 2, 3, 4], b = [4, 3, 2, 1]. For any unit that
   * orders these doubles as arithmetic does, a < b is [true, true, false,
   * false] and blending b into a by it gives [4, 3, 3, 4].
   */
  lemma BlendScenario(fpu: Fpu)
    requires fpu.lt(ONE, FOUR) && fpu.lt(TWO, THREE) && !fpu.lt(THREE, TWO) && !fpu.lt(FOUR, ONE)
    ensures Compare(fpu.lt, [ONE, TWO, THREE, FOUR], [FOUR, THREE, TWO, ONE]) == [ALL_ONES, ALL_ONES, 0, 0]
    ensures Select(BitSelect, Compare(fpu.lt, [ONE, TWO, THREE, FOUR], [FOUR, THREE, TWO, ONE]),
                   [FOUR, THREE, TWO, ONE], [ONE, TWO, THREE, FOUR]) == [FOUR, THREE, THREE, FOUR]
  {
    var m := Compare(fpu.lt, [ONE, TWO, THREE, FOUR], [FOUR, THREE, TWO, ONE]);
    assert m == [ALL_ONES, ALL_ONES, 0, 0];
    SelectsAgreeOnMask(m, [FOUR, THREE, TWO, ONE], [ONE, TWO, THREE, FOUR]);
  }
}
